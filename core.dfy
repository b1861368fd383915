/** Values shared by every part of the task-completion engine: content items,
    quota snapshots, the answers of the external collaborators, and the
    progress events the engine reports. */
module Core {

  datatype Option<T> = None | Some(value: T)

  /** The two task kinds the engine drives; `handleWatch(0)` reads articles,
      `handleWatch(1)` watches videos. */
  datatype Kind = Reading | Watching

  /** Position of a kind's record in the quota list. */
  function Ordinal(kind: Kind): nat
  {
    match kind
    case Reading => 0
    case Watching => 1
  }

  /** A content item as the content source delivers it; `tag` is the item's
      `type` field ("tuwen", "shipin", "juji", ...). Publication metadata is
      never read by the engine and is not kept. */
  datatype Item = Item(title: string, url: string, tag: string, dataValid: bool)

  /** One per-kind quota record: units still required and whether the kind
      is already satisfied. */
  datatype Quota = Quota(need: nat, status: bool)

  /** An answer of the quota source: a list of records, or nothing. */
  type Snapshot = Option<seq<Quota>>

  /** What reading `taskList[k]` gives: no list at all (a falsy answer), a
      list without a record at `k` (where the source dereferences
      `undefined` and throws), or the record. */
  datatype Entry = Unlisted | Missing | Listed(quota: Quota)

  function Lookup(snap: Snapshot, ordinal: nat): Entry
  {
    match snap
    case None => Unlisted
    case Some(records) =>
      if ordinal < |records| then Listed(records[ordinal]) else Missing
  }

  /** The snapshot reports the kind as satisfied (`taskList && taskList[k].status`). */
  predicate Met(snap: Snapshot, kind: Kind)
  {
    var e := Lookup(snap, Ordinal(kind));
    e.Listed? && e.quota.status
  }

  /** The snapshot stops the engine from going on: no list, or a satisfied record. */
  predicate Settled(snap: Snapshot, kind: Kind)
  {
    Lookup(snap, Ordinal(kind)).Unlisted? || Met(snap, kind)
  }

  /** A TypeError the engine does not catch. */
  datatype Fault =
    | UndefinedItem          // the drawn index is one past the content list
    | MissingQuota(ordinal: nat)  // the quota list has no record for the kind

  /** The external collaborators, as oracles indexed by how many times each
      has been asked before. */
  datatype World = World(
    quota: nat -> Snapshot,       // k-th answer of getTaskList()
    content: nat -> seq<Item>,    // k-th answer of getNews() / getVideos()
    random: nat -> nat,           // k-th Math.random() draw, as an integer roll
    nav: nat -> bool,             // result of the k-th gotoPage()
    canPlay: nat -> bool,         // first phase of the k-th waitVideos()
    playing: nat -> bool,         // second phase of the k-th waitVideos()
    hasPage: bool)                // whether shared.getPage() returns a page

  /** How many times each collaborator has been asked so far. */
  datatype Calls = Calls(quota: nat, content: nat, random: nat, nav: nat, probe: nat)

  /** Study configuration (`maxNewsNum`, `maxVideoNum`) plus the attempt
      ceiling the model puts on one sampling loop. */
  datatype Config = Config(maxNewsNum: nat, maxVideoNum: nat, drawLimit: nat)

  /** Whether an item may be selected for the kind. */
  predicate Eligible(kind: Kind, item: Item)
  {
    item.dataValid &&
    match kind
    case Reading => item.tag == "tuwen"
    case Watching => item.tag == "shipin" || item.tag == "juji"
  }

  function MaxFor(kind: Kind, cfg: Config): nat
  {
    match kind
    case Reading => cfg.maxNewsNum
    case Watching => cfg.maxVideoNum
  }

  /** Number of items to select: the record's need, capped at the kind's
      configured maximum. */
  function Needed(kind: Kind, cfg: Config, q: Quota): (n: nat)
    ensures n <= q.need && n <= MaxFor(kind, cfg)
    ensures n == q.need || n == MaxFor(kind, cfg)
  {
    var max := MaxFor(kind, cfg);
    if q.need < max then q.need else max
  }

  /** Dwell seconds from one random roll: `~~(Math.random() * 20 + 80)` for
      articles, `~~(Math.random() * 80 + 100)` for videos. */
  function Duration(kind: Kind, roll: nat): (seconds: nat)
    ensures kind == Reading ==> 80 <= seconds < 100
    ensures kind == Watching ==> 100 <= seconds < 180
  {
    match kind
    case Reading => 80 + roll % 20
    case Watching => 100 + roll % 80
  }

  /** `title.substring(0, 15)`. */
  function Title15(title: string): (shown: string)
    ensures |shown| <= 15 && shown <= title
    ensures |title| <= 15 ==> shown == title
    ensures |title| > 15 ==> |shown| == 15
  {
    if |title| <= 15 then title else title[..15]
  }

  /** Progress events the engine reports, in order. */
  datatype Event =
    | NavFailed(pos: nat, total: nat, title: string)  // progress.fail: page jump failed
    | Visiting(pos: nat, total: nat, title: string)   // progress.info: item in progress
    | PlaybackSkipped                                 // progress.info: watch failed, skip
    | Remaining(seconds: nat)                         // progress.start: seconds left
    | ItemDone(kind: Kind)                            // progress.succeed: item finished
    | ScrolledDown                                    // page scrolled by a third
    | ScrolledToTop                                   // page scrolled back to the top
    | Continuing(kind: Kind)                          // progress.info: quota unmet, go on
}
