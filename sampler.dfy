/** The sampler behind `getTodayNews` and `getTodayVideos`: read the quota,
    cap the need, fetch the content list and draw random indices until the
    selection is long enough. */
module Sampler {
  import opened Core

  /** `roll` reduced into `0..n-1` by repeated subtraction. Proofs about the
      sampling loop use this instead of `%` to avoid nonlinear remainder
      reasoning; `WrapIsRemainder` shows that the two agree. */
  function Wrap(roll: nat, n: nat): (r: nat)
    requires n > 0
    ensures r < n
    decreases roll
  {
    if roll < n then roll else Wrap(roll - n, n)
  }

  /** `Wrap` is the remainder of `roll` divided by `n`. */
  lemma {:induction false} WrapIsRemainder(roll: nat, n: nat)
    requires n > 0
    ensures Wrap(roll, n) == roll % n
    decreases roll
  {
    if roll >= n {
      WrapIsRemainder(roll - n, n);
      ShiftRemainder(roll - n, n);
    }
  }

  lemma ShiftRemainder(a: nat, n: nat)
    requires n > 0
    ensures (a + n) % n == a % n
  {
    RemainderUnique(a + n, n, a / n + 1, a % n);
  }

  /** Euclidean division has one quotient and one remainder. */
  lemma RemainderUnique(a: int, n: int, q: int, r: int)
    requires n > 0 && 0 <= r < n && a == q * n + r
    ensures a % n == r && a / n == q
  {
    var q0, r0 := a / n, a % n;
    assert (q - q0) * n == r0 - r;
    if q > q0 {
      ProductAtLeast(q - q0, n);
    } else if q < q0 {
      ProductAtLeast(q0 - q, n);
    }
  }

  lemma ProductAtLeast(d: int, n: int)
    requires d >= 1 && n > 0
    ensures d * n >= n
  {
    assert d * n == (d - 1) * n + n;
  }

  /** The index a roll selects: `~~(Math.random() * (length + 1))`, which
      ranges over 0..length inclusive, so `length` itself is one past the end. */
  function Slot(list: seq<Item>, roll: nat): (i: nat)
    ensures i <= |list|
  {
    Wrap(roll, |list| + 1)
  }

  /** How a sampling loop ended: the selection is full, a draw read past the
      end of the list (a TypeError in the source), or the model's attempt
      ceiling was reached (where the source keeps spinning). */
  datatype DrawEnd = Filled | PastEnd | GaveUp

  /** The selection drawn and how many rolls it used. */
  datatype Drawn = Drawn(items: seq<Item>, used: nat, end: DrawEnd)

  /** What one roll contributes to a selection: the named item when it is
      eligible, nothing otherwise. */
  function Pick(kind: Kind, list: seq<Item>, roll: nat): seq<Item>
  {
    var slot := Slot(list, roll);
    if slot < |list| && Eligible(kind, list[slot]) then [list[slot]] else []
  }

  /** The sampling loop from a selection `items` already built, with rolls
      taken from `random` starting at `next`, and at most `budget` more draws. */
  function Draw(kind: Kind, list: seq<Item>, need: nat, random: nat -> nat,
                next: nat, items: seq<Item>, budget: nat): Drawn
    decreases budget
  {
    if |items| >= need then Drawn(items, 0, Filled)
    else if budget == 0 then Drawn(items, 0, GaveUp)
    else
      var slot := Slot(list, random(next));
      if slot == |list| then Drawn(items, 1, PastEnd)
      else
        var rest := Draw(kind, list, need, random, next + 1, items + Pick(kind, list, random(next)), budget - 1);
        rest.(used := rest.used + 1)
  }

  /** Reference definition: the eligible items named by the `n` rolls from
      `next` on, in draw order; a roll that names no item adds nothing. */
  function Accepted(kind: Kind, list: seq<Item>, random: nat -> nat, next: nat, n: nat): seq<Item>
    decreases n
  {
    if n == 0 then [] else Pick(kind, list, random(next)) + Accepted(kind, list, random, next + 1, n - 1)
  }

  /** The first `n` rolls from `next` all name an item of the list. */
  predicate InRange(list: seq<Item>, random: nat -> nat, next: nat, n: nat)
  {
    forall k :: next <= k < next + n ==> Slot(list, random(k)) < |list|
  }

  /** The loop never outgrows the need, stops full exactly when it reaches
      the need, and gives up only once its budget is spent. */
  lemma {:induction false} DrawBounded(kind: Kind, list: seq<Item>, need: nat, random: nat -> nat,
                                       next: nat, items: seq<Item>, budget: nat)
    requires |items| <= need
    ensures var d := Draw(kind, list, need, random, next, items, budget);
      && d.used <= budget
      && |items| <= |d.items| <= need
      && (d.end == Filled <==> |d.items| == need)
      && (d.end == GaveUp ==> d.used == budget)
    decreases budget
  {
    if |items| < need && budget > 0 {
      var slot := Slot(list, random(next));
      if slot < |list| {
        var grown := items + Pick(kind, list, random(next));
        DrawBounded(kind, list, need, random, next + 1, grown, budget - 1);
      }
    }
  }

  /** Every item the loop adds is an eligible member of the list; an
      ineligible draw adds nothing. */
  lemma {:induction false} DrawEligible(kind: Kind, list: seq<Item>, need: nat, random: nat -> nat,
                                        next: nat, items: seq<Item>, budget: nat)
    requires forall x :: x in items ==> Eligible(kind, x) && x in list
    ensures forall x :: x in Draw(kind, list, need, random, next, items, budget).items ==>
      Eligible(kind, x) && x in list
    decreases budget
  {
    if |items| < need && budget > 0 {
      var slot := Slot(list, random(next));
      if slot < |list| {
        var grown := items + Pick(kind, list, random(next));
        DrawEligible(kind, list, need, random, next + 1, grown, budget - 1);
      }
    }
  }

  /** The selection is exactly the eligible items the rolls named, in draw
      order. */
  lemma {:induction false} DrawIsAccepted(kind: Kind, list: seq<Item>, need: nat, random: nat -> nat,
                                          next: nat, items: seq<Item>, budget: nat)
    ensures var d := Draw(kind, list, need, random, next, items, budget);
      d.items == items + Accepted(kind, list, random, next, d.used)
    decreases budget, 1
  {
    if |items| < need && budget > 0 {
      if Slot(list, random(next)) == |list| {
        assert Accepted(kind, list, random, next, 1) == Pick(kind, list, random(next)) + [];
      } else {
        DrawIsAcceptedStep(kind, list, need, random, next, items, budget);
      }
    }
  }

  /** The inductive step: a roll that names an item contributes its pick. */
  lemma {:induction false} DrawIsAcceptedStep(kind: Kind, list: seq<Item>, need: nat, random: nat -> nat,
                                              next: nat, items: seq<Item>, budget: nat)
    requires |items| < need && budget > 0 && Slot(list, random(next)) < |list|
    ensures var d := Draw(kind, list, need, random, next, items, budget);
      d.items == items + Accepted(kind, list, random, next, d.used)
    decreases budget, 0
  {
    var head := Pick(kind, list, random(next));
    DrawIsAccepted(kind, list, need, random, next + 1, items + head, budget - 1);
    var rest := Draw(kind, list, need, random, next + 1, items + head, budget - 1);
    assert (items + head) + Accepted(kind, list, random, next + 1, rest.used)
        == items + (head + Accepted(kind, list, random, next + 1, rest.used));
  }

  /** Only the last roll of a loop can name the slot past the end, and it
      does exactly when the loop ends with that fault. */
  lemma {:induction false} DrawPastEnd(kind: Kind, list: seq<Item>, need: nat, random: nat -> nat,
                                       next: nat, items: seq<Item>, budget: nat)
    ensures var d := Draw(kind, list, need, random, next, items, budget);
      && (d.end != PastEnd ==> InRange(list, random, next, d.used))
      && (d.end == PastEnd ==> d.used > 0 && InRange(list, random, next, d.used - 1)
                                && Slot(list, random(next + d.used - 1)) == |list|)
    decreases budget
  {
    if |items| < need && budget > 0 {
      var slot := Slot(list, random(next));
      if slot < |list| {
        var grown := items + Pick(kind, list, random(next));
        DrawPastEnd(kind, list, need, random, next + 1, grown, budget - 1);
      }
    }
  }

  /** How a sampling call ended. */
  datatype SelEnd = Picked | Threw(fault: Fault) | Spins

  /** A selection, the collaborator calls after it, and how it ended. */
  datatype Selection = Selection(items: seq<Item>, calls: Calls, end: SelEnd)

  /** `getTodayNews` / `getTodayVideos`: read the quota once; with no list,
      select nothing; otherwise cap the need, fetch the content list once and,
      when it is not empty, run the sampling loop on it. */
  function Today(kind: Kind, cfg: Config, w: World, c: Calls): (s: Selection)
    ensures s.calls.quota == c.quota + 1
  {
    var c1 := c.(quota := c.quota + 1);
    match Lookup(w.quota(c.quota), Ordinal(kind))
    case Unlisted => Selection([], c1, Picked)
    case Missing => Selection([], c1, Threw(MissingQuota(Ordinal(kind))))
    case Listed(q) =>
      var need := Needed(kind, cfg, q);
      var list := w.content(c.content);
      var c2 := c1.(content := c.content + 1);
      if |list| == 0 then Selection([], c2, Picked)
      else
        var d := Draw(kind, list, need, w.random, c.random, [], cfg.drawLimit);
        Selection(d.items, c2.(random := c.random + d.used),
                  match d.end
                  case Filled => Picked
                  case PastEnd => Threw(UndefinedItem)
                  case GaveUp => Spins)
  }

  /** The sampling `while` loop on a non-empty content list: grow the
      selection one eligible draw at a time, with at most `limit` draws. */
  method Sample(kind: Kind, list: seq<Item>, need: nat, random: nat -> nat, next: nat, limit: nat)
    returns (d: Drawn)
    ensures d == Draw(kind, list, need, random, next, [], limit)
  {
    var items: seq<Item> := [];
    var used := 0;
    while |items| < need
      invariant used <= limit
      invariant var rest := Draw(kind, list, need, random, next + used, items, limit - used);
        Draw(kind, list, need, random, next, [], limit) == rest.(used := rest.used + used)
      decreases limit - used
    {
      if used == limit {
        return Drawn(items, used, GaveUp);
      }
      var roll := random(next + used);
      var slot := Slot(list, roll);
      used := used + 1;
      if slot == |list| {
        // list[length] is undefined and reading its dataValid throws
        return Drawn(items, used, PastEnd);
      }
      var item := list[slot];
      ghost var before := items;
      if Eligible(kind, item) {
        items := items + [item];
      }
      assert items == before + Pick(kind, list, roll);
    }
    return Drawn(items, used, Filled);
  }

  /** The selection the engine works through: one quota read, one content
      fetch, then the sampling loop. */
  method TodaySelection(kind: Kind, cfg: Config, w: World, c: Calls) returns (s: Selection)
    ensures s == Today(kind, cfg, w, c)
  {
    var calls := c.(quota := c.quota + 1);
    var entry := Lookup(w.quota(c.quota), Ordinal(kind));
    if entry.Unlisted? {
      return Selection([], calls, Picked);
    }
    if entry.Missing? {
      return Selection([], calls, Threw(MissingQuota(Ordinal(kind))));
    }
    var need := Needed(kind, cfg, entry.quota);
    var list := w.content(c.content);
    calls := calls.(content := c.content + 1);
    if |list| == 0 {
      return Selection([], calls, Picked);
    }
    var d := Sample(kind, list, need, w.random, c.random, cfg.drawLimit);
    calls := calls.(random := c.random + d.used);
    var end := match d.end
      case Filled => Picked
      case PastEnd => Threw(UndefinedItem)
      case GaveUp => Spins;
    return Selection(d.items, calls, end);
  }

  /** The promises of one sampling call: exactly one quota read; with no
      list or an empty content list nothing is drawn and nothing selected;
      a selection that ends normally has exactly the capped need, and every
      selected item is an eligible member of the fetched list; a fault is
      raised only by a roll naming the slot one past the end. */
  lemma TodaySound(kind: Kind, cfg: Config, w: World, c: Calls)
    ensures var s := Today(kind, cfg, w, c);
      && (Lookup(w.quota(c.quota), Ordinal(kind)).Unlisted? ==>
            s.items == [] && s.calls == c.(quota := c.quota + 1) && s.end == Picked)
      && (Lookup(w.quota(c.quota), Ordinal(kind)).Listed? && |w.content(c.content)| == 0 ==>
            s.items == [] && s.calls.random == c.random && s.end == Picked)
      && (forall x :: x in s.items ==> Eligible(kind, x) && x in w.content(c.content))
      && (s.end == Picked && Lookup(w.quota(c.quota), Ordinal(kind)).Listed? && |w.content(c.content)| > 0 ==>
            |s.items| == Needed(kind, cfg, Lookup(w.quota(c.quota), Ordinal(kind)).quota))
      && (s.end == Threw(UndefinedItem) ==>
            s.calls.random > c.random
            && Slot(w.content(c.content), w.random(s.calls.random - 1)) == |w.content(c.content)|)
  {
    var e := Lookup(w.quota(c.quota), Ordinal(kind));
    if e.Listed? && |w.content(c.content)| > 0 {
      var list, need := w.content(c.content), Needed(kind, cfg, e.quota);
      DrawBounded(kind, list, need, w.random, c.random, [], cfg.drawLimit);
      DrawEligible(kind, list, need, w.random, c.random, [], cfg.drawLimit);
      DrawPastEnd(kind, list, need, w.random, c.random, [], cfg.drawLimit);
    }
  }
}
