/** The task orchestrator: `handleWatch` dispatches on the task kind to
    `handleReadNews` or `handleWatchVideo`, which work through a selection
    item by item, skip the items that fail, stop early once the quota is
    met and start over while it is not. */
module Orchestrator {
  import opened Core
  import opened Sampler
  import opened Countdown
  import opened Prober

  /** What the dwell callback reports for one argument: the seconds left
      while the count is positive, the item-finished message at zero. */
  function Said(kind: Kind, seconds: nat): Event
  {
    if seconds != 0 then Remaining(seconds) else ItemDone(kind)
  }

  function CallEvents(kind: Kind, args: seq<nat>): seq<Event>
  {
    if args == [] then [] else [Said(kind, args[0])] + CallEvents(kind, args[1..])
  }

  /** The events of one dwell: per tick, the callback's reports, then the
      scrolls. */
  function DwellEvents(kind: Kind, ticks: seq<Tick>): seq<Event>
  {
    if ticks == [] then []
    else
      CallEvents(kind, ticks[0].calls)
      + (if ticks[0].scrollDown then [ScrolledDown] else [])
      + (if ticks[0].scrollTop then [ScrolledToTop] else [])
      + DwellEvents(kind, ticks[1..])
  }

  /** How a pass over a selection ended: every item tried, a quota re-read
      reported the kind satisfied (`break`), or a re-read threw. */
  datatype PassEnd = Exhausted | Satisfied | Aborted(fault: Fault)

  datatype Verdict = Next | Stop(end: PassEnd)

  /** The events and calls of one item, and whether the pass goes on. */
  datatype Step = Step(events: seq<Event>, calls: Calls, verdict: Verdict)

  /** The body of the `for` loop for item `i`: navigate; on failure report
      it and go on; otherwise report the item, for videos run the playback
      probe and go on when it fails, then dwell for a random duration and
      re-read the quota, stopping when it reports the kind satisfied. */
  function Visit(kind: Kind, w: World, sel: seq<Item>, i: nat, c: Calls): Step
    requires i < |sel|
  {
    var pos, total, title := i + 1, |sel|, Title15(sel[i].title);
    var c1 := c.(nav := c.nav + 1);
    if !w.nav(c.nav) then Step([NavFailed(pos, total, title)], c1, Next)
    else if kind == Watching && !WaitVideos(w, c.probe).ok then
      Step([Visiting(pos, total, title), PlaybackSkipped], c1.(probe := c.probe + 1), Next)
    else
      var c2 := if kind == Watching then c1.(probe := c.probe + 1) else c1;
      var seconds := Duration(kind, w.random(c.random));
      var ticks := if w.hasPage then Schedule(seconds) else [];
      var events := [Visiting(pos, total, title)] + DwellEvents(kind, ticks);
      var c3 := c2.(random := c.random + 1, quota := c.quota + 1);
      match Lookup(w.quota(c.quota), Ordinal(kind))
      case Unlisted => Step(events, c3, Next)
      case Missing => Step(events, c3, Stop(Aborted(MissingQuota(Ordinal(kind)))))
      case Listed(q) => Step(events, c3, if q.status then Stop(Satisfied) else Next)
  }

  datatype PassRun = PassRun(events: seq<Event>, calls: Calls, end: PassEnd)

  /** The `for` loop over the selection from item `i` on. */
  function Pass(kind: Kind, w: World, sel: seq<Item>, i: nat, c: Calls): PassRun
    requires i <= |sel|
    decreases |sel| - i
  {
    if i == |sel| then PassRun([], c, Exhausted)
    else
      var s := Visit(kind, w, sel, i, c);
      match s.verdict
      case Stop(e) => PassRun(s.events, s.calls, e)
      case Next =>
        var rest := Pass(kind, w, sel, i + 1, s.calls);
        PassRun(s.events + rest.events, rest.calls, rest.end)
  }

  /** How a run of one task kind ended: normally, with an uncaught
      TypeError, in a sampling loop the source never leaves, or at the
      model's bound on the number of rounds. */
  datatype Outcome = Completed | Crashed(fault: Fault) | Stuck | OutOfRounds

  datatype Trace = Trace(events: seq<Event>, calls: Calls, outcome: Outcome)

  /** `handleReadNews` / `handleWatchVideo`, with at most `rounds` calls of
      itself counted from this one: select, then work through the selection. */
  function Rounds(kind: Kind, cfg: Config, w: World, c: Calls, rounds: nat): Trace
    decreases rounds, 0
  {
    if rounds == 0 then Trace([], c, OutOfRounds)
    else
      var s := Today(kind, cfg, w, c);
      match s.end
      case Threw(f) => Trace([], s.calls, Crashed(f))
      case Spins => Trace([], s.calls, Stuck)
      case Picked => Resume(kind, cfg, w, Pass(kind, w, s.items, 0, s.calls), rounds - 1)
  }

  /** What follows the pass `p`: re-read the quota and start over (with at
      most `rounds` further calls) when the kind is listed and unmet. */
  function Resume(kind: Kind, cfg: Config, w: World, p: PassRun, rounds: nat): Trace
    decreases rounds, 1
  {
    if p.end.Aborted? then Trace(p.events, p.calls, Crashed(p.end.fault))
    else
      var c1 := p.calls.(quota := p.calls.quota + 1);
      match Lookup(w.quota(p.calls.quota), Ordinal(kind))
      case Unlisted => Trace(p.events, c1, Completed)
      case Missing => Trace(p.events, c1, Crashed(MissingQuota(Ordinal(kind))))
      case Listed(q) =>
        if q.status then Trace(p.events, c1, Completed)
        else
          var r := Rounds(kind, cfg, w, c1, rounds);
          Trace(p.events + [Continuing(kind)] + r.events, r.calls, r.outcome)
  }

  /** One turn of the `for` loop: its early `continue`s become early
      returns with verdict `Next`, its `break` the verdict `Stop`. */
  method VisitItem(kind: Kind, w: World, sel: seq<Item>, i: nat, c: Calls) returns (s: Step)
    requires i < |sel|
    ensures s == Visit(kind, w, sel, i, c)
  {
    var pos, total, title := i + 1, |sel|, Title15(sel[i].title);
    var calls := c.(nav := c.nav + 1);
    var reached := w.nav(c.nav);
    if !reached {
      return Step([NavFailed(pos, total, title)], calls, Next);
    }
    var events := [Visiting(pos, total, title)];
    if kind == Watching {
      var played := WaitVideos(w, calls.probe).ok;
      calls := calls.(probe := calls.probe + 1);
      if !played {
        return Step(events + [PlaybackSkipped], calls, Next);
      }
    }
    var seconds := Duration(kind, w.random(calls.random));
    calls := calls.(random := calls.random + 1);
    var _, ticks := CountDown(w.hasPage, seconds);
    events := events + DwellEvents(kind, ticks);
    var entry := Lookup(w.quota(calls.quota), Ordinal(kind));
    calls := calls.(quota := calls.quota + 1);
    if entry.Missing? {
      return Step(events, calls, Stop(Aborted(MissingQuota(Ordinal(kind)))));
    }
    if entry.Listed? && entry.quota.status {
      return Step(events, calls, Stop(Satisfied));
    }
    return Step(events, calls, Next);
  }

  /** A pass run preceded by the events of the items already visited. */
  function Prefixed(done: seq<Event>, p: PassRun): PassRun
  {
    PassRun(done + p.events, p.calls, p.end)
  }

  /** Prefixing twice is prefixing with the two event lists joined. */
  lemma PrefixedTwice(done: seq<Event>, more: seq<Event>, p: PassRun)
    ensures Prefixed(done, Prefixed(more, p)) == Prefixed(done + more, p)
  {
  }

  /** The `for` loop of `handleReadNews` / `handleWatchVideo`. */
  method VisitAll(kind: Kind, w: World, sel: seq<Item>, c: Calls) returns (p: PassRun)
    ensures p == Pass(kind, w, sel, 0, c)
  {
    var events: seq<Event> := [];
    var calls := c;
    var i := 0;
    while i < |sel|
      invariant 0 <= i <= |sel|
      invariant Pass(kind, w, sel, 0, c) == Prefixed(events, Pass(kind, w, sel, i, calls))
      decreases |sel| - i
    {
      var step := VisitItem(kind, w, sel, i, calls);
      if step.verdict.Stop? {
        return PassRun(events + step.events, step.calls, step.verdict.end);
      }
      ghost var rest := Pass(kind, w, sel, i + 1, step.calls);
      PrefixedTwice(events, step.events, rest);
      events, calls, i := events + step.events, step.calls, i + 1;
    }
    return PassRun(events, calls, Exhausted);
  }

  /** `handleReadNews` / `handleWatchVideo`: the selection, the pass over
      it, the final quota read and the tail call. */
  method HandleTask(kind: Kind, cfg: Config, w: World, c: Calls, rounds: nat) returns (r: Trace)
    ensures r == Rounds(kind, cfg, w, c, rounds)
    decreases rounds
  {
    if rounds == 0 {
      return Trace([], c, OutOfRounds);
    }
    var s := TodaySelection(kind, cfg, w, c);
    if s.end.Threw? {
      return Trace([], s.calls, Crashed(s.end.fault));
    }
    if s.end.Spins? {
      return Trace([], s.calls, Stuck);
    }
    var p := VisitAll(kind, w, s.items, s.calls);
    if p.end.Aborted? {
      return Trace(p.events, p.calls, Crashed(p.end.fault));
    }
    var entry := Lookup(w.quota(p.calls.quota), Ordinal(kind));
    var calls := p.calls.(quota := p.calls.quota + 1);
    if entry.Missing? {
      return Trace(p.events, calls, Crashed(MissingQuota(Ordinal(kind))));
    }
    if entry.Unlisted? || entry.quota.status {
      return Trace(p.events, calls, Completed);
    }
    var more := HandleTask(kind, cfg, w, calls, rounds - 1);
    r := Trace(p.events + [Continuing(kind)] + more.events, more.calls, more.outcome);
  }

  /** `handleWatch(type)`: type 0 reads articles, type 1 watches videos,
      any other type does nothing. */
  method HandleWatch(taskType: int, cfg: Config, w: World, c: Calls, rounds: nat) returns (r: Trace)
    ensures taskType == 0 ==> r == Rounds(Reading, cfg, w, c, rounds)
    ensures taskType == 1 ==> r == Rounds(Watching, cfg, w, c, rounds)
    ensures taskType != 0 && taskType != 1 ==> r == Trace([], c, Completed)
  {
    r := Trace([], c, Completed);
    if taskType == 0 {
      r := HandleTask(Reading, cfg, w, c, rounds);
    }
    if taskType == 1 {
      r := HandleTask(Watching, cfg, w, c, rounds);
    }
  }

  // ---------------------------------------------------------------------
  // Properties of a pass

  /** A navigation report: position, total, shown title, and whether the
      page was reached. */
  datatype Heading = Heading(pos: nat, total: nat, title: string, reached: bool)

  /** The navigation reports among the events, in order. */
  function Headings(events: seq<Event>): seq<Heading>
  {
    if events == [] then []
    else
      (match events[0]
       case NavFailed(p, t, s) => [Heading(p, t, s, false)]
       case Visiting(p, t, s) => [Heading(p, t, s, true)]
       case _ => [])
      + Headings(events[1..])
  }

  lemma {:induction false} HeadingsAppend(a: seq<Event>, b: seq<Event>)
    ensures Headings(a + b) == Headings(a) + Headings(b)
    decreases |a|
  {
    if a == [] {
      assert a + b == b;
    } else {
      assert (a + b)[1..] == a[1..] + b;
      HeadingsAppend(a[1..], b);
    }
  }

  /** Events a dwell may report. */
  predicate DwellReport(e: Event)
  {
    e.Remaining? || e.ItemDone? || e.ScrolledDown? || e.ScrolledToTop?
  }

  lemma {:induction false} CallEventsReport(kind: Kind, args: seq<nat>)
    ensures forall e :: e in CallEvents(kind, args) ==> DwellReport(e)
    decreases |args|
  {
    if args != [] {
      CallEventsReport(kind, args[1..]);
    }
  }

  /** A dwell reports only the seconds left, the end of the item and the
      scrolls. */
  lemma {:induction false} DwellEventsReport(kind: Kind, ticks: seq<Tick>)
    ensures forall e :: e in DwellEvents(kind, ticks) ==> DwellReport(e)
    decreases |ticks|
  {
    if ticks != [] {
      CallEventsReport(kind, ticks[0].calls);
      DwellEventsReport(kind, ticks[1..]);
    }
  }

  lemma {:induction false} HeadingsOfReports(events: seq<Event>)
    requires forall e :: e in events ==> DwellReport(e)
    ensures Headings(events) == []
    decreases |events|
  {
    if events != [] {
      assert DwellReport(events[0]);
      assert forall e :: e in events[1..] ==> e in events;
      HeadingsOfReports(events[1..]);
    }
  }

  /** Each item produces exactly one navigation report, for its own
      position, and asks the navigator exactly once. */
  lemma VisitHeading(kind: Kind, w: World, sel: seq<Item>, i: nat, c: Calls)
    requires i < |sel|
    ensures var s := Visit(kind, w, sel, i, c);
      && s.calls.nav == c.nav + 1
      && Headings(s.events) == [Heading(i + 1, |sel|, Title15(sel[i].title), w.nav(c.nav))]
  {
    var s := Visit(kind, w, sel, i, c);
    var title := Title15(sel[i].title);
    if !w.nav(c.nav) {
      assert Headings(s.events) == [Heading(i + 1, |sel|, title, false)] + Headings([]);
    } else if kind == Watching && !WaitVideos(w, c.probe).ok {
      assert Headings([PlaybackSkipped]) == [] + Headings([]);
      HeadingsAppend([Visiting(i + 1, |sel|, title)], [PlaybackSkipped]);
    } else {
      var seconds := Duration(kind, w.random(c.random));
      var ticks := if w.hasPage then Schedule(seconds) else [];
      DwellEventsReport(kind, ticks);
      HeadingsOfReports(DwellEvents(kind, ticks));
      HeadingsAppend([Visiting(i + 1, |sel|, title)], DwellEvents(kind, ticks));
    }
  }

  /** A pass from item `i` asks the navigator once per item it tries, and
      tries every remaining item unless it stopped on a quota re-read. */
  lemma {:induction false} PassAttempts(kind: Kind, w: World, sel: seq<Item>, i: nat, c: Calls)
    requires i <= |sel|
    ensures var p := Pass(kind, w, sel, i, c);
      && c.nav <= p.calls.nav <= c.nav + (|sel| - i)
      && (p.end == Exhausted ==> p.calls.nav == c.nav + (|sel| - i))
    decreases |sel| - i
  {
    if i < |sel| {
      var s := Visit(kind, w, sel, i, c);
      if s.verdict.Next? {
        PassAttempts(kind, w, sel, i + 1, s.calls);
      }
    }
  }

  /** The reports expected of `m` tries from item `i`, the first of them
      answered by the `nav`-th navigation. */
  function Expected(w: World, sel: seq<Item>, i: nat, nav: nat, m: nat): seq<Heading>
    requires i + m <= |sel|
    decreases m
  {
    if m == 0 then []
    else [Heading(i + 1, |sel|, Title15(sel[i].title), w.nav(nav))] + Expected(w, sel, i + 1, nav + 1, m - 1)
  }

  lemma {:induction false} ExpectedAt(w: World, sel: seq<Item>, i: nat, nav: nat, m: nat)
    requires i + m <= |sel|
    ensures |Expected(w, sel, i, nav, m)| == m
    ensures forall j {:trigger Expected(w, sel, i, nav, m)[j]} :: 0 <= j < m ==>
      Expected(w, sel, i, nav, m)[j] == Heading(i + j + 1, |sel|, Title15(sel[i + j].title), w.nav(nav + j))
    decreases m
  {
    if m > 0 {
      ExpectedAt(w, sel, i + 1, nav + 1, m - 1);
      var es := Expected(w, sel, i, nav, m);
      forall j | 0 <= j < m
        ensures es[j] == Heading(i + j + 1, |sel|, Title15(sel[i + j].title), w.nav(nav + j))
      {
        if j > 0 {
          assert es[j] == Expected(w, sel, i + 1, nav + 1, m - 1)[j - 1];
        }
      }
    }
  }

  /** The navigation reports of a pass from item `i` are those expected of
      the items it tried. */
  lemma {:induction false} PassHeadings(kind: Kind, w: World, sel: seq<Item>, i: nat, c: Calls)
    requires i <= |sel|
    ensures var p := Pass(kind, w, sel, i, c);
      && c.nav <= p.calls.nav <= c.nav + (|sel| - i)
      && Headings(p.events) == Expected(w, sel, i, c.nav, p.calls.nav - c.nav)
    decreases |sel| - i, 1
  {
    PassAttempts(kind, w, sel, i, c);
    if i < |sel| {
      var s := Visit(kind, w, sel, i, c);
      VisitHeading(kind, w, sel, i, c);
      if s.verdict.Next? {
        PassHeadingsStep(kind, w, sel, i, c);
      } else {
        assert Expected(w, sel, i, c.nav, 1) == Headings(s.events) + Expected(w, sel, i + 1, c.nav + 1, 0);
      }
    }
  }

  lemma {:induction false} PassHeadingsStep(kind: Kind, w: World, sel: seq<Item>, i: nat, c: Calls)
    requires i < |sel| && Visit(kind, w, sel, i, c).verdict.Next?
    ensures var p := Pass(kind, w, sel, i, c);
      && c.nav <= p.calls.nav <= c.nav + (|sel| - i)
      && Headings(p.events) == Expected(w, sel, i, c.nav, p.calls.nav - c.nav)
    decreases |sel| - i, 0
  {
    var s := Visit(kind, w, sel, i, c);
    VisitHeading(kind, w, sel, i, c);
    var rest := Pass(kind, w, sel, i + 1, s.calls);
    PassHeadings(kind, w, sel, i + 1, s.calls);
    HeadingsAppend(s.events, rest.events);
    assert Expected(w, sel, i, c.nav, rest.calls.nav - c.nav)
        == Headings(s.events) + Expected(w, sel, i + 1, s.calls.nav, rest.calls.nav - s.calls.nav);
  }

  /** Skipping never aborts: the items a pass over a selection tries (see
      `PassAttempts`) are reported in selection order, one report each,
      carrying the 1-based position, the selection's length and the title
      cut to 15 characters, as failed when the navigator refused the page and
      as in progress otherwise. A refused item is followed by the next one:
      the pass tries every item unless it ended at a page that opened. */
  lemma SkipNeverAborts(kind: Kind, w: World, sel: seq<Item>, c: Calls)
    ensures var p := Pass(kind, w, sel, 0, c);
      && c.nav <= p.calls.nav <= c.nav + |sel|
      && |Headings(p.events)| == p.calls.nav - c.nav
      && (forall j {:trigger Headings(p.events)[j]} :: 0 <= j < p.calls.nav - c.nav ==>
            Headings(p.events)[j] == Heading(j + 1, |sel|, Title15(sel[j].title), w.nav(c.nav + j)))
    ensures var p := Pass(kind, w, sel, 0, c);
      && (p.end == Exhausted ==> p.calls.nav == c.nav + |sel|)
      && (p.end != Exhausted ==> c.nav < p.calls.nav && w.nav(p.calls.nav - 1))
  {
    PassAttempts(kind, w, sel, 0, c);
    PassEndsOnDwell(kind, w, sel, 0, c);
    PassHeadings(kind, w, sel, 0, c);
    var p := Pass(kind, w, sel, 0, c);
    HeadingsInOrder(w, sel, c.nav, Headings(p.events), p.calls.nav - c.nav);
  }

  lemma HeadingsInOrder(w: World, sel: seq<Item>, nav: nat, hs: seq<Heading>, m: nat)
    requires m <= |sel| && hs == Expected(w, sel, 0, nav, m)
    ensures |hs| == m
    ensures forall j {:trigger hs[j]} :: 0 <= j < m ==>
      hs[j] == Heading(j + 1, |sel|, Title15(sel[j].title), w.nav(nav + j))
  {
    ExpectedAt(w, sel, 0, nav, m);
  }

  /** What one turn of the loop decides. A refused page reports the failure
      and goes on, without a probe, a dwell or a re-read. A video that will
      not play reports the skip and goes on, without a dwell or a re-read.
      Otherwise the item dwells and re-reads the quota once, and the loop
      breaks exactly when that read reports the kind satisfied (or throws
      when the read lacks the kind's record); a read that lists the kind
      unmet, or gives no list, goes on to the next item. */
  lemma VisitDecides(kind: Kind, w: World, sel: seq<Item>, i: nat, c: Calls)
    requires i < |sel|
    ensures var s := Visit(kind, w, sel, i, c);
      var pos, total, title := i + 1, |sel|, Title15(sel[i].title);
      var dwells := w.nav(c.nav) && (kind == Watching ==> WaitVideos(w, c.probe).ok);
      var e := Lookup(w.quota(c.quota), Ordinal(kind));
      && (!w.nav(c.nav) ==>
            s == Step([NavFailed(pos, total, title)], c.(nav := c.nav + 1), Next))
      && (w.nav(c.nav) && kind == Watching && !WaitVideos(w, c.probe).ok ==>
            s == Step([Visiting(pos, total, title), PlaybackSkipped],
                      c.(nav := c.nav + 1, probe := c.probe + 1), Next))
      && (dwells ==>
            && s.calls.quota == c.quota + 1 && s.calls.random == c.random + 1
            && |s.events| > 0 && s.events[0] == Visiting(pos, total, title)
            && (s.verdict == Stop(Satisfied) <==> Met(w.quota(c.quota), kind))
            && (s.verdict.Stop? && s.verdict.end.Aborted? <==> e.Missing?))
      && (s.verdict.Stop? <==> dwells && (Met(w.quota(c.quota), kind) || e.Missing?))
  {
  }

  /** `continue`: a refused page or a video that will not play is followed
      by the rest of the pass, from the next item on. */
  lemma PassContinuesAfterSkip(kind: Kind, w: World, sel: seq<Item>, i: nat, c: Calls)
    requires i < |sel|
    ensures var s := Visit(kind, w, sel, i, c);
      var rest := Pass(kind, w, sel, i + 1, s.calls);
      !(w.nav(c.nav) && (kind == Watching ==> WaitVideos(w, c.probe).ok)) ==>
        && s.verdict == Next
        && Pass(kind, w, sel, i, c) == PassRun(s.events + rest.events, rest.calls, rest.end)
  {
  }

  /** `break`: a dwelled item whose re-read reports the kind satisfied ends
      the pass right there, with that item's events and calls. */
  lemma PassBreaksWhenMet(kind: Kind, w: World, sel: seq<Item>, i: nat, c: Calls)
    requires i < |sel|
    ensures var s := Visit(kind, w, sel, i, c);
      var p := Pass(kind, w, sel, i, c);
      w.nav(c.nav) && (kind == Watching ==> WaitVideos(w, c.probe).ok) && Met(w.quota(c.quota), kind) ==>
        p == PassRun(s.events, s.calls, Satisfied)
  {
  }

  /** A pass that did not run to the end of its selection ended at an item
      that was reached, played when watching, and re-read the quota: its
      last navigation succeeded and, for videos, its last probe too. */
  lemma {:induction false} PassEndsOnDwell(kind: Kind, w: World, sel: seq<Item>, i: nat, c: Calls)
    requires i <= |sel|
    ensures var p := Pass(kind, w, sel, i, c);
      p.end != Exhausted ==>
        && c.nav < p.calls.nav && w.nav(p.calls.nav - 1)
        && c.quota < p.calls.quota
        && (kind == Watching ==> c.probe < p.calls.probe && WaitVideos(w, p.calls.probe - 1).ok)
    decreases |sel| - i, 1
  {
    if i < |sel| {
      VisitDecides(kind, w, sel, i, c);
      if Visit(kind, w, sel, i, c).verdict.Next? {
        PassEndsOnDwellStep(kind, w, sel, i, c);
      }
    }
  }

  lemma {:induction false} PassEndsOnDwellStep(kind: Kind, w: World, sel: seq<Item>, i: nat, c: Calls)
    requires i < |sel| && Visit(kind, w, sel, i, c).verdict.Next?
    ensures var p := Pass(kind, w, sel, i, c);
      p.end != Exhausted ==>
        && c.nav < p.calls.nav && w.nav(p.calls.nav - 1)
        && c.quota < p.calls.quota
        && (kind == Watching ==> c.probe < p.calls.probe && WaitVideos(w, p.calls.probe - 1).ok)
    decreases |sel| - i, 0
  {
    var s := Visit(kind, w, sel, i, c);
    VisitDecides(kind, w, sel, i, c);
    PassEndsOnDwell(kind, w, sel, i + 1, s.calls);
  }

  /** Early break: a pass stops before the end of its selection only at the
      first quota re-read that reports the kind satisfied (or has no record
      for it), and every earlier re-read reported the kind unmet or gave no
      list. */
  lemma {:induction false} PassStops(kind: Kind, w: World, sel: seq<Item>, i: nat, c: Calls)
    requires i <= |sel|
    ensures var p := Pass(kind, w, sel, i, c);
      && c.quota <= p.calls.quota
      && (p.end == Satisfied ==> c.quota < p.calls.quota && Met(w.quota(p.calls.quota - 1), kind))
      && (p.end.Aborted? ==>
            && c.quota < p.calls.quota
            && Lookup(w.quota(p.calls.quota - 1), Ordinal(kind)).Missing?
            && p.end.fault == MissingQuota(Ordinal(kind)))
      && (forall k :: c.quota <= k < p.calls.quota && (p.end == Exhausted || k < p.calls.quota - 1) ==>
            !Met(w.quota(k), kind) && !Lookup(w.quota(k), Ordinal(kind)).Missing?)
    decreases |sel| - i
  {
    if i < |sel| {
      var s := Visit(kind, w, sel, i, c);
      if s.verdict.Next? {
        PassStops(kind, w, sel, i + 1, s.calls);
      }
    }
  }

  /** Number of reached pages among `n` navigations from the `from`-th. */
  function Reached(w: World, from: nat, n: nat): nat
    decreases n
  {
    if n == 0 then 0 else (if w.nav(from) then 1 else 0) + Reached(w, from + 1, n - 1)
  }

  /** Number of successful probes among `n` probes from the `from`-th. */
  function Played(w: World, from: nat, n: nat): nat
    decreases n
  {
    if n == 0 then 0 else (if WaitVideos(w, from).ok then 1 else 0) + Played(w, from + 1, n - 1)
  }

  /** A pass fetches no content list, and each dwell costs exactly one
      duration roll and one quota re-read. */
  lemma {:induction false} PassDwells(kind: Kind, w: World, sel: seq<Item>, i: nat, c: Calls)
    requires i <= |sel|
    ensures var p := Pass(kind, w, sel, i, c);
      && c.quota <= p.calls.quota && c.random <= p.calls.random
      && p.calls.content == c.content
      && p.calls.random - c.random == p.calls.quota - c.quota
    decreases |sel| - i
  {
    if i < |sel| {
      var s := Visit(kind, w, sel, i, c);
      if s.verdict.Next? {
        PassDwells(kind, w, sel, i + 1, s.calls);
      }
    }
  }

  /** What gets a dwell when reading: every reached page, and nothing is
      probed. */
  lemma {:induction false} PassReadCosts(w: World, sel: seq<Item>, i: nat, c: Calls)
    requires i <= |sel|
    ensures var p := Pass(Reading, w, sel, i, c);
      && c.nav <= p.calls.nav
      && p.calls.probe == c.probe
      && p.calls.quota - c.quota == Reached(w, c.nav, p.calls.nav - c.nav)
    decreases |sel| - i
  {
    if i < |sel| {
      var s := Visit(Reading, w, sel, i, c);
      if s.verdict.Next? {
        PassReadCosts(w, sel, i + 1, s.calls);
      } else {
        assert Reached(w, c.nav, 1) == 1 + Reached(w, c.nav + 1, 0);
      }
    }
  }

  /** When watching, every reached page is probed, and only those. */
  lemma {:induction false} PassWatchProbes(w: World, sel: seq<Item>, i: nat, c: Calls)
    requires i <= |sel|
    ensures var p := Pass(Watching, w, sel, i, c);
      && c.nav <= p.calls.nav && c.probe <= p.calls.probe
      && p.calls.probe - c.probe == Reached(w, c.nav, p.calls.nav - c.nav)
    decreases |sel| - i
  {
    if i < |sel| {
      var s := Visit(Watching, w, sel, i, c);
      if s.verdict.Next? {
        PassWatchProbes(w, sel, i + 1, s.calls);
      } else {
        assert Reached(w, c.nav, 1) == 1 + Reached(w, c.nav + 1, 0);
      }
    }
  }

  /** When watching, every successful probe dwells, and only those: a
      failed navigation or probe never dwells. */
  lemma {:induction false} PassWatchDwells(w: World, sel: seq<Item>, i: nat, c: Calls)
    requires i <= |sel|
    ensures var p := Pass(Watching, w, sel, i, c);
      && c.probe <= p.calls.probe
      && p.calls.quota - c.quota == Played(w, c.probe, p.calls.probe - c.probe)
    decreases |sel| - i
  {
    if i < |sel| {
      var s := Visit(Watching, w, sel, i, c);
      if s.verdict.Next? {
        PassWatchDwells(w, sel, i + 1, s.calls);
      } else {
        assert Played(w, c.probe, 1) == 1 + Played(w, c.probe + 1, 0);
      }
    }
  }

  // ---------------------------------------------------------------------
  // Properties of the rounds

  /** Number of start-over reports among the events. */
  function Continuations(events: seq<Event>): nat
  {
    if events == [] then 0 else (if events[0].Continuing? then 1 else 0) + Continuations(events[1..])
  }

  lemma {:induction false} ContinuationsAppend(a: seq<Event>, b: seq<Event>)
    ensures Continuations(a + b) == Continuations(a) + Continuations(b)
    decreases |a|
  {
    if a == [] {
      assert a + b == b;
    } else {
      assert (a + b)[1..] == a[1..] + b;
      ContinuationsAppend(a[1..], b);
    }
  }

  lemma {:induction false} ContinuationsOfReports(events: seq<Event>)
    requires forall e :: e in events ==> !e.Continuing?
    ensures Continuations(events) == 0
    decreases |events|
  {
    if events != [] {
      ContinuationsOfReports(events[1..]);
    }
  }

  /** An item never reports a start-over. */
  lemma VisitNeverContinues(kind: Kind, w: World, sel: seq<Item>, i: nat, c: Calls)
    requires i < |sel|
    ensures forall e :: e in Visit(kind, w, sel, i, c).events ==> !e.Continuing?
  {
    if w.nav(c.nav) && !(kind == Watching && !WaitVideos(w, c.probe).ok) {
      var seconds := Duration(kind, w.random(c.random));
      DwellEventsReport(kind, if w.hasPage then Schedule(seconds) else []);
    }
  }

  /** A pass never reports a start-over. */
  lemma {:induction false} PassNeverContinues(kind: Kind, w: World, sel: seq<Item>, i: nat, c: Calls)
    requires i <= |sel|
    ensures forall e :: e in Pass(kind, w, sel, i, c).events ==> !e.Continuing?
    decreases |sel| - i
  {
    if i < |sel| {
      var s := Visit(kind, w, sel, i, c);
      VisitNeverContinues(kind, w, sel, i, c);
      if s.verdict.Next? {
        PassNeverContinues(kind, w, sel, i + 1, s.calls);
      }
    }
  }

  /** Quota-driven termination: a run completes only right after a quota
      read that gives no list or reports the kind satisfied. */
  lemma {:induction false} RoundsComplete(kind: Kind, cfg: Config, w: World, c: Calls, rounds: nat)
    ensures var r := Rounds(kind, cfg, w, c, rounds);
      r.outcome == Completed ==> c.quota < r.calls.quota && Settled(w.quota(r.calls.quota - 1), kind)
    decreases rounds, 0
  {
    if rounds > 0 {
      var s := Today(kind, cfg, w, c);
      if s.end == Picked {
        PassDwells(kind, w, s.items, 0, s.calls);
        ResumeComplete(kind, cfg, w, Pass(kind, w, s.items, 0, s.calls), rounds - 1);
      }
    }
  }

  lemma {:induction false} ResumeComplete(kind: Kind, cfg: Config, w: World, p: PassRun, rounds: nat)
    ensures var r := Resume(kind, cfg, w, p, rounds);
      r.outcome == Completed ==> p.calls.quota < r.calls.quota && Settled(w.quota(r.calls.quota - 1), kind)
    decreases rounds, 1
  {
    var e := Lookup(w.quota(p.calls.quota), Ordinal(kind));
    if !p.end.Aborted? && e.Listed? && !e.quota.status {
      RoundsComplete(kind, cfg, w, p.calls.(quota := p.calls.quota + 1), rounds);
    }
  }

  /** A run reports at most one start-over per call, and it reaches the
      bound on calls exactly when it started over that many times. */
  lemma {:induction false} RoundsContinue(kind: Kind, cfg: Config, w: World, c: Calls, rounds: nat)
    ensures var r := Rounds(kind, cfg, w, c, rounds);
      && Continuations(r.events) <= rounds
      && (r.outcome == OutOfRounds <==> Continuations(r.events) == rounds)
    decreases rounds, 0
  {
    if rounds > 0 {
      var s := Today(kind, cfg, w, c);
      if s.end == Picked {
        var p := Pass(kind, w, s.items, 0, s.calls);
        PassNeverContinues(kind, w, s.items, 0, s.calls);
        ContinuationsOfReports(p.events);
        ResumeContinue(kind, cfg, w, p, rounds - 1);
      }
    }
  }

  lemma {:induction false} ResumeContinue(kind: Kind, cfg: Config, w: World, p: PassRun, rounds: nat)
    ensures var r := Resume(kind, cfg, w, p, rounds);
      && Continuations(r.events) <= Continuations(p.events) + rounds + 1
      && (r.outcome == OutOfRounds <==> Continuations(r.events) == Continuations(p.events) + rounds + 1)
    decreases rounds, 1
  {
    var e := Lookup(w.quota(p.calls.quota), Ordinal(kind));
    if !p.end.Aborted? && e.Listed? && !e.quota.status {
      var c1 := p.calls.(quota := p.calls.quota + 1);
      var r := Rounds(kind, cfg, w, c1, rounds);
      RoundsContinue(kind, cfg, w, c1, rounds);
      ContinuationsAppend(p.events, [Continuing(kind)]);
      ContinuationsAppend(p.events + [Continuing(kind)], r.events);
      assert Continuations([Continuing(kind)]) == 1 + Continuations([]);
    }
  }

  /** The tail call: after a pass that was not aborted, the run starts over
      (and reports it) exactly when the final quota read lists the kind as
      unmet; when that read gives no list or reports the kind satisfied, the
      run completes with the pass's own events. */
  lemma RecursesOnlyWhenUnmet(kind: Kind, cfg: Config, w: World, p: PassRun, rounds: nat)
    ensures var r := Resume(kind, cfg, w, p, rounds);
      var e := Lookup(w.quota(p.calls.quota), Ordinal(kind));
      !p.end.Aborted? ==>
        && (Continuations(r.events) > Continuations(p.events) <==> e.Listed? && !e.quota.status)
        && (Settled(w.quota(p.calls.quota), kind) ==> r.outcome == Completed && r.events == p.events)
  {
    var e := Lookup(w.quota(p.calls.quota), Ordinal(kind));
    if !p.end.Aborted? && e.Listed? && !e.quota.status {
      var r := Rounds(kind, cfg, w, p.calls.(quota := p.calls.quota + 1), rounds);
      ContinuationsAppend(p.events, [Continuing(kind)]);
      ContinuationsAppend(p.events + [Continuing(kind)], r.events);
      assert Continuations([Continuing(kind)]) == 1 + Continuations([]);
    }
  }
}
