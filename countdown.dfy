/** The dwell timer `countDown`: once a second it hands the remaining count
    to a callback, scrolls the page at two fixed offsets and decrements the
    count, until the tick at zero resolves it. */
module Countdown {

  /** One one-second tick: the arguments the callback received during it,
      and whether the page was scrolled down by a third or back to the top. */
  datatype Tick = Tick(calls: seq<nat>, scrollDown: bool, scrollTop: bool)

  /** The tick at `remaining` of a countdown started at `duration`: the
      callback gets the count (twice at zero, where the timer resolves), the
      page scrolls down when `duration - 5` remain and up when `5` remain. */
  function TickAt(duration: nat, remaining: nat): Tick
  {
    Tick(if remaining == 0 then [0, 0] else [remaining],
         remaining == duration - 5,
         remaining == 5)
  }

  /** The ticks of a countdown from `duration`, one per second, down to the
      zero tick. */
  function Schedule(duration: nat): seq<Tick>
  {
    seq(duration + 1, i requires 0 <= i <= duration => TickAt(duration, duration - i))
  }

  /** `countDown(duration, callback)`: with no page it returns false at once
      and starts no timer; otherwise it ticks from `duration` down to the
      zero tick, which calls back a second time and resolves true. The tick
      at position `i` passes `duration - i`, the page scrolls down only in
      the sixth tick and back to the top only where five seconds remain. */
  method CountDown(hasPage: bool, duration: nat) returns (resolved: bool, ticks: seq<Tick>)
    ensures resolved == hasPage
    ensures ticks == if hasPage then Schedule(duration) else []
    ensures hasPage ==> |ticks| == duration + 1
    ensures forall i :: 0 <= i < |ticks| ==>
      && ticks[i].calls == (if i < duration then [duration - i] else [0, 0])
      && (ticks[i].scrollDown <==> i == 5)
      && (ticks[i].scrollTop <==> i + 5 == duration)
  {
    if !hasPage {
      return false, [];
    }
    var startScroll := duration - 5;
    var endScroll := 5;
    var remaining: int := duration;
    resolved, ticks := false, [];
    while !resolved
      invariant -1 <= remaining <= duration
      invariant resolved <==> remaining == -1
      invariant |ticks| == duration - remaining
      invariant forall i :: 0 <= i < |ticks| ==> ticks[i] == TickAt(duration, duration - i)
      decreases remaining + 1
    {
      var calls: seq<nat> := [remaining];
      if remaining == 0 {
        calls := calls + [remaining];
        resolved := true;
      }
      ticks := ticks + [Tick(calls, remaining == startScroll, remaining == endScroll)];
      remaining := remaining - 1;
    }
  }

  /** Every callback argument of a run of ticks, in call order. */
  function Arguments(ticks: seq<Tick>): seq<nat>
  {
    if ticks == [] then [] else ticks[0].calls + Arguments(ticks[1..])
  }

  lemma {:induction false} ArgumentsFrom(d: nat, k: nat)
    requires k <= d
    ensures var args := Arguments(Schedule(d)[k..]);
      && |args| == d - k + 2
      && (forall j :: 0 <= j <= d - k ==> args[j] == d - k - j)
      && args[d - k + 1] == 0
    decreases d - k
  {
    var ts := Schedule(d)[k..];
    assert ts[0] == TickAt(d, d - k);
    assert ts[1..] == Schedule(d)[k + 1..];
    var args := Arguments(ts);
    if k == d {
      assert args == [0, 0] + Arguments([]);
    } else {
      var rest := Arguments(Schedule(d)[k + 1..]);
      ArgumentsFrom(d, k + 1);
      assert args == [d - k] + rest;
      forall j | 0 <= j <= d - k
        ensures args[j] == d - k - j
      {
        if j > 0 {
          assert args[j] == rest[j - 1];
        }
      }
    }
  }

  /** The callback of a countdown from `d` receives `d, d - 1, ..., 1, 0`
      and then `0` once more. */
  lemma CallbackTrace(d: nat)
    ensures var args := Arguments(Schedule(d));
      && |args| == d + 2
      && (forall j :: 0 <= j <= d ==> args[j] == d - j)
      && args[d + 1] == 0
  {
    ArgumentsFrom(d, 0);
    assert Schedule(d)[0..] == Schedule(d);
  }
}
