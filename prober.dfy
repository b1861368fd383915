/** The sequencing of the playback prober `waitVideos`: two phases, each a
    race between polling and a timeout inside the page, seen here only by
    their boolean results. */
module Prober {
  import opened Core

  /** Whether playback started, and how many phases were run. */
  datatype Probe = Probe(ok: bool, phases: nat)

  /** The `k`-th call of `waitVideos`: no page means failure without any
      phase; a first phase (media ready to play) that fails ends the probe;
      otherwise the second phase (playback started) decides. */
  function WaitVideos(w: World, k: nat): (p: Probe)
    ensures p.ok <==> w.hasPage && w.canPlay(k) && w.playing(k)
    ensures p.phases == 0 <==> !w.hasPage
    ensures p.phases == 2 <==> w.hasPage && w.canPlay(k)
    ensures p.ok ==> p.phases == 2
  {
    if !w.hasPage then Probe(false, 0)
    else if !w.canPlay(k) then Probe(false, 1)
    else Probe(w.playing(k), 2)
  }
}
