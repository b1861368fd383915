# Task-completion engine of tech-study-node, in Dafny

This project models the engine behind the reading and watching tasks of the
study bot (`src/controller/watch.ts`). Its parts are:

- `handleWatch` dispatches on the task type.
- `handleReadNews` and `handleWatchVideo` work through a selection of articles or videos. They skip the items whose page will not open, or whose video will not play. They dwell on the rest and re-read the quota after each dwell, stopping early once the quota is met. After the loop they start over while the quota is still unmet.
- `getTodayNews` and `getTodayVideos` cap the needed count at the configured maximum. They then draw random indices until the selection has that many eligible items.
- `countDown` is the one-second dwell timer, with its callback and two scrolls.
- `waitVideos` is the two-phase playback probe.

The collaborators are inputs, not code. All but one are `World` fields indexed by how often they have been asked before:

- `getTaskList` (a quota snapshot, possibly absent);
- `getNews` / `getVideos` (a content list);
- `Math.random` (one shared stream of integer rolls);
- `gotoPage` (reached or not);
- the two phases of `waitVideos`.

The exception is `shared.getPage()`. It is one flag, `hasPage`, fixed for the whole run: every call sees a page, or none does.

A `Calls` record counts the calls made to each. Progress reports, scrolls and start-overs are `Event` values in the returned trace.

The files are:

- `core.dfy`: items, quota records, the oracles, the cap, the dwell durations and the title cut.
- `sampler.dfy`: the sampling loop (`Draw`, method `Sample`) and the selection (`Today`, method `TodaySelection`).
- `countdown.dfy`: `countDown` (method `CountDown`, specified by `Schedule`).
- `prober.dfy`: the sequencing of `waitVideos`.
- `orchestrator.dfy`: one item (`Visit`, method `VisitItem`), the `for` loop (`Pass`, method `VisitAll`), the whole handler (`Rounds` and `Resume`, method `HandleTask`) and `handleWatch` (method `HandleWatch`).

Every method is proved equal to its specification function. The lemmas state the engine's promises about those functions.

`getTodayNews` / `getTodayVideos` size the selection from `need` and never look at `status`, so a quota that is already met still gets a selection. The first dwelled item then re-reads the quota and breaks. The model follows the code: `Sampler.TodaySound` ties the selection length to the capped `need` alone.

## Model

| member | source | states |
|---|---|---|
| Core.Needed | src/controller/watch.ts:153-157 | the number to select is the record's `need` capped at the configured maximum: it exceeds neither, and it equals one of them (videos: lines 190-194) |
| Core.Duration | src/controller/watch.ts:50 | an article dwell lasts 80 to 99 seconds, a video dwell (line 114) 100 to 179 seconds |
| Core.Title15 | src/controller/watch.ts:39 | the reported title is a prefix of the title of at most 15 characters; it is the whole title when that is short, and exactly 15 characters otherwise |
| Sampler.Slot | src/controller/watch.ts:166 | a drawn index ranges over 0..length inclusive, so one slot lies past the end of the list |
| Sampler.WrapIsRemainder | src/controller/watch.ts:166 | the slot of a roll is the roll's remainder modulo length + 1 |
| Sampler.DrawBounded | src/controller/watch.ts:164-173 | the loop never grows the selection past the need; it ends normally exactly when the selection has the need; only a spent attempt budget ends it otherwise without a fault |
| Sampler.DrawEligible | src/controller/watch.ts:170-171 | every item added is an eligible member of the list (valid, of type `tuwen`; videos `shipin` or `juji`, lines 206-210) |
| Sampler.DrawIsAccepted | src/controller/watch.ts:164-173 | the selection is exactly the eligible items the rolls named, in draw order; an ineligible draw adds nothing |
| Sampler.DrawPastEnd | src/controller/watch.ts:166-170 | the index one past the end is a fault, not a skip: the loop faults exactly when its last roll names that slot, and every earlier roll named an item |
| Sampler.Sample | src/controller/watch.ts:164-173 | the imperative sampling loop computes `Draw` |
| Sampler.TodaySelection | src/controller/watch.ts:146-177 | the imperative `getTodayNews` / `getTodayVideos` computes `Today` |
| Sampler.TodaySound | src/controller/watch.ts:146-177 | the quota is read once. With no snapshot, or with an empty list, nothing is drawn and nothing selected. A normal end selects exactly the capped need, of eligible list members. An undefined-item fault comes from a roll naming the slot past the end |
| Countdown.CountDown | src/controller/watch.ts:336-371 | with no page it returns false and ticks nothing. Otherwise it ticks from `d` down to 0 and resolves true at the zero tick. Tick `i` passes `d - i`, and the zero tick calls back twice. The page scrolls down in tick 5 only and back to the top only when 5 seconds remain |
| Countdown.CallbackTrace | src/controller/watch.ts:348-354 | the callback receives `d, d-1, ..., 1, 0` and then `0` again, `d + 2` calls in all |
| Prober.WaitVideos | src/controller/watch.ts:222-329 | with no page it fails without running a phase. A failed first phase skips the second. It succeeds exactly when both phases succeed |
| Orchestrator.VisitItem | src/controller/watch.ts:29-65 | one turn of the `for` loop, with `continue` and `break`, computes `Visit` |
| Orchestrator.VisitAll | src/controller/watch.ts:28-66 | the imperative `for` loop computes `Pass` |
| Orchestrator.HandleTask | src/controller/watch.ts:24-75 | the imperative `handleReadNews` / `handleWatchVideo` computes `Rounds` |
| Orchestrator.HandleWatch | src/controller/watch.ts:10-19 | type 0 reads articles, type 1 watches videos, any other type does nothing |
| Orchestrator.VisitHeading | src/controller/watch.ts:34-47 | each item navigates once and gives exactly one report: failed when the page was refused, in progress otherwise, with its 1-based position, the total and the cut title |
| Orchestrator.PassAttempts | src/controller/watch.ts:28-43 | a pass tries at most every remaining item, and every one of them unless it stopped on a quota re-read |
| Orchestrator.SkipNeverAborts | src/controller/watch.ts:34-43 | the tried items are reported in selection order, one report each. Report `j` carries position `j + 1`, the selection's length, the cut title and the navigation result. A refused page is followed by the next item: a pass that runs to the end navigated once per item, and one that ends early ended at a page that opened |
| Orchestrator.VisitDecides | src/controller/watch.ts:28-65 | one turn of the loop: a refused page reports the failure and goes on, with no probe, dwell or re-read (lines 34-43). A video that will not play reports the skip and goes on, with no dwell or re-read (lines 107-111). Otherwise the item costs one duration roll and one re-read, and the turn breaks exactly when that read reports the kind satisfied, or throws exactly when it lacks the kind's record (lines 61-65). A read that lists the kind unmet, or gives no list, goes on to the next item. The loop stops at an item exactly when it dwelled and its read was satisfied or lacked the record |
| Orchestrator.PassContinuesAfterSkip | src/controller/watch.ts:84-112 | `continue`: after a refused page or a failed playback, the pass is that item's events followed by the pass over the remaining items (reading: lines 34-43) |
| Orchestrator.PassBreaksWhenMet | src/controller/watch.ts:125-129 | `break`: when a reached (and, for videos, played) item's re-read reports the kind satisfied, the pass ends right there with that item's events (reading: lines 61-65) |
| Orchestrator.PassEndsOnDwell | src/controller/watch.ts:84-130 | a pass that stops before the end of its selection stops at an item whose navigation succeeded, after a quota re-read, and when watching after a probe that succeeded |
| Orchestrator.PassStops | src/controller/watch.ts:61-65 | a pass stops early only at the first re-read that reports the kind satisfied (or lacks its record, which throws). Every earlier re-read reported it unmet or gave no list |
| Orchestrator.PassDwells | src/controller/watch.ts:49-61 | a pass fetches no content. Each dwell costs exactly one duration roll and one quota re-read |
| Orchestrator.PassReadCosts | src/controller/watch.ts:30-61 | when reading, every reached page gets a dwell and a re-read, and nothing is probed |
| Orchestrator.PassWatchProbes | src/controller/watch.ts:86-107 | when watching, exactly the reached pages are probed |
| Orchestrator.PassWatchDwells | src/controller/watch.ts:107-125 | when watching, exactly the successful probes are followed by a dwell and a re-read; a failed probe is skipped |
| Orchestrator.DwellEventsReport | src/controller/watch.ts:52-59 | a dwell reports only the seconds left, the end of the item and the scrolls |
| Orchestrator.VisitNeverContinues | src/controller/watch.ts:44-59 | one item never reports a start-over |
| Orchestrator.PassNeverContinues | src/controller/watch.ts:28-66 | the loop never reports a start-over |
| Orchestrator.RoundsComplete | src/controller/watch.ts:67-74 | a run completes only right after a quota read that gives no list or reports the kind satisfied |
| Orchestrator.ResumeComplete | src/controller/watch.ts:131-138 | after the loop, completion happens only right after a quota read that gives no list or reports the kind satisfied |
| Orchestrator.RoundsContinue | src/controller/watch.ts:70-73 | the start-over report (line 71) appears at most once per call, and a run reaches the model's own bound on calls (see `Orchestrator.HandleTask` under Left out) exactly when it started over that many times |
| Orchestrator.ResumeContinue | src/controller/watch.ts:134-137 | after the loop, the start-over report (line 135) appears at most once per remaining call, and the run reaches the model's own bound exactly when it used them all |
| Orchestrator.RecursesOnlyWhenUnmet | src/controller/watch.ts:68-74 | after a loop that did not throw, the run starts over exactly when the final read lists the kind unmet. With no list, or the kind satisfied, it completes with the loop's own events |

## Left out

- The inside of the two `waitVideos` phases is left out: DOM queries, the `canplay` listener, `video.play()`, the click, and the polling/timeout race. Each phase is an oracle boolean.
- The scroll bodies run in the page. Only the fact that a scroll happens is recorded, as an event.
- `Math.random` and the float arithmetic are replaced by integer rolls. The index is `roll % (length + 1)`, and the durations are `80 + roll % 20` and `100 + roll % 80`. Every value of each range is reachable; the distribution is not modelled.
- `getNews`, `getVideos`, `getTaskList`, `gotoPage` and `shared.getPage` are oracles. The URL is not passed to the navigation oracle, which answers by call count.
- Colouring and progress-spinner rendering are reduced to abstract events.
- The configuration file is not part of this model. `maxNewsNum` and `maxVideoNum` are parameters, and the probe timeout is not modelled.
- `bin/index.ts` is not part of this model: browser launch, error reporting, notifications, scheduling and config merging.
- Sampler.Sample: the source loops forever when no roll ever reaches the need (for example, when no item is eligible). The model stops after `drawLimit` attempts with the outcome `Spins` (`Stuck` for the run).
- Orchestrator.HandleTask: the source recurses for as long as the quota stays unmet. The model allows at most `rounds` calls and then ends with `OutOfRounds`.
- Core.Title15: counts Dafny characters, while `substring` counts UTF-16 code units.
- Every await in the handlers completes before the next step starts, so the handlers are modelled as sequential code.
- Countdown.CountDown: assumes that each tick's awaited scroll finishes within that one-second tick and never rejects. In the source the decrement comes after the awaited scroll in the `setInterval` body (src/controller/watch.ts:357-368). A rejected scroll would skip the decrement, and a slow one would let the next tick read the same count, so a count could repeat or the timer might never resolve. None of this is modelled.
- `shared.getPage()` is one flag for the whole run. A page that appears or disappears between calls is not modelled.
