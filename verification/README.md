# voicechaos, verified

voicechaos measures how voice agents take turns. Its offline engine plays scripted callers against a scripted agent on
one virtual clock: every session has a caller and an agent, joined by an in-memory transport whose downlink loses,
delays, reorders and throttles frames. A single driver fires the scheduled events of all sessions in time order and
hands each delivered frame to the goroutine that waits for it. The logs of the sessions are the only input to the
metrics. A small WebSocket client carries the same frames to real endpoints.

This project models that system in Dafny and proves what its documentation promises:

- **Replay does not depend on scheduling.** The hand-off between the driver and the 2N worker goroutines is a protocol
  over atomic steps (`rendezvous*.dfy`), for an arbitrary shared state and arbitrary reactions. Uncancelled, every
  interleaving visits the states of the loop that runs reactions inline; cancelled anywhere, none gets stuck, none goes
  on for ever, and none leaves a goroutine behind. `threads.dfy` instantiates it with the engine.
- **What every run keeps.** `engine.dfy` is the sequential engine; `sound`, `bound`, `turns`, `turn_times`, `conserve`,
  `arrivals`, `streams`, `endpointing`, `fifo`, `stop` and `precision` prove invariants of one session that survive its
  own events and the passing of time; `runs.dfy` lifts them to all sessions and all turns of the loop.
- **What a run is, in the scenario's own numbers.** `offline.dfy`, `dialogue.dfy`, `replays.dfy` and `attribution.dfy`
  state the results: termination with a bound, conservation, the order of arrivals, what the caller says and when, frame
  by frame, when the agent answers and when it stops, what a turn consists of, and which draw of which generator lost or
  delayed each frame.
- **The objects do what the functions say.** `clock`, `impair`, `agent_object`, `session_object`, `rig_object` and
  `run_object` hold the classes with their loops and fields; `EngineLoop.Run` builds, primes, drives and collects, and
  returns the logs of the one state in which the sequential loop ends.
- **Shaping arithmetic** (`bandwidth.dfy`, `control_frames.dfy`, `shaping.dfy`, `losses.dfy`), **logs** (`sorting.dfy`,
  `eventlog.dfy`), **metrics** (`metrics*.dfy`, `aggregate.dfy`; `reported.dfy` says what they report of a log's entries)
  and, from scenario to reported number, `end_to_end.dfy`.
- **WebSocket framing and reassembly** (`ws_*.dfy`): byte-level codecs, fragmentation, control frames, the connection
  and transport objects; `ws_session.dfy` says how a Read ends in every case and what a transport gives out of a whole
  stream.

A scenario is any the validator accepts whose agent timings are not negative; seeds, callers and interleavings are
arbitrary. What depends on the order of deliveries through a limited link also asks that frames have no negative size,
and `bandwidth.dfy` shows that the queue keeps no order otherwise.

Two things the documentation says are not quite so. It calls zero-byte control frames free
(internal/impair/impair.go:171-177): `control_frames.dfy` proves that a link carries them for free, over all traffic,
whenever no multiple of gcd(8000, bps) below bps has a remainder modulo 1000 strictly between 0 and that of bps, and
that a lossless link does so only then. That is so of whole kilobits per second, and of every bps whose remainder modulo
1000 divides 1000; unless 16 divides bps, of no other. And it says that silence between turns is never counted as a
stall (internal/metrics/metrics.go:14-16): `silence.dfy` proves, for ordering links, exactly when a frame is logged
under its own turn, that silence does not count when no TurnStart was lost, and a case in which it does when one was.

Logs are meant in the order of recording, except where the sorted log a run hands over is named: sorting puts a Recv
before a TurnStarted of the same millisecond.

`dafny verify dfyconfig.toml` checks the whole project.

## Model

| member | source | states |
|---|---|---|
| RendezvousSafety.NextKeeps | internal/transport/loopback.go:119-179 | every atomic step of driver, workers, watcher and context callbacks keeps the protocol invariant: parked means nothing pending, pending means a worker that has not yet looked, the counters count the goroutines |
| RendezvousSafety.InitOk | internal/engine/engine.go:105-110 | the invariant holds when the workers have been launched |
| RendezvousSafety.CancelKeeps | internal/engine/engine.go:130-136 | cancelling the context at any state keeps the invariant |
| RendezvousSafety.RecvSectionOk | internal/transport/loopback.go:156-178 | one turn of the receive loop keeps its end consistent, leaves nothing pending, and parks with a new park number exactly when it finds nothing to return |
| RendezvousSafety.HandOverOk | internal/transport/loopback.go:130-134 | handing a frame to a parked end keeps the end consistent and sets up the wait for its worker to park again |
| RendezvousSafety.CloseEndOk | internal/transport/loopback.go:183-190 | closing an end, any number of times, keeps it consistent and wakes its sleeper |
| RendezvousRefines.NextFollows | internal/transport/loopback.go:119-179 | while the context is not done every atomic step is one step of the single-threaded loop that runs each reaction inline, or invisible to it |
| RendezvousRefines.Quiescence | internal/engine/engine.go:138-141 | whenever the driver looks at the scheduler no worker is reacting and no frame is in a hand-off, so an empty scheduler means the conversation is over |
| RendezvousRefines.HandsOverOnce | internal/transport/loopback.go:124-134 | deliver fills only an empty slot, with its own frame, and touches no other end |
| RendezvousRefines.ReturnsConsumed | internal/transport/loopback.go:139-141 | when deliver returns from its second wait on an open, uncancelled end, everything handed over has been consumed in order and the worker has parked again |
| RendezvousRefines.HandedInOrder | internal/transport/loopback.go:157-161 | at every moment frames have left Recv in the order deliver put them in, none twice or lost, at most the last one still pending |
| RendezvousRefines.FollowsSequential | internal/transport/loopback.go:30-39 | schedule independence: an uncancelled execution visits the states of the one sequential loop, in order, skipping none |
| RendezvousRefines.SameOutcome | internal/engine/engine.go:20-23 | any two uncancelled executions that reach teardown agree with the halted sequential loop on the shared state |
| RendezvousTeardown.NeverStuck | internal/transport/loopback.go:136-138 | from every reachable state, cancelled or not, some thread can step until the driver has returned |
| RendezvousTeardown.FinalState | internal/engine/engine.go:143-149 | an execution that can go no further has returned with every worker gone, counters at zero and ends closed; uncancelled, it stopped where the sequential loop halts |
| RendezvousTeardown.LiveIsZero | internal/engine/engine.go:186-197 | once the wait group is at zero the live counter is zero |
| RendezvousTeardown.CancelledRunEnds | internal/engine/engine.go:112-120 | after cancellation, from any reachable state, no schedule goes on for ever |
| RendezvousTeardown.EveryRunEnds | internal/engine/engine.go:203-212 | if the sequential loop halts, no schedule goes on for ever, cancelled at any point or never |
| LoopEnds.LoopEnd.DeliverLook | internal/transport/loopback.go:119-134 | the first half of deliver as field updates is the protocol step |
| LoopEnds.LoopEnd.RecvLook | internal/transport/loopback.go:156-178 | one turn of the receive loop as field updates is the protocol step, and returns a frame exactly when one was pending |
| LoopEnds.LoopEnd.Close | internal/transport/loopback.go:183-190 | Close as field updates is the protocol step |
| EngineThreads.ScheduleIndependence | internal/engine/engine.go:20-23 | every interleaving of the engine's goroutines, left to finish, ends with the clock, sessions and logs of the sequential drive loop and no goroutine left |
| EngineThreads.EngineRunEnds | internal/engine/engine.go:112-120 | every execution of the engine ends, cancelled at any point or not |
| EngineThreads.EngineTearsDown | internal/engine/engine.go:143-149 | where it ends the driver has returned, the counters are zero and every end is closed |
| EngineThreads.EndsGetTheirOwn | internal/transport/loopback.go:94-114 | frames for the caller are handed to the caller's end, frames for the agent to the agent's, and the driver runs every other callback itself |
| EngineThreads.EngineValid | internal/transport/loopback.go:42-60 | the engine is an instance of the protocol: its sections make boundedly many Schedule calls and frames go to existing ends |
| Clock.PopTakesLeast | internal/clock/clock.go:55-64 | popping a heap returns an entry no other entry sorts before, and leaves a heap |
| Clock.PushKeepsOrder | internal/clock/clock.go:72-76 | pushing keeps the heap property |
| Clock.RootIsLeast | internal/clock/clock.go:55-64 | the root of a heap sorts before or with every entry |
| Clock.ManualClock.HeapPush | internal/clock/clock.go:128-135 | the append-and-lift loop is the heap push function |
| Clock.ManualClock.HeapPop | internal/clock/clock.go:156-156 | the swap-and-sink loop is the heap pop function |
| Clock.ManualClock.Schedule | internal/clock/clock.go:124-136 | an event is pushed at its time clamped to now; nothing pending is ever overdue |
| Clock.ManualClock.Advance | internal/clock/clock.go:150-163 | the least event fires, once, at its own time, and time does not go back |
| OfflineRun.TimeMovesOn | internal/clock/clock.go:150-163 | in every run each turn fires, at its own time, a pending event with none before it by time, then number, then session; time does not go back |
| OfflineRun.TimersFireLast | internal/agentproto/fake.go:228-238 | while no stream counter has passed the timer band, when an agent timer fires every speech frame and delivery due at that instant has fired |
| OfflineRun.CountersWithin | internal/agentproto/fake.go:265-279 | the caller numbers at most C frames and the agent at most C(F + 2) |
| OfflineRun.StaysBelowBand | internal/agentproto/fake.go:228-254 | so in a scenario with C(F + 2) of at most 2^40 no counter ever passes the band |
| OfflineRun.SessionFiresAtMost | internal/session/session.go:157-195 | no session fires more than 3C + 2C(F + 2) events, C its prompt and barge-in frames, F the frames of a turn |
| OfflineRun.RunTerminates | internal/engine/engine.go:203-212 | the drive loop empties the heap within callers times that many turns |
| RunBound.BoundedFire | internal/agentproto/fake.go:113-139 | firing any event keeps the budget: what it has caused and can still cause never exceeds it; an observed turn barges in at most once |
| RunBound.VoicedFire | internal/agentproto/fake.go:163-226 | and so does the budget of agent frames: each speech frame pays for one turn at most |
| OfflineRun.EndIsUnique | internal/engine/engine.go:203-212 | all quiescent states of a scenario's run are the same state |
| OfflineRun.TurnsAreWhole | internal/agentproto/fake.go:163-226 | at quiescence the agent has sent whole turns only: TurnStart, all frames or exactly those not after the stop deadline, TurnEnd, numbered without gaps |
| OfflineRun.TurnsNeverOverlap | internal/agentproto/fake.go:193-226 | at every moment the agent has sent whole turns and a prefix of the current one; each turn ends no later than the next is opened, and every frame of a turn lies, to its last millisecond, between the two |
| TurnProtocol.TurnsFire | internal/agentproto/fake.go:113-226 | every event keeps the turn protocol: what was sent is what the turns call for so far, and the pending timers of the turn are those it still needs |
| TurnTimes.StaleTimersDoNothing | internal/agentproto/fake.go:144-226 | a timer of a turn no longer spoken, or of speech since resumed, changes nothing and schedules nothing |
| TurnTimes.SpacedFire | internal/agentproto/fake.go:163-226 | every event keeps turns apart: one is over before the next is opened |
| TurnProtocol.SendsAreNumbered | internal/agentproto/fake.go:265-279 | whatever the agent sends next carries the number after everything it sent before |
| TurnProtocol.EndIsDue | internal/agentproto/fake.go:209-226 | when the timer that ends the current turn fires, every frame due has been sent |
| OfflineRun.FramesAreConserved | internal/transport/loopback.go:94-114 | at quiescence every frame the agent sent was dropped or received, once, and every speech frame logged as sent was heard, once |
| Conservation.BalancedFire | internal/impair/impair.go:127-136 | every event keeps the balance of frames sent, dropped, in flight and received |
| OfflineRun.ArrivesByTimeAndNumber | internal/clock/clock.go:55-64 | on any link frames are received by time, and within a millisecond by number |
| Arrivals.ArrivedFire | internal/transport/loopback.go:94-114 | every event keeps received frames in that order and ahead of every delivery still pending |
| OfflineRun.DownlinkIsFifo | internal/impair/impair.go:160-185 | with a bandwidth limit, or with neither jitter nor reordering, the caller receives the kept frames in send order |
| FifoDownlink.DueInOrder | internal/impair/impair.go:173-185 | on such a link a delivery is never due before the one before it, nor before it was sent |
| OfflineRun.LosslessDelivery | internal/impair/impair.go:127-136 | and without loss it receives the whole conversation |
| Attribution.LoggedUnderItsTurn | internal/session/session.go:138-153 | then every frame is logged under the turn that spoke it, after its TurnStart and before its TurnEnd in recorded order |
| Attribution.ReceiptsRecordArrivals | internal/session/session.go:138-153 | on any link the k-th receipt in the log is of the type of the k-th frame received and holds it unless it is a turn marker, stamped with the time it was received and filed under the number of TurnStarts received so far |
| Attribution.ReceiptsAreReplay | internal/session/session.go:138-153 | on any link the log's receipts are the received frames in order, each under the latest turn started |
| Silence.LoggedTurn | internal/session/session.go:138-153 | on an ordering link every frame received is logged under no later turn than the one that spoke it, and under that one exactly when none of the TurnStarts sent up to it was lost |
| OfflineRun.AgentStopsInTime | internal/agentproto/fake.go:113-139 | through a transparent downlink no agent frame is logged later than the stop latency after a barge-in of its turn |
| StopBound.StopFire | internal/agentproto/fake.go:193-207 | every event keeps the deadline of the turn being spoken and the absence of late frames, however prompts and barge-ins collide |
| OfflineRun.SpeechIsScripted | internal/session/session.go:118-195 | in every run the frames a caller logs as sent, in their time, size, duration and number, and the barge-ins it logs, are among what the script calls for: each prompt's frames from its scripted time on, one every frame cadence, and for each turn seen to start that it barges into, those of the barge-in from exactly its delay after that, numbered on; at quiescence all of them; a barge-in is logged just before its first frame, and every entry is filed under the number of turns seen to start |
| OfflineRun.BargeInsArePrecise | internal/session/session.go:157-195 | in every run each barge-in is sent exactly its scripted delay after a turn it is scripted for was seen to start; no such turn is answered twice, and at quiescence each has been answered once |
| Precision.AnsweredFire | internal/session/session.go:138-195 | every event keeps the balance of speech called for, sent and pending, cue by cue |
| Dialogue.TurnIsSpoken | internal/agentproto/fake.go:163-226 | each turn is one stretch of what was sent: TurnStart when it opens; a frame at every multiple of the cadence, all from the stalled one on later by the stall, up to the stop deadline; TurnEnd one cadence after the last frame or the deadline |
| Dialogue.AnswersAfterSilence | internal/agentproto/fake.go:129-157 | in every run each turn opens exactly the endpointing time after the last speech heard before it, with none heard in between |
| Dialogue.SilenceIsAnswered | internal/agentproto/fake.go:129-157 | at quiescence all speech heard fell in a turn, was followed by more within the endpointing time, or opened a turn exactly that time later |
| Dialogue.TurnsStopOnSpeech | internal/agentproto/fake.go:113-128 | the first speech heard in a turn sets its stop deadline, exactly the stop latency later; a turn in which none is heard, or whose agent ignores barge-ins, has none |
| Endpointing.EndpointedFire | internal/agentproto/fake.go:113-157 | every event keeps the account of speech heard: answered, superseded, heard in a turn, or waited on by the one timer that counts |
| Replays.LinkIsFolded | internal/engine/engine.go:88-97 | in every run the link of session i is its own generator folded, from a fresh link, over the frames its agent sent, the n-th one numbered n and sent at its own time, and every frame received came when that folding lets it through |
| Replays.SessionsReplay | internal/impair/impair.go:100-107 | two sessions with one profile and one generator, in whatever scenarios and runs, lose the same frames by position as far as both have sent, and on an unlimited link delay alike what both received |
| Replays.LostAsDrawn | internal/impair/impair.go:127-136 | in every run without bursts a frame was dropped exactly when the draw at its place in its session's stream, counted from the losses before it, was below the loss probability |
| Replays.DelayedAsDrawn | internal/impair/impair.go:138-165 | through an unlimited link every frame received came exactly as much later as the added latency, the jitter drawn at its place and the reorder draw after that say |
| Streams.StreamedFire | internal/transport/loopback.go:94-114 | every event keeps the link folded over the frames sent, and every frame received or in flight on its time |
| FakeAgents.FakeAgent.OnCallerSpeech | internal/agentproto/fake.go:113-139 | barge-in, ignored speech and endpointing: fields and Schedule calls as specified; what the times mean over a run is Dialogue.AnswersAfterSilence and Dialogue.TurnsStopOnSpeech |
| FakeAgents.FakeAgent.MaybeRespond | internal/agentproto/fake.go:144-157 | only the latest endpointing timer of an idle agent opens a turn |
| FakeAgents.FakeAgent.StartTurn | internal/agentproto/fake.go:163-189 | the scheduling loop arms the start, one timer a frame, and the end, numbered in the agent's band |
| FakeAgents.FakeAgent.EmitAgentFrame | internal/agentproto/fake.go:193-207 | a frame is sent unless stale or past the stop deadline |
| FakeAgents.FakeAgent.EmitTurnEnd | internal/agentproto/fake.go:214-226 | a turn is closed once |
| FakeAgents.FakeAgent.Send | internal/transport/loopback.go:94-114 | an open end shapes the frame and schedules its delivery unless it is dropped |
| Sessions.Session.Prime | internal/session/session.go:96-133 | every prompt frame of the script is scheduled, numbered in order |
| Sessions.Session.ScheduleSpeechBurst | internal/session/session.go:176-195 | a burst schedules its frames at the cadence, at least one, the first marked when it barges in; what that comes to over a run is OfflineRun.SpeechIsScripted |
| Sessions.Session.Speak | internal/session/session.go:183-193 | a scheduled send logs the barge-in it starts and the frame, and hands the frame over |
| Sessions.Session.MaybeScheduleBargeIn | internal/session/session.go:157-168 | a turn seen to start schedules its scripted barge-in, if it has one |
| Sessions.Session.OnRecv | internal/session/session.go:138-153 | a received frame becomes its log entry and may schedule a barge-in |
| Rigs.Rig.Handle | internal/engine/engine.go:57-63 | a callback run on the real objects changes them and the clock as the session's reaction says |
| EngineLoop.Turn | internal/clock/clock.go:150-163 | one Advance on the objects, callback included, is one turn of the sequential loop |
| EngineLoop.Assemble | internal/engine/engine.go:88-101 | building and priming the objects gives the starting state |
| EngineLoop.Drive | internal/engine/engine.go:203-212 | the loop over the objects stops in a quiescent state of the run |
| EngineLoop.Collect | internal/engine/engine.go:155-160 | drops are appended as Drop entries and the log is sorted |
| EngineLoop.Run | internal/engine/engine.go:87-163 | uncancelled, Run returns the logs of the state where the sequential loop ends, of which Replays, Dialogue, OfflineRun and EndToEnd speak |
| Impair.Queue.DelayFrame | internal/impair/impair.go:113-188 | the queue object computes the delivery time or drop, and the whole new state, of which LossLaws and Shaping.LimitOnlyDelays speak |
| LossLaws.LostMore | internal/impair/impair.go:127-136 | with one generator and link, a frame lost at one loss probability is lost at every greater one |
| LossLaws.AllOrNone | internal/impair/impair.go:127-136 | at probability one every frame is lost; at zero none is, outside a burst |
| LossLaws.BurstChain | internal/impair/impair.go:190-212 | the good state of the burst chain loses by the loss probability and turns bad by its own, the bad state loses all and turns good by its own, on the draw after the loss |
| LossLaws.LostByDraw | internal/impair/impair.go:118-136 | along any traffic without bursts frame k is lost exactly when the draw at its place, counted from the losses before it, is below the loss probability |
| LossLaws.ChainByDraw | internal/impair/impair.go:190-212 | with bursts exactly when that is so or the chain is bad by then, and the next draw moves the chain |
| LossLaws.ArrivesAsDrawn | internal/impair/impair.go:138-165 | a kept frame of an unlimited link arrives after the added latency, what was drawn of the jitter, and the reorder delay if that was drawn |
| LossLaws.DelayedMore | internal/impair/impair.go:149-165 | raising the reorder probability makes no frame earlier, and any frame later by the reorder delay or not at all; at one all are |
| Impair.Queue.BurstLossDrop | internal/impair/impair.go:196-212 | the loss decision is drawn before the state transition, one draw each |
| Impair.ShapeStep | internal/impair/impair.go:138-165 | latency, jitter and reordering never deliver before the send, and touch nothing but the generator |
| BandwidthBound.ChargedFairly | internal/impair/impair.go:173-185 | over any stretch of traffic, charged milliseconds times bandwidth differ from the thousandfold of the bits by at most one carry below and one rounding a frame above; the carry stays below one millisecond and a rounding |
| BandwidthBound.ChargedExactly | internal/impair/impair.go:173-185 | on a link of whole kilobits per second frames are charged exactly the floor of their serialization time |
| BandwidthBound.RateLimited | internal/impair/impair.go:167-185 | in any window the link carries no more than its bandwidth, one carry aside |
| BandwidthBound.ServedInTurn | internal/impair/impair.go:178-185 | frames are served one at a time, in send order |
| BandwidthBound.OrderNeedsSizes | internal/impair/impair.go:173-185 | a limited link delivers control frames and frames of one size in send order when the size is not negative; when it is negative no steady link does |
| ControlFrames.ControlIsFreeExactly | internal/impair/impair.go:171-185 | over all traffic, zero-byte frames are free on a limited link exactly when its bandwidth leaves nothing over: no multiple of gcd(8000, bps) below bps has a remainder modulo 1000 strictly between 0 and that of bps; otherwise every lossless link can be made to charge for one |
| ControlFrames.RoundIsFree | internal/impair/impair.go:171-177 | that is so of whole kilobits per second, and of every bandwidth whose remainder modulo 1000 divides 1000 |
| ControlFrames.FreeIsRound | internal/impair/impair.go:171-177 | and, of bandwidths that 16 does not divide, of no others |
| Shaping.ArrivesWithin | internal/impair/impair.go:138-165 | on an unlimited link a kept frame arrives within the added latency, twice the jitter and the reorder delay |
| Shaping.LimitOnlyDelays | internal/impair/impair.go:167-185 | a bandwidth limit drops nothing and only delays further: a frame starts when it would have arrived, or when the one before it is through, and takes the whole milliseconds of its bits and those left owing |
| Shaping.DrawsPerFrame | internal/impair/impair.go:118-136 | the draws a frame takes depend on the profile and on whether it is lost, on nothing else |
| Shaping.LossesByPosition | internal/impair/impair.go:113-136 | the queue remembers exactly the lost frames, in order, and which ones those are is a matter of position: other frames, at other times, through another backlog lose the same ones |
| Shaping.BurstLosesAll | internal/impair/impair.go:190-212 | from the bad state every frame is lost for as long as the chain does not draw its way back |
| Sorting.StableSortUnique | internal/eventlog/eventlog.go:103-110 | a sequence is the sort of another exactly when it is ordered and keeps ties in order, whatever algorithm finds it |
| Sorting.SortThenFilter | internal/eventlog/eventlog.go:103-110 | sorting and filtering commute |
| EventLog.Log.Sort | internal/eventlog/eventlog.go:105-110 | the log holds the same entries, ordered by time, then type, then sequence number, ties as they were |
| EventLog.LogSorts | internal/eventlog/eventlog.go:87-110 | the sort of a log holds the same entries in that order |
| EventLog.SliceStable | internal/eventlog/eventlog.go:107-109 | insertion gives the stable sort |
| EventLog.Merge | internal/eventlog/eventlog.go:123-134 | the merge holds exactly the events of the logs, ordered by time, then session, then type, then sequence number |
| EventLog.MergeSorts | internal/eventlog/eventlog.go:87-134 | and keeps events that agree in all four in the order of the logs |
| EventLog.MergeProjectsEach | internal/eventlog/eventlog.go:119-134 | with distinct session indices, session k's share of the merge is Sort of log k |
| EventLog.MergeProjects | internal/eventlog/eventlog.go:119-134 | in general it is the sort of that session's logs together |
| EventLog.MergeOrderFree | internal/eventlog/eventlog.go:119-134 | with distinct session indices the merge does not depend on the order of the logs |
| MetricsLoops.ComputeSession | internal/metrics/metrics.go:59-71 | sorts the log in place and returns the specified metrics of its events |
| MetricsLoops.TurnSpans | internal/metrics/metrics.go:74-97 | the marker loop finds each turn's latest start and latest end |
| MetricsLoops.TimeToStop | internal/metrics/metrics.go:101-151 | the three loops give, per turn barged into, the distance from its earliest barge-in to its last counted agent frame |
| MetricsLoops.DoubleTalk | internal/metrics/metrics.go:155-173 | the nested loops sum all overlaps |
| MetricsLoops.Stalls | internal/metrics/metrics.go:177-216 | the per-turn loops count and sum the specified gaps |
| MetricsLoops.DroppedFrames | internal/metrics/metrics.go:219-227 | counts the Drop entries |
| MetricsLoops.ReorderedFrames | internal/metrics/metrics.go:234-250 | counts the agent frames below the running maximum |
| Metrics.OrderIndependent | internal/metrics/metrics.go:55-58 | equal multisets of events give equal metrics, in whatever order they were appended |
| Metrics.LatestIs | internal/metrics/metrics.go:81-88 | the latest time of a kind is attained and is an upper bound |
| Metrics.EarliestIs | internal/metrics/metrics.go:102-110 | the earliest time of a kind is attained and is a lower bound |
| Reported.DropsReported | internal/metrics/metrics.go:219-227 | ComputeSession reports as many drops as the log has Drop entries |
| Reported.DoubleTalkReported | internal/metrics/metrics.go:153-173 | as double talk, summed over the milliseconds, the speech frames being sent times the agent frames playing |
| Reported.StopsReported | internal/metrics/metrics.go:99-151 | for each turn with a barge-in, in turn order, the time from its first barge-in to the last agent frame that came at or after it and before the turn was last seen to end, or zero |
| Reported.StallsReported | internal/metrics/metrics.go:175-216 | as stalls, over the turns with agent audio, the gaps between consecutive receive times longer than the threshold that begin no earlier than the turn and end before its end, their number and their length |
| Reported.ReorderReported | internal/metrics/metrics.go:229-250 | as reordered, the agent frames that came, by time and within a millisecond by number, after one with a greater number |
| MetricsMeaning.DoubleTalkIsCover | internal/metrics/metrics.go:153-173 | double talk is the sum, over the milliseconds, of the caller frames that cover one times the agent frames that do |
| MetricsMeaning.DoubleTalkIsMeasure | internal/metrics/metrics.go:153-173 | it is at least the number of milliseconds in which both speak, and that number exactly when no such millisecond is covered twice on one side, as when neither side overlaps itself |
| MetricsMeaning.TurnStallsFit | internal/metrics/metrics.go:175-216 | the stalls of a turn seen from start to end last less than the turn, and each more than the threshold |
| Silence.GapsStayInTurn | internal/metrics/metrics.go:14-16 | through an ordering link that lost no TurnStart, every gap that can count as a stall lies between two frames of one turn of the agent |
| Silence.LosslessSeesStarts | internal/impair/impair.go:127-136 | without loss no TurnStart is lost |
| Silence.LostStartCountsSilence | internal/metrics/metrics.go:175-216 | when a TurnStart is lost, two turns are logged under one, whose end is the later TurnEnd, and the silence between them counts as a stall |
| MetricsMeaning.OvertakenCounts | internal/metrics/metrics.go:229-250 | the reorder count is the number of frames some earlier frame was ahead of |
| MetricsMeaning.NothingReordered | internal/metrics/metrics.go:229-250 | it is zero exactly when sequence numbers never fall |
| MetricsMeaning.StopTimesNonNegative | internal/metrics/metrics.go:142-150 | a stop time is never negative; it is positive exactly when an agent frame counts that came later than the earliest barge-in, and then the distance between a barge-in and an agent frame of that turn |
| Audio.OverlapMs | internal/audio/frame.go:95-108 | the overlap is the number of milliseconds both frames cover |
| EndToEnd.TimeToStopBounded | internal/metrics/metrics.go:101-151 | through a transparent downlink every time-to-stop reported for a run is between zero and the stop latency |
| EndToEnd.ReorderedAsReceived | internal/metrics/metrics.go:229-250 | on any link the sorted log holds the agent's audio frames in the order they were received, and the reorder count is exactly the number received after one with a greater number |
| EndToEnd.NoneReordered | internal/metrics/metrics.go:234-250 | through an ordering link no frame is reported reordered |
| EndToEnd.LogConserves | internal/engine/engine.go:152-161 | frames sent are as many as receipts and Drop entries of the final log, and the metrics count the drops |
| EndToEnd.LogShowsEveryFrame | internal/engine/engine.go:152-161 | frame by frame: each audio frame sent is itself in one Recv or Drop entry, each turn marker is one TurnStarted or TurnEnded entry or itself in a Drop entry, and the log shows no others |
| EndToEnd.DropsAreStamped | internal/engine/engine.go:155-160 | every Drop entry records a frame the downlink dropped, stamped with that frame's time, under no turn |
| EndToEnd.ReplayIsIdentical | internal/engine/engine.go:71-76 | two uncancelled executions of a scenario merge to the same log, whatever their interleavings |
| Aggregates.Summarize | internal/metrics/aggregate.go:37-53 | the loop gives the specified summary |
| Aggregates.ComputeAggregate | internal/metrics/aggregate.go:73-88 | the loop gives the specified aggregate |
| Aggregates.SummaryMeans | internal/metrics/aggregate.go:34-69 | a summary counts and adds the values, truncates their mean toward zero, and gives their 50th and 95th percentile and maximum; of no values it is all zeros |
| Aggregates.AggregateMeans | internal/metrics/aggregate.go:71-88 | the aggregate summarizes the stop times of all sessions together and the double talk session by session, and adds up stalls, their length, drops and reorderings |
| Aggregates.PercentileSplits | internal/metrics/aggregate.go:55-69 | at least p per cent of the values are at most the p-th percentile and fewer than p per cent are below it |
| Aggregates.SummaryOrdered | internal/metrics/aggregate.go:37-53 | minimum <= P50 <= P95 <= Max, attained, and the truncated mean lies between minimum and Max, negative values included |
| Aggregates.SummaryPermutes | internal/metrics/aggregate.go:37-53 | a summary does not depend on the order of the values |
| Aggregates.AggregatePermutes | internal/metrics/aggregate.go:73-88 | an aggregate does not depend on the order of the sessions |
| WsFrames.ParseEncode | internal/transport/ws.go:255-292 | the reference decoder of RFC 6455 section 5.2 inverts the encoder, masked or not, whatever follows |
| WsFrames.EncodeParse | internal/transport/ws.go:409-461 | every frame it decodes re-encodes to the bytes it came from |
| WsFrames.MaskTwice | internal/transport/ws.go:285-288 | masking is its own inverse |
| WsFrames.ClientFrameDecodes | internal/transport/ws.go:237-294 | for every opcode, payload and mask the client's frame decodes to a final frame with that opcode and payload, its length in the shortest form |
| WsFrames.AcceptsExactly | internal/transport/ws.go:407-461 | readFrame accepts exactly the complete, unmasked frames with no reserved bits, within the limit, whose control frames are short and final, and reads them as the reference decoder does; like it, it takes lengths not in the shortest form and 64-bit lengths with the top bit set, which section 5.2 forbids senders |
| WsFrames.ReadsServerFrame | internal/transport/ws.go:407-461 | readFrame inverts the unmasked encoder in any length form |
| WsFrames.ReadsConcatenation | internal/transport/ws.go:407-461 | a concatenation of server frames reads back as exactly those frames |
| WsFrames.ParsesConcatenation | internal/transport/ws.go:237-294 | a concatenation of frames, masked or not, decodes to exactly those frames |
| WsConns.FragmentsReadAsWhole | internal/transport/ws.go:332-385 | however a message of at most the limit is cut up, pings and pongs in between, Read returns what the single frame would give, and answers each ping with a pong of the same payload, in order |
| WsConns.RefusesOversized | internal/transport/ws.go:363-377 | a message over the limit is refused, however it is cut up, uncut included, in whatever length forms and with whatever control frames in between |
| WsConns.DeliveredExactly | internal/transport/ws.go:332-385 | so a message in pieces is delivered whole when it is within the limit and refused when it is not |
| WsConns.ReadBounds | internal/transport/ws.go:363-377 | Read never buffers more than twice the limit, returns no more than the limit, and writes only pongs and close echoes |
| WsConns.ReplyKinds | internal/transport/ws.go:345-356 | a Read closes the connection exactly when it reports that the server did; its replies are pongs, but for the echo of that Close, which comes last |
| WsSessions.ReadsOrRefuses | internal/transport/ws.go:407-461 | readFrame on any complete frame: the first fault of reserved bits, mask, size, control size and fragmented control, or the frame |
| WsSessions.GoesOn | internal/transport/ws.go:345-382 | after any pings, pongs and unfinished data within the limit, from any partial message, a Read has answered each ping in order, joined the data, and goes on with what follows |
| WsSessions.ClosedByServer | internal/transport/ws.go:352-356 | a Close after any of that is echoed with its payload, closes the connection and ends the Read as closed by the server, leaving what follows unread |
| WsSessions.MisplacedFrame | internal/transport/ws.go:345-382 | a message begun inside another, a continuation of none, an unknown opcode, or a ping that can no longer be answered ends the Read with that error, and closes nothing |
| WsSessions.RefusedFrame | internal/transport/ws.go:336-343 | so does a frame that readFrame refuses, with the reason, and the end of the stream |
| WsSessions.StreamDecodes | internal/transport/ws_transport.go:53-85 | of any stream of messages, however each is cut up and interleaved with control frames, a transport gives out exactly the frames they decode to, in order, and ends as what follows them does |
| WsSessions.ClosesStream | internal/transport/ws_transport.go:66-72 | after a Close it ends as closed |
| WsObjects.WSConn.Read | internal/transport/ws.go:332-385 | the Read over the connection gives the result, consumes the bytes and writes the replies of which WsSessions and WsConns speak; when the server closed, the connection is closed and the last frame written is the client's Close with the server's payload |
| WsObjects.WSConn.OnControl | internal/transport/ws.go:345-356 | the control cases of the switch: a pong for a ping unless closed, a close echoed and the connection marked closed |
| WsObjects.WSConn.OnData | internal/transport/ws.go:357-382 | the data cases of the switch |
| WsObjects.WSConn.NextFrame | internal/transport/ws.go:409-461 | the reader loop is the readFrame function, errors and consumed bytes included |
| WsObjects.WSConn.WriteFrame | internal/transport/ws.go:238-294 | one final masked frame is written, or nothing when the connection is closed |
| WsObjects.WSConn.FrameHeader | internal/transport/ws.go:255-279 | the header buffer is filled with head, minimal length and mask |
| WsObjects.WSConn.OutputDecodes | internal/transport/ws.go:281-292 | a server decodes everything written to exactly the frames sent, in order |
| WsTransports.WSTransport.Recv | internal/transport/ws_transport.go:53-85 | Recv gives out the flattening of the decoded messages, each frame once, in order, then the failure the stream ends with |

## Left out

- OfflineRun.TimersFireLast: speaks of states in which no stream counter has passed 2^40, the base of the agent's timer band (internal/agentproto/fake.go:237-254); OfflineRun.StaysBelowBand gives a condition on the scenario. Past the band nothing is claimed.
- OfflineRun.AgentStopsInTime: likewise, of the session's own counters.
- EndToEnd.TimeToStopBounded: likewise, of the session's own counters at the end of the run.
- OfflineRun.DownlinkIsFifo: on a limited link asks that the agent's payload length be not negative, which validation does not look at; BandwidthBound.OrderNeedsSizes shows that a limited queue keeps no order for a negative one.
- OfflineRun.LosslessDelivery: likewise.
- Attribution.LoggedUnderItsTurn: likewise.
- EndToEnd.NoneReordered: likewise.
- Silence.LoggedTurn: likewise.
- Silence.GapsStayInTurn: likewise; it also asks that no TurnStart was lost, though losing one need not make silence count.
- EngineLoop.Run: models the uncancelled run; what a cancelled one leaves in the logs is not claimed, only that it tears down.
- OfflineRun.RunTerminates: here and in the other theorems about runs the scenario is one that validation accepts with frame cadence, endpointing, stop latency and stall length also not negative, which validation does not look at (internal/script/script.go:101-123).
- 64-bit overflow: integers are unbounded; nothing is claimed about scenarios whose times or counters leave 64 bits.
- The launch loop, Instrumentation.Sem and Peak (internal/engine/engine.go:170-184): the protocol starts with all workers launched and counted.
- Two steps inside one critical section of the protocol's workers: a reaction computes its requests in one section and each Schedule call is its own; finer interleavings of the agent's and caller's own mutexes are not modelled. After cancellation a section may leave any shared state.
- The seeded generator: draws are an arbitrary stream of reals in [0, 1) and bounded integers; nothing statistical is claimed.
- MaxDurationMs: not read by the offline run.
- Replays.SessionsReplay: speaks of losses and delays by position. Two sessions' whole logs need not agree: events of a session that tie in time, number and session fire in an order that depends on the shared heap.
- Replays.LostAsDrawn: speaks of runs without bursts; with bursts LossLaws.ChainByDraw says the same of any traffic.
- EventLog.MergeOrderFree: for logs that share a session index nothing is claimed; the merge then keeps ties in the order of the logs, so it does depend on that order.
- container/heap and sort.SliceStable: written out as the textbook algorithms; the stable sort is shown to be unique, the heap's tie-breaking is that of the standard library's algorithm.
- The live path, dialing, TLS, the opening handshake, deadlines and context plumbing of the WebSocket connection.
- WSConn.Close and its draining: a data frame can follow the Close frame between sending it and marking the connection closed, so nothing is claimed about writers racing with it.
- The endpoint codecs: decoding a message is an arbitrary function to frames or failure.
- JSON encoding of logs and aggregates, baselines, reports, command line and configuration: plumbing.
- String names of kinds and event types: constants.
