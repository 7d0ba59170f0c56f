# Verified protocol machines of a voice-translation daemon

This project models the protocol machines of a desktop translation daemon and its provider
sidecar, and proves what they are for, over every run. Nothing here executes the daemon: the
models are Dafny functions and classes, and every statement below is checked by the Dafny
verifier alone (`dafny verify dfyconfig.toml`).

**Form.** What the program computes step by step on objects is a class whose methods carry
`modifies` clauses and loops; every such method is proved equal to a function on the object's
value (`View() == Step(old(View()), ...)`). The theorems are about those functions and about
runs of them. What the program computes as a value is a function. The table below lists the
methods with a loop, a rollback or a frame of their own; the others are proved equal to their
functions in the same way.

| part | value model | runs and theorems | objects |
|---|---|---|---|
| provider session (sidecar) | `EngineModel` | `EngineRuns`, `EngineTraces`, `EngineAnswers`, `EngineHistory` | `ProviderEngine` |
| event validator | `ValidatorModel` | `ValidatorHistory`, `ValidatorRuns`, `Simulation`, `CaptureOrder` | `ProviderValidator` |
| deadline watchdog | `WatchdogModel` | `WatchdogHistory`, `EscalationLadder` | `ProviderWatchdog` |
| stream coordinator | `CoordinatorModel` | `Coupling`, `CoordinatorVerdicts`, `ReceiveBuffers`, `CoordinatedDelivery`, `CoordinatedCalls`, `CoordinatedPolls`, `CoordinatedRuns`, `PatientRuns`, `EarlyDrain` | `StreamCoordinator` |
| direction session | `DirectionSessionModel` | `DirectionHistory`, `RequestRuns`, `PlaybackRuns`, `CaptureRuns` | `DirectionRuntime` |
| speech segmenter | `SegmenterModel` | `SegmenterRuns`, `CaptureRuns` | `SpeechSegmentation` |
| virtual sound devices | `ModuleArgs`, `OwnershipModel`, `CrashModel` | `ModuleWords`, `CrashSafety`, `CrashRecovery` | `Reconcile` |
| latency policy | `NearestRank`, `LatencyModel` | `LatencyRuns` | `LatencyPolicy` |
| round-trip self-test | `RoundTripModel` | `RoundTripRuns`, `RoundTripHistory`, `ObserverHistory` | `RoundTripObserver`, `ExactPcm`, `EnglishTap` |
| OpenAI re-framing | `Reframing` | `Reframing` | `Reframing` |
| provider leases | `Leases` | `Leases` | `Leases` |

**Histories.** The modules named `...History`, and `LatencyRuns`, state for a whole machine what it
answers, as a reading of the calls made and the answers given so far, with figures written out
(`Figures` holds the one used in several places). The machine's own fields do not appear in these
statements: that they hold just what the history says is proved on the way. So each machine is
shown to refine a description without memory, in both directions.

**The main results.**

- *Verdicts.* Over every run, the validator, the watchdog, the provider session, the direction
  session, the self-test and the latency policy accept, refuse or change mode exactly when their
  histories say so; draining plays every utterance as if it were alone.
- *Requests.* Captured frames are sent on in order, each with its own number, bytes, times and end,
  and a provider never takes one for a repetition.
- *Simulation.* Whatever calls are made on a provider session, the daemon's validator accepts
  every event the session returns, and everything the daemon tells it on the way, as long as
  captures do not go back in time; a run where they do and something is refused is given, and
  exactly when that happens. Against the whole coordinator, with its deadlines polled at any
  time, exactly when anything is refused; a poll alone never is.
- *Coupling.* Validator and watchdog are updated separately and never disagree; an accepted
  event commits on both sides; no utterance ends or is cancelled twice. The validator alone
  would accept two ends, and exactly when is stated.
- *Playback.* Over whole runs, what is played for an utterance is numbered 0, 1, 2, ..., is the
  events' own bytes, stops at a cancel or an end, and is what a completed end names.
- *Segmentation.* The output is a function of the voice pattern: the blocks that are due, in
  order, each whole; fed to a direction session it is never out of place and never late.
- *Crash safety.* With a crash possible between any two effects, a marked module always has a
  journal of its generation; a successful clean-up leaves neither; no other module is ever
  unloaded; and from any state a crash leaves, an undisturbed clean-up or setting up succeeds.
  Whenever setting up reports success, all three devices were in place.
- *Latency policy.* Every change of mode exactly when, to what and why; percentiles against their
  plain meaning; with utterances stamped after the last change the cooldown test never decides.
- *Round trip.* The order of events does not matter; a completed test passed every checkpoint in
  order with an exact proof; a proof is exact if and only if the frames are the same.

## Model

| member | source | states |
|---|---|---|
| `ValidatorHistory.AcceptedIff` | crates/translator-ipc/src/validation.rs:139-440 | over every run the next call, told or received, is accepted exactly when the calls and verdicts so far allow it: addressed and numbered, nothing else awaited, audio next in number, format, length and age, text only when asked for, at most 64 open and 4096 ended utterances |
| `ValidatorHistory.LateIff` | crates/translator-ipc/src/validation.rs:280-351 | audio is told to be expired exactly when it came in order, nothing of its utterance was played and its end is older than 3, 2 or 1 s; cancelled exactly when it came in order and its utterance is being cancelled |
| `ValidatorHistory.NumbersRise` | crates/translator-ipc/src/validation.rs:222-278 | over every run, of two events that are accepted, or count as late audio, the later bears the greater number |
| `ValidatorHistory.NumberRefused` | crates/translator-ipc/src/validation.rs:268-278 | a well addressed event is refused as duplicate, stale or a gap exactly when its number is the last one counted, below it, or not the first |
| `ValidatorHistory.FirstOpens` | crates/translator-ipc/src/validation.rs:222-278 | the first event that counts opens the session and is number 1 |
| `ValidatorHistory.CountedIsOurs` | crates/translator-ipc/src/validation.rs:222-264 | whatever counts bears the contract's session, direction and stream |
| `Simulation.EngineSatisfiesValidator` | sidecar/translator_sidecar/provider_engine.py:163-370 | for every run of calls whose captures do not go back in time within an utterance, no event the engine returns and nothing the daemon records is refused |
| `Simulation.RefusedIff` | crates/translator-ipc/src/validation.rs:222-440 | the exact condition, with no assumption on captures: a run is refused if and only if some drain plays the first audio of an utterance whose recorded end is then older than the mode allows |
| `Simulation.TogetherSound` | crates/translator-ipc/src/validation.rs:139-440 | as long as nothing is refused the two ends agree: same open and ended utterances, same audio numbers, the first waiting frame is the capture time the validator holds |
| `Simulation.CallJudged` | crates/translator-ipc/src/validation.rs:222-440 | one returning call is always recorded, is refused exactly when it is such a drain, and otherwise leaves the two ends in agreement |
| `Simulation.DrainJudged` | sidecar/translator_sidecar/provider_engine.py:280-330 | the events of a drain, whatever is queued, are accepted one after the other unless one is such first audio |
| `Simulation.AudioVerdict` | crates/translator-ipc/src/validation.rs:336-351 | audio right in every other way is refused exactly when it is the first of an utterance whose recorded end is too old |
| `CaptureOrder.BackwardRefused` | crates/translator-ipc/src/validation.rs:336-351 | every run of two frames whose second, captured earlier, ends the utterance is refused once the first is played after the second went stale |
| `CaptureOrder.BackwardExample` | sidecar/translator_sidecar/provider_engine.py:163-330 | there are such runs: captures at 2 s and 0 s, heard at 2 s, played at 4 s |
| `CoordinatedDelivery.TakenIff` | crates/translator-daemon/src/provider_audio_watchdog.rs:559-624 | the coordinator takes an event if and only if the validator accepts it and, for audio and ends, the end or the cancellation was recorded and the deadline has not passed |
| `CoordinatedDelivery.DeliveredIff` | crates/translator-daemon/src/provider_audio_watchdog.rs:559-624 | the events of one call are all taken if and only if the validator alone accepts them and the watchdog was ready for each when the call was made |
| `CoordinatedRuns.CoordinatorRefusesIff` | crates/translator-daemon/src/provider_audio_watchdog.rs:460-679 | the simulation against the coordinator: over every run of calls and polls something is refused if and only if, at some call, a request could not be recorded in time, the watchdog was not ready for something said, or first audio came too late |
| `CoordinatedPolls.PollTaken` | crates/translator-daemon/src/provider_audio_watchdog.rs:626-661 | a poll of a session that answers is never refused and asks for cancellations only; in whatever order they are sent, afterwards exactly the overdue utterances are gone, nothing is overdue and all agree again |
| `PatientRuns.ForwardRefusedIff` | crates/translator-daemon/src/provider_audio_watchdog.rs:460-679 | over every run of calls and polls whose captures do not go back in time, something is refused if and only if some call is hasty: it could not be recorded in time, or plays or ends, unasked, an utterance whose input has not ended or whose deadline has passed |
| `CoordinatedCalls.StepRefusedIff` | crates/translator-daemon/src/provider_audio_watchdog.rs:460-624 | one more call is refused exactly in those three cases, and otherwise session, validator and watchdog agree again |
| `CoordinatedCalls.EarlyAudioRefused` | crates/translator-daemon/src/provider_audio_watchdog.rs:149-178 | a session drained while input is still collected is refused as soon as it plays or ends an utterance whose last frame has not come |
| `EarlyDrain.EarlyRunRefused` | crates/translator-daemon/src/provider_audio_watchdog.rs:149-178 | every run that hears, processes and plays at once a fresh first frame that does not end its utterance is refused |
| `EarlyDrain.EarlyExample` | sidecar/translator_sidecar/provider_engine.py:163-330 | there are such runs in every mode: a frame captured, heard and played at zero |
| `EngineAnswers.FrameAnswered` | sidecar/translator_sidecar/provider_engine.py:163-199 | a frame that is not refused is answered by exactly one dropped end if and only if it is older than 3, 2 or 1 s by mode, by the overflow pair if and only if it is not and more than 800 ms would wait, and otherwise is appended with no event |
| `EngineAnswers.QueuedWhileFresh` | sidecar/translator_sidecar/provider_engine.py:163-199 | over every run, every queued frame was no older than the mode allows when it came |
| `EngineAnswers.HeadAnswered` | sidecar/translator_sidecar/provider_engine.py:201-278 | processing drops the oldest frame's utterance if it is too old, leaves it while its delay runs, fails it when told to or beyond 1200 ms, and otherwise moves it, reversed, with the two texts exactly when they are asked for |
| `EngineAnswers.DrainSaid` | sidecar/translator_sidecar/provider_engine.py:280-330 | a drain says of each utterance exactly what playing it alone would: its frames with their latencies up to one that is too old, which drops it, or the last, which completes it; and leaves the output empty |
| `EngineAnswers.OpensIff` | sidecar/translator_sidecar/provider_engine.py:137-161 | which formats a session is opened for, and how long their frames are |
| `EngineHistory.FrameRefusedIff` | sidecar/translator_sidecar/provider_engine.py:442-475 | over every run, a frame is refused exactly when what was taken and returned before makes it unwelcome, or it would end its utterance with 4096 ended; repeated and stale numbers are named as such |
| `EngineHistory.CancelRefusedIff` | sidecar/translator_sidecar/provider_engine.py:332-352 | over every run, when a cancellation is refused, and that otherwise exactly the cancelled end is returned and nothing of the utterance is left |
| `EngineHistory.ClosedRefuses` | sidecar/translator_sidecar/provider_engine.py:434-440 | once closed, a session refuses every call |
| `EngineHistory.DebugIs` | sidecar/translator_sidecar/provider_engine.py:372-374 | over every run, text is given exactly when it was last asked for |
| `EngineRuns.ApplyKeepsInv` | sidecar/translator_sidecar/provider_engine.py:163-370 | every call, returning or raising, keeps the session invariant |
| `EngineTraces.QueuesAccounted` | sidecar/translator_sidecar/provider_engine.py:188-199 | over every run the buffered milliseconds are the sums over the queues, within 800 and 1200, and no queued frame belongs to an ended utterance |
| `EngineTraces.EventsConsecutive` | sidecar/translator_sidecar/provider_engine.py:102-104 | events of calls that returned are numbered 1, 2, 3, ... without a gap, also in a run that ends in a raise |
| `EngineTraces.AudioInCaptureOrder` | sidecar/translator_sidecar/provider_engine.py:280-330 | audio of an utterance is numbered 0, 1, 2, ... and is the sample reversal of its first accepted frames, in order, each in its own format and stream and played while not too old |
| `EngineTraces.OneFinalLast` | sidecar/translator_sidecar/provider_engine.py:524-552 | an utterance has at most one final, it is its last event and names the last audio emitted |
| `EngineTraces.NothingLost` | sidecar/translator_sidecar/provider_engine.py:163-330 | every frame given to an open utterance is already audio or still queued, in order |
| `EngineTraces.WakeupMakesProgress` | sidecar/translator_sidecar/provider_engine.py:385-403 | after sleeping as long as asked, processing takes the head off the input queue |
| `EngineTraces.WakeupNotLate` | sidecar/translator_sidecar/provider_engine.py:385-403 | and a millisecond less would have been in vain |
| `ProviderEngine.MockTransformPcm` | sidecar/translator_sidecar/provider_engine.py:125-129 | the loop over the samples computes the sample reversal; odd lengths are refused |
| `ProviderEngine.ReverseTwice` | sidecar/translator_sidecar/provider_engine.py:125-129 | transforming twice gives the audio back |
| `ProviderEngine.SampleMirrored` | sidecar/translator_sidecar/provider_engine.py:125-129 | each sample keeps its two bytes in order and lands at the mirrored place |
| `ProviderEngine.ProviderSession.RemoveInput` | sidecar/translator_sidecar/provider_engine.py:488-496 | the loop removes exactly the utterance's entries, in order, and its milliseconds |
| `ProviderEngine.ProviderSession.RemoveOutput` | sidecar/translator_sidecar/provider_engine.py:498-506 | the same for the output queue |
| `ProviderEngine.ProviderSession.DrainOutput` | sidecar/translator_sidecar/provider_engine.py:280-330 | the loop over the output queue is the recursive drain and keeps the session invariant |
| `ProviderEngine.ProviderSession.WorkOff` | sidecar/translator_sidecar/grpc_server.py:387-401 | the transport's pending loop ends however long sleeps take, after at most two calls for each queued frame, with the input empty or a call raised |
| `ProviderWatchdog.ProviderAudioWatchdog.Sweep` | crates/translator-daemon/src/provider_audio_watchdog.rs:317-340 | the walk over the map, in any order, finds exactly the overdue utterances and whether a cancel went unanswered |
| `WatchdogHistory.AcceptedIff` | crates/translator-daemon/src/provider_audio_watchdog.rs:98-418 | over every run a call is accepted exactly when the utterance is at the right stage, on its stream and within 12 s of speech, 6 s until first audio, 250 ms between audio, with the session neither closing nor closed |
| `WatchdogHistory.EndAllowedIff` | crates/translator-daemon/src/provider_audio_watchdog.rs:264-298 | over every run an end is let through exactly with the right outcome for its stage and in time |
| `WatchdogHistory.AlarmsExactly` | crates/translator-daemon/src/provider_audio_watchdog.rs:304-350 | over every run a poll cancels exactly the overdue utterances, or closes exactly when a cancellation has gone unanswered for 250 ms, or restarts exactly 2 s after an unanswered close |
| `EscalationLadder.LadderOrder` | crates/translator-daemon/src/provider_audio_watchdog.rs:304-350 | over every run, whatever the clock, one close and one restart at most, the restart at least 2 s after the close |
| `EscalationLadder.CancelsAlwaysLogged` | crates/translator-daemon/src/provider_audio_watchdog.rs:317-384 | every cancellation under way was asked for, and its deadline runs from then |
| `EscalationLadder.CloseFollowsSilence` | crates/translator-daemon/src/provider_audio_watchdog.rs:336-348 | a close comes more than 250 ms after a cancel that is still unanswered |
| `EscalationLadder.SilenceReachesRestart` | crates/translator-daemon/src/provider_audio_watchdog.rs:304-350 | with no answer, suitably spaced polls reach the restart, and later polls stay silent |
| `CoordinatorVerdicts.EventTakenIff` | crates/translator-daemon/src/provider_audio_watchdog.rs:559-624 | in every reachable state an event is taken exactly when the validator accepts it, the watchdog lets it through and no more than 400 ms would wait |
| `CoordinatorVerdicts.RefusedLeaves` | crates/translator-daemon/src/provider_audio_watchdog.rs:559-624 | a refusal leaves watchdog and buffers alone, and everything unless it was the validator's; audio of an utterance being cancelled always reaches the validator |
| `CoordinatorVerdicts.TakenBoth` | crates/translator-daemon/src/provider_audio_watchdog.rs:559-624 | an event that is taken is noted by validator and watchdog alike |
| `CoordinatorVerdicts.ToldTakenIff` | crates/translator-daemon/src/provider_audio_watchdog.rs:460-486 | a start, an end or a cancellation is taken exactly when both sides take it, and otherwise changes nothing |
| `ReceiveBuffers.OldestFirst` | crates/translator-daemon/src/provider_audio_watchdog.rs:488-551 | over every run audio is taken out oldest first, and at most 400 ms wait |
| `ReceiveBuffers.FullIff` | crates/translator-daemon/src/provider_audio_watchdog.rs:513-530 | the buffer is full exactly when more than 400 ms would wait |
| `Coupling.CouplingHolds` | crates/translator-daemon/src/provider_audio_watchdog.rs:460-679 | in every reachable state, active and open, watched utterances and awaited cancellations are the same on both sides |
| `Coupling.AcceptedCommits` | crates/translator-daemon/src/provider_audio_watchdog.rs:559-624 | once the validator accepts, no later step can fail; a refusal leaves watchdog and buffers alone |
| `Coupling.CancelledAudioRefused` | crates/translator-daemon/src/provider_audio_watchdog.rs:573-583 | audio of an utterance being cancelled is never taken |
| `Coupling.DeadlinesNeverRefused` | crates/translator-daemon/src/provider_audio_watchdog.rs:626-679 | while both sides are open the validator never objects to a poll, a cancellation or an end of utterance |
| `Coupling.OneTerminal` | crates/translator-daemon/src/provider_audio_watchdog.rs:264-298 | over every run an utterance has at most one accepted final |
| `Coupling.OneCancellation` | crates/translator-daemon/src/provider_audio_watchdog.rs:317-384 | over every run an utterance is asked to cancel at most once |
| `Coupling.ValidatorAloneEndsTwice` | crates/translator-ipc/src/validation.rs:285-296 | a cancel recorded while an overflow final is pending makes the validator alone accept two finals |
| `ValidatorRuns.EndsAgainIff` | crates/translator-ipc/src/validation.rs:536-576 | over every run of the validator alone, a final for an utterance that has ended is accepted if and only if its overflow or no-speech end is still awaited, and the final is the dropped one |
| `ValidatorRuns.TwiceOnlyAfterCancel` | crates/translator-ipc/src/validation.rs:285-300 | the validator alone accepts two finals of one utterance only if a cancel of it was recorded while its overflow or no-speech end was awaited |
| `StreamCoordinator.ProviderStreamCoordinator.Poll` | crates/translator-daemon/src/provider_audio_watchdog.rs:626-661 | both loops over the actions, and the rollback when the validator objects |
| `StreamCoordinator.ProviderStreamCoordinator.StartUtterance` | crates/translator-daemon/src/provider_audio_watchdog.rs:460-473 | watchdog first, disarmed again when the validator refuses |
| `StreamCoordinator.ProviderStreamCoordinator.CancelExpiredUtterance` | crates/translator-daemon/src/provider_audio_watchdog.rs:663-679 | the watchdog is restored when the validator refuses |
| `RequestRuns.RequestsInOrder` | crates/translator-daemon/src/direction_session.rs:201-267 | over every run the k-th request is the k-th captured frame taken, numbered k, with its own stream, utterance, time, format, bytes and end |
| `RequestRuns.SpeechIsSent` | crates/translator-daemon/src/direction_session.rs:201-267 | as long as no captured event is refused, every frame the segmenter lets through is sent like that |
| `RequestRuns.NeverRepeated` | sidecar/translator_sidecar/provider_engine.py:442-456 | given to a provider in that order, with anything in between, such frames are never refused as repeated or stale, as long as 64-bit numbers last |
| `DirectionHistory.CaptureTakenIff` | crates/translator-daemon/src/direction_session.rs:201-267 | over every run a captured event is taken exactly when it is in place and the coordinator takes it |
| `DirectionHistory.EventDoes` | crates/translator-daemon/src/direction_session.rs:269-370 | over every run what each provider event makes the session do, whether taken, late, cancelled or refused |
| `PlaybackRuns.PlaybackInOrder` | crates/translator-daemon/src/direction_session.rs:269-370 | over every run, what is played for an utterance is numbered 0, 1, 2, ... |
| `PlaybackRuns.PlaysItsOwnBytes` | crates/translator-daemon/src/direction_session.rs:300-325 | accepted audio is played with its own number and bytes, nothing else ever is |
| `PlaybackRuns.CompletedNamesLastPlayed` | crates/translator-ipc/src/validation.rs:415-433 | an accepted completed final names the last audio played, none when nothing was |
| `PlaybackRuns.SilenceAfterEnd` | crates/translator-daemon/src/direction_session.rs:269-399 | nothing is played for an utterance after it was cancelled or ended |
| `PlaybackRuns.PlaysOnlyLive` | crates/translator-daemon/src/provider_audio_watchdog.rs:573-592 | only an utterance neither ended nor being cancelled is played |
| `SegmenterModel.Clamped` | crates/translator-audio/src/pcm.rs:334-365 | whatever limits are asked for, the ones used are the nearest sensible ones |
| `SegmenterRuns.HeededIff` | crates/translator-audio/src/pcm.rs:371-391 | a frame is heeded exactly if it is 16 kHz mono in 20 ms and the detector can tell |
| `SegmenterRuns.Segmented` | crates/translator-audio/src/pcm.rs:371-516 | for any voice pattern the output is the blocks that are due, whole and in order, then the beginning of the open one; the rest was dropped between utterances or is held |
| `SegmenterRuns.BlocksApart` | crates/translator-audio/src/pcm.rs:371-516 | completed utterances are in order, never overlap, are longer than the confirmation and at most the greatest length |
| `SegmenterRuns.ReadingsAgree` | crates/translator-audio/src/pcm.rs:371-516 | voice pattern and offered identifiers fix the utterances: any two readings of what was said have the same blocks |
| `SegmenterRuns.IdentifiersApart` | crates/translator-audio/src/pcm.rs:393-423 | each utterance bears the identifier offered with the frame that confirmed it, so distinct identifiers give distinct utterances |
| `SegmenterRuns.Ended` | crates/translator-audio/src/pcm.rs:425-516 | an utterance ends exactly when it must, and the segmenter waits for quiet exactly when it was cut in a pause |
| `SpeechSegmentation.SpeechSegmenter.DrainTrailing` | crates/translator-audio/src/pcm.rs:433-441 | the held frames go out in order, none twice |
| `CaptureRuns.SpeechAlwaysTaken` | crates/translator-daemon/src/direction_session.rs:201-267 | with at most 600 frames to an utterance, frames at most 20 ms apart and no poll past the newest frame, no captured event is refused, whatever the provider sends in between |
| `CaptureRuns.NeverOutOfPlace` | crates/translator-audio/src/pcm.rs:371-516 | with any limits and clock, and no polls, the only refusal there can be is an end that came late |
| `CaptureRuns.FeedEnding` | crates/translator-daemon/src/provider_audio_watchdog.rs:119-147 | the last frames are taken if and only if the end is within the collecting deadline |
| `ModuleArgs.RecognisedOnlyAs` | crates/translator-audio/src/pulse.rs:522-640 | the arguments a module is loaded with are recognised for that role and generation and for no other |
| `ModuleWords.LoadsWith` | crates/translator-audio/src/pulse.rs:522-568 | the command each device is loaded with, word for word |
| `ModuleWords.MatchesIff` | crates/translator-audio/src/pulse.rs:570-618 | a module is recognised for a role exactly by these settings and the mark, whatever else is set and in whatever order |
| `ModuleWords.ClaimsIff` | crates/translator-audio/src/pulse.rs:620-640 | a module claims a role exactly by the mark and its one name |
| `ModuleWords.WordsRead` | crates/translator-audio/src/pulse.rs:607-613 | however they are spaced, the words of a line are read off it |
| `ModuleWords.LastSettingWins` | crates/translator-audio/src/pulse.rs:607-613 | a key has the value of the last word that sets it |
| `OwnershipModel.Validate` | crates/translator-audio/src/journal.rs:51-80 | the loop accepts exactly the journals in role order without a repeated role or module |
| `Reconcile.ReconcileOwnership` | crates/translator-audio/src/pulse.rs:283-356 | succeeds if and only if nothing is inconsistent, and then is exactly the live matching modules in role order; the last append and the last validation can never matter |
| `OwnershipModel.ExactlyIs` | crates/translator-audio/src/pulse.rs:283-356 | that result is always a valid journal and lists a module if and only if it is live and matches |
| `CrashSafety.MarkedIsJournalled` | crates/translator-audio/src/pulse.rs:196-281 | at every moment of every run a live marked module bears the generation of the journal on disk |
| `CrashSafety.CleanupLeavesNothing` | crates/translator-audio/src/pulse.rs:358-389 | a clean-up that reports success leaves no marked module and no journal |
| `CrashSafety.UnloadsOnlyItsOwn` | crates/translator-audio/src/pulse.rs:358-397 | whatever the daemon unloads matches role, owner mark and generation at that moment |
| `CrashSafety.RecoversIff` | crates/translator-audio/src/pulse.rs:436-512 | after any crash, reconciling succeeds if and only if every endpoint seen belongs to a module of the daemon |
| `CrashRecovery.CleanupSucceeds` | crates/translator-audio/src/pulse.rs:490-512 | from any state a crash leaves, a clean-up nothing goes wrong for succeeds within fourteen effects |
| `CrashRecovery.EnsuredIsInPlace` | crates/translator-audio/src/pulse.rs:185-241 | over every run, whenever setting up reports success the journal on disk names the three roles in order and what was seen last was one endpoint for each, owned by its module |
| `CrashRecovery.EnsureSucceeds` | crates/translator-audio/src/pulse.rs:436-474 | from any state a crash leaves, setting up that nothing goes wrong for succeeds, and touches nothing if all devices were there |
| `CrashRecovery.RollbackTakesAll` | crates/translator-audio/src/pulse.rs:253-281 | left alone, taking back unloads exactly the journalled modules and leaves an empty journal |
| `CrashRecovery.OthersLeftAlone` | crates/translator-audio/src/pulse.rs:436-512 | with another's endpoint in the way, setting up and cleaning up give up and touch nothing |
| `CrashRecovery.StillThere` | crates/translator-audio/src/pulse.rs:468-472 | an endpoint still seen after cleaning up stops the setting up with nothing loaded |
| `CrashRecovery.EndpointsIff` | crates/translator-audio/src/pulse.rs:46-67 | which sinks and sources count as a role's endpoints |
| `NearestRank.P95IsP95` | crates/translator-daemon/src/latency.rs:342-347 | at least 95% of the values are at most the result, fewer than 95% are below it |
| `NearestRank.OnlyP95` | crates/translator-daemon/src/latency.rs:342-347 | no other value is like that |
| `NearestRank.P95Unordered` | crates/translator-daemon/src/latency.rs:342-347 | the order of the values does not matter |
| `LatencyRuns.ChangesExactly` | crates/translator-daemon/src/latency.rs:92-260 | over every run each command changes the mode exactly as its history says: the third late utterance, two seconds of lag, the second slow or, two minutes after the last change, the fifth healthy window in a row, or an order; a window is slow if fewer than 95 in 100 of at least 20 utterances of its minute keep the mode's limits, 3000/500, 2000/350 and 1000/250 ms |
| `LatencyRuns.BreachStartIsFirst` | crates/translator-daemon/src/latency.rs:116-141 | the stored start is the first time of the unbroken breaching run since the last reset |
| `LatencyRuns.QueueTripsIff` | crates/translator-daemon/src/latency.rs:116-141 | the queue tripwire fires exactly when a breach has lasted two seconds without a break |
| `LatencyRuns.UtterancesTripIff` | crates/translator-daemon/src/latency.rs:92-114 | the utterance tripwire fires exactly at the third slow utterance in a row |
| `LatencyRuns.RecoversAtFifth` | crates/translator-daemon/src/latency.rs:143-200 | recovery happens exactly at the fifth consecutive healthy window, healthy as told from the commands, more than 240 s after the last change, so the cooldown never decides |
| `LatencyRuns.DegradesAtSecond` | crates/translator-daemon/src/latency.rs:143-200 | over every run, whatever the utterances are stamped, windows degrade the mode exactly at the second slow one in a row, slow as told from the commands |
| `LatencyRuns.OneStepAtATime` | crates/translator-daemon/src/latency.rs:202-236 | automatic changes move one step in the right direction and nothing else changes the mode |
| `LatencyRuns.ReportsPercentiles` | crates/translator-daemon/src/latency.rs:163-172 | a full window is reported by its three percentiles |
| `LatencyPolicy.DuplexLatencyPolicy.Handle` | crates/translator-daemon/src/latency.rs:290-340 | a command to one direction leaves the other as it was |
| `RoundTripRuns.OrderDoesNotMatter` | crates/translator-daemon/src/round_trip_process.rs:904-1051 | from a session just started, with each utterance started first, any two orders of the same facts reach the same checkpoint, also when the way back is told before reinjection is marked |
| `RoundTripRuns.CompletedPassedAll` | crates/translator-daemon/src/round_trip.rs:287-331 | whatever is called in whatever order, a completed session passed every checkpoint in order and holds an exact proof |
| `RoundTripRuns.CompletedHeardAll` | crates/translator-daemon/src/round_trip_process.rs:801-889 | an observer that completed saw finals and audio of both ways and the end of the way back |
| `RoundTripRuns.DrainReaches` | crates/translator-daemon/src/round_trip_process.rs:814-875 | draining goes exactly as far as what was seen allows, with session and observer in step |
| `RoundTripObserver.ProgressObserver.DrainLocked` | crates/translator-daemon/src/round_trip_process.rs:814-875 | the loop to a fixpoint is the recursive drain, and ends |
| `RoundTripHistory.AcceptedIff` | crates/translator-daemon/src/round_trip.rs:260-430 | over every run each call on the self-test is accepted exactly when those accepted so far allow it: the preconditions, the next checkpoint, the proof, five minutes |
| `RoundTripHistory.ReportedIs` | crates/translator-daemon/src/round_trip.rs:384-399 | what is reported of the session is what the accepted calls said |
| `ObserverHistory.SeenIsNoticed` | crates/translator-daemon/src/round_trip_process.rs:904-1051 | over every run what the observer holds seen of each way is what was noticed of the speech it watches, and of no other |
| `ObserverHistory.NoticedInTime` | crates/translator-daemon/src/round_trip_process.rs:813-875 | the first English and the returned audio are timed, in whole milliseconds, when they are reached |
| `ObserverHistory.OnsetIsFirst` | crates/translator-daemon/src/round_trip_process.rs:904-1051 | the times measured from are those of the first speech each way, on the way back once it was let in |
| `ObserverHistory.HeardUntilTold` | crates/translator-daemon/src/round_trip_process.rs:1005-1020 | the returned speech can be heard until its 20 ms frames, played one by one as they were noticed, are over |
| `ObserverHistory.FailsIff` | crates/translator-daemon/src/round_trip_process.rs:891-1051 | the test fails exactly when the speech watched ends without being completed |
| `ExactPcm.Evidence.Capture` | crates/translator-daemon/src/round_trip.rs:57-66 | counts, digest and flags always tell the frames taken and whether any was refused |
| `ExactPcm.Evidence.Prove` | crates/translator-daemon/src/round_trip.rs:79-103 | the proof is exact if and only if nothing was refused, something was captured, and the same frames were reinjected |
| `ExactPcm.FramingInjective` | crates/translator-daemon/src/round_trip.rs:105-125 | for any frames of one format, however numbered below 2^64: equal digests if and only if as many frames with the same numbers and audio |
| `EnglishTap.EnglishTapCollector.RecordEvents` | crates/translator-daemon/src/round_trip_process.rs:1080-1107 | the frames are kept in order and numbered on from what was there, from 0 over all calls |
| `EnglishTap.EnglishTapCollector.IsComplete` | crates/translator-daemon/src/round_trip_process.rs:1109-1125 | over every sequence of calls, complete if and only if twenty frames were drained after an end was seen and every segment that began has ended |
| `EnglishTap.RecordWriteReceipt` | crates/translator-daemon/src/round_trip_process.rs:546-563 | only a frame whose receipt echoes it counts as reinjected |
| `EnglishTap.WriteBack` | crates/translator-daemon/src/round_trip_process.rs:456-492 | frames numbered by the collector are never refused; success if and only if every receipt echoes its frame, and then the proof is exact |
| `EnglishTap.AttestsOnce` | crates/translator-daemon/src/round_trip.rs:79-103 | a proof identifies the frames it speaks of |
| `RoundTripRuns.CompletedReinjected` | crates/translator-daemon/src/round_trip_process.rs:456-509 | a completed test whose proof came from writing back the collected frames reinjected them: there were some and the writer echoed each |
| `Reframing.OpenAIRealtimeAdapter.MapAudioDelta` | sidecar/translator_sidecar/openai_provider.py:253-294 | what goes out is the frames of the whole stream not sent yet, numbered on; undecodable audio changes nothing |
| `Reframing.ChunkingDoesNotMatter` | sidecar/translator_sidecar/openai_provider.py:262-293 | two ways of cutting one byte stream give the same frames and the same rest, and nothing is lost |
| `Reframing.FramesAndRest` | sidecar/translator_sidecar/openai_provider.py:262-293 | frames and rest together are the stream |
| `Leases.ShutDownExactly` | sidecar/translator_sidecar/grpc_server.py:675-732 | over every run nobody is shut down twice, and before a stop a provider has been shut down exactly when it was replaced and nobody holds it |
| `Leases.StopShutsAll` | sidecar/translator_sidecar/grpc_server.py:734-751 | after a stop everyone ever installed has been shut down once |
| `Leases.LeasesAreHeld` | sidecar/translator_sidecar/grpc_server.py:675-710 | the book's counts are the loans of the history |

## Assumptions

- *Simulation.* Each event is delivered before the next request, at the same reading of the
  clock; frames come from the contract's stream. Only `EngineSatisfiesValidator` and
  `ForwardRefusedIff` ask that capture times do not decrease within an utterance. A session ends at its first raised call, as the
  transport ends the stream there. Against the coordinator, accepted audio is taken out of its
  buffer at once, as a direction session does, so there is always room; a poll's cancellations
  are sent in any order and each is answered, or raises, before the next call.
- *Playback.* The session's contract asks for the one format the daemon plays, as
  crates/translator-daemon/src/direction_session.rs:136-161 always does.
- *Crash safety.* A journal save is atomic; only the daemon makes modules with its mark; module
  numbers are not reused; the sound server lists the arguments a module was loaded with, joined
  by spaces. A failed command or save may or may not have taken effect, at that moment. The
  endpoints seen in an inspection are arbitrary.
- *Latency policy.* For `RecoversAtFifth` only: no utterance recorded after a change of mode is stamped
  before it.
- *Round trip.* One clock reading is used for all latencies noted in one drain.
- *Leases.* A replacement has never been installed before, unless it is the current provider.

## Left out

- Parsing of identifiers, schema versions and safe error texts: identifiers are compared for equality and arrive parsed.
- Which of several reasons a refusal names: stated for numbers of events and frames, late audio, preconditions and full buffers only; elsewhere the histories say whether a call is refused.
- The dictionary of several sessions in the engine: one session at a time, as no call touches two.
- Texts, model lists, queue figures and lag in health and debug events: only what the protocol checks is kept.
- `TranslationMode::Unspecified` in the validator's age table: the daemon's contracts never carry it.
- Disarming a whole session in the watchdog on its own: the program only does it as part of a session close.
- The order of a poll's cancel actions: the watchdog's map has no order, so the actions are a set; what is proved of sending them holds for every order.
- The virtual devices as objects: creating, rolling back and cleaning up are a machine of single effects, because a crash between two effects, and others' actions in between, cannot be said of one method's contract; reconciling and validating the journal are methods.
- The state reported to users about devices (health, endpoint list).
- SHA-256: a digest is the bytes it absorbs; frame counts are unbounded.
- Voice detection: the decision for each frame is an input.
- Debug text and preconditions' origin in the self-test, and waiting on its channels.
- Text deltas of the OpenAI adapter and base64: a piece of audio arrives decoded or as undecodable.
- Sockets, processes, routing, configuration, the user interface and the remaining crates.
