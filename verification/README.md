# A verified model of the WiiM/PC audio bridge

The bridge plays one Spotify source on a PC and on a WiiM group. Several processes, each of
which may die at any moment, steer an audio topology they do not fully own: PipeWire streams,
containers, OwnTone's outputs and player, a FIFO. This project models the parts that decide and
proves what they keep over whole runs.

## How it is organised

| files | what they model |
|---|---|
| `Findings` | which finding each check makes and which command each finding leads to |
| `Supervisor`, `SupervisorRuns` | the supervisor's step functions, and runs of it with crashes after any effect, restarts and failed status writes |
| `Streaks`, `RepairConditions`, `RepairBudgets`, `ChargedLists`, `ChargeHistory`, `ChargeMeaning`, `CallTimes`, `BudgetLimits`, `Settling`, `Escalation`, `Mutes`, `MuteExamples` | what holds of every such run, and runs that show which conditions are needed |
| `SupervisorObject` | the supervisor as the object it is, each method proved to take exactly the modelled steps |
| `OwnTone`, `Bridge` | OwnTone's outputs, lookups in them, and the shared world of OwnTone, durable mode and lock; every call may fail, a write may or may not take effect, and a selection may reset the levels of what it selects |
| `Reconciliation`, `Intent`, `Commands`, `IdleOutputs`, `RuntimeOutputs`, `IntentRuns`, `OutputRuns` | every locked section of the command line and of the supervisor, all their interleavings, and the supervisor's ticks among them |
| `PcmPlayback`, `IdleTiming` | resuming and pausing the player against arbitrary answers; the idle controller's clocks |
| `Relay`, `RelayRuns` | the PCM relay: buffer, flush, select loop, and what the answers make of every block |
| `TraceFraming`, `VolumeTracking`, `CatFile` | framing of trace reads, the volume debounce, the `git cat-file --batch` parser |
| `Prelude`, `Bytes` | `Option`, `Answer` (a value, or a raised exception), byte strings |

Exceptions are values: an `Answer` is `Got` or `Raised`, so failure paths are part of every
statement. Times are real numbers. The wall clock and the monotonic clock advance together and
every operation may take time: a tick may call its repair long after it read its clock, and
`restore` may read its second clock long after its first. A log lists a process's observations
and effects in order.

## Where the code differs from its documentation

* `README.md:281` says that the pipe is paused after five seconds without a source; the code
  waits 15 (`volume_handoff.py:47`). Exactly when it pauses and releases is
  `IdleTiming.ActsExactlyWhen`; that fewer than 15 seconds never do is
  `IdleTiming.FiveSecondsAreNotEnough`.
* "At most three such repairs per ten minutes. Budgets survive restarts" (`README.md:230-236`):
  attempts are charged with the time at which their tick began, and `restore` makes them look
  older by what passes between its two clock readings. Counting the calls of `Runtime.repair`, a
  window holds no more than the limit in every run exactly if it is no wider than 600 seconds
  less what restores may lose less what a call may come late, or than half of 600 seconds less
  the latter, since losing time takes as long (`BudgetLimits.BudgetIsExact`).
* "Restoring only a mute it applied itself" (`README.md:256-258`): a claim whose early write
  failed, or whose mute could not be issued, has muted nothing, and its end still unmutes the
  stream (`MuteExamples.UnusedClaimUnmutes`, `MuteExamples.FailedMuteUnmutes`). A call to unmute
  is for a mute of the supervisor's exactly if one was issued and not ended since
  (`Mutes.UnmutesItsOwnExactlyWhen`, `Mutes.UnmutesItsOwnInRuns`).
* "The mute claim survives a recreated desktop stream" (`README.md:259-260`): a claim that moved
  to a new index but could not be written is lost if the old index comes back
  (`MuteExamples.ReturningLosesTheMute`). Exactly when a step loses a mute is
  `Mutes.LosesExactlyWhen`; while no index comes back none is lost (`Mutes.NoMuteIsLost`).
* "Live source PCM vetoes a transient false-idle report" (`README.md:240-241`): a check that
  raises is no veto, and the idle clock runs on (`IdleTiming.FailedCheckKeepsTheClock`); a release
  rests on 45 seconds of source found inactive exactly if the observations reach back that far
  and no check in them failed (`IdleTiming.InactiveExactlyUnlessFailed`).
* "Idle playback disconnects the pair after 60 seconds" (`README.md:280`): a new process presumes
  that minute, so the first idle tick after a restart releases at once
  (`OutputRuns.RestartReleasesAtOnce`); and ticks that do not ask the idle controller (they end
  early, or find another mode, no PC sink, or a guarded WiiM source in use) leave its clock
  running, so a release can follow playback by less (`OutputRuns.UnaskedPlaybackCounts`). A whole
  minute of idle ticks lies behind a release exactly if the process has ticked that long and no
  playing tick since then was hindered so (`OutputRuns.IdleMinuteInTicks`).
* `reconcile_once` without `preserve_local` writes the levels before it selects and not after.
  If OwnTone resets a level on selection, it fails although every call succeeded; it succeeds
  exactly if the selection resets no level (`Reconciliation.ReconcileOnce`). The join that keeps
  the PC writes the WiiM level again and succeeds whatever is reset.
* "Real handoffs" (`volume_handoff.py:99`): when Soloist's trace is lost its activity is unknown
  again, and reconnecting can repeat a handoff with no end between
  (`VolumeTracking.ReconnectingRepeatsTheHandoff`); between two handoffs there is always an end or
  a lost trace (`VolumeTracking.HandoffsAndEndsAlternate`).
* Trace framing does not depend on how the stream is cut into reads if and only if every line
  is within the limit and the unterminated rest exceeds it by at most one byte
  (`TraceFraming.IndependentIffShort`).

## Model

| member | source | states |
|---|---|---|
| Findings.ObserveInfrastructure | bridge_supervisor.py:88-167 | the check's loops over containers and mounts find the first problem in the order missing, down, stale, unhealthy, and raise where a comparison raises |
| Findings.InfrastructureNamesOnlyTheFaulty | bridge_supervisor.py:115-166 | an infrastructure finding names services only on evidence against each of them, and none for an unavailable host |
| Findings.NoFaultIsPassedOver | bridge_supervisor.py:88-167 | exactly when the check reports an unavailable host, a missing, stopped or unhealthy container or stale mounts, and exactly when it reports nothing |
| Findings.ProducersAreWellMade | bridge_supervisor.py:291-394 | every finding that infrastructure, route checks and probe can produce names services exactly for infrastructure kinds and is never one of the non-fault kinds handed to repair |
| Findings.EveryFaultHasABranch | bridge_supervisor.py:665-698 | of such findings every one that is not a wait reaches a branch of repair that acts: neither refusal is reachable; Soloist is touched only if named; receiver and silence faults restart Shairport first, OwnTone and capture later; containers are recreated exactly for stale mounts |
| Findings.EachRouteMovesItsOwnStream | bridge_supervisor.py:291-394 | exactly when a route check finds its one stream astray, and that the fault then moves that stream and no other; what else it reports only waits |
| Findings.ProbeFindsExactly | bridge_supervisor.py:503-567 | exactly when the probe verifies, finds the player paused, the WiiM disconnected, the receiver misplaced or the PC silent, and which branch then acts |
| SupervisorSteps.Owned | bridge_supervisor.py:805-812 | the claimed stream is found exactly when a stream has its index |
| SupervisorRuns.DiskIsLastWritten | bridge_supervisor.py:1050-1058 | the file a restart reads is the last one a run's log shows being written, crashes included |
| SupervisorRuns.TickKept | bridge_supervisor.py:919-993 | any relation between state and log kept by guard, fault, change, quiet and calm is kept by a whole tick |
| SupervisorRuns.RoundKept | bridge_supervisor.py:1050-1058 | and by a round of main cut short after any effect: if the save fails the process is gone, if not the stronger relation holds again |
| Streaks.RepairsAreEvidenced | bridge_supervisor.py:853-877 | in every run a repair follows at least two uninterrupted observations of exactly its fault kind (one for a misrouted capture), and wait-only kinds never reach repair |
| RepairConditions.DeadlineIsTheLogs | bridge_supervisor.py:905-913 | in every run the settling deadline in memory is the one its log tells: of the last repair or output change, or of the last transport repair that the restore kept |
| RepairConditions.RepairedExactlyWhen | bridge_supervisor.py:851-993 | in every run a tick of a live process charges and repairs a fault exactly when it comes upon it, the kind is no wait, the log ends with enough uninterrupted observations of it, the time to settle that the log tells is over or a stream is astray, and the budget has room; it repairs if the charge could be written |
| RepairConditions.ProbesArePaced | bridge_supervisor.py:964-993 | when the next probe is due: after 15 seconds, or 5 while a paused player is not resumed, or 10 once a resume was tried |
| RepairConditions.InfrastructureIsLookedAtAgain | bridge_supervisor.py:916-935 | the containers are looked at once in 15 seconds, and again in the tick after any repair |
| RepairBudgets.PruningForgetsOnlyTheOld | bridge_supervisor.py:886 | pruning changes no count of attempts younger than 600 seconds |
| RepairBudgets.StampsAreNoOlder | bridge_supervisor.py:1015-1023 | the stamps written to the status file make no attempt look older |
| RepairBudgets.RestoringKeepsTheYoung | bridge_supervisor.py:755-773 | restoring loses no attempt younger than 600 seconds, and ages none by more than the reading delay |
| RepairBudgets.BudgetInvariant | bridge_supervisor.py:878-903 | at every point of every run the pruned lists, in memory and on disk, account for the full history of charges in their window, on a clock that counts the time lost in restores |
| ChargeHistory.ListedAreCharged | bridge_supervisor.py:731-1025 | in every run, crashes, restarts and failed writes anywhere: each attempt listed in memory, or on file at any time, is a charge of its own, whether or not its repair ran, older by no more than restores lost since, younger by no more than the saves that restores since then read took (and the save of the file itself) |
| ChargeMeaning.CountsNoMore | bridge_supervisor.py:878-895 | so no list counts more attempts from any time on than were charged |
| ChargeMeaning.StampsAreTheCharges | bridge_supervisor.py:1015-1023 | with no time lost in saves and restores, every attempt in memory and every stamp on file is the time of its charge, in every run |
| ChargeMeaning.RestartWaitsNoLonger | bridge_supervisor.py:771-773 | after a restart in any run no repair of the transport is waited for longer than 60 seconds from a charge, but for the time that saves took |
| SupervisorRuns.RoundRepairsOnce | bridge_supervisor.py:919-993 | a round calls repair at most once, for the tick that read the clock, and nothing else in it does |
| CallTimes.TimesAreOrdered | bridge_supervisor.py:1050-1058 | in every run each repair is called after its tick began and before the next tick does, and what restores lose between is time passed |
| CallTimes.RepairBudget | bridge_supervisor.py:878-903 | in every run, crashes and restarts included, repairs of a class beyond its limit (3 container or transport, 3 route, 6 PCM) stretch over 600 seconds less what restores between them lost, and over at least that loss |
| CallTimes.WindowBudget | bridge_supervisor.py:878-903 | no window of the safe width holds more calls of repair than the limit, whatever a run's restores lose and its calls come late within the bounds |
| BudgetLimits.WiderIsUnsafe | bridge_supervisor.py:731-773 | for every bound on loss and delay and every wider window, a run within all timing assumptions, main's sleep included, calls four route repairs in one |
| BudgetLimits.BudgetIsExact | bridge_supervisor.py:878-903 | a window is safe in all runs within the bounds if and only if it is no wider than the safe width |
| Settling.RepairsAreSpaced | bridge_supervisor.py:905-913 | after the call of a container or transport repair no non-route repair is called before 20 seconds, nor before 60 unless an output change or a route repair came between, less what the first call was late and what restores between lost; after a PCM resume none before 10 less the delay, within one process only |
| Settling.SettlingInvariant | bridge_supervisor.py:876-913 | in every run the settling deadline of a live process enforces the spacing of the ticks that repair, restarts included |
| Settling.LatestIsLatest | bridge_supervisor.py:771-773 | the restored settling deadline rests on the maximum of the restored attempts |
| Escalation.RecoveryIsScoped | bridge_supervisor.py:878-916 | in every run each repair is charged on disk just before it, acts, names Soloist only for a finding that does, and restarts OwnTone with capture exactly when an earlier transport repair since the last reset did not help |
| Escalation.ScopeInvariant | bridge_supervisor.py:903-905 | in every run the stage counts the transport repairs since the last reset, and every repair in the log was justified when made |
| Escalation.EscalationHasACause | bridge_supervisor.py:903-905 | an escalated stage has a witness: an earlier container or transport repair with no verified, idle, route or PCM event since |
| Mutes.MutesAreClaimed | bridge_supervisor.py:804-847 | in every run mute commands name exactly the stream claimed on disk, and as long as no stream was unmuted for another, the claim on disk names the stream of every outstanding mute, or the one it replaced |
| Mutes.RestartReclaims | bridge_supervisor.py:778-780 | a process that starts while a mute is outstanding starts with the claim that leads to that very mute |
| Mutes.NoMuteIsLost | bridge_supervisor.py:804-847 | in every run in which no index of a replaced stream comes back, every outstanding mute is claimed on disk |
| Mutes.LosesExactlyWhen | bridge_supervisor.py:804-838 | a guard step leaves a mute without its claim if and only if, before it, nothing conflicts, the claimed stream is there, unmuting it will do, and the mute of another stream is outstanding |
| MuteExamples.ReturningLosesTheMute | bridge_supervisor.py:813-838 | a run in which an index comes back and a mute is left without any claim |
| Mutes.UnmutesItsOwnExactlyWhen | bridge_supervisor.py:830-838 | a call to unmute names the claimed stream, and is for a mute of the supervisor's if and only if one was issued and not ended since |
| Mutes.UnmutesItsOwnInRuns | bridge_supervisor.py:830-838 | the same for every call in every run in which no index comes back |
| MuteExamples.FailedMuteUnmutes | bridge_supervisor.py:212-234 | a run in which the mute was never issued and the user's mute is undone |
| MuteExamples.UnusedClaimUnmutes | bridge_supervisor.py:830-847 | a run in which an unmute is commanded although no mute ever was |
| Mutes.ClaimsAreDeserved | bridge_supervisor.py:838-847 | a new claim is made only on a sole stream: unmuted and in conflict, or muted and replacing the vanished claimed one |
| Mutes.CallsExactlyWhen | bridge_supervisor.py:794-849 | from the streams, the conflict, the claim and the save alone: exactly when a guard step calls for a mute or an unmute, and of which stream; it calls once at most, last |
| Mutes.NoConflictIsHeard | bridge_supervisor.py:829-847 | in a conflict, if the mute works, one tick leaves the claimed stream, or else the sole one, claimed and muted, whatever faults end that tick |
| Mutes.NoStrandedMute | bridge_supervisor.py:813-838 | once no conflict remains and the unmute works, one tick clears the claim and leaves the stream unmuted, whatever route faults end that tick; the early write matters only where the claim moves |
| Mutes.ReleasedExactlyWhen | bridge_supervisor.py:813-838 | exactly when a guard step without a conflict lets go of a claim |
| Mutes.DoneIsSeen | bridge_supervisor.py:212-234 | a mute or unmute reported as done named the only stream with that index and was seen in effect afterwards |
| SupervisorObject.Supervisor.Restore | bridge_supervisor.py:731-787 | the object's fields after restore are those of the modelled restored state |
| SupervisorObject.Supervisor.Persist | bridge_supervisor.py:995-1025 | the state is unchanged and the file holds the claim and, for each attempt of each class, its time on the wall clock, later by no more than the save took (ChargeHistory.ListedAreCharged); or nothing was written and it raises |
| SupervisorObject.Supervisor.GuardDesktopAudio | bridge_supervisor.py:794-849 | claims, adoptions, mute commands and early writes happen in the modelled order, a mute or unmute exactly in the cases of Mutes.CallsExactlyWhen, and state, log and file agree with it also when a call raises |
| SupervisorObject.Supervisor.FaultFound | bridge_supervisor.py:851-917 | streak, budget, early write, repair and settling take the modelled step, raised or not |
| SupervisorObject.Supervisor.ChargeAttempt | bridge_supervisor.py:878-895 | only the list of the repair's own class is pruned, and it gains the attempt, which the log records, unless its limit is reached |
| SupervisorObject.Supervisor.ProbeIfDue | bridge_supervisor.py:964-993 | probing, its pacing and its verdicts take the modelled step |
| SupervisorObject.Supervisor.TickAt | bridge_supervisor.py:919-993 | a tick of the object is a tick of the model: same state, same effects in the same order, same exception |
| SupervisorObject.Serve | bridge_supervisor.py:1046-1067 | a process from its start to its end, by a failed write, a requested stop or a death within a round, leaves exactly the log and file of the run that the theorems are about |
| OwnTone.FindOutput | bridge.py:174-190 | a found output is in the list, has the name and type, and has an id |
| OwnTone.FindsTheUnique | bridge.py:174-190 | the lookup finds an output when it is the only one with its name and type and has an id |
| OwnTone.UniqueIfFound | bridge.py:174-190 | and only then |
| OwnTone.ResolvePair | bridge.py:197-204 | the pair has two distinct ids, or resolving raises |
| OwnTone.SelectedIds | bridge.py:319 | the set of ids is exactly that of the selected outputs |
| OwnTone.SelectedReadable | bridge.py:207-211 | reading the selection raises exactly if a selected output has no id |
| OwnTone.SelectionTakes | bridge.py:228-233 | after a selection took effect exactly the listed known ids are selected, whatever levels it reset |
| Bridge.World.SetMode | output_control.py:45-58 | a normal return means the mode is durable; a failure leaves the old or the new mode, nothing else |
| Bridge.World.SetVolume | bridge.py:236-241 | a level outside 0 to 100 is refused without a request |
| Bridge.World.SetOffset | bridge.py:244-249 | an offset outside -2000 to 2000 ms is refused without a request |
| Reconciliation.RejoinWiim | bridge.py:321-349 | the PC stays selected at its level in every intermediate state, no write sets its level, success means the configured state was read back, and without failures it succeeds although selecting reset the WiiM level |
| Reconciliation.RejoinSucceeds | bridge.py:336-349 | the second level write repairs any reset that the selection made |
| Reconciliation.FullReconcile | bridge.py:351-377 | success means that exactly the pair (or nothing) is selected at configured levels; without failures it succeeds if and only if the selection resets no level away from its configuration |
| Reconciliation.FullOutcome | bridge.py:351-377 | what the verification pass finds after all writes took effect, as an if-and-only-if over what the selection resets |
| Reconciliation.ReconcileOnce | bridge.py:312-377 | whichever call fails: only pair members are ever selected, the mode is untouched, with preserve_local a connected PC never drops and keeps its level, and a normal return has read the topology back |
| PcmPlayback.ThePipeIsUnique | bridge.py:470-487 | play or pause goes ahead exactly if one queue entry is the current item and it is the bridge's pipe |
| PcmPlayback.Player.Resume | bridge.py:416-496 | against any answers at most one write: play only right after a queue whose unique current item is the pipe, add only after an empty queue and exactly one matching track; and, from the answers alone, exactly when it plays, when it adds, and when it ends with true (a poll sees the player play in time), with false or with an error |
| PcmPlayback.Player.Install | bridge.py:426-463 | the same for the part that adds the pipe to an empty queue: it is added exactly if the library holds it once, and true needs it read back as the whole queue before a poll sees the player play |
| PcmPlayback.Player.PausePcm | bridge.py:499-530 | against any answers at most one write, a pause right after a playing player and a queue whose unique current item is the pipe; and, from the answers alone, exactly when it pauses and when it ends with true, with false or with an error |
| IdleTiming.IdleClock | volume_handoff.py:186-190 | a running idle clock means every observation since its start was idle, with no PCM veto once 15 seconds had passed |
| IdleTiming.ActsOnlyWhenIdle | volume_handoff.py:235-262 | a pause implies 15 seconds of continuous idleness with source PCM inactive, a release 60 |
| IdleTiming.ReleaseNeedsAnIdleMinute | volume_handoff.py:235-262 | at a release every observation of the last 60 seconds was idle and no check in the last 45 found source PCM active; a whole minute of idle observations lies behind it if and only if there are observations that old, and otherwise the rest was presumed at construction |
| IdleTiming.ActsExactlyWhen | volume_handoff.py:231-263 | over every history: an observation pauses, and releases, if and only if 15, and 60, seconds of idleness lie behind it, no check speaks against it now, and a pause is not in force or did not fail |
| IdleTiming.FiveSecondsAreNotEnough | volume_handoff.py:252 | fewer than 15 idle seconds pause and release nothing; 15 with the source found inactive pause the pipe unless it is paused |
| IdleTiming.ClockIsIdleSince | volume_handoff.py:186-190 | the idle clock is the start of the idle stretch at the end of the history |
| IdleTiming.PausedIsPipeIsPaused | volume_handoff.py:212-213 | the pipe counts as paused exactly since a pause that went through, until an attempt does |
| IdleTiming.FailedCheckKeepsTheClock | volume_handoff.py:241-251 | a history in which a PCM check fails and the release follows all the same |
| IdleTiming.InactiveExactlyUnlessFailed | volume_handoff.py:241-251 | with a check at every observation, a release rests on 45 seconds of source found inactive if and only if the observations reach back that far and none of the checks failed |
| IdleTiming.FailuresBackOff | volume_handoff.py:216-232 | in every history the retry delay lies in 5 to 60 seconds, and any n retries of a failing stretch take at least the first n delays, in closed form at least 60n - 165 seconds |
| IdleTiming.TotalDelayClosed | volume_handoff.py:230-231 | the closed form of the summed delays min(60, 5 times 2 to the i) |
| IdleTiming.NoEarlyRetry | volume_handoff.py:189-190 | no attempt of any kind is made before the last failure's delay is over |
| IdleTiming.ResumeIsNeverForgotten | volume_handoff.py:193-218 | in every history of faithful attempts, between owing a resume and not owing it an attempt ran resume_pcm_playback to its normal end |
| Intent.ReconnectPair | volume_handoff.py:192-218 | selections only in auto and only if nothing unrelated is selected; a connected PC never drops; done means the pair was connected or was read back after the join, and a resume ran if one was due; and without failures, exactly when it is done |
| Intent.ReleaseOutputs | volume_handoff.py:157-178 | released means nothing is selected; an unrelated selection or another mode leaves everything alone; without failures a selected pair is released |
| Intent.PauseWhenIdle | volume_handoff.py:252-260 | the player is paused only in auto, under the rules of the pause, and exactly if these answers let a pause through; no output changes |
| Intent.EnsurePcPlayback | bridge_supervisor.py:413-455 | acts only in auto and without unrelated selections, never drops the PC, true means the PC is connected, and without failures the PC ends connected at its configured levels and the result is that of the resume |
| Intent.CheckFallback | bridge_supervisor.py:417-435 | the fallback goes ahead exactly if the local output is unique, the WiiM is not ambiguous and only members of the pair are selected |
| Intent.PairWritesPermitted | bridge.py:312-377 | the writes of a join in auto are permitted selections and leave the mode in force |
| Commands.Stop | bridge.py:291-295 | the stop is recorded before OwnTone is asked, so a failing selection still leaves `stopped`; without failures nothing is selected |
| Commands.SelectLocal | bridge.py:266-272 | nothing changes unless the local output is found; then the intent is recorded first and the local output alone is selected |
| Commands.SelectAll | bridge.py:275-288 | unconfirmed it makes no call; otherwise the pair is selected first and only then does the mode become auto |
| Commands.ReconcileRound | bridge.py:389-397 | with respect_manual an explicit choice is left alone; the mode becomes auto only after the topology was read back; without failures it succeeds exactly if the selection resets no level |
| IdleOutputs.IdleOutputController.Observe | volume_handoff.py:180-263 | one observation takes the step whose timing is proved, with outcomes of the real sections; outputs change only in auto without unrelated selections, and while playing the PC never drops |
| IdleOutputs.IdleOutputController.ObserveIdle | volume_handoff.py:231-263 | the idle half, pause and release included, takes the modelled step whichever call raises |
| RuntimeOutputs.HoldSelection | bridge_supervisor.py:486-501 | under local or stopped it writes only if the mode is still that one and the selection is lost, then exactly the held selection; one step without failures restores it, and then raises only for a resume that does |
| RuntimeOutputs.ReconcileAutomatic | bridge_supervisor.py:464-484 | whichever call fails, a connected PC stays connected in every intermediate state including the fallback; unrelated selections are untouched; the controller takes its modelled step; an error while playing with the PC sink present is followed by the fallback, the last section to take the lock, which leaves the PC connected at its configured levels if nothing fails from its first call on and it applies |
| RuntimeOutputs.Reconcile | bridge_supervisor.py:464-501 | the same over all modes, the fallback included; in manual nothing at all is sent, and the idle controller is asked exactly in auto unless playback meets a missing PC sink or a guard that raises |
| RuntimeOutputs.RepairPcm | bridge_supervisor.py:570-581 | a PCM repair touches the player only in auto or local, under the rules of the resume, and exactly when the lock, the mode and playback let it, with the result those answers decide |
| RuntimeOutputs.RejoinSession | bridge_supervisor.py:650-660 | the WiiM is rejoined only in auto, the PC never drops, success was read back, and without failures exactly when it succeeds |
| RuntimeOutputs.RepairSession | bridge_supervisor.py:650-664 | the same; an error is followed by the fallback, which delivers as above |
| IntentRuns.Play | bridge_supervisor.py:413-501 | every locked section keeps all requests of the supervisor permitted, no section of the supervisor changes the mode, and the player is called only by the supervisor in auto or local |
| IntentRuns.Run | output_control.py:61-87 | in every interleaving of command line and supervisor, each selection, level and offset of the supervisor obeys the mode in force: members of the pair in auto, exactly the local output selected in local, nothing in stopped, no request in manual; and the player is called only in auto and local |
| IntentRuns.HeldUntilChanged | bridge.py:291-295 | after the mode became manual, and until it is changed again, the supervisor requests nothing; after stopped only empty selections; after local only selections of the local output |
| IntentRuns.ChoiceIsCompleted | bridge_supervisor.py:486-501 | a stop or local choice whose own selection failed is completed by the first step of that mode without failures, whatever the supervisor did between |
| OutputRuns.Drive | bridge_supervisor.py:80-86 | over any ticks from the construction of Runtime on, with anything of the command line and OwnTone's interface between them, the controller goes through exactly the history it observed, its attempts are faithful, the owed resume is never forgotten, and every request is permitted |
| OutputRuns.IdleMinuteInTicks | bridge_supervisor.py:464-485 | at a release every playing tick of the last minute was hindered from asking; a whole minute of idle ticks lies behind it if and only if the process has ticked that long and no playing tick since was hindered |
| OutputRuns.RestartReleasesAtOnce | bridge_supervisor.py:83-86 | a new process releases in its first idle tick, five seconds after the last one had connected active playback |
| OutputRuns.UnaskedPlaybackCounts | bridge_supervisor.py:464-486 | playback under another mode is followed by a release half a minute later |
| Relay.PCMBuffer.Append | capture_relay.py:42-51 | a block of another size is refused; a full buffer of 512 blocks is emptied and keeps only the new block |
| Relay.PCMBuffer.Pop | capture_relay.py:53-55 | the oldest block leaves |
| Relay.FlushFifo | capture_relay.py:58-86 | a prefix of the buffer is written whole and in order; the rest stays, or is dropped exactly when nobody reads or the pipe broke; no descriptor means an empty buffer; a descriptor opened by a flush that raises is lost |
| Relay.CutBlocks | capture_relay.py:140-142 | what was read is cut into 1024-byte blocks without loss, under 1024 bytes remain pending, every overrun is accounted, as the repeated cutting of one block |
| Relay.HandleRound | capture_relay.py:130-148 | handling one answer of select keeps buffer, descriptor and registration in agreement, unregisters only what is registered, and leads where the answers lead |
| Relay.Run | capture_relay.py:122-164 | for every sequence of reads, openings and writes the outcome is sound (order, freshness, alignment, conservation) and is the one that these answers make of the stream (RelayRuns), exit included; at every call of select an open FIFO is watched exactly while blocks are buffered and no other descriptor is |
| RelayRuns.FatesAreCaused | capture_relay.py:58-86 | in every run each block got its fate at one event that explains it: dropped unread only where the opening found no reader, dropped with the pipe only where a write broke, delivered by a write that took it whole, overrun by a read that did not fit |
| RelayRuns.BufferedBehindABlock | capture_relay.py:72-79 | while the loop runs, the buffer is what a flush left behind a write that would have blocked |
| RelayRuns.AllIsDelivered | capture_relay.py:122-148 | if every opening finds a reader and every write takes its block, every block cut is sent and none is dropped or overrun, and only the capture ends the loop |
| Relay.DeliveredInOrder | capture_relay.py:72-86 | the delivered stream is an in-order subsequence of whole input blocks, at multiples of 1024, each among the 512 newest when it was written |
| Relay.BufferIsSuffix | capture_relay.py:133-145 | the buffer is the contiguous newest part of the input, at most 512 blocks, followed only by the pending bytes |
| Relay.Conservation | capture_relay.py:42-55 | every input byte is delivered, dropped, buffered or pending, and each overrun drops exactly 512 blocks |
| TraceFraming.TraceBuffer.Complete | volume_handoff.py:81-94 | the emitted lines and the pending bytes are those of splitting pending plus data at once; pending has no newline and is within the limit, as is every line |
| TraceFraming.Monitor | volume_handoff.py:470-489 | successive reads emit the lines of the chunked stream |
| TraceFraming.ShortIsIndependent | volume_handoff.py:81-94 | for streams with short runs any cutting into reads gives the lines and rest of splitting the whole stream at once |
| TraceFraming.IndependentIffShort | volume_handoff.py:81-94 | and for no other stream: it holds for all cuttings if and only if every run is short |
| VolumeTracking.Announcements | volume_handoff.py:106-112 | over every history from any state a handoff is announced exactly where activity rises with a volume known, carries the volume that the samples so far made the saved one, an end exactly where activity falls, and nothing on the first report of a connection |
| VolumeTracking.HandoffsAndEndsAlternate | volume_handoff.py:106-112 | within a connection handoffs and ends alternate; over a whole life two handoffs have an end or a lost trace between them |
| VolumeTracking.ReconnectingRepeatsTheHandoff | volume_handoff.py:553-555 | a lost trace between two handoffs, and no end |
| VolumeTracking.Monitor | volume_handoff.py:538-556 | the tracker's life over any number of connections announces exactly these changes |
| VolumeTracking.VolumeTracker.ObserveSourceVolume | volume_handoff.py:114-132 | one sample takes the step whose history is characterised |
| VolumeTracking.RejectedIsIgnored | volume_handoff.py:115-116 | a sample outside 0 to 100 raises and changes nothing |
| VolumeTracking.Debounce | volume_handoff.py:117-132 | over full histories: a sample is saved if and only if none is known, or it differs from the saved one and every sample of at least the last 0.6 seconds equals it |
| VolumeTracking.SavedWasStable | volume_handoff.py:127-132 | when the saved volume changes, nothing else was sampled for 0.6 seconds |
| VolumeTracking.StableIsSaved | volume_handoff.py:127-132 | a volume sampled alone for 0.6 seconds is the saved one |
| CatFile.BlobContents | scripts/check-secrets.py:76-101 | the loop over offsets always advances and yields what parsing the stream record by record yields |
| CatFile.OneRecord | scripts/check-secrets.py:89-100 | a printed record is read as itself whatever follows, and a missing object leaves no trace |
| CatFile.RoundTrip | scripts/check-secrets.py:87-101 | the parser undoes the printer for every list of records and any contents, also those that look like headers |
| CatFile.MeaningIs | scripts/check-secrets.py:98 | exactly the printed objects are read, each with the content printed last for it |

## Left out

- Detail and log texts, counters for reports, `updated_at`, `was_playing` and `active_seconds`: no decision reads them.
- The source process identity and its interruption count: reported only.
- A malformed status file or policy file: `restore` reads an intact or absent one; an unreadable mode is an answer that raises.
- docker, pactl, pw-dump, HTTP and the WiiM API: their answers are arbitrary inputs; the WiiM group check and the source guard are one answer each.
- `desktop_spotify_in_bridge` and its move of the desktop stream: its answer is an input of the guard.
- The re-checks inside the three stream-moving repairs: a move touches one stream and no container, and its result is arbitrary.
- The two-second retry loop around one round of the command `reconcile`: any number of rounds may occur in a run.
- Commands.ReconcileRound: without preserve_local the full path replaces unrelated selections, so it does not state that those stay.
- ChargeHistory.ListedAreCharged: one bound on the duration of a save holds for all saves of a run; each restart since a charge may add it once.
- IntentRuns.Run: changes in OwnTone's own interface happen between locked sections only, not between two reads of one section.
- Reconciliation.ReconcileOnce: the read-back compares with the state at the time of reading; that OwnTone keeps it afterwards is not claimed.
- PcmPlayback.Player.AwaitPlay: the polling deadline is a bound on polls chosen by the environment; a negative sleep counts as a raised error.
- `set-volume` and `set-offset` of the command line write levels without the lock (`bridge.py:298-309`), so sections are not atomic for levels; they are no part of a run.
- Mutual exclusion itself: that `flock` excludes other processes is the operating system's promise; locked sections run one after another.
- Mutes.UnmutesItsOwnExactlyWhen: what the user does to a stream's mute between two looks is not seen by the program; a mute issued counts until an unmute is done or the stream is lost.
- Relay.Run: it covers every finite number of select answers until a stop request; the rate-limited overrun message and the parec process are left out.
- Relay.FlushFifo: what the kernel's pipe holds after a successful write is outside.
- TraceFraming.TraceBuffer.Complete: lines are byte strings; decoding them and reading JSON is left out.
- VolumeTracking: MPRIS reading, saving the volume file and setting Soloist's volume.
- CatFile.BlobContents: `int()` also accepts a negative size, which git never prints and which can send the loop backwards; the model raises on it.
- `doctor.py`, `audio_flow_check.check_flow`, `startup_reconcile.py`, `idle_keepalive.py`, configuration loading and rendering, `recycle_local_receiver`, `restore_output_snapshot`: reporting, set-up or not called by the running services.
