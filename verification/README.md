# A verified model of the accountability game's backend, agents and caches

The system schedules focus *rounds*, records what happens to them in an append-only event log,
collects telemetry from a desktop agent and a phone, scores it, and talks to the player. This project
models the parts of it that carry state or arithmetic and proves what holds of them over every run.

- `Schema`, `StateMachine`, `RoundLifecycle`, `RoundsService`: the tables, the transition table, what each
  lifecycle call does, and the service methods, proved against those effects.
- `TelemetryIngest`, `EventProcessor`, `Consequences`, `Scoring`: the other backend services.
- `Backend`: all of these as one system. Any calls, each run to completion, in any order, over any number
  of users, missions and rounds.
- `FinaliserRace`: concurrent finalisers of one round, interleaved at every await.
- `DesktopMetrics`, `WindowCollector`, `DesktopAgent`, `AgentRuntime`, `UploadQueue`: the desktop pipeline from
  focus polling to upload. The classes keep a ghost trace of their actions, and their fields are proved to be
  those of the state that the trace leads to, so every theorem about runs is a theorem about them.
- `MobileQueue`: the phone's queue, its drain protocol split at its awaits.
- `JsonText`, `CanonicalKey`, `JsonParser`, `CacheKey`: the canonical serialiser and exactly what its keys tell apart.
- `HourRange`: the hour-range printer.
- `Options`, `Counting`, `Powers`: shared definitions.

Backend service methods are stated as `db.State() == <effect>(old(db.State()), ...)`; the effects are functions
on a value of all tables, and the theorems are about those functions; what an effect does is besides written out in
full, without its helper functions, in a lemma next to it. Times are integers in milliseconds;
fresh ids, clocks, network answers and statement failures are parameters or free choices. Durations, scores
and minutes are exact reals.

## What the proofs show about the code

Where the code falls short of what it or its comments promise, the exact condition under which it does is proved for
all inputs.

- `startRound` lets a paused round past its guard and then always fails on the transition, because only MONITORING
  accepts `round.started` (`RoundLifecycle.Acceptance`).
- `escalateToCritical` keeps status and state in agreement exactly when its trigger is not `round.completed`,
  `round.failed` or `round.abandoned` (`Backend.EscalationExact`). Its type admits all of them.
- A finalised round is final but for its stats and its failure reason, which `PATCH` still replaces; the reason
  it ends up with is the last one patched in (`Backend.FinalForGood`).
- The finalisers exclude one another, but a pause in flight breaks that: it writes back a stale row and a second
  finaliser is logged and counted (`FinaliserRace.PauseBreaksIt`). It can happen if and only if the round starts out
  active, a pause is among the calls, and two finalisers would each be let through (`FinaliserRace.TwoFinalsExactly`).
- No ingested row is a productive app switch, so scoring's count of productive app events, and with it the column of
  every stored record, is always zero (`Backend.ProductiveAppsNeverCounted`).
- One ingest call can store a key twice (`TelemetryIngest.OneCallMayRepeatAKey`). It does so if and only if a key that
  is not yet stored occurs twice among its candidates (`TelemetryIngest.OneCallDistinct`).
- The phone's retry comment promises a delay after each attempt; the code measures from the row's creation and starts
  lower, so a row can be retried at once (`MobileQueue.PromiseBroken`). The promise is kept only for a row last tried in
  the millisecond of its creation with its backoff at the cap (`MobileQueue.PromiseExact`).
- A post that the server accepts but whose answer comes too late is sent again (`MobileQueue.AcceptedTwice`). A row's
  status tells how often the server accepted it if and only if no acceptance went unseen (`MobileQueue.OnceExactly`).
- The desktop uploader's comment lists five waits; with five posts there are four, fifteen seconds in all
  (`UploadQueue.Waits`), and a 401 uses up one of the posts.
- Two looks at a round raise the same anomaly flags whatever its telemetry if and only if its duration is the same for
  both: it has ended, the clocks agree, or neither is past its first minute (`Scoring.FlagsExact`).
- Of an idle period that began before a window, the window loses the time up to its own first idle event; its minutes
  are the stream's if and only if the stream came in not idle or that event stands at the very start
  (`DesktopMetrics.IdleCutOff`).
- A cache key does not show everything: NaN and the infinities are like null, and an array of one undefined element is
  like an empty one (`CacheKey.DifferentValuesCollide`). Two keys agree if and only if what they show is alike
  (`CacheKey.CanonicalKeyExact`), and an object's key is free of insertion order if and only if the collation tells the
  keys of its defined entries apart (`CacheKey.OrderFreeExactly`).
- Lists of hours print alike if and only if their ranges correspond with ends at the same places on the dial
  (`HourRange.TextExact`); off the dial that is not the same as being permutations (`HourRange.OffTheDial`).

## Model

| member | source | states |
|---|---|---|
| StateMachine.ResolveIsNext | packages/backend/src/modules/rounds/round-state-machine.service.ts:53-123 | first match in the transition table equals the diagram for every state and trigger; no rule is shadowed or missing |
| StateMachine.DesignCommentIsDiagram | packages/backend/src/modules/rounds/round-state-machine.service.ts:16-23 | the states reachable in one transition are exactly those the design comment lists |
| RoundLifecycle.Acceptance | packages/backend/src/modules/rounds/rounds.service.ts:182-370 | on a consistent round each call is accepted if and only if the status is in its list |
| RoundLifecycle.Destination | packages/backend/src/modules/rounds/rounds.service.ts:182-370 | what each accepted call does to a consistent round, in full: the row it leaves with every other column kept, the reason given or "abandoned", and the events it logs, the transition first; starting a running round again does nothing |
| RoundLifecycle.PatchExact | packages/backend/src/modules/rounds/rounds.service.ts:376-393 | a patch needs the owner and, if it names a status, the round's own; then the reason becomes the one sent, null included, and nothing else changes; each refusal has its error and changes nothing |
| RoundLifecycle.EffectKeepsTold | packages/backend/src/modules/rounds/rounds.service.ts:182-370 | an accepted call's events extend the round's history so that it still tells the stored row: replay, chain, language, columns |
| RoundLifecycle.SpelledIsPrefix | packages/backend/src/modules/rounds/rounds.service.ts:110-370 | what a status spells is a prefix of scheduled, then abandoned or a started round's sessions and closing event |
| RoundLifecycle.PrefixIsSpelled | packages/backend/src/modules/rounds/rounds.service.ts:110-370 | every non-empty prefix of such a life goes with some status |
| RoundLifecycle.ChainEndsInState | packages/backend/src/modules/rounds/rounds.service.ts:461-478 | the last logged transition ends in the replayed state |
| RoundsService.Service.TransitionState | packages/backend/src/modules/rounds/round-state-machine.service.ts:128-172 | saves the diagram's target, or for admin.force the given one, or throws and saves nothing when the round is missing, the trigger does not fit or a forced target is not given |
| RoundsService.TransitionMeans | packages/backend/src/modules/rounds/round-state-machine.service.ts:128-172 | a transition saves exactly the diagram's or the forced state and answers with both states; without a round or a move it throws its error and saves nothing |
| RoundsService.Service.CreateRound | packages/backend/src/modules/rounds/rounds.service.ts:110-180 | rows, counter, log and result are those of the creation effect, each rejection included, which `Backend.CreationExact` states in full |
| RoundsService.Service.StartRound | packages/backend/src/modules/rounds/rounds.service.ts:182-219 | the same for starting |
| RoundsService.Service.PauseRound | packages/backend/src/modules/rounds/rounds.service.ts:221-237 | the same for pausing |
| RoundsService.Service.ResumeRound | packages/backend/src/modules/rounds/rounds.service.ts:239-265 | the same for resuming, in and outside CRITICAL |
| RoundsService.Service.CompleteRound | packages/backend/src/modules/rounds/rounds.service.ts:267-302 | the same for completing, with the mission counter |
| RoundsService.Service.AbandonRound | packages/backend/src/modules/rounds/rounds.service.ts:304-338 | the same for abandoning, with the default reason |
| RoundsService.Service.FailRound | packages/backend/src/modules/rounds/rounds.service.ts:340-370 | the same for failing |
| RoundsService.Service.UpdateRound | packages/backend/src/modules/rounds/rounds.service.ts:376-393 | row and result are those of patching: the reason is replaced in any status, a different status is refused |
| RoundsService.Service.EscalateToCritical | packages/backend/src/modules/rounds/rounds.service.ts:427-443 | the same for escalation, silent on missing and non-OPERATIONAL rounds |
| RoundsService.Service.EmitStateTransition | packages/backend/src/modules/rounds/rounds.service.ts:461-478 | logs a transition exactly when the state changed |
| Schema.SliceStamped | packages/backend/src/modules/events/events.service.ts:41-71 | emitting appends to the slice of the event's round and to no other round's |
| Schema.SliceMark | packages/backend/src/modules/events/events.service.ts:73-78 | marking an event processed changes no round's slice |
| Backend.ReplayRebuilds | packages/backend/src/modules/rounds/rounds.service.ts:110-443 | after any run, folding a round's slice of the log rebuilds its stored status and state, and its transitions form an unbroken chain from DORMANT to the stored state |
| Backend.LifecycleLanguage | packages/backend/src/modules/rounds/rounds.service.ts:182-370 | after any run, each round's lifecycle events form a prefix of a life, and status, state, start and end agree |
| Backend.RejectedChangesNothing | packages/backend/src/modules/rounds/rounds.service.ts:182-370 | after any run a call that throws changes no table; it is accepted if and only if owner and status fit, and the error tells a missing or foreign round from an unfit status |
| Backend.AcceptedCall | packages/backend/src/modules/rounds/rounds.service.ts:182-370 | after any run an accepted call changes its own row, adds its events to the log with owner, round and time, unprocessed, and counts for the mission exactly when it completes; nothing else changes |
| Backend.CreationExact | packages/backend/src/modules/rounds/rounds.service.ts:110-180 | a creation succeeds if and only if both dates parse, the end is after the start, and the mission is the caller's and draft or active; each refusal has its error and changes nothing; otherwise row, mission counter and both logged events are written out |
| Backend.PlanFromCreation | packages/backend/src/modules/rounds/rounds.service.ts:110-180 | after any run a round is stored if and only if some request scheduled it; it still has the owner, mission, pressure and period asked for, and the period ends after it starts |
| Backend.FinalForGood | packages/backend/src/modules/rounds/rounds.service.ts:267-393 | once finalised, a round's row keeps everything but its stats and failure reason through any further run, and the reason is the one last patched in, or the same if none was |
| Backend.TimesWrittenOnce | packages/backend/src/modules/rounds/rounds.service.ts:197-351 | start and end times are written once, by the call that starts or finalises the round |
| Backend.EscalationExact | packages/backend/src/modules/rounds/rounds.service.ts:427-443 | escalation keeps the round in agreement with its history if and only if the trigger does not finalise |
| Backend.EscalationMeans | packages/backend/src/modules/rounds/rounds.service.ts:427-443 | escalation by a time warning or by violations makes an OPERATIONAL round CRITICAL and logs it for the owner; other triggers that do not finalise are refused, other rounds left alone in silence |
| Backend.MissionCounters | packages/backend/src/modules/rounds/rounds.service.ts:175-288 | after any run a mission's counters are the numbers of its rounds and of its completed rounds |
| Backend.ViolationsCounted | packages/backend/src/modules/events/event-processor.worker.ts:110-144 | after any run a round's violation count is the number of its processed distraction events, and of its inserted distraction rows once all are processed |
| Backend.EscalatesFromTheSecond | packages/backend/src/modules/events/event-processor.worker.ts:110-144 | after any run, processing an event calls for escalation if and only if it is an unprocessed distraction of a stored OPERATIONAL round of which one has been processed before |
| Backend.ReputationFromLog | packages/backend/src/modules/consequences/consequences.service.ts:126-148 | after any run a score is the saturating fold of the user's logged deltas, equals the closed form, is never negative and never below the plain sum |
| Backend.ConsequencesInLog | packages/backend/src/modules/consequences/consequences.service.ts:106-151 | after any run the consequence rows and the log's consequence events are the same, in order, and a score is the saturating fold of the user's stored consequences |
| Backend.NoKeyInsertedTwice | packages/backend/src/modules/telemetry/telemetry.service.ts:161-203 | no (device, time, type) key is inserted by two different calls of a run |
| Backend.ProductiveAppsNeverCounted | packages/backend/src/modules/telemetry/telemetry.service.ts:130-134 | on stored telemetry scoring counts no productive app event, and no stored record does |
| FinaliserRace.AtMostOneWinner | packages/backend/src/modules/rounds/rounds.service.ts:267-370 | unless a pause can get in, in any interleaving of any number of calls at most one passes its transition, at most one final event is logged, the counter rises at most once |
| FinaliserRace.AllDone | packages/backend/src/modules/rounds/rounds.service.ts:267-370 | unless a pause can get in, when all calls are done, round, log and counter are those of one call of the lifecycle run as a whole and all others were refused, if the starting round accepts some call; otherwise nothing has changed |
| FinaliserRace.PauseBreaksIt | packages/backend/src/modules/rounds/rounds.service.ts:221-370 | from any active row, a pause and two admissible finalisers have a schedule after which both are logged and counted in full, while the row tells of the second alone |
| FinaliserRace.TwoFinalsExactly | packages/backend/src/modules/rounds/rounds.service.ts:221-370 | some schedule logs two closing events if and only if the round is active, a call is a pause and the lifecycle would accept two of the finalisers |
| FinaliserRace.AloneIsTheCall | packages/backend/src/modules/rounds/rounds.service.ts:221-370 | a call whose steps nothing interrupts does to round, log and counter what the lifecycle says of the whole call, or is refused when that is |
| EventProcessor.ProcessTwiceIsOnce | packages/backend/src/modules/events/event-processor.worker.ts:45-71 | processing an event again changes nothing and signals nothing |
| EventProcessor.ProcessMeans | packages/backend/src/modules/events/event-processor.worker.ts:45-144 | processing marks the event, adds one to both counters of a distraction's round and changes nothing else |
| EventProcessor.SignalsMean | packages/backend/src/modules/events/event-processor.worker.ts:73-157 | which work, state and snapshot signals go out for which event, the escalation from the second violation on |
| EventProcessor.MarkCounts | packages/backend/src/modules/events/event-processor.worker.ts:65 | marking adds one processed distraction exactly for the round of an unprocessed distraction |
| EventProcessor.FanOutDistractions | packages/backend/src/modules/telemetry/telemetry.service.ts:206-222 | inserted distraction rows and logged distraction events correspond round by round |
| EventProcessor.FanOutUnprocessed | packages/backend/src/modules/telemetry/telemetry.service.ts:206-222 | no logged distraction event starts out processed |
| EventProcessor.EventProcessorWorker.ProcessEvent | packages/backend/src/modules/events/event-processor.worker.ts:45-88 | tables and outgoing signals, the cached state and the snapshot call included, are those of processing, with missing and processed events short-circuited |
| EventProcessor.EventProcessorWorker.HandleDistraction | packages/backend/src/modules/events/event-processor.worker.ts:110-144 | counts the violation and signals escalation at the threshold on an OPERATIONAL round |
| TelemetryIngest.ErrorsMean | packages/backend/src/modules/telemetry/telemetry.service.ts:102-155 | an error is reported if and only if a batch without valid bounds begins at its index or the event at its index is undated, more than 604800000 ms old or more than 60000 ms ahead, as its reason says |
| TelemetryIngest.CandidatesMean | packages/backend/src/modules/telemetry/telemetry.service.ts:102-155 | a row is a candidate if and only if it says what an acceptable event of a batch with valid bounds says, for the user and device, and whether its type counts as productive |
| TelemetryIngest.CandidatesInOrder | packages/backend/src/modules/telemetry/telemetry.service.ts:100-153 | candidates stand in the order of their batches |
| TelemetryIngest.RowsInOrder | packages/backend/src/modules/telemetry/telemetry.service.ts:109-153 | and within a batch in the order of its events |
| TelemetryIngest.ErrorsInOrder | packages/backend/src/modules/telemetry/telemetry.service.ts:100-153 | errors are listed by ascending index |
| TelemetryIngest.FlattenAt | packages/backend/src/modules/telemetry/telemetry.service.ts:100-153 | event k of a batch stands at the batch's offset plus k in the flattened list |
| TelemetryIngest.IngestAccounting | packages/backend/src/modules/telemetry/telemetry.service.ts:92-241 | accepted plus rejected is the number of events in batches with valid bounds plus the number of other batches |
| TelemetryIngest.DedupRefinesFullLookup | packages/backend/src/modules/telemetry/telemetry.service.ts:169-191 | the narrowed lookup drops exactly the candidates a full-table lookup would |
| TelemetryIngest.InsertedKeys | packages/backend/src/modules/telemetry/telemetry.service.ts:186-203 | the inserted keys are the candidates' keys that were not stored |
| TelemetryIngest.InsertedMeans | packages/backend/src/modules/telemetry/telemetry.service.ts:161-203 | a row is inserted if and only if an acceptable event gives it and no stored row has its device, time and type |
| TelemetryIngest.IngestMeans | packages/backend/src/modules/telemetry/telemetry.service.ts:157-242 | only telemetry and log grow, by the inserted rows and their events; accepted is their number and rejected everything else, duplicates included |
| TelemetryIngest.FanOutMeans | packages/backend/src/modules/telemetry/telemetry.service.ts:30-42 | each inserted row but IDE activity and tab changes logs one event, in order, with its user, round, type and time |
| TelemetryIngest.OneCallDistinct | packages/backend/src/modules/telemetry/telemetry.service.ts:169-203 | the inserted rows' keys are pairwise different if and only if no two candidates share a key that is not yet stored |
| TelemetryIngest.RetryInsertsNothing | packages/backend/src/modules/telemetry/telemetry.service.ts:161-200 | sending a batch again stores and logs nothing |
| TelemetryIngest.OneCallMayRepeatAKey | packages/backend/src/modules/telemetry/telemetry.service.ts:186-191 | an input: a batch that repeats an event, sent to an empty table, stores its key twice |
| TelemetryIngest.TelemetryService.Validate | packages/backend/src/modules/telemetry/telemetry.service.ts:92-155 | the loops with the running index compute the errors and candidate rows |
| TelemetryIngest.TelemetryService.IngestBatch | packages/backend/src/modules/telemetry/telemetry.service.ts:84-242 | tables and result are those of ingest on every path |
| Consequences.ClosedForm | packages/backend/src/modules/consequences/consequences.service.ts:128-134 | the saturating score is the plain sum lifted by how far the running sum ever fell below zero |
| Consequences.LowestAttained | packages/backend/src/modules/consequences/consequences.service.ts:128-134 | the lowest running sum is that of some prefix |
| Consequences.LowestBelow | packages/backend/src/modules/consequences/consequences.service.ts:128-134 | no prefix has a lower running sum |
| Consequences.PenaltiesOnly | packages/backend/src/modules/consequences/consequences.service.ts:25-81 | with penalties only, the score is the plain sum cut off at zero |
| Consequences.TemplatesArePenalties | packages/backend/src/modules/consequences/consequences.service.ts:25-104 | the penalties of both triggers by severity; all are negative and a failed round costs more than a distraction |
| Consequences.TemplatesExist | packages/backend/src/modules/consequences/consequences.service.ts:25-104 | exactly two triggers have templates, with the severity asked for, and a cooldown exactly for the gravest |
| Consequences.IssueKeepsScore | packages/backend/src/modules/consequences/consequences.service.ts:106-151 | issuing keeps every stored score equal to the fold of the log |
| Consequences.IssueMeans | packages/backend/src/modules/consequences/consequences.service.ts:106-151 | issuing adds the row, logs it under its id, moves the user's score by its delta but not below zero, and changes nothing else |
| Consequences.IssueKeepsEntries | packages/backend/src/modules/consequences/consequences.service.ts:117-148 | issuing keeps table and log in step, row by row |
| Consequences.ConsequencesService.IssueConsequence | packages/backend/src/modules/consequences/consequences.service.ts:106-151 | the stored consequence, the score and the log are those of issuing, and the stored row is returned |
| Consequences.ConsequencesService.IssueByTrigger | packages/backend/src/modules/consequences/consequences.service.ts:153-178 | issues and returns the template's consequence with the trigger in its metadata, or nothing when there is no template |
| Scoring.AggregateConcat | packages/backend/src/modules/scoring/scoring.service.ts:244-323 | aggregation is additive over concatenation |
| Scoring.AggregatePermuted | packages/backend/src/modules/scoring/scoring.service.ts:244-323 | aggregation does not depend on the order of events |
| Scoring.EventAdds | packages/backend/src/modules/scoring/scoring.service.ts:244-323 | what one event of each type adds to each aggregate wherever it stands, defaults of five and one minute included |
| Scoring.SubscoresMean | packages/backend/src/modules/scoring/scoring.service.ts:325-352 | each subscore is the part of its target that is reached: half the duration in the editor, a commit an hour, seven tenths in focus, a tolerance of six less the pressure for distractions, any check-in |
| Scoring.FlagsMean | packages/backend/src/modules/scoring/scoring.service.ts:368-395 | when each flag is raised, cross-multiplied, and in which order they are listed |
| Scoring.DurationMeans | packages/backend/src/modules/scoring/scoring.service.ts:65-81 | a round lasts from its actual or planned start to its end or now, and at least a minute |
| Scoring.RowsOfMeans | packages/backend/src/modules/scoring/scoring.service.ts:68-72 | the rows scored are exactly those that name the round; here in table order, which the aggregates do not depend on |
| Scoring.AggregateEvents | packages/backend/src/modules/scoring/scoring.service.ts:244-323 | the accumulator loop computes the sum of the events' worths |
| Scoring.TotalIsWeightedMean | packages/backend/src/modules/scoring/scoring.service.ts:325-366 | the total lies in [0,1] without its outer clamp, and reaches an end exactly when every subscore does |
| Scoring.OneMoreEvent | packages/backend/src/modules/scoring/scoring.service.ts:244-366 | appending a distraction never raises the score, anything else of non-negative duration never lowers it |
| Scoring.SameFlags | packages/backend/src/modules/scoring/scoring.service.ts:65-134 | both fetches raise the same flags for an ended round |
| Scoring.FlagsExact | packages/backend/src/modules/scoring/scoring.service.ts:65-134 | for any round and two clocks the flags agree for all telemetry if and only if the durations do, which is when the round has ended, the clocks agree or neither is past its first minute |
| Scoring.RecordMirrorsStats | packages/backend/src/modules/scoring/scoring.service.ts:83-115 | record, stats and answer tell the same, the record's score to four decimals; scoring again with the same duration stores the same record and leaves the round as it is |
| Scoring.ScoringMeans | packages/backend/src/modules/scoring/scoring.service.ts:57-116 | of the round only the stats change and of them not the violations; the record has the round's owner and period and the flags and aggregates of its rows; a missing round throws |
| Scoring.DetectAnomaliesInternal | packages/backend/src/modules/scoring/scoring.service.ts:368-395 | the pushed list holds exactly the raised flags in order |
| Scoring.ScoringService.ScoreTheRound | packages/backend/src/modules/scoring/scoring.service.ts:57-116 | a record is stored and returned by id, and the round's stats become the aggregates with the violation count preserved |
| Scoring.ScoringService.DetectAnomalies | packages/backend/src/modules/scoring/scoring.service.ts:121-135 | the flags do not depend on the order of the fetch |
| DesktopMetrics.FoldIsCount | packages/desktop-agent/internal/aggregator/aggregator.go:200-249 | the idle fold counts the milliseconds at which the last idle event at or before them is a detection |
| DesktopMetrics.IdleWithinWindow | packages/desktop-agent/internal/aggregator/aggregator.go:243-251 | on the events of its window the idle time is the number of idle milliseconds, between zero and the window's length |
| DesktopMetrics.IdleCutOff | packages/desktop-agent/internal/aggregator/aggregator.go:200-249 | the stream's idle time in a window is the window's own plus, if the stream came in idle, the time up to its first idle event; they agree exactly when it did not or that event stands at the start |
| DesktopMetrics.ProductiveAppsExact | packages/desktop-agent/internal/aggregator/aggregator.go:206-215 | an app is listed if and only if a switch classified as productive names it, and each once |
| DesktopMetrics.ProductiveAppsInOrder | packages/desktop-agent/internal/aggregator/aggregator.go:206-215 | the apps of a window's beginning are listed first, in the same order |
| DesktopMetrics.FocusMeans | packages/desktop-agent/internal/aggregator/aggregator.go:220-223 | one more switch adds the focus it reports unless that is negative, and no other event adds any, wherever it stands |
| DesktopMetrics.CountsMean | packages/desktop-agent/internal/aggregator/aggregator.go:202-239 | switches, distractions, commits and terminal commands are the numbers of events of that kind |
| DesktopMetrics.ComputeMetrics | packages/desktop-agent/internal/aggregator/aggregator.go:191-253 | the loop computes a window's metrics for any events, in or out of the window and in any order |
| WindowCollector.SpansTelescope | packages/desktop-agent/internal/collectors/window.go:69-90 | the focus intervals of a run follow one another without gap or overlap |
| WindowCollector.ReportedWithinSpan | packages/desktop-agent/internal/collectors/window.go:75-89 | the delivered focus is at most the time from the first interval's start to the last switch, and exactly that when nothing was lost |
| WindowCollector.SpansExact | packages/desktop-agent/internal/collectors/window.go:36-92 | a run closes an interval at every poll that sees another app than was last seen, in order and at no other; it is that of the app left, from the poll that began its streak |
| WindowCollector.Run | packages/desktop-agent/internal/collectors/window.go:36-92 | the polling loop produces those intervals |
| DesktopAgent.AtMostOnce | packages/desktop-agent/internal/aggregator/aggregator.go:107-178 | through any failures, crashes and restarts processed windows are disjoint and in order and no event is counted twice |
| DesktopAgent.QueueIsHistory | packages/desktop-agent/internal/aggregator/aggregator.go:107-178 | through any run the queue holds the metrics of the processed windows that had events, each once and in order |
| DesktopAgent.Covered | packages/desktop-agent/internal/aggregator/aggregator.go:107-129 | every moment from a run's start to its boundary lies in exactly one processed window |
| DesktopAgent.CountedIffClassifiedInTime | packages/desktop-agent/internal/aggregator/aggregator.go:133-178 | an event of a window is counted, for good and once, if and only if it is stored and classified when the window is processed |
| DesktopAgent.SettledForGood | packages/desktop-agent/internal/aggregator/aggregator.go:107-129 | once its window has passed, whether an event has been counted never changes |
| DesktopAgent.FocusConserved | packages/desktop-agent/internal/aggregator/aggregator.go:206-222 | the focus minutes of all queued batches never exceed the time from the first observed app to the last switch |
| DesktopAgent.SwitchReportsSpan | packages/desktop-agent/internal/collectors/window.go:75-81 | a switch event reports the length of the interval it closes |
| DesktopAgent.FocusExact | packages/desktop-agent/internal/aggregator/aggregator.go:206-222 | through any run the queued focus is, to the millisecond, that of the delivered focus intervals whose switch events have been counted |
| DesktopAgent.FocusComplete | packages/desktop-agent/internal/aggregator/aggregator.go:206-222 | without restarts, crashes or lost switches, once all switches are counted the queued focus is exactly the time from the first observed app to the last switch |
| DesktopAgent.RestartForgets | packages/desktop-agent/internal/collectors/window.go:36-73 | the first look after a restart reports nothing, so no interval spans a restart |
| DesktopAgent.TruncateKeepsBoundary | packages/desktop-agent/internal/aggregator/aggregator.go:108 | a restart never falls back behind a boundary already reached |
| AgentRuntime.Agent.Tick | packages/desktop-agent/internal/aggregator/aggregator.go:117-128 | a tick aggregates every finished window in order and stops at the first failure, whose window comes next |
| AgentRuntime.Agent.AggregateWindow | packages/desktop-agent/internal/aggregator/aggregator.go:133-189 | computes and enqueues one window or changes nothing |
| AgentRuntime.Agent.AggregateAndCrash | packages/desktop-agent/internal/aggregator/aggregator.go:107-178 | a stop between storing a batch and passing its window leaves the batch queued and the next boundary recomputed from the clock |
| AgentRuntime.Agent.InsertRaw | packages/desktop-agent/internal/storage/sqlite.go:98-108 | inserts any event under a new id |
| AgentRuntime.Agent.Submit | packages/desktop-agent/internal/storage/sqlite.go:111-114 | inserts another collector's event and is a step of the machine |
| AgentRuntime.Agent.PollWindow | packages/desktop-agent/internal/collectors/window.go:36-92 | one poll of the window collector: remembers the app and inserts a switch event if one is due and delivered |
| AgentRuntime.Agent.SaveClassification | packages/desktop-agent/internal/storage/sqlite.go:151-171 | stores or replaces the classification of a stored event |
| AgentRuntime.Agent.FetchClassifiedSince | packages/desktop-agent/internal/storage/sqlite.go:175-219 | returns exactly the classified events of the window, once each, in time order |
| AgentRuntime.Agent.CleanUpOld | packages/desktop-agent/internal/storage/sqlite.go:318-327 | keeps exactly the events from the cutoff on, with their classifications, unchanged |
| AgentRuntime.Agent.StartAgain | packages/desktop-agent/internal/aggregator/aggregator.go:107-108 | a restart truncates the clock to a boundary and does not fall back |
| UploadQueue.NothingLost | packages/desktop-agent/internal/uploader/uploader.go:130-156 | over any run a batch that is no longer pending has been accepted in a post made for it, with the payload it was enqueued with |
| UploadQueue.AcceptedAsRecorded | packages/desktop-agent/internal/uploader/uploader.go:130-156 | over any run the server has accepted a batch once for every turn that delivered it; it is no longer pending if and only if one of these was recorded, and at most one ever is; a row's retries are its failed turns |
| UploadQueue.NeverAgain | packages/desktop-agent/internal/uploader/uploader.go:130-156 | a batch that is no longer pending never is again and is not posted any more |
| UploadQueue.TurnsExactly | packages/desktop-agent/internal/uploader/uploader.go:159-198 | the outcomes that one batch's attempts can have are exactly: at least one, at most MaxRetries, all but the last transient or 401 |
| UploadQueue.TurnMeans | packages/desktop-agent/internal/uploader/uploader.go:144-154 | a turn posts the row's payload, and marks or counts that row and no other |
| UploadQueue.CleanUpSparesPending | packages/desktop-agent/internal/storage/sqlite.go:329-332 | clean-up deletes exactly the batches uploaded before the cutoff and leaves the others, pending ones among them, as they are |
| UploadQueue.Uploader.UploadWithRetry | packages/desktop-agent/internal/uploader/uploader.go:159-198 | the posts are exactly those of the attempts that are reached: the first always, another after a transient failure or a 401 with a refreshed token, up to MaxRetries and unless the wait is cancelled; waits of 2^(posts-1)-1 seconds |
| UploadQueue.Uploader.Flush | packages/desktop-agent/internal/uploader/uploader.go:130-156 | the oldest pending batches get one turn each, in order of creation, up to the first cancellation and no further |
| UploadQueue.Uploader.PendingBatches | packages/desktop-agent/internal/storage/sqlite.go:263-296 | the pending batches with the smallest ids up to the limit, ascending |
| UploadQueue.Uploader.UploadOne | packages/desktop-agent/internal/uploader/uploader.go:144-154 | plays the attempts, then marks an accepted batch and counts a failed one if that statement succeeds |
| UploadQueue.Uploader.EnqueueBatch | packages/desktop-agent/internal/storage/sqlite.go:243-252 | inserts a pending batch under a new id |
| UploadQueue.Uploader.CleanupOld | packages/desktop-agent/internal/storage/sqlite.go:329-332 | keeps exactly the batches that are pending or were uploaded at the cutoff or later, unchanged |
| MobileQueue.OneDrainAtATime | packages/mobile/src/services/telemetry-uploader.service.ts:63-114 | the flag is set exactly while a call is past the guard, and at most one is |
| MobileQueue.RowsAccounted | packages/mobile/src/services/telemetry-uploader.service.ts:63-114 | at any moment a row is uploaded only if an accepted envelope with it has been acknowledged, at most one ever is, its other acceptances are ones the phone has not seen, and it is in flight only under a running drain |
| MobileQueue.QuietLedger | packages/mobile/src/services/telemetry-uploader.service.ts:92-107 | when no drain runs, attempts is the number of envelopes that carried the row, and the server has accepted it once if it is uploaded and once more for every acceptance that went unseen |
| MobileQueue.OnceExactly | packages/mobile/src/services/telemetry-uploader.service.ts:92-107 | when no drain runs, the row's status tells what the server has if and only if no acceptance of it went unseen |
| MobileQueue.AcceptedTwice | packages/mobile/src/services/telemetry-uploader.service.ts:92-107 | an input: a late answer makes the phone send a row that the server has accepted already |
| MobileQueue.NoRowLost | packages/mobile/src/services/telemetry-uploader.service.ts:63-135 | a row once enqueued stays with its times, its attempts never fall, and uploaded is for good |
| MobileQueue.EnqueueAdds | packages/mobile/src/db/repositories/telemetry.repo.ts:68-93 | a new row is pending and has been carried by nothing |
| MobileQueue.WaitsInSeconds | packages/mobile/src/services/telemetry-uploader.service.ts:53-61 | a row is due at once, or 30, 60, 120, 240, 480, 960 and then always 1800 seconds after its creation, by attempts |
| MobileQueue.SelectedExactly | packages/mobile/src/services/telemetry-uploader.service.ts:63-81 | at any reachable selection the rows to mark are exactly the fetched ones that are due by the number of envelopes that carried them, in fetch order |
| MobileQueue.NothingSentEarly | packages/mobile/src/services/telemetry-uploader.service.ts:63-107 | every envelope of every run carries one to fifty different rows, each of which was due when it was selected |
| MobileQueue.ReadMeans | packages/mobile/src/services/telemetry-uploader.service.ts:70-71 | a drain reads the oldest pending rows, at most fifty, as they are |
| MobileQueue.EmptyHanded | packages/mobile/src/services/telemetry-uploader.service.ts:67-71 | without a token or pending rows a drain ends having touched nothing |
| MobileQueue.RowChanges | packages/mobile/src/services/telemetry-uploader.service.ts:80-107 | a row is changed only by its call's three marks, as written out |
| MobileQueue.PromiseExact | packages/mobile/src/services/telemetry-uploader.service.ts:10-61 | the delay that the comment promises after an attempt is kept if and only if the row was tried in the millisecond of its creation and its backoff is at the cap |
| MobileQueue.PromiseBroken | packages/mobile/src/services/telemetry-uploader.service.ts:10-61 | an input: a row whose second attempt comes a minute after its creation is eligible at once |
| MobileQueue.TelemetryRepo.EnqueueTelemetry | packages/mobile/src/db/repositories/telemetry.repo.ts:68-93 | inserts a pending row, or throws on a duplicate key |
| MobileQueue.TelemetryRepo.GetPendingBatch | packages/mobile/src/db/repositories/telemetry.repo.ts:106-118 | returns the oldest pending rows up to the limit, oldest first |
| MobileQueue.TelemetryRepo.MarkInFlight | packages/mobile/src/db/repositories/telemetry.repo.ts:120-130 | changes status and attempts of exactly the given rows |
| MobileQueue.TelemetryRepo.MarkUploaded | packages/mobile/src/db/repositories/telemetry.repo.ts:132-140 | changes the status of exactly the given rows |
| MobileQueue.TelemetryRepo.MarkFailed | packages/mobile/src/db/repositories/telemetry.repo.ts:142-155 | returns exactly the given rows to pending with the error |
| JsonText.StringRoundTrip | packages/ai-service/src/modules/announcements/announcement-cache.service.ts:87 | a quoted string reads back under a reader that takes no unescaped control, whatever follows (section 7 of RFC 8259) |
| JsonText.EscapesMean | packages/ai-service/src/modules/announcements/announcement-cache.service.ts:87 | the escape of every code unit (section 7 of RFC 8259) |
| JsonText.PlainExactly | packages/ai-service/src/modules/announcements/announcement-cache.service.ts:87 | a text prints as itself between quotes if and only if it needs no escape and its surrogates are paired |
| CanonicalKey.StringifyIsPrintCanon | packages/ai-service/src/modules/announcements/announcement-cache.service.ts:86-95 | the canonical text prints the value with undefined entries dropped and keys sorted at every level |
| JsonParser.RoundTrip | packages/ai-service/src/modules/announcements/announcement-cache.service.ts:86-95 | printed values read back uniquely, whatever follows (sections 4, 5 and 7 of RFC 8259, with empty array elements) |
| CacheKey.CanonicalTextDecodes | packages/ai-service/src/modules/announcements/announcement-cache.service.ts:86-95 | a canonical text reads back as the canonical form of what it shows |
| CacheKey.CanonicalKeyExact | packages/ai-service/src/modules/announcements/announcement-cache.service.ts:53-95 | for all values, two have the same text if and only if what their texts show is alike: equal up to undefined entries and key order, ties of the collation in order |
| CacheKey.ApartAlike | packages/ai-service/src/modules/announcements/announcement-cache.service.ts:86-95 | where the collation tells keys apart, objects are alike if and only if every defined entry of either has its match in the other |
| CacheKey.HashInputExact | packages/ai-service/src/modules/announcements/announcement-cache.service.ts:53-57 | two requests with contexts hash the same text if and only if their types are equal and their contexts show alike values; without a context a request hashes as if that were null; the collation is taken to tell `t` from `c` |
| CacheKey.HashInputText | packages/ai-service/src/modules/announcements/announcement-cache.service.ts:53-57 | the hashed text itself, member by member, for a collation that puts `c` before `t` |
| CacheKey.OrderFreeExactly | packages/ai-service/src/modules/announcements/announcement-cache.service.ts:91-93 | for an object with distinct keys every order of its entries prints alike if and only if the collation tells the keys of its defined entries apart |
| CacheKey.DifferentValuesCollide | packages/ai-service/src/modules/announcements/announcement-cache.service.ts:87-90 | inputs: an undefined array element prints as nothing, NaN and the infinities as null |
| HourRange.RangesExact | packages/ai-service/src/modules/behavioral-analysis/compact-summary.ts:94-107 | expanding the ranges yields the sorted hours with repeats, and no range starts one above the one before |
| HourRange.RangeText | packages/ai-service/src/modules/behavioral-analysis/compact-summary.ts:112-130 | how a range prints on the twelve-hour clock, hour by hour, and when the first half of the day is left out |
| HourRange.ListText | packages/ai-service/src/modules/behavioral-analysis/compact-summary.ts:109 | ranges are joined by a comma and a space |
| HourRange.TextExamples | packages/ai-service/src/modules/behavioral-analysis/compact-summary.ts:87-90 | the two examples of the comment |
| HourRange.TextExact | packages/ai-service/src/modules/behavioral-analysis/compact-summary.ts:91-130 | any two lists of integers print alike if and only if their ranges correspond one to one, ends at the same places on the dial, single hours to single hours |
| HourRange.TextIsContents | packages/ai-service/src/modules/behavioral-analysis/compact-summary.ts:91-130 | lists of hours 0 to 23 print alike if and only if they are permutations of each other |
| HourRange.OffTheDial | packages/ai-service/src/modules/behavioral-analysis/compact-summary.ts:125-130 | an input: hours a day apart print alike and are not permutations |
| HourRange.FormatHourRange | packages/ai-service/src/modules/behavioral-analysis/compact-summary.ts:91-110 | the loop prints those ranges |

## Left out

- HTTP, sockets, dependency injection, the SQL engines, authentication, signatures (whose check always passes), hashing, the caches' library and the event bus: foreign calls; a table is a map or a sequence, a network answer a free choice.
- Which connection a table is on: here scoring reads the rows that ingest stores; in the code `scoring.module.ts` registers the telemetry entity on the default connection, while `app.module.ts` lists it under `telemetry` only.
- Interleaving of backend calls other than the finalisers of one round and a pause: read, await and save are not safe there, as `FinaliserRace.TwoFinalsExactly` shows.
- FinaliserRace.Step: the round's mission is taken to be stored, as it is in every run of `Backend`; the other tables play no part there.
- `updateOperationalState`: nothing calls it; and no call modelled here passes a forced target to a transition.
- `getEventsForRound` sorts by time, with ties in no set order; a slice here is in order of insertion.
- Ancillary event payloads, point counts and duration columns: nothing modelled reads them.
- Acknowledging a consequence, player patterns, and the contents of snapshots: outputs that nothing modelled reads back.
- TelemetryIngest.KeyOf: compares the three key columns, not the joined key string; within one lookup the device part is the same on both sides.
- Crashes between a statement and its follow-up mark in the processor and the phone's queue: statements are assumed to succeed there.
- MobileQueue.Step: purging uploaded rows is not an action, because nothing calls it.
- UploadQueue.Uploader.UploadWithRetry: counts completed waits only; a wait cut short by cancellation is not added.
- The tray's counters, the round tag on a window, the classifier's rules, the idle and terminal collectors' own polling.
- The window must be a whole number of milliseconds, and the clock counts from one of its multiples, as truncation does.
- CanonicalKey.Stringify: a finite number stands for its text, which the theorems require to look like a number's, and locale comparison for a rank of each key; printing doubles and collation tables are library code.
- Reputation, counters and times are unbounded integers; floating-point rounding is not modelled, except a record's score to four decimals.
- The extension, the screens, text generation and speech, the difficulty engine, serializers and input validation: interface code, library calls or single branches.
- Liveness of the uploaders: permanently refused batches stay pending.
