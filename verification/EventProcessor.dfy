/** Processing one logged event: idempotent by its flag, and counting violations. */
module EventProcessor {
  import opened Options
  import opened Schema
  import opened Counting
  import opened TelemetryIngest

  /** What leaves the processor: work for the bus, the cached state of a user, and the call that
      may take a snapshot. */
  datatype Signal =
    | ScoringWork(roundId: Id)
    | DifficultyWork(userId: Id)
    | AnnouncementWork(roundId: Id)
    | Escalation(roundId: Id, trigger: StateTrigger)
    | CurrentState(userId: Id, state: OperationalState)
    | SnapshotDue(userId: Id)

  const CRITICAL_VIOLATIONS_THRESHOLD := 2

  function AddViolation(r: Round): Round {
    r.(stats := r.stats.(
         violationsCount := r.stats.violationsCount + 1,
         distractionsDetected := r.stats.distractionsDetected + 1))
  }

  /** The round a distraction event counts against, if it is stored. */
  predicate Counts(s: Sys, e: Event) {
    e.kind == Behavior(DistractionDetected) && e.roundId.Some? && e.roundId.value in s.rounds
  }

  function Dispatch(s: Sys, e: Event): (Sys, seq<Signal>) {
    if e.kind.RoundCompleted? && e.roundId.Some? then
      (s, [ScoringWork(e.roundId.value), DifficultyWork(e.userId), AnnouncementWork(e.roundId.value)])
    else if Counts(s, e) then
      var id := e.roundId.value;
      var r := AddViolation(s.rounds[id]);
      (s.(rounds := s.rounds[id := r]),
       if r.stats.violationsCount >= CRITICAL_VIOLATIONS_THRESHOLD && r.operationalState.Operational?
       then [Escalation(id, OnViolationsThreshold)] else [])
    else if e.kind.StateTransition? then (s, [CurrentState(e.userId, e.kind.to)])
    else (s, [])
  }

  function Mark(log: seq<Event>, i: nat): seq<Event>
    requires i < |log|
  {
    log[i := log[i].(isProcessed := true)]
  }

  function Process(s: Sys, i: nat): (Sys, seq<Signal>) {
    if i >= |s.log| || s.log[i].isProcessed then (s, [])
    else
      var (s', signals) := Dispatch(s, s.log[i]);
      (s'.(log := Mark(s.log, i)), signals + [SnapshotDue(s.log[i].userId)])
  }

  // ----- counting -----

  function DistractionFor(id: Id): Event -> bool {
    (e: Event) => e.kind == Behavior(DistractionDetected) && e.roundId == Some(id)
  }

  function ProcessedDistractionFor(id: Id): Event -> bool {
    (e: Event) => e.kind == Behavior(DistractionDetected) && e.roundId == Some(id) && e.isProcessed
  }

  function DistractionRowFor(id: Id): TelemetryRow -> bool {
    (row: TelemetryRow) => row.eventType.DistractionDetected? && row.roundId == Some(id)
  }

  lemma FanOutSnoc(rows: seq<TelemetryRow>)
    requires rows != []
    ensures var n := |rows| - 1;
            FanOut(rows)
            == if Reported(rows[n].eventType) then FanOut(rows[..n]) + [EventFor(rows[n])] else FanOut(rows[..n])
  {
    assert FanOut(rows[..|rows| - 1]) + [] == FanOut(rows[..|rows| - 1]);
  }

  /** The event of a row counts for the rounds for which the row does, and is not processed. */
  lemma EventForCounts(row: TelemetryRow, id: Id)
    ensures DistractionFor(id)(EventFor(row)) <==> DistractionRowFor(id)(row)
    ensures !ProcessedDistractionFor(id)(EventFor(row))
    ensures DistractionRowFor(id)(row) ==> Reported(row.eventType)
  {
  }

  /** Each inserted distraction row logs one distraction event, for its round. */
  lemma {:induction false} FanOutDistractions(rows: seq<TelemetryRow>, id: Id)
    ensures Count(FanOut(rows), DistractionFor(id)) == Count(rows, DistractionRowFor(id))
  {
    if rows != [] {
      var n := |rows| - 1;
      FanOutDistractions(rows[..n], id);
      FanOutSnoc(rows);
      EventForCounts(rows[n], id);
      CountSnoc(FanOut(rows[..n]), EventFor(rows[n]), DistractionFor(id));
    }
  }

  /** None of them is processed yet. */
  lemma {:induction false} FanOutUnprocessed(rows: seq<TelemetryRow>, id: Id)
    ensures Count(FanOut(rows), ProcessedDistractionFor(id)) == 0
  {
    if rows != [] {
      var n := |rows| - 1;
      FanOutUnprocessed(rows[..n], id);
      FanOutSnoc(rows);
      EventForCounts(rows[n], id);
      CountSnoc(FanOut(rows[..n]), EventFor(rows[n]), ProcessedDistractionFor(id));
    }
  }

  /** What processing leaves behind. A missing or processed event: nothing. Otherwise the event is marked; a distraction
      adds one to both counters of its round, if that is stored, and leaves the rest of it alone; no other row or table
      changes. */
  lemma ProcessMeans(s: Sys, i: nat)
    ensures var (s', signals) := Process(s, i);
            if i >= |s.log| || s.log[i].isProcessed then s' == s && signals == []
            else
              var e := s.log[i];
              && s' == s.(log := s.log[i := e.(isProcessed := true)], rounds := s'.rounds)
              && s'.rounds.Keys == s.rounds.Keys
              && forall id | id in s.rounds ::
                   && s'.rounds[id] == s.rounds[id].(stats := s'.rounds[id].stats)
                   && var n := if e.kind == Behavior(DistractionDetected) && e.roundId == Some(id) then 1 else 0;
                   && s'.rounds[id].stats.violationsCount == s.rounds[id].stats.violationsCount + n
                   && s'.rounds[id].stats.distractionsDetected == s.rounds[id].stats.distractionsDetected + n
                   && s'.rounds[id].stats == s.rounds[id].stats.(
                        violationsCount := s'.rounds[id].stats.violationsCount,
                        distractionsDetected := s'.rounds[id].stats.distractionsDetected)
  {
  }

  /** What goes out: for a completed round its scoring, the user's difficulty and the announcement; for a transition the
      user's new state; for a distraction, an escalation when the round is OPERATIONAL and this is not its first
      violation; and after each of them, as after any other event, the snapshot. */
  lemma SignalsMean(s: Sys, i: nat)
    requires i < |s.log| && !s.log[i].isProcessed
    ensures var e, signals := s.log[i], Process(s, i).1;
            signals ==
              (match e.kind
               case RoundCompleted =>
                 if e.roundId == None then []
                 else [ScoringWork(e.roundId.value), DifficultyWork(e.userId), AnnouncementWork(e.roundId.value)]
               case StateTransition(_, to, _) => [CurrentState(e.userId, to)]
               case Behavior(t) =>
                 if t == DistractionDetected && e.roundId != None && e.roundId.value in s.rounds
                    && s.rounds[e.roundId.value].operationalState == Operational
                    && s.rounds[e.roundId.value].stats.violationsCount > 0
                 then [Escalation(e.roundId.value, OnViolationsThreshold)] else []
               case _ => [])
              + [SnapshotDue(e.userId)]
  {
  }

  /** Processing an event once counts it once; processing it again changes nothing. */
  lemma ProcessTwiceIsOnce(s: Sys, i: nat)
    ensures Process(Process(s, i).0, i) == (Process(s, i).0, [])
  {
  }

  /** The count of processed distractions grows exactly when an unprocessed distraction is processed. */
  lemma MarkCounts(log: seq<Event>, i: nat, id: Id)
    requires i < |log| && !log[i].isProcessed
    ensures Count(Mark(log, i), DistractionFor(id)) == Count(log, DistractionFor(id))
    ensures Count(Mark(log, i), ProcessedDistractionFor(id))
         == Count(log, ProcessedDistractionFor(id)) + (if DistractionFor(id)(log[i]) then 1 else 0)
  {
    CountUpdate(log, i, log[i].(isProcessed := true), DistractionFor(id));
    CountUpdate(log, i, log[i].(isProcessed := true), ProcessedDistractionFor(id));
  }

  class EventProcessorWorker {
    const db: Database

    constructor (db: Database)
      ensures this.db == db
    {
      this.db := db;
    }

    method ProcessEvent(i: nat) returns (signals: seq<Signal>)
      modifies db
      ensures db.State() == Process(old(db.State()), i).0
      ensures signals == Process(old(db.State()), i).1
    {
      signals := [];
      if i >= |db.log| {
        return;
      }
      var event := db.log[i];
      if event.isProcessed {
        return;
      }
      match event.kind {
        case RoundCompleted =>
          if event.roundId.Some? {
            signals := [ScoringWork(event.roundId.value), DifficultyWork(event.userId),
                        AnnouncementWork(event.roundId.value)];
          }
        case Behavior(DistractionDetected) =>
          signals := HandleDistraction(event);
        case StateTransition(_, to, _) =>
          signals := [CurrentState(event.userId, to)];
        case _ =>
      }
      db.log := db.log[i := event.(isProcessed := true)];
      signals := signals + [SnapshotDue(event.userId)];
    }

    method HandleDistraction(event: Event) returns (signals: seq<Signal>)
      requires event.kind == Behavior(DistractionDetected)
      modifies db
      ensures db.State() == Dispatch(old(db.State()), event).0
      ensures signals == Dispatch(old(db.State()), event).1
    {
      signals := [];
      if event.roundId.None? || event.roundId.value !in db.rounds {
        return;
      }
      var id := event.roundId.value;
      var round := db.rounds[id];
      var violations := round.stats.violationsCount + 1;
      var distractions := round.stats.distractionsDetected + 1;
      round := round.(stats := round.stats.(violationsCount := violations, distractionsDetected := distractions));
      db.rounds := db.rounds[id := round];
      if violations >= CRITICAL_VIOLATIONS_THRESHOLD && round.operationalState.Operational? {
        signals := [Escalation(id, OnViolationsThreshold)];
      }
    }
  }
}
