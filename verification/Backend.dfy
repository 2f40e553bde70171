/** The backend as one system: every service call of the other modules, run to completion in any
    order over any number of users, missions and rounds, and what always holds of the tables. */
module Backend {
  import opened Options
  import opened Schema
  import opened Counting
  import opened StateMachine
  import opened RoundLifecycle
  import opened TelemetryIngest
  import opened EventProcessor
  import opened Consequences
  import Scoring

  datatype Request =
    | RegisterUser(user: Id)
    | CreateMission(mission: Id, owner: Id)
    | SetMissionStatus(mission: Id, status: MissionStatus)
    | CreateRound(id: Id, newRound: NewRound, userId: Id, now: Time)
    | Act(call: Call, id: Id, userId: Id, now: Time)
    | PatchRound(id: Id, userId: Id, patch: Patch)
    | EscalateRound(id: Id, trigger: StateTrigger, now: Time)
    | IngestBatch(userId: Id, dto: Dto, now: Time)
    | ProcessEvent(index: nat)
    | ScoreTheRound(id: Id, now: Time)
    | IssueConsequence(userId: Id, roundId: Option<Id>, charge: Charge, metadata: map<string, string>, now: Time)

  function Step(s: Sys, req: Request): Sys {
    match req
    case RegisterUser(u) => s.(users := s.users[u := 0])
    case CreateMission(m, owner) => s.(missions := s.missions[m := Mission(owner, Draft, 0, 0)])
    case SetMissionStatus(m, status) =>
      if m in s.missions then s.(missions := s.missions[m := s.missions[m].(status := status)]) else s
    case CreateRound(id, dto, userId, now) => Create(s, id, dto, userId, now).0
    case Act(call, id, userId, now) => Lifecycle(s, call, id, userId, now).0
    case PatchRound(id, userId, patch) => Update(s, id, userId, patch).0
    case EscalateRound(id, trigger, now) => Escalate(s, id, trigger, now).0
    case IngestBatch(userId, dto, now) => Ingest(s, userId, dto, now).0
    case ProcessEvent(i) => Process(s, i).0
    case ScoreTheRound(id, now) => Scoring.ScoreRound(s, id, now).0
    case IssueConsequence(userId, roundId, charge, metadata, now) => Issue(s, userId, roundId, charge, metadata, now)
  }

  /** New ids have never been mentioned, and nobody escalates with a finalising trigger. */
  predicate Legal(s: Sys, req: Request) {
    match req
    case RegisterUser(u) => u !in s.users && forall e | e in s.log :: e.userId != u
    case CreateMission(m, _) => m !in s.missions
    case CreateRound(id, _, _, _) => id !in s.rounds && forall e | e in s.log :: e.roundId != Some(id)
    case EscalateRound(_, trigger, _) => !Finalises(trigger)
    case _ => true
  }

  function Run(s: Sys, reqs: seq<Request>): Sys
    decreases |reqs|
  {
    if reqs == [] then s else Run(Step(s, reqs[0]), reqs[1..])
  }

  predicate LegalRun(s: Sys, reqs: seq<Request>)
    decreases |reqs|
  {
    reqs == [] || (Legal(s, reqs[0]) && LegalRun(Step(s, reqs[0]), reqs[1..]))
  }

  // ----- the invariant -----

  function RoundsOfMission(rounds: map<Id, Round>, m: Id): set<Id> {
    set id | id in rounds && rounds[id].missionId == m
  }

  function CompletedOfMission(rounds: map<Id, Round>, m: Id): set<Id> {
    set id | id in rounds && rounds[id].missionId == m && rounds[id].status.Completed?
  }

  /** A round agrees with its slice of the log. */
  ghost predicate Rebuilt(s: Sys, id: Id) {
    id in s.rounds ==> Told(s.rounds[id], Slice(s.log, id))
  }

  ghost predicate Histories(s: Sys) {
    forall id: Id :: Rebuilt(s, id)
  }

  predicate Counters(s: Sys) {
    && (forall id | id in s.rounds :: s.rounds[id].missionId in s.missions)
    && (forall m | m in s.missions :: Tallied(s.missions[m], s.rounds, m))
  }

  predicate Tallied(mission: Mission, rounds: map<Id, Round>, m: Id) {
    && mission.totalRounds == |RoundsOfMission(rounds, m)|
    && mission.completedRounds == |CompletedOfMission(rounds, m)|
  }

  predicate Violations(s: Sys) {
    forall id | id in s.rounds :: s.rounds[id].stats.violationsCount == Count(s.log, ProcessedDistractionFor(id))
  }

  ghost predicate TaggedFor(s: Sys, id: Id) {
    Count(s.log, DistractionFor(id)) == Count(s.telemetry, DistractionRowFor(id))
  }

  ghost predicate Tagged(s: Sys) {
    forall id: Id :: TaggedFor(s, id)
  }

  predicate Scores(s: Sys) {
    forall u | u in s.users :: s.users[u] == Saturate(0, Deltas(s.log, u))
  }

  predicate Judged(s: Sys) {
    forall row | row in s.telemetry :: row.isProductive == IsProductive(row.eventType)
  }

  predicate Recorded(s: Sys) {
    forall record | record in s.records :: record.productiveAppsActive == 0
  }

  /** The log's consequence events are the rows of the table, in order. */
  predicate Ledgered(s: Sys) {
    Issuings(s.log) == Entries(s.consequences)
  }

  ghost predicate Inv(s: Sys) {
    && Histories(s) && Counters(s) && Violations(s) && Tagged(s)
    && Scores(s) && Judged(s) && Recorded(s) && Ledgered(s)
  }

  // ----- how the log grows -----

  predicate Lifecyclic(k: EventKind) {
    IsLetter(k) || k.StateTransition?
  }

  /** Lifecycle and transition events count neither as distractions nor as consequences. */
  lemma {:induction false} StampedQuiet(log: seq<Event>, userId: Id, roundId: Option<Id>, kinds: seq<EventKind>,
                                        now: Time, id: Id)
    requires forall i | 0 <= i < |kinds| :: Lifecyclic(kinds[i])
    ensures var log' := log + Stamped(userId, roundId, kinds, now);
            && Count(log', DistractionFor(id)) == Count(log, DistractionFor(id))
            && Count(log', ProcessedDistractionFor(id)) == Count(log, ProcessedDistractionFor(id))
            && Deltas(log', id) == Deltas(log, id)
    decreases |kinds|
  {
    if kinds == [] {
      assert log + [] == log;
    } else {
      var n := |kinds| - 1;
      StampedQuiet(log, userId, roundId, kinds[..n], now, id);
      var front := log + Stamped(userId, roundId, kinds[..n], now);
      var e := Event(userId, roundId, kinds[n], now, false);
      assert log + Stamped(userId, roundId, kinds, now) == front + [e];
      CountSnoc(front, e, DistractionFor(id));
      CountSnoc(front, e, ProcessedDistractionFor(id));
      assert (front + [e])[..|front|] == front;
    }
  }

  /** Audit events leave every round's story as it was. */
  lemma {:induction false} AuditTold(r: Round, log: seq<Event>, es: seq<Event>, id: Id)
    requires forall i | 0 <= i < |es| :: es[i].kind.Behavior? || es[i].kind.ConsequenceIssued?
    requires Told(r, Slice(log, id))
    ensures Told(r, Slice(log + es, id))
    decreases |es|
  {
    if es == [] {
      assert log + es == log;
    } else {
      var n := |es| - 1;
      AuditTold(r, log, es[..n], id);
      var w := Slice(log + es[..n], id);
      SliceAppend(log + es[..n], es[n], id);
      assert log + es == (log + es[..n]) + [es[n]];
      if es[n].roundId == Some(id) {
        AuditKeepsOne(w, es[n].kind);
      } else {
        assert w + [] == w;
      }
    }
  }

  lemma {:induction false} FanOutIsBehavior(rows: seq<TelemetryRow>)
    ensures forall i | 0 <= i < |FanOut(rows)| :: FanOut(rows)[i].kind.Behavior?
  {
    if rows != [] {
      FanOutIsBehavior(rows[..|rows| - 1]);
    }
  }

  /** What every accepted lifecycle call leaves alone, and what it logs. */
  lemma EffectFacts(call: Call, r: Round, now: Time)
    requires EffectOf(call, r, now).Accept?
    ensures var Accept(r', emitted) := EffectOf(call, r, now);
            && r'.missionId == r.missionId && r'.stats == r.stats && r'.userId == r.userId
            && (r'.status.Completed? <==> call.Complete?) && !r.status.Completed?
            && forall i | 0 <= i < |emitted| :: Lifecyclic(emitted[i])
  {
  }

  // ----- each request keeps each part -----

  lemma {:induction false} NoSlice(log: seq<Event>, id: Id)
    requires forall i | 0 <= i < |log| :: log[i].roundId != Some(id)
    ensures Slice(log, id) == []
    ensures Count(log, ProcessedDistractionFor(id)) == 0
  {
    if log != [] {
      NoSlice(log[..|log| - 1], id);
    }
  }

  lemma StepHistories(s: Sys, req: Request)
    requires Histories(s) && Legal(s, req)
    ensures Histories(Step(s, req))
  {
    forall id: Id | true
      ensures Rebuilt(Step(s, req), id)
    {
      StepRebuilt(s, req, id);
    }
  }

  lemma StepRebuilt(s: Sys, req: Request, id: Id)
    requires Rebuilt(s, id) && Legal(s, req)
    ensures Rebuilt(Step(s, req), id)
  {
    match req
    case CreateRound(newId, dto, userId, now) => CreateRebuilt(s, newId, dto, userId, now, id);
    case Act(call, i, userId, now) => ActRebuilt(s, call, i, userId, now, id);
    case EscalateRound(i, trigger, now) => EscalateRebuilt(s, i, trigger, now, id);
    case IngestBatch(userId, dto, now) => IngestRebuilt(s, userId, dto, now, id);
    case IssueConsequence(userId, roundId, charge, metadata, now) =>
      IssueRebuilt(s, userId, roundId, charge, metadata, now, id);
    case PatchRound(i, userId, patch) => UpdateRebuilt(s, i, userId, patch, id);
    case ProcessEvent(i) => ProcessRebuilt(s, i, id);
    case ScoreTheRound(i, now) => ScoreRebuilt(s, i, now, id);
    case _ =>
  }

  lemma CreateRebuilt(s: Sys, newId: Id, dto: NewRound, userId: Id, now: Time, id: Id)
    requires Rebuilt(s, id) && newId !in s.rounds && forall e | e in s.log :: e.roundId != Some(newId)
    ensures Rebuilt(Create(s, newId, dto, userId, now).0, id)
  {
    var (s', r) := Create(s, newId, dto, userId, now);
    if r.Ok? {
      SliceStamped(s.log, userId, Some(newId), CREATION, now, id);
      if id == newId {
        NoSlice(s.log, id);
        CreationTold(s'.rounds[id]);
        assert [] + CREATION == CREATION;
      } else {
        assert Slice(s.log, id) + [] == Slice(s.log, id);
      }
    }
  }

  lemma ActRebuilt(s: Sys, call: Call, i: Id, userId: Id, now: Time, id: Id)
    requires Rebuilt(s, id)
    ensures Rebuilt(Lifecycle(s, call, i, userId, now).0, id)
  {
    if Lifecycle(s, call, i, userId, now).1.Ok? {
      var emitted := EffectOf(call, s.rounds[i], now).emitted;
      SliceStamped(s.log, userId, Some(i), emitted, now, id);
      if id == i {
        EffectKeepsTold(call, s.rounds[i], now, Slice(s.log, i));
      } else {
        assert Slice(s.log, id) + [] == Slice(s.log, id);
      }
    }
  }

  /** Escalation by a trigger that does not finalise keeps the story. */
  lemma EscalateRebuilt(s: Sys, i: Id, trigger: StateTrigger, now: Time, id: Id)
    requires Rebuilt(s, id) && !Finalises(trigger)
    ensures Rebuilt(Escalate(s, i, trigger, now).0, id)
  {
    if i !in s.rounds || !s.rounds[i].operationalState.Operational? || Next(Operational, trigger).None? {
      return;
    }
    var moved := Changed(Operational, Critical, trigger);
    SliceStamped(s.log, s.rounds[i].userId, Some(i), moved, now, id);
    if id != i {
      assert Slice(s.log, id) + [] == Slice(s.log, id);
      return;
    }
    EscalatedTold(s.rounds[i], Slice(s.log, i), trigger);
  }

  lemma EscalatedTold(r: Round, w: seq<EventKind>, trigger: StateTrigger)
    requires Told(r, w) && r.operationalState.Operational? && Next(Operational, trigger) == Some(Critical)
    ensures Told(r.(operationalState := Critical), w + Changed(Operational, Critical, trigger))
  {
    TransitionKeeps(w, Operational, Critical, trigger);
  }

  lemma IngestRebuilt(s: Sys, userId: Id, dto: Dto, now: Time, id: Id)
    requires Rebuilt(s, id)
    ensures Rebuilt(Ingest(s, userId, dto, now).0, id)
  {
    if id in s.rounds {
      FanOutIsBehavior(Inserted(s, userId, dto, now));
      AuditTold(s.rounds[id], s.log, FanOut(Inserted(s, userId, dto, now)), id);
    }
  }

  lemma IssueRebuilt(s: Sys, userId: Id, roundId: Option<Id>, charge: Charge, metadata: map<string, string>, now: Time,
                     id: Id)
    requires Rebuilt(s, id)
    ensures Rebuilt(Issue(s, userId, roundId, charge, metadata, now), id)
  {
    if id in s.rounds {
      AuditTold(s.rounds[id], s.log, Stamped(userId, roundId, [ConsequenceIssued(|s.consequences|, charge)], now), id);
    }
  }

  /** The story mentions neither a round's stats or failure reason nor whether an event has been processed. */
  lemma ToldAlike(r: Round, r': Round, w: seq<EventKind>)
    requires Told(r, w) && r' == r.(stats := r'.stats, failureReason := r'.failureReason)
    ensures Told(r', w)
  {
  }

  lemma UpdateRebuilt(s: Sys, i: Id, userId: Id, patch: Patch, id: Id)
    requires Rebuilt(s, id)
    ensures Rebuilt(Update(s, i, userId, patch).0, id)
  {
    if id in s.rounds {
      ToldAlike(s.rounds[id], Update(s, i, userId, patch).0.rounds[id], Slice(s.log, id));
    }
  }

  lemma ProcessRow(s: Sys, i: nat, id: Id)
    requires id in s.rounds
    ensures var s' := Process(s, i).0; id in s'.rounds && s'.rounds[id] == s.rounds[id].(stats := s'.rounds[id].stats)
  {
  }

  lemma ProcessSlice(s: Sys, i: nat, id: Id)
    ensures Process(s, i).0.rounds.Keys == s.rounds.Keys
    ensures Slice(Process(s, i).0.log, id) == Slice(s.log, id)
  {
    if i < |s.log| {
      SliceMark(s.log, i, id);
    }
  }

  lemma ProcessRebuilt(s: Sys, i: nat, id: Id)
    requires Rebuilt(s, id)
    ensures Rebuilt(Process(s, i).0, id)
  {
    ProcessSlice(s, i, id);
    if id in s.rounds {
      ProcessRow(s, i, id);
      ToldAlike(s.rounds[id], Process(s, i).0.rounds[id], Slice(s.log, id));
    }
  }

  lemma ScoreRow(s: Sys, i: Id, now: Time, id: Id)
    requires id in s.rounds
    ensures var s' := Scoring.ScoreRound(s, i, now).0;
            id in s'.rounds && s'.rounds[id] == s.rounds[id].(stats := s'.rounds[id].stats)
  {
  }

  lemma ScoreRebuilt(s: Sys, i: Id, now: Time, id: Id)
    requires Rebuilt(s, id)
    ensures Rebuilt(Scoring.ScoreRound(s, i, now).0, id)
  {
    if id in s.rounds {
      ScoreRow(s, i, now, id);
      ToldAlike(s.rounds[id], Scoring.ScoreRound(s, i, now).0.rounds[id], Slice(s.log, id));
    }
  }

  /** The condition on escalation is exact: on an OPERATIONAL round that agrees with its history,
      the result agrees with its history if and only if the trigger is not a finalising one. */
  lemma EscalationExact(s: Sys, id: Id, trigger: StateTrigger, now: Time)
    requires id in s.rounds && Rebuilt(s, id) && s.rounds[id].operationalState.Operational?
    ensures Rebuilt(Escalate(s, id, trigger, now).0, id) <==> !Finalises(trigger)
  {
    if !Finalises(trigger) {
      EscalateRebuilt(s, id, trigger, now, id);
    } else {
      var s' := Escalate(s, id, trigger, now).0;
      assert Joint(s.rounds[id]) && !Joint(s'.rounds[id]);
    }
  }

  /** What escalation does: nothing to a missing round or one that is not OPERATIONAL; otherwise a time warning or
      too many violations make it CRITICAL and are logged for its owner, and no other trigger that does not finalise
      is accepted. */
  lemma EscalationMeans(s: Sys, id: Id, trigger: StateTrigger, now: Time)
    requires !Finalises(trigger)
    ensures var (s', r) := Escalate(s, id, trigger, now);
            if id !in s.rounds || s.rounds[id].operationalState != Operational then s' == s && r.Ok?
            else if trigger != OnTimeWarning && trigger != OnViolationsThreshold then s' == s && r == Err(BadRequest)
            else
              && r.Ok?
              && s' == s.(rounds := s.rounds[id := s.rounds[id].(operationalState := Critical)],
                          log := s.log + [Event(s.rounds[id].userId, Some(id),
                                                StateTransition(Operational, Critical, trigger), now, false)])
  {
    if id in s.rounds && s.rounds[id].operationalState.Operational? {
      StampedAt(s.rounds[id].userId, Some(id), Changed(Operational, Critical, trigger), now);
    }
  }

  /** How storing one round changes the numbers behind the counters. */
  lemma StoreRoundTotal(rounds: map<Id, Round>, id: Id, r: Round, m: Id)
    requires id in rounds ==> rounds[id].missionId == r.missionId
    ensures |RoundsOfMission(rounds[id := r], m)|
         == |RoundsOfMission(rounds, m)| + (if r.missionId == m && id !in rounds then 1 else 0)
  {
    var before, after := RoundsOfMission(rounds, m), RoundsOfMission(rounds[id := r], m);
    if r.missionId == m && id !in rounds {
      assert after == before + {id};
    } else {
      assert after == before;
    }
  }

  lemma StoreRoundCompleted(rounds: map<Id, Round>, id: Id, r: Round, m: Id)
    requires id in rounds ==> !rounds[id].status.Completed?
    ensures |CompletedOfMission(rounds[id := r], m)|
         == |CompletedOfMission(rounds, m)| + (if r.missionId == m && r.status.Completed? then 1 else 0)
  {
    var before, after := CompletedOfMission(rounds, m), CompletedOfMission(rounds[id := r], m);
    if r.missionId == m && r.status.Completed? {
      assert after == before + {id};
    } else {
      assert after == before;
    }
  }

  lemma StepCounters(s: Sys, req: Request)
    requires Counters(s) && Legal(s, req)
    ensures Counters(Step(s, req))
  {
    match req
    case CreateRound(id, dto, userId, now) => CreateCounters(s, id, dto, userId, now);
    case Act(call, id, userId, now) => ActCounters(s, call, id, userId, now);
    case CreateMission(m, owner) => CreateMissionCounters(s, m, owner);
    case _ => QuietCounters(s, req);
  }

  /** The columns the counters depend on. */
  predicate SameColumns(s: Sys, s': Sys) {
    && s'.rounds.Keys == s.rounds.Keys
    && (forall id | id in s.rounds ::
          s'.rounds[id].missionId == s.rounds[id].missionId && s'.rounds[id].status == s.rounds[id].status)
    && s'.missions.Keys == s.missions.Keys
    && (forall m | m in s.missions ::
          && s'.missions[m].totalRounds == s.missions[m].totalRounds
          && s'.missions[m].completedRounds == s.missions[m].completedRounds)
  }

  lemma QuietColumns(s: Sys, req: Request)
    requires !req.CreateRound? && !req.Act? && !req.CreateMission?
    ensures SameColumns(s, Step(s, req))
  {
    match req
    case EscalateRound(id, trigger, now) => EscalateColumns(s, id, trigger, now);
    case ProcessEvent(i) => ProcessColumns(s, i);
    case ScoreTheRound(id, now) => ScoreColumns(s, id, now);
    case PatchRound(id, userId, patch) => UpdateColumns(s, id, userId, patch);
    case SetMissionStatus(m, status) => MissionStatusColumns(s, m, status);
    case _ =>
  }

  lemma UpdateColumns(s: Sys, id: Id, userId: Id, patch: Patch)
    ensures SameColumns(s, Update(s, id, userId, patch).0)
  {
  }

  lemma MissionStatusColumns(s: Sys, m: Id, status: MissionStatus)
    ensures SameColumns(s, Step(s, SetMissionStatus(m, status)))
  {
  }

  lemma EscalateColumns(s: Sys, id: Id, trigger: StateTrigger, now: Time)
    ensures SameColumns(s, Escalate(s, id, trigger, now).0)
  {
  }

  lemma ProcessColumns(s: Sys, i: nat)
    ensures SameColumns(s, Process(s, i).0)
  {
  }

  lemma ScoreColumns(s: Sys, id: Id, now: Time)
    ensures SameColumns(s, Scoring.ScoreRound(s, id, now).0)
  {
  }

  lemma QuietCounters(s: Sys, req: Request)
    requires Counters(s) && !req.CreateRound? && !req.Act? && !req.CreateMission?
    ensures Counters(Step(s, req))
  {
    QuietColumns(s, req);
    SameMissionsSameCounters(s, Step(s, req));
  }

  lemma CreateMissionCounters(s: Sys, m: Id, owner: Id)
    requires Counters(s) && m !in s.missions
    ensures Counters(Step(s, CreateMission(m, owner)))
  {
    assert RoundsOfMission(s.rounds, m) == {} == CompletedOfMission(s.rounds, m);
  }

  lemma CreateCounters(s: Sys, id: Id, dto: NewRound, userId: Id, now: Time)
    requires Counters(s) && id !in s.rounds
    ensures Counters(Create(s, id, dto, userId, now).0)
  {
    forall m | m in Create(s, id, dto, userId, now).0.missions
      ensures Tallied(Create(s, id, dto, userId, now).0.missions[m], Create(s, id, dto, userId, now).0.rounds, m)
    {
      CreateTallied(s, id, dto, userId, now, m);
    }
  }

  lemma CreateTallied(s: Sys, id: Id, dto: NewRound, userId: Id, now: Time, m: Id)
    requires id !in s.rounds && m in s.missions && Tallied(s.missions[m], s.rounds, m)
    ensures var s' := Create(s, id, dto, userId, now).0; m in s'.missions && Tallied(s'.missions[m], s'.rounds, m)
  {
    var (s', r) := Create(s, id, dto, userId, now);
    if r.Ok? {
      StoreRoundTotal(s.rounds, id, r.value, m);
      StoreRoundCompleted(s.rounds, id, r.value, m);
    }
  }

  lemma ActCounters(s: Sys, call: Call, id: Id, userId: Id, now: Time)
    requires Counters(s)
    ensures Counters(Lifecycle(s, call, id, userId, now).0)
  {
    ActMissions(s, call, id, userId, now);
    forall m | m in Lifecycle(s, call, id, userId, now).0.missions
      ensures var s' := Lifecycle(s, call, id, userId, now).0; Tallied(s'.missions[m], s'.rounds, m)
    {
      ActTallied(s, call, id, userId, now, m);
    }
  }

  lemma ActMissions(s: Sys, call: Call, id: Id, userId: Id, now: Time)
    requires Counters(s)
    ensures var s' := Lifecycle(s, call, id, userId, now).0;
            && s'.missions.Keys == s.missions.Keys
            && forall i | i in s'.rounds :: s'.rounds[i].missionId in s'.missions
  {
    if Lifecycle(s, call, id, userId, now).1.Ok? {
      EffectFacts(call, s.rounds[id], now);
    }
  }

  lemma ActTallied(s: Sys, call: Call, id: Id, userId: Id, now: Time, m: Id)
    requires m in s.missions && Tallied(s.missions[m], s.rounds, m)
    ensures var s' := Lifecycle(s, call, id, userId, now).0; m in s'.missions && Tallied(s'.missions[m], s'.rounds, m)
  {
    var (s', r) := Lifecycle(s, call, id, userId, now);
    if r.Ok? {
      EffectFacts(call, s.rounds[id], now);
      StoreRoundTotal(s.rounds, id, r.value, m);
      StoreRoundCompleted(s.rounds, id, r.value, m);
    }
  }

  /** A step that keeps each round's mission and status, and the mission counters, keeps the counts. */
  lemma SameMissionsSameCounters(s: Sys, s': Sys)
    requires Counters(s) && SameColumns(s, s')
    ensures Counters(s')
  {
    forall m | m in s'.missions
      ensures Tallied(s'.missions[m], s'.rounds, m)
    {
      SameSets(s, s', m);
      assert Tallied(s.missions[m], s.rounds, m);
    }
  }

  lemma SameSets(s: Sys, s': Sys, m: Id)
    requires SameColumns(s, s')
    ensures RoundsOfMission(s'.rounds, m) == RoundsOfMission(s.rounds, m)
    ensures CompletedOfMission(s'.rounds, m) == CompletedOfMission(s.rounds, m)
  {
  }

  /** Creating, acting and escalating log no distraction and no consequence. */
  lemma QuietLog(s: Sys, req: Request, id: Id)
    requires req.CreateRound? || req.Act? || req.EscalateRound?
    ensures var log' := Step(s, req).log;
            && Count(log', DistractionFor(id)) == Count(s.log, DistractionFor(id))
            && Count(log', ProcessedDistractionFor(id)) == Count(s.log, ProcessedDistractionFor(id))
            && Deltas(log', id) == Deltas(s.log, id)
  {
    match req
    case CreateRound(newId, dto, userId, now) =>
      StampedQuiet(s.log, userId, Some(newId), CREATION, now, id);
    case Act(call, i, userId, now) =>
      if Lifecycle(s, call, i, userId, now).1.Ok? {
        EffectFacts(call, s.rounds[i], now);
        StampedQuiet(s.log, userId, Some(i), EffectOf(call, s.rounds[i], now).emitted, now, id);
      }
    case EscalateRound(i, trigger, now) =>
      if i in s.rounds && s.rounds[i].operationalState.Operational? && Next(Operational, trigger).Some? {
        var moved := Changed(Operational, Next(Operational, trigger).value, trigger);
        StampedQuiet(s.log, s.rounds[i].userId, Some(i), moved, now, id);
      }
  }

  /** How a step may change the violation count of a round other than by processing. */
  predicate CountKept(s: Sys, s': Sys, id: Id) {
    id in s'.rounds ==>
      s'.rounds[id].stats.violationsCount == if id in s.rounds then s.rounds[id].stats.violationsCount else 0
  }

  /** Only creation adds a round, with no violations, and only processing changes a violation count. */
  lemma QuietStats(s: Sys, req: Request, id: Id)
    requires !req.ProcessEvent? && Legal(s, req)
    ensures CountKept(s, Step(s, req), id)
    ensures id in Step(s, req).rounds && id !in s.rounds ==> req.CreateRound? && req.id == id
  {
    if req.Act? && Lifecycle(s, req.call, req.id, req.userId, req.now).1.Ok? {
      EffectFacts(req.call, s.rounds[req.id], req.now);
    }
  }

  lemma StepViolations(s: Sys, req: Request)
    requires Violations(s) && Legal(s, req)
    ensures Violations(Step(s, req))
  {
    var s' := Step(s, req);
    forall id | id in s'.rounds
      ensures s'.rounds[id].stats.violationsCount == Count(s'.log, ProcessedDistractionFor(id))
    {
      if req.ProcessEvent? {
        ProcessCounts(s, req.index, id);
      } else {
        QuietStats(s, req, id);
        LogGrowth(s, req, id);
        if id !in s.rounds {
          NoSlice(s.log, id);
        }
      }
    }
  }

  lemma ProcessCounts(s: Sys, i: nat, id: Id)
    requires Violations(s) && id in s.rounds
    ensures var s' := Process(s, i).0;
            && id in s'.rounds
            && s'.rounds[id].stats.violationsCount == Count(s'.log, ProcessedDistractionFor(id))
  {
    if i < |s.log| && !s.log[i].isProcessed {
      MarkCounts(s.log, i, id);
    }
  }

  /** No processed distraction has been added; distraction events and distraction rows have grown together. */
  ghost predicate GrownAlike(s: Sys, s': Sys, id: Id) {
    && Count(s'.log, ProcessedDistractionFor(id)) == Count(s.log, ProcessedDistractionFor(id))
    && Count(s'.log, DistractionFor(id)) - Count(s.log, DistractionFor(id))
       == Count(s'.telemetry, DistractionRowFor(id)) - Count(s.telemetry, DistractionRowFor(id))
  }

  lemma IngestGrowth(s: Sys, userId: Id, dto: Dto, now: Time, id: Id)
    ensures GrownAlike(s, Ingest(s, userId, dto, now).0, id)
  {
    var rows := Inserted(s, userId, dto, now);
    FanOutDistractions(rows, id);
    FanOutUnprocessed(rows, id);
    CountConcat(s.log, FanOut(rows), ProcessedDistractionFor(id));
    CountConcat(s.log, FanOut(rows), DistractionFor(id));
    CountConcat(s.telemetry, rows, DistractionRowFor(id));
  }

  lemma IssueGrowth(s: Sys, userId: Id, roundId: Option<Id>, charge: Charge, metadata: map<string, string>, now: Time,
                    id: Id)
    ensures GrownAlike(s, Issue(s, userId, roundId, charge, metadata, now), id)
  {
    var e := Event(userId, roundId, ConsequenceIssued(|s.consequences|, charge), now, false);
    IssueLogs(s, userId, roundId, charge, metadata, now, userId);
    CountSnoc(s.log, e, ProcessedDistractionFor(id));
    CountSnoc(s.log, e, DistractionFor(id));
  }

  lemma LogGrowth(s: Sys, req: Request, id: Id)
    requires !req.ProcessEvent?
    ensures GrownAlike(s, Step(s, req), id)
  {
    match req
    case IngestBatch(userId, dto, now) => IngestGrowth(s, userId, dto, now, id);
    case IssueConsequence(userId, roundId, charge, metadata, now) =>
      IssueGrowth(s, userId, roundId, charge, metadata, now, id);
    case CreateRound(_, _, _, _) => QuietLog(s, req, id);
    case Act(_, _, _, _) => QuietLog(s, req, id);
    case EscalateRound(_, _, _) => QuietLog(s, req, id);
    case _ =>
  }

  lemma ProcessTagged(s: Sys, i: nat, id: Id)
    requires TaggedFor(s, id)
    ensures TaggedFor(Process(s, i).0, id)
  {
    if i < |s.log| && !s.log[i].isProcessed {
      MarkCounts(s.log, i, id);
    }
  }

  lemma StepTagged(s: Sys, req: Request)
    requires Tagged(s)
    ensures Tagged(Step(s, req))
  {
    forall id: Id | true
      ensures TaggedFor(Step(s, req), id)
    {
      assert TaggedFor(s, id);
      if req.ProcessEvent? {
        ProcessTagged(s, req.index, id);
      } else {
        LogGrowth(s, req, id);
      }
    }
  }

  lemma IngestDeltas(s: Sys, userId: Id, dto: Dto, now: Time, u: Id)
    ensures Deltas(Ingest(s, userId, dto, now).0.log, u) == Deltas(s.log, u)
  {
    var es := FanOut(Inserted(s, userId, dto, now));
    FanOutIsBehavior(Inserted(s, userId, dto, now));
    NoDeltas(es, u);
    DeltasConcat(s.log, es, u);
    assert Deltas(s.log, u) + [] == Deltas(s.log, u);
  }

  lemma StepScores(s: Sys, req: Request)
    requires Scores(s) && Legal(s, req)
    ensures Scores(Step(s, req))
  {
    forall u | u in Step(s, req).users
      ensures Step(s, req).users[u] == Saturate(0, Deltas(Step(s, req).log, u))
    {
      StepScore(s, req, u);
    }
  }

  lemma RegisterScore(s: Sys, v: Id, u: Id)
    requires Legal(s, RegisterUser(v)) && (u in s.users || u == v)
    requires u in s.users ==> s.users[u] == Saturate(0, Deltas(s.log, u))
    ensures s.users[v := 0][u] == Saturate(0, Deltas(s.log, u))
  {
    if u == v {
      NoDeltas(s.log, u);
    }
  }

  lemma StepScore(s: Sys, req: Request, u: Id)
    requires Legal(s, req) && u in Step(s, req).users
    requires u in s.users ==> s.users[u] == Saturate(0, Deltas(s.log, u))
    ensures Step(s, req).users[u] == Saturate(0, Deltas(Step(s, req).log, u))
  {
    match req
    case RegisterUser(v) => RegisterScore(s, v, u);
    case IngestBatch(userId, dto, now) => IngestDeltas(s, userId, dto, now, u);
    case ProcessEvent(i) => ProcessDeltas(s, i, u);
    case IssueConsequence(userId, roundId, charge, metadata, now) =>
      IssueKeepsScore(s, userId, roundId, charge, metadata, now, u);
    case CreateRound(_, _, _, _) => QuietLog(s, req, u);
    case Act(_, _, _, _) => QuietLog(s, req, u);
    case EscalateRound(_, _, _) => QuietLog(s, req, u);
    case _ =>
  }

  lemma ProcessDeltas(s: Sys, i: nat, u: Id)
    ensures Process(s, i).0.users == s.users
    ensures Deltas(Process(s, i).0.log, u) == Deltas(s.log, u)
  {
    if i < |s.log| {
      DeltasMark(s.log, i, u);
    }
  }

  lemma {:induction false} RowsJudged(es: seq<Input>, userId: Id, deviceId: string, now: Time)
    ensures forall row | row in EventRows(es, userId, deviceId, now) :: row.isProductive == IsProductive(row.eventType)
  {
    if es != [] {
      RowsJudged(es[..|es| - 1], userId, deviceId, now);
    }
  }

  lemma {:induction false} CandidatesJudged(batches: seq<Batch>, userId: Id, deviceId: string, now: Time)
    ensures forall row | row in Candidates(batches, userId, deviceId, now) ::
              row.isProductive == IsProductive(row.eventType)
  {
    if batches != [] {
      CandidatesJudged(batches[..|batches| - 1], userId, deviceId, now);
      RowsJudged(batches[|batches| - 1].events, userId, deviceId, now);
    }
  }

  lemma StepJudged(s: Sys, req: Request)
    requires Judged(s)
    ensures Judged(Step(s, req))
  {
    if req.IngestBatch? {
      var rows := Candidates(req.dto.batches, req.userId, req.dto.deviceId, req.now);
      CandidatesJudged(req.dto.batches, req.userId, req.dto.deviceId, req.now);
      DedupRefinesFullLookup(s.telemetry, req.dto.deviceId, rows);
      forall row | row in Inserted(s, req.userId, req.dto, req.now)
        ensures row.isProductive == IsProductive(row.eventType)
      {
        WithoutMeans(rows, Keys(s.telemetry), row);
      }
    }
  }

  lemma WorthUnproductive(row: TelemetryRow)
    requires row.isProductive == IsProductive(row.eventType)
    ensures Scoring.Worth(row).productiveAppEvents == 0
  {
  }

  /** Ingest never marks an app switch productive, so on stored telemetry scoring never sees a productive app. */
  lemma {:induction false} NoProductiveApps(rows: seq<TelemetryRow>)
    requires forall i | 0 <= i < |rows| :: rows[i].isProductive == IsProductive(rows[i].eventType)
    ensures Scoring.Aggregate(rows).productiveAppEvents == 0
  {
    if rows != [] {
      NoProductiveApps(rows[..|rows| - 1]);
      WorthUnproductive(rows[|rows| - 1]);
    }
  }

  lemma {:induction false} RowsOfStored(telemetry: seq<TelemetryRow>, id: Id)
    ensures forall i | 0 <= i < |Scoring.RowsOf(telemetry, id)| :: Scoring.RowsOf(telemetry, id)[i] in telemetry
  {
    if telemetry != [] {
      RowsOfStored(telemetry[..|telemetry| - 1], id);
    }
  }

  lemma StepRecorded(s: Sys, req: Request)
    requires Recorded(s) && Judged(s)
    ensures Recorded(Step(s, req))
  {
    if req.ScoreTheRound? && req.id in s.rounds {
      RowsOfStored(s.telemetry, req.id);
      NoProductiveApps(Scoring.RowsOf(s.telemetry, req.id));
    } else {
      assert Step(s, req).records == s.records;
    }
  }

  /** A log that grows by lifecycle events only, or not at all, while the consequences stay. */
  lemma LifecycleLedgered(s: Sys, s': Sys, userId: Id, roundId: Option<Id>, kinds: seq<EventKind>, now: Time)
    requires Ledgered(s) && s'.consequences == s.consequences && s'.log == s.log + Stamped(userId, roundId, kinds, now)
    requires forall i | 0 <= i < |kinds| :: Lifecyclic(kinds[i])
    ensures Ledgered(s')
  {
    StampedAt(userId, roundId, kinds, now);
    IssuingsConcat(s.log, Stamped(userId, roundId, kinds, now));
  }

  lemma CreateLedgered(s: Sys, id: Id, dto: NewRound, userId: Id, now: Time)
    requires Ledgered(s)
    ensures Ledgered(Create(s, id, dto, userId, now).0)
  {
    var (s', r) := Create(s, id, dto, userId, now);
    if r.Ok? {
      LifecycleLedgered(s, s', userId, Some(id), CREATION, now);
    }
  }

  lemma ActLedgered(s: Sys, call: Call, id: Id, userId: Id, now: Time)
    requires Ledgered(s)
    ensures Ledgered(Lifecycle(s, call, id, userId, now).0)
  {
    var (s', r) := Lifecycle(s, call, id, userId, now);
    if r.Ok? {
      EffectFacts(call, s.rounds[id], now);
      LifecycleLedgered(s, s', userId, Some(id), EffectOf(call, s.rounds[id], now).emitted, now);
    }
  }

  lemma EscalateLedgered(s: Sys, id: Id, trigger: StateTrigger, now: Time)
    requires Ledgered(s)
    ensures Ledgered(Escalate(s, id, trigger, now).0)
  {
    if id in s.rounds && s.rounds[id].operationalState.Operational? && Next(Operational, trigger).Some? {
      var moved := Changed(Operational, Next(Operational, trigger).value, trigger);
      LifecycleLedgered(s, Escalate(s, id, trigger, now).0, s.rounds[id].userId, Some(id), moved, now);
    }
  }

  lemma IngestLedgered(s: Sys, userId: Id, dto: Dto, now: Time)
    requires Ledgered(s)
    ensures Ledgered(Ingest(s, userId, dto, now).0)
  {
    FanOutIsBehavior(Inserted(s, userId, dto, now));
    IssuingsConcat(s.log, FanOut(Inserted(s, userId, dto, now)));
  }

  lemma ProcessLedgered(s: Sys, i: nat)
    requires Ledgered(s)
    ensures Ledgered(Process(s, i).0)
  {
    if i < |s.log| {
      IssuingsMark(s.log, i);
    }
  }

  lemma StepLedgered(s: Sys, req: Request)
    requires Ledgered(s)
    ensures Ledgered(Step(s, req))
  {
    match req
    case CreateRound(id, dto, userId, now) => CreateLedgered(s, id, dto, userId, now);
    case Act(call, id, userId, now) => ActLedgered(s, call, id, userId, now);
    case EscalateRound(id, trigger, now) => EscalateLedgered(s, id, trigger, now);
    case IngestBatch(userId, dto, now) => IngestLedgered(s, userId, dto, now);
    case ProcessEvent(i) => ProcessLedgered(s, i);
    case IssueConsequence(userId, roundId, charge, metadata, now) =>
      IssueKeepsEntries(s, userId, roundId, charge, metadata, now);
    case _ =>
  }

  // ----- every run -----

  lemma StepKeepsInv(s: Sys, req: Request)
    requires Inv(s) && Legal(s, req)
    ensures Inv(Step(s, req))
  {
    StepHistories(s, req);
    StepCounters(s, req);
    StepViolations(s, req);
    StepTagged(s, req);
    StepScores(s, req);
    StepJudged(s, req);
    StepRecorded(s, req);
    StepLedgered(s, req);
  }

  lemma {:induction false} RunKeepsInv(s: Sys, reqs: seq<Request>)
    requires Inv(s) && LegalRun(s, reqs)
    ensures Inv(Run(s, reqs))
    decreases |reqs|
  {
    if reqs != [] {
      StepKeepsInv(s, reqs[0]);
      RunKeepsInv(Step(s, reqs[0]), reqs[1..]);
    }
  }

  // ----- what that means -----

  lemma ReachableTold(reqs: seq<Request>, id: Id)
    requires LegalRun(EMPTY, reqs) && id in Run(EMPTY, reqs).rounds
    ensures Told(Run(EMPTY, reqs).rounds[id], Slice(Run(EMPTY, reqs).log, id))
  {
    RunKeepsInv(EMPTY, reqs);
    assert Rebuilt(Run(EMPTY, reqs), id);
  }

  /** The log is the source of truth: folding a round's slice rebuilds its stored status and state,
      and its transitions form an unbroken chain from DORMANT to the stored state. */
  lemma ReplayRebuilds(reqs: seq<Request>, id: Id)
    requires LegalRun(EMPTY, reqs)
    ensures var s := Run(EMPTY, reqs);
            id in s.rounds ==>
              var w := Slice(s.log, id);
              && Replay(w) == View(Some(s.rounds[id].status), s.rounds[id].operationalState)
              && Unbroken(Transitions(w))
              && ChainEnd(Transitions(w)) == s.rounds[id].operationalState
  {
    if id in Run(EMPTY, reqs).rounds {
      ReachableTold(reqs, id);
      ChainEndsInState(Slice(Run(EMPTY, reqs).log, id));
    }
  }

  /** Each round's lifecycle events form a prefix of a life, and its columns agree with each other. */
  lemma LifecycleLanguage(reqs: seq<Request>, id: Id)
    requires LegalRun(EMPTY, reqs)
    ensures var s := Run(EMPTY, reqs);
            id in s.rounds ==> PrefixOfLife(Letters(Slice(s.log, id))) && Joint(s.rounds[id])
  {
    var s := Run(EMPTY, reqs);
    if id in s.rounds {
      ReachableTold(reqs, id);
      SpelledIsPrefix(s.rounds[id].status, Letters(Slice(s.log, id)));
    }
  }

  /** A call that throws changes nothing, and which calls throw is decided by owner and status. */
  lemma RejectedChangesNothing(reqs: seq<Request>, call: Call, id: Id, userId: Id, now: Time)
    requires LegalRun(EMPTY, reqs)
    ensures var s := Run(EMPTY, reqs);
            var (s', r) := Lifecycle(s, call, id, userId, now);
            && (r.Err? ==> s' == s)
            && (r == Err(NotFound) <==> !(id in s.rounds && s.rounds[id].userId == userId))
            && (r.Ok? <==>
                  && id in s.rounds && s.rounds[id].userId == userId
                  && match call
                     case Start => s.rounds[id].status.Scheduled? || s.rounds[id].status.Active?
                     case Pause => s.rounds[id].status.Active?
                     case Resume => s.rounds[id].status.Paused?
                     case Complete => s.rounds[id].status.Active? || s.rounds[id].status.Paused?
                     case Fail(_) => s.rounds[id].status.Active? || s.rounds[id].status.Paused?
                     case Abandon(_) => !Final(s.rounds[id].status))
  {
    var s := Run(EMPTY, reqs);
    if id in s.rounds {
      ReachableTold(reqs, id);
      Acceptance(call, s.rounds[id], now);
    }
  }

  lemma AcceptedExactly(s: Sys, call: Call, id: Id, userId: Id, now: Time)
    requires Counters(s) && Lifecycle(s, call, id, userId, now).1.Ok?
    ensures var Accept(r', kinds) := EffectOf(call, s.rounds[id], now);
            var m := s.rounds[id].missionId;
            && m in s.missions
            && Lifecycle(s, call, id, userId, now)
               == (s.(rounds := s.rounds[id := r'],
                      missions := if call != Complete then s.missions else
                        s.missions[m := s.missions[m].(completedRounds := s.missions[m].completedRounds + 1)],
                      log := s.log + seq(|kinds|, i requires 0 <= i < |kinds| =>
                                                    Event(userId, Some(id), kinds[i], now, false))),
                   Ok(r'))
  {
    EffectFacts(call, s.rounds[id], now);
    StampedAt(userId, Some(id), EffectOf(call, s.rounds[id], now).emitted, now);
  }

  lemma ReachableCounters(reqs: seq<Request>)
    requires LegalRun(EMPTY, reqs)
    ensures Counters(Run(EMPTY, reqs))
  {
    RunKeepsInv(EMPTY, reqs);
  }

  /** What an accepted call leaves alone, and what it adds to the log: events for its round in its owner's name, with
      the time of the call. The mission's counter moves by completing alone. */
  lemma AcceptedCall(reqs: seq<Request>, call: Call, id: Id, userId: Id, now: Time)
    requires LegalRun(EMPTY, reqs) && Lifecycle(Run(EMPTY, reqs), call, id, userId, now).1.Ok?
    ensures var s := Run(EMPTY, reqs);
            var Accept(r', kinds) := EffectOf(call, s.rounds[id], now);
            var m := s.rounds[id].missionId;
            && m in s.missions
            && Lifecycle(s, call, id, userId, now)
               == (s.(rounds := s.rounds[id := r'],
                      missions := if call != Complete then s.missions else
                        s.missions[m := s.missions[m].(completedRounds := s.missions[m].completedRounds + 1)],
                      log := s.log + seq(|kinds|, i requires 0 <= i < |kinds| =>
                                                    Event(userId, Some(id), kinds[i], now, false))),
                   Ok(r'))
  {
    ReachableCounters(reqs);
    AcceptedExactly(Run(EMPTY, reqs), call, id, userId, now);
  }

  // ----- where rounds come from -----

  /** A creation under a fresh id succeeds if and only if both dates parse, the end is after the start, and the mission
      is the caller's and neither completed nor archived. What is wrong decides the error, and nothing changes then.
      Otherwise the new row is the one asked for, with nothing recorded yet, its history is the two events of
      its creation, and its mission has one more round. */
  lemma CreationExact(s: Sys, id: Id, dto: NewRound, userId: Id, now: Time)
    requires Legal(s, CreateRound(id, dto, userId, now))
    ensures var (s', r) := Create(s, id, dto, userId, now);
            var dated := dto.start != None && dto.end != None && dto.start.value < dto.end.value;
            var owned := dto.missionId in s.missions && s.missions[dto.missionId].userId == userId;
            && (r.Ok? <==> dated && owned && s.missions[dto.missionId].status in {Draft, MissionActive})
            && (r == Err(NotFound) <==> dated && !owned)
            && (r.Err? ==> s' == s)
            && (r.Ok? ==>
                  var m := s.missions[dto.missionId];
                  && r.value == Round(userId, dto.missionId, Scheduled, Monitoring, dto.timePressure,
                                      dto.start.value, dto.end.value, None, None,
                                      Stats(0.0, 0.0, 0, 0, 0, 0, None), None)
                  && s' == s.(rounds := s.rounds[id := r.value],
                              missions := s.missions[dto.missionId := m.(totalRounds := m.totalRounds + 1)],
                              log := s.log + [
                                Event(userId, Some(id), StateTransition(Dormant, Monitoring, OnScheduled), now, false),
                                Event(userId, Some(id), RoundScheduled, now, false)]))
  {
    StampedAt(userId, Some(id), CREATION, now);
  }

  /** Request k of a run schedules round `id`: it asks for a period that has a length, on a mission that at that moment
      is the caller's and open. */
  predicate Schedules(reqs: seq<Request>, k: nat, id: Id)
    requires k < |reqs|
  {
    && reqs[k].CreateRound? && reqs[k].id == id
    && var CreateRound(_, dto, userId, _) := reqs[k];
    && dto.start != None && dto.end != None && dto.start.value < dto.end.value
    && var missions := Run(EMPTY, reqs[..k]).missions;
    && dto.missionId in missions && missions[dto.missionId].userId == userId
    && missions[dto.missionId].status in {Draft, MissionActive}
  }

  /** The row carries the plan that was asked for. */
  predicate Planned(r: Round, dto: NewRound, userId: Id) {
    && r.userId == userId && r.missionId == dto.missionId && r.timePressure == dto.timePressure
    && dto.start == Some(r.scheduledStart) && dto.end == Some(r.scheduledEnd)
  }

  lemma PlanStep(s: Sys, req: Request, id: Id)
    requires Legal(s, req) && id in s.rounds
    ensures var s' := Step(s, req);
            && id in s'.rounds
            && s'.rounds[id].userId == s.rounds[id].userId && s'.rounds[id].missionId == s.rounds[id].missionId
            && s'.rounds[id].timePressure == s.rounds[id].timePressure
            && s'.rounds[id].scheduledStart == s.rounds[id].scheduledStart
            && s'.rounds[id].scheduledEnd == s.rounds[id].scheduledEnd
  {
    match req
    case PatchRound(i, userId, patch) => PatchStep(s, i, userId, patch, id);
    case ProcessEvent(i) => ProcessRow(s, i, id);
    case ScoreTheRound(i, now) => ScoreRow(s, i, now, id);
    case CreateRound(i, dto, userId, now) => CreateFinal(s, i, dto, userId, now, id);
    case _ =>
  }

  lemma OnlyCreationAdds(s: Sys, req: Request, id: Id)
    requires Legal(s, req) && id in Step(s, req).rounds && id !in s.rounds
    ensures req.CreateRound? && req.id == id
  {
    if req.ProcessEvent? {
      ProcessColumns(s, req.index);
    } else {
      QuietStats(s, req, id);
    }
  }

  /** A new round appears exactly when the last request schedules it. */
  lemma FirstScheduled(reqs: seq<Request>, n: nat, id: Id)
    requires n < |reqs|
    requires Legal(Run(EMPTY, reqs[..n]), reqs[n]) && id !in Run(EMPTY, reqs[..n]).rounds
    ensures var s' := Step(Run(EMPTY, reqs[..n]), reqs[n]);
            && (id in s'.rounds <==> Schedules(reqs, n, id))
            && (id in s'.rounds ==> Planned(s'.rounds[id], reqs[n].newRound, reqs[n].userId))
  {
    var s := Run(EMPTY, reqs[..n]);
    if reqs[n].CreateRound? && reqs[n].id == id {
      CreationExact(s, id, reqs[n].newRound, reqs[n].userId, reqs[n].now);
    } else if id in Step(s, reqs[n]).rounds {
      OnlyCreationAdds(s, reqs[n], id);
    }
  }

  lemma {:induction false} LegalSplit(s: Sys, reqs: seq<Request>, k: nat)
    requires LegalRun(s, reqs) && k < |reqs|
    ensures LegalRun(s, reqs[..k]) && Legal(Run(s, reqs[..k]), reqs[k])
    decreases |reqs|
  {
    if k > 0 {
      LegalSplit(Step(s, reqs[0]), reqs[1..], k - 1);
      assert reqs[1..][..k - 1] == reqs[..k][1..];
    }
  }

  /** One more request, seen from the end of the run. */
  lemma RunSnoc(reqs: seq<Request>)
    requires LegalRun(EMPTY, reqs) && reqs != []
    ensures var n := |reqs| - 1;
            && LegalRun(EMPTY, reqs[..n]) && Legal(Run(EMPTY, reqs[..n]), reqs[n])
            && Run(EMPTY, reqs) == Step(Run(EMPTY, reqs[..n]), reqs[n])
  {
    var n := |reqs| - 1;
    LegalSplit(EMPTY, reqs, n);
    RunFrom(reqs, n, |reqs|);
    assert reqs[..|reqs|] == reqs && reqs[n + 1..|reqs|] == [];
  }

  /** Every stored round was scheduled by a request of the run and still carries its plan, in particular a period that
      ends after it starts; and whatever a run schedules is stored from then on. */
  lemma {:induction false} PlanFromCreation(reqs: seq<Request>, id: Id)
    requires LegalRun(EMPTY, reqs)
    ensures var s := Run(EMPTY, reqs);
            && (id in s.rounds <==> exists k :: 0 <= k < |reqs| && Schedules(reqs, k, id))
            && (forall k | 0 <= k < |reqs| && Schedules(reqs, k, id) ::
                  id in s.rounds && Planned(s.rounds[id], reqs[k].newRound, reqs[k].userId))
            && (id in s.rounds ==> s.rounds[id].scheduledStart < s.rounds[id].scheduledEnd)
    decreases |reqs|
  {
    if reqs != [] {
      var n := |reqs| - 1;
      RunSnoc(reqs);
      PlanFromCreation(reqs[..n], id);
      var s := Run(EMPTY, reqs[..n]);
      forall k | 0 <= k < n
        ensures Schedules(reqs, k, id) <==> Schedules(reqs[..n], k, id)
      {
        assert reqs[..n][..k] == reqs[..k];
      }
      if id in s.rounds {
        PlanStep(s, reqs[n], id);
      } else {
        FirstScheduled(reqs, n, id);
      }
    }
  }

  /** The request patches this finalised round's failure reason. */
  predicate Repatches(r: Round, req: Request, id: Id) {
    req.PatchRound? && req.id == id && AcceptsPatch(r, req.userId, req.patch) && !req.patch.failureReason.Absent?
  }

  /** The failure reason after some requests: the one last patched in, or the one there was. */
  function LastReason(r: Round, reason: Option<string>, reqs: seq<Request>, id: Id): Option<string>
    decreases |reqs|
  {
    if reqs == [] then reason
    else
      LastReason(r, if Repatches(r, reqs[0], id) then PatchedReason(r, reqs[0].patch) else reason, reqs[1..], id)
  }

  lemma {:induction false} LastReasonSame(r: Round, r': Round, reason: Option<string>, reqs: seq<Request>, id: Id)
    requires r'.userId == r.userId && r'.status == r.status
    ensures LastReason(r', reason, reqs, id) == LastReason(r, reason, reqs, id)
    decreases |reqs|
  {
    if reqs != [] {
      var next := if Repatches(r, reqs[0], id) then PatchedReason(r, reqs[0].patch) else reason;
      LastReasonSame(r, r', next, reqs[1..], id);
    }
  }

  lemma {:induction false} NeverPatched(r: Round, reason: Option<string>, reqs: seq<Request>, id: Id)
    requires forall i | 0 <= i < |reqs| :: !Repatches(r, reqs[i], id)
    ensures LastReason(r, reason, reqs, id) == reason
    decreases |reqs|
  {
    if reqs != [] {
      NeverPatched(r, reason, reqs[1..], id);
    }
  }

  /** A finalised round is final: whatever is requested afterwards, its row keeps everything but its stats and its
      failure reason, and the reason is the one last patched in, if any was. */
  lemma {:induction false} FinalForGood(s: Sys, reqs: seq<Request>, id: Id)
    requires Inv(s) && LegalRun(s, reqs) && id in s.rounds && Final(s.rounds[id].status)
    ensures var s', r := Run(s, reqs), s.rounds[id];
            && id in s'.rounds
            && s'.rounds[id] == r.(stats := s'.rounds[id].stats,
                                   failureReason := LastReason(r, r.failureReason, reqs, id))
            && ((forall i | 0 <= i < |reqs| :: !Repatches(r, reqs[i], id)) ==>
                  s'.rounds[id].failureReason == r.failureReason)
    decreases |reqs|
  {
    var r := s.rounds[id];
    if forall i | 0 <= i < |reqs| :: !Repatches(r, reqs[i], id) {
      NeverPatched(r, r.failureReason, reqs, id);
    }
    if reqs != [] {
      assert Rebuilt(s, id);
      FinalStep(s, reqs[0], id);
      StepKeepsInv(s, reqs[0]);
      var r1 := Step(s, reqs[0]).rounds[id];
      FinalForGood(Step(s, reqs[0]), reqs[1..], id);
      LastReasonSame(r, r1, r1.failureReason, reqs[1..], id);
    }
  }

  lemma FinalStep(s: Sys, req: Request, id: Id)
    requires Legal(s, req) && id in s.rounds && Final(s.rounds[id].status) && Joint(s.rounds[id])
    ensures var s', r := Step(s, req), s.rounds[id];
            && id in s'.rounds
            && s'.rounds[id] == r.(stats := s'.rounds[id].stats,
                                   failureReason := if Repatches(r, req, id)
                                                    then PatchedReason(r, req.patch) else r.failureReason)
  {
    match req
    case Act(call, i, userId, now) => ActFinal(s, call, i, userId, now, id);
    case PatchRound(i, userId, patch) => PatchStep(s, i, userId, patch, id);
    case EscalateRound(i, trigger, now) => EscalateFinal(s, i, trigger, now, id);
    case ProcessEvent(i) => ProcessRow(s, i, id);
    case ScoreTheRound(i, now) => ScoreRow(s, i, now, id);
    case CreateRound(i, dto, userId, now) => CreateFinal(s, i, dto, userId, now, id);
    case _ =>
  }

  lemma ActFinal(s: Sys, call: Call, i: Id, userId: Id, now: Time, id: Id)
    requires id in s.rounds && Final(s.rounds[id].status) && Joint(s.rounds[id])
    ensures var s' := Lifecycle(s, call, i, userId, now).0; id in s'.rounds && s'.rounds[id] == s.rounds[id]
  {
    if i == id {
      Acceptance(call, s.rounds[id], now);
    }
  }

  lemma CreateFinal(s: Sys, i: Id, dto: NewRound, userId: Id, now: Time, id: Id)
    requires id in s.rounds && i !in s.rounds
    ensures var s' := Create(s, i, dto, userId, now).0; id in s'.rounds && s'.rounds[id] == s.rounds[id]
  {
  }

  lemma PatchStep(s: Sys, i: Id, userId: Id, patch: Patch, id: Id)
    requires id in s.rounds
    ensures var s', r := Update(s, i, userId, patch).0, s.rounds[id];
            && id in s'.rounds
            && s'.rounds[id] == if i == id && AcceptsPatch(r, userId, patch)
                                then r.(failureReason := PatchedReason(r, patch)) else r
  {
  }

  lemma EscalateFinal(s: Sys, i: Id, trigger: StateTrigger, now: Time, id: Id)
    requires id in s.rounds && Final(s.rounds[id].status) && Joint(s.rounds[id])
    ensures var s' := Escalate(s, i, trigger, now).0; id in s'.rounds && s'.rounds[id] == s.rounds[id]
  {
  }

  /** The times on a round are written once: the start when it is first started, the end when it is
      finalised, each with the time of that call. */
  lemma TimesWrittenOnce(reqs: seq<Request>, call: Call, id: Id, userId: Id, now: Time)
    requires LegalRun(EMPTY, reqs) && id in Run(EMPTY, reqs).rounds
    ensures var s := Run(EMPTY, reqs);
            var r, r' := s.rounds[id], Lifecycle(s, call, id, userId, now).0.rounds[id];
            && r'.actualStart == (if r.status.Scheduled? && r'.status.Active? then Some(now) else r.actualStart)
            && r'.actualEnd == (if !Final(r.status) && Final(r'.status) then Some(now) else r.actualEnd)
  {
    var s := Run(EMPTY, reqs);
    ReachableTold(reqs, id);
    if Lifecycle(s, call, id, userId, now).1.Ok? {
      EffectTimes(call, s.rounds[id], now);
    }
  }

  lemma EffectTimes(call: Call, r: Round, now: Time)
    requires Joint(r) && EffectOf(call, r, now).Accept?
    ensures var r' := EffectOf(call, r, now).round;
            && r'.actualStart == (if r.status.Scheduled? && r'.status.Active? then Some(now) else r.actualStart)
            && r'.actualEnd == (if !Final(r.status) && Final(r'.status) then Some(now) else r.actualEnd)
  {
  }

  lemma MissionCounters(reqs: seq<Request>, m: Id)
    requires LegalRun(EMPTY, reqs)
    ensures var s := Run(EMPTY, reqs);
            m in s.missions ==>
              && s.missions[m].totalRounds == |RoundsOfMission(s.rounds, m)|
              && s.missions[m].completedRounds == |CompletedOfMission(s.rounds, m)|
              && s.missions[m].completedRounds <= s.missions[m].totalRounds
  {
    RunKeepsInv(EMPTY, reqs);
    var s := Run(EMPTY, reqs);
    SubsetSize(CompletedOfMission(s.rounds, m), RoundsOfMission(s.rounds, m));
  }

  lemma SubsetSize(a: set<Id>, b: set<Id>)
    requires a <= b
    ensures |a| <= |b|
  {
    assert b == a + (b - a);
  }

  /** The places in the log of a round's distraction events. */
  function Distractions(log: seq<Event>, id: Id): set<int> {
    set j | 0 <= j < |log| && log[j].kind == Behavior(DistractionDetected) && log[j].roundId == Some(id)
  }

  /** The places in the log of a round's processed distraction events. */
  function Processed(log: seq<Event>, id: Id): set<int> {
    set j | j in Distractions(log, id) && log[j].isProcessed
  }

  /** The places of its distraction rows in the telemetry. */
  function DistractionRows(telemetry: seq<TelemetryRow>, id: Id): set<int> {
    set k | 0 <= k < |telemetry| && telemetry[k].eventType == DistractionDetected && telemetry[k].roundId == Some(id)
  }

  lemma CountedPlaces(s: Sys, id: Id)
    ensures Count(s.log, ProcessedDistractionFor(id)) == |Processed(s.log, id)|
    ensures Count(s.log, DistractionFor(id)) == |Distractions(s.log, id)|
    ensures Count(s.telemetry, DistractionRowFor(id)) == |DistractionRows(s.telemetry, id)|
  {
    CountIsSize(s.log, ProcessedDistractionFor(id), Processed(s.log, id));
    CountIsSize(s.log, DistractionFor(id), Distractions(s.log, id));
    CountIsSize(s.telemetry, DistractionRowFor(id), DistractionRows(s.telemetry, id));
  }

  lemma ReachableViolations(reqs: seq<Request>, id: Id)
    requires LegalRun(EMPTY, reqs)
    ensures Violations(Run(EMPTY, reqs)) && TaggedFor(Run(EMPTY, reqs), id)
  {
    RunKeepsInv(EMPTY, reqs);
  }

  /** A round's violation count is the number of its distraction events processed so far; once all
      are processed it is the number of distraction rows ever inserted for the round. */
  lemma ViolationsCounted(reqs: seq<Request>, id: Id)
    requires LegalRun(EMPTY, reqs)
    ensures var s := Run(EMPTY, reqs);
            id in s.rounds ==>
              && s.rounds[id].stats.violationsCount == |Processed(s.log, id)|
              && |Distractions(s.log, id)| == |DistractionRows(s.telemetry, id)|
              && ((forall j | j in Distractions(s.log, id) :: s.log[j].isProcessed) ==>
                    s.rounds[id].stats.violationsCount == |DistractionRows(s.telemetry, id)|)
  {
    var s := Run(EMPTY, reqs);
    ReachableViolations(reqs, id);
    CountedPlaces(s, id);
    if forall j | j in Distractions(s.log, id) :: s.log[j].isProcessed {
      assert Processed(s.log, id) == Distractions(s.log, id);
    }
  }

  /** Processing an event calls for escalation if and only if it is an unprocessed distraction of a stored OPERATIONAL
      round of which a distraction has been processed before. */
  lemma EscalatesFromTheSecond(reqs: seq<Request>, i: nat, id: Id, trigger: StateTrigger)
    requires LegalRun(EMPTY, reqs)
    ensures var s := Run(EMPTY, reqs);
            Escalation(id, trigger) in Process(s, i).1 <==>
              && trigger == OnViolationsThreshold
              && i < |s.log| && !s.log[i].isProcessed
              && s.log[i].kind == Behavior(DistractionDetected) && s.log[i].roundId == Some(id)
              && id in s.rounds && s.rounds[id].operationalState == Operational
              && Processed(s.log, id) != {}
  {
    var s := Run(EMPTY, reqs);
    ReachableViolations(reqs, id);
    if i < |s.log| && !s.log[i].isProcessed {
      SignalsMean(s, i);
    }
    CountedPlaces(s, id);
  }

  lemma ReachableScore(reqs: seq<Request>, u: Id)
    requires LegalRun(EMPTY, reqs) && u in Run(EMPTY, reqs).users
    ensures Run(EMPTY, reqs).users[u] == Saturate(0, Deltas(Run(EMPTY, reqs).log, u))
  {
    RunKeepsInv(EMPTY, reqs);
  }

  /** A user's score is the plain sum of their logged deltas, lifted by how far it ever fell below zero. */
  lemma ReputationFromLog(reqs: seq<Request>, u: Id)
    requires LegalRun(EMPTY, reqs)
    ensures var s := Run(EMPTY, reqs);
            u in s.users ==>
              var ds := Deltas(s.log, u);
              && s.users[u] == Saturate(0, ds) == Sum(0, ds) + Max0(-Lowest(0, ds))
              && s.users[u] >= 0 && s.users[u] >= Sum(0, ds)
  {
    if u in Run(EMPTY, reqs).users {
      ReachableScore(reqs, u);
      ClosedForm(0, Deltas(Run(EMPTY, reqs).log, u));
    }
  }

  /** The table of consequences and the log tell the same, row by row and in order; so a score is
      the saturating fold of the user's stored consequences too. */
  lemma ConsequencesInLog(reqs: seq<Request>, u: Id)
    requires LegalRun(EMPTY, reqs)
    ensures var s := Run(EMPTY, reqs);
            && Issuings(s.log) == Entries(s.consequences)
            && (u in s.users ==> s.users[u] == Saturate(0, EntryDeltas(Entries(s.consequences), u)))
  {
    ReachableLedgered(reqs);
    if u in Run(EMPTY, reqs).users {
      ReachableScore(reqs, u);
      DeltasOfIssuings(Run(EMPTY, reqs).log, u);
    }
  }

  lemma ReachableLedgered(reqs: seq<Request>)
    requires LegalRun(EMPTY, reqs)
    ensures Ledgered(Run(EMPTY, reqs))
  {
    RunKeepsInv(EMPTY, reqs);
  }

  // ----- telemetry over a run -----

  lemma {:induction false} RunConcat(s: Sys, a: seq<Request>, b: seq<Request>)
    ensures Run(s, a + b) == Run(Run(s, a), b)
    decreases |a|
  {
    if a == [] {
      assert a + b == b;
    } else {
      RunConcat(Step(s, a[0]), a[1..], b);
      assert (a + b)[1..] == a[1..] + b;
    }
  }

  lemma TelemetryKept(s: Sys, req: Request)
    ensures s.telemetry <= Step(s, req).telemetry
  {
    assert Step(s, req).telemetry == s.telemetry + Added(s, req);
  }

  lemma {:induction false} TelemetryGrows(s: Sys, reqs: seq<Request>)
    ensures s.telemetry <= Run(s, reqs).telemetry
    decreases |reqs|
  {
    if reqs != [] {
      TelemetryKept(s, reqs[0]);
      TelemetryGrows(Step(s, reqs[0]), reqs[1..]);
    }
  }

  /** The rows a request adds. */
  function Added(s: Sys, req: Request): seq<TelemetryRow> {
    if req.IngestBatch? then Inserted(s, req.userId, req.dto, req.now) else []
  }

  /** The keys a request adds are stored from then on. */
  lemma AddedStays(s: Sys, req: Request, reqs: seq<Request>)
    ensures Keys(Added(s, req)) <= Keys(Run(Step(s, req), reqs).telemetry)
  {
    TelemetryGrows(Step(s, req), reqs);
    forall key | key in Keys(Added(s, req))
      ensures key in Keys(Run(Step(s, req), reqs).telemetry)
    {
      var row :| row in Added(s, req) && KeyOf(row) == key;
      assert row in Step(s, req).telemetry;
    }
  }

  lemma RunFrom(reqs: seq<Request>, i: nat, j: nat)
    requires i < j <= |reqs|
    ensures Run(EMPTY, reqs[..j]) == Run(Step(Run(EMPTY, reqs[..i]), reqs[i]), reqs[i + 1..j])
  {
    var tail := [reqs[i]] + reqs[i + 1..j];
    assert reqs[..j] == reqs[..i] + tail;
    RunConcat(EMPTY, reqs[..i], tail);
    assert tail[1..] == reqs[i + 1..j];
  }

  /** No (device, time, type) key is inserted by two different requests of a run. */
  lemma NoKeyInsertedTwice(reqs: seq<Request>, i: nat, j: nat)
    requires i < j < |reqs|
    ensures Keys(Added(Run(EMPTY, reqs[..i]), reqs[i])) !! Keys(Added(Run(EMPTY, reqs[..j]), reqs[j]))
  {
    RunFrom(reqs, i, j);
    AddedStays(Run(EMPTY, reqs[..i]), reqs[i], reqs[i + 1..j]);
    AddedIsNew(Run(EMPTY, reqs[..j]), reqs[j]);
  }

  lemma AddedIsNew(s: Sys, req: Request)
    ensures Keys(Added(s, req)) !! Keys(s.telemetry)
  {
    if req.IngestBatch? {
      InsertedKeys(s, req.userId, req.dto, req.now);
    }
  }

  /** Neither an aggregation over stored rows nor any record ever stored counts a productive app. */
  lemma ProductiveAppsNeverCounted(reqs: seq<Request>, id: Id)
    requires LegalRun(EMPTY, reqs)
    ensures var s := Run(EMPTY, reqs);
            && Scoring.Aggregate(Scoring.RowsOf(s.telemetry, id)).productiveAppEvents == 0
            && forall record | record in s.records :: record.productiveAppsActive == 0
  {
    RunKeepsInv(EMPTY, reqs);
    RowsOfStored(Run(EMPTY, reqs).telemetry, id);
    NoProductiveApps(Scoring.RowsOf(Run(EMPTY, reqs).telemetry, id));
  }
}
