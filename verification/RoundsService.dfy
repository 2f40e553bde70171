/** The lifecycle service as it runs: read the round, change it, save it, emit events.
    Every method is proved against the call's effect in `RoundLifecycle`. */
module RoundsService {
  import opened Options
  import opened Schema
  import opened StateMachine
  import opened RoundLifecycle

  datatype Transition = Transition(userId: Id, from: OperationalState, to: OperationalState)

  /** The diagram decides, but `admin.force` goes wherever it is told to. */
  function Target(from: OperationalState, trigger: StateTrigger,
                  force: Option<OperationalState>): Option<OperationalState>
  {
    if trigger.AdminForce? then force else Next(from, trigger)
  }

  function Moved(s: Sys, id: Id, trigger: StateTrigger, force: Option<OperationalState>): (Sys, Result<Transition>) {
    if id !in s.rounds then (s, Err(NotFound))
    else
      var r := s.rounds[id];
      match Target(r.operationalState, trigger, force)
      case None => (s, Err(BadRequest))
      case Some(to) =>
        (s.(rounds := s.rounds[id := r.(operationalState := to)]), Ok(Transition(r.userId, r.operationalState, to)))
  }

  /** A transition needs a round, and a move: the diagram's, or for `admin.force` one that is given. Then only the state
      is saved, and the answer names both states; otherwise nothing is. */
  lemma TransitionMeans(s: Sys, id: Id, trigger: StateTrigger, force: Option<OperationalState>)
    ensures var (s', r) := Moved(s, id, trigger, force);
            if id !in s.rounds then s' == s && r == Err(NotFound)
            else
              var from := s.rounds[id].operationalState;
              var to := if trigger == AdminForce then force else Next(from, trigger);
              if to == None then s' == s && r == Err(BadRequest)
              else
                && r == Ok(Transition(s.rounds[id].userId, from, to.value))
                && s' == s.(rounds := s.rounds[id := s.rounds[id].(operationalState := to.value)])
  {
  }

  lemma StampedOne(userId: Id, roundId: Option<Id>, k: EventKind, now: Time)
    ensures Stamped(userId, roundId, [k], now) == [Event(userId, roundId, k, now, false)]
  {
  }

  lemma {:induction false} StampedConcat(userId: Id, roundId: Option<Id>, a: seq<EventKind>, b: seq<EventKind>,
                                         now: Time)
    ensures Stamped(userId, roundId, a + b, now) == Stamped(userId, roundId, a, now) + Stamped(userId, roundId, b, now)
    decreases |b|
  {
    if b == [] {
      assert a + b == a;
    } else {
      var n := |b| - 1;
      StampedConcat(userId, roundId, a, b[..n], now);
      assert (a + b)[..|a| + n] == a + b[..n];
    }
  }

  lemma StoredAgain(rounds: map<Id, Round>, id: Id)
    requires id in rounds
    ensures rounds[id := rounds[id]] == rounds
    ensures rounds[id].(operationalState := rounds[id].operationalState) == rounds[id]
  {
  }

  /** Only the last of two saves shows. */
  lemma StoredOver(rounds: map<Id, Round>, id: Id, first: Round, last: Round)
    ensures rounds[id := first][id := last] == rounds[id := last]
  {
  }

  class Service {
    const db: Database

    constructor (db: Database)
      ensures this.db == db
    {
      this.db := db;
    }

    method FindByIdForUser(id: Id, userId: Id) returns (r: Result<Round>)
      ensures r.Ok? <==> id in db.rounds && db.rounds[id].userId == userId
      ensures r.Ok? ==> r.value == db.rounds[id]
      ensures r.Err? ==> r.error == NotFound
    {
      if id !in db.rounds || db.rounds[id].userId != userId {
        return Err(NotFound);
      }
      r := Ok(db.rounds[id]);
    }

    /** Validates against the table and saves the new state, or throws and saves nothing. */
    method TransitionState(id: Id, trigger: StateTrigger, force: Option<OperationalState>)
      returns (r: Result<Transition>)
      modifies db
      ensures db.State() == Moved(old(db.State()), id, trigger, force).0
      ensures r == Moved(old(db.State()), id, trigger, force).1
    {
      if id !in db.rounds {
        return Err(NotFound);
      }
      var round := db.rounds[id];
      var from := round.operationalState;
      ResolveIsNext(from, trigger);
      var resolved: Option<OperationalState>;
      if trigger.AdminForce? {
        if force.None? {
          return Err(BadRequest);
        }
        resolved := force;
      } else {
        resolved := ResolveTransition(from, trigger);
      }
      if resolved.None? {
        return Err(BadRequest);
      }
      r := Ok(Transition(round.userId, from, resolved.value));
      if resolved.value == from {
        StoredAgain(db.rounds, id);
        return;
      }
      db.rounds := db.rounds[id := round.(operationalState := resolved.value)];
    }

    method Emit(userId: Id, roundId: Option<Id>, k: EventKind, now: Time)
      modifies db
      ensures db.State() == old(db.State()).(log := old(db.log) + Stamped(userId, roundId, [k], now))
    {
      StampedOne(userId, roundId, k, now);
      db.log := db.log + [Event(userId, roundId, k, now, false)];
    }

    method EmitStateTransition(userId: Id, id: Id, from: OperationalState, to: OperationalState, trigger: StateTrigger,
                               now: Time)
      modifies db
      ensures db.State()
           == old(db.State()).(log := old(db.log) + Stamped(userId, Some(id), Changed(from, to, trigger), now))
    {
      if from == to {
        assert db.log + [] == db.log;
        return;
      }
      Emit(userId, Some(id), StateTransition(from, to, trigger), now);
    }

    /** The transition, then the lifecycle event. */
    method EmitPair(userId: Id, id: Id, from: OperationalState, to: OperationalState, trigger: StateTrigger,
                    k: EventKind, now: Time)
      modifies db
      ensures db.State()
           == old(db.State()).(log := old(db.log) + Stamped(userId, Some(id), Changed(from, to, trigger) + [k], now))
    {
      StampedConcat(userId, Some(id), Changed(from, to, trigger), [k], now);
      EmitStateTransition(userId, id, from, to, trigger, now);
      Emit(userId, Some(id), k, now);
    }

    method StartRound(id: Id, userId: Id, now: Time) returns (r: Result<Round>)
      modifies db
      ensures db.State() == Lifecycle(old(db.State()), Start, id, userId, now).0
      ensures r == Lifecycle(old(db.State()), Start, id, userId, now).1
    {
      r := FindByIdForUser(id, userId);
      if r.Err? {
        return;
      }
      var round := r.value;
      if round.status.Active? {
        assert db.rounds[id := round] == db.rounds && db.log + [] == db.log;
        return;
      }
      if !round.status.Scheduled? && !round.status.Paused? {
        return Err(BadRequest);
      }
      var transition := TransitionState(id, OnStarted, None);
      if transition.Err? {
        return Err(transition.error);
      }
      var t := transition.value;
      round := round.(status := Active, operationalState := t.to);
      if round.actualStart.None? {
        round := round.(actualStart := Some(now));
      }
      assert EffectOf(Start, r.value, now) == Accept(round, Changed(t.from, t.to, OnStarted) + [RoundStarted]);
      StoredOver(old(db.rounds), id, db.rounds[id], round);
      db.rounds := db.rounds[id := round];
      EmitPair(userId, id, t.from, t.to, OnStarted, RoundStarted, now);
      r := Ok(round);
    }

    method PauseRound(id: Id, userId: Id, now: Time) returns (r: Result<Round>)
      modifies db
      ensures db.State() == Lifecycle(old(db.State()), Pause, id, userId, now).0
      ensures r == Lifecycle(old(db.State()), Pause, id, userId, now).1
    {
      r := FindByIdForUser(id, userId);
      if r.Err? {
        return;
      }
      var round := r.value;
      if !round.status.Active? {
        return Err(BadRequest);
      }
      round := round.(status := Paused);
      db.rounds := db.rounds[id := round];
      Emit(userId, Some(id), RoundPaused, now);
      r := Ok(round);
    }

    method ResumeRound(id: Id, userId: Id, now: Time) returns (r: Result<Round>)
      modifies db
      ensures db.State() == Lifecycle(old(db.State()), Resume, id, userId, now).0
      ensures r == Lifecycle(old(db.State()), Resume, id, userId, now).1
    {
      r := FindByIdForUser(id, userId);
      if r.Err? {
        return;
      }
      var round := r.value;
      if !round.status.Paused? {
        return Err(BadRequest);
      }
      var transitionedTo := round.operationalState;
      if round.operationalState.Critical? {
        var transition := TransitionState(id, OnResumed, None);
        if transition.Err? {
          return Err(transition.error);
        }
        var t := transition.value;
        transitionedTo := t.to;
        EmitStateTransition(userId, id, t.from, t.to, OnResumed, now);
        StampedConcat(userId, Some(id), Changed(t.from, t.to, OnResumed), [RoundResumed], now);
      }
      round := round.(status := Active, operationalState := transitionedTo);
      StoredOver(old(db.rounds), id, db.rounds[id], round);
      db.rounds := db.rounds[id := round];
      Emit(userId, Some(id), RoundResumed, now);
      r := Ok(round);
    }

    method BumpMission(missionId: Id)
      modifies db
      ensures db.State() == old(db.State()).(missions := BumpCompleted(old(db.missions), missionId))
    {
      if missionId in db.missions {
        var mission := db.missions[missionId];
        mission := mission.(completedRounds := mission.completedRounds + 1);
        db.missions := db.missions[missionId := mission];
      }
    }

    method CompleteRound(id: Id, userId: Id, now: Time) returns (r: Result<Round>)
      modifies db
      ensures db.State() == Lifecycle(old(db.State()), Complete, id, userId, now).0
      ensures r == Lifecycle(old(db.State()), Complete, id, userId, now).1
    {
      r := FindByIdForUser(id, userId);
      if r.Err? {
        return;
      }
      var round := r.value;
      if round.status.Completed? || round.status.Failed? || round.status.Abandoned? {
        return Err(BadRequest);
      }
      var transition := TransitionState(id, OnCompleted, None);
      if transition.Err? {
        return Err(transition.error);
      }
      var t := transition.value;
      round := round.(status := Completed, operationalState := t.to, actualEnd := Some(now));
      assert EffectOf(Complete, r.value, now) == Accept(round, Changed(t.from, t.to, OnCompleted) + [RoundCompleted]);
      StoredOver(old(db.rounds), id, db.rounds[id], round);
      db.rounds := db.rounds[id := round];
      BumpMission(round.missionId);
      EmitPair(userId, id, t.from, t.to, OnCompleted, RoundCompleted, now);
      r := Ok(round);
    }

    method AbandonRound(id: Id, userId: Id, reason: Option<string>, now: Time) returns (r: Result<Round>)
      modifies db
      ensures db.State() == Lifecycle(old(db.State()), Abandon(reason), id, userId, now).0
      ensures r == Lifecycle(old(db.State()), Abandon(reason), id, userId, now).1
    {
      r := FindByIdForUser(id, userId);
      if r.Err? {
        return;
      }
      var round := r.value;
      if round.status.Completed? || round.status.Failed? || round.status.Abandoned? {
        return Err(BadRequest);
      }
      var transition := TransitionState(id, OnAbandoned, None);
      if transition.Err? {
        return Err(transition.error);
      }
      var t := transition.value;
      var why := if reason.Some? then reason.value else "abandoned";
      round := round.(
        status := Abandoned, operationalState := t.to, actualEnd := Some(now), failureReason := Some(why));
      assert EffectOf(Abandon(reason), r.value, now)
             == Accept(round, Changed(t.from, t.to, OnAbandoned) + [RoundAbandoned(why)]);
      StoredOver(old(db.rounds), id, db.rounds[id], round);
      db.rounds := db.rounds[id := round];
      EmitPair(userId, id, t.from, t.to, OnAbandoned, RoundAbandoned(why), now);
      r := Ok(round);
    }

    method FailRound(id: Id, userId: Id, reason: string, now: Time) returns (r: Result<Round>)
      modifies db
      ensures db.State() == Lifecycle(old(db.State()), Fail(reason), id, userId, now).0
      ensures r == Lifecycle(old(db.State()), Fail(reason), id, userId, now).1
    {
      r := FindByIdForUser(id, userId);
      if r.Err? {
        return;
      }
      var round := r.value;
      if round.status.Completed? || round.status.Failed? || round.status.Abandoned? {
        return Err(BadRequest);
      }
      var transition := TransitionState(id, OnFailed, None);
      if transition.Err? {
        return Err(transition.error);
      }
      var t := transition.value;
      round := round.(
        status := Failed, operationalState := t.to, actualEnd := Some(now), failureReason := Some(reason));
      assert EffectOf(Fail(reason), r.value, now)
             == Accept(round, Changed(t.from, t.to, OnFailed) + [RoundFailed(reason)]);
      StoredOver(old(db.rounds), id, db.rounds[id], round);
      db.rounds := db.rounds[id := round];
      EmitPair(userId, id, t.from, t.to, OnFailed, RoundFailed(reason), now);
      r := Ok(round);
    }

    method UpdateRound(id: Id, userId: Id, patch: Patch) returns (r: Result<Round>)
      modifies db
      ensures db.State() == Update(old(db.State()), id, userId, patch).0
      ensures r == Update(old(db.State()), id, userId, patch).1
    {
      r := FindByIdForUser(id, userId);
      if r.Err? {
        return;
      }
      var round := r.value;
      if !patch.failureReason.Absent? {
        round := round.(failureReason := if patch.failureReason.Null? then None else Some(patch.failureReason.value));
      }
      if !patch.status.Absent? && patch.status != Given(round.status) {
        return Err(BadRequest);
      }
      db.rounds := db.rounds[id := round];
      r := Ok(round);
    }

    method EscalateToCritical(id: Id, trigger: StateTrigger, now: Time) returns (r: Result<()>)
      modifies db
      ensures db.State() == Escalate(old(db.State()), id, trigger, now).0
      ensures r == Escalate(old(db.State()), id, trigger, now).1
    {
      if id !in db.rounds {
        return Ok(());
      }
      var round := db.rounds[id];
      if !round.operationalState.Operational? {
        return Ok(());
      }
      var transition := TransitionState(id, trigger, None);
      if transition.Err? {
        return Err(transition.error);
      }
      var t := transition.value;
      EmitStateTransition(round.userId, id, t.from, t.to, trigger, now);
      r := Ok(());
    }

    method CreateRound(id: Id, dto: NewRound, userId: Id, now: Time) returns (r: Result<Round>)
      requires id !in db.rounds
      modifies db
      ensures db.State() == Create(old(db.State()), id, dto, userId, now).0
      ensures r == Create(old(db.State()), id, dto, userId, now).1
    {
      if dto.start.None? || dto.end.None? {
        return Err(BadRequest);
      }
      if dto.end.value <= dto.start.value {
        return Err(BadRequest);
      }
      if dto.missionId !in db.missions || db.missions[dto.missionId].userId != userId {
        return Err(NotFound);
      }
      var mission := db.missions[dto.missionId];
      if mission.status.Archived? || mission.status.MissionCompleted? {
        return Err(BadRequest);
      }
      var round := Round(userId, dto.missionId, Scheduled, Monitoring, dto.timePressure,
                         dto.start.value, dto.end.value, None, None, EMPTY_STATS, None);
      db.rounds := db.rounds[id := round];
      Emit(userId, Some(id), StateTransition(Dormant, Monitoring, OnScheduled), now);
      Emit(userId, Some(id), RoundScheduled, now);
      StampedConcat(userId, Some(id), [CREATION[0]], [CREATION[1]], now);
      assert CREATION == [CREATION[0]] + [CREATION[1]];
      mission := mission.(totalRounds := mission.totalRounds + 1);
      db.missions := db.missions[dto.missionId := mission];
      r := Ok(round);
    }
  }
}
