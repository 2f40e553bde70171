/** Round lifecycle: what each service call does to a round and to the event log,
    what the log says about a round, and the invariant that ties the two together. */
module RoundLifecycle {
  import opened Options
  import opened Schema
  import opened StateMachine

  datatype Call = Start | Pause | Resume | Complete | Abandon(given: Option<string>) | Fail(reason: string)

  /** A call either throws, changing nothing, or stores a round and appends events. */
  datatype Effect = Reject(error: Error) | Accept(round: Round, emitted: seq<EventKind>)

  // ----- the calls -----

  predicate Final(status: RoundStatus) {
    status.Completed? || status.Failed? || status.Abandoned?
  }

  /** A transition is logged only when it changes the state. */
  function Changed(from: OperationalState, to: OperationalState, trigger: StateTrigger): seq<EventKind> {
    if from == to then [] else [StateTransition(from, to, trigger)]
  }

  function EffectOf(call: Call, r: Round, now: Time): Effect {
    match call
    case Start =>
      if r.status.Active? then Accept(r, [])
      else if !r.status.Scheduled? && !r.status.Paused? then Reject(BadRequest)
      else (
        match Next(r.operationalState, OnStarted)
        case None => Reject(BadRequest)
        case Some(to) =>
          Accept(
            r.(status := Active, operationalState := to,
               actualStart := if r.actualStart.None? then Some(now) else r.actualStart),
            Changed(r.operationalState, to, OnStarted) + [RoundStarted]))
    case Pause =>
      if !r.status.Active? then Reject(BadRequest) else Accept(r.(status := Paused), [RoundPaused])
    case Resume =>
      if !r.status.Paused? then Reject(BadRequest)
      else if r.operationalState.Critical? then (
        match Next(r.operationalState, OnResumed)
        case None => Reject(BadRequest)
        case Some(to) =>
          Accept(r.(status := Active, operationalState := to),
                 Changed(r.operationalState, to, OnResumed) + [RoundResumed]))
      else Accept(r.(status := Active), [RoundResumed])
    case Complete => Finish(r, OnCompleted, Completed, r.failureReason, RoundCompleted, now)
    case Abandon(given) =>
      var why := if given.Some? then given.value else "abandoned";
      Finish(r, OnAbandoned, Abandoned, Some(why), RoundAbandoned(why), now)
    case Fail(reason) => Finish(r, OnFailed, Failed, Some(reason), RoundFailed(reason), now)
  }

  function Finish(r: Round, trigger: StateTrigger, status: RoundStatus, failureReason: Option<string>,
                  kind: EventKind, now: Time): Effect
  {
    if Final(r.status) then Reject(BadRequest)
    else
      match Next(r.operationalState, trigger)
      case None => Reject(BadRequest)
      case Some(to) =>
        Accept(
          r.(status := status, operationalState := to, actualEnd := Some(now), failureReason := failureReason),
          Changed(r.operationalState, to, trigger) + [kind])
  }

  function BumpCompleted(missions: map<Id, Mission>, id: Id): map<Id, Mission> {
    if id in missions then missions[id := missions[id].(completedRounds := missions[id].completedRounds + 1)]
    else missions
  }

  function Lifecycle(s: Sys, call: Call, id: Id, userId: Id, now: Time): (Sys, Result<Round>) {
    if id !in s.rounds || s.rounds[id].userId != userId then (s, Err(NotFound))
    else
      match EffectOf(call, s.rounds[id], now)
      case Reject(error) => (s, Err(error))
      case Accept(round, emitted) =>
        (s.(rounds := s.rounds[id := round],
            missions := if call.Complete? then BumpCompleted(s.missions, round.missionId) else s.missions,
            log := s.log + Stamped(userId, Some(id), emitted, now)),
         Ok(round))
  }

  /** The event processor's escalation; it has no owner check and never touches the status. */
  function Escalate(s: Sys, id: Id, trigger: StateTrigger, now: Time): (Sys, Result<()>) {
    if id !in s.rounds || !s.rounds[id].operationalState.Operational? then (s, Ok(()))
    else
      match Next(Operational, trigger)
      case None => (s, Err(BadRequest))
      case Some(to) =>
        var r := s.rounds[id];
        (s.(rounds := s.rounds[id := r.(operationalState := to)],
            log := s.log + Stamped(r.userId, Some(id), Changed(Operational, to, trigger), now)),
         Ok(()))
  }

  /** A field of a request body. */
  datatype Field<+T> = Absent | Null | Given(value: T)

  datatype Patch = Patch(failureReason: Field<string>, status: Field<RoundStatus>)

  predicate AcceptsPatch(r: Round, userId: Id, patch: Patch) {
    r.userId == userId && (patch.status.Absent? || patch.status == Given(r.status))
  }

  function PatchedReason(r: Round, patch: Patch): Option<string> {
    match patch.failureReason
    case Absent => r.failureReason
    case Null => None
    case Given(reason) => Some(reason)
  }

  /** `PATCH`: whatever the status, the reason may be replaced; the status may only be repeated. */
  function Update(s: Sys, id: Id, userId: Id, patch: Patch): (Sys, Result<Round>) {
    if id !in s.rounds || s.rounds[id].userId != userId then (s, Err(NotFound))
    else if !AcceptsPatch(s.rounds[id], userId, patch) then (s, Err(BadRequest))
    else
      var round := s.rounds[id].(failureReason := PatchedReason(s.rounds[id], patch));
      (s.(rounds := s.rounds[id := round]), Ok(round))
  }

  /** `start` and `end` are `None` when the date string does not parse. */
  datatype NewRound = NewRound(missionId: Id, start: Option<Time>, end: Option<Time>, timePressure: real)

  const EMPTY_STATS := Stats(0.0, 0.0, 0, 0, 0, 0, None)

  const CREATION: seq<EventKind> := [StateTransition(Dormant, Monitoring, OnScheduled), RoundScheduled]

  function Create(s: Sys, id: Id, dto: NewRound, userId: Id, now: Time): (Sys, Result<Round>) {
    if dto.start.None? || dto.end.None? || dto.end.value <= dto.start.value then (s, Err(BadRequest))
    else if dto.missionId !in s.missions || s.missions[dto.missionId].userId != userId then (s, Err(NotFound))
    else
      var mission := s.missions[dto.missionId];
      if mission.status.Archived? || mission.status.MissionCompleted? then (s, Err(BadRequest))
      else
        var round := Round(userId, dto.missionId, Scheduled, Monitoring, dto.timePressure,
                           dto.start.value, dto.end.value, None, None, EMPTY_STATS, None);
        (s.(rounds := s.rounds[id := round],
            missions := s.missions[dto.missionId := mission.(totalRounds := mission.totalRounds + 1)],
            log := s.log + Stamped(userId, Some(id), CREATION, now)),
         Ok(round))
  }

  // ----- what the log says about a round -----

  datatype View = View(status: Option<RoundStatus>, state: OperationalState)

  /** Folding a round's history from nothing. */
  function Replay(w: seq<EventKind>): View {
    if w == [] then View(None, Dormant) else ReplayOne(Replay(w[..|w| - 1]), w[|w| - 1])
  }

  function ReplayOne(v: View, k: EventKind): View {
    match k
    case RoundScheduled => v.(status := Some(Scheduled))
    case RoundStarted => v.(status := Some(Active))
    case RoundPaused => v.(status := Some(Paused))
    case RoundResumed => v.(status := Some(Active))
    case RoundCompleted => v.(status := Some(Completed))
    case RoundFailed(_) => v.(status := Some(Failed))
    case RoundAbandoned(_) => v.(status := Some(Abandoned))
    case StateTransition(_, to, _) => v.(state := to)
    case ConsequenceIssued(_, _) => v
    case Behavior(_) => v
  }

  predicate IsLetter(k: EventKind) {
    !k.StateTransition? && !k.ConsequenceIssued? && !k.Behavior?
  }

  /** The lifecycle events of a history. */
  function Letters(w: seq<EventKind>): seq<EventKind> {
    if w == [] then [] else Letters(w[..|w| - 1]) + (if IsLetter(w[|w| - 1]) then [w[|w| - 1]] else [])
  }

  /** The `state.transition` events of a history. */
  function Transitions(w: seq<EventKind>): (ts: seq<EventKind>)
    ensures forall t | t in ts :: t.StateTransition?
  {
    if w == [] then [] else Transitions(w[..|w| - 1]) + (if w[|w| - 1].StateTransition? then [w[|w| - 1]] else [])
  }

  /** Every transition starts where the one before it ended, the first at DORMANT, and follows the diagram. */
  predicate Unbroken(ts: seq<EventKind>)
    requires forall t | t in ts :: t.StateTransition?
  {
    ts == [] ||
    var n := |ts| - 1;
    && Unbroken(ts[..n])
    && ts[n].from == ChainEnd(ts[..n])
    && Next(ts[n].from, ts[n].trigger) == Some(ts[n].to)
  }

  function ChainEnd(ts: seq<EventKind>): OperationalState
    requires forall t | t in ts :: t.StateTransition?
  {
    if ts == [] then Dormant else ts[|ts| - 1].to
  }

  /** scheduled · started · (paused · resumed)^n */
  function Sessions(n: nat): seq<EventKind> {
    if n == 0 then [RoundScheduled, RoundStarted] else Sessions(n - 1) + [RoundPaused, RoundResumed]
  }

  ghost predicate Running(l: seq<EventKind>, paused: bool) {
    exists n: nat :: l == Sessions(n) + (if paused then [RoundPaused] else [])
  }

  predicate Closing(k: EventKind) {
    k.RoundCompleted? || k.RoundFailed? || k.RoundAbandoned?
  }

  /** A complete life: scheduled · abandoned, or a started round with its closing event. */
  ghost predicate Life(l: seq<EventKind>) {
    && |l| > 0
    && Closing(l[|l| - 1])
    && ( || (l[..|l| - 1] == [RoundScheduled] && l[|l| - 1].RoundAbandoned?)
         || Running(l[..|l| - 1], false)
         || Running(l[..|l| - 1], true))
  }

  ghost predicate PrefixOfLife(l: seq<EventKind>) {
    exists w :: Life(w) && l <= w
  }

  /** Which prefixes go with which status. */
  ghost predicate Spells(status: RoundStatus, l: seq<EventKind>) {
    match status
    case Scheduled => l == [RoundScheduled]
    case Active => Running(l, false)
    case Paused => Running(l, true)
    case Completed => Life(l) && l[|l| - 1].RoundCompleted?
    case Failed => Life(l) && l[|l| - 1].RoundFailed?
    case Abandoned => Life(l) && l[|l| - 1].RoundAbandoned?
  }

  /** Status, operational state and the two timestamps agree. */
  predicate Joint(r: Round) {
    && (match r.status
        case Scheduled => r.operationalState.Monitoring?
        case Active => r.operationalState.Operational? || r.operationalState.Critical?
        case Paused => r.operationalState.Operational? || r.operationalState.Critical?
        case Completed => r.operationalState.Extraction?
        case Failed => r.operationalState.Recovery?
        case Abandoned => if r.actualStart.Some? then r.operationalState.Silence? else r.operationalState.Dormant?)
    && (r.actualEnd.Some? <==> Final(r.status))
    && (r.status.Scheduled? ==> r.actualStart.None?)
    && (!r.status.Scheduled? && !r.status.Abandoned? ==> r.actualStart.Some?)
  }

  /** A stored round agrees with its history. */
  ghost predicate Told(r: Round, w: seq<EventKind>) {
    && Replay(w) == View(Some(r.status), r.operationalState)
    && Unbroken(Transitions(w))
    && Spells(r.status, Letters(w))
    && Joint(r)
  }

  // ----- one more event -----

  lemma OneMore(w: seq<EventKind>, k: EventKind)
    ensures Replay(w + [k]) == ReplayOne(Replay(w), k)
    ensures Letters(w + [k]) == Letters(w) + (if IsLetter(k) then [k] else [])
    ensures Transitions(w + [k]) == Transitions(w) + (if k.StateTransition? then [k] else [])
  {
    assert (w + [k])[..|w|] == w;
  }

  /** The chain of transitions ends in the replayed state. */
  lemma {:induction false} ChainEndsInState(w: seq<EventKind>)
    ensures Replay(w).state == ChainEnd(Transitions(w))
  {
    if w != [] {
      ChainEndsInState(w[..|w| - 1]);
    }
  }

  lemma ChainExtends(ts: seq<EventKind>, t: EventKind)
    requires (forall u | u in ts :: u.StateTransition?) && t.StateTransition?
    requires Unbroken(ts) && t.from == ChainEnd(ts) && Next(t.from, t.trigger) == Some(t.to)
    ensures Unbroken(ts + [t])
  {
    assert (ts + [t])[..|ts|] == ts;
  }

  /** The diagram has no loops, so every transition is logged. */
  lemma MoveIsLogged(from: OperationalState, to: OperationalState, trigger: StateTrigger)
    requires Next(from, trigger) == Some(to)
    ensures Changed(from, to, trigger) == [StateTransition(from, to, trigger)]
  {
  }

  lemma TransitionKeeps(w: seq<EventKind>, from: OperationalState, to: OperationalState, trigger: StateTrigger)
    requires Unbroken(Transitions(w)) && Replay(w).state == from && Next(from, trigger) == Some(to)
    ensures var v := w + Changed(from, to, trigger);
            && Unbroken(Transitions(v))
            && Replay(v) == Replay(w).(state := to)
            && Letters(v) == Letters(w)
  {
    MoveIsLogged(from, to, trigger);
    LogTransition(w, StateTransition(from, to, trigger));
  }

  lemma LogTransition(w: seq<EventKind>, t: EventKind)
    requires t.StateTransition? && Unbroken(Transitions(w)) && Replay(w).state == t.from
    requires Next(t.from, t.trigger) == Some(t.to)
    ensures Unbroken(Transitions(w + [t]))
    ensures Replay(w + [t]) == Replay(w).(state := t.to)
    ensures Letters(w + [t]) == Letters(w)
  {
    OneMore(w, t);
    ChainEndsInState(w);
    ChainExtends(Transitions(w), t);
    assert Letters(w) + [] == Letters(w);
  }

  lemma LetterKeeps(w: seq<EventKind>, k: EventKind)
    requires IsLetter(k) && Unbroken(Transitions(w))
    ensures Unbroken(Transitions(w + [k]))
    ensures Replay(w + [k]) == ReplayOne(Replay(w), k)
    ensures Letters(w + [k]) == Letters(w) + [k]
  {
    OneMore(w, k);
    assert Transitions(w) + [] == Transitions(w);
  }

  /** Events of other kinds leave the story of a round alone. */
  lemma AuditKeepsOne(w: seq<EventKind>, k: EventKind)
    requires k.ConsequenceIssued? || k.Behavior?
    ensures Replay(w + [k]) == Replay(w) && Letters(w + [k]) == Letters(w) && Transitions(w + [k]) == Transitions(w)
  {
    OneMore(w, k);
  }

  // ----- one call keeps the story true -----

  lemma SpellsNext(status: RoundStatus, l: seq<EventKind>, k: EventKind)
    requires Spells(status, l)
    ensures k.RoundStarted? && status.Scheduled? ==> Spells(Active, l + [k])
    ensures k.RoundPaused? && status.Active? ==> Spells(Paused, l + [k])
    ensures k.RoundResumed? && status.Paused? ==> Spells(Active, l + [k])
    ensures k.RoundAbandoned? && !Final(status) ==> Spells(Abandoned, l + [k])
    ensures k.RoundCompleted? && (status.Active? || status.Paused?) ==> Spells(Completed, l + [k])
    ensures k.RoundFailed? && (status.Active? || status.Paused?) ==> Spells(Failed, l + [k])
  {
    var l' := l + [k];
    assert l'[..|l|] == l;
    if status.Scheduled? && k.RoundStarted? {
      assert l' == Sessions(0) + [];
    }
    if status.Active? && k.RoundPaused? {
      var n: nat :| l == Sessions(n) + [];
      assert l' == Sessions(n) + [RoundPaused];
    }
    if status.Paused? && k.RoundResumed? {
      var n: nat :| l == Sessions(n) + [RoundPaused];
      assert l' == Sessions(n + 1) + [];
    }
  }

  /** A transition followed by its lifecycle event, as every state-changing call logs them. */
  lemma MoveHistory(w: seq<EventKind>, from: OperationalState, to: OperationalState, trigger: StateTrigger,
                    k: EventKind)
    requires Unbroken(Transitions(w)) && Replay(w).state == from && Next(from, trigger) == Some(to) && IsLetter(k)
    ensures var v := w + (Changed(from, to, trigger) + [k]);
            && Unbroken(Transitions(v))
            && Replay(v) == ReplayOne(Replay(w).(state := to), k)
            && Letters(v) == Letters(w) + [k]
  {
    var t := StateTransition(from, to, trigger);
    MoveIsLogged(from, to, trigger);
    LogTransition(w, t);
    LetterKeeps(w + [t], k);
    assert w + ([t] + [k]) == (w + [t]) + [k];
  }

  /** A lifecycle event on its own: pausing, or resuming outside CRITICAL. */
  lemma NoteKeepsTold(r: Round, r': Round, w: seq<EventKind>, k: EventKind)
    requires Told(r, w) && IsLetter(k) && r'.operationalState == r.operationalState
    requires ReplayOne(View(None, Dormant), k).status == Some(r'.status) && Spells(r'.status, Letters(w) + [k])
    requires Joint(r')
    ensures Told(r', w + [k])
  {
    LetterKeeps(w, k);
  }

  predicate Fitting(trigger: StateTrigger, status: RoundStatus, k: EventKind) {
    || (trigger.OnCompleted? && status.Completed? && k.RoundCompleted?)
    || (trigger.OnFailed? && status.Failed? && k.RoundFailed?)
    || (trigger.OnAbandoned? && status.Abandoned? && k.RoundAbandoned?)
  }

  lemma FinishedJoint(r: Round, trigger: StateTrigger, status: RoundStatus, failureReason: Option<string>,
                      k: EventKind, now: Time)
    requires Joint(r) && Finish(r, trigger, status, failureReason, k, now).Accept? && Fitting(trigger, status, k)
    ensures var e := Finish(r, trigger, status, failureReason, k, now);
            && e.round.status == status && Joint(e.round)
            && Next(r.operationalState, trigger) == Some(e.round.operationalState)
            && e.emitted == Changed(r.operationalState, e.round.operationalState, trigger) + [k]
            && !Final(r.status) && (r.status.Scheduled? ==> trigger.OnAbandoned?)
  {
  }

  lemma FinishKeepsTold(r: Round, trigger: StateTrigger, status: RoundStatus, failureReason: Option<string>,
                        k: EventKind, now: Time, w: seq<EventKind>)
    requires Told(r, w) && Finish(r, trigger, status, failureReason, k, now).Accept? && Fitting(trigger, status, k)
    ensures var e := Finish(r, trigger, status, failureReason, k, now); Told(e.round, w + e.emitted)
  {
    FinishedJoint(r, trigger, status, failureReason, k, now);
    SpellsNext(r.status, Letters(w), k);
    MoveHistory(w, r.operationalState, Next(r.operationalState, trigger).value, trigger, k);
  }

  lemma StartKeepsTold(r: Round, now: Time, w: seq<EventKind>)
    requires Told(r, w) && EffectOf(Start, r, now).Accept?
    ensures Told(EffectOf(Start, r, now).round, w + EffectOf(Start, r, now).emitted)
  {
    if r.status.Active? {
      assert w + [] == w;
    } else {
      SpellsNext(r.status, Letters(w), RoundStarted);
      MoveHistory(w, Monitoring, Operational, OnStarted, RoundStarted);
    }
  }

  lemma ResumeKeepsTold(r: Round, now: Time, w: seq<EventKind>)
    requires Told(r, w) && EffectOf(Resume, r, now).Accept?
    ensures Told(EffectOf(Resume, r, now).round, w + EffectOf(Resume, r, now).emitted)
  {
    SpellsNext(r.status, Letters(w), RoundResumed);
    if r.operationalState.Critical? {
      MoveHistory(w, Critical, Operational, OnResumed, RoundResumed);
    } else {
      NoteKeepsTold(r, r.(status := Active), w, RoundResumed);
    }
  }

  /** An accepted call leaves a round that its longer history still tells exactly. */
  lemma EffectKeepsTold(call: Call, r: Round, now: Time, w: seq<EventKind>)
    requires Told(r, w) && EffectOf(call, r, now).Accept?
    ensures Told(EffectOf(call, r, now).round, w + EffectOf(call, r, now).emitted)
  {
    var r' := EffectOf(call, r, now).round;
    match call
    case Start => StartKeepsTold(r, now, w);
    case Pause =>
      SpellsNext(r.status, Letters(w), RoundPaused);
      NoteKeepsTold(r, r', w, RoundPaused);
    case Resume => ResumeKeepsTold(r, now, w);
    case Complete =>
      FinishKeepsTold(r, OnCompleted, Completed, r.failureReason, RoundCompleted, now, w);
    case Abandon(_) =>
      FinishKeepsTold(r, OnAbandoned, Abandoned, r'.failureReason, RoundAbandoned(r'.failureReason.value), now, w);
    case Fail(reason) =>
      FinishKeepsTold(r, OnFailed, Failed, Some(reason), RoundFailed(reason), now, w);
  }

  lemma CreationTold(r: Round)
    requires r.status == Scheduled && r.operationalState == Monitoring && r.actualStart == None && r.actualEnd == None
    ensures Told(r, CREATION)
  {
    CreationHistory();
  }

  lemma CreationHistory()
    ensures Replay(CREATION) == View(Some(Scheduled), Monitoring)
    ensures Unbroken(Transitions(CREATION)) && Letters(CREATION) == [RoundScheduled]
  {
    MoveHistory([], Dormant, Monitoring, OnScheduled, RoundScheduled);
    assert CREATION == [] + (Changed(Dormant, Monitoring, OnScheduled) + [RoundScheduled]);
  }

  // ----- the language -----

  /** Whatever a status spells is a prefix of a complete life. */
  lemma SpelledIsPrefix(status: RoundStatus, l: seq<EventKind>)
    requires Spells(status, l)
    ensures PrefixOfLife(l)
  {
    if Final(status) {
      assert Life(l) && l <= l;
    } else {
      var w := l + [RoundAbandoned("")];
      assert w[..|l|] == l;
      assert Life(w) && l <= w;
    }
  }

  lemma {:induction false} SessionPrefix(n: nat, k: nat)
    requires 0 < k <= |Sessions(n)|
    ensures var l := Sessions(n)[..k]; l == [RoundScheduled] || Running(l, false) || Running(l, true)
  {
    var l := Sessions(n)[..k];
    if k == |Sessions(n)| {
      assert l == Sessions(n) + [];
    } else if n == 0 {
      assert l == [RoundScheduled];
    } else if k <= |Sessions(n - 1)| {
      SessionPrefix(n - 1, k);
      assert l == Sessions(n - 1)[..k];
    } else {
      assert l == Sessions(n - 1) + [RoundPaused];
    }
  }

  lemma RunningPrefix(l: seq<EventKind>, paused: bool, k: nat)
    requires Running(l, paused) && 0 < k <= |l|
    ensures l[..k] == [RoundScheduled] || Running(l[..k], false) || Running(l[..k], true)
  {
    var n: nat :| l == Sessions(n) + (if paused then [RoundPaused] else []);
    if k <= |Sessions(n)| {
      SessionPrefix(n, k);
      assert l[..k] == Sessions(n)[..k];
    } else {
      assert l[..k] == l;
    }
  }

  /** Conversely every non-empty prefix of a complete life is spelled by some status: the statuses
      describe the language exactly. */
  lemma PrefixIsSpelled(l: seq<EventKind>)
    requires PrefixOfLife(l) && l != []
    ensures exists status :: Spells(status, l)
  {
    var w: seq<EventKind> :| Life(w) && l <= w;
    var front := w[..|w| - 1];
    if |l| == |w| {
      assert l == w;
      var k := w[|w| - 1];
      assert Spells(if k.RoundCompleted? then Completed else if k.RoundFailed? then Failed else Abandoned, l);
    } else {
      assert l == front[..|l|];
      if Running(front, false) {
        RunningPrefix(front, false, |l|);
      } else if Running(front, true) {
        RunningPrefix(front, true, |l|);
      }
      assert Spells(Scheduled, l) || Spells(Active, l) || Spells(Paused, l);
    }
  }

  // ----- acceptance -----

  /** On a round that agrees with its history, the caller can tell from the status alone
      whether a call is accepted. In particular `startRound` admits paused rounds at its guard
      and then always fails on the transition. */
  lemma Acceptance(call: Call, r: Round, now: Time)
    requires Joint(r)
    ensures EffectOf(call, r, now).Accept? <==>
              match call
              case Start => r.status.Scheduled? || r.status.Active?
              case Pause => r.status.Active?
              case Resume => r.status.Paused?
              case Complete => r.status.Active? || r.status.Paused?
              case Fail(_) => r.status.Active? || r.status.Paused?
              case Abandon(_) => !Final(r.status)
  {
  }

  /** What an accepted call does to a consistent round, in full: the row it leaves, every other column being kept, and
      the events it logs, the transition first. Starting a running round again does nothing. */
  lemma Destination(call: Call, r: Round, now: Time)
    requires Joint(r) && EffectOf(call, r, now).Accept?
    ensures match call
            case Start =>
              if r.status.Active? then EffectOf(call, r, now) == Accept(r, [])
              else
                EffectOf(call, r, now)
                == Accept(r.(status := Active, operationalState := Operational, actualStart := Some(now)),
                          [StateTransition(Monitoring, Operational, OnStarted), RoundStarted])
            case Pause => EffectOf(call, r, now) == Accept(r.(status := Paused), [RoundPaused])
            case Resume =>
              EffectOf(call, r, now)
              == Accept(r.(status := Active, operationalState := Operational),
                        if r.operationalState.Critical?
                        then [StateTransition(Critical, Operational, OnResumed), RoundResumed] else [RoundResumed])
            case Complete =>
              EffectOf(call, r, now)
              == Accept(r.(status := Completed, operationalState := Extraction, actualEnd := Some(now)),
                        [StateTransition(r.operationalState, Extraction, OnCompleted), RoundCompleted])
            case Fail(reason) =>
              EffectOf(call, r, now)
              == Accept(r.(status := Failed, operationalState := Recovery, actualEnd := Some(now),
                           failureReason := Some(reason)),
                        [StateTransition(r.operationalState, Recovery, OnFailed), RoundFailed(reason)])
            case Abandon(given) =>
              var to := if r.status.Scheduled? then Dormant else Silence;
              var why := if given == None then "abandoned" else given.value;
              EffectOf(call, r, now)
              == Accept(r.(status := Abandoned, operationalState := to, actualEnd := Some(now),
                           failureReason := Some(why)),
                        [StateTransition(r.operationalState, to, OnAbandoned), RoundAbandoned(why)])
  {
  }

  /** `PATCH` in full: it needs the round's owner and a status, if one is sent, that is the round's own; it then
      replaces the reason when one is sent, `null` included, and nothing else. */
  lemma PatchExact(s: Sys, id: Id, userId: Id, patch: Patch)
    ensures var (s', r) := Update(s, id, userId, patch);
            && (r == Err(NotFound) <==> !(id in s.rounds && s.rounds[id].userId == userId))
            && (r == Err(BadRequest) <==>
                  && id in s.rounds && s.rounds[id].userId == userId
                  && (patch.status.Null? || (patch.status.Given? && patch.status.value != s.rounds[id].status)))
            && (r.Err? ==> s' == s)
            && (r.Ok? ==>
                  && s' == s.(rounds := s.rounds[id := r.value])
                  && r.value == s.rounds[id].(failureReason := r.value.failureReason)
                  && match patch.failureReason
                     case Absent => r.value.failureReason == s.rounds[id].failureReason
                     case Null => r.value.failureReason == None
                     case Given(reason) => r.value.failureReason == Some(reason))
  {
  }
}
