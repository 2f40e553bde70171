/** Concurrent finalisers of one round. The read of the round, the table transition, each save and
    each emit is a step of its own, and the calls' steps interleave freely; only `transitionState`
    is atomic. `Pause` is here to show what goes wrong when a non-finalising call joins in. */
module FinaliserRace {
  import opened Options
  import opened Counting
  import opened Schema
  import opened StateMachine
  import RoundLifecycle

  type Racing = c: RoundLifecycle.Call | !c.Start? && !c.Resume? witness RoundLifecycle.Pause

  /** How far a call has got. `mine` is the row it has read and will write back in full, with its changes;
      `from` and `to` are what its transition answered. */
  datatype Pc =
    | Begin
    | Loaded(mine: Round)
    | PauseLoaded(mine: Round)
    | PauseSaved
    | Moved(mine: Round, from: OperationalState, to: OperationalState)
    | Saved(from: OperationalState, to: OperationalState)
    | MissionRead(from: OperationalState, to: OperationalState, completed: nat)
    | MissionSaved(from: OperationalState, to: OperationalState)
    | TransitionLogged
    | Finished
    | Refused

  datatype Call = Call(what: Racing, at: Time, pc: Pc)

  /** One round, its mission's counter, what the calls have logged, and the calls in flight. */
  datatype World = World(round: Round, completedRounds: nat, log: seq<EventKind>, calls: seq<Call>)

  function Trigger(c: Racing): StateTrigger {
    match c
    case Complete => OnCompleted
    case Fail(_) => OnFailed
    case Abandon(_) => OnAbandoned
    case _ => OnPaused
  }

  /** What a finaliser saves. */
  function Closed(mine: Round, c: Racing, to: OperationalState, now: Time): Round {
    var r := mine.(operationalState := to, actualEnd := Some(now));
    match c
    case Complete => r.(status := Completed)
    case Fail(reason) => r.(status := Failed, failureReason := Some(reason))
    case Abandon(given) =>
      r.(status := Abandoned, failureReason := if given.Some? then given else Some("abandoned"))
    case _ => r
  }

  function ClosingEvent(c: Racing): EventKind {
    match c
    case Complete => RoundCompleted
    case Fail(reason) => RoundFailed(reason)
    case Abandon(given) => RoundAbandoned(if given.Some? then given.value else "abandoned")
    case _ => RoundPaused
  }

  function To(w: World, i: nat, pc: Pc): World
    requires i < |w.calls|
  {
    w.(calls := w.calls[i := w.calls[i].(pc := pc)])
  }

  function LogTransition(w: World, i: nat, from: OperationalState, to: OperationalState): World
    requires i < |w.calls|
  {
    To(w, i, TransitionLogged).(log := w.log + RoundLifecycle.Changed(from, to, Trigger(w.calls[i].what)))
  }

  /** The next step of call `i`. A call that is done, or does not exist, does nothing. */
  function Step(w: World, i: nat): World {
    if i >= |w.calls| then w
    else
      var Call(what, at, pc) := w.calls[i];
      match pc
      case Begin =>
        if what.Pause? then To(w, i, if w.round.status.Active? then PauseLoaded(w.round) else Refused)
        else To(w, i, if RoundLifecycle.Final(w.round.status) then Refused else Loaded(w.round))
      case Loaded(mine) => (
        match Next(w.round.operationalState, Trigger(what))
        case None => To(w, i, Refused)
        case Some(to) =>
          To(w, i, Moved(mine, w.round.operationalState, to)).(round := w.round.(operationalState := to)))
      case PauseLoaded(mine) => To(w, i, PauseSaved).(round := mine.(status := Paused))
      case PauseSaved => To(w, i, Finished).(log := w.log + [RoundPaused])
      case Moved(mine, from, to) => To(w, i, Saved(from, to)).(round := Closed(mine, what, to, at))
      case Saved(from, to) =>
        if what.Complete? then To(w, i, MissionRead(from, to, w.completedRounds)) else LogTransition(w, i, from, to)
      case MissionRead(from, to, n) => To(w, i, MissionSaved(from, to)).(completedRounds := n + 1)
      case MissionSaved(from, to) => LogTransition(w, i, from, to)
      case TransitionLogged => To(w, i, Finished).(log := w.log + [ClosingEvent(what)])
      case Finished => w
      case Refused => w
  }

  function Run(w: World, schedule: seq<nat>): World
    decreases |schedule|
  {
    if schedule == [] then w else Run(Step(w, schedule[0]), schedule[1..])
  }

  /** The call is past its transition. */
  predicate Won(c: Call) {
    c.pc.Moved? || c.pc.Saved? || c.pc.MissionRead? || c.pc.MissionSaved? || c.pc.TransitionLogged? || c.pc.Finished?
  }

  predicate Done(c: Call) {
    c.pc.Finished? || c.pc.Refused?
  }

  /** No call has started yet. */
  predicate Fresh(w: World) {
    w.log == [] && forall i | 0 <= i < |w.calls| :: w.calls[i].pc.Begin?
  }

  predicate PauseAmong(w: World) {
    exists i :: 0 <= i < |w.calls| && w.calls[i].what.Pause?
  }

  /** No pause can get in: there is none, or the round does not admit one. */
  predicate Calm(w: World) {
    !w.round.status.Active? || !PauseAmong(w)
  }

  /** What the call does to this round when nothing comes between its steps. */
  function Whole(r: Round, c: Call): RoundLifecycle.Effect {
    RoundLifecycle.EffectOf(c.what, r, c.at)
  }

  /** A finaliser that the round as it was at the start would let through. */
  predicate Admissible(w0: World, c: Call) {
    !c.what.Pause? && Whole(w0.round, c).Accept?
  }

  function Bump(c: Call): nat {
    if c.what.Complete? then 1 else 0
  }

  // ----- the steps of a call and the call as a whole -----

  /** Where a finaliser that gets through ends up, by its steps and as a whole. */
  lemma StepsAgree(r: Round, c: Call)
    requires !c.what.Pause?
    ensures Whole(r, c).Accept? <==>
              !RoundLifecycle.Final(r.status) && Next(r.operationalState, Trigger(c.what)).Some?
    ensures Whole(r, c).Accept? ==>
              var to := Next(r.operationalState, Trigger(c.what)).value;
              && Whole(r, c).round == Closed(r, c.what, to, c.at)
              && Whole(r, c).emitted
                 == RoundLifecycle.Changed(r.operationalState, to, Trigger(c.what)) + [ClosingEvent(c.what)]
  {
  }

  /** Its closing event is the only one it logs. */
  lemma OneClosing(r: Round, c: Call)
    requires !c.what.Pause? && Whole(r, c).Accept?
    ensures Count(Whole(r, c).emitted, RoundLifecycle.Closing) == 1
  {
    StepsAgree(r, c);
    var to := Next(r.operationalState, Trigger(c.what)).value;
    var moved := RoundLifecycle.Changed(r.operationalState, to, Trigger(c.what));
    CountNone(moved, RoundLifecycle.Closing);
    CountSnoc(moved, ClosingEvent(c.what), RoundLifecycle.Closing);
  }

  // ----- the invariant -----

  /** The same call as at the start; if it is a pause, it has got nowhere. */
  predicate SameCall(w0: World, c0: Call, c: Call) {
    && c.what == c0.what && c.at == c0.at
    && !c.pc.PauseLoaded? && !c.pc.PauseSaved?
    && (c.what.Pause? ==> !w0.round.status.Active? && (c.pc.Begin? || c.pc.Refused?))
  }

  predicate SameCalls(w0: World, w: World) {
    && |w.calls| == |w0.calls|
    && forall i | 0 <= i < |w.calls| :: SameCall(w0, w0.calls[i], w.calls[i])
  }

  predicate NoWinner(w: World) {
    forall i | 0 <= i < |w.calls| :: !Won(w.calls[i])
  }

  predicate CallUntouched(w0: World, c: Call) {
    && (c.pc.Loaded? ==> c.pc.mine == w0.round && !RoundLifecycle.Final(w0.round.status))
    && (c.pc.Refused? ==> !Admissible(w0, c))
  }

  /** As long as nobody is past its transition, the row is untouched. */
  predicate Untouched(w0: World, w: World) {
    && w.round == w0.round && w.completedRounds == w0.completedRounds && w.log == []
    && forall i | 0 <= i < |w.calls| :: CallUntouched(w0, w.calls[i])
  }

  /** How far the winner has come on its way from the starting world to `closed` and `moved + [ending]`. */
  predicate OnItsWay(w0: World, w: World, c: Call, closed: Round, moved: seq<EventKind>, ending: EventKind) {
    var Call(what, at, pc) := c;
    && Won(c)
    && w.round == (if pc.Moved? then w0.round.(operationalState := closed.operationalState) else closed)
    && (pc.Moved? ==> pc.mine == w0.round)
    && (!pc.TransitionLogged? && !pc.Finished? ==>
          pc.from == w0.round.operationalState && pc.to == closed.operationalState)
    && (pc.MissionRead? ==> what.Complete? && pc.completed == w0.completedRounds)
    && (pc.MissionSaved? ==> what.Complete?)
    && w.completedRounds == w0.completedRounds
         + (if pc.Moved? || pc.Saved? || pc.MissionRead? then 0 else Bump(c))
    && w.log == if pc.Finished? then moved + [ending] else if pc.TransitionLogged? then moved else []
  }

  /** What the only winner has done so far of the whole call. */
  predicate WonBy(w0: World, w: World, i: nat)
    requires i < |w.calls|
  {
    && Admissible(w0, w.calls[i])
    && (forall j | 0 <= j < |w.calls| && j != i :: !Won(w.calls[j]))
    && var Accept(closed, emitted) := Whole(w0.round, w.calls[i]);
    && |emitted| > 0
    && OnItsWay(w0, w, w.calls[i], closed, emitted[..|emitted| - 1], emitted[|emitted| - 1])
  }

  ghost predicate Inv(w0: World, w: World) {
    && SameCalls(w0, w)
    && (NoWinner(w) ==> Untouched(w0, w))
    && (NoWinner(w) || exists i :: 0 <= i < |w.calls| && WonBy(w0, w, i))
  }

  /** A finalised state accepts no finalising trigger. */
  lemma FinalStatesRefuse(from: OperationalState, first: Racing, second: Racing)
    requires !first.Pause? && Next(from, Trigger(first)).Some?
    ensures Next(Next(from, Trigger(first)).value, Trigger(second)).None?
  {
  }

  /** A step that gets nobody through leaves the row as it was. */
  lemma UntouchedStep(w0: World, w: World, i: nat, c: Call)
    requires SameCalls(w0, w) && NoWinner(w) && Untouched(w0, w) && i < |w.calls|
    requires SameCall(w0, w0.calls[i], c) && !Won(c) && CallUntouched(w0, c)
    ensures Inv(w0, w.(calls := w.calls[i := c]))
  {
    var w' := w.(calls := w.calls[i := c]);
    assert forall j | 0 <= j < |w.calls| && j != i :: w'.calls[j] == w.calls[j];
    assert NoWinner(w') && Untouched(w0, w') && SameCalls(w0, w');
  }

  /** Before its transition a call reads the row, or is refused for what the row says. */
  lemma EarlyStep(w0: World, w: World, i: nat)
    requires i < |w.calls| == |w0.calls| && SameCall(w0, w0.calls[i], w.calls[i]) && CallUntouched(w0, w.calls[i])
    requires w.round == w0.round && !Won(w.calls[i]) && !Won(Step(w, i).calls[i])
    ensures var w' := Step(w, i);
            && w' == w.(calls := w.calls[i := w'.calls[i]])
            && SameCall(w0, w0.calls[i], w'.calls[i]) && CallUntouched(w0, w'.calls[i])
  {
    if !w.calls[i].what.Pause? {
      StepsAgree(w0.round, w.calls[i]);
    }
  }

  /** The first to pass its transition becomes the winner. */
  lemma WinningStep(w0: World, w: World, i: nat)
    requires SameCalls(w0, w) && NoWinner(w) && Untouched(w0, w) && i < |w.calls| && Won(Step(w, i).calls[i])
    ensures SameCalls(w0, Step(w, i)) && WonBy(w0, Step(w, i), i)
  {
    assert SameCall(w0, w0.calls[i], w.calls[i]) && CallUntouched(w0, w.calls[i]);
    StepSameCalls(w0, w, i);
    StepsAgree(w0.round, w.calls[i]);
  }

  lemma StepUntouched(w0: World, w: World, i: nat)
    requires SameCalls(w0, w) && NoWinner(w) && Untouched(w0, w) && i < |w.calls|
    ensures Inv(w0, Step(w, i))
  {
    var c := Step(w, i).calls[i];
    if Won(c) {
      WinningStep(w0, w, i);
      WonIsInv(w0, Step(w, i), i);
    } else {
      assert SameCall(w0, w0.calls[i], w.calls[i]) && CallUntouched(w0, w.calls[i]);
      EarlyStep(w0, w, i);
      UntouchedStep(w0, w, i, c);
    }
  }

  /** One step on the way. */
  lemma StepOnItsWay(w0: World, w: World, i: nat, closed: Round)
    requires i < |w.calls| && !w.calls[i].what.Pause?
    requires closed == Closed(w0.round, w.calls[i].what, closed.operationalState, w.calls[i].at)
    requires var Call(what, _, _) := w.calls[i];
             var moved := RoundLifecycle.Changed(w0.round.operationalState, closed.operationalState, Trigger(what));
             OnItsWay(w0, w, w.calls[i], closed, moved, ClosingEvent(what))
    ensures var Call(what, _, _) := w.calls[i];
            var moved := RoundLifecycle.Changed(w0.round.operationalState, closed.operationalState, Trigger(what));
            var w' := Step(w, i);
            && w'.calls == w.calls[i := w'.calls[i]]
            && w'.calls[i].what == what && w'.calls[i].at == w.calls[i].at
            && OnItsWay(w0, w', w'.calls[i], closed, moved, ClosingEvent(what))
  {
  }

  /** The winner goes on as the whole call would. */
  lemma WinnerSteps(w0: World, w: World, i: nat)
    requires i < |w.calls| && WonBy(w0, w, i)
    ensures WonBy(w0, Step(w, i), i)
  {
    StepsAgree(w0.round, w.calls[i]);
    StepOnItsWay(w0, w, i, Whole(w0.round, w.calls[i]).round);
  }

  /** Wherever the winner stands, nobody else gets through. */
  lemma WinnerShuts(w0: World, w: World, i: nat)
    requires i < |w.calls| && WonBy(w0, w, i)
    ensures Next(w0.round.operationalState, Trigger(w.calls[i].what)) == Some(w.round.operationalState)
    ensures w.round.status.Active? ==> w0.round.status.Active?
  {
    StepsAgree(w0.round, w.calls[i]);
  }

  /** Everybody else is refused or stays where they are. */
  lemma LoserSteps(w0: World, w: World, winner: nat, i: nat)
    requires SameCalls(w0, w) && winner < |w.calls| && WonBy(w0, w, winner) && i < |w.calls| && i != winner
    ensures var w' := Step(w, i); w' == w.(calls := w.calls[i := w'.calls[i]]) && !Won(w'.calls[i])
  {
    WinnerShuts(w0, w, winner);
    FinalStatesRefuse(w0.round.operationalState, w.calls[winner].what, w.calls[i].what);
    assert SameCall(w0, w0.calls[i], w.calls[i]);
  }

  lemma LoserLeavesWinner(w0: World, w: World, winner: nat, i: nat, c: Call)
    requires winner < |w.calls| && WonBy(w0, w, winner) && i < |w.calls| && i != winner && !Won(c)
    ensures WonBy(w0, w.(calls := w.calls[i := c]), winner)
  {
  }

  lemma StepSameCall(w0: World, c0: Call, w: World, i: nat)
    requires i < |w.calls| && SameCall(w0, c0, w.calls[i]) && (w.round.status.Active? ==> w0.round.status.Active?)
    ensures var w' := Step(w, i);
            && |w'.calls| == |w.calls| && w'.calls == w.calls[i := w'.calls[i]] && SameCall(w0, c0, w'.calls[i])
  {
  }

  lemma StepSameCalls(w0: World, w: World, i: nat)
    requires SameCalls(w0, w) && i < |w.calls| && (w.round.status.Active? ==> w0.round.status.Active?)
    ensures SameCalls(w0, Step(w, i))
  {
    assert SameCall(w0, w0.calls[i], w.calls[i]);
    StepSameCall(w0, w0.calls[i], w, i);
  }

  lemma StepWon(w0: World, w: World, winner: nat, i: nat)
    requires SameCalls(w0, w) && winner < |w.calls| && WonBy(w0, w, winner) && i < |w.calls|
    ensures SameCalls(w0, Step(w, i)) && WonBy(w0, Step(w, i), winner)
  {
    WinnerShuts(w0, w, winner);
    StepSameCalls(w0, w, i);
    if i == winner {
      WinnerSteps(w0, w, i);
    } else {
      LoserSteps(w0, w, winner, i);
      LoserLeavesWinner(w0, w, winner, i, Step(w, i).calls[i]);
    }
  }

  lemma StepKeepsInv(w0: World, w: World, i: nat)
    requires Inv(w0, w)
    ensures Inv(w0, Step(w, i))
  {
    if i < |w.calls| {
      if NoWinner(w) {
        StepUntouched(w0, w, i);
      } else {
        var winner :| 0 <= winner < |w.calls| && WonBy(w0, w, winner);
        StepWon(w0, w, winner, i);
        WonIsInv(w0, Step(w, i), winner);
      }
    }
  }

  lemma WonIsInv(w0: World, w: World, winner: nat)
    requires SameCalls(w0, w) && winner < |w.calls| && WonBy(w0, w, winner)
    ensures Inv(w0, w)
  {
    assert Won(w.calls[winner]);
  }

  lemma {:induction false} RunKeepsInv(w0: World, w: World, schedule: seq<nat>)
    requires Inv(w0, w)
    ensures Inv(w0, Run(w, schedule))
    decreases |schedule|
  {
    if schedule != [] {
      StepKeepsInv(w0, w, schedule[0]);
      RunKeepsInv(w0, Step(w, schedule[0]), schedule[1..]);
    }
  }

  // ----- the theorems -----

  /** Under any interleaving of any number of finalisers at most one gets past its transition,
      at most one final event is logged and the counter rises at most once. */
  lemma AtMostOneWinner(w0: World, schedule: seq<nat>)
    requires Fresh(w0) && Calm(w0)
    ensures var w := Run(w0, schedule);
            && |w.calls| == |w0.calls|
            && (forall i, j | 0 <= i < |w.calls| && 0 <= j < |w.calls| && Won(w.calls[i]) && Won(w.calls[j]) :: i == j)
            && Count(w.log, RoundLifecycle.Closing) <= 1
            && w0.completedRounds <= w.completedRounds <= w0.completedRounds + 1
  {
    assert NoWinner(w0);
    RunKeepsInv(w0, w0, schedule);
    var w := Run(w0, schedule);
    if !NoWinner(w) {
      var i :| 0 <= i < |w.calls| && WonBy(w0, w, i);
      OneClosing(w0.round, w.calls[i]);
    }
  }

  /** The round, the counter and the log are those of call `i` run as a whole, and all others were refused. */
  predicate AsIf(w0: World, w: World, i: nat)
    requires i < |w0.calls|
  {
    && Whole(w0.round, w0.calls[i]).Accept?
    && w.round == Whole(w0.round, w0.calls[i]).round
    && w.log == Whole(w0.round, w0.calls[i]).emitted
    && w.completedRounds == w0.completedRounds + Bump(w0.calls[i])
    && |w.calls| == |w0.calls| && w.calls[i].pc.Finished?
    && forall j | 0 <= j < |w.calls| && j != i :: w.calls[j].pc.Refused?
  }

  /** When every call is done, it is as if one call that the starting round accepts had run as a whole and the
      others not at all; if the round accepts none of them, nothing has changed. */
  lemma AllDone(w0: World, schedule: seq<nat>)
    requires Fresh(w0) && Calm(w0)
    requires forall i | 0 <= i < |Run(w0, schedule).calls| :: Done(Run(w0, schedule).calls[i])
    ensures var w := Run(w0, schedule);
            && |w.calls| == |w0.calls|
            && if exists i :: 0 <= i < |w0.calls| && Whole(w0.round, w0.calls[i]).Accept?
               then exists i :: 0 <= i < |w0.calls| && AsIf(w0, w, i)
               else
                 && w.round == w0.round && w.log == [] && w.completedRounds == w0.completedRounds
                 && forall i | 0 <= i < |w.calls| :: w.calls[i].pc.Refused?
  {
    var w := Run(w0, schedule);
    assert NoWinner(w0);
    RunKeepsInv(w0, w0, schedule);
    if NoWinner(w) {
      AllRefused(w0, w);
    } else {
      var i :| 0 <= i < |w.calls| && WonBy(w0, w, i);
      WinnerDone(w0, w, i);
    }
  }

  lemma AllRefused(w0: World, w: World)
    requires SameCalls(w0, w) && NoWinner(w) && Untouched(w0, w)
    requires forall i | 0 <= i < |w.calls| :: Done(w.calls[i])
    ensures forall i | 0 <= i < |w.calls| :: w.calls[i].pc.Refused? && !Whole(w0.round, w0.calls[i]).Accept?
  {
    forall i | 0 <= i < |w.calls|
      ensures w.calls[i].pc.Refused? && !Whole(w0.round, w0.calls[i]).Accept?
    {
      assert Done(w.calls[i]) && !Won(w.calls[i]);
      assert SameCall(w0, w0.calls[i], w.calls[i]) && CallUntouched(w0, w.calls[i]);
    }
  }

  lemma WinnerDone(w0: World, w: World, i: nat)
    requires SameCalls(w0, w) && i < |w.calls| && WonBy(w0, w, i)
    requires forall j | 0 <= j < |w.calls| :: Done(w.calls[j])
    ensures AsIf(w0, w, i)
  {
    assert Done(w.calls[i]) && w.calls[i].pc.Finished?;
    assert SameCall(w0, w0.calls[i], w.calls[i]);
    forall j | 0 <= j < |w.calls| && j != i
      ensures w.calls[j].pc.Refused?
    {
      assert Done(w.calls[j]) && !Won(w.calls[j]);
    }
  }

  // ----- with a pause in flight -----

  /** A state in which every finaliser is refused. */
  predicate Shut(state: OperationalState) {
    Next(state, OnCompleted).None? && Next(state, OnFailed).None? && Next(state, OnAbandoned).None?
  }

  predicate Past(c: Call) {
    Won(c) && !c.what.Pause?
  }

  predicate Logged(c: Call) {
    c.pc.Finished? && !c.what.Pause?
  }

  predicate StartOrShut(w0: World, state: OperationalState) {
    state == w0.round.operationalState || Shut(state)
  }

  predicate CallFits(w0: World, c: Call) {
    && (Past(c) ==> Next(w0.round.operationalState, Trigger(c.what)).Some?)
    && (c.pc.PauseLoaded? ==> c.what.Pause? && StartOrShut(w0, c.pc.mine.operationalState))
    && (c.pc.PauseSaved? ==> c.what.Pause?)
    && (c.pc.Moved? ==> Shut(c.pc.to))
    && (c.what.Pause? ==>
          c.pc.Begin? || c.pc.PauseLoaded? || c.pc.PauseSaved? || c.pc.Finished? || c.pc.Refused?)
  }

  /** Whatever is in flight, only calls that the starting state admits get past their transition,
      and there is one final event for each that has finished. */
  predicate Bounded(w0: World, w: World) {
    && |w.calls| == |w0.calls|
    && (forall i | 0 <= i < |w.calls| :: w.calls[i].what == w0.calls[i].what && w.calls[i].at == w0.calls[i].at)
    && (forall i | 0 <= i < |w.calls| :: CallFits(w0, w.calls[i]))
    && StartOrShut(w0, w.round.operationalState)
    && Count(w.log, RoundLifecycle.Closing) == Count(w.calls, Logged)
  }

  lemma StepKeepsFits(w0: World, w: World, i: nat)
    requires i < |w.calls| && CallFits(w0, w.calls[i]) && StartOrShut(w0, w.round.operationalState)
    ensures var w' := Step(w, i);
            && |w'.calls| == |w.calls| && w'.calls == w.calls[i := w'.calls[i]]
            && w'.calls[i].what == w.calls[i].what && w'.calls[i].at == w.calls[i].at
            && CallFits(w0, w'.calls[i]) && StartOrShut(w0, w'.round.operationalState)
  {
  }

  lemma StepLogs(w0: World, w: World, i: nat)
    requires i < |w.calls| && CallFits(w0, w.calls[i])
    ensures var w' := Step(w, i);
            && i < |w'.calls|
            && Count(w'.log, RoundLifecycle.Closing) + (if Logged(w.calls[i]) then 1 else 0)
               == Count(w.log, RoundLifecycle.Closing) + (if Logged(w'.calls[i]) then 1 else 0)
  {
    var Call(what, at, pc) := w.calls[i];
    if pc.Saved? || pc.MissionSaved? {
      var moved := RoundLifecycle.Changed(pc.from, pc.to, Trigger(what));
      CountNone(moved, RoundLifecycle.Closing);
      CountConcat(w.log, moved, RoundLifecycle.Closing);
    } else if pc.TransitionLogged? {
      CountSnoc(w.log, ClosingEvent(what), RoundLifecycle.Closing);
    } else if pc.PauseSaved? {
      CountSnoc(w.log, RoundPaused, RoundLifecycle.Closing);
    }
  }

  lemma StepKeepsBounded(w0: World, w: World, i: nat)
    requires Bounded(w0, w)
    ensures Bounded(w0, Step(w, i))
  {
    if i < |w.calls| {
      var w' := Step(w, i);
      StepKeepsFits(w0, w, i);
      StepLogs(w0, w, i);
      CountUpdate(w.calls, i, w'.calls[i], Logged);
    }
  }

  lemma {:induction false} RunKeepsBounded(w0: World, w: World, schedule: seq<nat>)
    requires Bounded(w0, w)
    ensures Bounded(w0, Run(w, schedule))
    decreases |schedule|
  {
    if schedule != [] {
      StepKeepsBounded(w0, w, schedule[0]);
      RunKeepsBounded(w0, Step(w, schedule[0]), schedule[1..]);
    }
  }

  /** Two different finalisers that the starting round would each let through. */
  predicate TwoAdmissible(w0: World) {
    exists i, j :: 0 <= i < j < |w0.calls| && Admissible(w0, w0.calls[i]) && Admissible(w0, w0.calls[j])
  }

  lemma TwoFinalsNeed(w0: World, schedule: seq<nat>)
    requires Fresh(w0) && Count(Run(w0, schedule).log, RoundLifecycle.Closing) > 1
    ensures w0.round.status.Active? && PauseAmong(w0) && TwoAdmissible(w0)
  {
    if Calm(w0) {
      AtMostOneWinner(w0, schedule);
    } else {
      var w := Run(w0, schedule);
      CountNone(w0.calls, Logged);
      RunKeepsBounded(w0, w0, schedule);
      CountedTwo(w.calls, Logged);
      var i, j :| 0 <= i < j < |w.calls| && Logged(w.calls[i]) && Logged(w.calls[j]);
      assert CallFits(w0, w.calls[i]) && CallFits(w0, w.calls[j]);
      StepsAgree(w0.round, w0.calls[i]);
      StepsAgree(w0.round, w0.calls[j]);
      assert Admissible(w0, w0.calls[i]) && Admissible(w0, w0.calls[j]);
    }
  }

  // ----- a call that runs without interruption -----

  lemma {:induction false} RunConcat(w: World, a: seq<nat>, b: seq<nat>)
    ensures Run(w, a + b) == Run(Run(w, a), b)
    decreases |a|
  {
    if a == [] {
      assert a + b == b;
    } else {
      RunConcat(Step(w, a[0]), a[1..], b);
      assert (a + b)[1..] == a[1..] + b;
    }
  }

  lemma RunOne(w: World, i: nat)
    ensures Run(w, [i]) == Step(w, i)
  {
    assert [i][1..] == [];
  }

  lemma RunThree(w: World, i: nat)
    ensures Run(w, [i, i, i]) == Step(Step(Step(w, i), i), i)
  {
    assert [i, i, i] == [i] + [i] + [i];
    RunConcat(w, [i] + [i], [i]);
    RunConcat(w, [i], [i]);
    RunOne(w, i);
    RunOne(Step(w, i), i);
    RunOne(Step(Step(w, i), i), i);
  }

  /** Enough steps for any call to run to its end. */
  function Alone(i: nat): seq<nat> {
    [i, i, i] + [i, i, i] + [i]
  }

  lemma RunAlone(w: World, i: nat)
    ensures Run(w, Alone(i)) == Step(Run(Run(w, [i, i, i]), [i, i, i]), i)
  {
    RunConcat(w, [i, i, i] + [i, i, i], [i]);
    RunConcat(w, [i, i, i], [i, i, i]);
    RunOne(Run(w, [i, i, i] + [i, i, i]), i);
  }

  /** How a call of the lifecycle as a whole changes the world. */
  function Lump(w: World, i: nat): World
    requires i < |w.calls|
  {
    match Whole(w.round, w.calls[i])
    case Reject(_) => To(w, i, Refused)
    case Accept(r, emitted) =>
      To(w, i, Finished).(round := r, log := w.log + emitted, completedRounds := w.completedRounds + Bump(w.calls[i]))
  }

  lemma MovesAlone(w: World, i: nat)
    requires i < |w.calls| && w.calls[i].pc.Begin? && Admissible(w, w.calls[i])
    ensures var r := Whole(w.round, w.calls[i]).round;
            Run(w, [i, i, i]) == To(w, i, Saved(w.round.operationalState, r.operationalState)).(round := r)
  {
    StepsAgree(w.round, w.calls[i]);
    RunThree(w, i);
  }

  lemma CountsAlone(w: World, i: nat)
    requires i < |w.calls| && w.calls[i].pc.Saved? && w.calls[i].what.Complete?
    ensures var pc := w.calls[i].pc;
            Step(Step(w, i), i) == To(w, i, MissionSaved(pc.from, pc.to)).(completedRounds := w.completedRounds + 1)
  {
  }

  lemma ClosesAlone(w: World, i: nat)
    requires i < |w.calls| && (w.calls[i].pc.Saved? || w.calls[i].pc.MissionSaved?)
    requires w.calls[i].what.Complete? <==> w.calls[i].pc.MissionSaved?
    ensures var Call(what, _, pc) := w.calls[i];
            Step(Step(w, i), i)
            == To(w, i, Finished).(
                 log := w.log + RoundLifecycle.Changed(pc.from, pc.to, Trigger(what)) + [ClosingEvent(what)])
  {
  }

  lemma LogsAlone(w: World, i: nat)
    requires i < |w.calls| && w.calls[i].pc.Saved? && !w.calls[i].what.Pause?
    ensures var Call(what, _, pc) := w.calls[i];
            Step(Run(w, [i, i, i]), i)
            == To(w, i, Finished).(
                 log := w.log + RoundLifecycle.Changed(pc.from, pc.to, Trigger(what)) + [ClosingEvent(what)],
                 completedRounds := w.completedRounds + Bump(w.calls[i]))
  {
    RunThree(w, i);
    var half := Step(Step(w, i), i);
    if w.calls[i].what.Complete? {
      CountsAlone(w, i);
      ClosesAlone(half, i);
    } else {
      ClosesAlone(w, i);
      StepDone(half, i);
    }
  }

  lemma RefusedAlone(w: World, i: nat)
    requires i < |w.calls| && w.calls[i].pc.Begin? && !w.calls[i].what.Pause? && !Admissible(w, w.calls[i])
    ensures Run(w, [i, i, i]) == To(w, i, Refused)
  {
    StepsAgree(w.round, w.calls[i]);
    RunThree(w, i);
  }

  lemma PauseAlone(w: World, i: nat)
    requires i < |w.calls| && w.calls[i].pc.Begin? && w.calls[i].what.Pause?
    ensures Run(w, [i, i, i]) == Lump(w, i)
  {
    RunThree(w, i);
  }

  lemma DoneStays(w: World, i: nat)
    requires i < |w.calls| && Done(w.calls[i])
    ensures Step(Run(w, [i, i, i]), i) == w
  {
    StepDone(w, i);
    RunDone(w, i, [i, i, i]);
  }

  lemma StepDone(w: World, i: nat)
    requires i < |w.calls| && Done(w.calls[i])
    ensures Step(w, i) == w
  {
  }

  lemma {:induction false} RunDone(w: World, i: nat, schedule: seq<nat>)
    requires i < |w.calls| && Done(w.calls[i]) && forall k | 0 <= k < |schedule| :: schedule[k] == i
    ensures Run(w, schedule) == w
    decreases |schedule|
  {
    if schedule != [] {
      StepDone(w, schedule[0]);
      RunDone(w, i, schedule[1..]);
    }
  }

  /** A call whose steps nothing interrupts does what the lifecycle says of the whole call, accepted or not. */
  lemma AloneIsTheCall(w: World, i: nat)
    requires i < |w.calls| && w.calls[i].pc.Begin?
    ensures Run(w, Alone(i)) == Lump(w, i)
  {
    RunAlone(w, i);
    if w.calls[i].what.Pause? {
      PauseAlone(w, i);
      DoneStays(Lump(w, i), i);
    } else if Admissible(w, w.calls[i]) {
      MovesAlone(w, i);
      StepsAgree(w.round, w.calls[i]);
      LogsAlone(Run(w, [i, i, i]), i);
    } else {
      RefusedAlone(w, i);
      DoneStays(To(w, i, Refused), i);
    }
  }

  // ----- a schedule that breaks it -----

  /** The pause reads its row, the first finaliser runs, the pause writes the stale row back, the second runs. */
  function Breaking(p: nat, i: nat, j: nat): seq<nat> {
    [p] + Alone(i) + [p] + Alone(j)
  }

  /** A finaliser does the same to a paused round as to a running one. */
  lemma PausedAlike(r: Round, c: Call)
    requires r.status.Active? && !c.what.Pause?
    ensures Whole(r.(status := Paused), c) == Whole(r, c)
  {
    StepsAgree(r, c);
    StepsAgree(r.(status := Paused), c);
  }

  /** The pause undoes the first finaliser, so the second is let through too, and both are logged and counted, though
      the row tells of the second alone. */
  lemma PauseBreaksIt(w0: World, p: nat, i: nat, j: nat)
    requires Fresh(w0) && w0.round.status.Active? && p < |w0.calls| && w0.calls[p].what.Pause?
    requires i < |w0.calls| && j < |w0.calls| && i != j
    requires Admissible(w0, w0.calls[i]) && Admissible(w0, w0.calls[j])
    ensures var w := Run(w0, Breaking(p, i, j));
            && w.log == Whole(w0.round, w0.calls[i]).emitted + Whole(w0.round, w0.calls[j]).emitted
            && w.round == Whole(w0.round, w0.calls[j]).round
            && w.completedRounds == w0.completedRounds + Bump(w0.calls[i]) + Bump(w0.calls[j])
  {
    BreakingRun(w0, p, i, j);
    FirstHalf(w0, p, i);
    AfterFirstMeans(w0, p, i, j);
    SecondHalf(AfterFirst(w0, p, i), w0.round, j);
  }

  lemma AfterFirstMeans(w0: World, p: nat, i: nat, j: nat)
    requires p < |w0.calls| && i < |w0.calls| && j < |w0.calls| && p != j && i != j
    requires w0.log == [] && Whole(w0.round, w0.calls[i]).Accept?
    ensures var w := AfterFirst(w0, p, i);
            && |w.calls| == |w0.calls| && w.calls[j] == w0.calls[j]
            && w.round == w0.round.(status := Paused) && w.log == Whole(w0.round, w0.calls[i]).emitted
            && w.completedRounds == w0.completedRounds + Bump(w0.calls[i])
  {
    assert [] + Whole(w0.round, w0.calls[i]).emitted == Whole(w0.round, w0.calls[i]).emitted;
  }

  /** The first finaliser is logged and counted, but the round is as the pause found it, paused. */
  function AfterFirst(w0: World, p: nat, i: nat): World
    requires p < |w0.calls| && i < |w0.calls| && Whole(w0.round, w0.calls[i]).Accept?
  {
    World(w0.round.(status := Paused), w0.completedRounds + Bump(w0.calls[i]),
          w0.log + Whole(w0.round, w0.calls[i]).emitted,
          w0.calls[p := w0.calls[p].(pc := PauseSaved)][i := w0.calls[i].(pc := Finished)])
  }

  /** On the round written back by the pause the second runs as it would have on the round before. */
  lemma SecondHalf(w: World, r: Round, j: nat)
    requires j < |w.calls| && w.calls[j].pc.Begin? && !w.calls[j].what.Pause?
    requires r.status.Active? && w.round == r.(status := Paused) && Whole(r, w.calls[j]).Accept?
    ensures var w' := Run(w, Alone(j));
            && w'.round == Whole(r, w.calls[j]).round && w'.log == w.log + Whole(r, w.calls[j]).emitted
            && w'.completedRounds == w.completedRounds + Bump(w.calls[j])
  {
    PausedAlike(r, w.calls[j]);
    AloneIsTheCall(w, j);
  }

  lemma FirstHalf(w0: World, p: nat, i: nat)
    requires w0.round.status.Active? && p < |w0.calls| && w0.calls[p].what.Pause? && w0.calls[p].pc.Begin?
    requires i < |w0.calls| && w0.calls[i].pc.Begin? && Admissible(w0, w0.calls[i])
    ensures Step(Run(Step(w0, p), Alone(i)), p) == AfterFirst(w0, p, i)
  {
    var w1 := Step(w0, p);
    assert w1 == To(w0, p, PauseLoaded(w0.round));
    AloneIsTheCall(w1, i);
    var w2 := Lump(w1, i);
    assert w2.calls[p].pc == PauseLoaded(w0.round);
  }

  lemma BreakingRun(w0: World, p: nat, i: nat, j: nat)
    ensures Run(w0, Breaking(p, i, j)) == Run(Step(Run(Step(w0, p), Alone(i)), p), Alone(j))
  {
    RunConcat(w0, [p] + Alone(i) + [p], Alone(j));
    RunConcat(w0, [p] + Alone(i), [p]);
    RunConcat(w0, [p], Alone(i));
    RunOne(w0, p);
    RunOne(Run(Step(w0, p), Alone(i)), p);
  }

  /** Two final events can be logged if and only if the round starts out active, a pause is among the calls,
      and two of the finalisers would each have been let through alone. */
  lemma TwoFinalsExactly(w0: World)
    requires Fresh(w0)
    ensures (exists schedule: seq<nat> :: Count(Run(w0, schedule).log, RoundLifecycle.Closing) > 1)
       <==> w0.round.status.Active? && PauseAmong(w0) && TwoAdmissible(w0)
  {
    forall schedule: seq<nat> | Count(Run(w0, schedule).log, RoundLifecycle.Closing) > 1
      ensures w0.round.status.Active? && PauseAmong(w0) && TwoAdmissible(w0)
    {
      TwoFinalsNeed(w0, schedule);
    }
    if w0.round.status.Active? && PauseAmong(w0) && TwoAdmissible(w0) {
      var p :| 0 <= p < |w0.calls| && w0.calls[p].what.Pause?;
      var i, j :| 0 <= i < j < |w0.calls| && Admissible(w0, w0.calls[i]) && Admissible(w0, w0.calls[j]);
      PauseBreaksIt(w0, p, i, j);
      OneClosing(w0.round, w0.calls[i]);
      OneClosing(w0.round, w0.calls[j]);
      var logged := Whole(w0.round, w0.calls[i]).emitted;
      CountConcat(logged, Whole(w0.round, w0.calls[j]).emitted, RoundLifecycle.Closing);
    }
  }
}
