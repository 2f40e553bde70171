/** The operational-state transition table and its lookup. */
module StateMachine {
  import opened Options
  import opened Schema

  datatype Rule = Rule(from: OperationalState, trigger: StateTrigger, to: OperationalState)

  const TRANSITIONS: seq<Rule> := [
    Rule(Dormant, OnScheduled, Monitoring),
    Rule(Monitoring, OnStarted, Operational),
    Rule(Monitoring, OnAbandoned, Dormant),
    Rule(Operational, OnTimeWarning, Critical),
    Rule(Operational, OnViolationsThreshold, Critical),
    Rule(Operational, OnCompleted, Extraction),
    Rule(Operational, OnFailed, Recovery),
    Rule(Operational, OnAbandoned, Silence),
    Rule(Critical, OnResumed, Operational),
    Rule(Critical, OnCompleted, Extraction),
    Rule(Critical, OnFailed, Recovery),
    Rule(Critical, OnAbandoned, Silence),
    Rule(Recovery, RecoveryTimeout, Dormant),
    Rule(Recovery, RecoveryManual, Monitoring),
    Rule(Extraction, ExtractionComplete, Silence),
    Rule(Extraction, RecoveryManual, Dormant),
    Rule(Silence, SilenceTimeout, Dormant),
    Rule(Silence, RecoveryManual, Dormant)
  ]

  /** `find`: the target of the first rule that matches. */
  function FirstMatch(rules: seq<Rule>, state: OperationalState, trigger: StateTrigger): Option<OperationalState> {
    if rules == [] then None
    else if rules[0].from == state && rules[0].trigger == trigger then Some(rules[0].to)
    else FirstMatch(rules[1..], state, trigger)
  }

  function ResolveTransition(state: OperationalState, trigger: StateTrigger): Option<OperationalState> {
    FirstMatch(TRANSITIONS, state, trigger)
  }

  /** A successful lookup names a rule of the table, and a failed one means there is none. */
  lemma {:induction false} FirstMatchSound(rules: seq<Rule>, state: OperationalState, trigger: StateTrigger)
    ensures match FirstMatch(rules, state, trigger)
            case Some(to) => Rule(state, trigger, to) in rules
            case None => forall to :: Rule(state, trigger, to) !in rules
  {
    if rules != [] && !(rules[0].from == state && rules[0].trigger == trigger) {
      FirstMatchSound(rules[1..], state, trigger);
    }
  }

  predicate Finalises(trigger: StateTrigger) {
    trigger.OnCompleted? || trigger.OnFailed? || trigger.OnAbandoned?
  }

  /** The diagram with its triggers, state by state: what each trigger means, without the table. */
  function Next(state: OperationalState, trigger: StateTrigger): Option<OperationalState> {
    match state
    case Dormant => if trigger.OnScheduled? then Some(Monitoring) else None
    case Monitoring =>
      if trigger.OnStarted? then Some(Operational) else if trigger.OnAbandoned? then Some(Dormant) else None
    case Operational =>
      if trigger.OnTimeWarning? || trigger.OnViolationsThreshold? then Some(Critical) else Outcome(trigger)
    case Critical =>
      if trigger.OnResumed? then Some(Operational) else Outcome(trigger)
    case Recovery =>
      if trigger.RecoveryTimeout? then Some(Dormant) else if trigger.RecoveryManual? then Some(Monitoring) else None
    case Extraction =>
      if trigger.ExtractionComplete? then Some(Silence) else if trigger.RecoveryManual? then Some(Dormant) else None
    case Silence =>
      if trigger.SilenceTimeout? || trigger.RecoveryManual? then Some(Dormant) else None
  }

  /** Where a running round ends up. */
  function Outcome(trigger: StateTrigger): Option<OperationalState> {
    match trigger
    case OnCompleted => Some(Extraction)
    case OnFailed => Some(Recovery)
    case OnAbandoned => Some(Silence)
    case _ => None
  }

  /** Where the diagram's edge stands in the table. */
  function EdgeIndex(state: OperationalState, trigger: StateTrigger): (i: nat)
    requires Next(state, trigger).Some?
    ensures i < |TRANSITIONS|
    ensures TRANSITIONS[i] == Rule(state, trigger, Next(state, trigger).value)
  {
    match state
    case Dormant => 0
    case Monitoring => if trigger.OnStarted? then 1 else 2
    case Operational =>
      if trigger.OnTimeWarning? then 3 else if trigger.OnViolationsThreshold? then 4
      else if trigger.OnCompleted? then 5 else if trigger.OnFailed? then 6 else 7
    case Critical =>
      if trigger.OnResumed? then 8 else if trigger.OnCompleted? then 9 else if trigger.OnFailed? then 10 else 11
    case Recovery => if trigger.RecoveryTimeout? then 12 else 13
    case Extraction => if trigger.ExtractionComplete? then 14 else 15
    case Silence => if trigger.SilenceTimeout? then 16 else 17
  }

  lemma TableIsDiagram(i: nat)
    requires i < |TRANSITIONS|
    ensures Next(TRANSITIONS[i].from, TRANSITIONS[i].trigger) == Some(TRANSITIONS[i].to)
  {
  }

  /** First match in the table is the diagram, for every state and trigger:
      no rule is shadowed by an earlier one and none is missing. */
  lemma ResolveIsNext(state: OperationalState, trigger: StateTrigger)
    ensures ResolveTransition(state, trigger) == Next(state, trigger)
  {
    FirstMatchSound(TRANSITIONS, state, trigger);
    match ResolveTransition(state, trigger)
    case Some(to) =>
      var i :| 0 <= i < |TRANSITIONS| && TRANSITIONS[i] == Rule(state, trigger, to);
      TableIsDiagram(i);
    case None =>
      if Next(state, trigger).Some? {
        var i := EdgeIndex(state, trigger);
        assert false;
      }
  }

  /** The transition diagram of the design comment: which states may follow which. */
  function Documented(state: OperationalState): set<OperationalState> {
    match state
    case Dormant => {Monitoring}
    case Monitoring => {Operational, Dormant}
    case Operational => {Critical, Extraction, Recovery, Silence}
    case Critical => {Operational, Extraction, Recovery, Silence}
    case Recovery => {Dormant, Monitoring}
    case Extraction => {Silence, Dormant}
    case Silence => {Dormant}
  }

  /** A trigger for each edge of the design comment. */
  function Edge(state: OperationalState, to: OperationalState): StateTrigger {
    match (state, to)
    case (Dormant, _) => OnScheduled
    case (Monitoring, Operational) => OnStarted
    case (Operational, Critical) => OnTimeWarning
    case (Critical, Operational) => OnResumed
    case (_, Extraction) => OnCompleted
    case (_, Recovery) => OnFailed
    case (Recovery, Dormant) => RecoveryTimeout
    case (Extraction, Silence) => ExtractionComplete
    case (Silence, _) => SilenceTimeout
    case (Extraction, _) => RecoveryManual
    case (Recovery, _) => RecoveryManual
    case _ => OnAbandoned
  }

  lemma DesignCommentIsDiagram(state: OperationalState, to: OperationalState)
    ensures to in Documented(state) <==> exists trigger :: Next(state, trigger) == Some(to)
  {
    if to in Documented(state) {
      assert Next(state, Edge(state, to)) == Some(to);
    }
  }
}
