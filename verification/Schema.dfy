/** Rows of the backend tables, and the event log seen as an append-only sequence.
    An event's id is its position in the log. */
module Schema {
  import opened Options

  type Id = nat
  type Time = int // milliseconds

  datatype Error = NotFound | BadRequest
  datatype Result<+T> = Ok(value: T) | Err(error: Error)

  datatype RoundStatus = Scheduled | Active | Paused | Completed | Failed | Abandoned

  datatype OperationalState = Dormant | Monitoring | Operational | Critical | Recovery | Extraction | Silence

  datatype StateTrigger =
    | OnScheduled | OnStarted | OnPaused | OnResumed | OnTimeWarning | OnViolationsThreshold
    | OnCompleted | OnFailed | OnAbandoned
    | RecoveryTimeout | RecoveryManual | ExtractionComplete | SilenceTimeout | AdminForce

  datatype TelemetryType =
    | AppSwitched | IdleDetected | IdleEnded | TerminalActivity | GitCommit | IdeActivity
    | BrowserTabChanged | DistractionDetected | FocusSessionStarted | FocusSessionEnded | ManualCheckin

  /** `Extreme` is the severity the rule table calls critical. */
  datatype Severity = Low | Medium | High | Extreme

  datatype ConsequenceType = StreakBreak | ReputationPenalty | RecoveryRequired | CooldownImposed | DifficultyReset

  /** What a consequence is for and what it costs. */
  datatype Charge = Charge(
    consequenceType: ConsequenceType,
    severity: Severity,
    description: string,
    reputationDelta: int)

  datatype Consequence = Consequence(
    userId: Id,
    roundId: Option<Id>,
    charge: Charge,
    metadata: map<string, string>,
    issuedAt: Time)

  datatype EventKind =
    | RoundScheduled | RoundStarted | RoundPaused | RoundResumed
    | RoundCompleted | RoundFailed(reason: string) | RoundAbandoned(reason: string)
    | StateTransition(from: OperationalState, to: OperationalState, trigger: StateTrigger)
    | ConsequenceIssued(consequence: Id, charge: Charge)
    | Behavior(telemetryType: TelemetryType)

  datatype Event = Event(userId: Id, roundId: Option<Id>, kind: EventKind, occurredAt: Time, isProcessed: bool)

  datatype Stats = Stats(
    totalFocusMinutes: real,
    totalIdleMinutes: real,
    appSwitches: nat,
    distractionsDetected: nat,
    violationsCount: nat,
    gitCommitsCount: nat,
    productivityScore: Option<real>)

  datatype Round = Round(
    userId: Id,
    missionId: Id,
    status: RoundStatus,
    operationalState: OperationalState,
    timePressure: real,
    scheduledStart: Time,
    scheduledEnd: Time,
    actualStart: Option<Time>,
    actualEnd: Option<Time>,
    stats: Stats,
    failureReason: Option<string>)

  datatype MissionStatus = Draft | MissionActive | MissionCompleted | Archived

  datatype Mission = Mission(userId: Id, status: MissionStatus, totalRounds: nat, completedRounds: nat)

  /** The two payload fields that scoring reads; `None` when absent or not a number. */
  datatype Payload = Payload(durationMinutes: Option<real>, changedFiles: Option<real>)

  datatype TelemetryRow = TelemetryRow(
    userId: Id,
    roundId: Option<Id>,
    deviceId: string,
    eventType: TelemetryType,
    payload: Payload,
    isProductive: Option<bool>,
    occurredAt: Time)

  /** What scoring adds up over a round's telemetry. */
  datatype Aggregates = Aggregates(
    focusMinutes: real,
    idleMinutes: real,
    appSwitches: nat,
    productiveAppEvents: nat,
    distractionEvents: nat,
    gitCommits: nat,
    ideMinutes: real,
    terminalActivity: nat,
    zeroDiffCommits: nat,
    manualCheckins: nat)

  datatype Anomaly = GitCommitsSpike | IdeNoCommits | RoundMostlyIdle | ZeroDiffCommits

  /** A behavioural record; of the aggregates it leaves out commits without changes and check-ins. */
  datatype BehavioralRecord = BehavioralRecord(
    userId: Id,
    roundId: Id,
    periodStart: Time,
    periodEnd: Time,
    totalFocusMinutes: real,
    totalIdleMinutes: real,
    appSwitches: nat,
    productiveAppsActive: nat,
    distractionsDetected: nat,
    gitCommits: nat,
    ideActivityMinutes: real,
    terminalCommands: nat,
    productivityScore: real,
    anomalyFlags: seq<Anomaly>,
    eventCount: nat)

  /** The whole database: a user is represented by their reputation score. Consequences and behavioural
      records are only ever added, so a row's id is its position. */
  datatype Sys = Sys(
    users: map<Id, int>,
    missions: map<Id, Mission>,
    rounds: map<Id, Round>,
    log: seq<Event>,
    telemetry: seq<TelemetryRow>,
    consequences: seq<Consequence>,
    records: seq<BehavioralRecord>)

  const EMPTY := Sys(map[], map[], map[], [], [], [], [])

  class Database {
    var users: map<Id, int>
    var missions: map<Id, Mission>
    var rounds: map<Id, Round>
    var log: seq<Event>
    var telemetry: seq<TelemetryRow>
    var consequences: seq<Consequence>
    var records: seq<BehavioralRecord>

    constructor ()
      ensures State() == EMPTY
    {
      users, missions, rounds, log, telemetry, consequences, records := map[], map[], map[], [], [], [], [];
    }

    ghost function State(): Sys
      reads this
    {
      Sys(users, missions, rounds, log, telemetry, consequences, records)
    }
  }

  // ----- the log -----

  /** The events one emitter call after another appends for a round, not yet processed. */
  function Stamped(userId: Id, roundId: Option<Id>, kinds: seq<EventKind>, now: Time): (es: seq<Event>)
    ensures |es| == |kinds|
  {
    if kinds == [] then []
    else
      Stamped(userId, roundId, kinds[..|kinds| - 1], now)
      + [Event(userId, roundId, kinds[|kinds| - 1], now, false)]
  }

  /** Each of them names the user, the round and the time it was given, and waits to be processed. */
  lemma {:induction false} StampedAt(userId: Id, roundId: Option<Id>, kinds: seq<EventKind>, now: Time)
    ensures Stamped(userId, roundId, kinds, now)
         == seq(|kinds|, i requires 0 <= i < |kinds| => Event(userId, roundId, kinds[i], now, false))
    decreases |kinds|
  {
    if kinds != [] {
      StampedAt(userId, roundId, kinds[..|kinds| - 1], now);
    }
  }

  /** What happened to one round, oldest first. */
  function Slice(log: seq<Event>, id: Id): seq<EventKind> {
    if log == [] then []
    else
      var e := log[|log| - 1];
      Slice(log[..|log| - 1], id) + (if e.roundId == Some(id) then [e.kind] else [])
  }

  lemma SliceAppend(log: seq<Event>, e: Event, id: Id)
    ensures Slice(log + [e], id) == Slice(log, id) + (if e.roundId == Some(id) then [e.kind] else [])
  {
    assert (log + [e])[..|log|] == log;
  }

  lemma {:induction false} SliceStamped(log: seq<Event>, userId: Id, roundId: Option<Id>, kinds: seq<EventKind>,
                                        now: Time, id: Id)
    ensures Slice(log + Stamped(userId, roundId, kinds, now), id)
         == Slice(log, id) + (if roundId == Some(id) then kinds else [])
    decreases |kinds|
  {
    if kinds == [] {
      assert log + [] == log;
      assert Slice(log, id) + [] == Slice(log, id);
    } else {
      var n := |kinds| - 1;
      var front := Stamped(userId, roundId, kinds[..n], now);
      var e := Event(userId, roundId, kinds[n], now, false);
      SliceStamped(log, userId, roundId, kinds[..n], now, id);
      SliceAppend(log + front, e, id);
      assert log + Stamped(userId, roundId, kinds, now) == (log + front) + [e];
      assert kinds == kinds[..n] + [kinds[n]];
    }
  }

  /** Marking an event processed does not change any round's history. */
  lemma {:induction false} SliceMark(log: seq<Event>, i: nat, id: Id)
    requires i < |log|
    ensures Slice(log[i := log[i].(isProcessed := true)], id) == Slice(log, id)
  {
    var n := |log| - 1;
    var marked := log[i := log[i].(isProcessed := true)];
    if i < n {
      SliceMark(log[..n], i, id);
      assert marked[..n] == log[..n][i := log[..n][i].(isProcessed := true)];
    } else {
      assert marked[..n] == log[..n];
    }
  }
}
