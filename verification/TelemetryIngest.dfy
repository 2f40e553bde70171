/** Telemetry ingest: validation with a running index, deduplication against stored rows,
    bulk insert and fan-out into the event log. */
module TelemetryIngest {
  import opened Options
  import opened Schema
  import opened Counting

  /** Dates are `None` when the string does not parse. */
  datatype Input = Input(eventType: TelemetryType, payload: Payload, occurredAt: Option<Time>, roundId: Option<Id>)

  datatype Batch = Batch(periodStart: Option<Time>, periodEnd: Option<Time>, events: seq<Input>)

  datatype Dto = Dto(deviceId: string, batches: seq<Batch>)

  datatype Reason = InvalidBounds | InvalidOccurredAt | TooOld | InFuture

  datatype Rejection = Rejection(index: nat, reason: Reason)

  datatype IngestResult = IngestResult(accepted: nat, rejected: nat, errors: seq<Rejection>)

  const SEVEN_DAYS_MS := 7 * 24 * 60 * 60 * 1000

  predicate BadBounds(b: Batch) {
    b.periodStart.None? || b.periodEnd.None?
  }

  /** The first reason to refuse an event, if any. */
  function Check(e: Input, now: Time): Option<Reason> {
    if e.occurredAt.None? then Some(InvalidOccurredAt)
    else if now - e.occurredAt.value > SEVEN_DAYS_MS then Some(TooOld)
    else if e.occurredAt.value > now + 60000 then Some(InFuture)
    else None
  }

  function IsProductive(t: TelemetryType): Option<bool> {
    if t.GitCommit? || t.TerminalActivity? || t.FocusSessionEnded? || t.IdeActivity? then Some(true)
    else if t.DistractionDetected? || t.IdleDetected? then Some(false)
    else None
  }

  function RowFor(userId: Id, deviceId: string, e: Input): TelemetryRow
    requires e.occurredAt.Some?
  {
    TelemetryRow(userId, e.roundId, deviceId, e.eventType, e.payload, IsProductive(e.eventType), e.occurredAt.value)
  }

  /** What each reason says of an event. */
  predicate Refused(e: Input, now: Time, reason: Reason) {
    match reason
    case InvalidOccurredAt => e.occurredAt == None
    case TooOld => e.occurredAt != None && e.occurredAt.value < now - 604800000
    case InFuture => e.occurredAt != None && now + 60000 < e.occurredAt.value
    case InvalidBounds => false
  }

  /** Dated, at most seven days old and at most a minute ahead. */
  predicate Acceptable(e: Input, now: Time) {
    e.occurredAt != None && now - 604800000 <= e.occurredAt.value <= now + 60000
  }

  /** The row says what the event says, for this user and device, and whether the type counts as productive. */
  predicate StandsFor(row: TelemetryRow, e: Input, userId: Id, deviceId: string) {
    && row.userId == userId && row.deviceId == deviceId
    && row.roundId == e.roundId && row.eventType == e.eventType && row.payload == e.payload
    && e.occurredAt == Some(row.occurredAt)
    && row.isProductive == (if row.eventType in {GitCommit, TerminalActivity, FocusSessionEnded, IdeActivity}
                            then Some(true)
                            else if row.eventType in {DistractionDetected, IdleDetected} then Some(false) else None)
  }

  lemma CheckMeans(e: Input, now: Time, reason: Reason)
    ensures Check(e, now) == Some(reason) <==> Refused(e, now, reason)
    ensures Check(e, now) == None <==> Acceptable(e, now)
  {
  }

  lemma RowMeans(row: TelemetryRow, e: Input, userId: Id, deviceId: string)
    ensures e.occurredAt.Some? ==> (row == RowFor(userId, deviceId, e) <==> StandsFor(row, e, userId, deviceId))
  {
  }

  // ----- validation, batch by batch -----

  /** The events of all batches in one list, over which the running index counts. */
  function Flatten(batches: seq<Batch>): seq<Input> {
    if batches == [] then [] else Flatten(batches[..|batches| - 1]) + batches[|batches| - 1].events
  }

  function EventErrors(es: seq<Input>, base: nat, now: Time): seq<Rejection> {
    if es == [] then []
    else
      var n := |es| - 1;
      EventErrors(es[..n], base, now)
      + (if Check(es[n], now).Some? then [Rejection(base + n, Check(es[n], now).value)] else [])
  }

  function EventRows(es: seq<Input>, userId: Id, deviceId: string, now: Time): (rows: seq<TelemetryRow>)
    ensures forall row | row in rows :: row.deviceId == deviceId
  {
    if es == [] then []
    else
      var n := |es| - 1;
      EventRows(es[..n], userId, deviceId, now)
      + (if Check(es[n], now).None? then [RowFor(userId, deviceId, es[n])] else [])
  }

  function BatchErrors(b: Batch, base: nat, now: Time): seq<Rejection> {
    if BadBounds(b) then [Rejection(base, InvalidBounds)] else EventErrors(b.events, base, now)
  }

  function Errors(batches: seq<Batch>, now: Time): seq<Rejection> {
    if batches == [] then []
    else
      var n := |batches| - 1;
      Errors(batches[..n], now) + BatchErrors(batches[n], |Flatten(batches[..n])|, now)
  }

  function Candidates(batches: seq<Batch>, userId: Id, deviceId: string, now: Time): (rows: seq<TelemetryRow>)
    ensures forall row | row in rows :: row.deviceId == deviceId
  {
    if batches == [] then []
    else
      var n := |batches| - 1;
      Candidates(batches[..n], userId, deviceId, now)
      + (if BadBounds(batches[n]) then [] else EventRows(batches[n].events, userId, deviceId, now))
  }

  // ----- what an error index means -----

  lemma {:induction false} EventErrorsMean(es: seq<Input>, base: nat, now: Time, index: nat, reason: Reason)
    ensures Rejection(index, reason) in EventErrors(es, base, now)
        <==> base <= index < base + |es| && Refused(es[index - base], now, reason)
  {
    if es != [] {
      EventErrorsMean(es[..|es| - 1], base, now, index, reason);
      CheckMeans(es[|es| - 1], now, reason);
    }
  }

  /** Batch `b` begins at this position of the flattened list. */
  function Offset(batches: seq<Batch>, b: nat): nat
    requires b <= |batches|
  {
    |Flatten(batches[..b])|
  }

  /** Event `k` of batch `b` stands at its offset plus `k`. */
  lemma {:induction false} FlattenAt(batches: seq<Batch>, b: nat, k: nat)
    requires b < |batches| && k < |batches[b].events|
    ensures Offset(batches, b) + k < |Flatten(batches)|
    ensures Flatten(batches)[Offset(batches, b) + k] == batches[b].events[k]
  {
    var n := |batches| - 1;
    if b < n {
      FlattenAt(batches[..n], b, k);
      assert batches[..n][..b] == batches[..b];
    }
  }

  /** The entry says why batch `b`, or an event of it, was refused. */
  predicate Blames(batches: seq<Batch>, now: Time, b: nat, err: Rejection)
    requires b < |batches|
  {
    if batches[b].periodStart == None || batches[b].periodEnd == None
    then err == Rejection(Offset(batches, b), InvalidBounds)
    else
      && Offset(batches, b) <= err.index < Offset(batches, b) + |batches[b].events|
      && Refused(batches[b].events[err.index - Offset(batches, b)], now, err.reason)
  }

  lemma BlamesInFront(batches: seq<Batch>, now: Time, b: nat, err: Rejection)
    requires b < |batches| - 1
    ensures Blames(batches[..|batches| - 1], now, b, err) == Blames(batches, now, b, err)
  {
    assert batches[..|batches| - 1][..b] == batches[..b];
  }

  lemma BatchErrorsMean(batches: seq<Batch>, now: Time, err: Rejection)
    requires batches != []
    ensures var n := |batches| - 1;
            err in BatchErrors(batches[n], Offset(batches, n), now) <==> Blames(batches, now, n, err)
  {
    var n := |batches| - 1;
    EventErrorsMean(batches[n].events, Offset(batches, n), now, err.index, err.reason);
  }

  /** An error is reported exactly when some batch is to blame: a bad batch is reported where its
      events begin, a refused event at its own position in the flattened list. */
  lemma {:induction false} ErrorsMean(batches: seq<Batch>, now: Time, err: Rejection)
    ensures err in Errors(batches, now) <==> exists b: nat :: b < |batches| && Blames(batches, now, b, err)
  {
    if batches != [] {
      var n := |batches| - 1;
      ErrorsMean(batches[..n], now, err);
      BatchErrorsMean(batches, now, err);
      forall b: nat | b < n
        ensures Blames(batches[..n], now, b, err) == Blames(batches, now, b, err)
      {
        BlamesInFront(batches, now, b, err);
      }
    }
  }

  // ----- what a candidate row is -----

  lemma {:induction false} EventRowsMean(es: seq<Input>, userId: Id, deviceId: string, now: Time, row: TelemetryRow)
    ensures row in EventRows(es, userId, deviceId, now)
       <==> exists k :: 0 <= k < |es| && Gives(es[k], userId, deviceId, now, row)
  {
    if es != [] {
      var n := |es| - 1;
      EventRowsMean(es[..n], userId, deviceId, now, row);
      CheckMeans(es[n], now, InvalidBounds);
      RowMeans(row, es[n], userId, deviceId);
      if k :| 0 <= k < |es| && Gives(es[k], userId, deviceId, now, row) {
        assert k < n ==> es[..n][k] == es[k];
      }
      if k :| 0 <= k < n && Gives(es[..n][k], userId, deviceId, now, row) {
        assert es[k] == es[..n][k];
      }
    }
  }

  predicate Gives(e: Input, userId: Id, deviceId: string, now: Time, row: TelemetryRow) {
    Acceptable(e, now) && StandsFor(row, e, userId, deviceId)
  }

  /** The batch has valid bounds and holds an acceptable event that the row stands for. */
  predicate Supplies(b: Batch, userId: Id, deviceId: string, now: Time, row: TelemetryRow) {
    && b.periodStart != None && b.periodEnd != None
    && exists k :: 0 <= k < |b.events| && Gives(b.events[k], userId, deviceId, now, row)
  }

  /** Some batch supplies the row. */
  predicate Supplied(batches: seq<Batch>, userId: Id, deviceId: string, now: Time, row: TelemetryRow) {
    exists b :: 0 <= b < |batches| && Supplies(batches[b], userId, deviceId, now, row)
  }

  lemma SuppliedSnoc(batches: seq<Batch>, userId: Id, deviceId: string, now: Time, row: TelemetryRow)
    requires batches != []
    ensures Supplied(batches, userId, deviceId, now, row)
       <==> || Supplied(batches[..|batches| - 1], userId, deviceId, now, row)
            || Supplies(batches[|batches| - 1], userId, deviceId, now, row)
  {
    var n := |batches| - 1;
    if Supplied(batches[..n], userId, deviceId, now, row) {
      var b :| 0 <= b < n && Supplies(batches[..n][b], userId, deviceId, now, row);
      assert batches[b] == batches[..n][b];
    }
    if Supplied(batches, userId, deviceId, now, row) {
      var b :| 0 <= b < |batches| && Supplies(batches[b], userId, deviceId, now, row);
      assert b < n ==> batches[..n][b] == batches[b];
    }
  }

  lemma BatchSupplies(b: Batch, userId: Id, deviceId: string, now: Time, row: TelemetryRow)
    ensures row in (if BadBounds(b) then [] else EventRows(b.events, userId, deviceId, now))
       <==> Supplies(b, userId, deviceId, now, row)
  {
    EventRowsMean(b.events, userId, deviceId, now, row);
  }

  /** The candidate rows stand for exactly the acceptable events of the batches with valid bounds. */
  lemma {:induction false} CandidatesMean(batches: seq<Batch>, userId: Id, deviceId: string, now: Time,
                                          row: TelemetryRow)
    ensures row in Candidates(batches, userId, deviceId, now) <==> Supplied(batches, userId, deviceId, now, row)
  {
    if batches != [] {
      var n := |batches| - 1;
      CandidatesMean(batches[..n], userId, deviceId, now, row);
      BatchSupplies(batches[n], userId, deviceId, now, row);
      SuppliedSnoc(batches, userId, deviceId, now, row);
    }
  }

  function BatchRows(b: Batch, userId: Id, deviceId: string, now: Time): seq<TelemetryRow> {
    if b.periodStart == None || b.periodEnd == None then [] else EventRows(b.events, userId, deviceId, now)
  }

  lemma CandidatesSnoc(batches: seq<Batch>, b: Batch, userId: Id, deviceId: string, now: Time)
    ensures Candidates(batches + [b], userId, deviceId, now)
         == Candidates(batches, userId, deviceId, now) + BatchRows(b, userId, deviceId, now)
  {
    assert (batches + [b])[..|batches|] == batches;
  }

  lemma Regroup<T>(x: seq<T>, y: seq<T>, z: seq<T>)
    ensures (x + y) + z == x + (y + z)
  {
  }

  /** Candidates come in the order of their events: those of some batches before those of later ones, and within a
      batch those of some events before those of later ones. */
  lemma {:induction false} CandidatesInOrder(a: seq<Batch>, b: seq<Batch>, userId: Id, deviceId: string, now: Time)
    ensures Candidates(a + b, userId, deviceId, now)
         == Candidates(a, userId, deviceId, now) + Candidates(b, userId, deviceId, now)
    decreases |b|
  {
    if b == [] {
      assert a + b == a;
      return;
    }
    var front, last := b[..|b| - 1], b[|b| - 1];
    CandidatesInOrder(a, front, userId, deviceId, now);
    CandidatesSnoc(a + front, last, userId, deviceId, now);
    CandidatesSnoc(front, last, userId, deviceId, now);
    Regroup(a, front, [last]);
    assert b == front + [last];
    Regroup(Candidates(a, userId, deviceId, now), Candidates(front, userId, deviceId, now),
            BatchRows(last, userId, deviceId, now));
  }

  lemma {:induction false} RowsInOrder(a: seq<Input>, b: seq<Input>, userId: Id, deviceId: string, now: Time)
    ensures EventRows(a + b, userId, deviceId, now)
         == EventRows(a, userId, deviceId, now) + EventRows(b, userId, deviceId, now)
    decreases |b|
  {
    if b == [] {
      assert a + b == a;
    } else {
      var n := |b| - 1;
      RowsInOrder(a, b[..n], userId, deviceId, now);
      assert (a + b)[..|a| + n] == a + b[..n] && (a + b)[|a| + n] == b[n];
    }
  }

  predicate Ascending(errors: seq<Rejection>, from: nat, to: nat) {
    && (forall i | 0 <= i < |errors| :: from <= errors[i].index <= to)
    && (forall i, j | 0 <= i < j < |errors| :: errors[i].index <= errors[j].index)
  }

  lemma {:induction false} EventErrorsInOrder(es: seq<Input>, base: nat, now: Time)
    ensures Ascending(EventErrors(es, base, now), base, base + |es|)
  {
    if es != [] {
      EventErrorsInOrder(es[..|es| - 1], base, now);
      EventErrorsBelow(es[..|es| - 1], base, now);
    }
  }

  lemma EventErrorsBelow(es: seq<Input>, base: nat, now: Time)
    ensures forall err | err in EventErrors(es, base, now) :: err.index < base + |es|
  {
    forall err | err in EventErrors(es, base, now)
      ensures err.index < base + |es|
    {
      EventErrorsMean(es, base, now, err.index, err.reason);
    }
  }

  /** Errors are listed in the order in which they were found. */
  lemma {:induction false} ErrorsInOrder(batches: seq<Batch>, now: Time)
    ensures Ascending(Errors(batches, now), 0, |Flatten(batches)|)
  {
    if batches != [] {
      var n := |batches| - 1;
      ErrorsInOrder(batches[..n], now);
      EventErrorsInOrder(batches[n].events, Offset(batches, n), now);
    }
  }

  // ----- accounting -----

  function EventsInGoodBatches(batches: seq<Batch>): nat {
    if batches == [] then 0
    else
      var b := batches[|batches| - 1];
      EventsInGoodBatches(batches[..|batches| - 1]) + (if BadBounds(b) then 0 else |b.events|)
  }

  lemma {:induction false} EventsAccounted(es: seq<Input>, userId: Id, deviceId: string, base: nat, now: Time)
    ensures |EventErrors(es, base, now)| + |EventRows(es, userId, deviceId, now)| == |es|
  {
    if es != [] {
      EventsAccounted(es[..|es| - 1], userId, deviceId, base, now);
    }
  }

  lemma {:induction false} ScanAccounted(batches: seq<Batch>, userId: Id, deviceId: string, now: Time)
    ensures |Errors(batches, now)| + |Candidates(batches, userId, deviceId, now)|
         == EventsInGoodBatches(batches) + Count(batches, BadBounds)
  {
    if batches != [] {
      var n := |batches| - 1;
      ScanAccounted(batches[..n], userId, deviceId, now);
      EventsAccounted(batches[n].events, userId, deviceId, Offset(batches, n), now);
    }
  }

  // ----- deduplication -----

  type Key = (string, Time, TelemetryType)

  function KeyOf(row: TelemetryRow): Key {
    (row.deviceId, row.occurredAt, row.eventType)
  }

  function Keys(rows: seq<TelemetryRow>): set<Key> {
    set row | row in rows :: KeyOf(row)
  }

  /** The rows whose key is not among the given ones, repeats included. */
  function Without(rows: seq<TelemetryRow>, keys: set<Key>): (kept: seq<TelemetryRow>)
    ensures |kept| <= |rows|
  {
    if rows == [] then []
    else
      var row := rows[|rows| - 1];
      Without(rows[..|rows| - 1], keys) + (if KeyOf(row) in keys then [] else [row])
  }

  lemma {:induction false} WithoutMeans(rows: seq<TelemetryRow>, keys: set<Key>, row: TelemetryRow)
    ensures row in Without(rows, keys) <==> row in rows && KeyOf(row) !in keys
  {
    if rows != [] {
      WithoutMeans(rows[..|rows| - 1], keys, row);
    }
  }

  function MinTime(rows: seq<TelemetryRow>): (t: Time)
    requires rows != []
    ensures forall row | row in rows :: t <= row.occurredAt
  {
    var last := rows[|rows| - 1].occurredAt;
    if |rows| == 1 then last
    else
      var t := MinTime(rows[..|rows| - 1]);
      if last < t then last else t
  }

  function MaxTime(rows: seq<TelemetryRow>): (t: Time)
    requires rows != []
    ensures forall row | row in rows :: row.occurredAt <= t
  {
    var last := rows[|rows| - 1].occurredAt;
    if |rows| == 1 then last
    else
      var t := MaxTime(rows[..|rows| - 1]);
      if t < last then last else t
  }

  /** The stored rows in the lookup's range. */
  function Existing(telemetry: seq<TelemetryRow>, deviceId: string, types: set<TelemetryType>, from: Time,
                    to: Time): seq<TelemetryRow>
  {
    if telemetry == [] then []
    else
      var row := telemetry[|telemetry| - 1];
      Existing(telemetry[..|telemetry| - 1], deviceId, types, from, to)
      + (if row.deviceId == deviceId && row.eventType in types && from <= row.occurredAt <= to then [row] else [])
  }

  lemma {:induction false} ExistingMeans(telemetry: seq<TelemetryRow>, deviceId: string, types: set<TelemetryType>,
                                         from: Time, to: Time, row: TelemetryRow)
    ensures row in Existing(telemetry, deviceId, types, from, to) <==>
              row in telemetry && row.deviceId == deviceId && row.eventType in types && from <= row.occurredAt <= to
  {
    if telemetry != [] {
      ExistingMeans(telemetry[..|telemetry| - 1], deviceId, types, from, to, row);
    }
  }

  function ToInsert(telemetry: seq<TelemetryRow>, deviceId: string, rows: seq<TelemetryRow>): seq<TelemetryRow> {
    if rows == [] then []
    else
      var types := set row | row in rows :: row.eventType;
      Without(rows, Keys(Existing(telemetry, deviceId, types, MinTime(rows), MaxTime(rows))))
  }

  lemma {:induction false} WithoutAgree(rows: seq<TelemetryRow>, some: set<Key>, all: set<Key>)
    requires forall row | row in rows :: KeyOf(row) in some <==> KeyOf(row) in all
    ensures Without(rows, some) == Without(rows, all)
  {
    if rows != [] {
      WithoutAgree(rows[..|rows| - 1], some, all);
    }
  }

  /** Narrowing the lookup to the batch's device, types and time span drops exactly the
      candidates that a lookup in the full table would drop. */
  lemma DedupRefinesFullLookup(telemetry: seq<TelemetryRow>, deviceId: string, rows: seq<TelemetryRow>)
    requires forall row | row in rows :: row.deviceId == deviceId
    ensures ToInsert(telemetry, deviceId, rows) == Without(rows, Keys(telemetry))
  {
    if rows != [] {
      var types := set row | row in rows :: row.eventType;
      var existing := Existing(telemetry, deviceId, types, MinTime(rows), MaxTime(rows));
      forall row | row in rows
        ensures KeyOf(row) in Keys(existing) <==> KeyOf(row) in Keys(telemetry)
      {
        if stored :| stored in telemetry && KeyOf(stored) == KeyOf(row) {
          ExistingMeans(telemetry, deviceId, types, MinTime(rows), MaxTime(rows), stored);
        }
        if found :| found in existing && KeyOf(found) == KeyOf(row) {
          ExistingMeans(telemetry, deviceId, types, MinTime(rows), MaxTime(rows), found);
        }
      }
      WithoutAgree(rows, Keys(existing), Keys(telemetry));
    }
  }

  // ----- fan-out -----

  /** `ide_activity` and `browser_tab_changed` have no operational event. */
  predicate Reported(t: TelemetryType) {
    !t.IdeActivity? && !t.BrowserTabChanged?
  }

  function EventFor(row: TelemetryRow): Event {
    Event(row.userId, row.roundId, Behavior(row.eventType), row.occurredAt, false)
  }

  function FanOut(rows: seq<TelemetryRow>): seq<Event> {
    if rows == [] then []
    else
      var row := rows[|rows| - 1];
      FanOut(rows[..|rows| - 1]) + (if Reported(row.eventType) then [EventFor(row)] else [])
  }

  /** Each reported row gives one event, in order: its user, round, type and time, not yet processed. */
  lemma {:induction false} FanOutMeans(a: seq<TelemetryRow>, b: seq<TelemetryRow>, row: TelemetryRow)
    ensures FanOut(a + b) == FanOut(a) + FanOut(b)
    ensures FanOut([row]) == if row.eventType == IdeActivity || row.eventType == BrowserTabChanged then []
                             else [Event(row.userId, row.roundId, Behavior(row.eventType), row.occurredAt, false)]
    decreases |b|
  {
    assert [row][..0] == [];
    if b == [] {
      assert a + b == a;
    } else {
      var n := |b| - 1;
      FanOutMeans(a, b[..n], row);
      assert (a + b)[..|a| + n] == a + b[..n] && (a + b)[|a| + n] == b[n];
    }
  }

  // ----- the call -----

  function Ingest(s: Sys, userId: Id, dto: Dto, now: Time): (Sys, IngestResult) {
    var errors := Errors(dto.batches, now);
    var rows := Candidates(dto.batches, userId, dto.deviceId, now);
    var fresh_ := ToInsert(s.telemetry, dto.deviceId, rows);
    (s.(telemetry := s.telemetry + fresh_, log := s.log + FanOut(fresh_)),
     IngestResult(|fresh_|, |errors| + (|rows| - |fresh_|), errors))
  }

  function Inserted(s: Sys, userId: Id, dto: Dto, now: Time): seq<TelemetryRow> {
    ToInsert(s.telemetry, dto.deviceId, Candidates(dto.batches, userId, dto.deviceId, now))
  }

  /** Every event of a batch with valid bounds, and every batch without, is answered for. */
  lemma IngestAccounting(s: Sys, userId: Id, dto: Dto, now: Time)
    ensures var r := Ingest(s, userId, dto, now).1;
            r.accepted + r.rejected == EventsInGoodBatches(dto.batches) + Count(dto.batches, BadBounds)
  {
    ScanAccounted(dto.batches, userId, dto.deviceId, now);
  }

  /** A call inserts a row for each candidate key that was not stored, and for no other. */
  lemma InsertedKeys(s: Sys, userId: Id, dto: Dto, now: Time)
    ensures Keys(Inserted(s, userId, dto, now))
         == Keys(Candidates(dto.batches, userId, dto.deviceId, now)) - Keys(s.telemetry)
  {
    var rows := Candidates(dto.batches, userId, dto.deviceId, now);
    DedupRefinesFullLookup(s.telemetry, dto.deviceId, rows);
    forall row | true
      ensures row in Without(rows, Keys(s.telemetry)) <==> row in rows && KeyOf(row) !in Keys(s.telemetry)
    {
      WithoutMeans(rows, Keys(s.telemetry), row);
    }
  }

  /** The same device, time and type. */
  predicate SameKey(a: TelemetryRow, b: TelemetryRow) {
    a.deviceId == b.deviceId && a.occurredAt == b.occurredAt && a.eventType == b.eventType
  }

  /** A row is inserted exactly when an acceptable event gives it and no stored row has its device, time and type. */
  lemma InsertedMeans(s: Sys, userId: Id, dto: Dto, now: Time, row: TelemetryRow)
    ensures row in Inserted(s, userId, dto, now)
       <==> && Supplied(dto.batches, userId, dto.deviceId, now, row)
            && forall stored | stored in s.telemetry :: !SameKey(stored, row)
  {
    var rows := Candidates(dto.batches, userId, dto.deviceId, now);
    CandidatesMean(dto.batches, userId, dto.deviceId, now, row);
    DedupRefinesFullLookup(s.telemetry, dto.deviceId, rows);
    WithoutMeans(rows, Keys(s.telemetry), row);
    forall stored: TelemetryRow | true
      ensures SameKey(stored, row) <==> KeyOf(stored) == KeyOf(row)
    {
    }
  }

  /** What a call does: it adds rows to the telemetry, logs the events of those rows, and answers with their number and
      that of everything refused, duplicates among the candidates included. */
  lemma IngestMeans(s: Sys, userId: Id, dto: Dto, now: Time)
    ensures var (s', r) := Ingest(s, userId, dto, now);
            var added := Inserted(s, userId, dto, now);
            && s' == s.(telemetry := s.telemetry + added, log := s.log + FanOut(added))
            && r.errors == Errors(dto.batches, now)
            && r.accepted == |added|
            && r.accepted + r.rejected == |r.errors| + |Candidates(dto.batches, userId, dto.deviceId, now)|
  {
  }

  lemma KeysConcat(a: seq<TelemetryRow>, b: seq<TelemetryRow>)
    ensures Keys(a + b) == Keys(a) + Keys(b)
  {
    forall key | key in Keys(a) + Keys(b)
      ensures key in Keys(a + b)
    {
      var row :| (row in a || row in b) && KeyOf(row) == key;
      assert row in a + b;
    }
  }

  /** After a call every candidate's key is stored. */
  lemma CandidatesStored(s: Sys, userId: Id, dto: Dto, now: Time)
    ensures Keys(Candidates(dto.batches, userId, dto.deviceId, now)) <= Keys(Ingest(s, userId, dto, now).0.telemetry)
  {
    InsertedKeys(s, userId, dto, now);
    KeysConcat(s.telemetry, Inserted(s, userId, dto, now));
  }

  lemma RowsHaveKeys(rows: seq<TelemetryRow>)
    ensures rows != [] ==> Keys(rows) != {}
  {
    if rows != [] {
      assert KeyOf(rows[0]) in Keys(rows);
    }
  }

  /** Sending a batch again, at any later point at which no further event of it has become
      acceptable, stores and logs nothing. */
  lemma RetryInsertsNothing(s: Sys, userId: Id, dto: Dto, now: Time, s': Sys, later: Time)
    requires Keys(Ingest(s, userId, dto, now).0.telemetry) <= Keys(s'.telemetry)
    requires Keys(Candidates(dto.batches, userId, dto.deviceId, later))
             <= Keys(Candidates(dto.batches, userId, dto.deviceId, now))
    ensures Ingest(s', userId, dto, later).0 == s' && Ingest(s', userId, dto, later).1.accepted == 0
  {
    CandidatesStored(s, userId, dto, now);
    InsertedKeys(s', userId, dto, later);
    RowsHaveKeys(Inserted(s', userId, dto, later));
    assert s'.telemetry + [] == s'.telemetry && s'.log + [] == s'.log;
  }

  predicate DistinctKeys(rows: seq<TelemetryRow>) {
    forall i, j | 0 <= i < j < |rows| :: KeyOf(rows[i]) != KeyOf(rows[j])
  }

  /** Only known keys occur twice. */
  predicate RepeatsKnown(rows: seq<TelemetryRow>, keys: set<Key>) {
    forall i, j | 0 <= i < j < |rows| && KeyOf(rows[i]) == KeyOf(rows[j]) :: KeyOf(rows[i]) in keys
  }

  lemma DistinctSnoc(rows: seq<TelemetryRow>, row: TelemetryRow)
    ensures DistinctKeys(rows + [row]) <==> DistinctKeys(rows) && KeyOf(row) !in Keys(rows)
  {
    var more := rows + [row];
    if DistinctKeys(more) {
      forall i, j | 0 <= i < j < |rows|
        ensures KeyOf(rows[i]) != KeyOf(rows[j])
      {
        assert more[i] == rows[i] && more[j] == rows[j];
      }
      forall i | 0 <= i < |rows|
        ensures KeyOf(rows[i]) != KeyOf(row)
      {
        assert more[i] == rows[i] && more[|rows|] == row;
      }
    }
  }

  lemma RepeatsSnoc(rows: seq<TelemetryRow>, row: TelemetryRow, keys: set<Key>)
    ensures RepeatsKnown(rows + [row], keys)
       <==> RepeatsKnown(rows, keys) && (KeyOf(row) in Keys(rows) ==> KeyOf(row) in keys)
  {
    var more := rows + [row];
    if RepeatsKnown(more, keys) {
      forall i, j | 0 <= i < j < |rows| && KeyOf(rows[i]) == KeyOf(rows[j])
        ensures KeyOf(rows[i]) in keys
      {
        assert more[i] == rows[i] && more[j] == rows[j];
      }
      if i :| 0 <= i < |rows| && KeyOf(rows[i]) == KeyOf(row) {
        assert KeyOf(more[i]) == KeyOf(more[|rows|]);
      }
    }
  }

  lemma KeptKeys(rows: seq<TelemetryRow>, keys: set<Key>)
    ensures Keys(Without(rows, keys)) == Keys(rows) - keys
  {
    forall row | true
      ensures row in Without(rows, keys) <==> row in rows && KeyOf(row) !in keys
    {
      WithoutMeans(rows, keys, row);
    }
  }

  lemma {:induction false} WithoutDistinct(rows: seq<TelemetryRow>, keys: set<Key>)
    ensures DistinctKeys(Without(rows, keys)) <==> RepeatsKnown(rows, keys)
  {
    if rows != [] {
      var front, row := rows[..|rows| - 1], rows[|rows| - 1];
      assert rows == front + [row];
      WithoutDistinct(front, keys);
      RepeatsSnoc(front, row, keys);
      DistinctSnoc(Without(front, keys), row);
      KeptKeys(front, keys);
      assert Without(front, keys) + [] == Without(front, keys);
    }
  }

  /** The rows of one call have pairwise different keys if and only if no key occurs twice among its
      candidates without having been stored before. */
  lemma OneCallDistinct(s: Sys, userId: Id, dto: Dto, now: Time)
    ensures DistinctKeys(Inserted(s, userId, dto, now))
       <==> RepeatsKnown(Candidates(dto.batches, userId, dto.deviceId, now), Keys(s.telemetry))
  {
    var rows := Candidates(dto.batches, userId, dto.deviceId, now);
    DedupRefinesFullLookup(s.telemetry, dto.deviceId, rows);
    WithoutDistinct(rows, Keys(s.telemetry));
  }

  /** For instance a batch that repeats an event, sent to an empty table, stores its key twice. */
  lemma OneCallMayRepeatAKey(s: Sys, userId: Id, e: Input, now: Time)
    requires Check(e, now).None? && s.telemetry == []
    ensures var dto := Dto("device", [Batch(Some(0), Some(1), [e, e])]);
            Inserted(s, userId, dto, now) == [RowFor(userId, "device", e), RowFor(userId, "device", e)]
  {
    var batch := Batch(Some(0), Some(1), [e, e]);
    var row := RowFor(userId, "device", e);
    assert [e, e][..1] == [e] && [e][..0] == [];
    assert EventRows([e], userId, "device", now) == [row];
    assert EventRows([e, e], userId, "device", now) == [row, row];
    assert [batch][..0] == [];
    assert Candidates([batch], userId, "device", now) == [row, row];
    DedupRefinesFullLookup(s.telemetry, "device", [row, row]);
    assert [row, row][..1] == [row] && [row][..0] == [];
    assert Without([row], {}) == [row];
    assert Without([row, row], {}) == [row, row];
  }

  // ----- one step of each loop -----

  lemma EventStep(es: seq<Input>, k: nat, userId: Id, deviceId: string, base: nat, now: Time)
    requires k < |es|
    ensures EventErrors(es[..k + 1], base, now)
         == EventErrors(es[..k], base, now)
            + (if Check(es[k], now).Some? then [Rejection(base + k, Check(es[k], now).value)] else [])
    ensures EventRows(es[..k + 1], userId, deviceId, now)
         == EventRows(es[..k], userId, deviceId, now)
            + (if Check(es[k], now).None? then [RowFor(userId, deviceId, es[k])] else [])
  {
    assert es[..k + 1][..k] == es[..k];
  }

  lemma BatchStep(batches: seq<Batch>, i: nat, userId: Id, deviceId: string, now: Time)
    requires i < |batches|
    ensures Flatten(batches[..i + 1]) == Flatten(batches[..i]) + batches[i].events
    ensures Errors(batches[..i + 1], now)
         == Errors(batches[..i], now) + BatchErrors(batches[i], |Flatten(batches[..i])|, now)
    ensures Candidates(batches[..i + 1], userId, deviceId, now)
         == Candidates(batches[..i], userId, deviceId, now)
            + (if BadBounds(batches[i]) then [] else EventRows(batches[i].events, userId, deviceId, now))
  {
    assert batches[..i + 1][..i] == batches[..i];
  }

  class TelemetryService {
    const db: Database

    constructor (db: Database)
      ensures this.db == db
    {
      this.db := db;
    }

    method Validate(userId: Id, dto: Dto, now: Time) returns (errors: seq<Rejection>, candidateRows: seq<TelemetryRow>)
      ensures errors == Errors(dto.batches, now)
      ensures candidateRows == Candidates(dto.batches, userId, dto.deviceId, now)
    {
      errors, candidateRows := [], [];
      var globalIndex := 0;
      for i := 0 to |dto.batches|
        invariant globalIndex == |Flatten(dto.batches[..i])|
        invariant errors == Errors(dto.batches[..i], now)
        invariant candidateRows == Candidates(dto.batches[..i], userId, dto.deviceId, now)
      {
        var batch := dto.batches[i];
        BatchStep(dto.batches, i, userId, dto.deviceId, now);
        if batch.periodStart.None? || batch.periodEnd.None? {
          errors := errors + [Rejection(globalIndex, InvalidBounds)];
          globalIndex := globalIndex + |batch.events|;
          continue;
        }
        var moreErrors, moreRows := ValidateEvents(userId, dto.deviceId, batch.events, globalIndex, now);
        errors, candidateRows := errors + moreErrors, candidateRows + moreRows;
        globalIndex := globalIndex + |batch.events|;
      }
      assert dto.batches[..|dto.batches|] == dto.batches;
    }

    /** The inner loop, from the running index `base`. */
    method ValidateEvents(userId: Id, deviceId: string, events: seq<Input>, base: nat, now: Time)
      returns (errors: seq<Rejection>, rows: seq<TelemetryRow>)
      ensures errors == EventErrors(events, base, now)
      ensures rows == EventRows(events, userId, deviceId, now)
    {
      errors, rows := [], [];
      var globalIndex := base;
      for k := 0 to |events|
        invariant globalIndex == base + k
        invariant errors == EventErrors(events[..k], base, now)
        invariant rows == EventRows(events[..k], userId, deviceId, now)
      {
        var event := events[k];
        EventStep(events, k, userId, deviceId, base, now);
        if event.occurredAt.None? {
          errors := errors + [Rejection(globalIndex, InvalidOccurredAt)];
        } else if now - event.occurredAt.value > SEVEN_DAYS_MS {
          errors := errors + [Rejection(globalIndex, TooOld)];
        } else if event.occurredAt.value > now + 60000 {
          errors := errors + [Rejection(globalIndex, InFuture)];
        } else {
          rows := rows + [RowFor(userId, deviceId, event)];
        }
        globalIndex := globalIndex + 1;
      }
      assert events[..|events|] == events;
    }

    method IngestBatch(userId: Id, dto: Dto, now: Time) returns (r: IngestResult)
      modifies db
      ensures db.State() == Ingest(old(db.State()), userId, dto, now).0
      ensures r == Ingest(old(db.State()), userId, dto, now).1
    {
      var errors, candidateRows := Validate(userId, dto, now);
      ghost var inserted := Inserted(db.State(), userId, dto, now);
      assert inserted == [] ==> db.telemetry + inserted == db.telemetry && db.log + FanOut(inserted) == db.log;
      if |candidateRows| == 0 {
        return IngestResult(0, |errors|, errors);
      }
      var uniqueEventTypes := set row | row in candidateRows :: row.eventType;
      var existing := Existing(db.telemetry, dto.deviceId, uniqueEventTypes,
                               MinTime(candidateRows), MaxTime(candidateRows));
      var toInsert := Without(candidateRows, Keys(existing));
      assert toInsert == inserted;
      var duplicates := |candidateRows| - |toInsert|;
      if |toInsert| == 0 {
        return IngestResult(0, |errors| + duplicates, errors);
      }
      db.telemetry := db.telemetry + toInsert;
      EmitAll(toInsert);
      r := IngestResult(|toInsert|, |errors| + duplicates, errors);
    }

    method EmitAll(saved: seq<TelemetryRow>)
      modifies db
      ensures db.State() == old(db.State()).(log := old(db.log) + FanOut(saved))
    {
      for i := 0 to |saved|
        invariant db.State() == old(db.State()).(log := old(db.log) + FanOut(saved[..i]))
      {
        assert saved[..i + 1][..i] == saved[..i];
        if Reported(saved[i].eventType) {
          db.log := db.log + [EventFor(saved[i])];
        }
      }
      assert saved[..|saved|] == saved;
    }
  }
}
