/** The mobile telemetry queue: its table operations, and the drain protocol split at its awaits
    and interleaved with enqueues and further drain calls. Statements are assumed to succeed. */
module MobileQueue {
  import opened Counting
  import opened Powers

  type Id = nat
  type Time = int

  datatype Status = Pending | InFlight | Uploaded

  datatype Row = Row(status: Status, attempts: nat, lastError: string, occurredAt: Time, createdAt: Time)

  type Table = map<Id, Row>

  const BATCH_LIMIT := 50
  const BACKOFF_BASE_MS := 30000
  const BACKOFF_CAP_MS := 30 * 60000

  // ----- the table -----

  /** A duplicate primary key makes the insert throw and leaves the table alone. */
  function Enqueued(t: Table, id: Id, occurredAt: Time, now: Time): Table {
    if id in t then t else t[id := Row(Pending, 0, "", occurredAt, now)]
  }

  function MarkedInFlight(t: Table, ids: seq<Id>): Table {
    map id | id in t :: if id in ids then t[id].(status := InFlight, attempts := t[id].attempts + 1) else t[id]
  }

  function MarkedUploaded(t: Table, ids: seq<Id>): Table {
    map id | id in t :: if id in ids then t[id].(status := Uploaded) else t[id]
  }

  function MarkedFailed(t: Table, ids: seq<Id>, error: string): Table {
    map id | id in t :: if id in ids then t[id].(status := Pending, lastError := error) else t[id]
  }

  predicate Distinct(ids: seq<Id>) {
    forall i, j | 0 <= i < j < |ids| :: ids[i] != ids[j]
  }

  function PendingIds(t: Table): set<Id> {
    set id | id in t && t[id].status.Pending?
  }

  /** The oldest pending rows, oldest first, as many as the limit allows. Ties may fall either way. */
  predicate IsPendingBatch(t: Table, ids: seq<Id>, limit: nat) {
    && Distinct(ids)
    && (forall i | 0 <= i < |ids| :: ids[i] in PendingIds(t))
    && (forall i, j | 0 <= i < j < |ids| :: t[ids[i]].occurredAt <= t[ids[j]].occurredAt)
    && |ids| <= limit
    && (|ids| < limit ==> forall id | id in PendingIds(t) :: id in ids)
    && (forall id, i | id in PendingIds(t) && id !in ids && 0 <= i < |ids| :: t[ids[i]].occurredAt <= t[id].occurredAt)
  }

  function Backoff(attempts: nat): int
    requires attempts > 0
  {
    var full := BACKOFF_BASE_MS * Pow2(attempts - 1);
    if full < BACKOFF_CAP_MS then full else BACKOFF_CAP_MS
  }

  /** The backoff is measured from the row's creation, not from its last attempt. */
  predicate IsEligibleForRetry(row: Row, now: Time) {
    row.attempts == 0 || now - row.createdAt >= Backoff(row.attempts)
  }

  /** Due after so many attempts: at once, or when the doubled waits or half an hour have passed since the creation. */
  predicate Due(createdAt: Time, attempts: nat, now: Time) {
    || attempts == 0
    || now - createdAt >= 30000 * Pow2(attempts - 1)
    || now - createdAt >= 1800000
  }

  lemma EligibleIsDue(row: Row, now: Time)
    ensures IsEligibleForRetry(row, now) <==> Due(row.createdAt, row.attempts, now)
  {
  }

  /** The waits in seconds: half a minute, doubling up to sixteen minutes, then half an hour for good. */
  lemma WaitsInSeconds(createdAt: Time, attempts: nat, now: Time)
    ensures Due(createdAt, attempts, now) <==>
              || attempts == 0
              || now - createdAt >= 1000 * (if attempts >= 7 then 1800 else [0, 30, 60, 120, 240, 480, 960][attempts])
  {
    if attempts >= 7 {
      PowerAtLeast(attempts - 1);
    }
    assert Pow2(0) == 1 && Pow2(1) == 2 && Pow2(2) == 4 && Pow2(3) == 8 && Pow2(4) == 16 && Pow2(5) == 32;
  }

  lemma {:induction false} PowerAtLeast(n: nat)
    requires n >= 6
    ensures Pow2(n) >= 64
  {
    if n == 6 {
      assert Pow2(3) == 8 && Pow2(6) == 8 * Pow2(3);
    } else {
      PowerAtLeast(n - 1);
    }
  }

  /** The delay after the last attempt that the policy comment promises. */
  function Promised(attempts: nat): int {
    var full := BACKOFF_BASE_MS * Pow2(attempts);
    if full < BACKOFF_CAP_MS then full else BACKOFF_CAP_MS
  }

  /** The promise is kept for a row last tried at `tried`. */
  predicate KeepsPromise(row: Row, tried: Time) {
    forall now | now >= tried && IsEligibleForRetry(row, now) :: now - tried >= Promised(row.attempts)
  }

  /** The promise is kept only for a row that was last tried in the very millisecond of its creation,
      with so many attempts behind it that the backoff has reached its cap. */
  lemma PromiseExact(row: Row, tried: Time)
    requires row.attempts > 0 && tried >= row.createdAt
    ensures KeepsPromise(row, tried) <==> tried == row.createdAt && Backoff(row.attempts) == BACKOFF_CAP_MS
  {
    var due := row.createdAt + Backoff(row.attempts);
    var now := if due < tried then tried else due;
    assert Pow2(row.attempts) == 2 * Pow2(row.attempts - 1);
    assert IsEligibleForRetry(row, now);
  }

  /** A row whose second attempt comes a minute after its creation may be tried again at once. */
  lemma PromiseBroken(row: Row)
    requires row.attempts == 2 && row.createdAt == 0
    ensures IsEligibleForRetry(row, 60000) && Promised(2) == 120000 && !KeepsPromise(row, 60000)
  {
    assert Pow2(0) == 1 && Pow2(1) == 2 && Pow2(2) == 4;
    assert Backoff(2) == 60000 && IsEligibleForRetry(row, 60000);
  }

  class TelemetryRepo {
    var rows: Table

    constructor ()
      ensures rows == map[]
    {
      rows := map[];
    }

    method EnqueueTelemetry(id: Id, occurredAt: Time, now: Time) returns (created: bool)
      modifies this
      ensures rows == Enqueued(old(rows), id, occurredAt, now)
      ensures created <==> id !in old(rows)
    {
      created := id !in rows;
      if created {
        rows := rows[id := Row(Pending, 0, "", occurredAt, now)];
      }
    }

    method GetPendingBatch(limit: nat) returns (ids: seq<Id>)
      ensures IsPendingBatch(rows, ids, limit)
    {
      ids := [];
      var rest := PendingIds(rows);
      while |ids| < limit && rest != {}
        invariant |ids| <= limit
        invariant Distinct(ids)
        invariant forall i | 0 <= i < |ids| :: ids[i] in PendingIds(rows)
        invariant forall id :: id in rest <==> id in PendingIds(rows) && id !in ids
        invariant forall i, j | 0 <= i < j < |ids| :: rows[ids[i]].occurredAt <= rows[ids[j]].occurredAt
        invariant forall id, i | id in rest && 0 <= i < |ids| :: rows[ids[i]].occurredAt <= rows[id].occurredAt
        decreases |rest|
      {
        var next := Oldest(rest);
        ids := ids + [next];
        rest := rest - {next};
      }
    }

    method Oldest(candidates: set<Id>) returns (id: Id)
      requires candidates != {} && forall c | c in candidates :: c in rows
      ensures id in candidates && forall c | c in candidates :: rows[id].occurredAt <= rows[c].occurredAt
    {
      id :| id in candidates;
      var rest := candidates - {id};
      while rest != {}
        invariant rest <= candidates && id in candidates
        invariant forall c | c in candidates && c !in rest :: rows[id].occurredAt <= rows[c].occurredAt
        decreases |rest|
      {
        var c :| c in rest;
        if rows[c].occurredAt < rows[id].occurredAt {
          id := c;
        }
        rest := rest - {c};
      }
    }

    method MarkInFlight(ids: seq<Id>)
      modifies this
      ensures rows == MarkedInFlight(old(rows), ids)
    {
      if |ids| == 0 {
        assert rows == MarkedInFlight(rows, ids);
        return;
      }
      rows := map id | id in rows ::
        if id in ids then rows[id].(status := InFlight, attempts := rows[id].attempts + 1) else rows[id];
    }

    method MarkUploaded(ids: seq<Id>)
      modifies this
      ensures rows == MarkedUploaded(old(rows), ids)
    {
      if |ids| == 0 {
        assert rows == MarkedUploaded(rows, ids);
        return;
      }
      rows := map id | id in rows :: if id in ids then rows[id].(status := Uploaded) else rows[id];
    }

    method MarkFailed(ids: seq<Id>, error: string)
      modifies this
      ensures rows == MarkedFailed(old(rows), ids, error)
    {
      if |ids| == 0 {
        assert rows == MarkedFailed(rows, ids, error);
        return;
      }
      rows := map id | id in rows :: if id in ids then rows[id].(status := Pending, lastError := error) else rows[id];
    }
  }

  // ----- the protocol -----

  datatype Local = Local(id: Id, row: Row)

  /** Where a drain call waits. */
  datatype Pc =
    | AwaitToken
    | AwaitRead
    | GotCandidates(candidates: seq<Local>)
    | AwaitMark(ids: seq<Id>, at: Time)
    | Marked(ids: seq<Id>, at: Time)
    | Sent(ids: seq<Id>, envelope: nat)
    | AwaitUploaded(ids: seq<Id>)
    | AwaitFailed(ids: seq<Id>, error: string)
    | Finishing
    | Done

  /** `envelopes` are the id lists put on the wire so far, selected at the times in `selectedAt`; `accepted` says which
      the server has accepted, `acknowledged` for which of those the answer came back in time. */
  datatype World = World(
    rows: Table,
    draining: bool,
    drains: seq<Pc>,
    envelopes: seq<seq<Id>>,
    selectedAt: seq<Time>,
    accepted: set<nat>,
    acknowledged: set<nat>)

  datatype Action =
    | Enqueue(id: Id, occurredAt: Time, now: Time)
    | StartDrain
    | Token(i: nat, present: bool)
    | Read(i: nat, batch: seq<Id>)
    | Select(i: nat, now: Time)
    | Flight(i: nat)
    | Send(i: nat)
    | Serve(envelope: nat)
    | Respond(i: nat, ok: bool, error: string)
    | Record(i: nat)
    | Finish(i: nat)

  function EligibleIds(candidates: seq<Local>, now: Time): seq<Id> {
    if candidates == [] then []
    else
      var c := candidates[|candidates| - 1];
      EligibleIds(candidates[..|candidates| - 1], now) + (if IsEligibleForRetry(c.row, now) then [c.id] else [])
  }

  function At(w: World, i: nat): Pc {
    if i < |w.drains| then w.drains[i] else Done
  }

  function Goto(w: World, i: nat, pc: Pc): World
    requires i < |w.drains|
  {
    w.(drains := w.drains[i := pc])
  }

  /** One uninterrupted piece of one call, or the server accepting an envelope. The server may do so at any time
      after sending, even when the request has timed out, and only an accepted envelope is answered with success.
      An action that does not fit its call's place does nothing. */
  function Step(w: World, a: Action): World {
    match a
    case Enqueue(id, occurredAt, now) => w.(rows := Enqueued(w.rows, id, occurredAt, now))
    case StartDrain =>
      if w.draining then w.(drains := w.drains + [Done])
      else w.(draining := true, drains := w.drains + [AwaitToken])
    case Token(i, present) =>
      if !At(w, i).AwaitToken? then w else Goto(w, i, if present then AwaitRead else Finishing)
    case Read(i, batch) =>
      if !At(w, i).AwaitRead? || !IsPendingBatch(w.rows, batch, BATCH_LIMIT) then w
      else Goto(w, i, if batch == [] then Finishing else GotCandidates(Snapshot(w.rows, batch)))
    case Select(i, now) =>
      if !At(w, i).GotCandidates? then w
      else
        var ids := EligibleIds(At(w, i).candidates, now);
        Goto(w, i, if ids == [] then Finishing else AwaitMark(ids, now))
    case Flight(i) =>
      if !At(w, i).AwaitMark? then w
      else Goto(w, i, Marked(At(w, i).ids, At(w, i).at)).(rows := MarkedInFlight(w.rows, At(w, i).ids))
    case Send(i) =>
      if !At(w, i).Marked? then w
      else
        Goto(w, i, Sent(At(w, i).ids, |w.envelopes|)).(
          envelopes := w.envelopes + [At(w, i).ids], selectedAt := w.selectedAt + [At(w, i).at])
    case Serve(envelope) =>
      if envelope < |w.envelopes| then w.(accepted := w.accepted + {envelope}) else w
    case Respond(i, ok, error) =>
      if !At(w, i).Sent? then w
      else if !ok then Goto(w, i, AwaitFailed(At(w, i).ids, error))
      else if At(w, i).envelope !in w.accepted then w
      else Goto(w, i, AwaitUploaded(At(w, i).ids)).(acknowledged := w.acknowledged + {At(w, i).envelope})
    case Record(i) =>
      if At(w, i).AwaitUploaded? then Goto(w, i, Finishing).(rows := MarkedUploaded(w.rows, At(w, i).ids))
      else if At(w, i).AwaitFailed? then
        Goto(w, i, Finishing).(rows := MarkedFailed(w.rows, At(w, i).ids, At(w, i).error))
      else w
    case Finish(i) =>
      if !At(w, i).Finishing? then w else Goto(w, i, Done).(draining := false)
  }

  function Snapshot(t: Table, batch: seq<Id>): seq<Local>
    requires forall i | 0 <= i < |batch| :: batch[i] in t
  {
    seq(|batch|, i requires 0 <= i < |batch| => Local(batch[i], t[batch[i]]))
  }

  function Run(w: World, actions: seq<Action>): World
    decreases |actions|
  {
    if actions == [] then w else Run(Step(w, actions[0]), actions[1..])
  }

  const START := World(map[], false, [], [], [], {}, {})

  // ----- the invariant -----

  function Carrying(id: Id): seq<Id> -> bool {
    (ids: seq<Id>) => id in ids
  }

  /** How many envelopes carried the row. */
  function Carried(w: World, id: Id): nat {
    Count(w.envelopes, Carrying(id))
  }

  /** Which of these envelopes carried the row. */
  function With(w: World, ks: set<nat>, id: Id): set<nat> {
    set k | k in ks && k < |w.envelopes| && id in w.envelopes[k]
  }

  /** The envelopes with the row that the server accepted. */
  function AcceptedWith(w: World, id: Id): set<nat> {
    With(w, w.accepted, id)
  }

  /** Those of them whose success the phone has learned of. */
  function AcknowledgedWith(w: World, id: Id): set<nat> {
    With(w, w.acknowledged, id)
  }

  /** Those of which it has not. */
  function UnseenWith(w: World, id: Id): set<nat> {
    With(w, w.accepted - w.acknowledged, id)
  }

  /** What the running drain, if any, is about to do with the row. */
  predicate Chosen(pc: Pc, id: Id) {
    || (pc.GotCandidates? && exists k :: 0 <= k < |pc.candidates| && pc.candidates[k].id == id)
    || (pc.AwaitMark? && id in pc.ids)
  }

  predicate Held(pc: Pc, id: Id) {
    (pc.Marked? || pc.Sent? || pc.AwaitUploaded? || pc.AwaitFailed?) && id in pc.ids
  }

  /** A row, given where the running drain stands; `Done` when none is running. */
  predicate RowAgrees(w: World, pc: Pc, id: Id)
    requires id in w.rows
  {
    var row := w.rows[id];
    && (Chosen(pc, id) ==> row.status.Pending?)
    && (row.status.InFlight? <==> Held(pc, id))
    && row.attempts == Carried(w, id) + (if pc.Marked? && id in pc.ids then 1 else 0)
    && |AcknowledgedWith(w, id)| == (if row.status.Uploaded? || (pc.AwaitUploaded? && id in pc.ids) then 1 else 0)
  }

  ghost predicate Agrees(w: World, pc: Pc) {
    && (forall id | id in w.rows :: RowAgrees(w, pc, id))
    && w.acknowledged <= w.accepted && (forall k | k in w.accepted :: k < |w.envelopes|)
    && (pc.Sent? ==>
          pc.envelope < |w.envelopes| && pc.envelope !in w.acknowledged && w.envelopes[pc.envelope] == pc.ids)
    && (forall id | Chosen(pc, id) || Held(pc, id) :: id in w.rows)
    && (forall k, id | 0 <= k < |w.envelopes| && id in w.envelopes[k] :: id in w.rows)
  }

  predicate Running(w: World, i: nat) {
    && w.draining && i < |w.drains| && !w.drains[i].Done?
    && forall j | 0 <= j < |w.drains| && j != i :: w.drains[j].Done?
  }

  predicate Idle(w: World) {
    !w.draining && forall j | 0 <= j < |w.drains| :: w.drains[j].Done?
  }

  ghost predicate Inv(w: World) {
    (Idle(w) && Agrees(w, Done)) || exists i: nat :: Running(w, i) && Agrees(w, w.drains[i])
  }

  // ----- one piece of a drain keeps it -----

  lemma NothingCarries(w: World, pc: Pc, id: Id)
    requires Agrees(w, pc) && id !in w.rows
    ensures Carried(w, id) == 0 && AcknowledgedWith(w, id) == {} && AcceptedWith(w, id) == {}
    ensures !Chosen(pc, id) && !Held(pc, id)
  {
    forall k | 0 <= k < |w.envelopes|
      ensures !Carrying(id)(w.envelopes[k])
    {
    }
    CountNone(w.envelopes, Carrying(id));
  }

  lemma NewRowAgrees(w: World, pc: Pc, id: Id, occurredAt: Time, now: Time)
    requires Agrees(w, pc) && id !in w.rows
    ensures RowAgrees(w.(rows := w.rows[id := Row(Pending, 0, "", occurredAt, now)]), pc, id)
  {
    NothingCarries(w, pc, id);
    assert AcknowledgedWith(w.(rows := w.rows[id := Row(Pending, 0, "", occurredAt, now)]), id) == {};
    assert !pc.Marked? || id !in pc.ids by { assert !Held(pc, id); }
    assert !pc.AwaitUploaded? || id !in pc.ids by { assert !Held(pc, id); }
  }

  lemma EnqueueAgrees(w: World, pc: Pc, id: Id, occurredAt: Time, now: Time)
    requires Agrees(w, pc)
    ensures Agrees(w.(rows := Enqueued(w.rows, id, occurredAt, now)), pc)
  {
    if id in w.rows {
      assert w.(rows := Enqueued(w.rows, id, occurredAt, now)) == w;
      return;
    }
    var w' := w.(rows := w.rows[id := Row(Pending, 0, "", occurredAt, now)]);
    NewRowAgrees(w, pc, id, occurredAt, now);
    forall i | i in w'.rows
      ensures RowAgrees(w', pc, i)
    {
      if i != id {
        assert RowAgrees(w, pc, i);
        assert AcknowledgedWith(w', i) == AcknowledgedWith(w, i);
      }
    }
  }

  /** Agreement depends on the tables and on what the call is about to do, not on the other calls. */
  lemma SameHands(w: World, w': World, pc: Pc, pc': Pc)
    requires Agrees(w, pc)
    requires w'.rows == w.rows && w'.envelopes == w.envelopes && w'.accepted == w.accepted
             && w'.acknowledged == w.acknowledged
    requires forall id :: Held(pc', id) <==> Held(pc, id)
    requires forall id :: Chosen(pc', id) ==> Chosen(pc, id) || (id in w.rows && w.rows[id].status.Pending?)
    requires !pc'.Marked? && !pc.Marked? && !pc'.Sent? && !pc'.AwaitUploaded? && !pc.AwaitUploaded?
    ensures Agrees(w', pc')
  {
    forall id | id in w'.rows
      ensures RowAgrees(w', pc', id)
    {
      assert RowAgrees(w, pc, id);
      assert AcknowledgedWith(w', id) == AcknowledgedWith(w, id);
    }
  }

  lemma {:induction false} EligibleAreCandidates(candidates: seq<Local>, now: Time, id: Id)
    requires id in EligibleIds(candidates, now)
    ensures exists k :: 0 <= k < |candidates| && candidates[k].id == id
  {
    var n := |candidates| - 1;
    if id in EligibleIds(candidates[..n], now) {
      EligibleAreCandidates(candidates[..n], now, id);
      var k :| 0 <= k < n && candidates[..n][k].id == id;
      assert candidates[k].id == id;
    } else {
      assert candidates[n].id == id;
    }
  }

  /** The candidates at these positions, and no others, are due; the ids are theirs, in the same order. */
  predicate Picks(candidates: seq<Local>, now: Time, ids: seq<Id>, pos: seq<nat>) {
    && |pos| == |ids|
    && (forall k, l | 0 <= k < l < |pos| :: pos[k] < pos[l])
    && (forall k | 0 <= k < |pos| :: pos[k] < |candidates| && candidates[pos[k]].id == ids[k])
    && (forall i | 0 <= i < |candidates| ::
          i in pos <==> Due(candidates[i].row.createdAt, candidates[i].row.attempts, now))
  }

  lemma PickedOneMore(cs: seq<Local>, c: Local, now: Time, ids: seq<Id>, pos: seq<nat>)
    requires Picks(cs, now, ids, pos) && Due(c.row.createdAt, c.row.attempts, now)
    ensures Picks(cs + [c], now, ids + [c.id], pos + [|cs|])
  {
    forall i | 0 <= i <= |cs|
      ensures i in pos + [|cs|] <==> i in pos || i == |cs|
    {
    }
  }

  lemma PassedOver(cs: seq<Local>, c: Local, now: Time, ids: seq<Id>, pos: seq<nat>)
    requires Picks(cs, now, ids, pos) && !Due(c.row.createdAt, c.row.attempts, now)
    ensures Picks(cs + [c], now, ids, pos)
  {
    assert |cs| !in pos;
  }

  /** Selection keeps exactly the candidates that are due, in the order in which they were fetched. */
  lemma {:induction false} EligibleExact(candidates: seq<Local>, now: Time) returns (pos: seq<nat>)
    ensures Picks(candidates, now, EligibleIds(candidates, now), pos)
  {
    pos := [];
    if candidates != [] {
      var front, c := candidates[..|candidates| - 1], candidates[|candidates| - 1];
      pos := EligibleExact(front, now);
      assert candidates == front + [c];
      EligibleIsDue(c.row, now);
      if IsEligibleForRetry(c.row, now) {
        PickedOneMore(front, c, now, EligibleIds(front, now), pos);
        pos := pos + [|front|];
      } else {
        PassedOver(front, c, now, EligibleIds(front, now), pos);
      }
    }
  }

  /** Selecting names no row twice and no more rows than there were. */
  lemma {:induction false} EligibleDistinct(candidates: seq<Local>, now: Time)
    requires forall k, l | 0 <= k < l < |candidates| :: candidates[k].id != candidates[l].id
    ensures |EligibleIds(candidates, now)| <= |candidates| && Distinct(EligibleIds(candidates, now))
  {
    if candidates != [] {
      var n := |candidates| - 1;
      EligibleDistinct(candidates[..n], now);
      if candidates[n].id in EligibleIds(candidates[..n], now) {
        EligibleAreCandidates(candidates[..n], now, candidates[n].id);
      }
    }
  }

  lemma FlightAgrees(w: World, w': World, ids: seq<Id>, at: Time)
    requires Agrees(w, AwaitMark(ids, at))
    requires w'.rows == MarkedInFlight(w.rows, ids) && w'.envelopes == w.envelopes && w'.accepted == w.accepted
             && w'.acknowledged == w.acknowledged
    ensures Agrees(w', Marked(ids, at))
  {
    forall id | id in w'.rows
      ensures RowAgrees(w', Marked(ids, at), id)
    {
      assert RowAgrees(w, AwaitMark(ids, at), id);
      assert AcknowledgedWith(w', id) == AcknowledgedWith(w, id);
      assert id in ids <==> Chosen(AwaitMark(ids, at), id);
    }
    forall id | Held(Marked(ids, at), id)
      ensures id in w'.rows
    {
      assert Chosen(AwaitMark(ids, at), id);
    }
  }

  lemma SendAgrees(w: World, w': World, ids: seq<Id>, at: Time)
    requires Agrees(w, Marked(ids, at))
    requires w'.rows == w.rows && w'.envelopes == w.envelopes + [ids] && w'.accepted == w.accepted
             && w'.acknowledged == w.acknowledged
    ensures Agrees(w', Sent(ids, |w.envelopes|))
  {
    var pc' := Sent(ids, |w.envelopes|);
    forall id | id in w'.rows
      ensures RowAgrees(w', pc', id)
    {
      assert RowAgrees(w, Marked(ids, at), id);
      CountSnoc(w.envelopes, ids, Carrying(id));
      assert AcknowledgedWith(w', id) == AcknowledgedWith(w, id);
      assert Held(pc', id) <==> Held(Marked(ids, at), id);
    }
    forall id | id in ids
      ensures id in w.rows
    {
      assert Held(Marked(ids, at), id);
    }
  }

  /** Accepting an envelope shows only on the server. */
  lemma ServeAgrees(w: World, pc: Pc, k: nat)
    requires Agrees(w, pc)
    ensures Agrees(Step(w, Serve(k)), pc)
  {
    var w' := Step(w, Serve(k));
    forall id | id in w.rows
      ensures RowAgrees(w', pc, id)
    {
      assert RowAgrees(w, pc, id);
      assert AcknowledgedWith(w', id) == AcknowledgedWith(w, id);
    }
  }

  lemma AcknowledgeAgrees(w: World, w': World, ids: seq<Id>, k: nat)
    requires Agrees(w, Sent(ids, k))
    requires w'.rows == w.rows && w'.envelopes == w.envelopes && w'.accepted == w.accepted
    requires w'.acknowledged == w.acknowledged + {k} && k in w.accepted
    ensures Agrees(w', AwaitUploaded(ids))
  {
    forall id | id in w'.rows
      ensures RowAgrees(w', AwaitUploaded(ids), id)
    {
      assert RowAgrees(w, Sent(ids, k), id);
      assert Held(AwaitUploaded(ids), id) <==> Held(Sent(ids, k), id);
      OneMoreAcknowledged(w, w', k, id);
    }
    forall id | Held(AwaitUploaded(ids), id)
      ensures id in w'.rows
    {
      assert Held(Sent(ids, k), id);
    }
  }

  lemma OneMoreAcknowledged(w: World, w': World, k: nat, id: Id)
    requires w'.envelopes == w.envelopes && w'.acknowledged == w.acknowledged + {k}
    requires k < |w.envelopes| && k !in w.acknowledged
    ensures |AcknowledgedWith(w', id)| == |AcknowledgedWith(w, id)| + (if id in w.envelopes[k] then 1 else 0)
  {
    assert AcknowledgedWith(w', id) == AcknowledgedWith(w, id) + (if id in w.envelopes[k] then {k} else {});
  }

  lemma RejectAgrees(w: World, w': World, ids: seq<Id>, k: nat, error: string)
    requires Agrees(w, Sent(ids, k))
    requires w'.rows == w.rows && w'.envelopes == w.envelopes && w'.accepted == w.accepted
             && w'.acknowledged == w.acknowledged
    ensures Agrees(w', AwaitFailed(ids, error))
  {
    forall id: Id | true
      ensures Held(AwaitFailed(ids, error), id) <==> Held(Sent(ids, k), id)
    {
    }
    SameHands(w, w', Sent(ids, k), AwaitFailed(ids, error));
  }

  lemma UploadedAgrees(w: World, w': World, ids: seq<Id>)
    requires Agrees(w, AwaitUploaded(ids))
    requires w'.rows == MarkedUploaded(w.rows, ids) && w'.envelopes == w.envelopes && w'.accepted == w.accepted
             && w'.acknowledged == w.acknowledged
    ensures Agrees(w', Finishing)
  {
    forall id | id in w'.rows
      ensures RowAgrees(w', Finishing, id)
    {
      assert RowAgrees(w, AwaitUploaded(ids), id);
      assert id in ids <==> Held(AwaitUploaded(ids), id);
      assert AcknowledgedWith(w', id) == AcknowledgedWith(w, id);
    }
  }

  lemma FailedAgrees(w: World, w': World, ids: seq<Id>, error: string)
    requires Agrees(w, AwaitFailed(ids, error))
    requires w'.rows == MarkedFailed(w.rows, ids, error) && w'.envelopes == w.envelopes && w'.accepted == w.accepted
             && w'.acknowledged == w.acknowledged
    ensures Agrees(w', Finishing)
  {
    forall id | id in w'.rows
      ensures RowAgrees(w', Finishing, id)
    {
      assert RowAgrees(w, AwaitFailed(ids, error), id);
      assert id in ids <==> Held(AwaitFailed(ids, error), id);
      assert AcknowledgedWith(w', id) == AcknowledgedWith(w, id);
    }
  }

  // ----- every action keeps the invariant -----

  /** The call an action belongs to. */
  function Actor(a: Action): nat
    requires !a.Enqueue? && !a.StartDrain? && !a.Serve?
  {
    a.i
  }

  lemma SelectAgrees(w: World, w': World, candidates: seq<Local>, now: Time, pc': Pc)
    requires Agrees(w, GotCandidates(candidates))
    requires w'.rows == w.rows && w'.envelopes == w.envelopes && w'.accepted == w.accepted
             && w'.acknowledged == w.acknowledged
    requires var ids := EligibleIds(candidates, now); pc' == if ids == [] then Finishing else AwaitMark(ids, now)
    ensures Agrees(w', pc')
  {
    forall id | Chosen(pc', id)
      ensures Chosen(GotCandidates(candidates), id)
    {
      EligibleAreCandidates(candidates, now, id);
    }
    SameHands(w, w', GotCandidates(candidates), pc');
  }

  lemma RespondAgrees(w: World, i: nat, ok: bool, error: string)
    requires i < |w.drains| && Agrees(w, w.drains[i])
    ensures var w' := Step(w, Respond(i, ok, error)); |w'.drains| == |w.drains| && Agrees(w', w'.drains[i])
  {
    var w', pc := Step(w, Respond(i, ok, error)), w.drains[i];
    if w' == w {
      return;
    }
    if ok {
      AcknowledgeAgrees(w, w', pc.ids, pc.envelope);
    } else {
      RejectAgrees(w, w', pc.ids, pc.envelope, error);
    }
  }

  lemma RecordAgrees(w: World, i: nat)
    requires i < |w.drains| && Agrees(w, w.drains[i])
    ensures var w' := Step(w, Record(i)); |w'.drains| == |w.drains| && Agrees(w', w'.drains[i])
  {
    var w', pc := Step(w, Record(i)), w.drains[i];
    if w' == w {
      return;
    }
    if pc.AwaitUploaded? {
      UploadedAgrees(w, w', pc.ids);
    } else {
      FailedAgrees(w, w', pc.ids, pc.error);
    }
  }

  lemma EarlyAgrees(w: World, a: Action, i: nat)
    requires (a.Token? || a.Read? || a.Select?) && Actor(a) == i && i < |w.drains| && Agrees(w, w.drains[i])
    ensures var w' := Step(w, a); |w'.drains| == |w.drains| && Agrees(w', w'.drains[i])
  {
    var w', pc := Step(w, a), w.drains[i];
    if w' == w {
      return;
    }
    if a.Select? {
      SelectAgrees(w, w', pc.candidates, a.now, w'.drains[i]);
    } else {
      SameHands(w, w', pc, w'.drains[i]);
    }
  }

  lemma LateAgrees(w: World, a: Action, i: nat)
    requires (a.Flight? || a.Send? || a.Finish?) && Actor(a) == i && i < |w.drains| && Agrees(w, w.drains[i])
    ensures var w' := Step(w, a); |w'.drains| == |w.drains| && Agrees(w', w'.drains[i])
  {
    var w', pc := Step(w, a), w.drains[i];
    if w' == w {
      return;
    }
    if a.Flight? {
      FlightAgrees(w, w', pc.ids, pc.at);
    } else if a.Send? {
      SendAgrees(w, w', pc.ids, pc.at);
    } else {
      SameHands(w, w', pc, Done);
    }
  }

  /** Only finishing clears the flag, and then no call is left. */
  lemma ActorPlace(w: World, a: Action, i: nat)
    requires !a.Enqueue? && !a.StartDrain? && !a.Serve? && Actor(a) == i && Running(w, i)
    ensures var w' := Step(w, a);
            |w'.drains| == |w.drains| && if w'.drains[i].Done? then Idle(w') else Running(w', i)
  {
  }

  lemma RunningStep(w: World, a: Action)
    requires !a.Enqueue? && !a.StartDrain? && !a.Serve? && Running(w, Actor(a)) && Agrees(w, w.drains[Actor(a)])
    ensures Inv(Step(w, a))
  {
    var i := Actor(a);
    ActorPlace(w, a, i);
    match a
    case Respond(_, ok, error) => RespondAgrees(w, i, ok, error);
    case Record(_) => RecordAgrees(w, i);
    case Token(_, _) => EarlyAgrees(w, a, i);
    case Read(_, _) => EarlyAgrees(w, a, i);
    case Select(_, _) => EarlyAgrees(w, a, i);
    case _ => LateAgrees(w, a, i);
  }

  lemma IdleStep(w: World, a: Action)
    requires Idle(w) && Agrees(w, Done)
    ensures Inv(Step(w, a))
  {
    var w' := Step(w, a);
    if a.Enqueue? {
      EnqueueAgrees(w, Done, a.id, a.occurredAt, a.now);
    } else if a.StartDrain? {
      SameHands(w, w', Done, AwaitToken);
      assert Running(w', |w.drains|);
    } else if a.Serve? {
      ServeAgrees(w, Done, a.envelope);
    } else {
      assert w' == w;
    }
  }

  lemma BesideStep(w: World, i: nat, a: Action)
    requires Running(w, i) && Agrees(w, w.drains[i])
    requires a.Enqueue? || a.StartDrain? || a.Serve? || Actor(a) != i
    ensures Inv(Step(w, a))
  {
    var w' := Step(w, a);
    if a.Enqueue? {
      EnqueueAgrees(w, w.drains[i], a.id, a.occurredAt, a.now);
    } else if a.StartDrain? {
      assert forall id | id in w.rows :: RowAgrees(w, w.drains[i], id) == RowAgrees(w', w.drains[i], id);
    } else if a.Serve? {
      ServeAgrees(w, w.drains[i], a.envelope);
    } else {
      assert w' == w;
    }
    assert Running(w', i) && Agrees(w', w'.drains[i]);
  }

  lemma StepKeepsInv(w: World, a: Action)
    requires Inv(w)
    ensures Inv(Step(w, a))
  {
    if Idle(w) && Agrees(w, Done) {
      IdleStep(w, a);
    } else {
      var i: nat :| Running(w, i) && Agrees(w, w.drains[i]);
      if a.Enqueue? || a.StartDrain? || a.Serve? || Actor(a) != i {
        BesideStep(w, i, a);
      } else {
        RunningStep(w, a);
      }
    }
  }

  lemma {:induction false} RunKeepsInv(w: World, actions: seq<Action>)
    requires Inv(w)
    ensures Inv(Run(w, actions))
    decreases |actions|
  {
    if actions != [] {
      StepKeepsInv(w, actions[0]);
      RunKeepsInv(Step(w, actions[0]), actions[1..]);
    }
  }

  lemma Reachable(actions: seq<Action>)
    ensures Inv(Run(START, actions))
  {
    assert Agrees(START, Done);
    RunKeepsInv(START, actions);
  }

  // ----- waiting -----

  /** Envelope k was selected when the row was due after as many attempts as earlier envelopes had carried it. */
  predicate SentWhenDue(w: World, k: nat, id: Id)
    requires k < |w.envelopes| == |w.selectedAt| && id in w.rows
  {
    Due(w.rows[id].createdAt, Count(w.envelopes[..k], Carrying(id)), w.selectedAt[k])
  }

  /** At least one row, none of them twice, and no more than fifty. */
  predicate Fits(ids: seq<Id>) {
    0 < |ids| <= 50 && Distinct(ids)
  }

  /** What a call has read is still so, and what it has selected was due. */
  predicate HandsTimely(w: World, pc: Pc) {
    && (pc.GotCandidates? ==>
          && |pc.candidates| <= 50
          && (forall k, l | 0 <= k < l < |pc.candidates| :: pc.candidates[k].id != pc.candidates[l].id)
          && forall k | 0 <= k < |pc.candidates| ::
               pc.candidates[k].id in w.rows && w.rows[pc.candidates[k].id] == pc.candidates[k].row)
    && (pc.AwaitMark? || pc.Marked? ==>
          && Fits(pc.ids)
          && forall id | id in pc.ids :: id in w.rows && Due(w.rows[id].createdAt, Carried(w, id), pc.at))
  }

  ghost predicate Timely(w: World) {
    && |w.selectedAt| == |w.envelopes|
    && (forall k | 0 <= k < |w.envelopes| :: Fits(w.envelopes[k]))
    && (forall k, id | 0 <= k < |w.envelopes| && id in w.envelopes[k] :: id in w.rows && SentWhenDue(w, k, id))
    && (forall i | 0 <= i < |w.drains| :: HandsTimely(w, w.drains[i]))
  }

  /** Selecting from what was read, on rows that have not changed. */
  lemma SelectTimely(w: World, candidates: seq<Local>, now: Time, id: Id)
    requires Agrees(w, GotCandidates(candidates)) && HandsTimely(w, GotCandidates(candidates))
    ensures id in EligibleIds(candidates, now) <==>
              && (exists k :: 0 <= k < |candidates| && candidates[k].id == id)
              && id in w.rows && Due(w.rows[id].createdAt, Carried(w, id), now)
  {
    var ids := EligibleIds(candidates, now);
    var pos := EligibleExact(candidates, now);
    if id in ids {
      var k :| 0 <= k < |ids| && ids[k] == id;
      assert pos[k] in pos && candidates[pos[k]].id == id;
      assert RowAgrees(w, GotCandidates(candidates), id);
    }
    if k :| 0 <= k < |candidates| && candidates[k].id == id {
      assert RowAgrees(w, GotCandidates(candidates), id);
      if Due(w.rows[id].createdAt, Carried(w, id), now) {
        assert k in pos;
        var j :| 0 <= j < |pos| && pos[j] == k;
        assert ids[j] == id;
      }
    }
  }

  lemma SendTimely(w: World, ids: seq<Id>, at: Time, k: nat, id: Id)
    requires Timely(w) && HandsTimely(w, Marked(ids, at)) && k <= |w.envelopes| && id in (w.envelopes + [ids])[k]
    ensures var w' := w.(envelopes := w.envelopes + [ids], selectedAt := w.selectedAt + [at]);
            id in w'.rows && SentWhenDue(w', k, id)
  {
    assert (w.envelopes + [ids])[..k] == w.envelopes[..k];
    assert w.envelopes[..|w.envelopes|] == w.envelopes;
  }

  /** Rows that keep their creation time keep what is already on the wire due. */
  lemma WireTimely(w: World, w': World)
    requires Timely(w) && w'.envelopes == w.envelopes && w'.selectedAt == w.selectedAt
    requires forall id | id in w.rows :: id in w'.rows && w'.rows[id].createdAt == w.rows[id].createdAt
    ensures forall k, id | 0 <= k < |w'.envelopes| && id in w'.envelopes[k] :: id in w'.rows && SentWhenDue(w', k, id)
  {
    forall k, id | 0 <= k < |w'.envelopes| && id in w'.envelopes[k]
      ensures id in w'.rows && SentWhenDue(w', k, id)
    {
      assert id in w.envelopes[k] && SentWhenDue(w, k, id);
    }
  }

  lemma SendKeepsTimely(w: World, i: nat)
    requires Running(w, i) && w.drains[i].Marked? && Timely(w)
    ensures Timely(Step(w, Send(i)))
  {
    var w', pc := Step(w, Send(i)), w.drains[i];
    assert HandsTimely(w, pc);
    forall k, id | 0 <= k < |w'.envelopes| && id in w'.envelopes[k]
      ensures id in w'.rows && SentWhenDue(w', k, id)
    {
      SendTimely(w, pc.ids, pc.at, k, id);
    }
  }

  lemma ActorTimely(w: World, a: Action, i: nat)
    requires !a.Enqueue? && !a.StartDrain? && !a.Serve? && Actor(a) == i
    requires Running(w, i) && Agrees(w, w.drains[i]) && Timely(w)
    ensures Timely(Step(w, a))
  {
    var w', pc := Step(w, a), w.drains[i];
    if w' == w {
      return;
    }
    if a.Send? {
      SendKeepsTimely(w, i);
      return;
    }
    WireTimely(w, w');
    if a.Select? {
      SelectedTimely(w, pc.candidates, a.now);
    } else if a.Read? {
      ReadTimely(w, a.batch);
    } else if a.Flight? {
      FlightTimely(w, w', pc.ids, pc.at);
    }
    assert HandsTimely(w', w'.drains[i]);
  }

  lemma ReadTimely(w: World, batch: seq<Id>)
    requires IsPendingBatch(w.rows, batch, BATCH_LIMIT)
    ensures HandsTimely(w, GotCandidates(Snapshot(w.rows, batch)))
  {
  }

  lemma FlightTimely(w: World, w': World, ids: seq<Id>, at: Time)
    requires HandsTimely(w, AwaitMark(ids, at))
    requires w'.rows == MarkedInFlight(w.rows, ids) && w'.envelopes == w.envelopes
    ensures HandsTimely(w', Marked(ids, at))
  {
  }

  lemma SelectedTimely(w: World, candidates: seq<Local>, now: Time)
    requires Agrees(w, GotCandidates(candidates)) && HandsTimely(w, GotCandidates(candidates))
    ensures EligibleIds(candidates, now) != [] ==> HandsTimely(w, AwaitMark(EligibleIds(candidates, now), now))
  {
    EligibleDistinct(candidates, now);
    forall id | id in EligibleIds(candidates, now)
      ensures id in w.rows && Due(w.rows[id].createdAt, Carried(w, id), now)
    {
      SelectTimely(w, candidates, now, id);
    }
  }

  lemma OthersTimely(w: World, a: Action)
    requires Timely(w) && (a.Enqueue? || a.StartDrain? || a.Serve?)
    ensures Timely(Step(w, a))
  {
    var w' := Step(w, a);
    WireTimely(w, w');
    forall i | 0 <= i < |w'.drains|
      ensures HandsTimely(w', w'.drains[i])
    {
      if i < |w.drains| {
        assert HandsTimely(w, w.drains[i]);
      }
    }
  }

  lemma StepKeepsTimely(w: World, a: Action)
    requires Inv(w) && Timely(w)
    ensures Timely(Step(w, a))
  {
    if a.Enqueue? || a.StartDrain? || a.Serve? {
      OthersTimely(w, a);
    } else if At(w, Actor(a)).Done? {
      DoneStays(w, a);
    } else {
      var i: nat :| Running(w, i) && Agrees(w, w.drains[i]);
      assert Actor(a) == i;
      ActorTimely(w, a, i);
    }
  }

  lemma {:induction false} RunKeepsTimely(w: World, actions: seq<Action>)
    requires Inv(w) && Timely(w)
    ensures Timely(Run(w, actions))
    decreases |actions|
  {
    if actions != [] {
      StepKeepsInv(w, actions[0]);
      StepKeepsTimely(w, actions[0]);
      RunKeepsTimely(Step(w, actions[0]), actions[1..]);
    }
  }

  lemma ReachableTimely(actions: seq<Action>)
    ensures Timely(Run(START, actions))
  {
    assert Agrees(START, Done);
    RunKeepsTimely(START, actions);
  }

  /** No row is sent before it is due: every envelope carries one to fifty different rows, and only rows for which, when
      they were selected, the wait that goes with the number of earlier envelopes carrying the row had passed since its
      creation. */
  lemma NothingSentEarly(actions: seq<Action>, k: nat, id: Id)
    ensures var w := Run(START, actions);
            && (k < |w.envelopes| ==> Fits(w.envelopes[k]))
            && (k < |w.envelopes| && id in w.envelopes[k] ==>
                  && id in w.rows && |w.selectedAt| == |w.envelopes|
                  && Due(w.rows[id].createdAt, Count(w.envelopes[..k], Carrying(id)), w.selectedAt[k]))
  {
    ReachableTimely(actions);
  }

  /** A drain without a token, or with nothing pending, ends without having touched anything. */
  lemma EmptyHanded(w: World, i: nat, a: Action)
    requires || (a == Token(i, false) && At(w, i) == AwaitToken)
             || (a == Read(i, []) && At(w, i) == AwaitRead && PendingIds(w.rows) == {})
    ensures Step(Step(w, a), Finish(i)) == w.(draining := false, drains := w.drains[i := Done])
  {
  }

  /** A drain reads the oldest pending rows, at most fifty, as they are at that moment. */
  lemma ReadMeans(w: World, i: nat, batch: seq<Id>)
    requires At(w, i) == AwaitRead && batch != []
    ensures var w' := Step(w, Read(i, batch));
            if IsPendingBatch(w.rows, batch, 50)
            then w' == w.(drains := w.drains[i := GotCandidates(
                            seq(|batch|, k requires 0 <= k < |batch| => Local(batch[k], w.rows[batch[k]])))])
            else w' == w
  {
  }

  /** What a call may do to a row: mark it in flight as one more attempt, record its envelope as uploaded, or hand it
      back with the error. Nothing else changes a row. */
  lemma RowChanges(w: World, a: Action, id: Id)
    requires id in w.rows
    ensures var pc, row, w' := if a.Flight? || a.Record? then At(w, a.i) else Done, w.rows[id], Step(w, a);
            && id in w'.rows
            && w'.rows[id] ==
                 if a.Flight? && pc.AwaitMark? && id in pc.ids
                 then row.(status := InFlight, attempts := row.attempts + 1)
                 else if a.Record? && pc.AwaitUploaded? && id in pc.ids then row.(status := Uploaded)
                 else if a.Record? && pc.AwaitFailed? && id in pc.ids
                 then row.(status := Pending, lastError := pc.error)
                 else row
  {
  }

  /** And of the rows a drain has fetched none that is due is left out: it marks exactly those, in fetch order. */
  lemma SelectedExactly(actions: seq<Action>, i: nat, now: Time)
    requires At(Run(START, actions), i).GotCandidates?
    ensures var w := Run(START, actions);
            var cs, pc := At(w, i).candidates, At(Step(w, Select(i, now)), i);
            var ids := if pc.AwaitMark? then pc.ids else [];
            && (pc == Finishing || (ids != [] && pc == AwaitMark(ids, now)))
            && (exists pos :: Picks(cs, now, ids, pos))
            && forall id :: id in ids <==>
                 && (exists k :: 0 <= k < |cs| && cs[k].id == id)
                 && id in w.rows && Due(w.rows[id].createdAt, Carried(w, id), now)
  {
    Reachable(actions);
    ReachableTimely(actions);
    var w := Run(START, actions);
    var j: nat :| Running(w, j) && Agrees(w, w.drains[j]);
    assert i == j;
    var cs := At(w, i).candidates;
    var pos := EligibleExact(cs, now);
    assert Picks(cs, now, EligibleIds(cs, now), pos);
    forall id: Id | true
      ensures id in EligibleIds(cs, now) <==>
                && (exists k :: 0 <= k < |cs| && cs[k].id == id)
                && id in w.rows && Due(w.rows[id].createdAt, Carried(w, id), now)
    {
      SelectTimely(w, cs, now, id);
    }
  }

  // ----- the theorems -----

  /** Re-entrant drains return at once: the flag is set exactly while a call is past the guard, and at most one is. */
  lemma OneDrainAtATime(actions: seq<Action>)
    ensures var w := Run(START, actions);
            && (w.draining <==> exists i :: 0 <= i < |w.drains| && !w.drains[i].Done?)
            && (forall i, j | 0 <= i < |w.drains| && 0 <= j < |w.drains| && !w.drains[i].Done? && !w.drains[j].Done? ::
                  i == j)
  {
    Reachable(actions);
  }

  lemma SeenOrNot(w: World, id: Id)
    requires w.acknowledged <= w.accepted
    ensures |AcceptedWith(w, id)| == |AcknowledgedWith(w, id)| + |UnseenWith(w, id)|
  {
    assert AcceptedWith(w, id) == AcknowledgedWith(w, id) + UnseenWith(w, id);
  }

  /** At any moment of any interleaving: a row is marked uploaded only if an accepted envelope with it has been
      acknowledged, at most one ever is, all further acceptances of the row are ones the phone has not seen,
      and a row is in flight only under a running drain. */
  lemma RowsAccounted(actions: seq<Action>, id: Id)
    ensures var w := Run(START, actions);
            id in w.rows ==>
              && |AcknowledgedWith(w, id)| <= 1
              && (w.rows[id].status.Uploaded? ==> |AcknowledgedWith(w, id)| == 1)
              && |AcceptedWith(w, id)| == |AcknowledgedWith(w, id)| + |UnseenWith(w, id)|
              && (w.rows[id].status.InFlight? ==> w.draining)
              && Carried(w, id) <= w.rows[id].attempts <= Carried(w, id) + 1
  {
    Reachable(actions);
    var w := Run(START, actions);
    if id in w.rows {
      SeenOrNot(w, id);
      if Idle(w) && Agrees(w, Done) {
        assert RowAgrees(w, Done, id);
      } else {
        var i: nat :| Running(w, i) && Agrees(w, w.drains[i]);
        assert RowAgrees(w, w.drains[i], id);
      }
    }
  }

  /** When no drain is running the ledger is exact: `attempts` is the number of envelopes that carried the row;
      the row is uploaded or pending; and the server has accepted it once for being uploaded and once more for
      every acceptance that the phone has not seen. */
  lemma QuietLedger(actions: seq<Action>, id: Id)
    requires !Run(START, actions).draining
    ensures var w := Run(START, actions);
            id in w.rows ==>
              && w.rows[id].attempts == Carried(w, id)
              && (w.rows[id].status.Uploaded? || w.rows[id].status.Pending?)
              && |AcceptedWith(w, id)| == |UnseenWith(w, id)| + (if w.rows[id].status.Uploaded? then 1 else 0)
  {
    Reachable(actions);
    var w := Run(START, actions);
    assert Idle(w) && Agrees(w, Done);
    if id in w.rows {
      SeenOrNot(w, id);
      assert RowAgrees(w, Done, id);
    }
  }

  /** The row's status tells what the server has: accepted once if uploaded, never otherwise. */
  predicate StatusTells(w: World, id: Id)
    requires id in w.rows
  {
    |AcceptedWith(w, id)| == if w.rows[id].status.Uploaded? then 1 else 0
  }

  /** It does so if and only if no acceptance of the row has gone unseen. */
  lemma OnceExactly(actions: seq<Action>, id: Id)
    requires !Run(START, actions).draining
    ensures var w := Run(START, actions);
            id in w.rows ==> (StatusTells(w, id) <==> UnseenWith(w, id) == {})
  {
    QuietLedger(actions, id);
  }

  lemma RunHead(w: World, actions: seq<Action>, w1: World)
    requires actions != [] && w1 == Step(w, actions[0])
    ensures Run(w, actions) == Run(w1, actions[1..])
  {
  }

  lemma {:induction false} RunConcat(w: World, a: seq<Action>, b: seq<Action>)
    ensures Run(w, a + b) == Run(Run(w, a), b)
    decreases |a|
  {
    if a == [] {
      assert a + b == b;
    } else {
      var w1 := Step(w, a[0]);
      RunHead(w, a + b, w1);
      RunHead(w, a, w1);
      assert (a + b)[1..] == a[1..] + b;
      RunConcat(w1, a[1..], b);
    }
  }

  lemma RunOne(w: World, a: Action)
    ensures Run(w, [a]) == Step(w, a)
  {
    assert [a][1..] == [];
  }

  lemma RunFive(w: World, a: Action, b: Action, c: Action, d: Action, e: Action)
    ensures Run(w, [a] + [b] + [c] + [d] + [e]) == Step(Step(Step(Step(Step(w, a), b), c), d), e)
  {
    RunConcat(w, [a] + [b] + [c] + [d], [e]);
    RunConcat(w, [a] + [b] + [c], [d]);
    RunConcat(w, [a] + [b], [c]);
    RunConcat(w, [a], [b]);
    RunOne(w, a);
    RunOne(Step(w, a), b);
    RunOne(Step(Step(w, a), b), c);
    RunOne(Step(Step(Step(w, a), b), c), d);
    RunOne(Step(Step(Step(Step(w, a), b), c), d), e);
  }

  /** A drain, the `i`th, of a queue that holds row 0 alone: first up to the mark. */
  function Marking(i: nat, now: Time): seq<Action> {
    [StartDrain] + [Token(i, true)] + [Read(i, [0])] + [Select(i, now)] + [Flight(i)]
  }

  /** Then the server accepts the envelope, the `k`th, and the phone learns of it or not. */
  function Sending(i: nat, k: nat, ok: bool): seq<Action> {
    [Send(i)] + [Serve(k)] + [Respond(i, ok, "")] + [Record(i)] + [Finish(i)]
  }

  function WithPc(w: World, drains: seq<Pc>, pc: Pc): World {
    w.(draining := true, drains := drains + [pc])
  }

  lemma OneEligible(row: Row, now: Time)
    requires IsEligibleForRetry(row, now)
    ensures EligibleIds([Local(0, row)], now) == [0]
  {
    var cs := [Local(0, row)];
    assert cs[..0] == [];
  }

  lemma StartStep(w: World)
    requires !w.draining
    ensures Step(Step(w, StartDrain), Token(|w.drains|, true)) == WithPc(w, w.drains, AwaitRead)
  {
  }

  lemma ReadStep(w: World, drains: seq<Pc>, row: Row)
    requires w == WithPc(w, drains, AwaitRead) && w.rows == map[0 := row] && row.status.Pending?
    ensures Step(w, Read(|drains|, [0])) == WithPc(w, drains, GotCandidates([Local(0, row)]))
  {
    assert PendingIds(w.rows) == {0} && IsPendingBatch(w.rows, [0], BATCH_LIMIT);
    assert Snapshot(w.rows, [0]) == [Local(0, row)];
  }

  lemma SelectStep(w: World, drains: seq<Pc>, row: Row, now: Time)
    requires w == WithPc(w, drains, GotCandidates([Local(0, row)])) && IsEligibleForRetry(row, now)
    ensures Step(w, Select(|drains|, now)) == WithPc(w, drains, AwaitMark([0], now))
  {
    OneEligible(row, now);
  }

  lemma FlightStep(w: World, drains: seq<Pc>, row: Row, now: Time)
    requires w == WithPc(w, drains, AwaitMark([0], now)) && w.rows == map[0 := row]
    ensures Step(w, Flight(|drains|))
         == WithPc(w, drains, Marked([0], now)).(
              rows := map[0 := row.(status := InFlight, attempts := row.attempts + 1)])
  {
    assert MarkedInFlight(w.rows, [0]) == map[0 := row.(status := InFlight, attempts := row.attempts + 1)];
  }

  lemma MarksRow(w: World, row: Row, now: Time)
    requires !w.draining && w.rows == map[0 := row] && row.status.Pending? && IsEligibleForRetry(row, now)
    ensures Run(w, Marking(|w.drains|, now))
         == WithPc(w, w.drains, Marked([0], now)).(
              rows := map[0 := row.(status := InFlight, attempts := row.attempts + 1)])
  {
    var i, drains := |w.drains|, w.drains;
    RunFive(w, StartDrain, Token(i, true), Read(i, [0]), Select(i, now), Flight(i));
    StartStep(w);
    ReadStep(WithPc(w, drains, AwaitRead), drains, row);
    SelectStep(WithPc(w, drains, GotCandidates([Local(0, row)])), drains, row, now);
    FlightStep(WithPc(w, drains, AwaitMark([0], now)), drains, row, now);
  }

  /** The envelope as the wire and the server know it. */
  function Served(w: World, now: Time): World {
    w.(envelopes := w.envelopes + [[0]], selectedAt := w.selectedAt + [now], accepted := w.accepted + {|w.envelopes|})
  }

  lemma ServeStep(w: World, drains: seq<Pc>, now: Time)
    requires w == WithPc(w, drains, Marked([0], now))
    ensures Step(Step(w, Send(|drains|)), Serve(|w.envelopes|))
         == WithPc(Served(w, now), drains, Sent([0], |w.envelopes|))
  {
  }

  lemma AnswerStep(w: World, drains: seq<Pc>, k: nat, row: Row, ok: bool)
    requires w == WithPc(w, drains, Sent([0], k)) && k in w.accepted && w.rows == map[0 := row]
    ensures Step(Step(w, Respond(|drains|, ok, "")), Record(|drains|))
         == WithPc(w, drains, Finishing).(
              rows := map[0 := if ok then row.(status := Uploaded) else row.(status := Pending, lastError := "")],
              acknowledged := if ok then w.acknowledged + {k} else w.acknowledged)
  {
    if ok {
      assert MarkedUploaded(w.rows, [0]) == map[0 := row.(status := Uploaded)];
    } else {
      assert MarkedFailed(w.rows, [0], "") == map[0 := row.(status := Pending, lastError := "")];
    }
  }

  lemma FinishStep(w: World, drains: seq<Pc>)
    requires w == WithPc(w, drains, Finishing)
    ensures Step(w, Finish(|drains|)) == w.(draining := false, drains := drains + [Done])
  {
  }

  lemma SendsRow(w: World, drains: seq<Pc>, row: Row, now: Time, ok: bool)
    requires w == WithPc(w, drains, Marked([0], now)) && w.rows == map[0 := row]
    ensures var k := |w.envelopes|;
            Run(w, Sending(|drains|, k, ok))
            == World(map[0 := if ok then row.(status := Uploaded) else row.(status := Pending, lastError := "")],
                     false, drains + [Done], w.envelopes + [[0]], w.selectedAt + [now], w.accepted + {k},
                     if ok then w.acknowledged + {k} else w.acknowledged)
  {
    var i, k := |drains|, |w.envelopes|;
    RunFive(w, Send(i), Serve(k), Respond(i, ok, ""), Record(i), Finish(i));
    ServeStep(w, drains, now);
    var w2 := WithPc(Served(w, now), drains, Sent([0], k));
    AnswerStep(w2, drains, k, row, ok);
    FinishStep(Step(Step(w2, Respond(i, ok, "")), Record(i)), drains);
  }

  lemma DrainsRow(w: World, row: Row, now: Time, ok: bool)
    requires !w.draining && w.rows == map[0 := row] && row.status.Pending? && IsEligibleForRetry(row, now)
    ensures var i, k := |w.drains|, |w.envelopes|;
            var sent := row.(attempts := row.attempts + 1);
            Run(w, Marking(i, now) + Sending(i, k, ok))
            == World(map[0 := if ok then sent.(status := Uploaded) else sent.(status := Pending, lastError := "")],
                     false, w.drains + [Done], w.envelopes + [[0]], w.selectedAt + [now], w.accepted + {k},
                     if ok then w.acknowledged + {k} else w.acknowledged)
  {
    var i, k := |w.drains|, |w.envelopes|;
    MarksRow(w, row, now);
    SendsRow(Run(w, Marking(i, now)), w.drains, row.(status := InFlight, attempts := row.attempts + 1), now, ok);
    RunConcat(w, Marking(i, now), Sending(i, k, ok));
  }

  lemma AnswerTooLate()
    ensures Run(START.(rows := map[0 := Row(Pending, 0, "", 0, 0)]), Marking(0, 0) + Sending(0, 0, false))
         == World(map[0 := Row(Pending, 1, "", 0, 0)], false, [Done], [[0]], [0], {0}, {})
  {
    DrainsRow(START.(rows := map[0 := Row(Pending, 0, "", 0, 0)]), Row(Pending, 0, "", 0, 0), 0, false);
  }

  lemma SentAgain(w: World)
    requires w == World(map[0 := Row(Pending, 1, "", 0, 0)], false, [Done], [[0]], [0], {0}, {})
    ensures Run(w, Marking(1, 30000) + Sending(1, 1, true))
         == World(map[0 := Row(Uploaded, 2, "", 0, 0)], false, [Done, Done], [[0], [0]], [0, 30000], {0, 1}, {1})
  {
    assert Pow2(0) == 1;
    DrainsRow(w, Row(Pending, 1, "", 0, 0), 30000, true);
  }

  /** It does happen: the answer to the first envelope comes too late, so the row is sent again. */
  lemma AcceptedTwice()
    ensures var first, second := Marking(0, 0) + Sending(0, 0, false), Marking(1, 30000) + Sending(1, 1, true);
            var w := Run(START, [Enqueue(0, 0, 0)] + first + second);
            !w.draining && 0 in w.rows && w.rows[0].status.Uploaded? && |AcceptedWith(w, 0)| == 2
  {
    var first, second := Marking(0, 0) + Sending(0, 0, false), Marking(1, 30000) + Sending(1, 1, true);
    RunOne(START, Enqueue(0, 0, 0));
    assert Step(START, Enqueue(0, 0, 0)) == START.(rows := map[0 := Row(Pending, 0, "", 0, 0)]);
    AnswerTooLate();
    SentAgain(World(map[0 := Row(Pending, 1, "", 0, 0)], false, [Done], [[0]], [0], {0}, {}));
    RunConcat(START, [Enqueue(0, 0, 0)], first);
    RunConcat(START, [Enqueue(0, 0, 0)] + first, second);
    var w := Run(START, [Enqueue(0, 0, 0)] + first + second);
    assert AcceptedWith(w, 0) == {0, 1};
  }

  /** The row is still there, with its times; attempts have not fallen, and uploaded stays uploaded. */
  predicate RowKept(t: Table, t': Table, id: Id)
    requires id in t
  {
    && id in t'
    && t'[id].occurredAt == t[id].occurredAt && t'[id].createdAt == t[id].createdAt
    && t'[id].attempts >= t[id].attempts
    && (t[id].status.Uploaded? ==> t'[id].status.Uploaded?)
  }

  /** A row once enqueued stays, with its times and a never falling attempt count, whatever happens next;
      and once uploaded it stays uploaded. */
  lemma {:induction false} NoRowLost(w: World, actions: seq<Action>, id: Id)
    requires Inv(w) && id in w.rows
    ensures RowKept(w.rows, Run(w, actions).rows, id)
    decreases |actions|
  {
    if actions != [] {
      StepKeepsInv(w, actions[0]);
      StepKeepsRow(w, actions[0], id);
      NoRowLost(Step(w, actions[0]), actions[1..], id);
    }
  }

  lemma ActorKeepsRow(w: World, a: Action, pc: Pc, id: Id)
    requires !a.Enqueue? && !a.StartDrain? && !a.Serve? && At(w, Actor(a)) == pc && id in w.rows
    requires RowAgrees(w, pc, id)
    ensures RowKept(w.rows, Step(w, a).rows, id)
  {
    match a
    case Flight(_) =>
      assert pc.AwaitMark? && id in pc.ids ==> Chosen(pc, id);
    case Record(_) =>
      assert (pc.AwaitUploaded? || pc.AwaitFailed?) && id in pc.ids ==> Held(pc, id);
    case _ =>
  }

  /** A call that is done, or does not exist, does nothing. */
  lemma DoneStays(w: World, a: Action)
    requires !a.Enqueue? && !a.StartDrain? && !a.Serve? && At(w, Actor(a)).Done?
    ensures Step(w, a) == w
  {
  }

  lemma OthersKeepRow(w: World, a: Action, id: Id)
    requires id in w.rows && (a.Enqueue? || a.StartDrain? || a.Serve?)
    ensures RowKept(w.rows, Step(w, a).rows, id)
  {
  }

  lemma StepKeepsRow(w: World, a: Action, id: Id)
    requires Inv(w) && id in w.rows
    ensures RowKept(w.rows, Step(w, a).rows, id)
  {
    if a.Enqueue? || a.StartDrain? || a.Serve? {
      OthersKeepRow(w, a, id);
    } else if At(w, Actor(a)).Done? {
      DoneStays(w, a);
    } else {
      var i: nat :| Running(w, i) && Agrees(w, w.drains[i]);
      assert Actor(a) == i;
      ActorKeepsRow(w, a, w.drains[i], id);
    }
  }

  /** Enqueueing under a new key adds a pending row that no envelope has carried. */
  lemma EnqueueAdds(actions: seq<Action>, id: Id, occurredAt: Time, now: Time)
    requires id !in Run(START, actions).rows
    ensures var w := Step(Run(START, actions), Enqueue(id, occurredAt, now));
            && w.rows[id] == Row(Pending, 0, "", occurredAt, now)
            && Carried(w, id) == 0 && AcceptedWith(w, id) == {}
  {
    Reachable(actions);
    var before := Run(START, actions);
    var w := Step(before, Enqueue(id, occurredAt, now));
    StepKeepsInv(before, Enqueue(id, occurredAt, now));
    if Idle(w) && Agrees(w, Done) {
      assert RowAgrees(w, Done, id);
    } else {
      var i: nat :| Running(w, i) && Agrees(w, w.drains[i]);
      assert RowAgrees(w, w.drains[i], id);
    }
  }
}
