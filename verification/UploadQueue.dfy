/** The desktop batch queue and its retrying uploader. What the network answers, whether a flush is cancelled and
    whether a statement succeeds are choices from outside. */
module UploadQueue {
  import opened Options
  import opened Counting
  import opened Powers

  type Payload = seq<nat>

  /** How a post can end: 2xx, 401, another permanent 4xx, or anything worth retrying. */
  datatype Outcome = Accepted | Unauthorized | Permanent | Transient

  /** `batch` says for which row the post was made. */
  datatype Post = Post(batch: nat, payload: Payload, outcome: Outcome)

  datatype Row = Row(payload: Payload, createdAt: int, uploadedAt: Option<int>, retryCount: nat)

  /** One attempt: whether the wait before it is cancelled, how its post ends, and whether a token refresh succeeds. */
  datatype Try = Try(cancelled: bool, outcome: Outcome, refreshed: bool)

  /** Another attempt follows a transient failure, and a 401 once the token is refreshed. */
  predicate TriesOn(t: Try) {
    t.outcome.Transient? || (t.outcome.Unauthorized? && t.refreshed)
  }

  /** Attempt `k` makes its post: all before it were worth repeating, and no wait was cancelled on the way.
      There is no wait before the first. */
  predicate Reached(tries: seq<Try>, k: nat)
    requires k < |tries|
  {
    (forall j | 0 <= j < k :: TriesOn(tries[j])) && forall j | 0 < j <= k :: !tries[j].cancelled
  }

  /** These are the outcomes of the attempts that are reached, and no others. */
  predicate Plays(tries: seq<Try>, outcomes: seq<Outcome>) {
    && |outcomes| <= |tries|
    && (forall k | 0 <= k < |outcomes| :: outcomes[k] == tries[k].outcome)
    && (forall k | 0 <= k < |tries| :: k < |outcomes| <==> Reached(tries, k))
  }

  /** The outcomes of one batch's turn in a flush: at most `maxRetries` posts, at least one if any is allowed, of
      which only the last can be an acceptance or a permanent refusal. */
  predicate IsTurn(outcomes: seq<Outcome>, maxRetries: nat) {
    && |outcomes| <= maxRetries && (maxRetries > 0 ==> outcomes != [])
    && (outcomes == [] || AllRetried(outcomes[..|outcomes| - 1]))
  }

  predicate AllRetried(outcomes: seq<Outcome>) {
    forall k | 0 <= k < |outcomes| :: outcomes[k].Transient? || outcomes[k].Unauthorized?
  }

  /** Whatever happens, the attempts make a turn, and every turn can happen. */
  lemma TurnsExactly(outcomes: seq<Outcome>, maxRetries: nat)
    ensures IsTurn(outcomes, maxRetries) <==> exists tries :: |tries| == maxRetries && Plays(tries, outcomes)
  {
    if IsTurn(outcomes, maxRetries) {
      var n := |outcomes|;
      var tries := seq(maxRetries, k requires 0 <= k < maxRetries =>
        Try(k >= n, if k < n then outcomes[k] else Permanent, k < n - 1));
      forall k | 0 <= k < maxRetries
        ensures k < n <==> Reached(tries, k)
      {
        if k < n {
          assert forall j | 0 <= j < k :: outcomes[..n - 1][j] == tries[j].outcome;
        } else {
          assert k > 0 ==> tries[k].cancelled;
        }
      }
      assert |tries| == maxRetries && Plays(tries, outcomes);
    }
    forall tries: seq<Try> | |tries| == maxRetries && Plays(tries, outcomes)
      ensures IsTurn(outcomes, maxRetries)
    {
      assert maxRetries > 0 ==> Reached(tries, 0);
      if outcomes != [] {
        assert Reached(tries, |outcomes| - 1);
      }
    }
  }

  predicate Delivered(outcomes: seq<Outcome>) {
    outcomes != [] && outcomes[|outcomes| - 1].Accepted?
  }

  /** Seconds waited in all before the last of `posts` posts: 1 + 2 + 4 + ... */
  function Waits(posts: nat): (s: nat)
    ensures posts > 0 ==> s == Pow2(posts - 1) - 1
  {
    if posts <= 1 then 0 else Waits(posts - 1) + Pow2(posts - 2)
  }

  /** The wait before the next post after `posts` of them. */
  function Delay(posts: nat): nat {
    if posts == 0 then 1 else Pow2(posts - 1)
  }

  lemma WaitsNext(posts: nat)
    ensures Waits(posts + 1) == Waits(posts) + (if posts > 0 then Delay(posts) else 0)
    ensures Delay(posts + 1) == if posts > 0 then Delay(posts) * 2 else Delay(posts)
  {
  }

  // ----- the queue over a run -----

  /** How a turn ended: whether the batch was accepted, and whether the statement that records it succeeded. */
  datatype Ended = Ended(batch: nat, delivered: bool, recorded: bool)

  /** `born`, `posts` and `turns` remember every payload enqueued, at its id, every post made and every turn taken. */
  datatype World = World(rows: map<nat, Row>, born: seq<Payload>, posts: seq<Post>, turns: seq<Ended>)

  datatype Action =
    | Enqueue(payload: Payload, now: int)
    | Turn(id: nat, outcomes: seq<Outcome>, recorded: bool, now: int)
    | CleanUp(cutoff: int)

  predicate Pending(rows: map<nat, Row>, id: nat) {
    id in rows && rows[id].uploadedAt.None?
  }

  function Posts(batch: nat, payload: Payload, outcomes: seq<Outcome>): seq<Post> {
    seq(|outcomes|, k requires 0 <= k < |outcomes| => Post(batch, payload, outcomes[k]))
  }

  lemma PostsSnoc(batch: nat, payload: Payload, outcomes: seq<Outcome>, outcome: Outcome)
    ensures Posts(batch, payload, outcomes + [outcome])
         == Posts(batch, payload, outcomes) + [Post(batch, payload, outcome)]
  {
  }

  /** After a turn an accepted batch is marked uploaded and a failed one is counted, if that statement succeeds. */
  function AfterTurn(row: Row, outcomes: seq<Outcome>, recorded: bool, now: int): Row {
    if !recorded then row
    else if Delivered(outcomes) then row.(uploadedAt := Some(now)) else row.(retryCount := row.retryCount + 1)
  }

  function Step(w: World, a: Action, maxRetries: nat): World {
    match a
    case Enqueue(payload, now) =>
      w.(rows := w.rows[|w.born| := Row(payload, now, None, 0)], born := w.born + [payload])
    case Turn(id, outcomes, recorded, now) =>
      if !Pending(w.rows, id) || !IsTurn(outcomes, maxRetries) then w
      else
        w.(rows := w.rows[id := AfterTurn(w.rows[id], outcomes, recorded, now)],
           posts := w.posts + Posts(id, w.rows[id].payload, outcomes),
           turns := w.turns + [Ended(id, Delivered(outcomes), recorded)])
    case CleanUp(cutoff) =>
      w.(rows := map id | id in w.rows && !(w.rows[id].uploadedAt.Some? && w.rows[id].uploadedAt.value < cutoff) ::
        w.rows[id])
  }

  function Run(w: World, actions: seq<Action>, maxRetries: nat): World
    decreases |actions|
  {
    if actions == [] then w else Run(Step(w, actions[0], maxRetries), actions[1..], maxRetries)
  }

  const START := World(map[], [], [], [])

  // ----- the ledger -----

  function AcceptedFor(id: nat): Post -> bool {
    (p: Post) => p.batch == id && p.outcome.Accepted?
  }

  function DeliveredTurn(id: nat): Ended -> bool {
    (e: Ended) => e.batch == id && e.delivered
  }

  function RecordedTurn(id: nat): Ended -> bool {
    (e: Ended) => e.batch == id && e.delivered && e.recorded
  }

  function FailedTurn(id: nat): Ended -> bool {
    (e: Ended) => e.batch == id && !e.delivered && e.recorded
  }

  /** The accepted posts of a batch are its delivered turns, it is pending until one of them is recorded, and its
      retries are its failed turns that were recorded. */
  predicate Ledger(w: World, id: nat) {
    && Count(w.posts, AcceptedFor(id)) == Count(w.turns, DeliveredTurn(id))
    && Count(w.turns, RecordedTurn(id)) == (if id < |w.born| && !Pending(w.rows, id) then 1 else 0)
    && (id in w.rows ==>
          id < |w.born| && w.rows[id].payload == w.born[id] && w.rows[id].retryCount == Count(w.turns, FailedTurn(id)))
    && (id >= |w.born| ==> Count(w.turns, FailedTurn(id)) == 0)
  }

  ghost predicate Inv(w: World) {
    && (forall id: nat :: Ledger(w, id))
    && (forall k | 0 <= k < |w.posts| ::
          w.posts[k].batch < |w.born| && w.posts[k].payload == w.born[w.posts[k].batch])
  }

  /** A turn's posts are accepted at most once, for the batch it is about. */
  lemma {:induction false} AcceptedPosts(batch: nat, payload: Payload, outcomes: seq<Outcome>, id: nat)
    requires outcomes == [] || AllRetried(outcomes[..|outcomes| - 1])
    ensures Count(Posts(batch, payload, outcomes), AcceptedFor(id))
         == if id == batch && Delivered(outcomes) then 1 else 0
  {
    if outcomes != [] {
      var n := |outcomes| - 1;
      var ps := Posts(batch, payload, outcomes);
      forall p | p in ps[..n]
        ensures !AcceptedFor(id)(p)
      {
        var k :| 0 <= k < n && ps[..n][k] == p;
        assert outcomes[..n][k] == p.outcome;
      }
      CountNone(ps[..n], AcceptedFor(id));
    }
  }

  /** What a turn adds to the counts of a batch. */
  lemma TurnCounts(w: World, i: nat, outcomes: seq<Outcome>, recorded: bool, now: int, maxRetries: nat, id: nat)
    requires Pending(w.rows, i) && IsTurn(outcomes, maxRetries)
    ensures var w', ok := Step(w, Turn(i, outcomes, recorded, now), maxRetries), id == i && Delivered(outcomes);
            && Count(w'.posts, AcceptedFor(id)) == Count(w.posts, AcceptedFor(id)) + (if ok then 1 else 0)
            && Count(w'.turns, DeliveredTurn(id)) == Count(w.turns, DeliveredTurn(id)) + (if ok then 1 else 0)
            && Count(w'.turns, RecordedTurn(id))
               == Count(w.turns, RecordedTurn(id)) + (if ok && recorded then 1 else 0)
            && Count(w'.turns, FailedTurn(id))
               == Count(w.turns, FailedTurn(id)) + (if id == i && !Delivered(outcomes) && recorded then 1 else 0)
  {
    var payload := w.rows[i].payload;
    var ended := Ended(i, Delivered(outcomes), recorded);
    AcceptedPosts(i, payload, outcomes, id);
    CountConcat(w.posts, Posts(i, payload, outcomes), AcceptedFor(id));
    CountSnoc(w.turns, ended, DeliveredTurn(id));
    CountSnoc(w.turns, ended, RecordedTurn(id));
    CountSnoc(w.turns, ended, FailedTurn(id));
  }

  lemma TurnLedger(w: World, i: nat, outcomes: seq<Outcome>, recorded: bool, now: int, maxRetries: nat, id: nat)
    requires Ledger(w, id) && Pending(w.rows, i) && i < |w.born| && IsTurn(outcomes, maxRetries)
    ensures Ledger(Step(w, Turn(i, outcomes, recorded, now), maxRetries), id)
  {
    TurnCounts(w, i, outcomes, recorded, now, maxRetries, id);
    TurnMeans(w, i, outcomes, recorded, now, maxRetries);
  }

  lemma TurnKeepsInv(w: World, i: nat, outcomes: seq<Outcome>, recorded: bool, now: int, maxRetries: nat)
    requires Inv(w)
    ensures Inv(Step(w, Turn(i, outcomes, recorded, now), maxRetries))
  {
    if Pending(w.rows, i) && IsTurn(outcomes, maxRetries) {
      assert Ledger(w, i);
      forall id: nat | true
        ensures Ledger(Step(w, Turn(i, outcomes, recorded, now), maxRetries), id)
      {
        TurnLedger(w, i, outcomes, recorded, now, maxRetries, id);
      }
    }
  }

  lemma StepKeepsInv(w: World, a: Action, maxRetries: nat)
    requires Inv(w)
    ensures Inv(Step(w, a, maxRetries))
  {
    if a.Turn? {
      TurnKeepsInv(w, a.id, a.outcomes, a.recorded, a.now, maxRetries);
    } else {
      forall id: nat | true
        ensures Ledger(Step(w, a, maxRetries), id)
      {
        assert Ledger(w, id);
      }
    }
  }

  lemma {:induction false} RunKeepsInv(w: World, actions: seq<Action>, maxRetries: nat)
    requires Inv(w)
    ensures Inv(Run(w, actions, maxRetries))
    decreases |actions|
  {
    if actions != [] {
      StepKeepsInv(w, actions[0], maxRetries);
      RunKeepsInv(Step(w, actions[0], maxRetries), actions[1..], maxRetries);
    }
  }

  lemma CountAtMost<T>(s: seq<T>, p: T -> bool, q: T -> bool)
    requires forall x :: p(x) ==> q(x)
    ensures Count(s, p) <= Count(s, q)
  {
    if s != [] {
      CountAtMost(s[..|s| - 1], p, q);
    }
  }

  /** Over any run of enqueues, turns and clean-ups, a batch that is no longer pending, or no longer
      there at all, has been accepted in a post of its own, with the payload it was enqueued with. */
  lemma NothingLost(actions: seq<Action>, maxRetries: nat, id: nat)
    ensures var w := Run(START, actions, maxRetries);
            id < |w.born| ==>
              && (Pending(w.rows, id) ==> w.rows[id].payload == w.born[id])
              && (!Pending(w.rows, id) ==> Post(id, w.born[id], Accepted) in w.posts)
  {
    RunKeepsInv(START, actions, maxRetries);
    var w := Run(START, actions, maxRetries);
    assert Ledger(w, id);
    if id < |w.born| && !Pending(w.rows, id) {
      CountAtMost(w.turns, RecordedTurn(id), DeliveredTurn(id));
      CountedOne(w.posts, AcceptedFor(id));
      var k :| 0 <= k < |w.posts| && AcceptedFor(id)(w.posts[k]);
      assert w.posts[k] == Post(id, w.born[id], Accepted);
    }
  }

  /** After any run, the server has accepted a batch once for every turn that delivered it. The batch has stopped being
      pending if and only if one of these turns was recorded, and no more than one ever is; so it has been accepted
      exactly once if, besides, none went unrecorded. A row's retries are its failed turns. */
  lemma AcceptedAsRecorded(actions: seq<Action>, maxRetries: nat, id: nat)
    ensures var w := Run(START, actions, maxRetries);
            && Count(w.posts, AcceptedFor(id)) == Count(w.turns, DeliveredTurn(id))
            && (id < |w.born| ==>
                  Count(w.turns, RecordedTurn(id)) == if Pending(w.rows, id) then 0 else 1)
            && (id in w.rows ==> w.rows[id].retryCount == Count(w.turns, FailedTurn(id)))
  {
    RunKeepsInv(START, actions, maxRetries);
    assert Ledger(Run(START, actions, maxRetries), id);
  }

  predicate Silent(posts: seq<Post>, id: nat) {
    forall k | 0 <= k < |posts| :: posts[k].batch != id
  }

  /** Once a batch is no longer pending, it never is again and is not posted any more. */
  lemma {:induction false} NeverAgain(w: World, actions: seq<Action>, maxRetries: nat, id: nat)
    requires id < |w.born| && !Pending(w.rows, id)
    ensures var w' := Run(w, actions, maxRetries);
            && id < |w'.born| && !Pending(w'.rows, id)
            && w.posts <= w'.posts && Silent(w'.posts[|w.posts|..], id)
    decreases |actions|
  {
    if actions != [] {
      var w1 := Step(w, actions[0], maxRetries);
      NeverAgain(w1, actions[1..], maxRetries, id);
      var w' := Run(w1, actions[1..], maxRetries);
      assert w'.posts[|w.posts|..] == w1.posts[|w.posts|..] + w'.posts[|w1.posts|..];
    }
  }

  /** What one turn does to a pending batch: its posts go out with its payload; if the last was accepted the row gets
      the time, otherwise one more retry, unless the statement fails; nothing else changes. */
  lemma TurnMeans(w: World, id: nat, outcomes: seq<Outcome>, recorded: bool, now: int, maxRetries: nat)
    requires Pending(w.rows, id) && IsTurn(outcomes, maxRetries)
    ensures var w', row := Step(w, Turn(id, outcomes, recorded, now), maxRetries), w.rows[id];
            && w'.born == w.born && w'.rows.Keys == w.rows.Keys
            && w'.posts == w.posts + seq(|outcomes|, k requires 0 <= k < |outcomes| =>
                                                       Post(id, row.payload, outcomes[k]))
            && w'.rows[id] == (if !recorded then row
                               else if outcomes != [] && outcomes[|outcomes| - 1] == Accepted
                               then Row(row.payload, row.createdAt, Some(now), row.retryCount)
                               else Row(row.payload, row.createdAt, None, row.retryCount + 1))
            && forall i | i in w.rows && i != id :: w'.rows[i] == w.rows[i]
  {
  }

  /** Clean-up deletes exactly the batches uploaded before the cutoff, and leaves the others, pending ones
      among them, as they are. */
  lemma CleanUpSparesPending(w: World, cutoff: int, maxRetries: nat, id: nat)
    requires id in w.rows
    ensures var w' := Step(w, CleanUp(cutoff), maxRetries);
            if w.rows[id].uploadedAt != None && w.rows[id].uploadedAt.value < cutoff then id !in w'.rows
            else id in w'.rows && w'.rows[id] == w.rows[id]
  {
  }

  lemma {:induction false} RunMore(w: World, actions: seq<Action>, a: Action, maxRetries: nat)
    ensures Run(w, actions + [a], maxRetries) == Step(Run(w, actions, maxRetries), a, maxRetries)
    decreases |actions|
  {
    if actions == [] {
      assert ([] + [a])[1..] == [];
    } else {
      RunMore(Step(w, actions[0], maxRetries), actions[1..], a, maxRetries);
      assert (actions + [a])[1..] == actions[1..] + [a];
    }
  }

  // ----- the uploader -----

  /** Of the pending ids below `n`, the first ones, as many as the limit allows, in order of creation. */
  predicate Oldest(rows: map<nat, Row>, n: nat, limit: nat, ids: seq<nat>) {
    && |ids| <= limit
    && (forall k | 0 <= k < |ids| :: ids[k] < n && Pending(rows, ids[k]))
    && (forall j, k | 0 <= j < k < |ids| :: ids[j] < ids[k])
    && (forall id: nat | id < n && Pending(rows, id) && id !in ids ::
          |ids| == limit && forall k | 0 <= k < |ids| :: ids[k] < id)
  }

  lemma OthersPending(rows: map<nat, Row>, ids: seq<nat>, i: nat, row: Row)
    requires i < |ids| && forall j, k | 0 <= j < k < |ids| :: ids[j] < ids[k]
    requires forall k | i <= k < |ids| :: Pending(rows, ids[k])
    ensures forall k | i < k < |ids| :: Pending(rows[ids[i] := row], ids[k])
  {
  }

  /** One batch of a flush: whether the flush is cancelled before it, its attempts, and whether the statement that
      records how they ended succeeds. */
  datatype Visit = Visit(cancelled: bool, tries: seq<Try>, recorded: bool)

  predicate ComesTo(visits: seq<Visit>, k: nat)
    requires k < |visits|
  {
    forall j | 0 <= j <= k :: !visits[j].cancelled
  }

  predicate IsVisit(a: Action, id: nat, visit: Visit, now: int) {
    a.Turn? && a.id == id && Plays(visit.tries, a.outcomes) && a.recorded == visit.recorded && a.now == now
  }

  /** The uploader keeps the trace of its actions; its table is that of the world the trace leads to. */
  class Uploader {
    const batchSize: nat
    const maxRetries: nat
    var rows: map<nat, Row>
    var nextId: nat
    ghost var sent: seq<Post>
    ghost var trace: seq<Action>

    ghost function Now(): World
      reads this
    {
      Run(START, trace, maxRetries)
    }

    ghost predicate Valid()
      reads this
    {
      Now().rows == rows && |Now().born| == nextId && Now().posts == sent
    }

    constructor (batchSize: nat, maxRetries: nat)
      ensures Valid() && trace == [] && sent == [] && this.batchSize == batchSize && this.maxRetries == maxRetries
    {
      this.batchSize, this.maxRetries := batchSize, maxRetries;
      rows, nextId, sent, trace := map[], 0, [], [];
    }

    method EnqueueBatch(payload: Payload, now: int) returns (id: nat)
      requires Valid()
      modifies this
      ensures Valid() && trace == old(trace) + [Enqueue(payload, now)]
      ensures id == old(nextId) && rows == old(rows)[id := Row(payload, now, None, 0)]
    {
      RunMore(START, trace, Enqueue(payload, now), maxRetries);
      id := nextId;
      rows := rows[id := Row(payload, now, None, 0)];
      nextId := nextId + 1;
      trace := trace + [Enqueue(payload, now)];
    }

    /** The oldest pending batches, up to the limit. */
    method PendingBatches(limit: nat) returns (ids: seq<nat>)
      ensures Oldest(rows, nextId, limit, ids)
    {
      ids := [];
      for n := 0 to nextId
        invariant Oldest(rows, n, limit, ids)
      {
        if |ids| < limit && n in rows && rows[n].uploadedAt.None? {
          ids := ids + [n];
        }
      }
    }

    /** Posts with exponential backoff. `waited` adds up the waits that ran to their end. */
    method UploadWithRetry(ghost batch: nat, payload: Payload, tries: seq<Try>)
      returns (ok: bool, outcomes: seq<Outcome>, waited: nat)
      requires |tries| == maxRetries
      modifies this`sent
      ensures sent == old(sent) + Posts(batch, payload, outcomes)
      ensures Plays(tries, outcomes) && (ok <==> Delivered(outcomes))
      ensures waited == Waits(|outcomes|)
    {
      outcomes, waited := [], 0;
      var delay := 1;
      var attempt := 0;
      while attempt < maxRetries
        invariant 0 <= attempt <= maxRetries && |outcomes| == attempt
        invariant forall k | 0 <= k < attempt :: outcomes[k] == tries[k].outcome && TriesOn(tries[k])
        invariant forall k | 0 < k < attempt :: !tries[k].cancelled
        invariant delay == Delay(attempt) && waited == Waits(attempt)
        invariant sent == old(sent) + Posts(batch, payload, outcomes)
      {
        WaitsNext(attempt);
        if attempt > 0 {
          if tries[attempt].cancelled {
            return false, outcomes, waited;
          }
          waited := waited + delay;
          delay := delay * 2;
        }
        var outcome := tries[attempt].outcome;
        PostsSnoc(batch, payload, outcomes, outcome);
        sent := sent + [Post(batch, payload, outcome)];
        outcomes := outcomes + [outcome];
        match outcome {
          case Accepted => return true, outcomes, waited;
          case Unauthorized =>
            if !tries[attempt].refreshed {
              return false, outcomes, waited;
            }
          case Permanent => return false, outcomes, waited;
          case Transient =>
        }
        attempt := attempt + 1;
      }
      ok := false;
    }

    /** One batch of a flush, with its bookkeeping. */
    method UploadOne(id: nat, visit: Visit, now: int) returns (ghost a: Action)
      requires Valid() && Pending(rows, id) && |visit.tries| == maxRetries
      modifies this`rows, this`sent, this`trace
      ensures Valid() && trace == old(trace) + [a] && IsVisit(a, id, visit, now)
      ensures rows == old(rows)[id := AfterTurn(old(rows)[id], a.outcomes, a.recorded, now)]
    {
      var ok, outcomes, waited := UploadWithRetry(id, rows[id].payload, visit.tries);
      TurnsExactly(outcomes, maxRetries);
      a := Turn(id, outcomes, visit.recorded, now);
      RunMore(START, trace, a, maxRetries);
      if visit.recorded {
        if ok {
          rows := rows[id := rows[id].(uploadedAt := Some(now))];
        } else {
          rows := rows[id := rows[id].(retryCount := rows[id].retryCount + 1)];
        }
      }
      assert rows == old(rows)[id := AfterTurn(old(rows)[id], a.outcomes, a.recorded, now)];
      trace := trace + [a];
    }

    /** The oldest pending batches get one turn each, in order of creation, until the flush is cancelled. */
    method Flush(now: int, fetched: bool, visits: seq<Visit>)
      returns (ghost batches: seq<nat>, ghost turns: seq<Action>)
      requires Valid() && |visits| == batchSize && forall k | 0 <= k < |visits| :: |visits[k].tries| == maxRetries
      modifies this`rows, this`sent, this`trace
      ensures Valid() && trace == old(trace) + turns && rows.Keys == old(rows).Keys
      ensures Oldest(old(rows), nextId, batchSize, batches) && |turns| <= |batches|
      ensures forall k | 0 <= k < |turns| :: IsVisit(turns[k], batches[k], visits[k], now)
      ensures forall k | 0 <= k < |batches| ::
                k < |turns| <==> fetched && ComesTo(visits, k)
    {
      turns := [];
      var found := PendingBatches(batchSize);
      batches := found;
      if !fetched {
        return;
      }
      for i := 0 to |found|
        invariant Valid() && |turns| == i && trace == old(trace) + turns && rows.Keys == old(rows).Keys
        invariant forall k | 0 <= k < i :: IsVisit(turns[k], batches[k], visits[k], now) && !visits[k].cancelled
        invariant forall k | i <= k < |found| :: Pending(rows, found[k])
      {
        if visits[i].cancelled {
          return;
        }
        ghost var before := rows;
        ghost var a := UploadOne(found[i], visits[i], now);
        OthersPending(before, found, i, rows[found[i]]);
        turns := turns + [a];
      }
    }

    method CleanupOld(now: int, age: int)
      requires Valid()
      modifies this`rows, this`trace
      ensures Valid() && trace == old(trace) + [CleanUp(now - age)]
      ensures forall id :: id in rows <==>
                id in old(rows) && (old(rows)[id].uploadedAt == None || old(rows)[id].uploadedAt.value >= now - age)
      ensures forall id | id in rows :: rows[id] == old(rows)[id]
    {
      RunMore(START, trace, CleanUp(now - age), maxRetries);
      var cutoff := now - age;
      rows := map id | id in rows && !(rows[id].uploadedAt.Some? && rows[id].uploadedAt.value < cutoff) :: rows[id];
      trace := trace + [CleanUp(cutoff)];
    }
  }
}
