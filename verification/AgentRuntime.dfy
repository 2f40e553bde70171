/** The agent's store and aggregator as they run: tables that methods update in place, and the
    catch-up loop. Every method is proved against a step of `DesktopAgent`. */
module AgentRuntime {
  import opened Options
  import opened DesktopMetrics
  import opened WindowCollector
  import opened DesktopAgent

  /** A fetch that has looked at the ids below `n`. */
  predicate FetchedBelow(raw: map<nat, Raw>, classified: map<nat, Mark>, start: int, end: int, evs: seq<Classified>,
                         n: nat)
  {
    && InWindow(evs, start, end)
    && (forall i | 0 <= i < |evs| ::
          evs[i].id < n && evs[i].id in raw && evs[i].id in classified
          && evs[i].event == raw[evs[i].id] && evs[i].mark == classified[evs[i].id])
    && (forall i, j | 0 <= i < j < |evs| :: evs[i].id != evs[j].id)
    && (forall id {:trigger Has(evs, id)} |
          id < n && id in raw && id in classified && start <= raw[id].timestamp < end :: Has(evs, id))
  }

  function Place(evs: seq<Classified>, ce: Classified, k: nat): seq<Classified>
    requires k <= |evs|
  {
    evs[..k] + [ce] + evs[k..]
  }

  lemma PlaceHas(evs: seq<Classified>, ce: Classified, k: nat, id: nat)
    requires k <= |evs|
    ensures Has(Place(evs, ce, k), id) <==> id == ce.id || Has(evs, id)
  {
    var p := Place(evs, ce, k);
    assert p[k] == ce;
    if i :| 0 <= i < |evs| && evs[i].id == id {
      assert p[if i < k then i else i + 1] == evs[i];
    }
    if i :| 0 <= i < |p| && p[i].id == id && i != k {
      assert evs[if i < k then i else i - 1] == p[i];
    }
  }

  lemma PlaceKeeps(raw: map<nat, Raw>, classified: map<nat, Mark>, start: int, end: int, evs: seq<Classified>, n: nat,
                   k: nat)
    requires FetchedBelow(raw, classified, start, end, evs, n) && k <= |evs|
    requires n in raw && n in classified && start <= raw[n].timestamp < end
    requires forall i | 0 <= i < k :: evs[i].event.timestamp <= raw[n].timestamp
    requires forall i | k <= i < |evs| :: raw[n].timestamp <= evs[i].event.timestamp
    ensures FetchedBelow(raw, classified, start, end, Place(evs, Classified(n, raw[n], classified[n]), k), n + 1)
  {
    var ce := Classified(n, raw[n], classified[n]);
    forall id | id < n + 1 && id in raw && id in classified && start <= raw[id].timestamp < end
      ensures Has(Place(evs, ce, k), id)
    {
      PlaceHas(evs, ce, k, id);
    }
  }

  // ----- what a trace shows -----

  /** What the agent keeps of a world: its clock, its tables, the next window and what its window
      collector remembers. */
  datatype Fields = Fields(
    clock: int,
    raw: map<nat, Raw>,
    nextId: nat,
    classified: map<nat, Mark>,
    queue: seq<Metrics>,
    windowEnd: int,
    collector: Collector)

  function FieldsOf(w: World): Fields {
    Fields(w.clock, w.raw, |w.born|, w.classified, w.queue, w.windowEnd, w.collector)
  }

  /** The trace leads to a world with these fields. */
  ghost predicate Shows(origin: int, window: int, trace: seq<Action>, f: Fields)
    requires window > 0
  {
    FieldsOf(DesktopAgent.Run(Fresh(origin, window), trace, window)) == f
  }

  lemma IdsBelow(origin: int, window: int, trace: seq<Action>, f: Fields)
    requires window > 0 && Shows(origin, window, trace, f)
    ensures forall id | id in f.raw :: id < f.nextId
  {
    FreshInv(origin, window);
    DesktopAgent.RunKeepsInv(Fresh(origin, window), trace, window);
  }

  lemma ReportShows(origin: int, window: int, trace: seq<Action>, f: Fields, stamp: int, data: Data)
    requires window > 0 && Shows(origin, window, trace, f) && f.clock <= stamp && !data.AppSwitched?
    ensures Shows(origin, window, trace + [Report(stamp, data)],
                  f.(clock := stamp, raw := f.raw[f.nextId := Raw(stamp, data)], nextId := f.nextId + 1))
  {
    RunMore(Fresh(origin, window), trace, Report(stamp, data), window);
  }

  /** What a look at the window changes. */
  function AfterLook(f: Fields, poll: Poll, stamp: int): Fields {
    var (c, span) := Observe(f.collector, poll);
    var seen := f.(clock := stamp, collector := c);
    if span.Some? && poll.delivered
    then seen.(raw := f.raw[f.nextId := SwitchEvent(span.value, stamp)], nextId := f.nextId + 1)
    else seen
  }

  lemma LookShows(origin: int, window: int, trace: seq<Action>, f: Fields, poll: Poll, stamp: int)
    requires window > 0 && Shows(origin, window, trace, f) && f.clock <= poll.now <= stamp
    ensures Shows(origin, window, trace + [Look(poll, stamp)], AfterLook(f, poll, stamp))
  {
    RunMore(Fresh(origin, window), trace, Look(poll, stamp), window);
  }

  lemma ClassifyShows(origin: int, window: int, trace: seq<Action>, f: Fields, id: nat, mark: Mark)
    requires window > 0 && Shows(origin, window, trace, f)
    ensures Shows(origin, window, trace + [Classify(id, mark)],
                  if id in f.raw then f.(classified := f.classified[id := mark]) else f)
  {
    RunMore(Fresh(origin, window), trace, Classify(id, mark), window);
  }

  lemma PassShows(origin: int, window: int, trace: seq<Action>, f: Fields, now: int)
    requires window > 0 && Shows(origin, window, trace, f) && f.clock <= now
    ensures Shows(origin, window, trace + [Pass(now)], f.(clock := now))
  {
    RunMore(Fresh(origin, window), trace, Pass(now), window);
  }

  lemma RestartShows(origin: int, window: int, trace: seq<Action>, f: Fields, now: int)
    requires window > 0 && Shows(origin, window, trace, f) && f.clock <= now
    ensures Shows(origin, window, trace + [Restart(now)],
                  f.(clock := now, windowEnd := Truncate(now, window), collector := Collector("", now)))
  {
    RunMore(Fresh(origin, window), trace, Restart(now), window);
  }

  lemma NeverFallsBack(origin: int, window: int, trace: seq<Action>, f: Fields, now: int)
    requires window > 0 && Shows(origin, window, trace, f) && f.clock <= now
    ensures f.windowEnd <= Truncate(now, window)
  {
    FreshInv(origin, window);
    DesktopAgent.RunKeepsInv(Fresh(origin, window), trace, window);
    TruncateKeepsBoundary(f.windowEnd, now, window);
  }

  lemma CleanUpShows(origin: int, window: int, trace: seq<Action>, f: Fields, now: int, cutoff: int)
    requires window > 0 && Shows(origin, window, trace, f) && f.clock <= now
    ensures Shows(origin, window, trace + [CleanUp(now, cutoff)],
                  f.(clock := now, raw := Younger(f.raw, cutoff),
                     classified := YoungerMarks(f.raw, f.classified, cutoff)))
  {
    RunMore(Fresh(origin, window), trace, CleanUp(now, cutoff), window);
  }

  function Younger(raw: map<nat, Raw>, cutoff: int): map<nat, Raw> {
    map id | id in raw && raw[id].timestamp >= cutoff :: raw[id]
  }

  function YoungerMarks(raw: map<nat, Raw>, classified: map<nat, Mark>, cutoff: int): map<nat, Mark> {
    map id | id in classified && id in raw && raw[id].timestamp >= cutoff :: classified[id]
  }

  function WithBatch(queue: seq<Metrics>, start: int, end: int, evs: seq<Classified>): seq<Metrics> {
    if evs == [] then queue else queue + [MetricsOf(start, end, evs)]
  }

  /** What an attempt at a window that is due changes; `queue` is the queue with the batch stored. */
  ghost function AfterAttempt(f: Fields, queue: seq<Metrics>, outcome: Outcome, window: int): Fields
    requires window > 0
  {
    match outcome
    case Failed => f
    case Stored => f.(queue := queue, windowEnd := f.windowEnd + window)
    case StoredThenCrashed(restart) =>
      f.(clock := restart, queue := queue, windowEnd := Truncate(restart, window), collector := Collector("", restart))
  }

  lemma AttemptShows(origin: int, window: int, trace: seq<Action>, f: Fields, evs: seq<Classified>, outcome: Outcome,
                     queue: seq<Metrics>)
    requires window > 0 && Shows(origin, window, trace, f) && f.windowEnd + window <= f.clock
    requires IsFetch(f.raw, f.classified, f.windowEnd, f.windowEnd + window, evs)
    requires queue == WithBatch(f.queue, f.windowEnd, f.windowEnd + window, evs)
    requires outcome.StoredThenCrashed? ==> f.clock <= outcome.restart
    ensures Shows(origin, window, trace + [Aggregate(evs, outcome)], AfterAttempt(f, queue, outcome, window))
  {
    RunMore(Fresh(origin, window), trace, Aggregate(evs, outcome), window);
    AttemptMeans(DesktopAgent.Run(Fresh(origin, window), trace, window), evs, outcome, window);
  }

  lemma FailureShows(origin: int, window: int, trace: seq<Action>, f: Fields, evs: seq<Classified>)
    requires window > 0 && Shows(origin, window, trace, f)
    ensures Shows(origin, window, trace + [Aggregate(evs, Failed)], f)
  {
    RunMore(Fresh(origin, window), trace, Aggregate(evs, Failed), window);
  }

  lemma AttemptMeans(w: World, evs: seq<Classified>, outcome: Outcome, window: int)
    requires window > 0 && Due(w, evs, window) && (outcome.StoredThenCrashed? ==> w.clock <= outcome.restart)
    ensures var queue := WithBatch(w.queue, w.windowEnd, w.windowEnd + window, evs);
            FieldsOf(Step(w, Aggregate(evs, outcome), window)) == AfterAttempt(FieldsOf(w), queue, outcome, window)
  {
  }

  // ----- the agent -----

  /** The agent keeps the trace of its actions; its fields are those of the world that the trace leads to. */
  class Agent {
    const window: int
    var raw: map<nat, Raw>
    var nextId: nat
    var classified: map<nat, Mark>
    var queue: seq<Metrics>
    var windowEnd: int
    var prevApp: string
    var prevSince: int
    ghost const origin: int
    ghost var clock: int
    ghost var trace: seq<Action>

    ghost function Now(): Fields
      reads this
    {
      Fields(clock, raw, nextId, classified, queue, windowEnd, Collector(prevApp, prevSince))
    }

    ghost predicate Valid()
      reads this
    {
      window > 0 && Shows(origin, window, trace, Now())
    }

    constructor (now: int, window: int)
      requires window > 0
      ensures Valid() && this.window == window && origin == now && trace == []
    {
      this.window := window;
      raw, nextId, classified, queue := map[], 0, map[], [];
      windowEnd := TruncateTo(now, window);
      prevApp, prevSince := "", now;
      origin, clock, trace := now, now, [];
    }

    /** The insert statement behind every collector. */
    method InsertRaw(stamp: int, data: Data) returns (id: nat)
      requires Valid()
      modifies this`raw, this`nextId
      ensures id == old(nextId) && id !in old(raw) && nextId == id + 1
      ensures raw == old(raw)[id := Raw(stamp, data)]
    {
      IdsBelow(origin, window, trace, Now());
      id := nextId;
      raw := raw[id := Raw(stamp, data)];
      nextId := nextId + 1;
    }

    /** A collector other than the window collector reports an event. */
    method Submit(stamp: int, data: Data) returns (id: nat)
      requires Valid() && clock <= stamp && !data.AppSwitched?
      modifies this`raw, this`nextId, this`clock, this`trace
      ensures Valid() && trace == old(trace) + [Report(stamp, data)] && clock == stamp
      ensures id !in old(raw) && raw == old(raw)[id := Raw(stamp, data)]
    {
      ReportShows(origin, window, trace, Now(), stamp, data);
      id := InsertRaw(stamp, data);
      trace, clock := trace + [Report(stamp, data)], stamp;
    }

    /** The window collector looks at the app in focus. A switch is reported, or lost on its way. */
    method PollWindow(app: Option<string>, now: int, stamp: int) returns (delivered: bool)
      requires Valid() && clock <= now <= stamp
      modifies this`raw, this`nextId, this`prevApp, this`prevSince, this`clock, this`trace
      ensures Valid() && trace == old(trace) + [Look(Poll(app, now, delivered), stamp)]
      ensures Now() == AfterLook(old(Now()), Poll(app, now, delivered), stamp)
    {
      delivered := *;
      LookShows(origin, window, trace, Now(), Poll(app, now, delivered), stamp);
      ghost var after := trace + [Look(Poll(app, now, delivered), stamp)];
      if app.None? || app.value == "" {
        trace, clock := after, stamp;
        return;
      }
      if prevApp == "" {
        prevApp, prevSince, trace, clock := app.value, now, after, stamp;
        return;
      }
      if app.value != prevApp {
        var focusMs := now - prevSince;
        if delivered {
          var id := InsertRaw(stamp, AppSwitched(app.value, focusMs));
        }
        prevApp, prevSince := app.value, now;
      }
      trace, clock := after, stamp;
    }

    /** Inserting or replacing a classification; the foreign key refuses one for an event that is gone. */
    method SaveClassification(id: nat, mark: Mark) returns (ok: bool)
      requires Valid()
      modifies this`classified, this`trace
      ensures Valid() && trace == old(trace) + [Classify(id, mark)]
      ensures ok <==> id in raw
      ensures classified == if ok then old(classified)[id := mark] else old(classified)
    {
      ClassifyShows(origin, window, trace, Now(), id, mark);
      ok := id in raw;
      if ok {
        classified := classified[id := mark];
      }
      trace := trace + [Classify(id, mark)];
    }

    method FetchClassifiedSince(start: int, end: int) returns (evs: seq<Classified>)
      requires Valid()
      ensures IsFetch(raw, classified, start, end, evs)
    {
      IdsBelow(origin, window, trace, Now());
      evs := [];
      for n := 0 to nextId
        invariant FetchedBelow(raw, classified, start, end, evs, n)
      {
        if n in raw && n in classified && start <= raw[n].timestamp < end {
          evs := InsertByTime(evs, n, start, end);
        }
      }
    }

    /** Keeps the list in time order, later ids after earlier ones. */
    method InsertByTime(evs: seq<Classified>, n: nat, start: int, end: int) returns (more: seq<Classified>)
      requires FetchedBelow(raw, classified, start, end, evs, n)
      requires n in raw && n in classified && start <= raw[n].timestamp < end
      ensures FetchedBelow(raw, classified, start, end, more, n + 1)
    {
      var k := |evs|;
      while k > 0 && evs[k - 1].event.timestamp > raw[n].timestamp
        invariant 0 <= k <= |evs|
        invariant forall i | k <= i < |evs| :: raw[n].timestamp <= evs[i].event.timestamp
      {
        k := k - 1;
      }
      PlaceKeeps(raw, classified, start, end, evs, n, k);
      more := Place(evs, Classified(n, raw[n], classified[n]), k);
    }

    /** Computes the metrics of a window and stores the batch, unless the window is empty. */
    method StoreBatch(start: int, end: int, evs: seq<Classified>)
      modifies this`queue
      ensures queue == WithBatch(old(queue), start, end, evs)
    {
      if evs != [] {
        var metrics := ComputeMetrics(start, end, evs);
        queue := queue + [metrics];
      }
    }

    /** The next window with its events: the batch is stored and the window passed. */
    method PassWindow(start: int, end: int, evs: seq<Classified>)
      requires Valid() && start == windowEnd && end == windowEnd + window <= clock
      requires IsFetch(raw, classified, start, end, evs)
      modifies this`queue, this`windowEnd, this`trace
      ensures Valid() && trace == old(trace) + [Aggregate(evs, Stored)]
      ensures queue == WithBatch(old(queue), start, end, evs) && windowEnd == end
    {
      ghost var before := Now();
      StoreBatch(start, end, evs);
      windowEnd := end;
      AttemptShows(origin, window, trace, before, evs, Stored, queue);
      trace := trace + [Aggregate(evs, Stored)];
      assert Now() == AfterAttempt(before, queue, Stored, window);
    }

    /** Computes and stores one window, or fails at the fetch or at the insert and changes nothing. */
    method AggregateWindow(start: int, end: int) returns (ok: bool, ghost a: Action)
      requires Valid() && start == windowEnd && end == windowEnd + window <= clock
      modifies this`queue, this`windowEnd, this`trace
      ensures Valid() && trace == old(trace) + [a]
      ensures a.Aggregate? && a.outcome == (if ok then Stored else Failed)
      ensures IsFetch(old(raw), old(classified), start, end, a.evs)
      ensures queue == if ok then WithBatch(old(queue), start, end, a.evs) else old(queue)
      ensures windowEnd == if ok then end else start
    {
      var evs := FetchClassifiedSince(start, end);
      var fetchFails: bool, insertFails: bool := *, *;
      ok := !fetchFails && (evs == [] || !insertFails);
      a := Aggregate(evs, if ok then Stored else Failed);
      if ok {
        PassWindow(start, end, evs);
      } else {
        FailureShows(origin, window, trace, Now(), evs);
        trace := trace + [a];
      }
    }

    /** What starting up computes from the clock. */
    method Boot(now: int)
      requires window > 0
      modifies this`windowEnd, this`prevApp, this`prevSince, this`clock
      ensures windowEnd == Truncate(now, window) && prevApp == "" && prevSince == now && clock == now
    {
      windowEnd := TruncateTo(now, window);
      prevApp, prevSince, clock := "", now, now;
    }

    /** The next window with its events: the batch is stored, and then the agent dies and is started again. */
    method PassAndDie(start: int, end: int, evs: seq<Classified>, restart: int)
      requires Valid() && start == windowEnd && end == windowEnd + window <= clock <= restart
      requires IsFetch(raw, classified, start, end, evs)
      modifies this`queue, this`windowEnd, this`prevApp, this`prevSince, this`clock, this`trace
      ensures Valid() && trace == old(trace) + [Aggregate(evs, StoredThenCrashed(restart))]
      ensures queue == WithBatch(old(queue), start, end, evs)
      ensures windowEnd == Truncate(restart, window) && clock == restart
    {
      ghost var before := Now();
      ghost var outcome := StoredThenCrashed(restart);
      StoreBatch(start, end, evs);
      ghost var after := AfterAttempt(before, queue, outcome, window);
      AttemptShows(origin, window, trace, before, evs, outcome, queue);
      Boot(restart);
      trace := trace + [Aggregate(evs, outcome)];
      assert Now() == after;
    }

    /** The same as `AggregateWindow`, but the agent dies once the batch is stored, and is started again. */
    method AggregateAndCrash(start: int, end: int, restart: int) returns (ghost a: Action)
      requires Valid() && start == windowEnd && end == windowEnd + window <= clock <= restart
      modifies this`queue, this`windowEnd, this`prevApp, this`prevSince, this`clock, this`trace
      ensures Valid() && trace == old(trace) + [a]
      ensures a.Aggregate? && a.outcome == StoredThenCrashed(restart)
      ensures IsFetch(old(raw), old(classified), start, end, a.evs)
      ensures queue == WithBatch(old(queue), start, end, a.evs)
      ensures windowEnd == Truncate(restart, window) && clock == restart
    {
      var evs := FetchClassifiedSince(start, end);
      a := Aggregate(evs, StoredThenCrashed(restart));
      PassAndDie(start, end, evs, restart);
    }

    /** One tick: aggregate every window that is over, in order, stopping at the first failure,
        whose window is the next one tried. */
    method Tick(now: int) returns (completed: bool, ghost actions: seq<Action>)
      requires Valid() && clock <= now
      modifies this`queue, this`windowEnd, this`clock, this`trace
      ensures Valid() && trace == old(trace) + [Pass(now)] + actions && clock == now
      ensures forall i | 0 <= i < |actions| ::
                actions[i].Aggregate?
                  && actions[i].outcome == (if completed || i < |actions| - 1 then Stored else Failed)
      ensures windowEnd == old(windowEnd) + window * (if completed then |actions| else |actions| - 1)
      ensures if completed then now < windowEnd + window else actions != [] && windowEnd + window <= now
    {
      PassShows(origin, window, trace, Now(), now);
      trace, clock := trace + [Pass(now)], now;
      actions := [];
      while windowEnd + window <= now
        invariant Valid() && clock == now && trace == old(trace) + [Pass(now)] + actions
        invariant forall i | 0 <= i < |actions| :: actions[i].Aggregate? && actions[i].outcome == Stored
        invariant windowEnd == old(windowEnd) + window * |actions|
        decreases now - windowEnd
      {
        var ok, a := AggregateWindow(windowEnd, windowEnd + window);
        assert window * (|actions| + 1) == window * |actions| + window;
        actions := actions + [a];
        if !ok {
          return false, actions;
        }
      }
      completed := true;
    }

    /** The restart after any stop: the next boundary is recomputed from the clock, never falling back. */
    method StartAgain(now: int)
      requires Valid() && clock <= now
      modifies this`windowEnd, this`prevApp, this`prevSince, this`clock, this`trace
      ensures Valid() && trace == old(trace) + [Restart(now)] && clock == now
      ensures old(windowEnd) <= windowEnd == Truncate(now, window)
    {
      RestartShows(origin, window, trace, Now(), now);
      NeverFallsBack(origin, window, trace, Now(), now);
      Boot(now);
      trace := trace + [Restart(now)];
    }

    method CleanUpOld(now: int, age: int)
      requires Valid() && clock <= now
      modifies this`raw, this`classified, this`clock, this`trace
      ensures Valid() && trace == old(trace) + [CleanUp(now, now - age)] && clock == now
      ensures forall id :: id in raw <==> id in old(raw) && old(raw)[id].timestamp >= now - age
      ensures forall id :: id in classified <==> id in old(classified) && id in raw
      ensures (forall id | id in raw :: raw[id] == old(raw)[id])
              && forall id | id in classified :: classified[id] == old(classified)[id]
    {
      CleanUpShows(origin, window, trace, Now(), now, now - age);
      var cutoff := now - age;
      var kept := map id | id in raw && raw[id].timestamp >= cutoff :: raw[id];
      classified := map id | id in classified && id in raw && raw[id].timestamp >= cutoff :: classified[id];
      raw := kept;
      trace, clock := trace + [CleanUp(now, cutoff)], now;
    }
  }
}
