/** The desktop agent from collector to batch queue: polls, other collectors, the classifier, the
    aggregator with its failures, crashes and restarts, and clean-up, in any order.
    Time is in milliseconds, does not go backward, and counts from a multiple of the window. */
module DesktopAgent {
  import opened Options
  import opened DesktopMetrics
  import opened WindowCollector

  /** One successfully processed window: its start and the events fetched for it. */
  datatype Record = Record(start: int, evs: seq<Classified>)

  /** `raw` and `classified` are the tables; `born` remembers every event ever inserted, at its id, and `spans` the
      focus interval behind it, if it is a switch. `history` remembers every processed window, those of the
      current run from index `runFrom` on. */
  datatype World = World(
    clock: int,
    raw: map<nat, Raw>,
    born: seq<Raw>,
    spans: seq<Option<Span>>,
    classified: map<nat, Mark>,
    queue: seq<Metrics>,
    windowEnd: int,
    collector: Collector,
    firstSeen: Option<int>,
    lastSwitch: int,
    history: seq<Record>,
    runStart: int,
    runFrom: nat)

  datatype Outcome = Failed | Stored | StoredThenCrashed(restart: int)

  datatype Action =
    | Look(poll: Poll, stamp: int)
    | Report(stamp: int, data: Data)
    | Classify(id: nat, mark: Mark)
    | Aggregate(evs: seq<Classified>, outcome: Outcome)
    | Pass(now: int)
    | Restart(now: int)
    | CleanUp(now: int, cutoff: int)

  /** The `k`th window boundary. */
  function Boundary(k: int, window: int): int
    decreases if k < 0 then -k else k
  {
    if k == 0 then 0 else if k > 0 then Boundary(k - 1, window) + window else Boundary(k + 1, window) - window
  }

  ghost predicate Aligned(b: int, window: int) {
    exists k: int :: b == Boundary(k, window)
  }

  lemma {:induction false} BoundaryIsProduct(k: int, window: int)
    ensures Boundary(k, window) == k * window
    decreases if k < 0 then -k else k
  {
    if k > 0 {
      BoundaryIsProduct(k - 1, window);
      assert (k - 1) * window + window == k * window;
    } else if k < 0 {
      BoundaryIsProduct(k + 1, window);
      assert (k + 1) * window - window == k * window;
    }
  }

  lemma TruncateExists(t: int, window: int)
    requires window > 0
    ensures var b := t / window * window; Aligned(b, window) && b <= t < b + window
  {
    BoundaryIsProduct(t / window, window);
  }

  /** `Truncate`: the last window boundary at or before `t`. */
  ghost function Truncate(t: int, window: int): (b: int)
    requires window > 0
    ensures Aligned(b, window) && b <= t < b + window
  {
    TruncateExists(t, window);
    var b: int :| Aligned(b, window) && b <= t < b + window;
    b
  }

  lemma {:induction false} BoundariesGrow(k: int, q: int, window: int)
    requires window > 0 && k <= q
    ensures Boundary(k, window) <= Boundary(q, window)
    ensures k < q ==> Boundary(k, window) + window <= Boundary(q, window)
    decreases q - k
  {
    if k < q {
      BoundariesGrow(k, q - 1, window);
      assert Boundary(q, window) == Boundary(q - 1, window) + window;
    }
  }

  /** Two boundaries are the same or at least a window apart. */
  lemma BoundariesApart(a: int, b: int, window: int)
    requires window > 0 && Aligned(a, window) && Aligned(b, window) && a < b
    ensures a + window <= b
  {
    var k: int :| a == Boundary(k, window);
    var q: int :| b == Boundary(q, window);
    if q <= k {
      BoundariesGrow(q, k, window);
    } else {
      BoundariesGrow(k, q, window);
    }
  }

  /** What the code computes. */
  function TruncateTo(t: int, window: int): (b: int)
    requires window > 0
    ensures b == Truncate(t, window)
  {
    TruncateExists(t, window);
    TruncateUnique(t / window * window, t, window);
    t / window * window
  }

  lemma TruncateUnique(b: int, t: int, window: int)
    requires window > 0 && Aligned(b, window) && b <= t < b + window
    ensures b == Truncate(t, window)
  {
    if b < Truncate(t, window) {
      BoundariesApart(b, Truncate(t, window), window);
    } else if Truncate(t, window) < b {
      BoundariesApart(Truncate(t, window), b, window);
    }
  }

  lemma NextBoundary(b: int, window: int)
    requires Aligned(b, window)
    ensures Aligned(b + window, window)
  {
    var k: int :| b == Boundary(k, window);
    assert b + window == Boundary(k + 1, window);
  }

  /** Truncation never falls back behind a boundary already reached. */
  lemma TruncateKeepsBoundary(b: int, t: int, window: int)
    requires window > 0 && Aligned(b, window) && b <= t
    ensures b <= Truncate(t, window)
  {
    if Truncate(t, window) < b {
      BoundariesApart(Truncate(t, window), b, window);
    }
  }

  /** What the window query may return: the classified events of [start, end) in time order. */
  predicate IsFetch(raw: map<nat, Raw>, classified: map<nat, Mark>, start: int, end: int, evs: seq<Classified>) {
    && InWindow(evs, start, end)
    && (forall i | 0 <= i < |evs| ::
          evs[i].id in raw && evs[i].id in classified
          && evs[i].event == raw[evs[i].id] && evs[i].mark == classified[evs[i].id])
    && (forall i, j | 0 <= i < j < |evs| :: evs[i].id != evs[j].id)
    && (forall id {:trigger Has(evs, id)} | id in raw && id in classified && start <= raw[id].timestamp < end ::
          Has(evs, id))
  }

  predicate Has(evs: seq<Classified>, id: nat) {
    exists i :: 0 <= i < |evs| && evs[i].id == id
  }

  function Ready(w: World, window: int): bool {
    w.windowEnd + window <= w.clock
  }

  function Insert(w: World, e: Raw, span: Option<Span>): World {
    w.(raw := w.raw[|w.born| := e], born := w.born + [e], spans := w.spans + [span])
  }

  /** What the collector remembers after a poll; `lastSwitch` starts out as the first observation. */
  function Seen(w: World, poll: Poll, stamp: int): World {
    var (c, span) := Observe(w.collector, poll);
    w.(clock := stamp,
       collector := c,
       firstSeen := if w.firstSeen.None? && c.prevApp != "" then Some(poll.now) else w.firstSeen,
       lastSwitch := if span.Some? then span.value.until else if w.firstSeen.None? then poll.now else w.lastSwitch)
  }

  function LookAt(w: World, poll: Poll, stamp: int): World {
    if poll.now < w.clock || stamp < poll.now then w
    else
      var span := Observe(w.collector, poll).1;
      if span.Some? && poll.delivered then Insert(Seen(w, poll, stamp), SwitchEvent(span.value, stamp), span)
      else Seen(w, poll, stamp)
  }

  ghost function Begin(w: World, now: int, window: int): World
    requires window > 0
  {
    w.(clock := now, windowEnd := Truncate(now, window), runStart := Truncate(now, window), runFrom := |w.history|,
       collector := Collector("", now))
  }

  /** Actions that do not fit the state, or go back in time, do nothing. */
  ghost function Step(w: World, a: Action, window: int): World
    requires window > 0
  {
    match a
    case Look(poll, stamp) => LookAt(w, poll, stamp)
    case Report(stamp, data) =>
      if stamp < w.clock || data.AppSwitched? then w else Insert(w.(clock := stamp), Raw(stamp, data), None)
    case Classify(id, mark) =>
      if id in w.raw then w.(classified := w.classified[id := mark]) else w
    case Aggregate(evs, outcome) => AggregateAt(w, evs, outcome, window)
    case Pass(now) => if now < w.clock then w else w.(clock := now)
    case Restart(now) => if now < w.clock then w else Begin(w, now, window)
    case CleanUp(now, cutoff) =>
      if now < w.clock then w
      else
        w.(clock := now,
           raw := map id | id in w.raw && w.raw[id].timestamp >= cutoff :: w.raw[id],
           classified := map id | id in w.classified && id in w.raw && w.raw[id].timestamp >= cutoff ::
                           w.classified[id])
  }

  /** The next window is over, and these are its events. */
  predicate Due(w: World, evs: seq<Classified>, window: int) {
    Ready(w, window) && IsFetch(w.raw, w.classified, w.windowEnd, w.windowEnd + window, evs)
  }

  /** The next window, if it is over. A failure leaves everything for the next attempt; a crash after
      the batch is stored is followed by a restart. */
  ghost function AggregateAt(w: World, evs: seq<Classified>, outcome: Outcome, window: int): World
    requires window > 0
  {
    if !Due(w, evs, window) then w
    else
      match outcome
      case Failed => w
      case Stored => Stow(w, evs, window)
      case StoredThenCrashed(restart) =>
        if restart < w.clock then w else Begin(Stow(w, evs, window), restart, window)
  }

  /** An empty window is passed over without a batch. */
  function Stow(w: World, evs: seq<Classified>, window: int): World {
    var start, end := w.windowEnd, w.windowEnd + window;
    w.(queue := if evs == [] then w.queue else w.queue + [MetricsOf(start, end, evs)],
       windowEnd := end,
       history := w.history + [Record(start, evs)])
  }

  ghost function Run(w: World, actions: seq<Action>, window: int): World
    requires window > 0
    decreases |actions|
  {
    if actions == [] then w else Run(Step(w, actions[0], window), actions[1..], window)
  }

  ghost function Fresh(now: int, window: int): World
    requires window > 0
  {
    World(now, map[], [], [], map[], [], Truncate(now, window), Collector("", now), None, now, [],
          Truncate(now, window), 0)
  }

  // ----- what has been counted -----

  function Ids(evs: seq<Classified>): (ids: seq<nat>)
    ensures |ids| == |evs|
    ensures forall i | 0 <= i < |evs| :: ids[i] == evs[i].id
  {
    if evs == [] then [] else Ids(evs[..|evs| - 1]) + [evs[|evs| - 1].id]
  }

  /** The ids of all events in all processed windows, one entry per counting. */
  function Counted(history: seq<Record>): seq<nat> {
    if history == [] then [] else Counted(history[..|history| - 1]) + Ids(history[|history| - 1].evs)
  }

  predicate Distinct(ids: seq<nat>) {
    forall i, j | 0 <= i < j < |ids| :: ids[i] != ids[j]
  }

  /** Minutes of focus in all batches ever queued. */
  function QueuedMinutes(queue: seq<Metrics>): real {
    if queue == [] then 0.0 else QueuedMinutes(queue[..|queue| - 1]) + queue[|queue| - 1].totalFocusMinutes
  }

  /** Focus milliseconds of events chosen by id. */
  function FocusOf(born: seq<Raw>, ids: seq<nat>): nat
    requires forall i | 0 <= i < |ids| :: ids[i] < |born|
  {
    if ids == [] then 0 else FocusOf(born, ids[..|ids| - 1]) + FocusMs(born[ids[|ids| - 1]])
  }

  /** Milliseconds of the focus intervals behind these events. */
  function SpanMs(spans: seq<Option<Span>>, ids: seq<nat>): int
    requires forall i | 0 <= i < |ids| :: ids[i] < |spans|
  {
    if ids == [] then 0
    else
      var span := spans[ids[|ids| - 1]];
      SpanMs(spans, ids[..|ids| - 1]) + (if span.Some? then span.value.until - span.value.since else 0)
  }

  /** Focus milliseconds of everything ever inserted. */
  function FocusBorn(born: seq<Raw>): nat {
    if born == [] then 0 else FocusBorn(born[..|born| - 1]) + FocusMs(born[|born| - 1])
  }

  // ----- the invariant -----

  /** A switch event reports the interval behind it, which was delivered and did not end before it began. */
  predicate Backed(e: Raw, span: Option<Span>) {
    if span.None? then !e.data.AppSwitched?
    else
      && span.value.delivered && span.value.since <= span.value.until
      && e.data == AppSwitched(span.value.toApp, span.value.until - span.value.since)
  }

  /** The tables hold events that were inserted, unchanged. */
  predicate Tables(w: World) {
    && |w.spans| == |w.born| && (forall i | 0 <= i < |w.born| :: Backed(w.born[i], w.spans[i]))
    && (forall id | id in w.raw :: id < |w.born| && w.raw[id] == w.born[id])
    && (forall id | id in w.classified :: id in w.raw)
  }

  /** The windows from index `from` on follow one another without gap. */
  predicate Consecutive(history: seq<Record>, from: nat, window: int) {
    forall i | from <= i < |history| - 1 :: history[i + 1].start == history[i].start + window
  }

  ghost predicate Past(history: seq<Record>, until: int, window: int) {
    forall i | 0 <= i < |history| :: Aligned(history[i].start, window) && history[i].start + window <= until
  }

  /** Boundaries are aligned and in the past; the windows of this run follow one another without gap. */
  ghost predicate Windows(w: World, window: int)
    requires window > 0
  {
    && Aligned(w.windowEnd, window) && w.windowEnd <= w.clock
    && w.runFrom <= |w.history|
    && (if w.runFrom == |w.history| then w.windowEnd == w.runStart
        else w.history[w.runFrom].start == w.runStart && w.windowEnd == w.history[|w.history| - 1].start + window)
    && Consecutive(w.history, w.runFrom, window)
    && Past(w.history, w.windowEnd, window)
  }

  /** Each processed window begins no earlier than the one before ended. */
  predicate Ordered(history: seq<Record>, window: int) {
    history == [] ||
    var n := |history| - 1;
    Ordered(history[..n], window) && (n > 0 ==> history[n - 1].start + window <= history[n].start)
  }

  /** Inserted events with a timestamp in [from, until). */
  predicate Within(born: seq<Raw>, ids: seq<nat>, from: int, until: int) {
    forall i | 0 <= i < |ids| :: ids[i] < |born| && from <= born[ids[i]].timestamp < until
  }

  predicate Before(born: seq<Raw>, ids: seq<nat>, until: int) {
    forall i | 0 <= i < |ids| :: ids[i] < |born| && born[ids[i]].timestamp < until
  }

  /** Nothing is counted twice, and whatever is counted lies before the next window. */
  predicate Once(w: World) {
    Distinct(Counted(w.history)) && Before(w.born, Counted(w.history), w.windowEnd)
  }

  /** The queue holds the focus of what has been counted. */
  predicate Queued(w: World)
    requires Once(w)
  {
    QueuedMinutes(w.queue) * 60000.0 == FocusOf(w.born, Counted(w.history)) as real
  }

  /** The collector has reported no more focus than has passed since its first observation. */
  predicate Paced(reported: int, c: Collector, firstSeen: Option<int>, lastSwitch: int, clock: int) {
    && (if firstSeen.None? then reported == 0 && c.prevApp == "" else reported <= lastSwitch - firstSeen.value)
    && lastSwitch <= clock
    && (c.prevApp != "" ==> firstSeen.Some? && lastSwitch <= c.prevSince <= clock)
  }

  predicate Pace(w: World) {
    Paced(FocusBorn(w.born), w.collector, w.firstSeen, w.lastSwitch, w.clock)
  }

  ghost predicate Inv(w: World, window: int)
    requires window > 0
  {
    Tables(w) && Windows(w, window) && Ordered(w.history, window) && Once(w) && Queued(w) && Pace(w)
  }

  // ----- sums -----

  lemma {:induction false} FocusOfGrows(born: seq<Raw>, e: Raw, ids: seq<nat>)
    requires forall i | 0 <= i < |ids| :: ids[i] < |born|
    ensures FocusOf(born + [e], ids) == FocusOf(born, ids)
    decreases |ids|
  {
    if ids != [] {
      FocusOfGrows(born, e, ids[..|ids| - 1]);
    }
  }

  lemma FocusBornSnoc(born: seq<Raw>, e: Raw)
    ensures FocusBorn(born + [e]) == FocusBorn(born) + FocusMs(e)
  {
    assert (born + [e])[..|born|] == born;
  }

  lemma {:induction false} FocusOfConcat(born: seq<Raw>, a: seq<nat>, b: seq<nat>)
    requires (forall i | 0 <= i < |a| :: a[i] < |born|) && forall i | 0 <= i < |b| :: b[i] < |born|
    ensures FocusOf(born, a + b) == FocusOf(born, a) + FocusOf(born, b)
    decreases |b|
  {
    if b == [] {
      assert a + b == a;
    } else {
      var n := |b| - 1;
      FocusOfConcat(born, a, b[..n]);
      assert (a + b)[..|a| + n] == a + b[..n];
    }
  }

  lemma {:induction false} FocusOfFetched(born: seq<Raw>, evs: seq<Classified>)
    requires forall i | 0 <= i < |evs| :: evs[i].id < |born| && evs[i].event == born[evs[i].id]
    ensures FocusOf(born, Ids(evs)) == SumFocus(evs)
    decreases |evs|
  {
    if evs != [] {
      var n := |evs| - 1;
      FocusOfFetched(born, evs[..n]);
      assert Ids(evs)[..n] == Ids(evs[..n]);
    }
  }

  lemma FocusOfExtract(born: seq<Raw>, a: seq<nat>, x: nat, b: seq<nat>)
    requires (forall i | 0 <= i < |a| :: a[i] < |born|) && x < |born| && forall i | 0 <= i < |b| :: b[i] < |born|
    ensures FocusOf(born, a + [x] + b) == FocusOf(born, a + b) + FocusMs(born[x])
  {
    FocusOfConcat(born, a + [x], b);
    FocusOfConcat(born, a, b);
    assert (a + [x])[..|a|] == a;
  }

  /** Taking the highest id out of a list of distinct ids. */
  lemma TakeOut(ids: seq<nat>, i: nat, n: nat)
    requires i < |ids| && ids[i] == n && Distinct(ids) && forall j | 0 <= j < |ids| :: ids[j] <= n
    ensures var rest := ids[..i] + ids[i + 1..]; Distinct(rest) && forall j | 0 <= j < |rest| :: rest[j] < n
  {
  }

  /** Events chosen by distinct ids report no more focus than all events together. */
  lemma {:induction false} DistinctBound(born: seq<Raw>, ids: seq<nat>)
    requires Distinct(ids) && forall i | 0 <= i < |ids| :: ids[i] < |born|
    ensures FocusOf(born, ids) <= FocusBorn(born)
    decreases |born|
  {
    if born == [] {
      assert ids == [];
    } else {
      var n := |born| - 1;
      assert born == born[..n] + [born[n]];
      if i :| 0 <= i < |ids| && ids[i] == n {
        var rest := ids[..i] + ids[i + 1..];
        assert ids == ids[..i] + [n] + ids[i + 1..];
        TakeOut(ids, i, n);
        FocusOfExtract(born, ids[..i], n, ids[i + 1..]);
        DistinctBound(born[..n], rest);
        FocusOfGrows(born[..n], born[n], rest);
      } else {
        DistinctBound(born[..n], ids);
        FocusOfGrows(born[..n], born[n], ids);
      }
    }
  }

  lemma CountedSnoc(history: seq<Record>, r: Record)
    ensures Counted(history + [r]) == Counted(history) + Ids(r.evs)
  {
    assert (history + [r])[..|history|] == history;
  }

  lemma QueuedSnoc(queue: seq<Metrics>, m: Metrics)
    ensures QueuedMinutes(queue + [m]) == QueuedMinutes(queue) + m.totalFocusMinutes
  {
    assert (queue + [m])[..|queue|] == queue;
  }

  // ----- every action keeps the invariant -----

  /** Inserting an event touches neither the windows nor what has been counted. */
  lemma InsertKeeps(w: World, e: Raw, span: Option<Span>, window: int)
    requires window > 0 && Tables(w) && Windows(w, window) && Once(w) && Queued(w) && Backed(e, span)
    ensures var w' := Insert(w, e, span);
            && Tables(w') && Windows(w', window) && Once(w') && Queued(w')
            && FocusBorn(w'.born) == FocusBorn(w.born) + FocusMs(e)
  {
    InsertTables(w, e, span);
    InsertWindows(w, e, span, window);
    FocusOfGrows(w.born, e, Counted(w.history));
    FocusBornSnoc(w.born, e);
  }

  lemma InsertTables(w: World, e: Raw, span: Option<Span>)
    requires Tables(w) && Backed(e, span)
    ensures Tables(Insert(w, e, span))
  {
  }

  lemma InsertWindows(w: World, e: Raw, span: Option<Span>, window: int)
    requires window > 0 && Windows(w, window)
    ensures Windows(Insert(w, e, span), window)
  {
  }

  /** A delivered switch reports no more than the time since the last one. */
  lemma SeenPaced(w: World, poll: Poll, stamp: int)
    requires Pace(w) && w.clock <= poll.now <= stamp
    ensures var span, w1 := Observe(w.collector, poll).1, Seen(w, poll, stamp);
            && Paced(FocusBorn(w.born), w1.collector, w1.firstSeen, w1.lastSwitch, w1.clock)
            && (span.Some? ==>
                  && span.value.since <= span.value.until
                  && Paced(FocusBorn(w.born) + (span.value.until - span.value.since),
                           w1.collector, w1.firstSeen, w1.lastSwitch, w1.clock))
  {
  }

  lemma SeenKeeps(w: World, poll: Poll, stamp: int, window: int)
    requires window > 0 && Inv(w, window) && w.clock <= poll.now <= stamp
    ensures Inv(Seen(w, poll, stamp), window)
  {
    SeenPaced(w, poll, stamp);
  }

  /** An event whose focus the collector's pace allows. */
  lemma DeliverKeeps(w: World, e: Raw, span: Option<Span>, window: int)
    requires window > 0 && Inv(w, window) && Backed(e, span)
    requires Paced(FocusBorn(w.born) + FocusMs(e), w.collector, w.firstSeen, w.lastSwitch, w.clock)
    ensures Inv(Insert(w, e, span), window)
  {
    InsertKeeps(w, e, span, window);
  }

  function SwitchEvent(span: Span, stamp: int): Raw {
    Raw(stamp, AppSwitched(span.toApp, span.until - span.since))
  }

  lemma DeliveredKeeps(w: World, poll: Poll, stamp: int, window: int)
    requires window > 0 && Inv(w, window) && w.clock <= poll.now <= stamp && poll.delivered
    requires Observe(w.collector, poll).1.Some?
    ensures var span := Observe(w.collector, poll).1;
            Inv(Insert(Seen(w, poll, stamp), SwitchEvent(span.value, stamp), span), window)
  {
    var span := Observe(w.collector, poll).1;
    SeenKeeps(w, poll, stamp, window);
    SeenPaced(w, poll, stamp);
    DeliverKeeps(Seen(w, poll, stamp), SwitchEvent(span.value, stamp), span, window);
  }

  lemma LookKeeps(w: World, poll: Poll, stamp: int, window: int)
    requires window > 0 && Inv(w, window)
    ensures Inv(LookAt(w, poll, stamp), window)
  {
    if w.clock <= poll.now <= stamp {
      if Observe(w.collector, poll).1.Some? && poll.delivered {
        DeliveredKeeps(w, poll, stamp, window);
      } else {
        SeenKeeps(w, poll, stamp, window);
      }
    }
  }

  /** Only the two tables and the clock have changed. */
  predicate SameButTables(w: World, w': World) {
    w' == w.(clock := w'.clock, raw := w'.raw, classified := w'.classified) && w.clock <= w'.clock
  }

  lemma OnlyTablesKeep(w: World, w': World, window: int)
    requires window > 0 && Inv(w, window) && SameButTables(w, w') && Tables(w')
    ensures Inv(w', window)
  {
    assert Windows(w', window);
    assert Once(w') && Queued(w');
  }

  lemma ReportKeeps(w: World, stamp: int, data: Data, window: int)
    requires window > 0 && Inv(w, window)
    ensures Inv(Step(w, Report(stamp, data), window), window)
  {
    if stamp >= w.clock && !data.AppSwitched? {
      OnlyTablesKeep(w, w.(clock := stamp), window);
      DeliverKeeps(w.(clock := stamp), Raw(stamp, data), None, window);
    }
  }

  lemma BeginKeeps(w: World, now: int, window: int)
    requires window > 0 && Inv(w, window) && now >= w.clock
    ensures Inv(Begin(w, now, window), window)
  {
    TruncateKeepsBoundary(w.windowEnd, now, window);
  }

  /** Fetched events are inserted events of the window. */
  lemma Fetched(w: World, evs: seq<Classified>, window: int)
    requires Tables(w) && IsFetch(w.raw, w.classified, w.windowEnd, w.windowEnd + window, evs)
    ensures Distinct(Ids(evs)) && Within(w.born, Ids(evs), w.windowEnd, w.windowEnd + window)
    ensures forall i | 0 <= i < |evs| :: evs[i].id < |w.born| && evs[i].event == w.born[evs[i].id]
  {
    forall i | 0 <= i < |evs|
      ensures evs[i].id < |w.born| && evs[i].event == w.born[evs[i].id]
    {
      assert evs[i].event == w.raw[evs[i].id];
    }
  }

  /** Lists of distinct ids on either side of a point in time have nothing in common. */
  lemma DistinctConcat(born: seq<Raw>, a: seq<nat>, b: seq<nat>, at: int, until: int)
    requires Distinct(a) && Distinct(b) && Before(born, a, at) && Within(born, b, at, until) && at <= until
    ensures Distinct(a + b) && Before(born, a + b, until)
  {
  }

  lemma StowOnce(w: World, evs: seq<Classified>, window: int)
    requires window > 0 && Tables(w) && Once(w)
    requires IsFetch(w.raw, w.classified, w.windowEnd, w.windowEnd + window, evs)
    ensures Once(Stow(w, evs, window))
  {
    CountedSnoc(w.history, Record(w.windowEnd, evs));
    Fetched(w, evs, window);
    DistinctConcat(w.born, Counted(w.history), Ids(evs), w.windowEnd, w.windowEnd + window);
  }

  lemma StowedMinutes(w: World, evs: seq<Classified>, window: int)
    ensures QueuedMinutes(Stow(w, evs, window).queue) * 60000.0
         == QueuedMinutes(w.queue) * 60000.0 + SumFocus(evs) as real
  {
    var m := MetricsOf(w.windowEnd, w.windowEnd + window, evs);
    QueuedSnoc(w.queue, m);
    assert m.totalFocusMinutes * 60000.0 == SumFocus(evs) as real;
  }

  lemma StowedFocus(w: World, evs: seq<Classified>, window: int)
    requires Tables(w) && Before(w.born, Counted(w.history), w.windowEnd)
    requires IsFetch(w.raw, w.classified, w.windowEnd, w.windowEnd + window, evs)
    ensures var ids := Counted(Stow(w, evs, window).history);
            && (forall i | 0 <= i < |ids| :: ids[i] < |w.born|)
            && FocusOf(w.born, ids) == FocusOf(w.born, Counted(w.history)) + SumFocus(evs)
  {
    Fetched(w, evs, window);
    CountedSnoc(w.history, Record(w.windowEnd, evs));
    FocusOfConcat(w.born, Counted(w.history), Ids(evs));
    FocusOfFetched(w.born, evs);
  }

  lemma StowQueued(w: World, evs: seq<Classified>, window: int)
    requires window > 0 && Tables(w) && Once(w) && Queued(w)
    requires IsFetch(w.raw, w.classified, w.windowEnd, w.windowEnd + window, evs)
    requires Once(Stow(w, evs, window))
    ensures Queued(Stow(w, evs, window))
  {
    StowedMinutes(w, evs, window);
    StowedFocus(w, evs, window);
  }

  lemma ConsecutiveSnoc(history: seq<Record>, r: Record, from: nat, window: int)
    requires Consecutive(history, from, window)
    requires from < |history| ==> r.start == history[|history| - 1].start + window
    ensures Consecutive(history + [r], from, window)
  {
  }

  lemma PastSnoc(history: seq<Record>, r: Record, until: int, window: int)
    requires window > 0 && Past(history, until, window) && Aligned(r.start, window) && until <= r.start + window
    ensures Past(history + [r], r.start + window, window)
  {
  }

  lemma StowWindows(w: World, evs: seq<Classified>, window: int)
    requires window > 0 && Windows(w, window) && Ready(w, window)
    ensures Windows(Stow(w, evs, window), window)
  {
    NextBoundary(w.windowEnd, window);
    ConsecutiveSnoc(w.history, Record(w.windowEnd, evs), w.runFrom, window);
    PastSnoc(w.history, Record(w.windowEnd, evs), w.windowEnd, window);
  }

  lemma StowOrdered(w: World, evs: seq<Classified>, window: int)
    requires window > 0 && Windows(w, window) && Ordered(w.history, window)
    ensures Ordered(Stow(w, evs, window).history, window)
  {
    assert Stow(w, evs, window).history[..|w.history|] == w.history;
  }

  lemma StowKeeps(w: World, evs: seq<Classified>, window: int)
    requires window > 0 && Inv(w, window) && Due(w, evs, window)
    ensures Inv(Stow(w, evs, window), window)
  {
    StowWindows(w, evs, window);
    StowOrdered(w, evs, window);
    StowOnce(w, evs, window);
    StowQueued(w, evs, window);
  }

  lemma CrashKeeps(w: World, evs: seq<Classified>, restart: int, window: int)
    requires window > 0 && Inv(w, window) && Due(w, evs, window) && restart >= w.clock
    ensures Inv(Begin(Stow(w, evs, window), restart, window), window)
  {
    StowKeeps(w, evs, window);
    BeginKeeps(Stow(w, evs, window), restart, window);
  }

  lemma CrashBoundary(w: World, restart: int, window: int)
    requires window > 0 && Aligned(w.windowEnd, window) && Ready(w, window) && restart >= w.clock
    ensures w.windowEnd + window <= Truncate(restart, window)
  {
    NextBoundary(w.windowEnd, window);
    TruncateKeepsBoundary(w.windowEnd + window, restart, window);
  }

  /** The three things an attempt at the next window can come to. */
  lemma Attempt(w: World, evs: seq<Classified>, outcome: Outcome, window: int)
    requires window > 0
    ensures var w' := AggregateAt(w, evs, outcome, window);
            || w' == w
            || (Due(w, evs, window) && w' == Stow(w, evs, window))
            || (Due(w, evs, window) && outcome.StoredThenCrashed? && outcome.restart >= w.clock
                && w' == Begin(Stow(w, evs, window), outcome.restart, window))
  {
  }

  /** Equal worlds keep equal invariants. */
  lemma SameInv(w: World, w': World, window: int)
    requires window > 0 && Inv(w, window) && w' == w
    ensures Inv(w', window)
  {
  }

  lemma AggregateKeeps(w: World, evs: seq<Classified>, outcome: Outcome, window: int)
    requires window > 0 && Inv(w, window)
    ensures Inv(AggregateAt(w, evs, outcome, window), window)
  {
    var w' := AggregateAt(w, evs, outcome, window);
    Attempt(w, evs, outcome, window);
    if w' == w {
      SameInv(w, w', window);
    } else if w' == Stow(w, evs, window) {
      StowKeeps(w, evs, window);
      SameInv(Stow(w, evs, window), w', window);
    } else {
      CrashKeeps(w, evs, outcome.restart, window);
      SameInv(Begin(Stow(w, evs, window), outcome.restart, window), w', window);
    }
  }

  lemma RestartKeeps(w: World, now: int, window: int)
    requires window > 0 && Inv(w, window)
    ensures Inv(Step(w, Restart(now), window), window)
  {
    if now < w.clock {
      SameInv(w, Step(w, Restart(now), window), window);
    } else {
      BeginKeeps(w, now, window);
      SameInv(Begin(w, now, window), Step(w, Restart(now), window), window);
    }
  }

  lemma TablesKeep(w: World, a: Action, window: int)
    requires window > 0 && Tables(w) && (a.Classify? || a.CleanUp? || a.Pass?)
    ensures Tables(Step(w, a, window)) && SameButTables(w, Step(w, a, window))
  {
  }

  lemma StepKeepsInv(w: World, a: Action, window: int)
    requires window > 0 && Inv(w, window)
    ensures Inv(Step(w, a, window), window)
  {
    match a
    case Look(poll, stamp) => LookKeeps(w, poll, stamp, window);
    case Report(stamp, data) => ReportKeeps(w, stamp, data, window);
    case Aggregate(evs, outcome) => AggregateKeeps(w, evs, outcome, window);
    case Restart(now) => RestartKeeps(w, now, window);
    case _ =>
      TablesKeep(w, a, window);
      OnlyTablesKeep(w, Step(w, a, window), window);
  }

  lemma {:induction false} RunKeepsInv(w: World, actions: seq<Action>, window: int)
    requires window > 0 && Inv(w, window)
    ensures Inv(Run(w, actions, window), window)
    decreases |actions|
  {
    if actions != [] {
      StepKeepsInv(w, actions[0], window);
      RunKeepsInv(Step(w, actions[0], window), actions[1..], window);
    }
  }

  lemma FreshInv(now: int, window: int)
    requires window > 0
    ensures Inv(Fresh(now, window), window)
  {
  }

  lemma {:induction false} RunMore(w: World, actions: seq<Action>, a: Action, window: int)
    requires window > 0
    ensures Run(w, actions + [a], window) == Step(Run(w, actions, window), a, window)
    decreases |actions|
  {
    if actions == [] {
      assert ([] + [a])[1..] == [];
    } else {
      RunMore(Step(w, actions[0], window), actions[1..], a, window);
      assert (actions + [a])[1..] == actions[1..] + [a];
    }
  }

  // ----- the theorems -----

  lemma {:induction false} OrderedPairs(history: seq<Record>, window: int, i: nat, j: nat)
    requires window > 0 && Ordered(history, window) && i < j < |history|
    ensures history[i].start + window <= history[j].start
    decreases |history|
  {
    var n := |history| - 1;
    if j < n {
      OrderedPairs(history[..n], window, i, j);
    } else if i < n - 1 {
      OrderedPairs(history[..n], window, i, n - 1);
    }
  }

  /** Through any failures, crashes, restarts and clean-ups the processed windows are disjoint and in
      order, and no event is counted in two of them, nor twice in one. */
  lemma AtMostOnce(now: int, actions: seq<Action>, window: int)
    requires window > 0
    ensures var w := Run(Fresh(now, window), actions, window);
            && (forall i, j | 0 <= i < j < |w.history| :: w.history[i].start + window <= w.history[j].start)
            && Distinct(Counted(w.history))
  {
    FreshInv(now, window);
    RunKeepsInv(Fresh(now, window), actions, window);
    var w := Run(Fresh(now, window), actions, window);
    forall i, j | 0 <= i < j < |w.history|
      ensures w.history[i].start + window <= w.history[j].start
    {
      OrderedPairs(w.history, window, i, j);
    }
  }

  /** The batches of the processed windows: one for each window that had events, in order. */
  function Batches(history: seq<Record>, window: int): seq<Metrics> {
    if history == [] then []
    else
      var r := history[|history| - 1];
      Batches(history[..|history| - 1], window)
      + (if r.evs == [] then [] else [MetricsOf(r.start, r.start + window, r.evs)])
  }

  predicate Kept(w: World, window: int) {
    w.queue == Batches(w.history, window)
  }

  lemma StowKeepsBatches(w: World, evs: seq<Classified>, window: int)
    requires Kept(w, window)
    ensures Kept(Stow(w, evs, window), window)
  {
    assert Stow(w, evs, window).history[..|w.history|] == w.history;
    assert w.queue + [] == w.queue;
  }

  lemma StepKeepsBatches(w: World, a: Action, window: int)
    requires window > 0 && Kept(w, window)
    ensures Kept(Step(w, a, window), window)
  {
    if a.Aggregate? {
      StowKeepsBatches(w, a.evs, window);
      Attempt(w, a.evs, a.outcome, window);
    } else {
      assert Step(w, a, window).history == w.history && Step(w, a, window).queue == w.queue;
    }
  }

  lemma {:induction false} RunKeepsBatches(w: World, actions: seq<Action>, window: int)
    requires window > 0 && Kept(w, window)
    ensures Kept(Run(w, actions, window), window)
    decreases |actions|
  {
    if actions != [] {
      StepKeepsBatches(w, actions[0], window);
      RunKeepsBatches(Step(w, actions[0], window), actions[1..], window);
    }
  }

  /** The queue holds the metrics of the processed windows that had events, each once and in order,
      so what holds of the windows and of the events counted in them holds of the batches. */
  lemma QueueIsHistory(now: int, actions: seq<Action>, window: int)
    requires window > 0
    ensures var w := Run(Fresh(now, window), actions, window); w.queue == Batches(w.history, window)
  {
    RunKeepsBatches(Fresh(now, window), actions, window);
  }

  /** Within a run every moment from its start to the current boundary lies in exactly one processed window. */
  lemma Covered(w: World, window: int, t: int)
    requires window > 0 && Inv(w, window) && w.runStart <= t < w.windowEnd
    ensures exists i :: && w.runFrom <= i < |w.history| && w.history[i].start <= t < w.history[i].start + window
                        && forall j | 0 <= j < |w.history| && w.history[j].start <= t < w.history[j].start + window ::
                           j == i
  {
    var i := |w.history| - 1;
    while w.history[i].start > t
      invariant w.runFrom <= i < |w.history| && t < w.history[i].start + window
    {
      assert i == w.runFrom || w.history[i - 1 + 1].start == w.history[i - 1].start + window;
      i := i - 1;
    }
    forall j | 0 <= j < |w.history| && w.history[j].start <= t < w.history[j].start + window
      ensures j == i
    {
      if j < i {
        OrderedPairs(w.history, window, j, i);
      } else if i < j {
        OrderedPairs(w.history, window, i, j);
      }
    }
  }

  /** Of the events before the boundary, the same ones stay counted; nothing inserted is forgotten. */
  predicate Settled(w: World, w': World) {
    && w.born <= w'.born && w.windowEnd <= w'.windowEnd
    && forall id: nat | id < |w.born| && w.born[id].timestamp < w.windowEnd ::
         id in Counted(w'.history) <==> id in Counted(w.history)
  }

  lemma StowSettles(w: World, evs: seq<Classified>, window: int)
    requires window > 0 && Tables(w)
    requires IsFetch(w.raw, w.classified, w.windowEnd, w.windowEnd + window, evs)
    ensures Settled(w, Stow(w, evs, window))
  {
    CountedSnoc(w.history, Record(w.windowEnd, evs));
    Fetched(w, evs, window);
  }

  lemma SettledOn(w: World, w1: World, w2: World)
    requires Settled(w, w1) && w2.born == w1.born && w2.history == w1.history && w1.windowEnd <= w2.windowEnd
    ensures Settled(w, w2)
  {
  }

  lemma AggregateSettles(w: World, evs: seq<Classified>, outcome: Outcome, window: int)
    requires window > 0 && Tables(w) && Aligned(w.windowEnd, window)
    ensures Settled(w, AggregateAt(w, evs, outcome, window))
  {
    var w' := AggregateAt(w, evs, outcome, window);
    Attempt(w, evs, outcome, window);
    if w' == w {
      return;
    }
    StowSettles(w, evs, window);
    if w' == Stow(w, evs, window) {
      return;
    }
    CrashBoundary(w, outcome.restart, window);
    SettledOn(w, Stow(w, evs, window), w');
  }

  lemma StepSettles(w: World, a: Action, window: int)
    requires window > 0 && Tables(w) && Aligned(w.windowEnd, window) && w.windowEnd <= w.clock
    ensures Settled(w, Step(w, a, window))
  {
    match a
    case Aggregate(evs, outcome) => AggregateSettles(w, evs, outcome, window);
    case Restart(now) =>
      if now >= w.clock {
        TruncateKeepsBoundary(w.windowEnd, now, window);
      }
    case _ =>
      assert Step(w, a, window).history == w.history && Step(w, a, window).windowEnd == w.windowEnd;
  }

  /** Once its window has been passed, whether an event has been counted never changes again. */
  lemma {:induction false} SettledForGood(w: World, actions: seq<Action>, window: int, id: nat)
    requires window > 0 && Inv(w, window) && id < |w.born| && w.born[id].timestamp < w.windowEnd
    ensures id in Counted(Run(w, actions, window).history) <==> id in Counted(w.history)
    decreases |actions|
  {
    if actions != [] {
      StepKeepsInv(w, actions[0], window);
      StepSettles(w, actions[0], window);
      SettledForGood(Step(w, actions[0], window), actions[1..], window, id);
    }
  }

  /** Whenever a window is processed, an inserted event of that window is counted, now and for ever after
      and exactly once, if and only if it is then stored and classified. */
  lemma CountedIffClassifiedInTime(w: World, evs: seq<Classified>, outcome: Outcome, later: seq<Action>, window: int,
                                   id: nat)
    requires window > 0 && Inv(w, window) && Ready(w, window)
    requires IsFetch(w.raw, w.classified, w.windowEnd, w.windowEnd + window, evs)
    requires outcome.Stored? || (outcome.StoredThenCrashed? && outcome.restart >= w.clock)
    requires id < |w.born| && w.windowEnd <= w.born[id].timestamp < w.windowEnd + window
    ensures var h := Run(AggregateAt(w, evs, outcome, window), later, window).history;
            && (id in Counted(h) <==> id in w.raw && id in w.classified)
            && Distinct(Counted(h))
  {
    var w' := AggregateAt(w, evs, outcome, window);
    AggregateKeeps(w, evs, outcome, window);
    StoredRecord(w, evs, outcome, window);
    FetchedIffClassified(w, evs, window, id);
    SettledForGood(w', later, window, id);
    RunKeepsInv(w', later, window);
  }

  /** A stored window is passed, with or without a crash, and its events are counted. */
  lemma StoredRecord(w: World, evs: seq<Classified>, outcome: Outcome, window: int)
    requires window > 0 && Aligned(w.windowEnd, window) && Due(w, evs, window)
    requires outcome.Stored? || (outcome.StoredThenCrashed? && outcome.restart >= w.clock)
    ensures var w' := AggregateAt(w, evs, outcome, window);
            && Counted(w'.history) == Counted(w.history) + Ids(evs)
            && w'.born == w.born && w.windowEnd + window <= w'.windowEnd
  {
    CountedSnoc(w.history, Record(w.windowEnd, evs));
    if outcome.Stored? {
      return;
    }
    CrashBoundary(w, outcome.restart, window);
  }

  lemma FetchedIffClassified(w: World, evs: seq<Classified>, window: int, id: nat)
    requires Tables(w) && Once(w) && IsFetch(w.raw, w.classified, w.windowEnd, w.windowEnd + window, evs)
    requires id < |w.born| && w.windowEnd <= w.born[id].timestamp < w.windowEnd + window
    ensures id in Counted(w.history) + Ids(evs) <==> id in w.raw && id in w.classified
  {
    assert id !in Counted(w.history);
    if id in w.raw && id in w.classified {
      assert w.raw[id] == w.born[id] && Has(evs, id);
      var i :| 0 <= i < |evs| && evs[i].id == id;
      assert Ids(evs)[i] == id;
    }
    if id in Ids(evs) {
      var i :| 0 <= i < |Ids(evs)| && Ids(evs)[i] == id;
      assert evs[i].id == id;
    }
  }

  /** The focus minutes of all batches ever queued never exceed the time from the first observed app
      to the last switch. */
  lemma FocusConserved(now: int, actions: seq<Action>, window: int)
    requires window > 0
    ensures var w := Run(Fresh(now, window), actions, window);
            QueuedMinutes(w.queue) * 60000.0
              <= (if w.firstSeen.None? then 0 else w.lastSwitch - w.firstSeen.value) as real
  {
    FreshInv(now, window);
    RunKeepsInv(Fresh(now, window), actions, window);
    var w := Run(Fresh(now, window), actions, window);
    DistinctBound(w.born, Counted(w.history));
  }

  // ----- all of the focus -----

  /** A switch event reports the length of the interval that it closes. */
  lemma SwitchReportsSpan(span: Span, stamp: int)
    requires span.since <= span.until
    ensures FocusMs(SwitchEvent(span, stamp)) == span.until - span.since
  {
  }

  /** A restart forgets the app in focus: the first look after it reports nothing, so no interval spans a restart. */
  lemma RestartForgets(w: World, now: int, poll: Poll, stamp: int, window: int)
    requires window > 0
    ensures var w1 := Begin(w, now, window);
            LookAt(w1, poll, stamp).born == w.born && (w1.collector.prevApp == "" && w1.collector.prevSince == now)
  {
  }

  lemma {:induction false} FocusOfSpans(w: World, ids: seq<nat>)
    requires Tables(w) && forall i | 0 <= i < |ids| :: ids[i] < |w.born|
    ensures FocusOf(w.born, ids) == SpanMs(w.spans, ids)
    decreases |ids|
  {
    if ids != [] {
      FocusOfSpans(w, ids[..|ids| - 1]);
      assert Backed(w.born[ids[|ids| - 1]], w.spans[ids[|ids| - 1]]);
    }
  }

  /** The focus minutes of all batches ever queued are, to the millisecond, those of the focus intervals whose switch
      events have been counted. */
  lemma FocusExact(now: int, actions: seq<Action>, window: int)
    requires window > 0
    ensures var w := Run(Fresh(now, window), actions, window);
            && |w.spans| == |w.born| && (forall i | 0 <= i < |Counted(w.history)| :: Counted(w.history)[i] < |w.spans|)
            && QueuedMinutes(w.queue) * 60000.0 == SpanMs(w.spans, Counted(w.history)) as real
  {
    FreshInv(now, window);
    RunKeepsInv(Fresh(now, window), actions, window);
    var w := Run(Fresh(now, window), actions, window);
    FocusOfSpans(w, Counted(w.history));
  }

  /** The agent never stops and its sink never loses a switch. */
  predicate Undisturbed(a: Action) {
    && !a.Restart? && !(a.Aggregate? && a.outcome.StoredThenCrashed?)
    && (a.Look? ==> a.poll.delivered)
  }

  /** Everything from the first observation to the last switch has been reported. */
  predicate Complete(w: World) {
    if w.firstSeen.None? then FocusBorn(w.born) == 0 && w.collector.prevApp == ""
    else
      && FocusBorn(w.born) == w.lastSwitch - w.firstSeen.value
      && w.collector.prevApp != "" && w.collector.prevSince == w.lastSwitch
  }

  predicate Steady(w: World) {
    Complete(w) && w.collector.prevSince <= w.clock
  }

  lemma LookComplete(w: World, poll: Poll, stamp: int)
    requires Steady(w) && poll.delivered
    ensures Steady(LookAt(w, poll, stamp))
  {
    var span := Observe(w.collector, poll).1;
    if span.Some? {
      FocusBornSnoc(w.born, SwitchEvent(span.value, stamp));
    }
  }

  lemma StepComplete(w: World, a: Action, window: int)
    requires window > 0 && Steady(w) && Undisturbed(a)
    ensures Steady(Step(w, a, window))
  {
    match a
    case Look(poll, stamp) => LookComplete(w, poll, stamp);
    case Report(stamp, data) => ReportComplete(w, stamp, data, window);
    case Aggregate(evs, outcome) => AggregateComplete(w, evs, outcome, window);
    case _ => QuietSteps(w, a, window);
  }

  lemma ReportComplete(w: World, stamp: int, data: Data, window: int)
    requires window > 0 && Steady(w)
    ensures Steady(Step(w, Report(stamp, data), window))
  {
    FocusBornSnoc(w.born, Raw(stamp, data));
  }

  lemma QuietSteps(w: World, a: Action, window: int)
    requires window > 0 && (a.Classify? || a.CleanUp? || a.Pass?)
    ensures SameButTables(w, Step(w, a, window))
  {
  }

  lemma AggregateComplete(w: World, evs: seq<Classified>, outcome: Outcome, window: int)
    requires window > 0 && Steady(w) && !outcome.StoredThenCrashed?
    ensures Steady(AggregateAt(w, evs, outcome, window))
  {
  }

  lemma {:induction false} RunComplete(w: World, actions: seq<Action>, window: int)
    requires window > 0 && Steady(w) && forall i | 0 <= i < |actions| :: Undisturbed(actions[i])
    ensures Complete(Run(w, actions, window))
    decreases |actions|
  {
    if actions != [] {
      StepComplete(w, actions[0], window);
      RunComplete(Step(w, actions[0], window), actions[1..], window);
    }
  }

  predicate SwitchesAmong(born: seq<Raw>, ids: seq<nat>) {
    forall id: nat | id < |born| && born[id].data.AppSwitched? :: id in ids
  }

  lemma TakenOut(born: seq<Raw>, ids: seq<nat>, i: nat, n: nat)
    requires n < |born| && SwitchesAmong(born, ids) && i < |ids| && ids[i] == n
    ensures SwitchesAmong(born[..n], ids[..i] + ids[i + 1..])
  {
    var rest := ids[..i] + ids[i + 1..];
    forall id: nat | id < n && born[..n][id].data.AppSwitched?
      ensures id in rest
    {
      assert born[id].data.AppSwitched? && id in ids;
      var j :| 0 <= j < |ids| && ids[j] == id;
      assert rest[if j < i then j else j - 1] == id;
    }
  }

  /** Distinct ids among which are all switches report all focus. */
  lemma {:induction false} AllFocus(born: seq<Raw>, ids: seq<nat>)
    requires Distinct(ids) && (forall i | 0 <= i < |ids| :: ids[i] < |born|) && SwitchesAmong(born, ids)
    ensures FocusOf(born, ids) == FocusBorn(born)
    decreases |born|
  {
    if born == [] {
      assert ids == [];
      return;
    }
    var n := |born| - 1;
    assert born == born[..n] + [born[n]];
    if i :| 0 <= i < |ids| && ids[i] == n {
      var rest := ids[..i] + ids[i + 1..];
      assert ids == ids[..i] + [n] + ids[i + 1..];
      TakeOut(ids, i, n);
      TakenOut(born, ids, i, n);
      FocusOfExtract(born, ids[..i], n, ids[i + 1..]);
      AllFocus(born[..n], rest);
      FocusOfGrows(born[..n], born[n], rest);
    } else {
      assert n !in ids;
      AllFocus(born[..n], ids);
      FocusOfGrows(born[..n], born[n], ids);
    }
  }

  /** When the agent is never disturbed and every switch has been counted, the queued focus is exactly the time from the
      first observed app to the last switch. */
  lemma FocusComplete(now: int, actions: seq<Action>, window: int)
    requires window > 0 && forall i | 0 <= i < |actions| :: Undisturbed(actions[i])
    ensures var w := Run(Fresh(now, window), actions, window);
            (forall id: nat | id < |w.spans| && w.spans[id].Some? :: id in Counted(w.history)) ==>
              QueuedMinutes(w.queue) * 60000.0
              == (if w.firstSeen.None? then 0 else w.lastSwitch - w.firstSeen.value) as real
  {
    FreshInv(now, window);
    RunKeepsInv(Fresh(now, window), actions, window);
    RunComplete(Fresh(now, window), actions, window);
    var w := Run(Fresh(now, window), actions, window);
    if forall id: nat | id < |w.spans| && w.spans[id].Some? :: id in Counted(w.history) {
      forall id: nat | id < |w.born| && w.born[id].data.AppSwitched?
        ensures id in Counted(w.history)
      {
        assert Backed(w.born[id], w.spans[id]);
      }
      assert SwitchesAmong(w.born, Counted(w.history));
      AllFocus(w.born, Counted(w.history));
    }
  }
}
