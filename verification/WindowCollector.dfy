/** The polling loop that reports how long each app was in focus. */
module WindowCollector {
  import opened Options

  /** One poll: the app seen, or `None` when the lookup failed; and whether the sink took the event, if one is sent. */
  datatype Poll = Poll(app: Option<string>, now: int, delivered: bool)

  datatype Span = Span(fromApp: string, toApp: string, since: int, until: int, delivered: bool)

  /** `prevApp` is empty until an app has been observed. */
  datatype Collector = Collector(prevApp: string, prevSince: int)

  /** A switch is reported, or lost, but the interval it closes is over either way. */
  function Observe(c: Collector, p: Poll): (Collector, Option<Span>) {
    if p.app.None? || p.app.value == "" then (c, None)
    else if c.prevApp == "" then (Collector(p.app.value, p.now), None)
    else if p.app.value != c.prevApp then
      (Collector(p.app.value, p.now), Some(Span(c.prevApp, p.app.value, c.prevSince, p.now, p.delivered)))
    else (c, None)
  }

  function Final(c: Collector, polls: seq<Poll>): Collector {
    if polls == [] then c else Observe(Final(c, polls[..|polls| - 1]), polls[|polls| - 1]).0
  }

  /** All focus intervals of a run, closed by its switches. */
  function Spans(c: Collector, polls: seq<Poll>): seq<Span> {
    if polls == [] then []
    else
      var front := polls[..|polls| - 1];
      var span := Observe(Final(c, front), polls[|polls| - 1]).1;
      Spans(c, front) + (if span.Some? then [span.value] else [])
  }

  /** What the sink took: the focus milliseconds of the delivered intervals. */
  function Reported(spans: seq<Span>): int {
    if spans == [] then 0
    else
      var s := spans[|spans| - 1];
      Reported(spans[..|spans| - 1]) + (if s.delivered then s.until - s.since else 0)
  }

  predicate Monotone(polls: seq<Poll>, from: int) {
    && (forall i | 0 <= i < |polls| :: from <= polls[i].now)
    && (forall i, j | 0 <= i < j < |polls| :: polls[i].now <= polls[j].now)
  }

  /** The intervals follow one another without gap or overlap, each app's end being the next one's start. */
  predicate Telescoping(spans: seq<Span>) {
    spans == [] ||
    var n := |spans| - 1;
    && Telescoping(spans[..n])
    && spans[n].since <= spans[n].until && spans[n].fromApp != spans[n].toApp
    && (n > 0 ==> spans[n].since == spans[n - 1].until && spans[n].fromApp == spans[n - 1].toApp)
  }

  lemma TelescopeSnoc(spans: seq<Span>, s: Span)
    requires Telescoping(spans) && s.since <= s.until && s.fromApp != s.toApp
    requires spans != [] ==> s.since == spans[|spans| - 1].until && s.fromApp == spans[|spans| - 1].toApp
    ensures Telescoping(spans + [s])
  {
    assert (spans + [s])[..|spans|] == spans;
  }

  /** Where the collector stands after some intervals. */
  predicate StandsAt(c: Collector, spans: seq<Span>) {
    && (c.prevApp == "" ==> spans == [])
    && (spans != [] ==> c.prevSince == spans[|spans| - 1].until && c.prevApp == spans[|spans| - 1].toApp)
  }

  lemma ObserveTelescopes(c: Collector, p: Poll, spans: seq<Span>)
    requires Telescoping(spans) && StandsAt(c, spans) && c.prevSince <= p.now
    ensures var (c', span) := Observe(c, p);
            var more := spans + (if span.Some? then [span.value] else []);
            Telescoping(more) && StandsAt(c', more) && c.prevSince <= c'.prevSince <= p.now
  {
    var span := Observe(c, p).1;
    if span.Some? {
      TelescopeSnoc(spans, span.value);
    } else {
      assert spans + [] == spans;
    }
  }

  /** Over a whole run the intervals telescope from the first observed app to the last switch,
      and the current app has been in focus since the last switch. */
  lemma {:induction false} SpansTelescope(start: int, polls: seq<Poll>)
    requires Monotone(polls, start)
    ensures var c, spans := Final(Collector("", start), polls), Spans(Collector("", start), polls);
            && Telescoping(spans) && StandsAt(c, spans)
            && start <= c.prevSince && (polls != [] ==> c.prevSince <= polls[|polls| - 1].now)
  {
    if polls != [] {
      var c0, front := Collector("", start), polls[..|polls| - 1];
      SpansTelescope(start, front);
      ObserveTelescopes(Final(c0, front), polls[|polls| - 1], Spans(c0, front));
    }
  }

  /** Telescoping intervals report at most the time from the first one's start to the last one's end,
      and exactly that when every one of them was delivered. */
  lemma {:induction false} ReportedWithinSpan(spans: seq<Span>)
    requires spans != [] && Telescoping(spans)
    ensures 0 <= Reported(spans) <= spans[|spans| - 1].until - spans[0].since
    ensures (forall i | 0 <= i < |spans| :: spans[i].delivered) ==>
              Reported(spans) == spans[|spans| - 1].until - spans[0].since
  {
    var n := |spans| - 1;
    if n > 0 {
      ReportedWithinSpan(spans[..n]);
    }
  }

  // ----- which switches are reported -----

  predicate Saw(p: Poll) {
    p.app.Some? && p.app.value != ""
  }

  /** Poll `m` is the last one before `i` that saw an app. */
  predicate LastSaw(polls: seq<Poll>, m: nat, i: nat)
    requires i <= |polls|
  {
    m < i && Saw(polls[m]) && forall l | m < l < i :: !Saw(polls[l])
  }

  /** From poll `k` on until poll `i` one app was seen and no other, and it was not the one seen before. */
  predicate Streak(polls: seq<Poll>, k: nat, i: nat)
    requires i <= |polls|
  {
    && k < i && Saw(polls[k])
    && (forall m | k <= m < i && Saw(polls[m]) :: polls[m].app == polls[k].app)
    && (forall m | 0 <= m < k && LastSaw(polls, m, k) :: polls[m].app != polls[k].app)
  }

  /** Poll `i` sees another app than the last poll before it that saw one. */
  ghost predicate Switches(polls: seq<Poll>, i: nat)
    requires i < |polls|
  {
    Saw(polls[i]) && exists m: nat :: LastSaw(polls, m, i) && polls[m].app != polls[i].app
  }

  /** The span that a switch at poll `i` closes. */
  ghost predicate Closes(polls: seq<Poll>, i: nat, s: Span)
    requires i < |polls|
  {
    && Saw(polls[i])
    && exists k: nat :: Streak(polls, k, i) && s == Span(polls[k].app.value, polls[i].app.value, polls[k].now,
                                                         polls[i].now, polls[i].delivered)
  }

  predicate Unseen(polls: seq<Poll>, n: nat)
    requires n <= |polls|
  {
    forall i | 0 <= i < n :: !Saw(polls[i])
  }

  /** After `n` polls the collector remembers the app last seen and when its streak began. */
  ghost predicate Remembers(c: Collector, start: int, polls: seq<Poll>, n: nat)
    requires n <= |polls|
  {
    if Unseen(polls, n) then c == Collector("", start)
    else exists k: nat :: StreakOf(c, polls, k, n)
  }

  predicate StreakOf(c: Collector, polls: seq<Poll>, k: nat, n: nat)
    requires n <= |polls|
  {
    Streak(polls, k, n) && c == Collector(polls[k].app.value, polls[k].now)
  }

  /** The last poll that saw an app saw the one whose streak it is. */
  lemma StreakEnds(polls: seq<Poll>, k: nat, n: nat, m: nat)
    requires n <= |polls| && Streak(polls, k, n) && LastSaw(polls, m, n)
    ensures polls[m].app == polls[k].app
  {
  }

  lemma StreakBegins(polls: seq<Poll>, n: nat)
    requires n < |polls| && Saw(polls[n])
    requires forall m: nat | LastSaw(polls, m, n) :: polls[m].app != polls[n].app
    ensures Streak(polls, n, n + 1)
  {
  }

  lemma StreakGoesOn(polls: seq<Poll>, k: nat, n: nat)
    requires n < |polls| && Streak(polls, k, n) && (!Saw(polls[n]) || polls[n].app == polls[k].app)
    ensures Streak(polls, k, n + 1)
  {
  }

  lemma RemembersMore(c: Collector, start: int, polls: seq<Poll>, n: nat)
    requires n < |polls| && Remembers(c, start, polls, n)
    ensures Remembers(Observe(c, polls[n]).0, start, polls, n + 1)
  {
    var c' := Observe(c, polls[n]).0;
    if Unseen(polls, n) {
      if Saw(polls[n]) {
        StreakBegins(polls, n);
        assert StreakOf(c', polls, n, n + 1);
      }
      return;
    }
    var k: nat :| StreakOf(c, polls, k, n);
    if Saw(polls[n]) && polls[n].app != polls[k].app {
      forall m: nat | LastSaw(polls, m, n)
        ensures polls[m].app != polls[n].app
      {
        StreakEnds(polls, k, n, m);
      }
      StreakBegins(polls, n);
      assert StreakOf(c', polls, n, n + 1);
    } else {
      StreakGoesOn(polls, k, n);
      assert StreakOf(c', polls, k, n + 1);
    }
  }

  lemma ObserveMeans(c: Collector, start: int, polls: seq<Poll>, n: nat)
    requires n < |polls| && Remembers(c, start, polls, n)
    ensures var span := Observe(c, polls[n]).1;
            && (span.Some? <==> Switches(polls, n))
            && (span.Some? ==> Closes(polls, n, span.value))
  {
    if Unseen(polls, n) {
      return;
    }
    var k: nat :| StreakOf(c, polls, k, n);
    var m := LastSeeing(polls, k, n);
    StreakEnds(polls, k, n, m);
    forall l: nat | LastSaw(polls, l, n)
      ensures polls[l].app == polls[k].app
    {
      StreakEnds(polls, k, n, l);
    }
  }

  /** Once an app has been seen there is a last poll that saw one. */
  lemma {:induction false} LastSeeing(polls: seq<Poll>, k: nat, i: nat) returns (m: nat)
    requires k < i <= |polls| && Saw(polls[k])
    ensures LastSaw(polls, m, i)
    decreases i
  {
    if Saw(polls[i - 1]) {
      m := i - 1;
    } else {
      m := LastSeeing(polls, k, i - 1);
    }
  }

  lemma FinalSnoc(c: Collector, polls: seq<Poll>, n: nat)
    requires n < |polls|
    ensures Final(c, polls[..n + 1]) == Observe(Final(c, polls[..n]), polls[n]).0
  {
    assert polls[..n + 1][..n] == polls[..n];
  }

  lemma {:induction false} CollectorRemembers(start: int, polls: seq<Poll>, n: nat)
    requires n <= |polls|
    ensures Remembers(Final(Collector("", start), polls[..n]), start, polls, n)
  {
    var c0 := Collector("", start);
    if n == 0 {
      assert polls[..0] == [] && Final(c0, []) == c0;
    } else {
      CollectorRemembers(start, polls, n - 1);
      FinalSnoc(c0, polls, n - 1);
      RemembersMore(Final(c0, polls[..n - 1]), start, polls, n - 1);
    }
  }

  /** The spans are those of the polls at `pos`, all of them below `n`. */
  ghost predicate ReportedAt(polls: seq<Poll>, n: nat, spans: seq<Span>, pos: seq<nat>)
    requires n <= |polls|
  {
    && |pos| == |spans|
    && (forall j, l | 0 <= j < l < |pos| :: pos[j] < pos[l])
    && (forall j | 0 <= j < |pos| :: pos[j] < n && Closes(polls, pos[j], spans[j]))
    && (forall i: nat | i < n :: i in pos <==> Switches(polls, i))
  }

  lemma OneMoreReported(polls: seq<Poll>, n: nat, spans: seq<Span>, pos: seq<nat>, s: Span)
    requires n < |polls| && ReportedAt(polls, n, spans, pos) && Switches(polls, n) && Closes(polls, n, s)
    ensures ReportedAt(polls, n + 1, spans + [s], pos + [n])
  {
    forall i: nat | i < n + 1
      ensures i in pos + [n] <==> Switches(polls, i)
    {
      assert i in pos + [n] <==> i in pos || i == n;
    }
  }

  lemma NoneReported(polls: seq<Poll>, n: nat, spans: seq<Span>, pos: seq<nat>)
    requires n < |polls| && ReportedAt(polls, n, spans, pos) && !Switches(polls, n)
    ensures ReportedAt(polls, n + 1, spans, pos)
  {
    assert n !in pos;
  }

  lemma SpansSnoc(c: Collector, polls: seq<Poll>, n: nat)
    requires n < |polls|
    ensures var span := Observe(Final(c, polls[..n]), polls[n]).1;
            Spans(c, polls[..n + 1]) == if span.Some? then Spans(c, polls[..n]) + [span.value] else Spans(c, polls[..n])
  {
    assert polls[..n + 1][..n] == polls[..n];
    assert Spans(c, polls[..n]) + [] == Spans(c, polls[..n]);
  }

  lemma ReportStep(c: Collector, start: int, polls: seq<Poll>, n: nat, spans: seq<Span>, pos: seq<nat>)
    returns (more: seq<nat>)
    requires n < |polls| && Remembers(c, start, polls, n) && ReportedAt(polls, n, spans, pos)
    ensures var span := Observe(c, polls[n]).1;
            ReportedAt(polls, n + 1, if span.Some? then spans + [span.value] else spans, more)
  {
    ObserveMeans(c, start, polls, n);
    var span := Observe(c, polls[n]).1;
    if span.Some? {
      OneMoreReported(polls, n, spans, pos, span.value);
      more := pos + [n];
    } else {
      NoneReported(polls, n, spans, pos);
      more := pos;
    }
  }

  /** A run closes a span at every poll that sees another app than was last seen, in order and at no other poll;
      the span is that of the app left, from the poll that began its streak to this one. */
  lemma {:induction false} SpansExact(start: int, polls: seq<Poll>, n: nat) returns (pos: seq<nat>)
    requires n <= |polls|
    ensures ReportedAt(polls, n, Spans(Collector("", start), polls[..n]), pos)
    decreases n
  {
    if n == 0 {
      pos := [];
    } else {
      var c0 := Collector("", start);
      var front := SpansExact(start, polls, n - 1);
      CollectorRemembers(start, polls, n - 1);
      pos := ReportStep(Final(c0, polls[..n - 1]), start, polls, n - 1, Spans(c0, polls[..n - 1]), front);
      SpansSnoc(c0, polls, n - 1);
    }
  }

  method Run(start: int, polls: seq<Poll>) returns (spans: seq<Span>)
    requires Monotone(polls, start)
    ensures spans == Spans(Collector("", start), polls)
    ensures Telescoping(spans)
  {
    spans := [];
    var prevApp, prevSince := "", start;
    ghost var c0 := Collector("", start);
    for i := 0 to |polls|
      invariant spans == Spans(c0, polls[..i])
      invariant Collector(prevApp, prevSince) == Final(c0, polls[..i])
    {
      assert polls[..i + 1][..i] == polls[..i];
      var p := polls[i];
      if p.app.None? {
        continue;
      }
      var app := p.app.value;
      if app == "" {
        continue;
      }
      if prevApp == "" {
        prevApp, prevSince := app, p.now;
        continue;
      }
      if app != prevApp {
        spans := spans + [Span(prevApp, app, prevSince, p.now, p.delivered)];
        prevApp, prevSince := app, p.now;
      }
    }
    assert polls[..|polls|] == polls;
    SpansTelescope(start, polls);
  }
}
