/** Productivity scoring in exact arithmetic. */
module Scoring {
  import opened Options
  import opened Schema

  const NOTHING := Aggregates(0.0, 0.0, 0, 0, 0, 0, 0.0, 0, 0, 0)

  function Plus(a: Aggregates, b: Aggregates): Aggregates {
    Aggregates(
      a.focusMinutes + b.focusMinutes,
      a.idleMinutes + b.idleMinutes,
      a.appSwitches + b.appSwitches,
      a.productiveAppEvents + b.productiveAppEvents,
      a.distractionEvents + b.distractionEvents,
      a.gitCommits + b.gitCommits,
      a.ideMinutes + b.ideMinutes,
      a.terminalActivity + b.terminalActivity,
      a.zeroDiffCommits + b.zeroDiffCommits,
      a.manualCheckins + b.manualCheckins)
  }

  function DurationMin(row: TelemetryRow): real {
    if row.payload.durationMinutes.Some? then row.payload.durationMinutes.value else 0.0
  }

  /** `value || fallback`: zero counts as missing. */
  function OrElse(value: real, fallback: real): real {
    if value == 0.0 then fallback else value
  }

  /** What one event is worth on its own. */
  function Worth(row: TelemetryRow): Aggregates {
    match row.eventType
    case FocusSessionEnded => NOTHING.(focusMinutes := DurationMin(row))
    case IdleDetected => NOTHING.(idleMinutes := OrElse(DurationMin(row), 5.0))
    case AppSwitched =>
      NOTHING.(appSwitches := 1, productiveAppEvents := if row.isProductive == Some(true) then 1 else 0)
    case DistractionDetected => NOTHING.(distractionEvents := 1)
    case GitCommit =>
      NOTHING.(gitCommits := 1, zeroDiffCommits := if row.payload.changedFiles == Some(0.0) then 1 else 0)
    case IdeActivity => NOTHING.(ideMinutes := OrElse(DurationMin(row), 1.0))
    case TerminalActivity => NOTHING.(terminalActivity := 1)
    case ManualCheckin => NOTHING.(manualCheckins := 1)
    case _ => NOTHING
  }

  function Aggregate(rows: seq<TelemetryRow>): Aggregates {
    if rows == [] then NOTHING else Plus(Aggregate(rows[..|rows| - 1]), Worth(rows[|rows| - 1]))
  }

  lemma AggregateStep(rows: seq<TelemetryRow>, i: nat)
    requires i < |rows|
    ensures Aggregate(rows[..i + 1]) == Plus(Aggregate(rows[..i]), Worth(rows[i]))
  {
    assert rows[..i + 1][..i] == rows[..i];
  }

  method AggregateEvents(rows: seq<TelemetryRow>) returns (a: Aggregates)
    ensures a == Aggregate(rows)
  {
    a := NOTHING;
    for i := 0 to |rows|
      invariant a == Aggregate(rows[..i])
    {
      AggregateStep(rows, i);
      a := AddEvent(a, rows[i]);
    }
    assert rows[..|rows|] == rows;
  }

  /** The body of the loop: one switch over the event type. */
  method AddEvent(before: Aggregates, row: TelemetryRow) returns (a: Aggregates)
    ensures a == Plus(before, Worth(row))
  {
    a := before;
    var durationMin := if row.payload.durationMinutes.Some? then row.payload.durationMinutes.value else 0.0;
    match row.eventType {
      case FocusSessionEnded => a := a.(focusMinutes := a.focusMinutes + durationMin);
      case IdleDetected => a := a.(idleMinutes := a.idleMinutes + OrElse(durationMin, 5.0));
      case AppSwitched =>
        a := a.(appSwitches := a.appSwitches + 1);
        if row.isProductive == Some(true) {
          a := a.(productiveAppEvents := a.productiveAppEvents + 1);
        }
      case DistractionDetected => a := a.(distractionEvents := a.distractionEvents + 1);
      case GitCommit =>
        a := a.(gitCommits := a.gitCommits + 1);
        if row.payload.changedFiles == Some(0.0) {
          a := a.(zeroDiffCommits := a.zeroDiffCommits + 1);
        }
      case IdeActivity => a := a.(ideMinutes := a.ideMinutes + OrElse(durationMin, 1.0));
      case TerminalActivity => a := a.(terminalActivity := a.terminalActivity + 1);
      case ManualCheckin => a := a.(manualCheckins := a.manualCheckins + 1);
      case _ =>
    }
  }

  // ----- order does not matter -----

  lemma AggregateSnoc(rows: seq<TelemetryRow>, row: TelemetryRow)
    ensures Aggregate(rows + [row]) == Plus(Aggregate(rows), Worth(row))
  {
    assert (rows + [row])[..|rows|] == rows;
  }

  lemma PlusLaws(a: Aggregates, b: Aggregates, c: Aggregates)
    ensures Plus(Plus(a, b), c) == Plus(a, Plus(b, c))
    ensures Plus(a, b) == Plus(b, a)
    ensures Plus(a, NOTHING) == a == Plus(NOTHING, a)
  {
  }

  lemma {:induction false} AggregateConcat(a: seq<TelemetryRow>, b: seq<TelemetryRow>)
    ensures Aggregate(a + b) == Plus(Aggregate(a), Aggregate(b))
    decreases |b|
  {
    if b == [] {
      assert a + b == a;
      PlusLaws(Aggregate(a), NOTHING, NOTHING);
    } else {
      var n := |b| - 1;
      assert a + b == (a + b[..n]) + [b[n]];
      calc {
        Aggregate(a + b);
      == { AggregateSnoc(a + b[..n], b[n]); }
        Plus(Aggregate(a + b[..n]), Worth(b[n]));
      == { AggregateConcat(a, b[..n]); }
        Plus(Plus(Aggregate(a), Aggregate(b[..n])), Worth(b[n]));
      == { PlusLaws(Aggregate(a), Aggregate(b[..n]), Worth(b[n])); }
        Plus(Aggregate(a), Aggregate(b));
      }
    }
  }

  /** An event may be pulled out of the middle. */
  lemma AggregateExtract(before: seq<TelemetryRow>, x: TelemetryRow, after: seq<TelemetryRow>)
    ensures Aggregate(before + [x] + after) == Plus(Aggregate(before + after), Worth(x))
  {
    calc {
      Aggregate(before + [x] + after);
    == { AggregateConcat(before + [x], after); AggregateSnoc(before, x); }
      Plus(Plus(Aggregate(before), Worth(x)), Aggregate(after));
    == { PlusLaws(Aggregate(before), Worth(x), Aggregate(after)); PlusLaws(Worth(x), Aggregate(after), NOTHING); }
      Plus(Aggregate(before), Plus(Aggregate(after), Worth(x)));
    == { PlusLaws(Aggregate(before), Aggregate(after), Worth(x)); AggregateConcat(before, after); }
      Plus(Aggregate(before + after), Worth(x));
    }
  }

  /** What one event adds to the aggregates, wherever it stands among the others; no events make no aggregates. */
  lemma EventAdds(before: seq<TelemetryRow>, x: TelemetryRow, after: seq<TelemetryRow>)
    ensures var b, a := Aggregate(before + after), Aggregate(before + [x] + after);
            var duration := if x.payload.durationMinutes == None then 0.0 else x.payload.durationMinutes.value;
            && a.focusMinutes - b.focusMinutes == (if x.eventType == FocusSessionEnded then duration else 0.0)
            && a.idleMinutes - b.idleMinutes
               == (if x.eventType != IdleDetected then 0.0 else if duration == 0.0 then 5.0 else duration)
            && a.ideMinutes - b.ideMinutes
               == (if x.eventType != IdeActivity then 0.0 else if duration == 0.0 then 1.0 else duration)
            && a.appSwitches - b.appSwitches == (if x.eventType == AppSwitched then 1 else 0)
            && a.productiveAppEvents - b.productiveAppEvents
               == (if x.eventType == AppSwitched && x.isProductive == Some(true) then 1 else 0)
            && a.distractionEvents - b.distractionEvents == (if x.eventType == DistractionDetected then 1 else 0)
            && a.gitCommits - b.gitCommits == (if x.eventType == GitCommit then 1 else 0)
            && a.zeroDiffCommits - b.zeroDiffCommits
               == (if x.eventType == GitCommit && x.payload.changedFiles == Some(0.0) then 1 else 0)
            && a.terminalActivity - b.terminalActivity == (if x.eventType == TerminalActivity then 1 else 0)
            && a.manualCheckins - b.manualCheckins == (if x.eventType == ManualCheckin then 1 else 0)
    ensures Aggregate([]) == Aggregates(0.0, 0.0, 0, 0, 0, 0, 0.0, 0, 0, 0)
  {
    AggregateExtract(before, x, after);
  }

  lemma {:induction false} AggregatePermuted(a: seq<TelemetryRow>, b: seq<TelemetryRow>)
    requires multiset(a) == multiset(b)
    ensures Aggregate(a) == Aggregate(b)
    decreases |a|
  {
    if a == [] {
      assert |multiset(b)| == 0;
    } else {
      var n := |a| - 1;
      var x := a[n];
      assert a == a[..n] + [x];
      assert x in multiset(b);
      var i :| 0 <= i < |b| && b[i] == x;
      assert b == b[..i] + [x] + b[i + 1..];
      var rest := b[..i] + b[i + 1..];
      assert multiset(a[..n]) == multiset(a) - multiset{x};
      assert multiset(rest) == multiset(b) - multiset{x} by {
        assert multiset(b) == multiset(b[..i]) + multiset{x} + multiset(b[i + 1..]);
        assert multiset(rest) == multiset(b[..i]) + multiset(b[i + 1..]);
      }
      AggregatePermuted(a[..n], rest);
      AggregateExtract(b[..i], x, b[i + 1..]);
    }
  }

  // ----- the score -----

  function Max(a: real, b: real): real { if a < b then b else a }

  function Clamp01(v: real): real {
    if v < 0.0 then 0.0 else if v > 1.0 then 1.0 else v
  }

  datatype Breakdown = Breakdown(
    ideActivityScore: real,
    gitActivityScore: real,
    focusDurationScore: real,
    distractionAbsenceScore: real,
    manualCheckinScore: real,
    total: real)

  /** Both callers pass a duration of at least one minute. */
  function ComputeBreakdown(a: Aggregates, durationMinutes: real, timePressure: real): Breakdown
    requires durationMinutes >= 1.0
  {
    var ide := Clamp01(a.ideMinutes / (durationMinutes * 0.5));
    var git := Clamp01(a.gitCommits as real / Max(1.0, durationMinutes / 60.0));
    var focus := Clamp01(a.focusMinutes / (durationMinutes * 0.7));
    var calm := Clamp01(1.0 - a.distractionEvents as real / Max(1.0, 6.0 - timePressure));
    var checkin := if a.manualCheckins > 0 then 1.0 else 0.0;
    Breakdown(ide, git, focus, calm, checkin,
              Clamp01(0.3 * ide + 0.3 * git + 0.2 * focus + 0.1 * calm + 0.1 * checkin))
  }

  /** The weights sum to one, so the outer clamp never bites and the extremes mean what they say. */
  lemma TotalIsWeightedMean(a: Aggregates, durationMinutes: real, timePressure: real)
    requires durationMinutes >= 1.0
    ensures var b := ComputeBreakdown(a, durationMinutes, timePressure);
            && 0.0 <= b.total <= 1.0
            && b.total == 0.3 * b.ideActivityScore + 0.3 * b.gitActivityScore + 0.2 * b.focusDurationScore
                          + 0.1 * b.distractionAbsenceScore + 0.1 * b.manualCheckinScore
            && (b.total == 1.0 <==> && b.ideActivityScore == 1.0 && b.gitActivityScore == 1.0
                                    && b.focusDurationScore == 1.0 && b.distractionAbsenceScore == 1.0
                                    && b.manualCheckinScore == 1.0)
            && (b.total == 0.0 <==> && b.ideActivityScore == 0.0 && b.gitActivityScore == 0.0
                                    && b.focusDurationScore == 0.0 && b.distractionAbsenceScore == 0.0
                                    && b.manualCheckinScore == 0.0)
  {
  }

  /** `s` is the part of its target that has been reached, from none of it to all of it. */
  predicate IsPart(s: real, reached: real, target: real) {
    if reached <= 0.0 then s == 0.0 else if target <= reached then s == 1.0 else s * target == reached
  }

  lemma ClampedPart(q: real, reached: real, target: real)
    requires target > 0.0 && q * target == reached
    ensures IsPart(Clamp01(q), reached, target)
  {
    if q < 0.0 {
      assert q * target < 0.0;
    } else if q > 1.0 {
      assert q * target > target;
    }
  }

  lemma PartOf(reached: real, target: real)
    requires target > 0.0
    ensures IsPart(Clamp01(reached / target), reached, target)
  {
    ClampedPart(reached / target, reached, target);
  }

  lemma PartLeft(taken: real, target: real)
    requires target > 0.0
    ensures IsPart(Clamp01(1.0 - taken / target), target - taken, target)
  {
    var q := taken / target;
    assert q * target == taken;
    assert (1.0 - q) * target == target - q * target;
    ClampedPart(1.0 - q, target - taken, target);
  }

  /** The subscores: half the round in the editor, a commit an hour and at least one, and seven tenths of it in focus
      are full marks and less is in proportion; distractions eat up a tolerance of six less the pressure and at least
      one; any check-in counts in full. */
  lemma SubscoresMean(a: Aggregates, durationMinutes: real, timePressure: real)
    requires durationMinutes >= 1.0
    ensures var b := ComputeBreakdown(a, durationMinutes, timePressure);
            && IsPart(b.ideActivityScore, a.ideMinutes, 0.5 * durationMinutes)
            && IsPart(b.gitActivityScore, a.gitCommits as real,
                      if durationMinutes <= 60.0 then 1.0 else durationMinutes / 60.0)
            && IsPart(b.focusDurationScore, a.focusMinutes, 0.7 * durationMinutes)
            && (var tolerance := if timePressure >= 5.0 then 1.0 else 6.0 - timePressure;
                IsPart(b.distractionAbsenceScore, tolerance - a.distractionEvents as real, tolerance))
            && b.manualCheckinScore == if a.manualCheckins == 0 then 0.0 else 1.0
  {
    PartOf(a.ideMinutes, durationMinutes * 0.5);
    PartOf(a.gitCommits as real, Max(1.0, durationMinutes / 60.0));
    PartOf(a.focusMinutes, durationMinutes * 0.7);
    PartLeft(a.distractionEvents as real, Max(1.0, 6.0 - timePressure));
  }

  lemma QuotientMonotone(x: real, y: real, d: real)
    requires d > 0.0 && x <= y
    ensures x / d <= y / d
  {
    var q := y / d - x / d;
    assert q * d == y - x;
    assert q < 0.0 ==> q * d < 0.0;
  }

  /** `a` is at least as good as `b` in everything the score looks at. */
  predicate Dominates(a: Aggregates, b: Aggregates) {
    && a.ideMinutes >= b.ideMinutes
    && a.gitCommits >= b.gitCommits
    && a.focusMinutes >= b.focusMinutes
    && a.distractionEvents <= b.distractionEvents
    && a.manualCheckins >= b.manualCheckins
  }

  lemma ScoreMonotone(a: Aggregates, b: Aggregates, durationMinutes: real, timePressure: real)
    requires durationMinutes >= 1.0 && Dominates(a, b)
    ensures ComputeBreakdown(a, durationMinutes, timePressure).total
         >= ComputeBreakdown(b, durationMinutes, timePressure).total
  {
    QuotientMonotone(b.ideMinutes, a.ideMinutes, durationMinutes * 0.5);
    QuotientMonotone(b.gitCommits as real, a.gitCommits as real, Max(1.0, durationMinutes / 60.0));
    QuotientMonotone(b.focusMinutes, a.focusMinutes, durationMinutes * 0.7);
    QuotientMonotone(a.distractionEvents as real, b.distractionEvents as real, Max(1.0, 6.0 - timePressure));
    TotalIsWeightedMean(a, durationMinutes, timePressure);
    TotalIsWeightedMean(b, durationMinutes, timePressure);
  }

  function Score(rows: seq<TelemetryRow>, durationMinutes: real, timePressure: real): real
    requires durationMinutes >= 1.0
  {
    ComputeBreakdown(Aggregate(rows), durationMinutes, timePressure).total
  }

  /** Types the score does not look at. */
  predicate Silent(t: TelemetryType) {
    t.IdleDetected? || t.IdleEnded? || t.AppSwitched? || t.TerminalActivity? || t.BrowserTabChanged?
      || t.FocusSessionStarted?
  }

  lemma WorthSigns(b: Aggregates, row: TelemetryRow)
    ensures row.eventType.DistractionDetected? ==> Dominates(b, Plus(b, Worth(row)))
    ensures !row.eventType.DistractionDetected? && DurationMin(row) >= 0.0 ==> Dominates(Plus(b, Worth(row)), b)
    ensures Silent(row.eventType) ==> Dominates(b, Plus(b, Worth(row))) && Dominates(Plus(b, Worth(row)), b)
  {
  }

  /** One more event: a distraction never raises the score, anything else with a
      non-negative duration never lowers it, and events that carry no signal leave it alone. */
  lemma OneMoreEvent(rows: seq<TelemetryRow>, row: TelemetryRow, durationMinutes: real, timePressure: real)
    requires durationMinutes >= 1.0
    ensures var before := Score(rows, durationMinutes, timePressure);
            var after := Score(rows + [row], durationMinutes, timePressure);
            && (row.eventType.DistractionDetected? ==> after <= before)
            && (!row.eventType.DistractionDetected? && DurationMin(row) >= 0.0 ==> after >= before)
            && (Silent(row.eventType) ==> after == before)
  {
    var a, b := Aggregate(rows + [row]), Aggregate(rows);
    AggregateSnoc(rows, row);
    WorthSigns(b, row);
    if row.eventType.DistractionDetected? {
      ScoreMonotone(b, a, durationMinutes, timePressure);
    } else if DurationMin(row) >= 0.0 {
      ScoreMonotone(a, b, durationMinutes, timePressure);
    }
    if Silent(row.eventType) {
      ScoreMonotone(a, b, durationMinutes, timePressure);
      ScoreMonotone(b, a, durationMinutes, timePressure);
    }
  }

  // ----- anomalies -----

  method DetectAnomaliesInternal(a: Aggregates, durationMinutes: real) returns (anomalies: seq<Anomaly>)
    ensures anomalies == Anomalies(a, durationMinutes)
  {
    anomalies := [];
    if durationMinutes > 0.0 {
      var commitsPerMin := a.gitCommits as real / durationMinutes;
      if commitsPerMin > 20.0 / 60.0 {
        anomalies := anomalies + [GitCommitsSpike];
      }
    }
    if a.ideMinutes >= 720.0 && a.gitCommits == 0 {
      anomalies := anomalies + [IdeNoCommits];
    }
    if durationMinutes > 0.0 && a.idleMinutes / durationMinutes >= 0.9 {
      anomalies := anomalies + [RoundMostlyIdle];
    }
    if a.zeroDiffCommits > 0 {
      anomalies := anomalies + [ZeroDiffCommits];
    }
  }

  predicate Raised(flag: Anomaly, a: Aggregates, durationMinutes: real) {
    match flag
    case GitCommitsSpike => durationMinutes > 0.0 && a.gitCommits as real / durationMinutes > 20.0 / 60.0
    case IdeNoCommits => a.ideMinutes >= 720.0 && a.gitCommits == 0
    case RoundMostlyIdle => durationMinutes > 0.0 && a.idleMinutes / durationMinutes >= 0.9
    case ZeroDiffCommits => a.zeroDiffCommits > 0
  }

  function Anomalies(a: Aggregates, durationMinutes: real): seq<Anomaly> {
    (if Raised(GitCommitsSpike, a, durationMinutes) then [GitCommitsSpike] else [])
    + (if Raised(IdeNoCommits, a, durationMinutes) then [IdeNoCommits] else [])
    + (if Raised(RoundMostlyIdle, a, durationMinutes) then [RoundMostlyIdle] else [])
    + (if Raised(ZeroDiffCommits, a, durationMinutes) then [ZeroDiffCommits] else [])
  }

  /** More than one commit in three minutes; twelve hours in the editor without a commit; nine tenths of the round idle;
      a commit without changes. The flags are listed in this order. */
  lemma FlagsMean(a: Aggregates, durationMinutes: real)
    requires durationMinutes >= 1.0
    ensures var flags := Anomalies(a, durationMinutes);
            && (GitCommitsSpike in flags <==> 3.0 * a.gitCommits as real > durationMinutes)
            && (IdeNoCommits in flags <==> a.ideMinutes >= 720.0 && a.gitCommits == 0)
            && (RoundMostlyIdle in flags <==> 10.0 * a.idleMinutes >= 9.0 * durationMinutes)
            && (ZeroDiffCommits in flags <==> a.zeroDiffCommits > 0)
            && forall i, j | 0 <= i < j < |flags| :: Rank(flags[i]) < Rank(flags[j])
  {
    SpikeMeans(a.gitCommits as real, durationMinutes);
    IdleMeans(a.idleMinutes, durationMinutes);
    FlagListed(GitCommitsSpike, a, durationMinutes);
    FlagListed(IdeNoCommits, a, durationMinutes);
    FlagListed(RoundMostlyIdle, a, durationMinutes);
    FlagListed(ZeroDiffCommits, a, durationMinutes);
  }

  lemma SpikeMeans(commits: real, d: real)
    requires d > 0.0
    ensures commits / d > 20.0 / 60.0 <==> 3.0 * commits > d
  {
    var q := commits / d;
    assert q * d == commits;
    Compared(q, 20.0 / 60.0, d);
  }

  lemma IdleMeans(idle: real, d: real)
    requires d > 0.0
    ensures idle / d >= 0.9 <==> 10.0 * idle >= 9.0 * d
  {
    var q := idle / d;
    assert q * d == idle;
    Compared(q, 0.9, d);
  }

  function Rank(flag: Anomaly): nat {
    match flag
    case GitCommitsSpike => 0
    case IdeNoCommits => 1
    case RoundMostlyIdle => 2
    case ZeroDiffCommits => 3
  }

  lemma Compared(x: real, y: real, d: real)
    requires d > 0.0
    ensures x > y <==> x * d > y * d
    ensures x >= y <==> x * d >= y * d
  {
    if x > y {
      assert (x - y) * d > 0.0;
    } else if x < y {
      assert (y - x) * d > 0.0;
    }
  }

  lemma FlagListed(flag: Anomaly, a: Aggregates, durationMinutes: real)
    ensures flag in Anomalies(a, durationMinutes) <==> Raised(flag, a, durationMinutes)
  {
  }

  // ----- scoring a round -----

  function Started(r: Round): Time {
    if r.actualStart.Some? then r.actualStart.value else r.scheduledStart
  }

  /** The end is the clock's when the round has not ended. */
  function Ended(r: Round, now: Time): Time {
    if r.actualEnd.Some? then r.actualEnd.value else now
  }

  function DurationMinutes(r: Round, now: Time): (d: real)
    ensures d >= 1.0
  {
    Max(1.0, (Ended(r, now) - Started(r)) as real / 60000.0)
  }

  /** Telemetry of a round, in table order. */
  function RowsOf(telemetry: seq<TelemetryRow>, id: Id): seq<TelemetryRow> {
    if telemetry == [] then []
    else
      var row := telemetry[|telemetry| - 1];
      RowsOf(telemetry[..|telemetry| - 1], id) + (if row.roundId == Some(id) then [row] else [])
  }

  /** A round lasts from its start, or the planned start when it never started, to its end, or to now when it has not
      ended, and at least a minute. */
  lemma DurationMeans(r: Round, now: Time)
    ensures var start := if r.actualStart == None then r.scheduledStart else r.actualStart.value;
            var end := if r.actualEnd == None then now else r.actualEnd.value;
            DurationMinutes(r, now) * 60000.0 == (if end < start + 60000 then 60000 else end - start) as real
  {
  }

  /** The rows of a round are those that name it, in table order. */
  lemma {:induction false} RowsOfMeans(a: seq<TelemetryRow>, b: seq<TelemetryRow>, row: TelemetryRow, id: Id)
    ensures RowsOf(a + b, id) == RowsOf(a, id) + RowsOf(b, id)
    ensures RowsOf([row], id) == if row.roundId == Some(id) then [row] else []
    decreases |b|
  {
    assert [row][..0] == [];
    if b == [] {
      assert a + b == a;
    } else {
      var n := |b| - 1;
      RowsOfMeans(a, b[..n], row, id);
      assert (a + b)[..|a| + n] == a + b[..n] && (a + b)[|a| + n] == b[n];
    }
  }

  /** Flags found by two fetches of the same rows, in any order and at any two times, agree
      whenever the round has ended or the clocks do. */
  lemma SameFlags(r: Round, fetched: seq<TelemetryRow>, ordered: seq<TelemetryRow>, now: Time, later: Time)
    requires multiset(fetched) == multiset(ordered)
    requires r.actualEnd.Some? || now == later
    ensures Anomalies(Aggregate(fetched), DurationMinutes(r, now))
         == Anomalies(Aggregate(ordered), DurationMinutes(r, later))
  {
    AggregatePermuted(fetched, ordered);
  }

  lemma OneRow(row: TelemetryRow)
    ensures Aggregate([row]) == Worth(row)
  {
    AggregateSnoc([], row);
    assert [] + [row] == [row];
    PlusLaws(Worth(row), NOTHING, NOTHING);
  }

  /** A single idle event of nine tenths of `minutes`. */
  function IdleRow(minutes: real): TelemetryRow {
    TelemetryRow(0, None, "", IdleDetected, Payload(Some(0.9 * minutes), None), Some(false), 0)
  }

  /** It makes up most of a round of `short` minutes, and of no longer one. */
  lemma MostlyIdle(short: real, long: real)
    requires 1.0 <= short < long
    ensures Anomalies(Aggregate([IdleRow(short)]), short) != Anomalies(Aggregate([IdleRow(short)]), long)
  {
    var a := Aggregate([IdleRow(short)]);
    OneRow(IdleRow(short));
    assert a.idleMinutes == 0.9 * short;
    assert a.idleMinutes / short == 0.9;
    assert a.idleMinutes / long < 0.9 by {
      var q := a.idleMinutes / long;
      assert q * long == 0.9 * short;
      assert q >= 0.9 ==> q * long >= 0.9 * long;
    }
    FlagListed(RoundMostlyIdle, a, short);
    FlagListed(RoundMostlyIdle, a, long);
  }

  /** Two looks at a round find the same flags whatever its telemetry if and only if its duration is the
      same for both: it has ended, the clocks agree, or neither has passed the round's first minute. */
  lemma FlagsExact(r: Round, now: Time, later: Time)
    ensures (forall rows: seq<TelemetryRow> ::
               Anomalies(Aggregate(rows), DurationMinutes(r, now))
                 == Anomalies(Aggregate(rows), DurationMinutes(r, later)))
       <==> DurationMinutes(r, now) == DurationMinutes(r, later)
    ensures DurationMinutes(r, now) == DurationMinutes(r, later)
       <==> r.actualEnd.Some? || now == later || (now <= Started(r) + 60000 && later <= Started(r) + 60000)
  {
    var d, e := DurationMinutes(r, now), DurationMinutes(r, later);
    if d < e {
      MostlyIdle(d, e);
    }
    if e < d {
      MostlyIdle(e, d);
    }
  }

  // ----- the record -----

  /** Rounding to four decimals, halves upward. */
  function FourDecimals(x: real): (rounded: real)
    ensures x - 0.00005 <= rounded <= x + 0.00005
    ensures (rounded * 10000.0).Floor as real == rounded * 10000.0
  {
    (x * 10000.0 + 0.5).Floor as real / 10000.0
  }

  /** What scoring stores about a round whose telemetry is `rows`. */
  function RecordOf(r: Round, id: Id, rows: seq<TelemetryRow>, now: Time): BehavioralRecord {
    var a := Aggregate(rows);
    BehavioralRecord(
      r.userId, id, Started(r), Ended(r, now), a.focusMinutes, a.idleMinutes, a.appSwitches, a.productiveAppEvents,
      a.distractionEvents, a.gitCommits, a.ideMinutes, a.terminalActivity,
      FourDecimals(ComputeBreakdown(a, DurationMinutes(r, now), r.timePressure).total),
      Anomalies(a, DurationMinutes(r, now)), |rows|)
  }

  datatype Scored = Scored(score: real, breakdown: Breakdown, recordId: Id)

  /** `scoreRound`: stores a record; the round's stats become the aggregates, except the violation count,
      which stays. */
  function ScoreRound(s: Sys, id: Id, now: Time): (Sys, Result<Scored>) {
    if id !in s.rounds then (s, Err(NotFound))
    else
      var r := s.rounds[id];
      var rows := RowsOf(s.telemetry, id);
      var a := Aggregate(rows);
      var breakdown := ComputeBreakdown(a, DurationMinutes(r, now), r.timePressure);
      var stats := Stats(a.focusMinutes, a.idleMinutes, a.appSwitches, a.distractionEvents,
                         r.stats.violationsCount, a.gitCommits, Some(breakdown.total));
      (s.(rounds := s.rounds[id := r.(stats := stats)], records := s.records + [RecordOf(r, id, rows, now)]),
       Ok(Scored(breakdown.total, breakdown, |s.records|)))
  }

  /** What scoring a round stores: of its row only the stats change, and of them not the violations; the record has the
      round's owner and period, one event for each of its rows, and the flags and aggregates of those rows. */
  lemma ScoringMeans(s: Sys, id: Id, now: Time)
    ensures var (s', r) := ScoreRound(s, id, now);
            if id !in s.rounds then s' == s && r == Err(NotFound)
            else
              var round, rows, n := s.rounds[id], RowsOf(s.telemetry, id), |s.records|;
              var a := Aggregate(rows);
              && |s'.records| == n + 1 && s'.records[..n] == s.records
              && s' == s.(rounds := s.rounds[id := s'.rounds[id]], records := s'.records)
              && s'.rounds[id] == round.(stats := s'.rounds[id].stats)
              && s'.rounds[id].stats.violationsCount == round.stats.violationsCount
              && s'.rounds[id].stats.totalFocusMinutes == a.focusMinutes
              && s'.rounds[id].stats.totalIdleMinutes == a.idleMinutes
              && s'.rounds[id].stats.appSwitches == a.appSwitches
              && s'.rounds[id].stats.distractionsDetected == a.distractionEvents
              && s'.rounds[id].stats.gitCommitsCount == a.gitCommits
              && var record := s'.records[n];
              && record.userId == round.userId && record.roundId == id
              && record.periodStart == (if round.actualStart == None then round.scheduledStart
                                        else round.actualStart.value)
              && record.periodEnd == (if round.actualEnd == None then now else round.actualEnd.value)
              && record.ideActivityMinutes == a.ideMinutes && record.terminalCommands == a.terminalActivity
              && record.productiveAppsActive == a.productiveAppEvents && record.eventCount == |rows|
              && record.anomalyFlags == Anomalies(a, DurationMinutes(round, now))
              && r.value.score == ComputeBreakdown(a, DurationMinutes(round, now), round.timePressure).total
  {
  }

  /** The record, the stats on the round and the answer tell the same; scoring again while neither the telemetry
      nor the duration has changed stores the same record again and leaves the round as it is. */
  lemma RecordMirrorsStats(s: Sys, id: Id, now: Time, later: Time)
    requires id in s.rounds
    ensures var (s', r) := ScoreRound(s, id, now);
            && r.Ok? && r.value.recordId == |s.records| && |s'.records| == |s.records| + 1
            && var record, stats := s'.records[r.value.recordId], s'.rounds[id].stats;
            && stats.productivityScore == Some(r.value.score) == Some(r.value.breakdown.total)
            && r.value.score - 0.00005 <= record.productivityScore <= r.value.score + 0.00005
            && record.totalFocusMinutes == stats.totalFocusMinutes && record.totalIdleMinutes == stats.totalIdleMinutes
            && record.appSwitches == stats.appSwitches && record.gitCommits == stats.gitCommitsCount
            && record.distractionsDetected == stats.distractionsDetected
    ensures DurationMinutes(s.rounds[id], now) == DurationMinutes(s.rounds[id], later) ==>
              var s1 := ScoreRound(s, id, now).0;
              var s2 := ScoreRound(s1, id, later).0;
              && s2.rounds == s1.rounds
              && s2.records[|s.records| + 1] == s2.records[|s.records|].(periodEnd := Ended(s.rounds[id], later))
  {
    var s1 := ScoreRound(s, id, now).0;
    assert DurationMinutes(s1.rounds[id], later) == DurationMinutes(s.rounds[id], later);
    if DurationMinutes(s.rounds[id], now) == DurationMinutes(s.rounds[id], later) {
      var s2 := ScoreRound(s1, id, later).0;
      assert s2.rounds[id] == s1.rounds[id];
      assert s2.rounds == s1.rounds;
    }
  }

  class ScoringService {
    const db: Database

    constructor (db: Database)
      ensures this.db == db
    {
      this.db := db;
    }

    method ScoreTheRound(id: Id, now: Time) returns (r: Result<Scored>)
      modifies db
      ensures db.State() == ScoreRound(old(db.State()), id, now).0
      ensures r == ScoreRound(old(db.State()), id, now).1
    {
      if id !in db.rounds {
        return Err(NotFound);
      }
      var round := db.rounds[id];
      var events := RowsOf(db.telemetry, id);
      var aggregates := AggregateEvents(events);
      var breakdown := ComputeBreakdown(aggregates, DurationMinutes(round, now), round.timePressure);
      var anomalies := DetectAnomaliesInternal(aggregates, DurationMinutes(round, now));
      var record := BehavioralRecord(
        round.userId, id, Started(round), Ended(round, now), aggregates.focusMinutes, aggregates.idleMinutes,
        aggregates.appSwitches, aggregates.productiveAppEvents, aggregates.distractionEvents, aggregates.gitCommits,
        aggregates.ideMinutes, aggregates.terminalActivity, FourDecimals(breakdown.total), anomalies, |events|);
      var recordId := |db.records|;
      db.records := db.records + [record];
      var stats := Stats(aggregates.focusMinutes, aggregates.idleMinutes, aggregates.appSwitches,
                         aggregates.distractionEvents, round.stats.violationsCount, aggregates.gitCommits,
                         Some(breakdown.total));
      db.rounds := db.rounds[id := round.(stats := stats)];
      r := Ok(Scored(breakdown.total, breakdown, recordId));
    }

    /** The unordered fetch may return the round's rows in any order; `fetched` is that order. */
    method DetectAnomalies(id: Id, fetched: seq<TelemetryRow>, now: Time) returns (anomalies: seq<Anomaly>)
      requires multiset(fetched) == multiset(RowsOf(db.telemetry, id))
      ensures anomalies == if id in db.rounds
                           then Anomalies(Aggregate(RowsOf(db.telemetry, id)), DurationMinutes(db.rounds[id], now))
                           else []
    {
      if id !in db.rounds {
        return [];
      }
      var aggregates := AggregateEvents(fetched);
      AggregatePermuted(fetched, RowsOf(db.telemetry, id));
      anomalies := DetectAnomaliesInternal(aggregates, DurationMinutes(db.rounds[id], now));
    }
  }
}
