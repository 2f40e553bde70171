/** The metrics of one aggregation window. */
module DesktopMetrics {
  import opened Counting

  /** The payload as the aggregator decodes it; an unreadable app switch decodes to `AppSwitched("", 0)`. */
  datatype Data = AppSwitched(toApp: string, focusMs: int) | IdleDetected | IdleEnded | GitCommit | TerminalActivity

  datatype Raw = Raw(timestamp: int, data: Data)

  datatype Category = Development | Communication | Distraction | Neutral

  datatype Mark = Mark(category: Category, isProductive: bool)

  datatype Classified = Classified(id: nat, event: Raw, mark: Mark)

  datatype Metrics = Metrics(
    periodStart: int,
    periodEnd: int,
    totalFocusMinutes: real,
    appSwitches: nat,
    idleMinutes: real,
    productiveAppsActive: seq<string>,
    distractionsDetected: nat,
    gitCommits: nat,
    terminalCommandCount: nat,
    eventCount: nat)

  // ----- what each metric means -----

  /** Milliseconds of focus an event reports. */
  function FocusMs(e: Raw): nat {
    if e.data.AppSwitched? && e.data.focusMs > 0 then e.data.focusMs else 0
  }

  function SumFocus(evs: seq<Classified>): nat {
    if evs == [] then 0 else SumFocus(evs[..|evs| - 1]) + FocusMs(evs[|evs| - 1].event)
  }

  predicate IsSwitch(ce: Classified) { ce.event.data.AppSwitched? }

  predicate IsDistraction(ce: Classified) { ce.event.data.AppSwitched? && ce.mark.category.Distraction? }

  predicate IsCommit(ce: Classified) { ce.event.data.GitCommit? }

  predicate IsTerminal(ce: Classified) { ce.event.data.TerminalActivity? }

  predicate NamesProductiveApp(ce: Classified) {
    ce.event.data.AppSwitched? && ce.mark.isProductive && ce.event.data.toApp != ""
  }

  /** The productive apps switched to, each once, in order of first appearance. */
  function ProductiveApps(evs: seq<Classified>): (apps: seq<string>) {
    if evs == [] then []
    else
      var apps := ProductiveApps(evs[..|evs| - 1]);
      var ce := evs[|evs| - 1];
      if NamesProductiveApp(ce) && ce.event.data.toApp !in apps then apps + [ce.event.data.toApp] else apps
  }

  /** A switch to this app, classified as productive. */
  predicate NamesApp(ce: Classified, app: string) {
    ce.event.data.AppSwitched? && ce.event.data.toApp == app != "" && ce.mark.isProductive
  }

  /** An app is listed exactly when a productive switch names it, and each once. */
  lemma {:induction false} ProductiveAppsExact(evs: seq<Classified>, app: string)
    ensures app in ProductiveApps(evs) <==> exists i :: 0 <= i < |evs| && NamesApp(evs[i], app)
    ensures forall i, j | 0 <= i < j < |ProductiveApps(evs)| :: ProductiveApps(evs)[i] != ProductiveApps(evs)[j]
  {
    if evs != [] {
      var n := |evs| - 1;
      ProductiveAppsExact(evs[..n], app);
      if NamesProductiveApp(evs[n]) {
        ProductiveAppsExact(evs[..n], evs[n].event.data.toApp);
      }
      if i :| 0 <= i < n && NamesApp(evs[..n][i], app) {
        assert NamesApp(evs[i], app);
      }
      if i :| 0 <= i < |evs| && NamesApp(evs[i], app) {
        assert i < n ==> NamesApp(evs[..n][i], app);
      }
    }
  }

  /** The apps of a window's beginning come first, in the same order. */
  lemma {:induction false} ProductiveAppsInOrder(evs: seq<Classified>, k: nat)
    requires k <= |evs|
    ensures ProductiveApps(evs[..k]) <= ProductiveApps(evs)
  {
    if k == |evs| {
      assert evs[..k] == evs;
    } else {
      ProductiveAppsInOrder(evs[..|evs| - 1], k);
      assert evs[..|evs| - 1][..k] == evs[..k];
    }
  }

  predicate IsIdleEvent(e: Raw) {
    e.data.IdleDetected? || e.data.IdleEnded?
  }

  /** Idle at `t`: the last idle event at or before `t` is a detection. */
  predicate IdleAt(evs: seq<Classified>, t: int) {
    if evs == [] then false
    else
      var e := evs[|evs| - 1].event;
      if e.timestamp <= t && IsIdleEvent(e) then e.data.IdleDetected? else IdleAt(evs[..|evs| - 1], t)
  }

  /** How many milliseconds of [lo, hi) are idle. */
  function IdleCount(evs: seq<Classified>, lo: int, hi: int): (n: nat)
    ensures lo <= hi ==> n <= hi - lo
    decreases hi - lo
  {
    if lo >= hi then 0 else IdleCount(evs, lo, hi - 1) + (if IdleAt(evs, hi - 1) then 1 else 0)
  }

  /** Events of the window [start, end), in time order. */
  predicate InWindow(evs: seq<Classified>, start: int, end: int) {
    && (forall i | 0 <= i < |evs| :: start <= evs[i].event.timestamp < end)
    && (forall i, j | 0 <= i < j < |evs| :: evs[i].event.timestamp <= evs[j].event.timestamp)
  }

  // ----- the idle fold -----

  /** The fold's state after some events: closed idle time, and since when the current idle period runs. */
  datatype Idle = Idle(ms: int, inIdle: bool, since: int)

  function IdleStep(s: Idle, e: Raw): Idle {
    if e.data.IdleDetected? && !s.inIdle then s.(inIdle := true, since := e.timestamp)
    else if e.data.IdleEnded? && s.inIdle then s.(inIdle := false, ms := s.ms + (e.timestamp - s.since))
    else s
  }

  function IdleFold(evs: seq<Classified>): Idle {
    if evs == [] then Idle(0, false, 0) else IdleStep(IdleFold(evs[..|evs| - 1]), evs[|evs| - 1].event)
  }

  /** Closed idle time, and what is still open counted from the window's start at the earliest to its end. */
  function IdleMs(start: int, end: int, evs: seq<Classified>): int {
    var s := IdleFold(evs);
    s.ms + (if s.inIdle then end - (if s.since < start then start else s.since) else 0)
  }

  /** The record of a window. */
  function MetricsOf(start: int, end: int, evs: seq<Classified>): Metrics {
    Metrics(
      start, end,
      SumFocus(evs) as real / 60000.0,
      Count(evs, IsSwitch),
      IdleMs(start, end, evs) as real / 60000.0,
      ProductiveApps(evs),
      Count(evs, IsDistraction),
      Count(evs, IsCommit),
      Count(evs, IsTerminal),
      |evs|)
  }

  lemma {:induction false} FocusAdds(a: seq<Classified>, b: seq<Classified>)
    ensures SumFocus(a + b) == SumFocus(a) + SumFocus(b)
    decreases |b|
  {
    if b == [] {
      assert a + b == a;
    } else {
      var n := |b| - 1;
      FocusAdds(a, b[..n]);
      assert (a + b)[..|a| + n] == a + b[..n] && (a + b)[|a| + n] == b[n];
    }
  }

  lemma OneBetween(a: seq<Classified>, x: Classified, b: seq<Classified>)
    ensures SumFocus(a + [x] + b) == SumFocus(a + b) + FocusMs(x.event)
  {
    FocusAdds(a + [x], b);
    FocusAdds(a, b);
    assert (a + [x])[..|a|] == a;
  }

  /** One more switch adds the time it reports, unless that is negative, and no other event adds any, wherever it
      stands among the others. */
  lemma FocusMeans(start: int, end: int, evs: seq<Classified>, k: nat)
    requires k < |evs|
    ensures MetricsOf(start, end, []).totalFocusMinutes == 0.0
    ensures MetricsOf(start, end, evs).totalFocusMinutes
         == MetricsOf(start, end, evs[..k] + evs[k + 1..]).totalFocusMinutes
            + match evs[k].event.data
              case AppSwitched(_, ms) => if ms < 0 then 0.0 else ms as real / 60000.0
              case _ => 0.0
  {
    OneBetween(evs[..k], evs[k], evs[k + 1..]);
    assert evs == evs[..k] + [evs[k]] + evs[k + 1..];
  }

  /** The counts of a record are numbers of events of a kind. */
  lemma CountsMean(start: int, end: int, evs: seq<Classified>)
    ensures var m := MetricsOf(start, end, evs);
            && m.periodStart == start && m.periodEnd == end && m.eventCount == |evs|
            && m.appSwitches == |set i | 0 <= i < |evs| && evs[i].event.data.AppSwitched?|
            && m.distractionsDetected
               == |set i | 0 <= i < |evs| && evs[i].event.data.AppSwitched? && evs[i].mark.category == Distraction|
            && m.gitCommits == |set i | 0 <= i < |evs| && evs[i].event.data.GitCommit?|
            && m.terminalCommandCount == |set i | 0 <= i < |evs| && evs[i].event.data.TerminalActivity?|
  {
    CountIsSize(evs, IsSwitch, set i | 0 <= i < |evs| && evs[i].event.data.AppSwitched?);
    CountIsSize(evs, IsDistraction,
                set i | 0 <= i < |evs| && evs[i].event.data.AppSwitched? && evs[i].mark.category == Distraction);
    CountIsSize(evs, IsCommit, set i | 0 <= i < |evs| && evs[i].event.data.GitCommit?);
    CountIsSize(evs, IsTerminal, set i | 0 <= i < |evs| && evs[i].event.data.TerminalActivity?);
  }

  lemma {:induction false} IdleCountSplit(evs: seq<Classified>, lo: int, mid: int, hi: int)
    requires lo <= mid <= hi
    ensures IdleCount(evs, lo, hi) == IdleCount(evs, lo, mid) + IdleCount(evs, mid, hi)
    decreases hi - mid
  {
    if mid < hi {
      IdleCountSplit(evs, lo, mid, hi - 1);
    }
  }

  /** Before its time an event has no influence. */
  lemma {:induction false} IdleCountBefore(evs: seq<Classified>, lo: int, hi: int)
    requires evs != [] && hi <= evs[|evs| - 1].event.timestamp
    ensures IdleCount(evs, lo, hi) == IdleCount(evs[..|evs| - 1], lo, hi)
    decreases hi - lo
  {
    if lo < hi {
      IdleCountBefore(evs, lo, hi - 1);
    }
  }

  /** After the last event the state does not change any more. */
  lemma {:induction false} IdleCountAfter(evs: seq<Classified>, lo: int, hi: int)
    requires lo <= hi && forall i | 0 <= i < |evs| :: evs[i].event.timestamp <= lo
    ensures IdleCount(evs, lo, hi) == if IdleFold(evs).inIdle then hi - lo else 0
    decreases hi - lo
  {
    if lo < hi {
      IdleCountAfter(evs, lo, hi - 1);
      IdleAfter(evs, hi - 1);
    }
  }

  lemma {:induction false} IdleAfter(evs: seq<Classified>, t: int)
    requires forall i | 0 <= i < |evs| :: evs[i].event.timestamp <= t
    ensures IdleAt(evs, t) <==> IdleFold(evs).inIdle
  {
    if evs != [] {
      IdleAfter(evs[..|evs| - 1], t);
    }
  }

  /** Closed time plus the open period is the number of idle milliseconds so far, and the open period began in the
      window. */
  lemma {:induction false} FoldIsCount(evs: seq<Classified>, start: int, end: int)
    requires start <= end && InWindow(evs, start, end + 1)
    ensures var s := IdleFold(evs);
            && (s.inIdle ==> start <= s.since <= end)
            && s.ms + (if s.inIdle then end - s.since else 0) == IdleCount(evs, start, end)
    decreases |evs|
  {
    if evs == [] {
      IdleCountAfter(evs, start, end);
    } else {
      var n := |evs| - 1;
      var at := evs[n].event.timestamp;
      FoldIsCount(evs[..n], start, at);
      IdleCountSplit(evs, start, at, end);
      IdleCountBefore(evs, start, at);
      IdleCountAfter(evs, at, end);
    }
  }

  /** On the events of its window the idle time is the number of idle milliseconds,
      so the minutes lie between zero and the window's length. */
  lemma IdleWithinWindow(start: int, end: int, evs: seq<Classified>)
    requires start <= end && InWindow(evs, start, end)
    ensures IdleMs(start, end, evs) == IdleCount(evs, start, end)
    ensures 0.0 <= MetricsOf(start, end, evs).idleMinutes <= (end - start) as real / 60000.0
  {
    FoldIsCount(evs, start, end);
  }

  // ----- idle across a boundary -----

  /** When the first idle event stands, or `end` if there is none before it. */
  function FirstIdle(evs: seq<Classified>, end: int): int {
    if evs == [] then end
    else
      var first, e := FirstIdle(evs[..|evs| - 1], end), evs[|evs| - 1].event;
      if IsIdleEvent(e) && e.timestamp < first then e.timestamp else first
  }

  /** After the boundary the earlier events decide up to the first later idle event, and not beyond. */
  lemma {:induction false} IdleAtJoined(before: seq<Classified>, after: seq<Classified>, end: int, t: int)
    requires t < end && forall i | 0 <= i < |before| :: before[i].event.timestamp <= t
    ensures IdleAt(before + after, t)
         == if FirstIdle(after, end) <= t then IdleAt(after, t) else IdleFold(before).inIdle
    ensures t < FirstIdle(after, end) ==> !IdleAt(after, t)
    decreases |after|
  {
    if after == [] {
      assert before + after == before;
      IdleAfter(before, t);
    } else {
      var n := |after| - 1;
      IdleAtJoined(before, after[..n], end, t);
      assert (before + after)[..|before| + n] == before + after[..n];
    }
  }

  lemma {:induction false} FirstIdleBounds(after: seq<Classified>, b: int, end: int)
    requires b <= end && forall i | 0 <= i < |after| :: b <= after[i].event.timestamp
    ensures b <= FirstIdle(after, end) <= end
  {
    if after != [] {
      FirstIdleBounds(after[..|after| - 1], b, end);
    }
  }

  lemma {:induction false} IdleCountJoined(before: seq<Classified>, after: seq<Classified>, b: int, hi: int, end: int)
    requires b <= hi <= end && forall i | 0 <= i < |before| :: before[i].event.timestamp <= b
    requires b <= FirstIdle(after, end)
    ensures var first := FirstIdle(after, end);
            IdleCount(before + after, b, hi)
            == IdleCount(after, b, hi) + (if IdleFold(before).inIdle then (if hi < first then hi else first) - b else 0)
    decreases hi - b
  {
    if b < hi {
      IdleCountJoined(before, after, b, hi - 1, end);
      IdleAtJoined(before, after, end, hi - 1);
    }
  }

  /** What a window misses: of an idle period that began before its start, the time up to its first idle event.
      Its minutes are those of the whole stream if and only if the stream came in not idle, or an idle event
      stands at the very start. */
  lemma IdleCutOff(before: seq<Classified>, after: seq<Classified>, b: int, end: int)
    requires b < end && InWindow(after, b, end) && forall i | 0 <= i < |before| :: before[i].event.timestamp <= b
    ensures IdleCount(before + after, b, end)
         == IdleMs(b, end, after) + (if IdleFold(before).inIdle then FirstIdle(after, end) - b else 0)
    ensures IdleMs(b, end, after) == IdleCount(before + after, b, end)
       <==> !IdleFold(before).inIdle || FirstIdle(after, end) == b
  {
    FirstIdleBounds(after, b, end);
    IdleCountJoined(before, after, b, end, end);
    IdleWithinWindow(b, end, after);
  }

  // ----- the loop -----

  /** The effect of one more event on everything that is accumulated. */
  lemma OneMore(evs: seq<Classified>, i: nat)
    requires i < |evs|
    ensures SumFocus(evs[..i + 1]) == SumFocus(evs[..i]) + FocusMs(evs[i].event)
    ensures ProductiveApps(evs[..i + 1])
         == if NamesProductiveApp(evs[i]) && evs[i].event.data.toApp !in ProductiveApps(evs[..i])
            then ProductiveApps(evs[..i]) + [evs[i].event.data.toApp] else ProductiveApps(evs[..i])
    ensures Count(evs[..i + 1], IsSwitch) == Count(evs[..i], IsSwitch) + (if IsSwitch(evs[i]) then 1 else 0)
    ensures Count(evs[..i + 1], IsDistraction)
         == Count(evs[..i], IsDistraction) + (if IsDistraction(evs[i]) then 1 else 0)
    ensures Count(evs[..i + 1], IsCommit) == Count(evs[..i], IsCommit) + (if IsCommit(evs[i]) then 1 else 0)
    ensures Count(evs[..i + 1], IsTerminal) == Count(evs[..i], IsTerminal) + (if IsTerminal(evs[i]) then 1 else 0)
  {
    assert evs[..i + 1][..i] == evs[..i];
  }

  lemma OneMoreIdle(evs: seq<Classified>, i: nat)
    requires i < |evs|
    ensures IdleFold(evs[..i + 1]) == IdleStep(IdleFold(evs[..i]), evs[i].event)
  {
    assert evs[..i + 1][..i] == evs[..i];
  }

  method ComputeMetrics(start: int, end: int, evs: seq<Classified>) returns (m: Metrics)
    ensures m == MetricsOf(start, end, evs)
  {
    m := Metrics(start, end, 0.0, 0, 0.0, [], 0, 0, 0, |evs|);
    var idleMs, idleStart, inIdle := 0, 0, false;
    for i := 0 to |evs|
      invariant m == Metrics(start, end, SumFocus(evs[..i]) as real / 60000.0, Count(evs[..i], IsSwitch), 0.0,
                             ProductiveApps(evs[..i]), Count(evs[..i], IsDistraction), Count(evs[..i], IsCommit),
                             Count(evs[..i], IsTerminal), |evs|)
      invariant Idle(idleMs, inIdle, idleStart) == IdleFold(evs[..i])
    {
      OneMore(evs, i);
      OneMoreIdle(evs, i);
      var e := evs[i].event;
      match e.data {
        case AppSwitched(toApp, focusMs) =>
          m := m.(appSwitches := m.appSwitches + 1);
          if evs[i].mark.isProductive && toApp != "" {
            if toApp !in m.productiveAppsActive {
              m := m.(productiveAppsActive := m.productiveAppsActive + [toApp]);
            }
          }
          if evs[i].mark.category.Distraction? {
            m := m.(distractionsDetected := m.distractionsDetected + 1);
          }
          if focusMs > 0 {
            m := m.(totalFocusMinutes := m.totalFocusMinutes + focusMs as real / 60000.0);
          }
        case IdleDetected =>
          if !inIdle {
            inIdle := true;
            idleStart := e.timestamp;
          }
        case IdleEnded =>
          if inIdle {
            inIdle := false;
            idleMs := idleMs + (e.timestamp - idleStart);
          }
        case GitCommit => m := m.(gitCommits := m.gitCommits + 1);
        case TerminalActivity => m := m.(terminalCommandCount := m.terminalCommandCount + 1);
      }
    }
    assert evs[..|evs|] == evs;
    if inIdle {
      if idleStart < start {
        idleStart := start;
      }
      idleMs := idleMs + (end - idleStart);
    }
    m := m.(idleMinutes := idleMs as real / 60000.0);
  }
}
