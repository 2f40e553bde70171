/** Consequences and the saturating reputation score. */
module Consequences {
  import opened Options
  import opened Schema

  function ResolveTemplate(trigger: string, severity: Severity): Option<Charge> {
    if trigger == "round_failed" then
      match severity
      case Low => Some(Charge(StreakBreak, Low, "Round failed \U{2014} streak reset.", -5))
      case Medium => Some(Charge(ReputationPenalty, Medium, "Round failed with multiple violations.", -15))
      case High => Some(Charge(RecoveryRequired, High, "Repeat failure \U{2014} recovery round required.", -30))
      case Extreme => Some(Charge(CooldownImposed, Extreme, "24-hour cooldown enforced.", -50))
    else if trigger == "distraction_threshold" then
      match severity
      case Low => Some(Charge(ReputationPenalty, Low, "Distraction threshold crossed.", -3))
      case Medium => Some(Charge(ReputationPenalty, Medium, "Sustained distractions detected.", -10))
      case High => Some(Charge(DifficultyReset, High, "Excessive distractions \U{2014} difficulty reset.", -20))
      case Extreme => Some(Charge(CooldownImposed, Extreme, "Cooldown imposed for sustained distraction.", -40))
    else None
  }

  function Max0(x: int): int { if x < 0 then 0 else x }

  /** Stores the consequence, charges the user if they exist, and logs it. */
  function Issue(s: Sys, userId: Id, roundId: Option<Id>, charge: Charge, metadata: map<string, string>,
                 now: Time): Sys
  {
    s.(consequences := s.consequences + [Consequence(userId, roundId, charge, metadata, now)],
       users := if charge.reputationDelta != 0 && userId in s.users
                then s.users[userId := Max0(s.users[userId] + charge.reputationDelta)] else s.users,
       log := s.log + Stamped(userId, roundId, [ConsequenceIssued(|s.consequences|, charge)], now))
  }

  // ----- the score from the log -----

  /** The deltas of a user's consequence events, oldest first. */
  function Deltas(log: seq<Event>, userId: Id): seq<int> {
    if log == [] then []
    else
      var e := log[|log| - 1];
      Deltas(log[..|log| - 1], userId)
      + (if e.userId == userId && e.kind.ConsequenceIssued? then [e.kind.charge.reputationDelta] else [])
  }

  /** Adding deltas one by one, never going below zero. */
  function Saturate(start: int, ds: seq<int>): int {
    if ds == [] then start else Max0(Saturate(start, ds[..|ds| - 1]) + ds[|ds| - 1])
  }

  /** The plain running sum. */
  function Sum(start: int, ds: seq<int>): int {
    if ds == [] then start else Sum(start, ds[..|ds| - 1]) + ds[|ds| - 1]
  }

  /** The lowest the plain running sum has been, from the start score on. */
  function Lowest(start: int, ds: seq<int>): (low: int)
    ensures low <= Sum(start, ds)
  {
    if ds == [] then start
    else
      var low, now := Lowest(start, ds[..|ds| - 1]), Sum(start, ds);
      if now < low then now else low
  }

  /** The lowest running sum is that of some prefix. */
  lemma {:induction false} LowestAttained(start: int, ds: seq<int>) returns (k: nat)
    ensures k <= |ds| && Lowest(start, ds) == Sum(start, ds[..k])
  {
    k := |ds|;
    assert ds[..k] == ds;
    if ds != [] && Lowest(start, ds) != Sum(start, ds) {
      k := LowestAttained(start, ds[..|ds| - 1]);
      assert ds[..|ds| - 1][..k] == ds[..k];
    }
  }

  /** And no prefix has a lower one. */
  lemma {:induction false} LowestBelow(start: int, ds: seq<int>, k: nat)
    requires k <= |ds|
    ensures Lowest(start, ds) <= Sum(start, ds[..k])
  {
    if k == |ds| {
      assert ds[..k] == ds;
    } else {
      LowestBelow(start, ds[..|ds| - 1], k);
      assert ds[..|ds| - 1][..k] == ds[..k];
    }
  }

  /** The saturating score in closed form: the plain sum, lifted by how far it ever fell below zero. */
  lemma {:induction false} ClosedForm(start: int, ds: seq<int>)
    requires start >= 0
    ensures Saturate(start, ds) == Sum(start, ds) + Max0(-Lowest(start, ds))
    ensures Saturate(start, ds) >= 0 && Saturate(start, ds) >= Sum(start, ds)
  {
    if ds != [] {
      ClosedForm(start, ds[..|ds| - 1]);
    }
  }

  /** With penalties only, as in the rule table, the order of issue does not matter at all. */
  lemma {:induction false} PenaltiesOnly(start: int, ds: seq<int>)
    requires start >= 0 && forall i | 0 <= i < |ds| :: ds[i] <= 0
    ensures Saturate(start, ds) == Max0(Sum(start, ds)) && Sum(start, ds) <= start
  {
    if ds != [] {
      PenaltiesOnly(start, ds[..|ds| - 1]);
    }
  }

  /** Only two triggers have templates. Each template carries the severity asked for, and is a cooldown for the gravest
      and for no other. */
  lemma TemplatesExist(trigger: string, severity: Severity)
    ensures ResolveTemplate(trigger, severity).Some?
       <==> trigger == "round_failed" || trigger == "distraction_threshold"
    ensures ResolveTemplate(trigger, severity).Some? ==>
              && ResolveTemplate(trigger, severity).value.severity == severity
              && (ResolveTemplate(trigger, severity).value.consequenceType == CooldownImposed <==> severity == Extreme)
  {
  }

  /** Every template is a penalty, graver with severity, and a failed round costs more than a distraction. */
  lemma TemplatesArePenalties(severity: Severity)
    ensures Penalties("round_failed") == [-5, -15, -30, -50]
    ensures Penalties("distraction_threshold") == [-3, -10, -20, -40]
    ensures Penalty("round_failed", severity) < Penalty("distraction_threshold", severity) < 0
  {
  }

  /** The penalties of a trigger, by growing severity. */
  function Penalties(trigger: string): seq<int> {
    [Penalty(trigger, Low), Penalty(trigger, Medium), Penalty(trigger, High), Penalty(trigger, Extreme)]
  }

  function Penalty(trigger: string, severity: Severity): int {
    var template := ResolveTemplate(trigger, severity);
    if template.Some? then template.value.reputationDelta else 0
  }

  lemma DeltasSnoc(log: seq<Event>, e: Event, userId: Id)
    ensures Deltas(log + [e], userId)
         == Deltas(log, userId)
           + (if e.userId == userId && e.kind.ConsequenceIssued? then [e.kind.charge.reputationDelta] else [])
  {
    assert (log + [e])[..|log|] == log;
  }

  lemma {:induction false} DeltasConcat(a: seq<Event>, b: seq<Event>, userId: Id)
    ensures Deltas(a + b, userId) == Deltas(a, userId) + Deltas(b, userId)
    decreases |b|
  {
    if b == [] {
      assert a + b == a;
    } else {
      var n := |b| - 1;
      DeltasConcat(a, b[..n], userId);
      assert (a + b)[..|a| + n] == a + b[..n] && (a + b)[|a| + n] == b[n];
    }
  }

  lemma {:induction false} DeltasMark(log: seq<Event>, i: nat, userId: Id)
    requires i < |log|
    ensures Deltas(log[i := log[i].(isProcessed := true)], userId) == Deltas(log, userId)
  {
    var n := |log| - 1;
    var marked := log[i := log[i].(isProcessed := true)];
    if i < n {
      DeltasMark(log[..n], i, userId);
      assert marked[..n] == log[..n][i := log[..n][i].(isProcessed := true)];
    } else {
      assert marked[..n] == log[..n];
    }
  }

  /** Events of other kinds carry no delta. */
  lemma {:induction false} NoDeltas(es: seq<Event>, userId: Id)
    requires forall e | e in es :: !e.kind.ConsequenceIssued? || e.userId != userId
    ensures Deltas(es, userId) == []
  {
    if es != [] {
      NoDeltas(es[..|es| - 1], userId);
    }
  }

  lemma SaturateSnoc(start: int, ds: seq<int>, d: int)
    ensures Saturate(start, ds + [d]) == Max0(Saturate(start, ds) + d)
  {
    assert (ds + [d])[..|ds|] == ds;
  }

  /** What issuing logs, and how it moves the deltas. */
  lemma IssueLogs(s: Sys, userId: Id, roundId: Option<Id>, charge: Charge, metadata: map<string, string>, now: Time,
                  u: Id)
    ensures var s' := Issue(s, userId, roundId, charge, metadata, now);
            && s'.log == s.log + [Event(userId, roundId, ConsequenceIssued(|s.consequences|, charge), now, false)]
            && Deltas(s'.log, u) == Deltas(s.log, u) + (if userId == u then [charge.reputationDelta] else [])
  {
    var e := Event(userId, roundId, ConsequenceIssued(|s.consequences|, charge), now, false);
    assert Stamped(userId, roundId, [e.kind], now) == [e];
    DeltasSnoc(s.log, e, u);
  }

  /** What issuing does: a row, a log entry that names it, and for a stored user the new score, which stops at zero.
      Every other score and table stays. */
  lemma IssueMeans(s: Sys, userId: Id, roundId: Option<Id>, charge: Charge, metadata: map<string, string>, now: Time)
    requires forall u | u in s.users :: s.users[u] >= 0
    ensures var s' := Issue(s, userId, roundId, charge, metadata, now);
            && s' == s.(users := s'.users,
                        consequences := s.consequences + [Consequence(userId, roundId, charge, metadata, now)],
                        log := s.log + [
                          Event(userId, roundId, ConsequenceIssued(|s.consequences|, charge), now, false)])
            && s'.users.Keys == s.users.Keys
            && forall u | u in s.users ::
                 s'.users[u] == if u != userId then s.users[u]
                                else if s.users[u] + charge.reputationDelta < 0 then 0
                                else s.users[u] + charge.reputationDelta
  {
    IssueLogs(s, userId, roundId, charge, metadata, now, userId);
  }

  lemma IssueCharges(s: Sys, userId: Id, roundId: Option<Id>, charge: Charge, metadata: map<string, string>, now: Time,
                     u: Id)
    requires u in s.users && s.users[u] >= 0
    ensures var s' := Issue(s, userId, roundId, charge, metadata, now);
            && u in s'.users
            && s'.users[u] == if userId == u then Max0(s.users[u] + charge.reputationDelta) else s.users[u]
  {
  }

  /** Issuing keeps the stored score equal to the fold of the user's consequence events. */
  lemma IssueKeepsScore(s: Sys, userId: Id, roundId: Option<Id>, charge: Charge, metadata: map<string, string>,
                        now: Time, u: Id)
    requires u in s.users && s.users[u] == Saturate(0, Deltas(s.log, u))
    ensures var s' := Issue(s, userId, roundId, charge, metadata, now);
            u in s'.users && s'.users[u] == Saturate(0, Deltas(s'.log, u))
  {
    ClosedForm(0, Deltas(s.log, u));
    IssueLogs(s, userId, roundId, charge, metadata, now, u);
    IssueCharges(s, userId, roundId, charge, metadata, now, u);
    if userId == u {
      SaturateSnoc(0, Deltas(s.log, u), charge.reputationDelta);
    } else {
      assert Deltas(s.log, u) + [] == Deltas(s.log, u);
    }
  }

  // ----- the table and the log -----

  /** What a log entry and a row say of the same consequence. */
  datatype Entry = Entry(consequence: Id, userId: Id, roundId: Option<Id>, charge: Charge, at: Time)

  /** The consequence events of a log, oldest first. */
  function Issuings(log: seq<Event>): seq<Entry> {
    if log == [] then []
    else
      var e := log[|log| - 1];
      Issuings(log[..|log| - 1])
      + (if e.kind.ConsequenceIssued?
         then [Entry(e.kind.consequence, e.userId, e.roundId, e.kind.charge, e.occurredAt)] else [])
  }

  /** The rows of the table, each with its id. */
  function Entries(rows: seq<Consequence>): (es: seq<Entry>)
    ensures |es| == |rows|
  {
    if rows == [] then []
    else
      var n := |rows| - 1;
      Entries(rows[..n]) + [Entry(n, rows[n].userId, rows[n].roundId, rows[n].charge, rows[n].issuedAt)]
  }

  /** The deltas of a user's entries. */
  function EntryDeltas(es: seq<Entry>, userId: Id): seq<int> {
    if es == [] then []
    else
      var e := es[|es| - 1];
      EntryDeltas(es[..|es| - 1], userId) + (if e.userId == userId then [e.charge.reputationDelta] else [])
  }

  lemma EntryDeltasSnoc(es: seq<Entry>, e: Entry, userId: Id)
    ensures EntryDeltas(es + [e], userId)
         == EntryDeltas(es, userId) + (if e.userId == userId then [e.charge.reputationDelta] else [])
  {
    assert (es + [e])[..|es|] == es;
  }

  lemma {:induction false} DeltasOfIssuings(log: seq<Event>, userId: Id)
    ensures Deltas(log, userId) == EntryDeltas(Issuings(log), userId)
  {
    if log != [] {
      var front, e := log[..|log| - 1], log[|log| - 1];
      DeltasOfIssuings(front, userId);
      if e.kind.ConsequenceIssued? {
        var entry := Entry(e.kind.consequence, e.userId, e.roundId, e.kind.charge, e.occurredAt);
        EntryDeltasSnoc(Issuings(front), entry, userId);
      } else {
        assert Issuings(front) + [] == Issuings(front) && Deltas(front, userId) + [] == Deltas(front, userId);
      }
    }
  }

  lemma {:induction false} IssuingsConcat(log: seq<Event>, es: seq<Event>)
    requires forall i | 0 <= i < |es| :: !es[i].kind.ConsequenceIssued?
    ensures Issuings(log + es) == Issuings(log)
    decreases |es|
  {
    if es == [] {
      assert log + es == log;
    } else {
      var n := |es| - 1;
      IssuingsConcat(log, es[..n]);
      assert (log + es)[..|log| + n] == log + es[..n];
      assert Issuings(log) + [] == Issuings(log);
    }
  }

  lemma {:induction false} IssuingsMark(log: seq<Event>, i: nat)
    requires i < |log|
    ensures Issuings(log[i := log[i].(isProcessed := true)]) == Issuings(log)
  {
    var n := |log| - 1;
    var marked := log[i := log[i].(isProcessed := true)];
    if i < n {
      IssuingsMark(log[..n], i);
      assert marked[..n] == log[..n][i := log[..n][i].(isProcessed := true)];
    } else {
      assert marked[..n] == log[..n];
    }
  }

  /** Issuing keeps the consequence events of the log in step with the rows of the table. */
  lemma IssueKeepsEntries(s: Sys, userId: Id, roundId: Option<Id>, charge: Charge, metadata: map<string, string>,
                          now: Time)
    requires Issuings(s.log) == Entries(s.consequences)
    ensures var s' := Issue(s, userId, roundId, charge, metadata, now); Issuings(s'.log) == Entries(s'.consequences)
  {
    var s' := Issue(s, userId, roundId, charge, metadata, now);
    IssueLogs(s, userId, roundId, charge, metadata, now, userId);
    assert s'.log[..|s.log|] == s.log && s'.consequences[..|s.consequences|] == s.consequences;
  }

  class ConsequencesService {
    const db: Database

    constructor (db: Database)
      ensures this.db == db
    {
      this.db := db;
    }

    method IssueConsequence(userId: Id, roundId: Option<Id>, charge: Charge, metadata: map<string, string>, now: Time)
      returns (saved: Consequence)
      modifies db
      ensures db.State() == Issue(old(db.State()), userId, roundId, charge, metadata, now)
      ensures saved == Consequence(userId, roundId, charge, metadata, now)
    {
      saved := Consequence(userId, roundId, charge, metadata, now);
      var id := |db.consequences|;
      db.consequences := db.consequences + [saved];
      if charge.reputationDelta != 0 {
        if userId in db.users {
          var score := db.users[userId] + charge.reputationDelta;
          db.users := db.users[userId := if score < 0 then 0 else score];
        }
      }
      db.log := db.log + [Event(userId, roundId, ConsequenceIssued(id, charge), now, false)];
    }

    /** The caller's extra metadata may override the trigger's name. */
    method IssueByTrigger(userId: Id, roundId: Option<Id>, trigger: string, severity: Severity,
                          extras: map<string, string>, now: Time)
      returns (r: Option<Consequence>)
      modifies db
      ensures r.Some? <==> ResolveTemplate(trigger, severity).Some?
      ensures r.None? ==> db.State() == old(db.State())
      ensures r.Some? ==>
                && var charge, metadata := ResolveTemplate(trigger, severity).value, map["trigger" := trigger] + extras;
                && r.value == Consequence(userId, roundId, charge, metadata, now)
                && db.State() == Issue(old(db.State()), userId, roundId, charge, metadata, now)
    {
      var template := ResolveTemplate(trigger, severity);
      if template.None? {
        return None;
      }
      var saved := IssueConsequence(userId, roundId, template.value, map["trigger" := trigger] + extras, now);
      r := Some(saved);
    }
  }
}
