/**
 * The persistence store of database.py: three append-only tables
 * (sent_emails, monitored_emails, notification_rules), each with an
 * AUTOINCREMENT id, and the queries the rest of the system runs on them.
 *
 * The tables are first described as a value (`Tables`) with one function per
 * statement; the class `EmailDatabase` holds the same tables as fields and
 * its methods are proved to perform exactly those statements. Timestamps
 * (CURRENT_TIMESTAMP columns) are opaque and not represented.
 */
module Store {
  import opened Wrappers

  /** A row of sent_emails. */
  datatype SentRecord = SentRecord(
    id: nat, recipient: string, subject: string, status: string, errorMessage: Option<string>)

  /** A row of monitored_emails. */
  datatype MonitoredRecord = MonitoredRecord(
    id: nat, sender: string, subject: string, bodyPreview: Option<string>, notificationSent: bool)

  /** A row of notification_rules. */
  datatype RuleRecord = RuleRecord(
    id: nat, ruleName: string,
    senderFilter: Option<string>, subjectFilter: Option<string>, keywordFilter: Option<string>,
    enabled: bool)

  /** A row returned by get_active_rules: (id, rule_name, sender_filter, subject_filter, keyword_filter). */
  datatype Rule = Rule(
    id: nat, name: string,
    senderFilter: Option<string>, subjectFilter: Option<string>, keywordFilter: Option<string>)

  /** The dictionary returned by get_email_stats. */
  datatype EmailStats = EmailStats(sent: nat, failed: nat, monitored: nat)

  /**
   * The three tables, with the largest id each AUTOINCREMENT sequence has
   * handed out (SQLite's sqlite_sequence); the next insert gets that plus one.
   */
  datatype Tables = Tables(
    sentEmails: seq<SentRecord>,
    monitoredEmails: seq<MonitoredRecord>,
    notificationRules: seq<RuleRecord>,
    lastSentId: nat, lastMonitoredId: nat, lastRuleId: nat)

  /** The tables of a newly created database file. */
  const EmptyTables := Tables([], [], [], 0, 0, 0)

  /** Positive ids, strictly increasing in row order, none above the sequence value. */
  predicate IdsIncreasing(ids: seq<nat>, last: nat)
  {
    (forall i :: 0 <= i < |ids| ==> 0 < ids[i] <= last) &&
    (forall i, j :: 0 <= i < j < |ids| ==> ids[i] < ids[j])
  }

  function SentIds(rows: seq<SentRecord>): seq<nat>
  {
    seq(|rows|, i requires 0 <= i < |rows| => rows[i].id)
  }

  function MonitoredIds(rows: seq<MonitoredRecord>): seq<nat>
  {
    seq(|rows|, i requires 0 <= i < |rows| => rows[i].id)
  }

  function RuleIds(rows: seq<RuleRecord>): seq<nat>
  {
    seq(|rows|, i requires 0 <= i < |rows| => rows[i].id)
  }

  /** What AUTOINCREMENT guarantees of every table. */
  predicate WellFormed(t: Tables)
  {
    IdsIncreasing(SentIds(t.sentEmails), t.lastSentId) &&
    IdsIncreasing(MonitoredIds(t.monitoredEmails), t.lastMonitoredId) &&
    IdsIncreasing(RuleIds(t.notificationRules), t.lastRuleId)
  }

  /** The statements the store executes, with the arguments its methods pass. */
  datatype StoreOp =
    | LogSent(recipient: string, subject: string, status: string, errorMessage: Option<string>)
    | LogMonitored(sender: string, subject: string, bodyPreview: Option<string>)
    | MarkNotificationSent(emailId: int)
    | AddRule(ruleName: string, senderFilter: Option<string>, subjectFilter: Option<string>, keywordFilter: Option<string>)

  /** UPDATE monitored_emails SET notification_sent = 1 WHERE id = emailId. */
  function SetNotificationSent(rows: seq<MonitoredRecord>, emailId: int): seq<MonitoredRecord>
  {
    seq(|rows|, i requires 0 <= i < |rows| =>
      if rows[i].id == emailId then rows[i].(notificationSent := true) else rows[i])
  }

  /** The tables after one statement. */
  function Apply(t: Tables, op: StoreOp): Tables
  {
    match op
    case LogSent(recipient, subject, status, errorMessage) =>
      t.(sentEmails := t.sentEmails + [SentRecord(t.lastSentId + 1, recipient, subject, status, errorMessage)],
         lastSentId := t.lastSentId + 1)
    case LogMonitored(sender, subject, bodyPreview) =>
      t.(monitoredEmails := t.monitoredEmails + [MonitoredRecord(t.lastMonitoredId + 1, sender, subject, bodyPreview, false)],
         lastMonitoredId := t.lastMonitoredId + 1)
    case MarkNotificationSent(emailId) =>
      t.(monitoredEmails := SetNotificationSent(t.monitoredEmails, emailId))
    case AddRule(ruleName, senderFilter, subjectFilter, keywordFilter) =>
      t.(notificationRules := t.notificationRules + [RuleRecord(t.lastRuleId + 1, ruleName, senderFilter, subjectFilter, keywordFilter, true)],
         lastRuleId := t.lastRuleId + 1)
  }

  /** The tables after a sequence of statements, in order. */
  function ApplyAll(t: Tables, ops: seq<StoreOp>): Tables
    decreases ops
  {
    if ops == [] then t else ApplyAll(Apply(t, ops[0]), ops[1..])
  }

  /** Every statement keeps the AUTOINCREMENT guarantees. */
  lemma ApplyKeepsWellFormed(t: Tables, op: StoreOp)
    requires WellFormed(t)
    ensures WellFormed(Apply(t, op))
  {
    var u := Apply(t, op);
    if op.MarkNotificationSent? {
      assert MonitoredIds(u.monitoredEmails) == MonitoredIds(t.monitoredEmails);
    } else if op.LogSent? {
      assert SentIds(u.sentEmails) == SentIds(t.sentEmails) + [u.lastSentId];
    } else if op.LogMonitored? {
      assert MonitoredIds(u.monitoredEmails) == MonitoredIds(t.monitoredEmails) + [u.lastMonitoredId];
    } else {
      assert RuleIds(u.notificationRules) == RuleIds(t.notificationRules) + [u.lastRuleId];
    }
  }

  /**
   * log_sent_email appends exactly one row carrying its arguments, under an
   * id that is positive and larger than every id already in the table, and
   * leaves the other tables alone.
   */
  lemma LogSentAppendsOne(t: Tables, recipient: string, subject: string, status: string, errorMessage: Option<string>)
    requires WellFormed(t)
    ensures var u := Apply(t, LogSent(recipient, subject, status, errorMessage));
      var id := u.lastSentId;
      && id > 0
      && (forall r :: r in t.sentEmails ==> r.id < id)
      && u.sentEmails == t.sentEmails + [SentRecord(id, recipient, subject, status, errorMessage)]
      && u.monitoredEmails == t.monitoredEmails && u.notificationRules == t.notificationRules
  {
    forall r | r in t.sentEmails ensures r.id < t.lastSentId + 1 {
      var i :| 0 <= i < |t.sentEmails| && t.sentEmails[i] == r;
      assert SentIds(t.sentEmails)[i] == r.id;
    }
  }

  /**
   * log_monitored_email appends one row whose notification_sent is false,
   * under a fresh positive id.
   */
  lemma LogMonitoredAppendsOne(t: Tables, sender: string, subject: string, bodyPreview: Option<string>)
    requires WellFormed(t)
    ensures var u := Apply(t, LogMonitored(sender, subject, bodyPreview));
      var id := u.lastMonitoredId;
      && id > 0
      && (forall r :: r in t.monitoredEmails ==> r.id < id)
      && u.monitoredEmails == t.monitoredEmails + [MonitoredRecord(id, sender, subject, bodyPreview, false)]
      && !u.monitoredEmails[|u.monitoredEmails| - 1].notificationSent
      && u.sentEmails == t.sentEmails && u.notificationRules == t.notificationRules
  {
    forall r | r in t.monitoredEmails ensures r.id < t.lastMonitoredId + 1 {
      var i :| 0 <= i < |t.monitoredEmails| && t.monitoredEmails[i] == r;
      assert MonitoredIds(t.monitoredEmails)[i] == r.id;
    }
  }

  /** add_notification_rule appends one enabled rule under a fresh positive id. */
  lemma AddRuleAppendsOne(t: Tables, ruleName: string, senderFilter: Option<string>, subjectFilter: Option<string>, keywordFilter: Option<string>)
    requires WellFormed(t)
    ensures var u := Apply(t, AddRule(ruleName, senderFilter, subjectFilter, keywordFilter));
      var id := u.lastRuleId;
      && id > 0
      && (forall r :: r in t.notificationRules ==> r.id < id)
      && u.notificationRules == t.notificationRules + [RuleRecord(id, ruleName, senderFilter, subjectFilter, keywordFilter, true)]
      && u.sentEmails == t.sentEmails && u.monitoredEmails == t.monitoredEmails
  {
    forall r | r in t.notificationRules ensures r.id < t.lastRuleId + 1 {
      var i :| 0 <= i < |t.notificationRules| && t.notificationRules[i] == r;
      assert RuleIds(t.notificationRules)[i] == r.id;
    }
  }

  /**
   * mark_notification_sent sets the flag on the row with that id and changes
   * no other row, no other field and no other table.
   */
  lemma MarkSetsOnlyTarget(t: Tables, emailId: int)
    ensures var u := Apply(t, MarkNotificationSent(emailId));
      && |u.monitoredEmails| == |t.monitoredEmails|
      && (forall i :: 0 <= i < |t.monitoredEmails| && t.monitoredEmails[i].id == emailId ==>
            u.monitoredEmails[i] == t.monitoredEmails[i].(notificationSent := true))
      && (forall i :: 0 <= i < |t.monitoredEmails| && t.monitoredEmails[i].id != emailId ==>
            u.monitoredEmails[i] == t.monitoredEmails[i])
      && u.sentEmails == t.sentEmails && u.notificationRules == t.notificationRules
      && u.lastSentId == t.lastSentId && u.lastMonitoredId == t.lastMonitoredId && u.lastRuleId == t.lastRuleId
  {
  }

  /** Marking the same id twice leaves the same tables as marking it once. */
  lemma MarkIdempotent(t: Tables, emailId: int)
    ensures var once := Apply(t, MarkNotificationSent(emailId));
      Apply(once, MarkNotificationSent(emailId)) == once
  {
    var once := Apply(t, MarkNotificationSent(emailId));
    assert SetNotificationSent(once.monitoredEmails, emailId) == once.monitoredEmails;
  }

  /** Marking an id that no row carries changes nothing. */
  lemma MarkUnknownIdChangesNothing(t: Tables, emailId: int)
    requires forall r :: r in t.monitoredEmails ==> r.id != emailId
    ensures Apply(t, MarkNotificationSent(emailId)) == t
  {
    assert SetNotificationSent(t.monitoredEmails, emailId) == t.monitoredEmails;
  }

  /** SELECT ... FROM notification_rules WHERE enabled = 1, projected to a `Rule`. */
  function Project(row: RuleRecord): Rule
  {
    Rule(row.id, row.ruleName, row.senderFilter, row.subjectFilter, row.keywordFilter)
  }

  /**
   * get_active_rules: the enabled rows, projected, in table order. (The
   * query has no ORDER BY; table order is the order SQLite returns for a
   * plain scan of an AUTOINCREMENT table.)
   */
  function ActiveRules(rows: seq<RuleRecord>): (active: seq<Rule>)
    ensures |active| <= |rows|
  {
    if rows == [] then []
    else
      var init := ActiveRules(rows[..|rows| - 1]);
      var last := rows[|rows| - 1];
      if last.enabled then init + [Project(last)] else init
  }

  /**
   * A rule is returned exactly when it is the projection of an enabled row:
   * every enabled rule, and nothing else.
   */
  lemma {:induction false} ActiveRulesIff(rows: seq<RuleRecord>, rule: Rule)
    ensures rule in ActiveRules(rows) <==>
      exists i :: 0 <= i < |rows| && rows[i].enabled && Project(rows[i]) == rule
  {
    if rows != [] {
      var init := rows[..|rows| - 1];
      ActiveRulesIff(init, rule);
      if i :| 0 <= i < |init| && init[i].enabled && Project(init[i]) == rule {
        assert rows[i] == init[i];
      }
      if i :| 0 <= i < |rows| - 1 && rows[i].enabled && Project(rows[i]) == rule {
        assert init[i] == rows[i];
      }
    }
  }

  /** When every rule is enabled, get_active_rules returns every row, in order. */
  lemma {:induction false} AllEnabledAllActive(rows: seq<RuleRecord>)
    requires forall i :: 0 <= i < |rows| ==> rows[i].enabled
    ensures |ActiveRules(rows)| == |rows|
    ensures forall i :: 0 <= i < |rows| ==> ActiveRules(rows)[i] == Project(rows[i])
  {
    if rows != [] {
      var init := rows[..|rows| - 1];
      forall i | 0 <= i < |init| ensures init[i].enabled {
        assert init[i] == rows[i];
      }
      AllEnabledAllActive(init);
      var active := ActiveRules(rows);
      assert active == ActiveRules(init) + [Project(rows[|rows| - 1])];
      forall i | 0 <= i < |rows| ensures active[i] == Project(rows[i]) {
        if i < |init| {
          assert active[i] == ActiveRules(init)[i] == Project(init[i]);
        }
      }
    }
  }

  /** The status column of every row, in order. */
  function Statuses(rows: seq<SentRecord>): seq<string>
  {
    seq(|rows|, i requires 0 <= i < |rows| => rows[i].status)
  }

  /** SELECT COUNT(*) FROM sent_emails WHERE status = `status`. */
  function CountStatus(rows: seq<SentRecord>, status: string): (n: nat)
    ensures n == multiset(Statuses(rows))[status]
    ensures n <= |rows|
  {
    if rows == [] then 0
    else
      var init := rows[..|rows| - 1];
      assert Statuses(rows) == Statuses(init) + [rows[|rows| - 1].status];
      CountStatus(init, status) + if rows[|rows| - 1].status == status then 1 else 0
  }

  /** get_email_stats. */
  function Stats(t: Tables): EmailStats
  {
    EmailStats(CountStatus(t.sentEmails, "sent"), CountStatus(t.sentEmails, "failed"), |t.monitoredEmails|)
  }

  /** A status count over a prefix of the table is at most the count over the table. */
  lemma CountOfPrefix(rows: seq<SentRecord>, k: nat, status: string)
    requires k <= |rows|
    ensures CountStatus(rows[..k], status) <= CountStatus(rows, status)
  {
    assert Statuses(rows) == Statuses(rows[..k]) + Statuses(rows[k..]);
  }

  /** A monitored row whose only possible change is notification_sent going from false to true. */
  predicate FlagOnlyRaised(before: MonitoredRecord, after: MonitoredRecord)
  {
    after.(notificationSent := before.notificationSent) == before &&
    (before.notificationSent ==> after.notificationSent)
  }

  /**
   * `u` is `t` plus appended rows, with some notification_sent flags raised:
   * no row is removed or rewritten, and no flag goes back to false.
   */
  predicate Extends(t: Tables, u: Tables)
  {
    |t.sentEmails| <= |u.sentEmails| && u.sentEmails[..|t.sentEmails|] == t.sentEmails &&
    |t.notificationRules| <= |u.notificationRules| && u.notificationRules[..|t.notificationRules|] == t.notificationRules &&
    |t.monitoredEmails| <= |u.monitoredEmails| &&
    (forall i :: 0 <= i < |t.monitoredEmails| ==> FlagOnlyRaised(t.monitoredEmails[i], u.monitoredEmails[i]))
  }

  lemma ExtendsReflexive(t: Tables)
    ensures Extends(t, t)
  {
    assert t.sentEmails[..|t.sentEmails|] == t.sentEmails;
    assert t.notificationRules[..|t.notificationRules|] == t.notificationRules;
  }

  lemma ExtendsTransitive(t: Tables, u: Tables, v: Tables)
    requires Extends(t, u) && Extends(u, v)
    ensures Extends(t, v)
  {
    assert v.sentEmails[..|t.sentEmails|] == v.sentEmails[..|u.sentEmails|][..|t.sentEmails|];
    assert v.notificationRules[..|t.notificationRules|] == v.notificationRules[..|u.notificationRules|][..|t.notificationRules|];
  }

  /** Every statement only appends rows or raises notification flags. */
  lemma ApplyExtends(t: Tables, op: StoreOp)
    ensures Extends(t, Apply(t, op))
  {
    var u := Apply(t, op);
    assert u.sentEmails[..|t.sentEmails|] == t.sentEmails;
    assert u.notificationRules[..|t.notificationRules|] == t.notificationRules;
  }

  /** Over any sequence of statements, no row is deleted and no flag is cleared. */
  lemma {:induction false} ApplyAllExtends(t: Tables, ops: seq<StoreOp>)
    ensures Extends(t, ApplyAll(t, ops))
    decreases ops
  {
    if ops == [] {
      ExtendsReflexive(t);
    } else {
      ApplyExtends(t, ops[0]);
      ApplyAllExtends(Apply(t, ops[0]), ops[1..]);
      ExtendsTransitive(t, Apply(t, ops[0]), ApplyAll(t, ops));
    }
  }

  /** No statistic decreases when the tables grow. */
  lemma StatsMonotone(t: Tables, u: Tables)
    requires Extends(t, u)
    ensures Stats(t).sent <= Stats(u).sent
    ensures Stats(t).failed <= Stats(u).failed
    ensures Stats(t).monitored <= Stats(u).monitored
  {
    CountOfPrefix(u.sentEmails, |t.sentEmails|, "sent");
    CountOfPrefix(u.sentEmails, |t.sentEmails|, "failed");
  }

  /** No sequence of store operations makes any count of get_email_stats decrease. */
  lemma StatsNeverDecrease(t: Tables, ops: seq<StoreOp>)
    ensures Stats(t).sent <= Stats(ApplyAll(t, ops)).sent
    ensures Stats(t).failed <= Stats(ApplyAll(t, ops)).failed
    ensures Stats(t).monitored <= Stats(ApplyAll(t, ops)).monitored
  {
    ApplyAllExtends(t, ops);
    StatsMonotone(t, ApplyAll(t, ops));
  }

  /** The EmailDatabase object: the three tables as fields updated in place. */
  class EmailDatabase {
    var sentEmails: seq<SentRecord>
    var monitoredEmails: seq<MonitoredRecord>
    var notificationRules: seq<RuleRecord>
    var lastSentId: nat
    var lastMonitoredId: nat
    var lastRuleId: nat

    function State(): Tables
      reads this
    {
      Tables(sentEmails, monitoredEmails, notificationRules, lastSentId, lastMonitoredId, lastRuleId)
    }

    ghost predicate Valid()
      reads this
    {
      WellFormed(State())
    }

    /** A store over a newly created file: init_database creates three empty tables. */
    constructor ()
      ensures Valid() && State() == EmptyTables
    {
      sentEmails, monitoredEmails, notificationRules := [], [], [];
      lastSentId, lastMonitoredId, lastRuleId := 0, 0, 0;
    }

    method LogSentEmail(recipient: string, subject: string, status: string := "sent", errorMessage: Option<string> := None)
      returns (emailId: nat)
      requires Valid()
      modifies this
      ensures Valid()
      ensures State() == Apply(old(State()), LogSent(recipient, subject, status, errorMessage))
      ensures emailId == lastSentId && emailId > 0
      ensures forall r :: r in old(sentEmails) ==> r.id < emailId
    {
      ApplyKeepsWellFormed(State(), LogSent(recipient, subject, status, errorMessage));
      LogSentAppendsOne(State(), recipient, subject, status, errorMessage);
      lastSentId := lastSentId + 1;
      emailId := lastSentId;
      sentEmails := sentEmails + [SentRecord(emailId, recipient, subject, status, errorMessage)];
    }

    method LogMonitoredEmail(sender: string, subject: string, bodyPreview: Option<string> := None)
      returns (emailId: nat)
      requires Valid()
      modifies this
      ensures Valid()
      ensures State() == Apply(old(State()), LogMonitored(sender, subject, bodyPreview))
      ensures emailId == lastMonitoredId && emailId > 0
      ensures forall r :: r in old(monitoredEmails) ==> r.id < emailId
    {
      ApplyKeepsWellFormed(State(), LogMonitored(sender, subject, bodyPreview));
      LogMonitoredAppendsOne(State(), sender, subject, bodyPreview);
      lastMonitoredId := lastMonitoredId + 1;
      emailId := lastMonitoredId;
      monitoredEmails := monitoredEmails + [MonitoredRecord(emailId, sender, subject, bodyPreview, false)];
    }

    method MarkNotificationSent(emailId: int)
      requires Valid()
      modifies this
      ensures Valid()
      ensures State() == Apply(old(State()), StoreOp.MarkNotificationSent(emailId))
    {
      ApplyKeepsWellFormed(State(), StoreOp.MarkNotificationSent(emailId));
      monitoredEmails := SetNotificationSent(monitoredEmails, emailId);
    }

    method AddNotificationRule(ruleName: string, senderFilter: Option<string> := None,
                               subjectFilter: Option<string> := None, keywordFilter: Option<string> := None)
      returns (ruleId: nat)
      requires Valid()
      modifies this
      ensures Valid()
      ensures State() == Apply(old(State()), AddRule(ruleName, senderFilter, subjectFilter, keywordFilter))
      ensures ruleId == lastRuleId && ruleId > 0
      ensures forall r :: r in old(notificationRules) ==> r.id < ruleId
    {
      ApplyKeepsWellFormed(State(), AddRule(ruleName, senderFilter, subjectFilter, keywordFilter));
      AddRuleAppendsOne(State(), ruleName, senderFilter, subjectFilter, keywordFilter);
      lastRuleId := lastRuleId + 1;
      ruleId := lastRuleId;
      notificationRules := notificationRules + [RuleRecord(ruleId, ruleName, senderFilter, subjectFilter, keywordFilter, true)];
    }

    method GetActiveRules() returns (rules: seq<Rule>)
      requires Valid()
      ensures rules == ActiveRules(notificationRules)
    {
      rules := ActiveRules(notificationRules);
    }

    method GetEmailStats() returns (stats: EmailStats)
      requires Valid()
      ensures stats == Stats(State())
    {
      stats := Stats(State());
    }
  }
}
