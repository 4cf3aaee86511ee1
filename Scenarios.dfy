/**
 * Concrete runs: the store tests of test_email_system.py, and end-to-end
 * monitoring passes over one unseen message, written as clients of the
 * classes and of the matcher.
 */
module Scenarios {
  import opened Wrappers
  import opened Text
  import opened Store
  import opened Rules
  import opened Monitor

  /** The first row logged in a new store gets id 1. */
  method LogSentEmailTest() returns (emailId: nat)
    ensures emailId == 1
  {
    var db := new EmailDatabase();
    emailId := db.LogSentEmail("test@example.com", "Test Email", "sent");
  }

  /** The first rule added to a new store gets id 1 and is enabled. */
  method AddNotificationRuleTest() returns (ruleId: nat, rules: seq<Rule>)
    ensures ruleId == 1
    ensures rules == [Rule(1, "Test Rule", Some("important@example.com"), Some("urgent"), None)]
  {
    var db := new EmailDatabase();
    ruleId := db.AddNotificationRule("Test Rule", Some("important@example.com"), Some("urgent"));
    rules := db.GetActiveRules();
  }

  /** Two rules added to a new store are both active. */
  method GetActiveRulesTest() returns (rules: seq<Rule>)
    ensures |rules| == 2
    ensures rules[0].name == "Rule 1" && rules[1].name == "Rule 2"
  {
    var db := new EmailDatabase();
    var _ := db.AddNotificationRule("Rule 1", Some("sender1@example.com"));
    var _ := db.AddNotificationRule("Rule 2", subjectFilter := Some("important"));
    AllEnabledAllActive(db.notificationRules);
    rules := db.GetActiveRules();
  }

  /** Two sent and one failed log, no monitored email: stats {2, 1, 0}. */
  method EmailStatsTest() returns (stats: EmailStats)
    ensures stats == EmailStats(2, 1, 0)
  {
    var db := new EmailDatabase();
    var _ := db.LogSentEmail("test1@example.com", "Subject 1", "sent");
    var _ := db.LogSentEmail("test2@example.com", "Subject 2", "sent");
    var _ := db.LogSentEmail("test3@example.com", "Subject 3", "failed");
    assert Statuses(db.sentEmails) == ["sent", "sent", "failed"];
    stats := db.GetEmailStats();
  }

  /** A sender filter and a subject filter must both hold: a mail from alice about "fyi" is not urgent. */
  lemma FiltersAreConjunctive()
    ensures !RuleMatches(Rule(1, "r", Some("alice"), Some("urgent"), None), "alice@x.com", "fyi", "")
  {
  }

  /** Matching ignores case: the filter "urgent" matches the subject "URGENT". */
  lemma MatchingIgnoresCase()
    ensures RuleMatches(Rule(1, "r", None, Some("urgent"), None), "boss@corp.com", "URGENT", "")
  {
    assert Lower("URGENT") == "urgent";
  }

  const Boss := Message(Some(FromHeader("boss@corp.com", true)),
                        Some(SubjectHeader("Urgent: deadline", Some(["Urgent: deadline"]))),
                        "please respond today")

  lemma BossMessageFields()
    ensures DecodeEmailSubject(Boss.subject) == Some("Urgent: deadline")
    ensures GetEmailBody(Boss) == "please respond today"
  {
    var parts := ["Urgent: deadline"];
    assert parts[1..] == [];
    assert Concat(parts) == "Urgent: deadline" + Concat([]);
    assert "Urgent: deadline" + "" == "Urgent: deadline";
    assert DecodeEmailSubject(Boss.subject) == Some(Concat(parts));
  }

  lemma DeadlinesRuleMatchesBoss(t: Tables)
    requires t.notificationRules == [RuleRecord(1, "Deadlines", None, Some("urgent"), None, true)]
    ensures MatchedFor(t, Boss) == ["Deadlines"]
  {
    BossMessageFields();
    var rows := t.notificationRules;
    AllEnabledAllActive(rows);
    var rules := ActiveRules(rows);
    assert rules == [Rule(1, "Deadlines", None, Some("urgent"), None)];
    DeadlinesRuleNamesBoss(rules);
  }

  lemma DeadlinesRuleNamesBoss(rules: seq<Rule>)
    requires rules == [Rule(1, "Deadlines", None, Some("urgent"), None)]
    ensures MatchingRuleNames(rules, "boss@corp.com", "Urgent: deadline", "please respond today") == ["Deadlines"]
  {
    assert Lower("Urgent: deadline")[..6] == "urgent";
    assert RuleMatches(rules[0], "boss@corp.com", "Urgent: deadline", "please respond today");
    assert rules[..0] == [];
  }

  /**
   * One unseen message from boss@corp.com about "Urgent: deadline" and one
   * rule with subject filter "urgent": the message is logged once and
   * flagged, one notification naming the rule is sent, and the pass
   * reports 1.
   */
  method UrgentMessageScenario() returns (processed: nat, monitored: seq<MonitoredRecord>, sent: seq<SentRecord>)
    ensures processed == 1
    ensures monitored == [MonitoredRecord(1, "boss@corp.com", "Urgent: deadline", Some("please respond today"), true)]
    ensures |sent| == 1 && sent[0].subject == "Email Alert: Deadlines" && sent[0].status == "sent"
  {
    var db := new EmailDatabase();
    var _ := db.AddNotificationRule("Deadlines", None, Some("urgent"), None);
    var notifier := Notifier("me@example.com", (to, subject, body) => None);
    var monitor := new EmailMonitor(db, notifier);
    var source := Session(["1"], id => Fetched([Boss]), true);
    ghost var before := PassState(db.State(), {}, 0, false);
    BossMessageFields();
    DeadlinesRuleMatchesBoss(before.tables);
    assert NotificationSubject(["Deadlines"]) == "Email Alert: Deadlines";
    ProcessMessageLogsOnce(before, "1", Boss, notifier);
    ProcessMessageNotifies(before, "1", Boss, notifier);
    ghost var after := ProcessMessage(before, "1", Boss, notifier);
    assert after.tables.monitoredEmails == [MonitoredRecord(1, "boss@corp.com", "Urgent: deadline", Some("please respond today"), true)];
    assert |after.tables.sentEmails| == 1 && after.tables.sentEmails[0].subject == "Email Alert: Deadlines";
    assert after.tables.sentEmails[0].status == "sent";
    assert !after.failed && after.newEmails == 1;
    SingleMessagePass(before.tables, {}, "1", Boss, source.fetch, notifier);
    processed := monitor.MonitorInbox(source);
    monitored := db.monitoredEmails;
    sent := db.sentEmails;
  }

  /** Running the same pass twice: the second pass finds every id processed and reports 0. */
  method RepeatedPassScenario() returns (first: nat, second: nat, stats: EmailStats, sent: seq<SentRecord>)
    ensures first == 1 && second == 0
    ensures stats == EmailStats(0, 0, 1)
    ensures sent == []
  {
    var db := new EmailDatabase();
    var notifier := Notifier("", (to, subject, body) => None);
    var monitor := new EmailMonitor(db, notifier);
    var source := Session(["1"], id => Fetched([Boss]), true);
    ghost var before := PassState(db.State(), {}, 0, false);
    ProcessMessageLogsOnce(before, "1", Boss, notifier);
    SingleMessagePass(before.tables, {}, "1", Boss, source.fetch, notifier);
    SecondPassProcessesNothing(before.tables, {}, ["1"], source.fetch, true, notifier);
    first := monitor.MonitorInbox(source);
    second := monitor.MonitorInbox(source);
    stats := db.GetEmailStats();
    sent := db.sentEmails;
  }

  /** The same inbox with no rules: the message is still logged, nothing is sent, and the pass reports 1. */
  method NoRulesScenario() returns (processed: nat, monitored: seq<MonitoredRecord>, sent: seq<SentRecord>)
    ensures processed == 1
    ensures monitored == [MonitoredRecord(1, "boss@corp.com", "Urgent: deadline", Some("please respond today"), false)]
    ensures sent == []
  {
    var db := new EmailDatabase();
    var notifier := Notifier("me@example.com", (to, subject, body) => None);
    var monitor := new EmailMonitor(db, notifier);
    var source := Session(["1"], id => Fetched([Boss]), true);
    BossMessageFields();
    ProcessMessageLogsOnce(PassState(db.State(), {}, 0, false), "1", Boss, notifier);
    SingleMessagePass(db.State(), {}, "1", Boss, source.fetch, notifier);
    processed := monitor.MonitorInbox(source);
    monitored := db.monitoredEmails;
    sent := db.sentEmails;
  }

  /**
   * A message from boss@corp.com whose subject names a charset Python does
   * not know: the decode raises, the pass reports 0, and nothing is logged
   * or marked as processed.
   */
  method UndecodableSubjectScenario() returns (processed: nat, monitored: seq<MonitoredRecord>, seen: set<MessageId>)
    ensures processed == 0 && monitored == [] && seen == {}
  {
    var db := new EmailDatabase();
    var notifier := Notifier("me@example.com", (to, subject, body) => None);
    var monitor := new EmailMonitor(db, notifier);
    var garbled := Message(Some(FromHeader("boss@corp.com", true)), Some(SubjectHeader("=?unknown-8bit?Q?hi?=", None)), "");
    var source := Session(["1"], id => Fetched([garbled]), true);
    UndecodableSubjectFailsPass(PassState(db.State(), {}, 0, false), "1", garbled, notifier);
    SingleMessagePass(db.State(), {}, "1", garbled, source.fetch, notifier);
    processed := monitor.MonitorInbox(source);
    monitored := db.monitoredEmails;
    seen := monitor.processedEmails;
  }

  /**
   * A message whose From header "José <j@x.com>" arrives as raw UTF-8 bytes
   * and so cannot be bound by sqlite3: the pass reports 0, and nothing is
   * logged or marked as processed.
   */
  method EightBitSenderScenario() returns (processed: nat, monitored: seq<MonitoredRecord>, seen: set<MessageId>)
    ensures processed == 0 && monitored == [] && seen == {}
  {
    var db := new EmailDatabase();
    var notifier := Notifier("me@example.com", (to, subject, body) => None);
    var monitor := new EmailMonitor(db, notifier);
    var raw := Message(Some(FromHeader("Jos\U{e9} <j@x.com>", false)), Some(SubjectHeader("hi", Some(["hi"]))), "");
    var source := Session(["1"], id => Fetched([raw]), true);
    UnbindableSenderFailsPass(PassState(db.State(), {}, 0, false), "1", raw, notifier);
    SingleMessagePass(db.State(), {}, "1", raw, source.fetch, notifier);
    processed := monitor.MonitorInbox(source);
    monitored := db.monitoredEmails;
    seen := monitor.processedEmails;
  }
}
