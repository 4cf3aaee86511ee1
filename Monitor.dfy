/**
 * The inbox monitor of email_monitor.py: subject decoding, the body
 * preview, the notification it composes, and one monitoring pass
 * (monitor_inbox) over the ids the mail server reports as UNSEEN.
 *
 * The IMAP session is an input (`MailSource`): the UNSEEN ids, what FETCH
 * returns for each id, and whether the session closes cleanly. MIME parsing
 * is abstracted to the three values the monitor reads from a message. The
 * SMTP side of send_notification is an input function (`Transport`).
 * One pass is first described as a function (`Pass`); the class
 * `EmailMonitor` runs it step by step and is proved to reach the same state.
 */
module Monitor {
  import opened Wrappers
  import opened Text
  import opened Store
  import opened Rules

  /** An IMAP message sequence number, as the server sends it. */
  type MessageId = string

  /**
   * A Subject header as received, and the pieces decode_header splits it
   * into, each decoded to text; None when decoding raises (a malformed
   * encoded word, or a charset Python does not know).
   */
  datatype SubjectHeader = SubjectHeader(raw: string, decodedParts: Option<seq<string>>)

  /**
   * A From header as msg['from'] returns it: its text, and whether sqlite3
   * can bind it. Under the default compat32 policy a header holding raw
   * 8-bit bytes comes back as an email.header.Header object, not a str,
   * and the insert into monitored_emails raises on it.
   */
  datatype FromHeader = FromHeader(text: string, bindable: bool)

  /**
   * A message of a FETCH response, as the monitor reads it: the From header
   * (None when absent), the Subject header, and the decoded text/plain
   * payload ("" when there is none or it does not decode).
   */
  datatype Message = Message(from: Option<FromHeader>, subject: Option<SubjectHeader>, text: string)

  /** What FETCH (RFC822) yields for one id: an error, or its message parts. */
  datatype FetchResult = FetchFailed | Fetched(messages: seq<Message>)

  /** One IMAP session: refused at connect/select/search, or the UNSEEN ids, FETCH, and the outcome of close/logout. */
  datatype MailSource =
    | Unreachable
    | Session(unseen: seq<MessageId>, fetch: MessageId -> FetchResult, closesCleanly: bool)

  /** The SMTP outcome of send_email for (recipient, subject, body): None when delivered, else the error text. */
  type Transport = (string, string, string) -> Option<string>

  /** The notification sender: the configured NOTIFICATION_EMAIL ("" when unset) and its transport. */
  datatype Notifier = Notifier(notificationEmail: string, transport: Transport)

  /** get_email_body keeps this many characters of the body. */
  const PreviewLength: nat := 500

  /** The notification body quotes this many characters of the preview. */
  const QuotedPreviewLength: nat := 200

  /**
   * decode_email_subject: "" for a missing or empty header, otherwise the
   * decoded pieces appended one after another; None when decoding raises.
   */
  function DecodeEmailSubject(header: Option<SubjectHeader>): (subject: Option<string>)
    ensures header.None? || header.value.raw == "" ==> subject == Some("")
    ensures header.Some? && header.value.raw != "" ==>
      (subject.None? <==> header.value.decodedParts.None?)
    ensures header.Some? && header.value.raw != "" && header.value.decodedParts.Some? ==>
      subject == Some(Concat(header.value.decodedParts.value))
  {
    if header.Some? && header.value.raw != "" then
      match header.value.decodedParts
      case None => None
      case Some(parts) =>
        AppendEachIsConcat("", parts);
        assert "" + Concat(parts) == Concat(parts);
        Some(AppendEach("", parts))
    else
      Some("")
  }

  /**
   * The monitor can log a message part: its subject decodes, and it has a
   * From header (monitored_emails.sender is NOT NULL) that sqlite3 can bind.
   */
  predicate Readable(msg: Message)
  {
    DecodeEmailSubject(msg.subject).Some? && msg.from.Some? && msg.from.value.bindable
  }

  /** get_email_body: the first 500 characters of the decoded text. */
  function GetEmailBody(msg: Message): (preview: string)
    ensures |preview| == if |msg.text| < PreviewLength then |msg.text| else PreviewLength
    ensures preview == msg.text[..|preview|]
  {
    Take(msg.text, PreviewLength)
  }

  /**
   * Rules see only the preview: a keyword each of whose occurrences in the
   * body ends past character 500 cannot make a rule match.
   */
  lemma KeywordPastPreviewIgnored(rule: Rule, sender: string, subject: string, msg: Message)
    requires IsSet(rule.keywordFilter)
    requires forall i :: OccursAt(Lower(msg.text), Lower(rule.keywordFilter.value), i) ==>
      i + |rule.keywordFilter.value| > PreviewLength
    ensures !RuleMatches(rule, sender, subject, GetEmailBody(msg))
  {
    var keyword := Lower(rule.keywordFilter.value);
    var preview := GetEmailBody(msg);
    ContainsIffOccurs(Lower(preview), keyword);
    if Contains(Lower(preview), keyword) {
      var i :| OccursAt(Lower(preview), keyword, i);
      LowerOfPrefix(msg.text, |preview|);
      OccursInPrefix(Lower(msg.text), keyword, |preview|, i);
      assert false;
    }
  }

  /** The notification subject: "Email Alert: " and the matched names joined by ", ". */
  function NotificationSubject(matched: seq<string>): string
  {
    "Email Alert: " + Join(matched, ", ")
  }

  /** The notification subject names every matched rule. */
  lemma NotificationSubjectNamesEachRule(matched: seq<string>, k: nat)
    requires k < |matched|
    ensures Contains(NotificationSubject(matched), matched[k])
  {
    JoinContainsEach(matched, ", ", k);
    var j :| OccursAt(Join(matched, ", "), matched[k], j);
    OccursAfter("Email Alert: ", Join(matched, ", "), matched[k], j);
    ContainsIffOccurs(NotificationSubject(matched), matched[k]);
  }

  /** The notification body: the matched names, sender, subject and the first 200 characters of the preview. */
  function NotificationBody(matched: seq<string>, sender: string, subject: string, preview: string): string
  {
    "\nNew email matching notification rules: " + Join(matched, ", ") +
    "\n\nFrom: " + sender +
    "\nSubject: " + subject +
    "\n\nPreview:\n" + Take(preview, QuotedPreviewLength) + "...\n" +
    "                            "
  }

  /**
   * send_notification and the logging inside send_email: with no recipient
   * configured nothing is sent or logged; otherwise one sent_emails row is
   * logged, 'sent' on delivery and 'failed' with the error text otherwise.
   */
  function Notify(t: Tables, notifier: Notifier, subject: string, body: string): Tables
  {
    if notifier.notificationEmail == "" then t
    else
      match notifier.transport(notifier.notificationEmail, subject, body)
      case None => Apply(t, LogSent(notifier.notificationEmail, subject, "sent", None))
      case Some(error) => Apply(t, LogSent(notifier.notificationEmail, subject, "failed", Some(error)))
  }

  /** The value send_notification returns. */
  predicate Delivered(notifier: Notifier, subject: string, body: string)
  {
    notifier.notificationEmail != "" && notifier.transport(notifier.notificationEmail, subject, body).None?
  }

  /**
   * Where a pass stands: the tables, the processed_emails set, the
   * new_emails counter, and whether an exception has ended the pass.
   */
  datatype PassState = PassState(tables: Tables, seen: set<MessageId>, newEmails: nat, failed: bool)

  /**
   * One message part: log it, run the rules on it, notify and mark the
   * record when any rule matched, then record the id as processed and count
   * it. A subject that does not decode raises first; a message without a
   * From header fails the NOT NULL constraint on monitored_emails.sender.
   * Either way the pass fails before anything is written.
   */
  function ProcessMessage(st: PassState, id: MessageId, msg: Message, notifier: Notifier): PassState
  {
    if !Readable(msg) then st.(failed := true)
    else
      var subject := DecodeEmailSubject(msg.subject).value;
      var sender := msg.from.value.text;
      var body := GetEmailBody(msg);
      var logged := Apply(st.tables, LogMonitored(sender, subject, Some(body)));
      var emailDbId := logged.lastMonitoredId;
      var matched := MatchingRuleNames(ActiveRules(logged.notificationRules), sender, subject, body);
      var tables :=
        if matched == [] then logged
        else
          var notified := Notify(logged, notifier, NotificationSubject(matched), NotificationBody(matched, sender, subject, body));
          Apply(notified, StoreOp.MarkNotificationSent(emailDbId));
      st.(tables := tables, seen := st.seen + {id}, newEmails := st.newEmails + 1)
  }

  /** The inner loop over the parts of one FETCH response. */
  function ProcessMessages(st: PassState, id: MessageId, msgs: seq<Message>, notifier: Notifier): PassState
    decreases msgs
  {
    if msgs == [] || st.failed then st
    else ProcessMessages(ProcessMessage(st, id, msgs[0], notifier), id, msgs[1..], notifier)
  }

  /** One UNSEEN id: skipped when already processed, otherwise fetched and its parts processed. */
  function ProcessId(st: PassState, id: MessageId, fetch: MessageId -> FetchResult, notifier: Notifier): PassState
  {
    if id in st.seen then st
    else
      match fetch(id)
      case FetchFailed => st.(failed := true)
      case Fetched(msgs) => ProcessMessages(st, id, msgs, notifier)
  }

  /** The outer loop over the UNSEEN ids, in the order the server lists them. */
  function RunIds(st: PassState, ids: seq<MessageId>, fetch: MessageId -> FetchResult, notifier: Notifier): PassState
    decreases ids
  {
    if ids == [] || st.failed then st
    else RunIds(ProcessId(st, ids[0], fetch, notifier), ids[1..], fetch, notifier)
  }

  /** One call of monitor_inbox from the given tables and processed set. */
  function Pass(tables: Tables, seen: set<MessageId>, source: MailSource, notifier: Notifier): PassState
  {
    match source
    case Unreachable => PassState(tables, seen, 0, true)
    case Session(ids, fetch, closesCleanly) =>
      var st := RunIds(PassState(tables, seen, 0, false), ids, fetch, notifier);
      if closesCleanly then st else st.(failed := true)
  }

  /** What monitor_inbox returns: the counter, or 0 when an exception ended the pass. */
  function Reported(st: PassState): nat
  {
    if st.failed then 0 else st.newEmails
  }

  /**
   * What every step of a pass preserves: rows are only appended or flagged,
   * processed ids are only added, and exactly one monitored_emails row is
   * logged per message counted.
   */
  ghost predicate Advances(st: PassState, st2: PassState)
  {
    && Extends(st.tables, st2.tables)
    && st.seen <= st2.seen
    && st.newEmails <= st2.newEmails
    && |st2.tables.monitoredEmails| - st2.newEmails == |st.tables.monitoredEmails| - st.newEmails
  }

  lemma AdvancesTransitive(st: PassState, st2: PassState, st3: PassState)
    requires Advances(st, st2) && Advances(st2, st3)
    ensures Advances(st, st3)
  {
    ExtendsTransitive(st.tables, st2.tables, st3.tables);
  }

  lemma AdvancesReflexive(st: PassState)
    ensures Advances(st, st)
  {
    ExtendsReflexive(st.tables);
  }

  /** Sending a notification at most appends a sent_emails row. */
  lemma NotifyExtends(t: Tables, notifier: Notifier, subject: string, body: string)
    requires WellFormed(t)
    ensures WellFormed(Notify(t, notifier, subject, body))
    ensures Extends(t, Notify(t, notifier, subject, body))
    ensures Notify(t, notifier, subject, body).monitoredEmails == t.monitoredEmails
    ensures Notify(t, notifier, subject, body).notificationRules == t.notificationRules
    ensures Notify(t, notifier, subject, body).lastMonitoredId == t.lastMonitoredId
    ensures Notify(t, notifier, subject, body).lastRuleId == t.lastRuleId
    ensures |Notify(t, notifier, subject, body).sentEmails| <= |t.sentEmails| + 1
  {
    if notifier.notificationEmail == "" {
      ExtendsReflexive(t);
    } else {
      match notifier.transport(notifier.notificationEmail, subject, body)
      case None =>
        ApplyExtends(t, LogSent(notifier.notificationEmail, subject, "sent", None));
        ApplyKeepsWellFormed(t, LogSent(notifier.notificationEmail, subject, "sent", None));
      case Some(error) =>
        ApplyExtends(t, LogSent(notifier.notificationEmail, subject, "failed", Some(error)));
        ApplyKeepsWellFormed(t, LogSent(notifier.notificationEmail, subject, "failed", Some(error)));
    }
  }

  /** The names of the active rules a readable message matches, against the given tables. */
  function MatchedFor(t: Tables, msg: Message): seq<string>
    requires Readable(msg)
  {
    MatchingRuleNames(ActiveRules(t.notificationRules), msg.from.value.text, DecodeEmailSubject(msg.subject).value, GetEmailBody(msg))
  }

  /** A message without a From header makes the pass fail and changes nothing. */
  lemma MissingSenderFailsPass(st: PassState, id: MessageId, msg: Message, notifier: Notifier)
    requires msg.from.None?
    ensures ProcessMessage(st, id, msg, notifier) == st.(failed := true)
  {
  }

  /** A From header sqlite3 cannot bind (raw 8-bit bytes) makes the pass fail and changes nothing. */
  lemma UnbindableSenderFailsPass(st: PassState, id: MessageId, msg: Message, notifier: Notifier)
    requires msg.from.Some? && !msg.from.value.bindable
    ensures ProcessMessage(st, id, msg, notifier) == st.(failed := true)
  {
  }

  /** A subject that does not decode makes the pass fail and changes nothing, even with a From header. */
  lemma UndecodableSubjectFailsPass(st: PassState, id: MessageId, msg: Message, notifier: Notifier)
    requires msg.subject.Some? && msg.subject.value.raw != "" && msg.subject.value.decodedParts.None?
    ensures ProcessMessage(st, id, msg, notifier) == st.(failed := true)
  {
  }

  /**
   * A message part whose subject decodes and that has a From header
   * (`Readable`) appends exactly one monitored row,
   * carrying the sender, the decoded subject and the preview, whose
   * notification_sent is true exactly when some active rule matched,
   * whatever the send returned; the id joins the processed set and the
   * counter goes up by one.
   */
  lemma ProcessMessageLogsOnce(st: PassState, id: MessageId, msg: Message, notifier: Notifier)
    requires WellFormed(st.tables) && !st.failed && Readable(msg)
    ensures var r := ProcessMessage(st, id, msg, notifier);
      && !r.failed
      && r.tables.monitoredEmails == st.tables.monitoredEmails +
           [MonitoredRecord(st.tables.lastMonitoredId + 1, msg.from.value.text, DecodeEmailSubject(msg.subject).value,
                            Some(GetEmailBody(msg)), MatchedFor(st.tables, msg) != [])]
      && r.tables.notificationRules == st.tables.notificationRules
      && r.seen == st.seen + {id}
      && r.newEmails == st.newEmails + 1
  {
    var sender := msg.from.value.text;
    var subject := DecodeEmailSubject(msg.subject).value;
    var body := GetEmailBody(msg);
    var logged := Apply(st.tables, LogMonitored(sender, subject, Some(body)));
    LogMonitoredAppendsOne(st.tables, sender, subject, Some(body));
    var matched := MatchedFor(st.tables, msg);
    if matched != [] {
      var notificationSubject := NotificationSubject(matched);
      var notificationBody := NotificationBody(matched, sender, subject, body);
      var notified := Notify(logged, notifier, notificationSubject, notificationBody);
      ApplyKeepsWellFormed(st.tables, LogMonitored(sender, subject, Some(body)));
      NotifyExtends(logged, notifier, notificationSubject, notificationBody);
      var emailDbId := logged.lastMonitoredId;
      MarkSetsOnlyTarget(notified, emailDbId);
      var marked := Apply(notified, StoreOp.MarkNotificationSent(emailDbId));
      forall k | 0 <= k < |st.tables.monitoredEmails|
        ensures marked.monitoredEmails[k] == st.tables.monitoredEmails[k]
      {
        assert st.tables.monitoredEmails[k] in st.tables.monitoredEmails;
      }
      assert marked.monitoredEmails == st.tables.monitoredEmails +
               [MonitoredRecord(emailDbId, sender, subject, Some(body), true)];
    }
  }

  /**
   * A matched message with a notification address configured logs exactly
   * one sent_emails row for the notification: to that address, titled with
   * the matched names, with status 'sent' exactly when it was delivered.
   * Otherwise sent_emails is unchanged.
   */
  lemma ProcessMessageNotifies(st: PassState, id: MessageId, msg: Message, notifier: Notifier)
    requires !st.failed && Readable(msg)
    ensures var r := ProcessMessage(st, id, msg, notifier);
      var matched := MatchedFor(st.tables, msg);
      && (matched == [] || notifier.notificationEmail == "" ==> r.tables.sentEmails == st.tables.sentEmails)
      && (matched != [] && notifier.notificationEmail != "" ==>
            && |r.tables.sentEmails| == |st.tables.sentEmails| + 1
            && r.tables.sentEmails[..|st.tables.sentEmails|] == st.tables.sentEmails
            && var row := r.tables.sentEmails[|st.tables.sentEmails|];
            && row.recipient == notifier.notificationEmail
            && row.subject == NotificationSubject(matched)
            && (row.status == "sent" <==>
                  Delivered(notifier, NotificationSubject(matched),
                            NotificationBody(matched, msg.from.value.text, DecodeEmailSubject(msg.subject).value, GetEmailBody(msg)))))
  {
    var matched := MatchedFor(st.tables, msg);
    var r := ProcessMessage(st, id, msg, notifier);
    if matched != [] && notifier.notificationEmail != "" {
      assert r.tables.sentEmails[..|st.tables.sentEmails|] == st.tables.sentEmails;
    }
  }

  lemma ProcessMessageAdvances(st: PassState, id: MessageId, msg: Message, notifier: Notifier)
    requires WellFormed(st.tables) && !st.failed
    ensures var r := ProcessMessage(st, id, msg, notifier);
      Advances(st, r) && WellFormed(r.tables) && r.seen <= st.seen + {id}
  {
    var r := ProcessMessage(st, id, msg, notifier);
    if !Readable(msg) {
      AdvancesReflexive(st);
    } else {
      var sender := msg.from.value.text;
      var subject := DecodeEmailSubject(msg.subject).value;
      var body := GetEmailBody(msg);
      var logged := Apply(st.tables, LogMonitored(sender, subject, Some(body)));
      ApplyExtends(st.tables, LogMonitored(sender, subject, Some(body)));
      ApplyKeepsWellFormed(st.tables, LogMonitored(sender, subject, Some(body)));
      var matched := MatchingRuleNames(ActiveRules(logged.notificationRules), sender, subject, body);
      if matched != [] {
        var notificationSubject := NotificationSubject(matched);
        var notificationBody := NotificationBody(matched, sender, subject, body);
        var notified := Notify(logged, notifier, notificationSubject, notificationBody);
        NotifyExtends(logged, notifier, notificationSubject, notificationBody);
        ExtendsTransitive(st.tables, logged, notified);
        ApplyExtends(notified, StoreOp.MarkNotificationSent(logged.lastMonitoredId));
        ApplyKeepsWellFormed(notified, StoreOp.MarkNotificationSent(logged.lastMonitoredId));
        ExtendsTransitive(st.tables, notified, r.tables);
      }
    }
  }

  lemma {:induction false} ProcessMessagesAdvances(st: PassState, id: MessageId, msgs: seq<Message>, notifier: Notifier)
    requires WellFormed(st.tables)
    ensures var r := ProcessMessages(st, id, msgs, notifier);
      Advances(st, r) && WellFormed(r.tables) && r.seen <= st.seen + {id}
    decreases msgs
  {
    if msgs == [] || st.failed {
      AdvancesReflexive(st);
    } else {
      var next := ProcessMessage(st, id, msgs[0], notifier);
      ProcessMessageAdvances(st, id, msgs[0], notifier);
      ProcessMessagesAdvances(next, id, msgs[1..], notifier);
      AdvancesTransitive(st, next, ProcessMessages(st, id, msgs, notifier));
    }
  }

  lemma ProcessIdAdvances(st: PassState, id: MessageId, fetch: MessageId -> FetchResult, notifier: Notifier)
    requires WellFormed(st.tables)
    ensures var r := ProcessId(st, id, fetch, notifier);
      Advances(st, r) && WellFormed(r.tables) && r.seen <= st.seen + {id}
  {
    if id in st.seen || fetch(id).FetchFailed? {
      AdvancesReflexive(st);
    } else {
      ProcessMessagesAdvances(st, id, fetch(id).messages, notifier);
    }
  }

  lemma {:induction false} RunIdsAdvances(st: PassState, ids: seq<MessageId>, fetch: MessageId -> FetchResult, notifier: Notifier)
    requires WellFormed(st.tables)
    ensures var r := RunIds(st, ids, fetch, notifier);
      && Advances(st, r) && WellFormed(r.tables)
      && (forall x :: x in r.seen ==> x in st.seen || x in ids)
    decreases ids
  {
    if ids == [] || st.failed {
      AdvancesReflexive(st);
    } else {
      var next := ProcessId(st, ids[0], fetch, notifier);
      ProcessIdAdvances(st, ids[0], fetch, notifier);
      RunIdsAdvances(next, ids[1..], fetch, notifier);
      AdvancesTransitive(st, next, RunIds(st, ids, fetch, notifier));
    }
  }

  /**
   * Over one pass, whether it succeeds or fails: the processed set only
   * grows, and only by ids the server listed; no row is deleted and no
   * notification flag cleared (so no statistic decreases); and exactly one
   * monitored_emails row is logged per message the counter counted.
   */
  lemma PassAdvances(tables: Tables, seen: set<MessageId>, source: MailSource, notifier: Notifier)
    requires WellFormed(tables)
    ensures var r := Pass(tables, seen, source, notifier);
      && WellFormed(r.tables)
      && seen <= r.seen
      && (forall x :: x in r.seen ==> x in seen || (source.Session? && x in source.unseen))
      && Extends(tables, r.tables)
      && |r.tables.monitoredEmails| == |tables.monitoredEmails| + r.newEmails
      && Stats(tables).sent <= Stats(r.tables).sent
      && Stats(tables).failed <= Stats(r.tables).failed
      && Stats(tables).monitored <= Stats(r.tables).monitored
  {
    var r := Pass(tables, seen, source, notifier);
    if source.Unreachable? {
      ExtendsReflexive(tables);
    } else {
      RunIdsAdvances(PassState(tables, seen, 0, false), source.unseen, source.fetch, notifier);
    }
    StatsMonotone(tables, r.tables);
  }

  /** Ids that are all processed already are skipped: nothing is logged, evaluated or counted. */
  lemma {:induction false} ProcessedIdsSkipped(st: PassState, ids: seq<MessageId>, fetch: MessageId -> FetchResult, notifier: Notifier)
    requires forall x :: x in ids ==> x in st.seen
    ensures RunIds(st, ids, fetch, notifier) == st
  {
    CoveredIdsChangeNothing(st, ids, fetch, notifier);
  }

  /** After processing a non-empty FETCH response without failing, its id is in the processed set. */
  lemma {:induction false} ProcessMessagesMarksSeen(st: PassState, id: MessageId, msgs: seq<Message>, notifier: Notifier)
    requires WellFormed(st.tables)
    requires msgs != [] && !ProcessMessages(st, id, msgs, notifier).failed
    ensures id in ProcessMessages(st, id, msgs, notifier).seen
    decreases msgs
  {
    var next := ProcessMessage(st, id, msgs[0], notifier);
    if Readable(msgs[0]) {
      ProcessMessageLogsOnce(st, id, msgs[0], notifier);
    }
    ProcessMessageAdvances(st, id, msgs[0], notifier);
    ProcessMessagesAdvances(next, id, msgs[1..], notifier);
  }

  /**
   * After a loop that did not fail, every listed id is processed, or FETCH
   * returned no message part for it.
   */
  lemma {:induction false} RunIdsCovers(st: PassState, ids: seq<MessageId>, fetch: MessageId -> FetchResult, notifier: Notifier)
    requires WellFormed(st.tables)
    requires !RunIds(st, ids, fetch, notifier).failed
    ensures forall x :: x in ids ==> x in RunIds(st, ids, fetch, notifier).seen || fetch(x) == Fetched([])
    decreases ids
  {
    if ids != [] {
      var next := ProcessId(st, ids[0], fetch, notifier);
      ProcessIdAdvances(st, ids[0], fetch, notifier);
      RunIdsCovers(next, ids[1..], fetch, notifier);
      RunIdsAdvances(next, ids[1..], fetch, notifier);
      if ids[0] !in st.seen && fetch(ids[0]) != Fetched([]) {
        ProcessMessagesMarksSeen(st, ids[0], fetch(ids[0]).messages, notifier);
      }
    }
  }

  /** A loop in which every id is processed or yields no message part changes nothing. */
  lemma {:induction false} CoveredIdsChangeNothing(st: PassState, ids: seq<MessageId>, fetch: MessageId -> FetchResult, notifier: Notifier)
    requires forall x :: x in ids ==> x in st.seen || fetch(x) == Fetched([])
    ensures RunIds(st, ids, fetch, notifier) == st
    decreases ids
  {
    if ids != [] && !st.failed {
      assert ProcessId(st, ids[0], fetch, notifier) == st;
      CoveredIdsChangeNothing(st, ids[1..], fetch, notifier);
    }
  }

  /**
   * Deduplication: running the same pass again after one that completed its
   * loop logs nothing, notifies nothing, adds nothing to the processed set
   * and reports 0.
   */
  lemma SecondPassProcessesNothing(tables: Tables, seen: set<MessageId>, ids: seq<MessageId>,
                                   fetch: MessageId -> FetchResult, closesCleanly: bool, notifier: Notifier)
    requires WellFormed(tables)
    requires !RunIds(PassState(tables, seen, 0, false), ids, fetch, notifier).failed
    ensures var first := Pass(tables, seen, Session(ids, fetch, closesCleanly), notifier);
      var second := Pass(first.tables, first.seen, Session(ids, fetch, closesCleanly), notifier);
      second.tables == first.tables && second.seen == first.seen && Reported(second) == 0
  {
    var first := RunIds(PassState(tables, seen, 0, false), ids, fetch, notifier);
    RunIdsCovers(PassState(tables, seen, 0, false), ids, fetch, notifier);
    CoveredIdsChangeNothing(PassState(first.tables, first.seen, 0, false), ids, fetch, notifier);
  }

  /** A pass over a single new id whose FETCH returns one message is that message's step. */
  lemma SingleMessagePass(tables: Tables, seen: set<MessageId>, id: MessageId, msg: Message,
                          fetch: MessageId -> FetchResult, notifier: Notifier)
    requires id !in seen && fetch(id) == Fetched([msg])
    ensures Pass(tables, seen, Session([id], fetch, true), notifier) ==
            ProcessMessage(PassState(tables, seen, 0, false), id, msg, notifier)
  {
    var st := PassState(tables, seen, 0, false);
    var next := ProcessMessage(st, id, msg, notifier);
    assert ProcessMessages(st, id, [msg], notifier) == ProcessMessages(next, id, [], notifier) == next;
    assert RunIds(st, [id], fetch, notifier) == RunIds(next, [], fetch, notifier);
  }

  /** The EmailMonitor object: its store, its notification sender and its processed_emails set. */
  class EmailMonitor {
    const db: EmailDatabase
    const notifier: Notifier
    var processedEmails: set<MessageId>

    ghost predicate Valid()
      reads this, db
    {
      db.Valid()
    }

    constructor (db: EmailDatabase, notifier: Notifier)
      requires db.Valid()
      ensures Valid()
      ensures this.db == db && this.notifier == notifier && processedEmails == {}
    {
      this.db := db;
      this.notifier := notifier;
      processedEmails := {};
    }

    /** send_notification, with the sent_emails row send_email logs. */
    method SendNotification(subject: string, body: string) returns (delivered: bool)
      requires Valid()
      modifies db
      ensures Valid()
      ensures db.State() == Notify(old(db.State()), notifier, subject, body)
      ensures delivered == Delivered(notifier, subject, body)
    {
      if notifier.notificationEmail == "" {
        return false;
      }
      var outcome := notifier.transport(notifier.notificationEmail, subject, body);
      match outcome
      case None =>
        var _ := db.LogSentEmail(notifier.notificationEmail, subject, "sent");
        delivered := true;
      case Some(error) =>
        var _ := db.LogSentEmail(notifier.notificationEmail, subject, "failed", Some(error));
        delivered := false;
    }

    /** check_notification_rules: the loop over the active rules with its `match` flag. */
    method CheckNotificationRules(sender: string, subject: string, body: string) returns (matched: seq<string>)
      requires Valid()
      ensures matched == MatchingRuleNames(ActiveRules(db.notificationRules), sender, subject, body)
    {
      var rules := db.GetActiveRules();
      matched := [];
      for k := 0 to |rules|
        invariant matched == MatchingRuleNames(rules[..k], sender, subject, body)
      {
        var rule := rules[k];
        var match_ := true;
        if IsSet(rule.senderFilter) && !Contains(Lower(sender), Lower(rule.senderFilter.value)) {
          match_ := false;
        }
        if IsSet(rule.subjectFilter) && !Contains(Lower(subject), Lower(rule.subjectFilter.value)) {
          match_ := false;
        }
        if IsSet(rule.keywordFilter) && !Contains(Lower(body), Lower(rule.keywordFilter.value)) {
          match_ := false;
        }
        assert rules[..k + 1][..k] == rules[..k];
        if match_ {
          matched := matched + [rule.name];
        }
      }
      assert rules[..|rules|] == rules;
    }

    /**
     * The body of monitor_inbox's inner loop for one message part; `ok` is
     * false when it raises (the subject does not decode, or the From header
     * is missing or cannot be bound), in which case nothing changed.
     */
    method HandleMessage(emailId: MessageId, msg: Message, count: nat) returns (ok: bool, newCount: nat)
      requires Valid()
      modifies this, db
      ensures Valid()
      ensures var after := ProcessMessage(PassState(old(db.State()), old(processedEmails), count, false), emailId, msg, notifier);
        && ok == !after.failed
        && db.State() == after.tables && processedEmails == after.seen
        && (ok ==> newCount == after.newEmails)
    {
      var decoded := DecodeEmailSubject(msg.subject);
      if decoded.None? {
        return false, count;
      }
      var subject := decoded.value;
      if msg.from.None? || !msg.from.value.bindable {
        return false, count;
      }
      var sender := msg.from.value.text;
      var body := GetEmailBody(msg);
      var emailDbId := db.LogMonitoredEmail(sender, subject, Some(body));
      var matched := CheckNotificationRules(sender, subject, body);
      if matched != [] {
        var notificationSubject := NotificationSubject(matched);
        var notificationBody := NotificationBody(matched, sender, subject, body);
        var _ := SendNotification(notificationSubject, notificationBody);
        db.MarkNotificationSent(emailDbId);
      }
      processedEmails := processedEmails + {emailId};
      ok, newCount := true, count + 1;
    }

    /** monitor_inbox: one pass over the UNSEEN ids. */
    method MonitorInbox(source: MailSource) returns (newEmails: nat)
      requires Valid()
      modifies this, db
      ensures Valid()
      ensures var final := Pass(old(db.State()), old(processedEmails), source, notifier);
        db.State() == final.tables && processedEmails == final.seen && newEmails == Reported(final)
    {
      if source.Unreachable? {
        return 0;
      }
      var ids := source.unseen;
      ghost var start := PassState(db.State(), processedEmails, 0, false);
      ghost var final := RunIds(start, ids, source.fetch, notifier);
      newEmails := 0;
      var i := 0;
      while i < |ids|
        invariant 0 <= i <= |ids|
        invariant Valid()
        invariant RunIds(PassState(db.State(), processedEmails, newEmails, false), ids[i..], source.fetch, notifier) == final
      {
        var emailId := ids[i];
        assert ids[i..][1..] == ids[i + 1..];
        if emailId in processedEmails {
          i := i + 1;
          continue;
        }
        ghost var before := PassState(db.State(), processedEmails, newEmails, false);
        if source.fetch(emailId).FetchFailed? {
          return 0;
        }
        var msgs := source.fetch(emailId).messages;
        var j := 0;
        while j < |msgs|
          invariant 0 <= j <= |msgs|
          invariant Valid()
          invariant ProcessMessages(PassState(db.State(), processedEmails, newEmails, false), emailId, msgs[j..], notifier)
                 == ProcessMessages(before, emailId, msgs, notifier)
        {
          var msg := msgs[j];
          assert msgs[j..][1..] == msgs[j + 1..];
          var ok;
          ok, newEmails := HandleMessage(emailId, msg, newEmails);
          if !ok {
            return 0;
          }
          j := j + 1;
        }
        assert msgs[|msgs|..] == [];
        i := i + 1;
      }
      if !source.closesCleanly {
        return 0;
      }
    }
  }
}
