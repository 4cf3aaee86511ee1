# Email monitor and store: a verified Dafny model

This project models the core of a small email-automation system:

- the **notification-rule matcher**. A rule holds up to three filters (sender, subject, keyword). Each filter that is set must occur, ignoring case, in its field of the message. The matcher returns the names of the matching rules in rule order.
- the **monitoring pass** (`monitor_inbox`). It runs over the message ids the IMAP server reports as UNSEEN and skips ids already in the in-memory `processed_emails` set. For each remaining message it logs the message and runs the rules. When any rule matched, it sends a notification and flags the record as notified. Then it adds the id to the processed set and counts the message.
- the **SQLite store** (`EmailDatabase`). It has three append-only tables with AUTOINCREMENT ids: `sent_emails`, `monitored_emails` and `notification_rules`. It also has one update (`mark_notification_sent`), the active-rule query and the statistics query.

Files:

- `Wrappers.dfy`: `Option`, used for nullable columns and headers.
- `Text.dfy`: ASCII lower-casing, the substring scan behind Python's `in`, `str.join`, slicing, and the subject accumulator.
- `Store.dfy`: the tables as a value (`Tables`), one function per SQL statement (`Apply`), and the lemmas about them. The class `EmailDatabase` holds the tables as fields. Each of its methods is proved to perform its statement.
- `Rules.dfy`: the matcher and its characterisation.
- `Monitor.dfy`: subject decoding, the preview, and the notification text. It also holds one pass as a function (`Pass`) with its lemmas, and the class `EmailMonitor`. Its `MonitorInbox` loop is proved to reach the state `Pass` describes.
- `Scenarios.dfy`: the store tests of `test_email_system.py` and end-to-end passes, written as client code.

The model treats the outside world as inputs:

- The IMAP session is a `MailSource`. It is either refused at connect, select or search, or it gives the UNSEEN ids, what FETCH yields per id (an error, or its message parts) and whether close/logout succeeds.
- A fetched message is reduced to the three values the monitor reads: the From header (with whether sqlite3 can bind it), the Subject header with its decoded pieces (or the fact that decoding raised), and the decoded text body.
- The SMTP result of sending the notification is an input function, `Transport`.
- `NOTIFICATION_EMAIL` is a field of the `Notifier`, with "" meaning unset.
- The sender object's own `EmailDatabase()` opens the same `DB_PATH` file as the monitor's, so the model has one store.

These exceptions in the pass are modelled, and each makes the pass report 0:

- a refused session;
- a failed FETCH;
- a Subject header that does not decode. `decode_header` can raise on a malformed encoded word, and `bytes.decode` raises for a charset Python does not know, such as `unknown-8bit`; `errors='ignore'` covers only bad bytes;
- a message without a From header, which fails the NOT NULL constraint on `monitored_emails.sender`;
- a From header holding raw 8-bit bytes. Under the default `compat32` policy `msg['from']` then returns an `email.header.Header` object instead of a string, and sqlite3 cannot bind it in the insert;
- a failed close/logout.

The subject decode and both From failures come before the message is logged, so such a message writes nothing and its id is not added to the processed set. The ids after it are not fetched. Everything written and every id added before the failure stays.

Some behaviour of the code differs from what one might expect, and the model follows the code:

- `mark_notification_sent` is called whenever some rule matched, whatever `send_notification` returned. This includes the case where no notification address is configured and nothing was sent. One might expect the flag to be set only after a successful send.
- A FETCH response with no message part leaves its id out of the processed set and uncounted. A response with two parts is logged and counted twice.
- The `status` column accepts any text, and nothing ties `failed` to a present error message.
- `get_active_rules` has no ORDER BY. The model returns rows in table order.

## Model

| member | source | states |
|---|---|---|
| `Text.ContainsIffOccurs` | email_monitor.py:71-80 | the left-to-right scan used for `filter in field` succeeds exactly when the filter occurs at some position of the field |
| `Text.JoinContainsEach` | email_monitor.py:122 | every name passed to `', '.join` occurs in the joined text |
| `Text.Lower` | email_monitor.py:71-80 | defines `.lower()` on ASCII letters; every other character is kept |
| `Text.Contains` | email_monitor.py:71-80 | defines Python's `needle in haystack` as a left-to-right scan; `ContainsIffOccurs` characterises it |
| `Text.Join` | email_monitor.py:122 | defines `sep.join(parts)`: "" for no parts, the part itself for one, parts separated by `sep` otherwise |
| `Text.AppendEachIsConcat` | email_monitor.py:32-38 | appending the decoded header pieces one by one to an accumulator yields the accumulator followed by the in-order concatenation of the pieces |
| `Store.Apply` | database.py:61-118 | defines each SQL statement on the tables: the three INSERTs append one row under the next AUTOINCREMENT id, and the UPDATE goes through `SetNotificationSent` |
| `Store.SetNotificationSent` | database.py:96-100 | defines `UPDATE monitored_emails SET notification_sent = 1 WHERE id = ?`: the flag is set on every row with that id, and nothing else changes |
| `Store.Stats` | database.py:135-155 | defines the three counts: rows of `sent_emails` with status "sent", with status "failed", and all rows of `monitored_emails` |
| `Store.ApplyKeepsWellFormed` | database.py:22-56 | every insert and update keeps each table's ids positive, strictly increasing in row order and no larger than the AUTOINCREMENT sequence value |
| `Store.LogSentAppendsOne` | database.py:61-74 | `log_sent_email` appends exactly one row with the given recipient, subject, status and error message; its id is positive and larger than every earlier id in the table; the other tables are unchanged |
| `Store.LogMonitoredAppendsOne` | database.py:76-89 | `log_monitored_email` appends exactly one row with the given sender, subject and preview, with `notification_sent` false; its id is fresh and positive; the other tables are unchanged |
| `Store.AddRuleAppendsOne` | database.py:105-118 | `add_notification_rule` appends exactly one enabled rule with the given name and filters, under a fresh positive id; the other tables are unchanged |
| `Store.MarkSetsOnlyTarget` | database.py:91-103 | `mark_notification_sent(id)` sets the flag on the rows with that id; every other row, every other field, the other tables and the id sequences are unchanged |
| `Store.MarkIdempotent` | database.py:91-103 | marking the same id twice gives the same tables as marking it once |
| `Store.MarkUnknownIdChangesNothing` | database.py:91-103 | marking an id that no row carries changes nothing |
| `Store.ActiveRules` | database.py:120-133 | the query returns no more rules than the table has rows |
| `Store.ActiveRulesIff` | database.py:120-133 | a rule is returned exactly when it is the projection (id, name, three filters) of an enabled row |
| `Store.AllEnabledAllActive` | database.py:120-133 | when every rule is enabled, the query returns all of them, projected, in table order |
| `Store.CountStatus` | database.py:140-144 | the COUNT of rows with a given status equals the multiplicity of that status in the status column |
| `Store.ExtendsTransitive` | database.py:61-118 | "only appended rows and raised flags" composes over consecutive changes |
| `Store.ApplyExtends` | database.py:61-118 | each statement only appends a row or raises `notification_sent` flags from false to true; it deletes no row and rewrites no other field |
| `Store.ApplyAllExtends` | database.py:61-118 | over any sequence of statements no row is deleted and no notification flag goes back to false |
| `Store.StatsMonotone` | database.py:135-155 | when the tables only grow, none of the sent, failed or monitored counts decreases |
| `Store.StatsNeverDecrease` | database.py:61-155 | after any sequence of store operations every count of `get_email_stats` is at least what it was |
| `Store.EmailDatabase.constructor` | database.py:8-56 | a store on a new file starts with three empty tables and unused id sequences |
| `Store.EmailDatabase.LogSentEmail` | database.py:61-74 | performs the INSERT into `sent_emails` with `status` defaulting to 'sent'; returns the new row's id, which is positive and above every earlier id |
| `Store.EmailDatabase.LogMonitoredEmail` | database.py:76-89 | performs the INSERT into `monitored_emails`; returns the new row's fresh positive id |
| `Store.EmailDatabase.MarkNotificationSent` | database.py:91-103 | performs the UPDATE of `notification_sent` for one id and keeps the id invariants |
| `Store.EmailDatabase.AddNotificationRule` | database.py:105-118 | performs the INSERT into `notification_rules` with filters defaulting to None and `enabled` true; returns the fresh positive id |
| `Store.EmailDatabase.GetActiveRules` | database.py:120-133 | returns the enabled rules of the current table, as `ActiveRules` characterises them |
| `Store.EmailDatabase.GetEmailStats` | database.py:135-155 | returns the sent count, the failed count and the number of monitored rows of the current tables |
| `Rules.RuleMatches` | email_monitor.py:68-83 | defines one rule's test as the source writes it: `match` starts true and each set filter absent from its lower-cased field vetoes it |
| `Rules.RuleMatchesIff` | email_monitor.py:68-83 | a rule matches exactly when each filter that is set (not None, not empty) occurs, lower-cased, in the lower-cased field: sender filter in the sender, subject filter in the subject, keyword filter in the body preview |
| `Rules.CatchAllMatches` | email_monitor.py:68-83 | a rule whose three filters are all None or empty matches every message |
| `Rules.SenderOnlyRule` | email_monitor.py:71-72 | a rule with only a sender filter matches exactly when the filter occurs in the sender, whatever the subject and body |
| `Rules.MatchingRuleNames` | email_monitor.py:63-85 | the list of matched names is never longer than the list of rules |
| `Rules.MatchedNamesInRuleOrder` | email_monitor.py:65-85 | the matched names form a subsequence of the rule names: rule order is kept |
| `Rules.MatchedNameIff` | email_monitor.py:65-85 | a name is returned exactly when some rule carrying it matches the message |
| `Rules.MatchedNamesAreMatchingRules` | email_monitor.py:65-85 | the result is exactly the names of the matching rules, one per matching rule, in rule order; two matching rules with the same name give that name twice |
| `Rules.NoMatchIffEmpty` | email_monitor.py:118-120 | the result is empty, so no notification is sent, exactly when no active rule matches |
| `Rules.AllCatchAllNamesAll` | email_monitor.py:65-85 | when every rule is a catch-all, every rule name is returned, in order |
| `Monitor.DecodeEmailSubject` | email_monitor.py:28-39 | a missing or empty Subject header decodes to ""; any other header fails exactly when decoding raises, and otherwise decodes to the in-order concatenation of its decoded pieces |
| `Monitor.GetEmailBody` | email_monitor.py:41-58 | the preview is a prefix of the decoded body of length min(500, body length); a 1000-character body gives exactly its first 500 characters |
| `Monitor.KeywordPastPreviewIgnored` | email_monitor.py:110-118 | rules see only the preview: a keyword whose every occurrence in the body ends past character 500 cannot make a keyword rule match |
| `Monitor.NotificationSubjectNamesEachRule` | email_monitor.py:122 | the subject "Email Alert: " followed by the matched names joined with ", " contains every matched rule name |
| `Monitor.NotificationSubject` | email_monitor.py:122 | defines the notification subject: "Email Alert: " followed by the matched names joined with ", " |
| `Monitor.NotificationBody` | email_monitor.py:123-131 | defines the notification body: the matched names, the sender, the subject and the first 200 characters of the preview, followed by "..." and the f-string's trailing newline and indentation |
| `Monitor.Notify` | email_sender.py:28-59 | defines what sending a notification does to the store: with no address configured, nothing; otherwise one `sent_emails` row to that address, "sent" on delivery and "failed" with the error text otherwise |
| `Monitor.Delivered` | email_sender.py:103-110 | defines the value `send_notification` returns: true exactly when an address is configured and the transport delivered the message |
| `Monitor.NotifyExtends` | email_sender.py:103-110 | sending a notification logs at most one `sent_emails` row and leaves the monitored and rule tables and their ids unchanged |
| `Monitor.Readable` | email_monitor.py:110-115 | defines when the monitor can log a message part: its subject decodes, and it has a From header that sqlite3 can bind |
| `Monitor.ProcessMessage` | email_monitor.py:105-139 | defines one message part: fail on an unreadable part, otherwise log it, match the rules, notify and mark when some rule matched, add the id and count it |
| `Monitor.ProcessMessages` | email_monitor.py:105-107 | defines the loop over the parts of one FETCH response, which stops at the first failure |
| `Monitor.ProcessId` | email_monitor.py:99-107 | defines one UNSEEN id: skipped when already processed, a failure when FETCH fails, otherwise its parts are processed |
| `Monitor.RunIds` | email_monitor.py:99-139 | defines the loop over the UNSEEN ids in server order, which stops at the first failure |
| `Monitor.Pass` | email_monitor.py:87-148 | defines one call of `monitor_inbox`: a refused session fails at once; otherwise the ids are run and a failed close/logout fails the pass |
| `Monitor.Reported` | email_monitor.py:140-148 | defines the value `monitor_inbox` returns: the counter, or 0 when an exception ended the pass |
| `Monitor.AdvancesTransitive` | email_monitor.py:99-137 | the per-step progress relation (tables only grow, processed set only grows, one log row per count) composes |
| `Monitor.MissingSenderFailsPass` | email_monitor.py:111-115 | a message without a From header fails the insert into `monitored_emails` (sender is NOT NULL): the pass fails and nothing changes |
| `Monitor.UnbindableSenderFailsPass` | email_monitor.py:111-115 | a message part whose From header holds raw 8-bit bytes fails the insert into `monitored_emails`: the pass fails and nothing changes |
| `Monitor.UndecodableSubjectFailsPass` | email_monitor.py:28-36 | a message part whose Subject header does not decode makes the pass fail before anything is written, even when it has a From header |
| `Monitor.ProcessMessageLogsOnce` | email_monitor.py:105-139 | a message part whose subject decodes and whose From header is present and bindable (`Readable`) appends exactly one monitored row with its sender, decoded subject and preview. The row's `notification_sent` is true exactly when some active rule matched, whatever the send returned. The id joins the processed set and the counter goes up by one |
| `Monitor.ProcessMessageNotifies` | email_monitor.py:120-134 | when some rule matched and an address is configured, exactly one `sent_emails` row is logged for the notification: to that address, titled with the matched names, with status 'sent' exactly when it was delivered; otherwise `sent_emails` is unchanged |
| `Monitor.ProcessMessageAdvances` | email_monitor.py:105-139 | handling one message part only appends or flags rows, adds only its own id to the processed set, and logs one row per count |
| `Monitor.ProcessMessagesAdvances` | email_monitor.py:105-139 | the same holds for all message parts of one FETCH response |
| `Monitor.ProcessIdAdvances` | email_monitor.py:99-139 | the same holds for one UNSEEN id, whether it is skipped, fails to fetch or is processed |
| `Monitor.RunIdsAdvances` | email_monitor.py:99-139 | over the loop the tables only grow, the processed set only grows, and only by listed ids |
| `Monitor.PassAdvances` | email_monitor.py:87-148 | over a whole pass, successful or not: the processed set never shrinks and gains only ids the server listed; no row is deleted and no flag cleared; the sent, failed and monitored counts never decrease; exactly one `monitored_emails` row is logged per message counted |
| `Monitor.ProcessedIdsSkipped` | email_monitor.py:99-101 | ids already in the processed set are skipped: nothing is logged, no rule is evaluated, nothing is counted |
| `Monitor.ProcessMessagesMarksSeen` | email_monitor.py:105-136 | after a non-empty FETCH response is processed without failure, its id is in the processed set |
| `Monitor.RunIdsCovers` | email_monitor.py:99-137 | after a loop that did not fail, each listed id is processed, or FETCH returned no message part for it |
| `Monitor.CoveredIdsChangeNothing` | email_monitor.py:99-137 | a loop in which every id is processed already or yields no message part changes nothing |
| `Monitor.SecondPassProcessesNothing` | email_monitor.py:99-137 | running the same pass again after one whose loop completed logs nothing, sends nothing, adds no id and reports 0 |
| `Monitor.SingleMessagePass` | email_monitor.py:99-144 | a pass over one new id whose FETCH yields one message is exactly that message's processing step |
| `Monitor.EmailMonitor.constructor` | email_monitor.py:12-16 | a monitor starts with an empty processed set over the given store |
| `Monitor.EmailMonitor.SendNotification` | email_sender.py:103-110 | with no address configured, nothing is logged and the result is false. Otherwise one `sent_emails` row is logged: 'sent' on delivery, or 'failed' with the error text. The result is true exactly on delivery |
| `Monitor.EmailMonitor.CheckNotificationRules` | email_monitor.py:60-85 | the loop over the active rules with its veto flag returns exactly the matched names of the current rule table |
| `Monitor.EmailMonitor.HandleMessage` | email_monitor.py:105-139 | one message part changes the store and the processed set exactly as `ProcessMessage` describes, and reports failure when it raises: the subject does not decode, or the From header is missing or cannot be bound |
| `Monitor.EmailMonitor.MonitorInbox` | email_monitor.py:87-148 | the pass leaves the store and the processed set in the state `Pass` describes. It returns the number of messages processed, or 0 when an exception ended the pass |
| `Scenarios.LogSentEmailTest` | test_email_system.py:34-43 | logging a sent email on a new store returns id 1, which is positive |
| `Scenarios.AddNotificationRuleTest` | test_email_system.py:45-54 | adding a rule on a new store returns id 1, and the rule is active with its filters |
| `Scenarios.GetActiveRulesTest` | test_email_system.py:56-68 | after two rules are added to a new store, the active-rule query returns 2 rules, in insertion order |
| `Scenarios.EmailStatsTest` | test_email_system.py:70-81 | two 'sent' logs and one 'failed' log with nothing monitored give stats {sent 2, failed 1, monitored 0} |
| `Scenarios.FiltersAreConjunctive` | email_monitor.py:70-80 | a rule with sender filter "alice" and subject filter "urgent" does not match a mail from alice@x.com about "fyi" |
| `Scenarios.MatchingIgnoresCase` | email_monitor.py:75 | the subject filter "urgent" matches the subject "URGENT" |
| `Scenarios.UrgentMessageScenario` | email_monitor.py:99-137 | one unseen mail from boss@corp.com titled "Urgent: deadline" and one rule with subject filter "urgent": one flagged monitored row, one 'sent' notification titled "Email Alert: Deadlines", and the pass reports 1 |
| `Scenarios.NoRulesScenario` | email_monitor.py:115-120 | the same mail with no rules is still logged, unflagged; nothing is sent and the pass reports 1 |
| `Scenarios.RepeatedPassScenario` | email_monitor.py:99-101 | the same pass run twice reports 1 and then 0; the store holds one monitored row and `sent_emails` stays empty |
| `Scenarios.UndecodableSubjectScenario` | email_monitor.py:112-148 | a mail from boss@corp.com whose subject names the unknown charset `unknown-8bit`: the pass reports 0, nothing is logged and no id is processed |
| `Scenarios.EightBitSenderScenario` | email_monitor.py:111-148 | a mail whose From header "José <j@x.com>" arrives as raw UTF-8 bytes: the pass reports 0, nothing is logged and no id is processed |

## Left out

- IMAP transport (`connect`, login, `select`, `search`, `fetch`, `close`, `logout`) is network I/O. The model takes the session's answers as the `MailSource` input. FETCH (RFC822) also sets `\Seen` on the server, which affects later UNSEEN searches. The model does not capture that: each pass gets its own UNSEEN list.
- MIME parsing and header decoding (`message_from_bytes`, `decode_header`, charset decoding, the multipart walk) are library code. A message is given as its From header with whether sqlite3 can bind it, its Subject header with the pieces already decoded (or marked as failing to decode, which the pass handles), and its decoded text body. Which headers fail to decode or to bind is therefore an input, not computed.
- Python's Unicode `str.lower()` is left out; lower-casing is ASCII only.
- `start_monitoring` (an endless loop with `time.sleep`) and `scheduler.py` deal only with clocks and cadence, so they are left out.
- `email_sender.py` is left out except for what `send_notification` does to the store. MIME composition, attachments, bulk CSV sending and templating are not modelled. The SMTP outcome is the `Transport` input.
- `Transport` is a function of (recipient, subject, body), so two identical notifications get the same SMTP outcome, while real `send_email` calls can deliver one and fail the other. No property proved here depends on this.
- `main.py` (menu and `input()`) and `config.py` (environment variables) are left out. `NOTIFICATION_EMAIL` is an input.
- SQLite mechanics are left out: connections, commits, `CURRENT_TIMESTAMP` columns, and the database errors a failing disk would raise. The store constructor models a new database file, as the tests use. No code path disables a rule, so `enabled` is false only in tables built by hand.
- The `print` output of the pass is left out.
- The `mark_as_read` parameter of `monitor_inbox` is left out because the code never reads it. `folder` only reaches `select`, which belongs to the session input.
