/**
 * The notification-rule matcher of email_monitor.py (check_notification_rules):
 * each filter of a rule that is set can veto the match, so filters combine
 * conjunctively, and the result lists the names of the matching rules in
 * rule order.
 */
module Rules {
  import opened Wrappers
  import opened Text
  import opened Store

  /** Python truthiness of a filter column: None and "" both leave the filter unset. */
  predicate IsSet(filter: Option<string>)
  {
    filter.Some? && filter.value != ""
  }

  /** One filter test: a set filter that is not a case-insensitive substring of its field. */
  predicate Vetoes(filter: Option<string>, field: string)
  {
    IsSet(filter) && !Contains(Lower(field), Lower(filter.value))
  }

  /**
   * The body of the loop over rules: `match` starts true and each of the
   * three filter tests may set it to false.
   */
  predicate RuleMatches(rule: Rule, sender: string, subject: string, body: string)
  {
    var matchAtStart := true;
    var afterSender := if Vetoes(rule.senderFilter, sender) then false else matchAtStart;
    var afterSubject := if Vetoes(rule.subjectFilter, subject) then false else afterSender;
    var afterKeyword := if Vetoes(rule.keywordFilter, body) then false else afterSubject;
    afterKeyword
  }

  /** A set filter is found, ignoring ASCII case, somewhere in its field. */
  ghost predicate FoundIn(filter: Option<string>, field: string)
    requires IsSet(filter)
  {
    exists i :: OccursAt(Lower(field), Lower(filter.value), i)
  }

  /**
   * A rule matches exactly when each of its set filters occurs, ignoring
   * case, in the corresponding field: sender filter in the sender, subject
   * filter in the subject, keyword filter in the body preview.
   */
  lemma RuleMatchesIff(rule: Rule, sender: string, subject: string, body: string)
    ensures RuleMatches(rule, sender, subject, body) <==>
      && (IsSet(rule.senderFilter) ==> FoundIn(rule.senderFilter, sender))
      && (IsSet(rule.subjectFilter) ==> FoundIn(rule.subjectFilter, subject))
      && (IsSet(rule.keywordFilter) ==> FoundIn(rule.keywordFilter, body))
  {
    if IsSet(rule.senderFilter) { ContainsIffOccurs(Lower(sender), Lower(rule.senderFilter.value)); }
    if IsSet(rule.subjectFilter) { ContainsIffOccurs(Lower(subject), Lower(rule.subjectFilter.value)); }
    if IsSet(rule.keywordFilter) { ContainsIffOccurs(Lower(body), Lower(rule.keywordFilter.value)); }
  }

  /** A rule with no filter set is a catch-all: it matches every message. */
  lemma CatchAllMatches(rule: Rule, sender: string, subject: string, body: string)
    requires !IsSet(rule.senderFilter) && !IsSet(rule.subjectFilter) && !IsSet(rule.keywordFilter)
    ensures RuleMatches(rule, sender, subject, body)
  {
  }

  /**
   * A rule with only a sender filter matches exactly when the filter occurs
   * in the sender, whatever the subject and body.
   */
  lemma SenderOnlyRule(rule: Rule, sender: string, subject: string, body: string)
    requires IsSet(rule.senderFilter) && !IsSet(rule.subjectFilter) && !IsSet(rule.keywordFilter)
    ensures RuleMatches(rule, sender, subject, body) <==> FoundIn(rule.senderFilter, sender)
  {
    ContainsIffOccurs(Lower(sender), Lower(rule.senderFilter.value));
  }

  /** check_notification_rules: the names of the matching rules, in rule order. */
  function MatchingRuleNames(rules: seq<Rule>, sender: string, subject: string, body: string): (names: seq<string>)
    ensures |names| <= |rules|
  {
    if rules == [] then []
    else
      var earlier := MatchingRuleNames(rules[..|rules| - 1], sender, subject, body);
      var last := rules[|rules| - 1];
      if RuleMatches(last, sender, subject, body) then earlier + [last.name] else earlier
  }

  /** The rules that match, in order: a filter written front to back, independent of MatchingRuleNames. */
  function MatchingRules(rules: seq<Rule>, sender: string, subject: string, body: string): seq<Rule>
  {
    if rules == [] then []
    else
      (if RuleMatches(rules[0], sender, subject, body) then [rules[0]] else []) +
      MatchingRules(rules[1..], sender, subject, body)
  }

  lemma {:induction false} MatchingRulesAppend(a: seq<Rule>, b: seq<Rule>, sender: string, subject: string, body: string)
    ensures MatchingRules(a + b, sender, subject, body) ==
            MatchingRules(a, sender, subject, body) + MatchingRules(b, sender, subject, body)
  {
    if a != [] {
      assert (a + b)[1..] == a[1..] + b;
      MatchingRulesAppend(a[1..], b, sender, subject, body);
    } else {
      assert a + b == b;
    }
  }

  /** The rule_name column of `rules`, in order. */
  function RuleNames(rules: seq<Rule>): seq<string>
  {
    seq(|rules|, i requires 0 <= i < |rules| => rules[i].name)
  }

  /** `xs` is obtained from `ys` by deleting elements (order kept). */
  predicate IsSubsequence(xs: seq<string>, ys: seq<string>)
    decreases |ys|
  {
    xs == [] ||
    (ys != [] &&
     ((xs[|xs| - 1] == ys[|ys| - 1] && IsSubsequence(xs[..|xs| - 1], ys[..|ys| - 1])) ||
      IsSubsequence(xs, ys[..|ys| - 1])))
  }

  /** The matched names keep the order of the rules they come from. */
  lemma {:induction false} MatchedNamesInRuleOrder(rules: seq<Rule>, sender: string, subject: string, body: string)
    ensures IsSubsequence(MatchingRuleNames(rules, sender, subject, body), RuleNames(rules))
  {
    if rules != [] {
      var init := rules[..|rules| - 1];
      MatchedNamesInRuleOrder(init, sender, subject, body);
      assert RuleNames(rules)[..|rules| - 1] == RuleNames(init);
      var names := MatchingRuleNames(rules, sender, subject, body);
      if RuleMatches(rules[|rules| - 1], sender, subject, body) {
        assert names[..|names| - 1] == MatchingRuleNames(init, sender, subject, body);
      }
    }
  }

  /**
   * A name is in the result exactly when some rule carrying that name
   * matches the message.
   */
  lemma {:induction false} MatchedNameIff(rules: seq<Rule>, sender: string, subject: string, body: string, name: string)
    ensures name in MatchingRuleNames(rules, sender, subject, body) <==>
      exists i :: 0 <= i < |rules| && rules[i].name == name && RuleMatches(rules[i], sender, subject, body)
  {
    if rules != [] {
      var init := rules[..|rules| - 1];
      MatchedNameIff(init, sender, subject, body, name);
      if i :| 0 <= i < |init| && init[i].name == name && RuleMatches(init[i], sender, subject, body) {
        assert rules[i] == init[i];
      }
      if i :| 0 <= i < |rules| - 1 && rules[i].name == name && RuleMatches(rules[i], sender, subject, body) {
        assert init[i] == rules[i];
      }
    }
  }

  /** No name is returned exactly when no rule matches: the notification decision. */
  lemma NoMatchIffEmpty(rules: seq<Rule>, sender: string, subject: string, body: string)
    ensures MatchingRuleNames(rules, sender, subject, body) == [] <==>
      forall i :: 0 <= i < |rules| ==> !RuleMatches(rules[i], sender, subject, body)
  {
    var names := MatchingRuleNames(rules, sender, subject, body);
    if names != [] {
      MatchedNameIff(rules, sender, subject, body, names[0]);
    }
    if i :| 0 <= i < |rules| && RuleMatches(rules[i], sender, subject, body) {
      MatchedNameIff(rules, sender, subject, body, rules[i].name);
    }
  }

  /** When every rule is a catch-all, every rule name is returned, in order. */
  lemma {:induction false} AllCatchAllNamesAll(rules: seq<Rule>, sender: string, subject: string, body: string)
    requires forall i :: 0 <= i < |rules| ==>
      !IsSet(rules[i].senderFilter) && !IsSet(rules[i].subjectFilter) && !IsSet(rules[i].keywordFilter)
    ensures MatchingRuleNames(rules, sender, subject, body) == RuleNames(rules)
  {
    if rules != [] {
      var init := rules[..|rules| - 1];
      assert forall i :: 0 <= i < |init| ==> init[i] == rules[i];
      AllCatchAllNamesAll(init, sender, subject, body);
      assert RuleNames(rules) == RuleNames(init) + [rules[|rules| - 1].name];
    }
  }

  /**
   * The result is exactly the names of the matching rules, one per matching
   * rule and in rule order: two matching rules with the same name give that
   * name twice.
   */
  lemma {:induction false} MatchedNamesAreMatchingRules(rules: seq<Rule>, sender: string, subject: string, body: string)
    ensures MatchingRuleNames(rules, sender, subject, body) == RuleNames(MatchingRules(rules, sender, subject, body))
  {
    if rules != [] {
      var init := rules[..|rules| - 1];
      var last := rules[|rules| - 1];
      MatchedNamesAreMatchingRules(init, sender, subject, body);
      assert rules == init + [last];
      MatchingRulesAppend(init, [last], sender, subject, body);
      assert [last][1..] == [];
      var front := MatchingRules(init, sender, subject, body);
      var tail := MatchingRules([last], sender, subject, body);
      assert RuleNames(front + tail) == RuleNames(front) + RuleNames(tail);
    }
  }
}
