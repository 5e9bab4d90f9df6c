/** The firewall rule engine: a request (action, resource) is refused iff
    some enabled rule with a valid pattern matching "action:resource" has
    action "block". */
module SentryRules {
  import opened Common

  /** A firewall rule; `action` is "block", "allow" or "alert". */
  datatype Rule = Rule(
    id: Uuid,
    name: string,
    description: string,
    pattern: string,
    action: string,
    enabled: bool,
    createdAt: Time,
    updatedAt: Time)

  /** regexp.MatchString(pattern, subject): whether the pattern matches, or
      None when the pattern does not compile. */
  type Matcher = (string, string) -> Option<bool>

  /** The text every pattern is matched against. */
  function Subject(action: string, resource: string): (s: string)
    ensures |s| == |action| + 1 + |resource| && s[|action|] == ':'
    ensures s[..|action|] == action && s[|action| + 1..] == resource
  {
    action + ":" + resource
  }

  /** The rule refuses the subject: enabled, its pattern compiles and
      matches, and its action is "block". */
  predicate Blocks(rule: Rule, subject: string, matches: Matcher)
  {
    rule.enabled && matches(rule.pattern, subject) == Some(true) && rule.action == "block"
  }

  /** The scan over the rules in order: disabled rules and rules whose
      pattern does not compile are skipped, the first matching "block" rule
      refuses, and a matching rule with any other action does not stop the
      scan. */
  function Scan(rules: seq<Rule>, subject: string, matches: Matcher): (allowed: bool)
    ensures !allowed <==> exists i :: 0 <= i < |rules| && Blocks(rules[i], subject, matches)
    decreases |rules|
  {
    if rules == [] then true
    else
      var rule := rules[0];
      var rest := Scan(rules[1..], subject, matches);
      assert forall i :: 1 <= i < |rules| ==> rules[i] == rules[1..][i - 1];
      if !rule.enabled then rest
      else match matches(rule.pattern, subject)
        case None => rest
        case Some(matched) => if matched && rule.action == "block" then false else rest
  }

  /** Evaluate on the answer of ListRules: a listing error refuses with that
      error (`Err(e)` stands for `(false, e)`); otherwise the scan decides. */
  function Evaluate(listed: Result<seq<Rule>>, action: string, resource: string, matches: Matcher): (r: Result<bool>)
    ensures listed.Err? ==> r == Err(listed.error)
    ensures listed.Ok? ==> r.Ok? && (!r.value <==> exists i :: 0 <= i < |listed.value| && Blocks(listed.value[i], Subject(action, resource), matches))
  {
    match listed
    case Err(e) => Err(e)
    case Ok(rules) => Ok(Scan(rules, Subject(action, resource), matches))
  }

  /** An empty rule set allows everything. */
  lemma NoRulesAllow(action: string, resource: string, matches: Matcher)
    ensures Evaluate(Ok([]), action, resource, matches) == Ok(true)
  {
  }

  /** The outcome does not depend on the order the rules are listed in: a
      matching "allow" rule listed before a matching "block" rule does not
      override it. */
  lemma ScanIgnoresOrder(rules: seq<Rule>, reordered: seq<Rule>, subject: string, matches: Matcher)
    requires multiset(rules) == multiset(reordered)
    ensures Scan(rules, subject, matches) == Scan(reordered, subject, matches)
  {
    if !Scan(rules, subject, matches) {
      var i :| 0 <= i < |rules| && Blocks(rules[i], subject, matches);
      assert rules[i] in multiset(reordered);
      var j :| 0 <= j < |reordered| && reordered[j] == rules[i];
    }
    if !Scan(reordered, subject, matches) {
      var j :| 0 <= j < |reordered| && Blocks(reordered[j], subject, matches);
      assert reordered[j] in multiset(rules);
      var i :| 0 <= i < |rules| && rules[i] == reordered[j];
    }
  }

  /** Disabled rules never influence the outcome: removing them, or adding
      more, changes nothing. */
  lemma {:induction false} DisabledRulesIgnored(rules: seq<Rule>, subject: string, matches: Matcher)
    ensures Scan(rules, subject, matches) == Scan(EnabledOnly(rules), subject, matches)
    decreases |rules|
  {
    if rules != [] {
      DisabledRulesIgnored(rules[1..], subject, matches);
      assert rules == [rules[0]] + rules[1..];
    }
  }

  function EnabledOnly(rules: seq<Rule>): (kept: seq<Rule>)
    ensures forall r :: r in kept <==> r in rules && r.enabled
    decreases |rules|
  {
    if rules == [] then []
    else (if rules[0].enabled then [rules[0]] else []) + EnabledOnly(rules[1..])
  }
}
