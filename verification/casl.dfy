/**
 The part of the permission library that the resolver relies on: a rule is an
 allow or a deny of one action on one subject (or on every subject, through the
 wildcard "all"), an ability is the ordered list of rules its builder produced,
 and a query is answered by the most recently defined rule that matches it.

 Conditions, field restrictions and the "manage" action wildcard are not used by
 the resolver and are not modelled.
 */
module Casl {

  /** The subject wildcard: a rule on "all" applies to every subject. */
  const All: string := "all"

  /** `can(...)` on the builder produces an Allow rule, `cannot(...)` a Deny rule. */
  datatype Effect = Allow | Deny

  datatype Rule = Rule(effect: Effect, action: string, subject: string)

  /** The library's matching rule, a definition: a rule applies to a query when
      the actions are equal and its subject is the queried one or the wildcard. */
  predicate Matches(rule: Rule, action: string, subject: string)
  {
    rule.action == action && (rule.subject == subject || rule.subject == All)
  }

  /** Builder step `can(action, subject)`: appends an Allow rule. */
  function Grant(rules: seq<Rule>, action: string, subject: string): (r: seq<Rule>)
    ensures |r| == |rules| + 1 && r[..|rules|] == rules
    ensures r[|rules|].effect == Allow && Matches(r[|rules|], action, subject)
    ensures forall a, s :: Matches(r[|rules|], a, s) ==> a == action && (s == subject || subject == All)
  {
    rules + [Rule(Allow, action, subject)]
  }

  /** Builder step `cannot(action, subject)`: appends a Deny rule. */
  function Forbid(rules: seq<Rule>, action: string, subject: string): (r: seq<Rule>)
    ensures |r| == |rules| + 1 && r[..|rules|] == rules
    ensures r[|rules|].effect == Deny && Matches(r[|rules|], action, subject)
    ensures forall a, s :: Matches(r[|rules|], a, s) ==> a == action && (s == subject || subject == All)
  {
    rules + [Rule(Deny, action, subject)]
  }

  /** Index i holds the rule that decides the query: it matches, and no later
      rule does. */
  ghost predicate Decides(rules: seq<Rule>, i: int, action: string, subject: string)
  {
    0 <= i < |rules| && Matches(rules[i], action, subject)
    && forall j :: i < j < |rules| ==> !Matches(rules[j], action, subject)
  }

  /** Reference meaning of a query: some rule decides it and that rule allows. */
  ghost predicate LastMatchAllows(rules: seq<Rule>, action: string, subject: string)
  {
    exists i :: Decides(rules, i, action, subject) && rules[i].effect == Allow
  }

  /** `ability.can(action, subject)`: scan the rules from the last to the first;
      the first rule that matches decides, and no match means "no". */
  function Can(rules: seq<Rule>, action: string, subject: string): (r: bool)
    ensures r ==> exists i :: 0 <= i < |rules| && Matches(rules[i], action, subject) && rules[i].effect == Allow
    decreases |rules|
  {
    if |rules| == 0 then false
    else
      var last := rules[|rules| - 1];
      if Matches(last, action, subject) then last.effect == Allow
      else
        var r := Can(rules[..|rules| - 1], action, subject);
        assert r ==> exists i :: 0 <= i < |rules| - 1 && Matches(rules[i], action, subject) && rules[i].effect == Allow;
        r
  }

  /** The scan answers exactly as the reference meaning does. */
  lemma {:induction false} CanIffLastMatchAllows(rules: seq<Rule>, action: string, subject: string)
    ensures Can(rules, action, subject) <==> LastMatchAllows(rules, action, subject)
    decreases |rules|
  {
    if |rules| > 0 {
      var n := |rules| - 1;
      var front := rules[..n];
      if Matches(rules[n], action, subject) {
        assert Decides(rules, n, action, subject);
        if LastMatchAllows(rules, action, subject) {
          var i :| Decides(rules, i, action, subject) && rules[i].effect == Allow;
          assert i == n;
        }
      } else {
        CanIffLastMatchAllows(front, action, subject);
        if LastMatchAllows(front, action, subject) {
          var i :| Decides(front, i, action, subject) && front[i].effect == Allow;
          assert Decides(rules, i, action, subject);
        }
        if LastMatchAllows(rules, action, subject) {
          var i :| Decides(rules, i, action, subject) && rules[i].effect == Allow;
          assert Decides(front, i, action, subject);
        }
      }
    }
  }

  /** A rule defined later overrides every earlier rule on the queries it
      matches: a trailing deny forbids, a trailing allow permits. */
  lemma {:induction false} LaterRuleOverrides(rules: seq<Rule>, rule: Rule, action: string, subject: string)
    requires Matches(rule, action, subject)
    ensures Can(rules + [rule], action, subject) <==> rule.effect == Allow
  {
  }

  /** Appending a rule that does not match a query leaves its answer unchanged. */
  lemma {:induction false} UnrelatedRuleIsInert(rules: seq<Rule>, rule: Rule, action: string, subject: string)
    requires !Matches(rule, action, subject)
    ensures Can(rules + [rule], action, subject) == Can(rules, action, subject)
  {
    assert (rules + [rule])[..|rules|] == rules;
  }

  /** Builder step `can(action', subject')` adds exactly the queries it matches
      to what the earlier rules allowed. */
  lemma {:induction false} GrantAnswers(rules: seq<Rule>, action': string, subject': string, action: string, subject: string)
    ensures Can(Grant(rules, action', subject'), action, subject)
        <==> (action == action' && (subject' == subject || subject' == All)) || Can(rules, action, subject)
  {
    var rule := Rule(Allow, action', subject');
    if Matches(rule, action, subject) {
      LaterRuleOverrides(rules, rule, action, subject);
    } else {
      UnrelatedRuleIsInert(rules, rule, action, subject);
    }
  }

  /** Builder step `cannot(action', subject')` removes exactly the queries it
      matches from what the earlier rules allowed. */
  lemma {:induction false} ForbidAnswers(rules: seq<Rule>, action': string, subject': string, action: string, subject: string)
    ensures Can(Forbid(rules, action', subject'), action, subject)
        <==> !(action == action' && (subject' == subject || subject' == All)) && Can(rules, action, subject)
  {
    var rule := Rule(Deny, action', subject');
    if Matches(rule, action, subject) {
      LaterRuleOverrides(rules, rule, action, subject);
    } else {
      UnrelatedRuleIsInert(rules, rule, action, subject);
    }
  }

  /** A rule list without a single rule for an action grants nothing for it. */
  lemma {:induction false} NoRuleForActionDenies(rules: seq<Rule>, action: string, subject: string)
    requires forall i :: 0 <= i < |rules| ==> rules[i].action != action
    ensures !Can(rules, action, subject)
  {
  }

  /** The query loop of the library: walk the rules from the most recent one and
      return the effect of the first that matches, or "no" when none does. */
  method Evaluate(rules: seq<Rule>, action: string, subject: string) returns (allowed: bool)
    ensures allowed <==> LastMatchAllows(rules, action, subject)
    ensures allowed == Can(rules, action, subject)
  {
    CanIffLastMatchAllows(rules, action, subject);
    var k := |rules|;
    while k > 0
      invariant 0 <= k <= |rules|
      invariant forall j :: k <= j < |rules| ==> !Matches(rules[j], action, subject)
    {
      k := k - 1;
      if Matches(rules[k], action, subject) {
        assert Decides(rules, k, action, subject);
        if LastMatchAllows(rules, action, subject) {
          var i :| Decides(rules, i, action, subject) && rules[i].effect == Allow;
          assert i == k;
        }
        return rules[k].effect == Allow;
      }
    }
    allowed := false;
  }
}
