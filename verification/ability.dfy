/**
 The role resolver `defineAbilitiesFor(role)`: the rules each role is given,
 in the order the builder receives them, and what those rules answer.
 */
module Ability {
  import opened Casl

  const Admin: string := "admin"
  const Kassa: string := "kassa"

  /** The four subjects admin is denied `use` on, although `use` is granted on
      everything. */
  const AdminLockedUses: set<string> := {"Create Category", "Create Product", "Edit", "Remove"}

  /** The admin branch: three grants, then five denials narrowing them. */
  function AdminRules(): seq<Rule>
  {
    var b0 := Grant([], "access", "admin");
    var b1 := Grant(b0, "view", All);
    var b2 := Grant(b1, "use", All);
    var b3 := Forbid(b2, "use", "Create Category");
    var b4 := Forbid(b3, "use", "Create Product");
    var b5 := Forbid(b4, "use", "Edit");
    var b6 := Forbid(b5, "use", "Remove");
    Forbid(b6, "view", "Actions")
  }

  /** The kassa branch: two wildcard grants. */
  function KassaRules(): seq<Rule>
  {
    var b0 := Grant([], "use", All);
    Grant(b0, "view", All)
  }

  /** The rule sequence built for a role: admin gets three grants narrowed by
      five denials, kassa two grants, and every other role nothing. */
  function Rules(role: string): (rules: seq<Rule>)
    ensures role != Admin && role != Kassa ==> rules == []
    ensures forall i :: 0 <= i < |rules| ==> rules[i].action in {"access", "view", "use"}
    // grants come first and denials after them, so a denial narrows a grant
    ensures forall i, j :: 0 <= i < j < |rules| && rules[i].effect == Deny ==> rules[j].effect == Deny
    // only a grant uses the wildcard subject
    ensures forall i :: 0 <= i < |rules| && rules[i].subject == All ==> rules[i].effect == Allow
    ensures role == Kassa ==> forall i :: 0 <= i < |rules| ==> rules[i].effect == Allow
  {
    if role == Admin then AdminRules()
    else if role == Kassa then KassaRules()
    else []
  }

  /** The admin rule sequence, rule by rule. */
  lemma AdminRuleSequence()
    ensures Rules(Admin) == [
      Rule(Allow, "access", "admin"),
      Rule(Allow, "view", "all"),
      Rule(Allow, "use", "all"),
      Rule(Deny, "use", "Create Category"),
      Rule(Deny, "use", "Create Product"),
      Rule(Deny, "use", "Edit"),
      Rule(Deny, "use", "Remove"),
      Rule(Deny, "view", "Actions")]
  {
  }

  /** The kassa rule sequence: two wildcard grants and no denial. */
  lemma KassaRuleSequence()
    ensures Rules(Kassa) == [Rule(Allow, "use", "all"), Rule(Allow, "view", "all")]
  {
  }

  /** What each builder step does to the answer of one query, for every rule
      list it is applied to. */
  lemma BuilderStepsAnswer(action: string, subject: string)
    ensures forall rs, a, s ::
              Can(Grant(rs, a, s), action, subject)
              <==> (action == a && (s == subject || s == All)) || Can(rs, action, subject)
    ensures forall rs, a, s ::
              Can(Forbid(rs, a, s), action, subject)
              <==> !(action == a && (s == subject || s == All)) && Can(rs, action, subject)
  {
    forall rs, a, s ensures Can(Grant(rs, a, s), action, subject)
        <==> (action == a && (s == subject || s == All)) || Can(rs, action, subject)
    {
      GrantAnswers(rs, a, s, action, subject);
    }
    forall rs, a, s ensures Can(Forbid(rs, a, s), action, subject)
        <==> !(action == a && (s == subject || s == All)) && Can(rs, action, subject)
    {
      ForbidAnswers(rs, a, s, action, subject);
    }
  }

  /** Everything admin may do: access "admin", view all but "Actions", use all
      but the four subjects denied `use`; every other query is refused. */
  lemma AdminCan(action: string, subject: string)
    ensures Can(Rules(Admin), action, subject)
        <==> || (action == "access" && subject == "admin")
             || (action == "view" && subject != "Actions")
             || (action == "use" && subject !in AdminLockedUses)
  {
    BuilderStepsAnswer(action, subject);
  }

  /** Admin may view every subject except "Actions": the later deny overrides
      the wildcard grant for that one subject. */
  lemma AdminView(subject: string)
    ensures Can(Rules(Admin), "view", subject) <==> subject != "Actions"
  {
    AdminCan("view", subject);
  }

  /** Admin may use every subject except the four denied ones. */
  lemma AdminUse(subject: string)
    ensures Can(Rules(Admin), "use", subject) <==> subject !in AdminLockedUses
  {
    AdminCan("use", subject);
  }

  /** Admin may access "admin" and nothing else. */
  lemma AdminAccess(subject: string)
    ensures Can(Rules(Admin), "access", subject) <==> subject == "admin"
  {
    AdminCan("access", subject);
  }

  /** Any action admin was given no rule for is refused by default. */
  lemma AdminOtherActions(action: string, subject: string)
    requires action !in {"access", "view", "use"}
    ensures !Can(Rules(Admin), action, subject)
  {
    NoRuleForActionDenies(Rules(Admin), action, subject);
  }

  /** Kassa may use and view every subject and do nothing else, and in
      particular has no `access` permission, not even on "kassa". */
  lemma KassaCan(action: string, subject: string)
    ensures Can(Rules(Kassa), action, subject) <==> action == "use" || action == "view"
  {
    BuilderStepsAnswer(action, subject);
  }

  /** Any role other than admin and kassa is refused every query. */
  lemma UnknownRoleCannot(role: string, action: string, subject: string)
    requires role != Admin && role != Kassa
    ensures !Can(Rules(role), action, subject)
  {
  }

  /** The answers depend on the role alone and tell the three kinds of role
      apart: two roles answer every query alike exactly when they are the same
      role or both unknown. */
  lemma SameAnswersIffSameRoleKind(role1: string, role2: string)
    ensures (forall action, subject :: Can(Rules(role1), action, subject) == Can(Rules(role2), action, subject))
        <==> (role1 == role2 || (role1 !in {Admin, Kassa} && role2 !in {Admin, Kassa}))
  {
    if role1 != role2 && (role1 in {Admin, Kassa} || role2 in {Admin, Kassa}) {
      // a query that only one of the two roles is granted
      var winner := if Admin in {role1, role2} then Admin else Kassa;
      var action := if winner == Admin then "access" else "use";
      var subject := if winner == Admin then "admin" else "x";
      var loser := if role1 == winner then role2 else role1;
      if winner == Admin { AdminAccess(subject); } else { KassaCan(action, subject); }
      if loser == Kassa { KassaCan(action, subject); } else { UnknownRoleCannot(loser, action, subject); }
      assert Can(Rules(role1), action, subject) != Can(Rules(role2), action, subject);
    }
  }
}
