# Role permissions of the point-of-sale front end

This project models the permission resolver of a small retail / point-of-sale web
front end. `defineAbilitiesFor(role)` in `src/Spa/ablity.js` turns a role name
into an ordered list of rules. It does this with a rule builder. Every `can(action, subject)`
call appends an allow rule. Every `cannot(action, subject)` call appends a deny rule.
The UI then asks the built ability `can(action, subject)` to decide what to show.

The model has two modules:

- `Casl` (`casl.dfy`) covers the part of the permission library that the resolver uses:
  - the `Effect` and `Rule` datatypes;
  - the builder steps `Grant` (`can`) and `Forbid` (`cannot`);
  - the wildcard subject `"all"` and the matching rule `Matches`, kept as a plain
    definition;
  - the query `Can`, which scans the rules from the last one to the first. The first
    rule that matches decides: an allow answers yes and a deny answers no. When no rule
    matches, the answer is no.

  `Can` is proved equal to an independent reference definition, `LastMatchAllows`
  ("the last matching rule exists and is an allow"). It is also proved equal to the
  imperative query loop `Evaluate`.
- `Ability` (`ability.dfy`) covers the resolver itself. `Rules(role)` reproduces the
  builder calls for each role in source order. The lemmas state what each role may do.

The library's query semantics are not part of the repository's source. They are
modelled as the library documents them:
- a rule matches a query when the actions are equal and the rule's subject is either
  the queried subject or `"all"`;
- the most recently defined matching rule wins;
- when no rule matches, the answer is no.

## Model

| member | source | states |
|---|---|---|
| Ability.Rules | src/Spa/ablity.js:6-18 | An unknown role gets no rules. Every rule concerns `access`, `view` or `use`. All grants come before all denials. Only grants use the wildcard subject. Kassa's rules are all grants. |
| Ability.AdminRuleSequence | src/Spa/ablity.js:7-14 | Admin's rules are exactly the eight calls in source order: allow access/admin, allow view/all, allow use/all, deny use on Create Category, Create Product, Edit and Remove, then deny view/Actions. |
| Ability.KassaRuleSequence | src/Spa/ablity.js:15-17 | Kassa's rules are exactly allow use/all followed by allow view/all. |
| Ability.AdminCan | src/Spa/ablity.js:6-14 | Admin is allowed a query exactly when it is access on "admin", view on any subject but "Actions", or use on any subject outside the four subjects denied `use` at lines 10-13. |
| Ability.AdminView | src/Spa/ablity.js:8-14 | Admin may view a subject if and only if it is not "Actions": the later deny overrides the wildcard grant. |
| Ability.AdminUse | src/Spa/ablity.js:9-13 | Admin may use a subject if and only if it is not Create Category, Create Product, Edit or Remove. |
| Ability.AdminAccess | src/Spa/ablity.js:7 | Admin may access "admin" and no other subject. |
| Ability.AdminOtherActions | src/Spa/ablity.js:7-14 | Admin is refused every action other than access, view and use (for example delete), on every subject. |
| Ability.KassaCan | src/Spa/ablity.js:15-17 | Kassa is allowed a query if and only if its action is use or view, on any subject. In particular kassa has no access permission, not even on "kassa". |
| Ability.UnknownRoleCannot | src/Spa/ablity.js:6-20 | A role other than admin and kassa is refused every action on every subject. |
| Ability.SameAnswersIffSameRoleKind | src/Spa/ablity.js:3-21 | Two roles give the same answer to every query if and only if they are the same role or both unknown. So the answers depend on the role alone, and the three kinds of role can be told apart. |
| Casl.Grant | src/Spa/ablity.js:7-9 | A builder `can(action, subject)` call keeps the earlier rules in order and appends one allow rule that matches the given action on the given subject, and nothing else unless that subject is `"all"`, in which case it matches the action on every subject. |
| Casl.Forbid | src/Spa/ablity.js:10-14 | A builder `cannot(action, subject)` call keeps the earlier rules in order and appends one deny rule that matches the given action on the given subject, and nothing else unless that subject is `"all"`, in which case it matches the action on every subject. |
| Ability.BuilderStepsAnswer | src/Spa/ablity.js:7-17 | For one query and every rule list: a `can` step adds exactly the queries it matches, and a `cannot` step removes exactly the queries it matches. |
| Casl.Can | src/Spa/ablity.js:20 | A yes answer is always backed by an allow rule that matches the query. |
| Casl.CanIffLastMatchAllows | src/Spa/ablity.js:20 | The backwards scan answers yes if and only if some matching rule has no matching rule after it and that rule is an allow. |
| Casl.Evaluate | src/Spa/ablity.js:20 | The library's query loop returns yes if and only if the last matching rule is an allow, and it always gives the same answer as `Can`. |
| Casl.LaterRuleOverrides | src/Spa/ablity.js:8-14 | A rule appended after all others decides every query it matches, whatever came before: a trailing deny forbids and a trailing allow permits. |
| Casl.UnrelatedRuleIsInert | src/Spa/ablity.js:10-14 | Appending a rule that does not match a query leaves that query's answer unchanged. |
| Casl.GrantAnswers | src/Spa/ablity.js:7-9 | A `can(action', subject')` step allows exactly the queries it matches, plus what the earlier rules allowed. |
| Casl.ForbidAnswers | src/Spa/ablity.js:10-14 | A `cannot(action', subject')` step allows what the earlier rules allowed, minus exactly the queries it matches. |
| Casl.NoRuleForActionDenies | src/Spa/ablity.js:20 | Every query is refused for an action that no rule mentions. |

## Left out

- `src/servise.js` is not part of this model. It is an HTTP client wrapper that does
  network I/O and reads tokens from browser storage. Both of its request interceptors
  write the `Authorization` header; which one wins depends on the order in which the
  HTTP library runs them, which the model cannot see.
- The library's condition objects, field-level restrictions, query-operator matching and
  the `manage` action wildcard are not modelled. The resolver uses none of them.
- The library's `cannot(action, subject)` query on a built ability is not modelled
  separately. It is the negation of `can`.
- Determinism of the resolver is not a lemma of its own. Every Dafny function is
  deterministic, so resolving a role twice gives the same rules by construction.
  `Ability.SameAnswersIffSameRoleKind` states the non-trivial part instead.
- Only the kassa rules built at src/Spa/ablity.js:15-17 are modelled: `use` and `view` on everything.
