/** What the pass over a role's rules reports, stated without reference to how it runs. */
module RoleTheorems {
  import opened Sequences
  import opened Values
  import opened Models
  import opened Rules
  import opened RoleRules
  import opened Scopes

  // ----- the triggers of one rule

  ghost predicate IsCombo(rule: RuleId) {
    rule in {11, 12, 23, 30, 31}
  }

  lemma {:induction false} VerbTriggersExact(p: PolicyRule, t: Trigger)
    ensures t in FlatMap(p.verbs, VerbTriggers(p))
            <==> t.variant.Plain? && t.wild == Wild(p)
                 && exists verb :: verb in p.verbs && DangerousVerb(verb) == Some(t.variant.rule)
  {
    hide DangerousVerb;
    InFlatMap(p.verbs, VerbTriggers(p), t);
    assert forall verb :: t in VerbTriggers(p)(verb) <==>
        t.variant.Plain? && t.wild == Wild(p) && DangerousVerb(verb) == Some(t.variant.rule);
  }

  lemma {:induction false} ResourceTriggersExact(p: PolicyRule, t: Trigger)
    ensures t in FlatMap(p.resources, ResourceTriggers(p))
            <==> t.variant.Plain? && t.wild == Wild(p)
                 && exists res :: res in p.resources && ResourceFires(p, res, t.variant.rule)
  {
    hide DangerousResource, HomeGroup, Lists;
    InFlatMap(p.resources, ResourceTriggers(p), t);
    assert forall res :: t in ResourceTriggers(p)(res) <==>
        t.variant.Plain? && t.wild == Wild(p) && ResourceFires(p, res, t.variant.rule);
  }

  lemma {:induction false} TableRules(verb: string, res: string, p: PolicyRule, rule: RuleId)
    requires IsCombo(rule)
    ensures DangerousVerb(verb) != Some(rule) && !ResourceFires(p, res, rule)
  {
  }

  function WildFor(p: PolicyRule, v: Variant): bool {
    v.AnyGroup? || Wild(p)
  }

  lemma {:induction false} ComboExact(p: PolicyRule, rule: RuleId, t: Trigger)
    ensures t in Combo(p, rule) <==> GrantsOneOf(p, TargetsOf(rule)) && t == Trigger(Plain(rule), Wild(p))
  {
  }

  lemma {:induction false} TriggersSplit(rule: Doc, t: Trigger)
    ensures var p := PolicyRuleOf(rule);
            t in TriggersOf(rule) <==>
            || ("*" in p.groups && t == Trigger(AnyGroup, true))
            || t in FlatMap(p.verbs, VerbTriggers(p)) || t in FlatMap(p.resources, ResourceTriggers(p))
            || (t.variant.Plain? && IsCombo(t.variant.rule) && t.wild == Wild(p)
                && GrantsOneOf(p, TargetsOf(t.variant.rule)))
  {
    hide FlatMap, Combo, VerbTriggers, ResourceTriggers, GrantsOneOf, TargetsOf, Wild, PolicyRuleOf;
    var p := PolicyRuleOf(rule);
    ComboExact(p, SCC_USE, t);
    ComboExact(p, CSR_APPROVAL, t);
    ComboExact(p, SERVICE_ACCOUNT_TOKEN_ACCESS, t);
    ComboExact(p, ESCALATION_BINDINGS, t);
    ComboExact(p, ESCALATION_POD_CREATION, t);
  }

  /** One rule triggers a variant exactly when the variant's condition holds, and every trigger
      carries the wildcard flag of its rule. */
  lemma {:induction false} TriggersExact(rule: Doc, t: Trigger)
    ensures var p := PolicyRuleOf(rule);
            t in TriggersOf(rule) <==> Fires(p, t.variant) && t.wild == WildFor(p, t.variant)
  {
    hide DangerousVerb, ResourceFires, GrantsOneOf, TargetsOf, Wild, PolicyRuleOf, FlatMap, Combo, VerbTriggers,
         ResourceTriggers;
    var p := PolicyRuleOf(rule);
    TriggersSplit(rule, t);
    VerbTriggersExact(p, t);
    ResourceTriggersExact(p, t);
    if t.variant.Plain? && IsCombo(t.variant.rule) {
      forall verb ensures DangerousVerb(verb) != Some(t.variant.rule) {
        TableRules(verb, "", p, t.variant.rule);
      }
      forall res ensures !ResourceFires(p, res, t.variant.rule) {
        TableRules("", res, p, t.variant.rule);
      }
    }
  }

  // ----- the whole role

  ghost predicate FiresIn(rules: seq<Doc>, v: Variant) {
    exists r :: r in rules && Fires(PolicyRuleOf(r), v)
  }

  /** Rule i is the first one that triggers the variant. */
  ghost predicate FirstFiring(rules: seq<Doc>, i: nat, v: Variant)
    requires i < |rules|
  {
    Fires(PolicyRuleOf(rules[i]), v) && forall j :: 0 <= j < i ==> !Fires(PolicyRuleOf(rules[j]), v)
  }

  /** Every variant is reported at most once, and exactly when some rule triggers it. */
  lemma {:induction false} ReportedExact(rules: seq<Doc>, v: Variant)
    ensures DistinctBy(Reported(rules), VariantOf)
    ensures HasKey(Reported(rules), VariantOf, v) <==> FiresIn(rules, v)
  {
    hide TriggersOf, Fires, WildFor;
    var all := FlatMap(rules, TriggersOf);
    FirstByDistinct(all, VariantOf);
    FirstByKeys(all, VariantOf, v);
    if HasKey(all, VariantOf, v) {
      var t :| t in all && VariantOf(t) == v;
      InFlatMap(rules, TriggersOf, t);
      var r :| r in rules && t in TriggersOf(r);
      TriggersExact(r, t);
    }
    if FiresIn(rules, v) {
      var r :| r in rules && Fires(PolicyRuleOf(r), v);
      var t := Trigger(v, WildFor(PolicyRuleOf(r), v));
      TriggersExact(r, t);
      InFlatMap(rules, TriggersOf, t);
    }
  }

  /** The first rule that triggers a variant decides its wildcard flag. */
  lemma {:induction false} EarliestDecides(rules: seq<Doc>, i: nat, v: Variant)
    requires i < |rules| && FirstFiring(rules, i, v)
    ensures Trigger(v, WildFor(PolicyRuleOf(rules[i]), v)) in Reported(rules)
  {
    hide TriggersOf, Fires, WildFor, FlatMap, FirstBy;
    var front, last := rules[..|rules| - 1], rules[|rules| - 1];
    assert rules == front + [last];
    FlatMapSnoc(front, last, TriggersOf);
    var earlier := FlatMap(front, TriggersOf);
    var t := Trigger(v, WildFor(PolicyRuleOf(rules[i]), v));
    if i < |front| {
      assert forall j :: 0 <= j <= i ==> front[j] == rules[j];
      EarliestDecides(front, i, v);
      FirstByPrefix(earlier, TriggersOf(last), VariantOf);
    } else {
      TriggersExact(last, t);
      var all := earlier + TriggersOf(last);
      forall y | y in all && VariantOf(y) == v ensures y == t {
        NotFiringBefore(front, v, y);
        TriggersExact(last, y);
      }
      FirstByKeepsEach(all, VariantOf, t);
    }
  }

  lemma {:induction false} NotFiringBefore(rules: seq<Doc>, v: Variant, t: Trigger)
    requires !FiresIn(rules, v)
    ensures t in FlatMap(rules, TriggersOf) ==> VariantOf(t) != v
  {
    hide TriggersOf, Fires, WildFor;
    InFlatMap(rules, TriggersOf, t);
    if r :| r in rules && t in TriggersOf(r) {
      TriggersExact(r, t);
    }
  }

  /** checkRules, rule by rule: the finding of a variant carries the severity of the first rule
      that triggers it. */
  lemma {:induction false} FindingSeverity(rules: seq<Doc>, c: RoleContext, i: nat, v: Variant)
    requires i < |rules| && FirstFiring(rules, i, v)
    ensures NewFinding(RuleOf(v), SeverityFor(c.scope, WildFor(PolicyRuleOf(rules[i]), v), c.namespaced), c.owner)
            in RoleFindings(rules, c)
  {
    hide Fires, WildFor, SeverityFor, Reported;
    EarliestDecides(rules, i, v);
    var t := Trigger(v, WildFor(PolicyRuleOf(rules[i]), v));
    var k :| 0 <= k < |Reported(rules)| && Reported(rules)[k] == t;
    assert RoleFindings(rules, c)[k] == Render(t, c);
  }

  ghost function RoleIdentity(rule: RuleId, owner: Owner): Identity {
    Identity(rule, owner.kind, owner.name, owner.namespace)
  }

  lemma {:induction false} RenderedId(t: Trigger, c: RoleContext)
    ensures Render(t, c).id == RoleIdentity(RuleOf(t.variant), c.owner)
  {
  }

  lemma {:induction false} RenderSnoc(ts: seq<Trigger>, t: Trigger, c: RoleContext)
    ensures RenderAll(ts + [t], c) == RenderAll(ts, c) + [Render(t, c)]
  {
    hide Render;
  }

  lemma {:induction false} RenderedSnoc(ts: seq<Trigger>, t: Trigger, c: RoleContext, id: Identity)
    ensures multiset(Ids(RenderAll(ts + [t], c)))[id]
            == multiset(Ids(RenderAll(ts, c)))[id] + if RoleIdentity(RuleOf(t.variant), c.owner) == id then 1 else 0
  {
    hide RenderAll, Render;
    RenderSnoc(ts, t, c);
    FlatMapSnoc(RenderAll(ts, c), Render(t, c), IdIn);
    assert IdIn(Render(t, c)) == [RoleIdentity(RuleOf(t.variant), c.owner)] by {
      RenderedId(t, c);
    }
  }

  lemma {:induction false} RenderedCount(ts: seq<Trigger>, c: RoleContext, rule: RuleId)
    requires DistinctBy(ts, VariantOf)
    ensures multiset(Ids(RenderAll(ts, c)))[RoleIdentity(rule, c.owner)]
            == (if HasKey(ts, VariantOf, Plain(rule)) then 1 else 0)
               + (if rule == WILDCARD_RESOURCES && HasKey(ts, VariantOf, AnyGroup) then 1 else 0)
  {
    if ts == [] {
    } else {
      var front, last := ts[..|ts| - 1], ts[|ts| - 1];
      assert ts == front + [last];
      assert !HasKey(front, VariantOf, last.variant);
      RenderedCount(front, c, rule);
      hide HasKey, RenderAll;
      RenderedSnoc(front, last, c, RoleIdentity(rule, c.owner));
      HasKeySnoc(front, last, VariantOf, Plain(rule));
      HasKeySnoc(front, last, VariantOf, AnyGroup);
    }
  }

  /** Each rule ID other than KC-001 is reported once if some rule triggers it and never otherwise;
      KC-001 is reported once per triggered variant. */
  lemma {:induction false} RoleFindingsCount(rules: seq<Doc>, c: RoleContext, rule: RuleId)
    ensures multiset(Ids(RoleFindings(rules, c)))[RoleIdentity(rule, c.owner)]
            == (if FiresIn(rules, Plain(rule)) then 1 else 0)
               + (if rule == WILDCARD_RESOURCES && FiresIn(rules, AnyGroup) then 1 else 0)
  {
    hide Reported, FiresIn;
    ReportedExact(rules, Plain(rule));
    ReportedExact(rules, AnyGroup);
    RenderedCount(Reported(rules), c, rule);
  }

  /** KC-011, KC-012, KC-023, KC-030 and KC-031 are reported exactly when some rule of the role grants
      one of the permissions they are about. */
  lemma {:induction false} ComboReportedIff(rules: seq<Doc>, c: RoleContext, rule: RuleId)
    requires IsCombo(rule)
    ensures RoleIdentity(rule, c.owner) in Ids(RoleFindings(rules, c))
            <==> exists r, t :: r in rules && t in TargetsOf(rule) && Grants(PolicyRuleOf(r), t)
  {
    hide RoleFindings, TargetsOf, Grants, PolicyRuleOf;
    RoleFindingsCount(rules, c, rule);
    assert FiresIn(rules, Plain(rule)) <==> exists r :: r in rules && GrantsOneOf(PolicyRuleOf(r), TargetsOf(rule));
  }

  /** Reordering the rules of a role does not change which IDs are reported, nor how often. */
  lemma {:induction false} RulesPermuted(rules: seq<Doc>, rules': seq<Doc>, c: RoleContext, rule: RuleId)
    requires multiset(rules) == multiset(rules')
    ensures multiset(Ids(RoleFindings(rules, c)))[RoleIdentity(rule, c.owner)]
            == multiset(Ids(RoleFindings(rules', c)))[RoleIdentity(rule, c.owner)]
  {
    hide Fires, RoleFindings;
    RoleFindingsCount(rules, c, rule);
    RoleFindingsCount(rules', c, rule);
    assert forall r :: r in rules <==> r in multiset(rules);
    assert forall r :: r in rules' <==> r in multiset(rules');
  }

  // ----- when severities depend on rule order

  /** A severity the variant can be reported with under some order of the rules. */
  ghost predicate PossibleSeverity(rules: seq<Doc>, c: RoleContext, v: Variant, s: Severity) {
    exists rules', i :: Reorders(rules, rules', i) && FirstFiring(rules', i, v)
                        && s == SeverityFor(c.scope, WildFor(PolicyRuleOf(rules'[i]), v), c.namespaced)
  }

  ghost predicate Reorders(rules: seq<Doc>, rules': seq<Doc>, i: nat) {
    multiset(rules) == multiset(rules') && i < |rules'|
  }

  lemma {:induction false} MovedToFront(rules: seq<Doc>, k: nat)
    requires k < |rules|
    ensures multiset(rules) == multiset([rules[k]] + (rules[..k] + rules[k + 1..]))
  {
    assert rules == rules[..k] + [rules[k]] + rules[k + 1..];
  }

  lemma {:induction false} AnyFirst(rules: seq<Doc>, c: RoleContext, v: Variant, r: Doc)
    requires r in rules && Fires(PolicyRuleOf(r), v)
    ensures PossibleSeverity(rules, c, v, SeverityFor(c.scope, WildFor(PolicyRuleOf(r), v), c.namespaced))
  {
    hide Fires, WildFor, SeverityFor, PolicyRuleOf;
    var k :| 0 <= k < |rules| && rules[k] == r;
    var rules' := [r] + (rules[..k] + rules[k + 1..]);
    MovedToFront(rules, k);
    assert Reorders(rules, rules', 0) && FirstFiring(rules', 0, v);
  }

  /** Wildcards change the severity of cluster roles that are bound, and of no others. */
  lemma {:induction false} WildcardsMatterIff(c: RoleContext)
    ensures SeverityFor(c.scope, true, c.namespaced) != SeverityFor(c.scope, false, c.namespaced) <==>
            !c.namespaced && !c.scope.unbound && (c.scope.clusterWide || c.scope.namespaceScoped)
  {
  }

  /** The severity of a variant is the same under every order of the rules exactly when the role is
      namespaced or unbound, or all rules that trigger the variant agree about wildcards. */
  lemma {:induction false} SeverityOrderIndependentIff(rules: seq<Doc>, c: RoleContext, v: Variant)
    ensures (forall s, s' :: PossibleSeverity(rules, c, v, s) && PossibleSeverity(rules, c, v, s') ==> s == s')
            <==>
            || v.AnyGroup?
            || c.namespaced || c.scope.unbound || (!c.scope.clusterWide && !c.scope.namespaceScoped)
            || (forall r, r' :: r in rules && r' in rules && Fires(PolicyRuleOf(r), v) && Fires(PolicyRuleOf(r'), v)
                                ==> Wild(PolicyRuleOf(r)) == Wild(PolicyRuleOf(r')))
  {
    hide Fires, SeverityFor, Wild, PossibleSeverity;
    WildcardsMatterIff(c);
    forall s | PossibleSeverity(rules, c, v, s)
      ensures exists r :: r in rules && Fires(PolicyRuleOf(r), v)
                          && s == SeverityFor(c.scope, WildFor(PolicyRuleOf(r), v), c.namespaced)
    {
      SomeRuleDecides(rules, c, v, s);
    }
    forall r | r in rules && Fires(PolicyRuleOf(r), v)
      ensures PossibleSeverity(rules, c, v, SeverityFor(c.scope, WildFor(PolicyRuleOf(r), v), c.namespaced))
    {
      AnyFirst(rules, c, v, r);
    }
  }

  lemma {:induction false} SomeRuleDecides(rules: seq<Doc>, c: RoleContext, v: Variant, s: Severity)
    requires PossibleSeverity(rules, c, v, s)
    ensures exists r :: r in rules && Fires(PolicyRuleOf(r), v)
                        && s == SeverityFor(c.scope, WildFor(PolicyRuleOf(r), v), c.namespaced)
  {
    var rules', i :| Reorders(rules, rules', i) && FirstFiring(rules', i, v)
                     && s == SeverityFor(c.scope, WildFor(PolicyRuleOf(rules'[i]), v), c.namespaced);
    assert rules'[i] in multiset(rules');
  }

  // ----- severities and scopes

  /** Findings of namespaced roles are WARNING when the role is bound and INFO otherwise, whatever
      the wildcards or the order of the rules. */
  lemma {:induction false} NamespacedSeverity(rules: seq<Doc>, owner: Owner, name: string, namespace: string,
                                              rbs: seq<BindingData>, f: Finding)
    requires f in RoleFindings(rules, RoleContext(owner, RoleScope(name, namespace, rbs), true))
    ensures f.severity == if exists b :: b in rbs && BindsRole(b, name, namespace) then WARNING else INFO
  {
    hide RoleScope, BindsRole, Reported;
    RoleScopeExact(name, namespace, rbs, "");
  }

  /** The severity of a cluster role's finding, read off the bindings: cluster-wide beats namespaced
      beats unbound, and wildcards raise it by one step unless the role is unbound. */
  lemma {:induction false} ClusterRoleSeverity(name: string, crbs: seq<BindingData>, rbs: seq<BindingData>, wild: bool)
    ensures SeverityFor(ClusterRoleScope(name, crbs, rbs), wild, false) ==
            if exists b :: b in crbs && BindsClusterRole(b, name) then (if wild then CRITICAL else HIGH)
            else if exists b :: b in rbs && BindsClusterRole(b, name) then (if wild then HIGH else WARNING)
            else INFO
  {
    hide ClusterRoleScope, BindsClusterRole;
    ClusterRoleScopeExact(name, crbs, rbs, "");
  }

  lemma {:induction false} SeverityMonotone(s: BindingScope, t: BindingScope, wild: bool, namespaced: bool)
    requires ScopeAtMost(s, t)
    ensures SeverityFor(s, wild, namespaced) <= SeverityFor(t, wild, namespaced)
  {
  }

  /** Widening the scope raises severities pointwise and emits the same findings otherwise. */
  lemma {:induction false} RoleFindingsMonotone(rules: seq<Doc>, owner: Owner, s: BindingScope, t: BindingScope,
                                                namespaced: bool)
    requires ScopeAtMost(s, t)
    ensures var fs := RoleFindings(rules, RoleContext(owner, s, namespaced));
            var gs := RoleFindings(rules, RoleContext(owner, t, namespaced));
            |fs| == |gs| && forall i :: 0 <= i < |fs| ==> fs[i].id == gs[i].id && fs[i].severity <= gs[i].severity
  {
    hide Reported, SeverityFor;
    forall wild ensures SeverityFor(s, wild, namespaced) <= SeverityFor(t, wild, namespaced) {
      SeverityMonotone(s, t, wild, namespaced);
    }
  }

  // ----- no dangerous grant is missed

  /** If a rule grants any verb on a sensitive resource in the resource's own API group, the role is
      reported for that resource or for wildcard resources. */
  lemma {:induction false} NoGrantMissed(rules: seq<Doc>, rule: Doc, c: RoleContext, verb: string, resource: string,
                                         id: RuleId)
    requires rule in rules && resource != "*" && DangerousResource(resource) == Some(id)
    requires Grants(PolicyRuleOf(rule), Permission(verb, HomeGroup(resource), resource))
    ensures RoleIdentity(id, c.owner) in Ids(RoleFindings(rules, c))
            || RoleIdentity(WILDCARD_RESOURCES, c.owner) in Ids(RoleFindings(rules, c))
  {
    var p := PolicyRuleOf(rule);
    assert !IsCombo(id);
    if resource in p.resources {
      assert ResourceFires(p, resource, id);
      assert FiresIn(rules, Plain(id));
      RoleFindingsCount(rules, c, id);
    } else {
      assert ResourceFires(p, "*", WILDCARD_RESOURCES);
      assert FiresIn(rules, Plain(WILDCARD_RESOURCES));
      RoleFindingsCount(rules, c, WILDCARD_RESOURCES);
    }
  }
}
