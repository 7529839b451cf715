/** checkRules: one pass over the rules of a role with a `seen` set (pkg/analyzer/analyzer.go). */
module RoleRules {
  import opened Sequences
  import opened Values
  import opened Models
  import opened Rules

  // ----- tables

  function DangerousVerb(verb: string): Option<RuleId> {
    if verb == "*" then Some(WILDCARD_VERBS)
    else if verb == "escalate" then Some(ESCALATE_VERB)
    else if verb == "impersonate" then Some(IMPERSONATE_VERB)
    else if verb == "bind" then Some(BIND_VERB)
    else None
  }

  function DangerousResource(resource: string): Option<RuleId> {
    if resource == "*" then Some(WILDCARD_RESOURCES)
    else if resource == "secrets" then Some(SECRETS_ACCESS)
    else if resource in {"pods/exec", "pods/attach", "pods/log", "pods/ephemeralcontainers", "pods/portforward"}
    then Some(PODS_EXEC_ATTACH)
    else if resource in {"nodes", "nodes/proxy"} then Some(NODES_ACCESS)
    else if resource == "persistentvolumes" then Some(PV_ACCESS)
    else if resource in {"clusterroles", "clusterrolebindings"} then Some(RBAC_MODIFICATION)
    else if resource == "networkpolicies" then Some(NETWORK_POLICY_ACCESS)
    else None
  }

  const CORE_RESOURCES := {"secrets", "pods/exec", "pods/attach", "pods/log", "pods/ephemeralcontainers",
                           "pods/portforward", "nodes", "nodes/proxy", "persistentvolumes"}
  const RBAC_RESOURCES := {"clusterroles", "clusterrolebindings", "roles", "rolebindings"}
  const NETWORKING_RESOURCES := {"networkpolicies"}

  predicate ResourceGroupHit(group: string, resource: string) {
    || group == "*"
    || (resource in CORE_RESOURCES && group == "")
    || (resource in RBAC_RESOURCES && group == "rbac.authorization.k8s.io")
    || (resource in NETWORKING_RESOURCES && group == "networking.k8s.io")
  }

  /** The API group a listed resource lives in. */
  function HomeGroup(resource: string): string {
    if resource in CORE_RESOURCES then ""
    else if resource in RBAC_RESOURCES then "rbac.authorization.k8s.io"
    else "networking.k8s.io"
  }

  /** The group tables place every sensitive resource in its home group and in no other. */
  lemma {:induction false} SensitiveHome(group: string, resource: string)
    requires resource != "*" && DangerousResource(resource).Some?
    ensures ResourceGroupHit(group, resource) <==> group == "*" || group == HomeGroup(resource)
  {
    if resource in CORE_RESOURCES {
      assert resource !in RBAC_RESOURCES && resource !in NETWORKING_RESOURCES;
    } else if resource in RBAC_RESOURCES {
      assert resource !in NETWORKING_RESOURCES;
    } else {
      assert resource in NETWORKING_RESOURCES;
    }
  }

  method ApiGroupMatchesResource(groups: seq<string>, resource: string) returns (matches: bool)
    requires DangerousResource(resource).Some?
    ensures matches == (resource == "*" || Lists(groups, HomeGroup(resource)))
  {
    hide DangerousResource, ResourceGroupHit, HomeGroup;
    if resource == "*" {
      return true;
    }
    for i := 0 to |groups|
      invariant forall g :: g in groups[..i] ==> g != "*" && g != HomeGroup(resource)
    {
      SensitiveHome(groups[i], resource);
      assert groups[..i + 1] == groups[..i] + [groups[i]];
      if ResourceGroupHit(groups[i], resource) {
        return true;
      }
    }
    assert groups[..|groups|] == groups;
    return false;
  }

  // ----- severity

  function ComputeSeverity(scope: BindingScope, wild: bool): Severity {
    if scope.unbound then INFO
    else if scope.clusterWide then (if wild then CRITICAL else HIGH)
    else if scope.namespaceScoped then (if wild then HIGH else WARNING)
    else INFO
  }

  function CapSeverity(s: Severity, max: Severity): Severity {
    if s > max then max else s
  }

  function SeverityFor(scope: BindingScope, wild: bool, namespaced: bool): Severity {
    if namespaced then CapSeverity(ComputeSeverity(scope, wild), WARNING) else ComputeSeverity(scope, wild)
  }

  // ----- what a rule triggers

  /** KC-001 has two variants, each reported on its own. */
  datatype Variant = AnyGroup | Plain(rule: RuleId)

  function RuleOf(v: Variant): RuleId {
    if v.AnyGroup? then WILDCARD_RESOURCES else v.rule
  }

  datatype Trigger = Trigger(variant: Variant, wild: bool)

  function VariantOf(t: Trigger): Variant {
    t.variant
  }

  predicate Wild(p: PolicyRule) {
    "*" in p.verbs || "*" in p.resources
  }

  /** Declarative trigger condition of each variant. */
  ghost predicate Fires(p: PolicyRule, v: Variant) {
    match v
    case AnyGroup => "*" in p.groups
    case Plain(rule) =>
      if rule in {11, 12, 23, 30, 31} then GrantsOneOf(p, TargetsOf(rule))
      else
        || (exists verb :: verb in p.verbs && DangerousVerb(verb) == Some(rule))
        || (exists res :: res in p.resources && ResourceFires(p, res, rule))
  }

  predicate ResourceFires(p: PolicyRule, res: string, rule: RuleId) {
    DangerousResource(res) == Some(rule) && (res == "*" || Lists(p.groups, HomeGroup(res)))
  }

  function VerbTrigger(p: PolicyRule, verb: string): seq<Trigger> {
    match DangerousVerb(verb)
    case None => []
    case Some(rule) => [Trigger(Plain(rule), Wild(p))]
  }

  function VerbTriggers(p: PolicyRule): string -> seq<Trigger> {
    verb => VerbTrigger(p, verb)
  }

  function ResourceTrigger(p: PolicyRule, res: string): seq<Trigger> {
    match DangerousResource(res)
    case None => []
    case Some(rule) => if ResourceFires(p, res, rule) then [Trigger(Plain(rule), Wild(p))] else []
  }

  function ResourceTriggers(p: PolicyRule): string -> seq<Trigger> {
    res => ResourceTrigger(p, res)
  }

  ghost function Combo(p: PolicyRule, rule: RuleId): seq<Trigger> {
    if GrantsOneOf(p, TargetsOf(rule)) then [Trigger(Plain(rule), Wild(p))] else []
  }

  /** Everything one rule triggers, in the order the source looks. */
  ghost function TriggersOf(rule: Doc): seq<Trigger> {
    var p := PolicyRuleOf(rule);
    (if "*" in p.groups then [Trigger(AnyGroup, true)] else [])
    + FlatMap(p.verbs, VerbTriggers(p))
    + FlatMap(p.resources, ResourceTriggers(p))
    + Combo(p, SCC_USE) + Combo(p, CSR_APPROVAL) + Combo(p, SERVICE_ACCOUNT_TOKEN_ACCESS)
    + Combo(p, ESCALATION_BINDINGS) + Combo(p, ESCALATION_POD_CREATION)
  }

  ghost function Reported(rules: seq<Doc>): seq<Trigger> {
    FirstBy(FlatMap(rules, TriggersOf), VariantOf)
  }

  /** How the triggers of one role are turned into findings. */
  datatype RoleContext = RoleContext(owner: Owner, scope: BindingScope, namespaced: bool)

  function Render(t: Trigger, c: RoleContext): Finding {
    NewFinding(RuleOf(t.variant), SeverityFor(c.scope, t.wild, c.namespaced), c.owner)
  }

  function RenderAll(ts: seq<Trigger>, c: RoleContext): seq<Finding> {
    seq(|ts|, i requires 0 <= i < |ts| => Render(ts[i], c))
  }

  /** The specification of checkRules. */
  ghost function RoleFindings(rules: seq<Doc>, c: RoleContext): seq<Finding> {
    RenderAll(Reported(rules), c)
  }

  // ----- the pass itself

  function DedupKey(v: Variant, roleName: string): string {
    match v
    case AnyGroup => RuleText(WILDCARD_RESOURCES) + "|apiGroup|" + roleName
    case Plain(rule) => RuleText(rule) + "|" + roleName
  }

  lemma {:induction false} DedupKeyInjective(v: Variant, w: Variant, roleName: string)
    ensures DedupKey(v, roleName) == DedupKey(w, roleName) <==> v == w
  {
    var a, b := DedupKey(v, roleName), DedupKey(w, roleName);
    if a == b {
      assert v.AnyGroup? <==> |a| == 16 + |roleName|;
      assert w.AnyGroup? <==> |b| == 16 + |roleName|;
      if v.Plain? && w.Plain? {
        assert RuleText(v.rule) == a[..6] && RuleText(w.rule) == b[..6];
        RuleTextInjective(v.rule, w.rule);
      }
    }
  }

  ghost predicate PassInvariant(emitted: seq<Trigger>, c: RoleContext, seen: set<string>, findings: seq<Finding>) {
    && (forall v :: DedupKey(v, c.owner.name) in seen <==> HasKey(emitted, VariantOf, v))
    && findings == RenderAll(FirstBy(emitted, VariantOf), c)
  }

  /** The block the source repeats for every trigger family. */
  method ReportOnce(t: Trigger, c: RoleContext, seen: set<string>, findings: seq<Finding>, ghost emitted: seq<Trigger>)
    returns (seen': set<string>, findings': seq<Finding>)
    requires PassInvariant(emitted, c, seen, findings)
    ensures PassInvariant(emitted + [t], c, seen', findings')
  {
    var dedup := DedupKey(t.variant, c.owner.name);
    FirstBySnoc(emitted, t, VariantOf);
    FirstByKeys(emitted, VariantOf, t.variant);
    forall v ensures HasKey(emitted + [t], VariantOf, v) <==> HasKey(emitted, VariantOf, v) || v == t.variant {
      HasKeySnoc(emitted, t, VariantOf, v);
    }
    seen', findings' := seen, findings;
    if dedup !in seen {
      seen' := seen + {dedup};
      findings' := findings + [NewFinding(RuleOf(t.variant), SeverityFor(c.scope, t.wild, c.namespaced), c.owner)];
      assert RenderAll(FirstBy(emitted, VariantOf) + [t], c)
          == RenderAll(FirstBy(emitted, VariantOf), c) + [Render(t, c)];
    }
    forall v ensures DedupKey(v, c.owner.name) in seen' <==> HasKey(emitted + [t], VariantOf, v) {
      DedupKeyInjective(v, t.variant, c.owner.name);
    }
  }

  method CheckRules(rules: seq<Doc>, owner: Owner, scope: BindingScope, namespaced: bool)
    returns (findings: seq<Finding>)
    ensures findings == RoleFindings(rules, RoleContext(owner, scope, namespaced))
  {
    hide PassInvariant, TriggersOf;
    var c := RoleContext(owner, scope, namespaced);
    findings := [];
    var seen: set<string> := {};
    ghost var emitted: seq<Trigger> := [];
    PassStarts(c);
    for i := 0 to |rules|
      invariant emitted == FlatMap(rules[..i], TriggersOf)
      invariant PassInvariant(emitted, c, seen, findings)
    {
      FlatMapSnoc(rules[..i], rules[i], TriggersOf);
      assert rules[..i + 1] == rules[..i] + [rules[i]];
      seen, findings := CheckRule(rules[i], c, seen, findings, emitted);
      emitted := emitted + TriggersOf(rules[i]);
    }
    assert rules[..|rules|] == rules;
    PassFindings(emitted, c, seen, findings);
  }

  lemma {:induction false} PassStarts(c: RoleContext)
    ensures PassInvariant([], c, {}, [])
  {
  }

  lemma {:induction false} PassFindings(emitted: seq<Trigger>, c: RoleContext, seen: set<string>,
                                        findings: seq<Finding>)
    requires PassInvariant(emitted, c, seen, findings)
    ensures findings == RenderAll(FirstBy(emitted, VariantOf), c)
  {
  }

  /** The loop body of checkRules. */
  method CheckRule(rule: Doc, c: RoleContext, seen: set<string>, findings: seq<Finding>, ghost emitted: seq<Trigger>)
    returns (seen': set<string>, findings': seq<Finding>)
    requires PassInvariant(emitted, c, seen, findings)
    ensures PassInvariant(emitted + TriggersOf(rule), c, seen', findings')
  {
    hide PassInvariant, FlatMap, Combo, VerbTriggers, ResourceTriggers, GrantsOneOf, TargetsOf;
    var verbs := ToStringSlice(Field(rule, "verbs"));
    var resources := ToStringSlice(Field(rule, "resources"));
    var groups := ToStringSlice(Field(rule, "apiGroups"));
    var p := PolicyRule(verbs, resources, groups);
    seen', findings' := seen, findings;
    ghost var done: seq<Trigger> := [];
    assert emitted + done == emitted;

    var wildcardVerb := Contains(verbs, "*");
    var wildcardResource := Contains(resources, "*");
    var wild := wildcardVerb || wildcardResource;

    var wildcardGroup := Contains(groups, "*");
    if wildcardGroup {
      seen', findings' := ReportOnce(Trigger(AnyGroup, true), c, seen', findings', emitted);
      done := [Trigger(AnyGroup, true)];
    }

    seen', findings', done := CheckVerbs(p, wild, c, seen', findings', emitted, done);
    seen', findings', done := CheckResources(p, wild, c, seen', findings', emitted, done);

    var fires := HasSccUsePermission(p);
    seen', findings', done := ReportCombo(SCC_USE, fires, p, c, seen', findings', emitted, done);
    fires := HasCsrApprovalPermission(p);
    seen', findings', done := ReportCombo(CSR_APPROVAL, fires, p, c, seen', findings', emitted, done);
    fires := HasServiceAccountTokenPermission(p);
    seen', findings', done := ReportCombo(SERVICE_ACCOUNT_TOKEN_ACCESS, fires, p, c, seen', findings', emitted, done);
    fires := HasEscalationBindingCombo(p);
    seen', findings', done := ReportCombo(ESCALATION_BINDINGS, fires, p, c, seen', findings', emitted, done);
    fires := HasEscalationPodCombo(p);
    seen', findings', done := ReportCombo(ESCALATION_POD_CREATION, fires, p, c, seen', findings', emitted, done);
    assert done == TriggersOf(rule);
  }

  method CheckVerbs(p: PolicyRule, wild: bool, c: RoleContext, seen: set<string>, findings: seq<Finding>,
                    ghost emitted: seq<Trigger>, ghost done: seq<Trigger>)
    returns (seen': set<string>, findings': seq<Finding>, ghost done': seq<Trigger>)
    requires PassInvariant(emitted + done, c, seen, findings)
    requires wild == Wild(p)
    ensures done' == done + FlatMap(p.verbs, VerbTriggers(p))
    ensures PassInvariant(emitted + done', c, seen', findings')
  {
    hide PassInvariant, DangerousVerb, FlatMap, Wild;
    seen', findings', done' := seen, findings, done;
    FlatMapNone(VerbTriggers(p));
    assert p.verbs[..0] == [] && done + [] == done;
    for i := 0 to |p.verbs|
      invariant done' == done + FlatMap(p.verbs[..i], VerbTriggers(p))
      invariant PassInvariant(emitted + done', c, seen', findings')
    {
      ghost var before := FlatMap(p.verbs[..i], VerbTriggers(p));
      FlatMapSnoc(p.verbs[..i], p.verbs[i], VerbTriggers(p));
      assert p.verbs[..i + 1] == p.verbs[..i] + [p.verbs[i]];
      var id := DangerousVerb(p.verbs[i]);
      if id.Some? {
        var t := Trigger(Plain(id.value), wild);
        seen', findings' := ReportOnce(t, c, seen', findings', emitted + done');
        assert emitted + done' + [t] == emitted + (done' + [t]);
        done' := done' + [t];
        assert done' == done + (before + [t]);
      } else {
        assert before + [] == before;
      }
    }
    assert p.verbs[..|p.verbs|] == p.verbs;
  }

  method CheckResources(p: PolicyRule, wild: bool, c: RoleContext, seen: set<string>, findings: seq<Finding>,
                        ghost emitted: seq<Trigger>, ghost done: seq<Trigger>)
    returns (seen': set<string>, findings': seq<Finding>, ghost done': seq<Trigger>)
    requires PassInvariant(emitted + done, c, seen, findings)
    requires wild == Wild(p)
    ensures done' == done + FlatMap(p.resources, ResourceTriggers(p))
    ensures PassInvariant(emitted + done', c, seen', findings')
  {
    hide PassInvariant, DangerousResource, HomeGroup, Lists, Wild;
    seen', findings', done' := seen, findings, done;
    for i := 0 to |p.resources|
      invariant done' == done + FlatMap(p.resources[..i], ResourceTriggers(p))
      invariant PassInvariant(emitted + done', c, seen', findings')
    {
      FlatMapSnoc(p.resources[..i], p.resources[i], ResourceTriggers(p));
      assert p.resources[..i + 1] == p.resources[..i] + [p.resources[i]];
      var id := DangerousResource(p.resources[i]);
      if id.Some? {
        var matches := ApiGroupMatchesResource(p.groups, p.resources[i]);
        if !matches {
          continue;
        }
        var t := Trigger(Plain(id.value), wild);
        seen', findings' := ReportOnce(t, c, seen', findings', emitted + done');
        assert emitted + done' + [t] == emitted + (done' + [t]);
        done' := done' + [t];
      }
    }
    assert p.resources[..|p.resources|] == p.resources;
  }

  method ReportCombo(rule: RuleId, fires: bool, p: PolicyRule, c: RoleContext, seen: set<string>,
                     findings: seq<Finding>, ghost emitted: seq<Trigger>, ghost done: seq<Trigger>)
    returns (seen': set<string>, findings': seq<Finding>, ghost done': seq<Trigger>)
    requires PassInvariant(emitted + done, c, seen, findings)
    requires fires == GrantsOneOf(p, TargetsOf(rule))
    ensures done' == done + Combo(p, rule)
    ensures PassInvariant(emitted + done', c, seen', findings')
  {
    hide PassInvariant, TargetsOf;
    seen', findings', done' := seen, findings, done;
    if fires {
      seen', findings' := ReportOnce(Trigger(Plain(rule), Wild(p)), c, seen, findings, emitted + done);
      done' := done + [Trigger(Plain(rule), Wild(p))];
      assert emitted + done + [Trigger(Plain(rule), Wild(p))] == emitted + done';
    }
  }
}
