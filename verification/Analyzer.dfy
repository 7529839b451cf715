/** The eight phases of Analyze (pkg/analyzer/analyzer.go). */
module Analyzer {
  import opened Sequences
  import opened Values
  import opened Models
  import opened Scopes
  import opened Rules
  import opened RoleRules
  import opened RoleTheorems
  import opened Chains
  import opened NetworkPolicies
  import opened Workloads
  import opened Exposure
  import opened SortedKeys

  datatype SecretVerdict = LongLivedToken | CredentialMaterial

  /** Code that is not modelled, as arbitrary functions: prefix parsing, upper-casing, and the two
      per-object checks of scc.go and secrets.go. */
  datatype Library = Library(
    parse: CidrParser,
    upper: Upper,
    constraintCheck: Doc -> Option<Severity>,
    secretCheck: Doc -> Option<SecretVerdict>)

  // ----- what each object contributes

  function ClusterRoleOwner(name: string, file: string): Owner {
    Owner(ClusterRole, name, "", file)
  }

  function AggregatedFinding(name: string, file: string): Finding {
    NewFinding(AGGREGATED_CLUSTER_ROLE, INFO, ClusterRoleOwner(name, file))
  }

  ghost function ClusterRoleFindings(name: string, cr: ClusterRoleData, crbs: seq<BindingData>, rbs: seq<BindingData>):
    seq<Finding>
  {
    (if "aggregationRule" in cr.doc then [AggregatedFinding(name, cr.file)] else [])
    + RoleFindings(cr.rules, RoleContext(ClusterRoleOwner(name, cr.file), ClusterRoleScope(name, crbs, rbs), false))
  }

  function RoleOwner(key: string, role: RoleData): Owner {
    Owner(Role, ExtractNameFromKey(key), role.namespace, role.file)
  }

  ghost function NamespacedRoleFindings(key: string, role: RoleData, rbs: seq<BindingData>): seq<Finding> {
    RoleFindings(role.rules, RoleContext(RoleOwner(key, role),
                                         RoleScope(ExtractNameFromKey(key), role.namespace, rbs), true))
  }

  ghost function ClusterRolePhase(st: Store): string -> seq<Finding> {
    k => if k in st.clusterRoles
         then ClusterRoleFindings(k, st.clusterRoles[k], st.clusterRoleBindings, st.roleBindings) else []
  }

  ghost function RolePhase(st: Store): string -> seq<Finding> {
    k => if k in st.roles then NamespacedRoleFindings(k, st.roles[k], st.roleBindings) else []
  }

  ghost function PodPhase(st: Store, lib: Library): string -> seq<Finding> {
    k => if k in st.pods then PodFindings(st.pods[k], lib) else []
  }

  ghost function PodFindings(pod: PodData, lib: Library): seq<Finding> {
    WorkloadFindings(pod.doc, Owner(Pod, pod.name, pod.namespace, pod.file), lib.upper)
  }

  ghost function WorkloadPhase(st: Store, lib: Library): string -> seq<Finding> {
    k => if k in st.workloads then ControllerFindings(st.workloads[k], lib) else []
  }

  ghost function ControllerFindings(w: WorkloadData, lib: Library): seq<Finding> {
    WorkloadFindings(w.doc, Owner(w.kind, w.name, w.namespace, w.file), lib.upper)
  }

  /** The findings of the object under each key. */
  ghost function PerObject(objects: map<string, ObjectData>, f: ObjectData -> seq<Finding>): string -> seq<Finding> {
    k => if k in objects then f(objects[k]) else []
  }

  ghost function PolicyCheck(lib: Library): ObjectData -> seq<Finding> {
    o => PolicyFindings(o, lib.parse)
  }

  ghost function ServiceCheck(): ObjectData -> seq<Finding> {
    o => ServiceFindings(o)
  }

  ghost function IngressCheck(): ObjectData -> seq<Finding> {
    o => IngressFindings(o)
  }

  ghost function RouteCheck(): ObjectData -> seq<Finding> {
    o => RouteFindings(o)
  }

  function ConstraintFindings(o: ObjectData, lib: Library): seq<Finding> {
    match lib.constraintCheck(o.doc)
    case None => []
    case Some(severity) =>
      [NewFinding(PERMISSIVE_SCC, severity, Owner(SecurityContextConstraints, o.name, "", o.file))]
  }

  function ConstraintCheck(lib: Library): ObjectData -> seq<Finding> {
    o => ConstraintFindings(o, lib)
  }

  function SecretFindings(o: ObjectData, lib: Library): seq<Finding> {
    match lib.secretCheck(o.doc)
    case None => []
    case Some(LongLivedToken) => [NewFinding(SERVICE_ACCOUNT_TOKEN_SECRET, HIGH, OwnerOf(Secret, o))]
    case Some(CredentialMaterial) => [NewFinding(CREDENTIAL_SECRET, WARNING, OwnerOf(Secret, o))]
  }

  function SecretCheck(lib: Library): ObjectData -> seq<Finding> {
    o => SecretFindings(o, lib)
  }

  // ----- the whole report, for one choice of visiting orders

  /** The order in which each loop over a map visits its keys. */
  datatype Orders = Orders(
    clusterRoles: seq<string>, roles: seq<string>, pods: seq<string>, workloads: seq<string>,
    policies: seq<string>, constraints: seq<string>, services: seq<string>, ingresses: seq<string>,
    routes: seq<string>, secrets: seq<string>, chainPods: seq<string>, chainWorkloads: seq<string>)

  ghost predicate Visits(o: Orders, st: Store) {
    && Enumerates(o.clusterRoles, st.clusterRoles.Keys) && Enumerates(o.roles, st.roles.Keys)
    && InOrder(o.pods, st.pods.Keys) && InOrder(o.workloads, st.workloads.Keys)
    && InOrder(o.policies, st.networkPolicies.Keys) && InOrder(o.constraints, st.constraints.Keys)
    && InOrder(o.services, st.services.Keys) && InOrder(o.ingresses, st.ingresses.Keys)
    && InOrder(o.routes, st.routes.Keys) && InOrder(o.secrets, st.secrets.Keys)
    && Enumerates(o.chainPods, st.pods.Keys) && Enumerates(o.chainWorkloads, st.workloads.Keys)
  }

  ghost function PolicyReport(st: Store, o: Orders, lib: Library): seq<Finding> {
    FirstBy(FlatMap(o.policies, PerObject(st.networkPolicies, PolicyCheck(lib))), FingerprintOf)
  }

  ghost function ConstraintReport(st: Store, o: Orders, lib: Library): seq<Finding> {
    FirstBy(FlatMap(o.constraints, PerObject(st.constraints, ConstraintCheck(lib))), FingerprintOf)
  }

  ghost function ExposureEmissions(st: Store, o: Orders): seq<Finding> {
    FlatMap(o.services, PerObject(st.services, ServiceCheck()))
    + FlatMap(o.ingresses, PerObject(st.ingresses, IngressCheck()))
    + FlatMap(o.routes, PerObject(st.routes, RouteCheck()))
  }

  ghost function ExposureReport(st: Store, o: Orders): seq<Finding> {
    FirstBy(ExposureEmissions(st, o), FingerprintOf)
  }

  ghost function SecretReport(st: Store, o: Orders, lib: Library): seq<Finding> {
    FirstBy(FlatMap(o.secrets, PerObject(st.secrets, SecretCheck(lib))), FingerprintOf)
  }

  ghost function ChainReport(st: Store, o: Orders): seq<Finding> {
    ChainFindings(References(st.pods, o.chainPods, st.workloads, o.chainWorkloads),
                  st.clusterRoleBindings, st.roleBindings)
  }

  ghost function RbacReport(st: Store, o: Orders): seq<Finding> {
    FlatMap(o.clusterRoles, ClusterRolePhase(st)) + FlatMap(o.roles, RolePhase(st))
  }

  ghost function PodSecurityReport(st: Store, o: Orders, lib: Library): seq<Finding> {
    FlatMap(o.pods, PodPhase(st, lib)) + FlatMap(o.workloads, WorkloadPhase(st, lib))
  }

  ghost function FullReport(st: Store, o: Orders, lib: Library): seq<Finding> {
    RbacReport(st, o) + PodSecurityReport(st, o, lib) + PolicyReport(st, o, lib) + ConstraintReport(st, o, lib)
    + ExposureReport(st, o) + SecretReport(st, o, lib) + ChainReport(st, o)
  }

  /** The findings some run of Analyze may return for the store. */
  ghost predicate IsReport(st: Store, lib: Library, findings: seq<Finding>) {
    exists o :: Visits(o, st) && findings == FullReport(st, o, lib)
  }

  // ----- the phases as loops over the maps

  /** Rules a pass over role rules can report. */
  predicate RoleRule(rule: RuleId) {
    rule in {1, 2, 3, 4, 5, 6, 7, 8, 9, 10, 11, 12, 16, 23, 30, 31}
  }

  lemma {:induction false} RoleFindingShape(rules: seq<Doc>, c: RoleContext, f: Finding)
    requires f in RoleFindings(rules, c)
    ensures RoleRule(f.id.rule) && f.id == RoleIdentity(f.id.rule, c.owner) && f.file == c.owner.file
    ensures !f.suppressed
  {
    hide Reported, GrantsOneOf, TargetsOf, PolicyRuleOf;
    var i :| 0 <= i < |Reported(rules)| && RoleFindings(rules, c)[i] == f;
    var t := Reported(rules)[i];
    assert f == Render(t, c) && t in Reported(rules);
    ReportedExact(rules, t.variant);
    assert HasKey(Reported(rules), VariantOf, t.variant);
    var r :| r in rules && Fires(PolicyRuleOf(r), t.variant);
    if t.variant.Plain? {
      TableRuleIds(PolicyRuleOf(r), t.variant.rule);
    }
  }

  lemma {:induction false} TableRuleIds(p: PolicyRule, rule: RuleId)
    requires Fires(p, Plain(rule))
    ensures RoleRule(rule)
  {
    hide GrantsOneOf, TargetsOf;
  }

  /** KC-015 findings so far are about cluster roles already visited. */
  ghost predicate AggregatedSoFar(findings: seq<Finding>, order: seq<string>) {
    forall f :: f in findings && f.id.rule == AGGREGATED_CLUSTER_ROLE
                ==> f.id.kind == ClusterRole && f.id.namespace == "" && f.id.name in order
  }

  method AnalyzeClusterRoles(resources: LoadedResources) returns (findings: seq<Finding>, ghost order: seq<string>)
    ensures Enumerates(order, resources.clusterRoles.Keys)
    ensures findings == FlatMap(order, ClusterRolePhase(resources.Contents()))
  {
    hide ClusterRoleFindings, AggregatedSoFar, FlatMap;
    ghost var st := resources.Contents();
    findings, order := [], [];
    FlatMapNone(ClusterRolePhase(st));
    NoneAggregated();
    var left := resources.clusterRoles.Keys;
    while left != {}
      invariant left <= resources.clusterRoles.Keys && Enumerates(order, resources.clusterRoles.Keys - left)
      invariant findings == FlatMap(order, ClusterRolePhase(st))
      invariant AggregatedSoFar(findings, order)
      decreases left
    {
      var name :| name in left;
      FlatMapSnoc(order, name, ClusterRolePhase(st));
      findings := AnalyzeClusterRole(name, resources.clusterRoles[name], resources, findings, order);
      left, order := left - {name}, order + [name];
    }
  }

  lemma {:induction false} NoneAggregated()
    ensures AggregatedSoFar([], [])
  {
  }

  /** The body of the loop over cluster roles. */
  method AnalyzeClusterRole(name: string, cr: ClusterRoleData, resources: LoadedResources, findings: seq<Finding>,
                            ghost order: seq<string>)
    returns (r: seq<Finding>)
    requires name !in order && AggregatedSoFar(findings, order)
    ensures r == findings + ClusterRoleFindings(name, cr, resources.clusterRoleBindings, resources.roleBindings)
    ensures AggregatedSoFar(r, order + [name])
  {
    hide RoleFindings, ClusterRoleScope;
    r := findings;
    var scope := ResolveClusterRoleScope(name, resources);
    if "aggregationRule" in cr.doc {
      AggregationIsNew(findings, order, name, cr.file);
      r := AppendIfNew(r, AggregatedFinding(name, cr.file));
    }
    var checked := CheckRules(cr.rules, ClusterRoleOwner(name, cr.file), scope, false);
    forall f | f in checked ensures f.id.rule != AGGREGATED_CLUSTER_ROLE {
      RoleFindingShape(cr.rules, RoleContext(ClusterRoleOwner(name, cr.file), scope, false), f);
    }
    r := r + checked;
  }

  /** The duplicate check before KC-015 never finds one. */
  lemma {:induction false} AggregationIsNew(findings: seq<Finding>, order: seq<string>, name: string, file: string)
    requires name !in order && AggregatedSoFar(findings, order)
    ensures !HasKey(findings, FingerprintOf, FingerprintOf(AggregatedFinding(name, file)))
  {
    var g := AggregatedFinding(name, file);
    forall f | f in findings && FingerprintOf(f) == FingerprintOf(g) ensures false {
      FingerprintRule(f.id, g.id);
      FingerprintInjective(f.id, g.id);
    }
  }

  method AnalyzeRoles(resources: LoadedResources) returns (findings: seq<Finding>, ghost order: seq<string>)
    ensures Enumerates(order, resources.roles.Keys)
    ensures findings == FlatMap(order, RolePhase(resources.Contents()))
  {
    hide RoleFindings, RoleScope, FlatMap;
    ghost var st := resources.Contents();
    findings, order := [], [];
    FlatMapNone(RolePhase(st));
    var left := resources.roles.Keys;
    while left != {}
      invariant left <= resources.roles.Keys && Enumerates(order, resources.roles.Keys - left)
      invariant findings == FlatMap(order, RolePhase(st))
      decreases left
    {
      var key :| key in left;
      var role := resources.roles[key];
      var scope := ResolveRoleScope(key, resources);
      FlatMapSnoc(order, key, RolePhase(st));
      var checked := CheckRules(role.rules, RoleOwner(key, role), scope, true);
      findings := findings + checked;
      left, order := left - {key}, order + [key];
    }
  }

  method AnalyzePodSecurity(resources: LoadedResources, lib: Library)
    returns (findings: seq<Finding>, ghost pods: seq<string>)
    ensures InOrder(pods, resources.pods.Keys)
    ensures findings == FlatMap(pods, PodPhase(resources.Contents(), lib))
  {
    hide WorkloadFindings;
    ghost var st := resources.Contents();
    findings := [];
    var keys := SortKeys(resources.pods.Keys);
    pods := keys;
    for i := 0 to |keys|
      invariant findings == FlatMap(keys[..i], PodPhase(st, lib))
    {
      var key := keys[i];
      assert keys[..i + 1] == keys[..i] + [key];
      var pod := resources.pods[key];
      FlatMapSnoc(keys[..i], key, PodPhase(st, lib));
      var fs := AnalyzeWorkloadSecurityObject(pod.doc, Owner(Pod, pod.name, pod.namespace, pod.file), lib.upper);
      findings := findings + fs;
    }
    assert keys[..|keys|] == keys;
  }

  method AnalyzeControllerSecurity(resources: LoadedResources, lib: Library)
    returns (findings: seq<Finding>, ghost workloads: seq<string>)
    ensures InOrder(workloads, resources.workloads.Keys)
    ensures findings == FlatMap(workloads, WorkloadPhase(resources.Contents(), lib))
  {
    hide WorkloadFindings;
    ghost var st := resources.Contents();
    findings := [];
    var keys := SortKeys(resources.workloads.Keys);
    workloads := keys;
    for i := 0 to |keys|
      invariant findings == FlatMap(keys[..i], WorkloadPhase(st, lib))
    {
      var key := keys[i];
      assert keys[..i + 1] == keys[..i] + [key];
      var w := resources.workloads[key];
      FlatMapSnoc(keys[..i], key, WorkloadPhase(st, lib));
      var fs := AnalyzeWorkloadSecurityObject(w.doc, Owner(w.kind, w.name, w.namespace, w.file), lib.upper);
      findings := findings + fs;
    }
    assert keys[..|keys|] == keys;
  }

  method AnalyzeNetworkPolicies(resources: LoadedResources, lib: Library)
    returns (findings: seq<Finding>, ghost order: seq<string>)
    ensures InOrder(order, resources.networkPolicies.Keys)
    ensures findings == FirstBy(FlatMap(order, PerObject(resources.networkPolicies, PolicyCheck(lib))), FingerprintOf)
  {
    hide FirstBy, PolicyFindings;
    NothingEmitted();
    findings := [];
    var policies := resources.networkPolicies;
    var keys := SortKeys(policies.Keys);
    order := keys;
    for i := 0 to |keys|
      invariant findings == FirstBy(FlatMap(keys[..i], PerObject(policies, PolicyCheck(lib))), FingerprintOf)
    {
      var key := keys[i];
      assert keys[..i + 1] == keys[..i] + [key];
      FlatMapSnoc(keys[..i], key, PerObject(policies, PolicyCheck(lib)));
      findings := AnalyzePolicy(policies[key], lib.parse, findings,
                                FlatMap(keys[..i], PerObject(policies, PolicyCheck(lib))));
    }
    assert keys[..|keys|] == keys;
  }

  method AnalyzeSecurityContextConstraints(resources: LoadedResources, lib: Library)
    returns (findings: seq<Finding>, ghost order: seq<string>)
    ensures InOrder(order, resources.constraints.Keys)
    ensures findings == FirstBy(FlatMap(order, PerObject(resources.constraints, ConstraintCheck(lib))), FingerprintOf)
  {
    hide FirstBy;
    NothingEmitted();
    findings := [];
    var objects := resources.constraints;
    var keys := SortKeys(objects.Keys);
    order := keys;
    for i := 0 to |keys|
      invariant findings == FirstBy(FlatMap(keys[..i], PerObject(objects, ConstraintCheck(lib))), FingerprintOf)
    {
      var key := keys[i];
      assert keys[..i + 1] == keys[..i] + [key];
      ghost var emitted := FlatMap(keys[..i], PerObject(objects, ConstraintCheck(lib)));
      FlatMapSnoc(keys[..i], key, PerObject(objects, ConstraintCheck(lib)));
      assert emitted + [] == emitted;
      match lib.constraintCheck(objects[key].doc) {
        case None =>
        case Some(severity) =>
          var o := objects[key];
          var f := NewFinding(PERMISSIVE_SCC, severity, Owner(SecurityContextConstraints, o.name, "", o.file));
          findings := EmitNew(findings, f, emitted);
      }
    }
    assert keys[..|keys|] == keys;
  }

  method AnalyzeSecrets(resources: LoadedResources, lib: Library)
    returns (findings: seq<Finding>, ghost order: seq<string>)
    ensures InOrder(order, resources.secrets.Keys)
    ensures findings == FirstBy(FlatMap(order, PerObject(resources.secrets, SecretCheck(lib))), FingerprintOf)
  {
    hide FirstBy;
    NothingEmitted();
    findings := [];
    var objects := resources.secrets;
    var keys := SortKeys(objects.Keys);
    order := keys;
    for i := 0 to |keys|
      invariant findings == FirstBy(FlatMap(keys[..i], PerObject(objects, SecretCheck(lib))), FingerprintOf)
    {
      var key := keys[i];
      assert keys[..i + 1] == keys[..i] + [key];
      ghost var emitted := FlatMap(keys[..i], PerObject(objects, SecretCheck(lib)));
      FlatMapSnoc(keys[..i], key, PerObject(objects, SecretCheck(lib)));
      assert emitted + [] == emitted;
      match lib.secretCheck(objects[key].doc) {
        case None =>
        case Some(LongLivedToken) =>
          findings := EmitNew(findings, NewFinding(SERVICE_ACCOUNT_TOKEN_SECRET, HIGH, OwnerOf(Secret, objects[key])),
                              emitted);
        case Some(CredentialMaterial) =>
          findings := EmitNew(findings, NewFinding(CREDENTIAL_SECRET, WARNING, OwnerOf(Secret, objects[key])), emitted);
      }
    }
    assert keys[..|keys|] == keys;
  }

  method AnalyzeServices(resources: LoadedResources) returns (findings: seq<Finding>, ghost order: seq<string>)
    ensures InOrder(order, resources.services.Keys)
    ensures findings == FirstBy(FlatMap(order, PerObject(resources.services, ServiceCheck())), FingerprintOf)
  {
    hide FirstBy, ServiceFindings;
    NothingEmitted();
    findings := [];
    var objects := resources.services;
    var keys := SortKeys(objects.Keys);
    order := keys;
    for i := 0 to |keys|
      invariant findings == FirstBy(FlatMap(keys[..i], PerObject(objects, ServiceCheck())), FingerprintOf)
    {
      var key := keys[i];
      assert keys[..i + 1] == keys[..i] + [key];
      ghost var emitted := FlatMap(keys[..i], PerObject(objects, ServiceCheck()));
      FlatMapSnoc(keys[..i], key, PerObject(objects, ServiceCheck()));
      findings := AnalyzeService(objects[key], findings, emitted);
    }
    assert keys[..|keys|] == keys;
  }

  method AnalyzeIngresses(resources: LoadedResources, before: seq<Finding>, ghost emitted: seq<Finding>)
    returns (findings: seq<Finding>, ghost order: seq<string>)
    requires before == FirstBy(emitted, FingerprintOf)
    ensures InOrder(order, resources.ingresses.Keys)
    ensures findings == FirstBy(emitted + FlatMap(order, PerObject(resources.ingresses, IngressCheck())), FingerprintOf)
  {
    hide FirstBy, IngressFindings;
    findings := before;
    assert emitted + [] == emitted;
    var objects := resources.ingresses;
    var keys := SortKeys(objects.Keys);
    order := keys;
    for i := 0 to |keys|
      invariant findings == FirstBy(emitted + FlatMap(keys[..i], PerObject(objects, IngressCheck())), FingerprintOf)
    {
      var key := keys[i];
      assert keys[..i + 1] == keys[..i] + [key];
      ghost var done := FlatMap(keys[..i], PerObject(objects, IngressCheck()));
      FlatMapSnoc(keys[..i], key, PerObject(objects, IngressCheck()));
      findings := AnalyzeIngress(objects[key], findings, emitted + done);
      assert emitted + done + IngressFindings(objects[key]) == emitted + (done + IngressFindings(objects[key]));
    }
    assert keys[..|keys|] == keys;
  }

  method AnalyzeRoutes(resources: LoadedResources, before: seq<Finding>, ghost emitted: seq<Finding>)
    returns (findings: seq<Finding>, ghost order: seq<string>)
    requires before == FirstBy(emitted, FingerprintOf)
    ensures InOrder(order, resources.routes.Keys)
    ensures findings == FirstBy(emitted + FlatMap(order, PerObject(resources.routes, RouteCheck())), FingerprintOf)
  {
    hide FirstBy, RouteFindings;
    findings := before;
    assert emitted + [] == emitted;
    var objects := resources.routes;
    var keys := SortKeys(objects.Keys);
    order := keys;
    for i := 0 to |keys|
      invariant findings == FirstBy(emitted + FlatMap(keys[..i], PerObject(objects, RouteCheck())), FingerprintOf)
    {
      var key := keys[i];
      assert keys[..i + 1] == keys[..i] + [key];
      ghost var done := FlatMap(keys[..i], PerObject(objects, RouteCheck()));
      FlatMapSnoc(keys[..i], key, PerObject(objects, RouteCheck()));
      findings := AnalyzeRoute(objects[key], findings, emitted + done);
      assert emitted + done + RouteFindings(objects[key]) == emitted + (done + RouteFindings(objects[key]));
    }
    assert keys[..|keys|] == keys;
  }

  method Analyze(resources: LoadedResources?, lib: Library) returns (findings: seq<Finding>)
    ensures resources == null ==> findings == []
    ensures resources != null ==> IsReport(resources.Contents(), lib, findings)
  {
    if resources == null {
      return [];
    }
    ghost var st := resources.Contents();
    if resources.IsEmpty() {
      EmptyReport(lib);
      return [];
    }
    hide FirstBy, FlatMap;
    var clusterRoles, o1 := AnalyzeClusterRoles(resources);
    var roles, o2 := AnalyzeRoles(resources);
    var podSecurity, o3 := AnalyzePodSecurity(resources, lib);
    var controllerSecurity, o4 := AnalyzeControllerSecurity(resources, lib);
    var policies, o5 := AnalyzeNetworkPolicies(resources, lib);
    var constraints, o6 := AnalyzeSecurityContextConstraints(resources, lib);
    var exposed, o7 := AnalyzeServices(resources);
    ghost var emitted := FlatMap(o7, PerObject(resources.services, ServiceCheck()));
    var withIngresses, o8 := AnalyzeIngresses(resources, exposed, emitted);
    emitted := emitted + FlatMap(o8, PerObject(resources.ingresses, IngressCheck()));
    var exposure, o9 := AnalyzeRoutes(resources, withIngresses, emitted);
    var secrets, o10 := AnalyzeSecrets(resources, lib);
    var chains, o11, o12 := AnalyzePrivilegeChains(resources);
    ghost var o := Orders(o1, o2, o3, o4, o5, o6, o7, o8, o9, o10, o11, o12);
    assert Visits(o, st);
    findings := (clusterRoles + roles) + (podSecurity + controllerSecurity)
                + policies + constraints + exposure + secrets + chains;
    assert findings == FullReport(st, o, lib);
  }

  lemma {:induction false} EmptyReport(lib: Library)
    ensures IsReport(EMPTY_STORE, lib, [])
  {
    var o := Orders([], [], [], [], [], [], [], [], [], [], [], []);
    assert Visits(o, EMPTY_STORE);
  }
}
