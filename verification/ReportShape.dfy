/** Which rules and which owners each phase of the report speaks about. */
module ReportShape {
  import opened Sequences
  import opened Values
  import opened Models
  import opened PodSpecs
  import opened Scopes
  import opened RoleRules
  import opened RoleTheorems
  import opened NetworkPolicies
  import opened Workloads
  import opened Exposure
  import opened Analyzer

  function RuleIn(f: Finding): RuleId {
    f.id.rule
  }

  /** All findings are about one resource, point to its file, use one of the given rules, and are not
      suppressed. */
  ghost predicate OwnedBy(fs: seq<Finding>, owner: Owner, rules: set<RuleId>) {
    forall f :: f in fs ==>
      f.id == RoleIdentity(f.id.rule, owner) && f.id.rule in rules && f.file == owner.file && !f.suppressed
  }

  predicate SameResource(a: Owner, b: Owner) {
    a.kind == b.kind && a.name == b.name && a.namespace == b.namespace
  }

  const POD_RULES: set<RuleId> := {PRIVILEGED_CONTAINER, HOST_NAMESPACE, HOST_PATH, DANGEROUS_CAPABILITIES}
  const POLICY_RULES: set<RuleId> := {NETWORK_POLICY_INGRESS, NETWORK_POLICY_EGRESS}
  const ROUTE_RULES: set<RuleId> := {UNENCRYPTED_ROUTE, BROAD_EXTERNAL_ROUTE}
  const CHAIN_RULES: set<RuleId> := {CLUSTER_ADMIN_POD, ROLE_BINDING_CLUSTER_REF}
  const EXPOSURE_RULES: set<RuleId> := {EXTERNAL_SERVICE, UNENCRYPTED_ROUTE, BROAD_EXTERNAL_ROUTE}
  const SECRET_RULES: set<RuleId> := {CREDENTIAL_SECRET, SERVICE_ACCOUNT_TOKEN_SECRET}
  const ROLE_RULES: set<RuleId> := {1, 2, 3, 4, 5, 6, 7, 8, 9, 10, 11, 12, 15, 16, 23, 30, 31}

  lemma {:induction false} WorkloadShape(doc: Doc, owner: Owner, upper: Upper)
    ensures var fs := WorkloadFindings(doc, owner, upper); OwnedBy(fs, owner, POD_RULES) && DistinctBy(fs, RuleIn)
  {
    hide AnyPrivileged, HostPathSeverity, CapabilitySeverity, HostNamespaces, Containers;
    match PodSpec(doc, owner.kind) {
      case None =>
      case Some(podSpec) => PodSpecShape(podSpec, owner, upper);
    }
  }

  function IfReported(reported: bool, rule: RuleId, severity: Severity, owner: Owner): seq<Finding> {
    if reported then [NewFinding(rule, severity, owner)] else []
  }

  lemma {:induction false} PodSpecShape(podSpec: Doc, owner: Owner, upper: Upper)
    ensures var fs := PodSpecFindings(podSpec, owner, upper);
            OwnedBy(fs, owner, POD_RULES) && DistinctBy(fs, RuleIn)
  {
    hide AnyPrivileged, HostPathSeverity, CapabilitySeverity, HostNamespaces, Containers;
    var hostPath := HostPathSeverity(MapItems(Field(podSpec, "volumes")), FlatMap(Containers(podSpec), MountsOf));
    var capability := CapabilitySeverity(FlatMap(Containers(podSpec), AddedCapabilities), upper);
    FourParts(owner, AnyPrivileged(Containers(podSpec)), HostNamespaces(podSpec), hostPath, capability);
  }

  lemma {:induction false} FourParts(owner: Owner, privileged: bool, hostNamespaces: bool, hostPath: Severity,
                                     capability: Severity)
    ensures var fs := IfReported(privileged, PRIVILEGED_CONTAINER, HIGH, owner)
                      + IfReported(hostNamespaces, HOST_NAMESPACE, HIGH, owner)
                      + IfReported(hostPath > INFO, HOST_PATH, hostPath, owner)
                      + IfReported(capability > INFO, DANGEROUS_CAPABILITIES, capability, owner);
            OwnedBy(fs, owner, POD_RULES) && DistinctBy(fs, RuleIn)
  {
    hide IfReported, OwnedBy, DistinctBy;
    var a := IfReported(privileged, PRIVILEGED_CONTAINER, HIGH, owner);
    var b := IfReported(hostNamespaces, HOST_NAMESPACE, HIGH, owner);
    var c := IfReported(hostPath > INFO, HOST_PATH, hostPath, owner);
    var d := IfReported(capability > INFO, DANGEROUS_CAPABILITIES, capability, owner);
    OnePart(privileged, PRIVILEGED_CONTAINER, HIGH, owner);
    OnePart(hostNamespaces, HOST_NAMESPACE, HIGH, owner);
    OnePart(hostPath > INFO, HOST_PATH, hostPath, owner);
    OnePart(capability > INFO, DANGEROUS_CAPABILITIES, capability, owner);
    var ab := {PRIVILEGED_CONTAINER} + {HOST_NAMESPACE};
    JoinedParts(a, b, owner, {PRIVILEGED_CONTAINER}, {HOST_NAMESPACE});
    JoinedParts(a + b, c, owner, ab, {HOST_PATH});
    JoinedParts(a + b + c, d, owner, ab + {HOST_PATH}, {DANGEROUS_CAPABILITIES});
    assert ab + {HOST_PATH} + {DANGEROUS_CAPABILITIES} == POD_RULES;
  }

  lemma {:induction false} OnePart(reported: bool, rule: RuleId, severity: Severity, owner: Owner)
    ensures var fs := IfReported(reported, rule, severity, owner); OwnedBy(fs, owner, {rule}) && DistinctBy(fs, RuleIn)
  {
  }

  lemma {:induction false} JoinedParts(fs: seq<Finding>, gs: seq<Finding>, owner: Owner, rules: set<RuleId>,
                                       others: set<RuleId>)
    requires OwnedBy(fs, owner, rules) && DistinctBy(fs, RuleIn)
    requires OwnedBy(gs, owner, others) && DistinctBy(gs, RuleIn)
    requires rules !! others
    ensures OwnedBy(fs + gs, owner, rules + others) && DistinctBy(fs + gs, RuleIn)
  {
    assert forall f :: f in fs ==> f.id.rule in rules;
    assert forall g :: g in gs ==> g.id.rule in others;
  }

  lemma {:induction false} PolicyShape(o: ObjectData, parse: CidrParser)
    ensures var fs := PolicyFindings(o, parse);
            OwnedBy(fs, OwnerOf(NetworkPolicy, o), POLICY_RULES) && DistinctBy(fs, RuleIn)
  {
    hide Broad, PolicySeverity;
  }

  lemma {:induction false} ServiceShape(o: ObjectData)
    ensures var fs := ServiceFindings(o); OwnedBy(fs, OwnerOf(Service, o), {EXTERNAL_SERVICE}) && DistinctBy(fs, RuleIn)
  {
    hide ReachableService;
  }

  lemma {:induction false} IngressShape(o: ObjectData)
    ensures var fs := IngressFindings(o); OwnedBy(fs, OwnerOf(Ingress, o), ROUTE_RULES) && DistinctBy(fs, RuleIn)
  {
    hide Unencrypted, BroadHost;
  }

  lemma {:induction false} RouteShape(o: ObjectData)
    ensures var fs := RouteFindings(o); OwnedBy(fs, OwnerOf(Route, o), ROUTE_RULES) && DistinctBy(fs, RuleIn)
  {
    hide RouteTlsSeverity;
  }

  function ConstraintOwner(o: ObjectData): Owner {
    Owner(SecurityContextConstraints, o.name, "", o.file)
  }

  lemma {:induction false} ConstraintShape(o: ObjectData, lib: Library)
    ensures var fs := ConstraintFindings(o, lib);
            OwnedBy(fs, ConstraintOwner(o), {PERMISSIVE_SCC}) && DistinctBy(fs, RuleIn)
  {
  }

  lemma {:induction false} SecretShape(o: ObjectData, lib: Library)
    ensures var fs := SecretFindings(o, lib); OwnedBy(fs, OwnerOf(Secret, o), SECRET_RULES) && DistinctBy(fs, RuleIn)
  {
  }

  lemma {:induction false} ClusterRoleShape(name: string, cr: ClusterRoleData, crbs: seq<BindingData>,
                                            rbs: seq<BindingData>)
    ensures OwnedBy(ClusterRoleFindings(name, cr, crbs, rbs), ClusterRoleOwner(name, cr.file), ROLE_RULES)
  {
    hide RoleFindings, ClusterRoleScope;
    var c := RoleContext(ClusterRoleOwner(name, cr.file), ClusterRoleScope(name, crbs, rbs), false);
    forall f | f in RoleFindings(cr.rules, c)
      ensures RoleRule(f.id.rule) && f.id == RoleIdentity(f.id.rule, c.owner) && f.file == c.owner.file
      ensures !f.suppressed
    {
      RoleFindingShape(cr.rules, c, f);
    }
  }

  lemma {:induction false} RoleShape(key: string, role: RoleData, rbs: seq<BindingData>)
    ensures OwnedBy(NamespacedRoleFindings(key, role, rbs), RoleOwner(key, role), ROLE_RULES)
  {
    hide RoleFindings, RoleScope, ExtractNameFromKey;
    var c := RoleContext(RoleOwner(key, role), RoleScope(ExtractNameFromKey(key), role.namespace, rbs), true);
    forall f | f in RoleFindings(role.rules, c)
      ensures RoleRule(f.id.rule) && f.id == RoleIdentity(f.id.rule, c.owner) && f.file == c.owner.file
      ensures !f.suppressed
    {
      RoleFindingShape(role.rules, c, f);
    }
  }

  // ----- distinct fingerprints

  lemma {:induction false} DistinctAppend<A, K>(xs: seq<A>, ys: seq<A>, key: A -> K)
    requires DistinctBy(xs, key) && DistinctBy(ys, key)
    requires forall x, y :: x in xs && y in ys ==> key(x) != key(y)
    ensures DistinctBy(xs + ys, key)
  {
  }

  ghost predicate AllOwned<A>(o: seq<A>, f: A -> seq<Finding>, own: A -> Owner, rules: set<RuleId>,
                              ns: iset<string>) {
    forall k :: k in o ==> OwnedBy(f(k), own(k), rules) && DistinctBy(f(k), RuleIn)
                           && Placed(own(k).kind, own(k).namespace, ns)
  }

  /** Objects that differ as resources, each with distinct rules, have distinct fingerprints. */
  lemma {:induction false} OwnedDistinct<A>(o: seq<A>, f: A -> seq<Finding>, own: A -> Owner, rules: set<RuleId>,
                                            ns: iset<string>)
    requires Apart(ns) && AllOwned(o, f, own, rules, ns)
    requires forall i, j :: 0 <= i < j < |o| ==> !SameResource(own(o[i]), own(o[j]))
    ensures DistinctBy(FlatMap(o, f), FingerprintOf)
  {
    if o == [] {
    } else {
      var front, last := o[..|o| - 1], o[|o| - 1];
      assert o == front + [last];
      assert forall k :: k in front ==> k in o;
      OwnedDistinct(front, f, own, rules, ns);
      ObjectDistinct(f(last), own(last), rules);
      forall x, y | x in FlatMap(front, f) && y in f(last) ensures FingerprintOf(x) != FingerprintOf(y) {
        InFlatMap(front, f, x);
        var k :| k in front && x in f(k);
        var i :| 0 <= i < |front| && front[i] == k;
        assert !SameResource(own(o[i]), own(last));
        PlacedInjective(x.id, y.id, ns);
      }
      DistinctAppend(FlatMap(front, f), f(last), FingerprintOf);
    }
  }

  lemma {:induction false} ObjectDistinct(fs: seq<Finding>, owner: Owner, rules: set<RuleId>)
    requires OwnedBy(fs, owner, rules) && DistinctBy(fs, RuleIn)
    ensures DistinctBy(fs, FingerprintOf)
  {
    forall i, j | 0 <= i < j < |fs| ensures FingerprintOf(fs[i]) != FingerprintOf(fs[j]) {
      assert RuleIn(fs[i]) != RuleIn(fs[j]);
      if FingerprintOf(fs[i]) == FingerprintOf(fs[j]) {
        FingerprintRule(fs[i].id, fs[j].id);
      }
    }
  }
}
