/** The file of a document is only a label: it decides no finding, severity or order. */
module FileTheorems {
  import opened Sequences
  import opened Values
  import opened Models
  import opened PodSpecs
  import opened Scopes
  import opened RoleRules
  import opened RoleTheorems
  import opened Chains
  import opened NetworkPolicies
  import opened Workloads
  import opened Exposure
  import opened Analyzer
  import opened Loader
  import opened OrderTheorems
  import opened SortedKeys

  // ----- forgetting files

  function Each<A, B>(xs: seq<A>, u: A -> B): seq<B> {
    seq(|xs|, i requires 0 <= i < |xs| => u(xs[i]))
  }

  function EachEntry<A, B>(m: map<string, A>, u: A -> B): map<string, B> {
    map k | k in m :: u(m[k])
  }

  function Anon(f: Finding): Finding {
    f.(file := "")
  }

  function AnonBinding(b: BindingData): BindingData {
    b.(file := "")
  }

  function AnonClusterRole(r: ClusterRoleData): ClusterRoleData {
    r.(file := "")
  }

  function AnonRole(r: RoleData): RoleData {
    r.(file := "")
  }

  function AnonObject(o: ObjectData): ObjectData {
    o.(file := "")
  }

  function AnonPod(p: PodData): PodData {
    p.(file := "")
  }

  function AnonWorkload(w: WorkloadData): WorkloadData {
    w.(file := "")
  }

  function AnonRef(ref: SaRef): SaRef {
    ref.(file := "")
  }

  function AnonOwner(o: Owner): Owner {
    o.(file := "")
  }

  function AnonLeaf(leaf: Leaf): Leaf {
    leaf.(file := "")
  }

  /** The store without the files its records came from. */
  function AnonStore(st: Store): Store {
    Store(
      EachEntry(st.clusterRoles, AnonClusterRole), EachEntry(st.roles, AnonRole),
      Each(st.clusterRoleBindings, AnonBinding), Each(st.roleBindings, AnonBinding),
      EachEntry(st.serviceAccounts, AnonObject), EachEntry(st.pods, AnonPod), EachEntry(st.workloads, AnonWorkload),
      EachEntry(st.networkPolicies, AnonObject), EachEntry(st.constraints, AnonObject),
      EachEntry(st.services, AnonObject), EachEntry(st.ingresses, AnonObject), EachEntry(st.routes, AnonObject),
      EachEntry(st.secrets, AnonObject))
  }

  // ----- sequences

  lemma {:induction false} EachAppend<A, B>(xs: seq<A>, ys: seq<A>, u: A -> B)
    ensures Each(xs + ys, u) == Each(xs, u) + Each(ys, u)
  {
  }

  lemma {:induction false} EachOne<A, B>(x: A, u: A -> B)
    ensures Each([x], u) == [u(x)]
  {
  }

  lemma {:induction false} EachNone<A, B>(u: A -> B)
    ensures Each([], u) == []
  {
  }

  lemma {:induction false} EachIf<A, B>(shown: bool, x: A, u: A -> B)
    ensures Each(if shown then [x] else [], u) == if shown then [u(x)] else []
  {
    EachOne(x, u);
    EachNone(u);
  }

  lemma {:induction false} EachLast<A, B>(xs: seq<A>, u: A -> B)
    requires xs != []
    ensures Each(xs, u) == Each(xs[..|xs| - 1], u) + [u(xs[|xs| - 1])]
  {
  }

  lemma {:induction false} EachIsFlatMap<A, B>(xs: seq<A>, u: A -> B)
    ensures Each(xs, u) == FlatMap(xs, x => [u(x)])
  {
    if xs == [] {
    } else {
      EachIsFlatMap(xs[..|xs| - 1], u);
      EachLast(xs, u);
    }
  }

  lemma {:induction false} EachPermuted<A, B>(xs: seq<A>, ys: seq<A>, u: A -> B)
    requires multiset(xs) == multiset(ys)
    ensures multiset(Each(xs, u)) == multiset(Each(ys, u))
  {
    EachIsFlatMap(xs, u);
    EachIsFlatMap(ys, u);
    FlatMapPermuted(xs, ys, x => [u(x)]);
  }

  lemma {:induction false} FlatMapThenEach<A, B, C>(xs: seq<A>, f: A -> seq<B>, g: A -> seq<C>, u: B -> C)
    requires forall x :: x in xs ==> g(x) == Each(f(x), u)
    ensures FlatMap(xs, g) == Each(FlatMap(xs, f), u)
  {
    if xs == [] {
    } else {
      var front, last := xs[..|xs| - 1], xs[|xs| - 1];
      FlatMapThenEach(front, f, g, u);
      EachAppend(FlatMap(front, f), f(last), u);
    }
  }

  lemma {:induction false} EachThenFlatMap<A, B, C>(xs: seq<A>, t: A -> A, f: A -> seq<B>, g: A -> seq<C>, u: B -> C)
    requires forall x :: x in xs ==> g(t(x)) == Each(f(x), u)
    ensures FlatMap(Each(xs, t), g) == Each(FlatMap(xs, f), u)
  {
    if xs == [] {
    } else {
      var front, last := xs[..|xs| - 1], xs[|xs| - 1];
      EachThenFlatMap(front, t, f, g, u);
      EachLast(xs, t);
      FlatMapSnoc(Each(front, t), t(last), g);
      EachAppend(FlatMap(front, f), f(last), u);
    }
  }

  lemma {:induction false} AnonPrint(f: Finding)
    ensures FingerprintOf(Anon(f)) == FingerprintOf(f)
  {
  }

  lemma {:induction false} AnonHasKey(xs: seq<Finding>, k: string)
    ensures HasKey(Each(xs, Anon), FingerprintOf, k) <==> HasKey(xs, FingerprintOf, k)
  {
    hide FingerprintOf, Each;
    if xs == [] {
      EachNone<Finding, Finding>(Anon);
    } else {
      var front, last := xs[..|xs| - 1], xs[|xs| - 1];
      AnonHasKey(front, k);
      EachLast(xs, Anon);
      AnonPrint(last);
      assert xs == front + [last];
      HasKeySnoc(front, last, FingerprintOf, k);
      HasKeySnoc(Each(front, Anon), Anon(last), FingerprintOf, k);
    }
  }

  /** Deduplication does not look at files. */
  lemma {:induction false} AnonFirstBy(xs: seq<Finding>)
    ensures FirstBy(Each(xs, Anon), FingerprintOf) == Each(FirstBy(xs, FingerprintOf), Anon)
  {
    if xs == [] {
    } else {
      var front, last := xs[..|xs| - 1], xs[|xs| - 1];
      AnonFirstBy(front);
      EachLast(xs, Anon);
      FirstBySnoc(Each(front, Anon), Anon(last), FingerprintOf);
      AnonHasKey(FirstBy(front, FingerprintOf), FingerprintOf(last));
      EachAppend(FirstBy(front, FingerprintOf), [last], Anon);
    }
  }

  // ----- roles

  lemma {:induction false} AnonMembers(bs: seq<BindingData>)
    ensures forall b :: b in bs ==> AnonBinding(b) in Each(bs, AnonBinding)
    ensures forall c :: c in Each(bs, AnonBinding) ==> exists b :: b in bs && c == AnonBinding(b)
  {
    forall b | b in bs ensures AnonBinding(b) in Each(bs, AnonBinding) {
      var i :| 0 <= i < |bs| && bs[i] == b;
      assert Each(bs, AnonBinding)[i] == AnonBinding(b);
    }
  }

  lemma {:induction false} AnonScopes(name: string, namespace: string, crbs: seq<BindingData>, rbs: seq<BindingData>)
    ensures var cs, rs := Each(crbs, AnonBinding), Each(rbs, AnonBinding);
            && ScopeAtMost(ClusterRoleScope(name, crbs, rbs), ClusterRoleScope(name, cs, rs))
            && ScopeAtMost(ClusterRoleScope(name, cs, rs), ClusterRoleScope(name, crbs, rbs))
            && ScopeAtMost(RoleScope(name, namespace, rbs), RoleScope(name, namespace, rs))
            && ScopeAtMost(RoleScope(name, namespace, rs), RoleScope(name, namespace, rbs))
  {
    hide ClusterRoleScope, RoleScope, Each;
    var cs, rs := Each(crbs, AnonBinding), Each(rbs, AnonBinding);
    AnonMembers(crbs);
    AnonMembers(rbs);
    assert forall b :: BindsClusterRole(AnonBinding(b), name) <==> BindsClusterRole(b, name);
    assert forall b :: BindsRole(AnonBinding(b), name, namespace) <==> BindsRole(b, name, namespace);
    ClusterRoleScopeExact(name, crbs, rbs, "");
    ClusterRoleScopeExact(name, cs, rs, "");
    RoleScopeExact(name, namespace, rbs, "");
    RoleScopeExact(name, namespace, rs, "");
  }

  lemma {:induction false} AnonRoleFindings(rules: seq<Doc>, owner: Owner, s: BindingScope, t: BindingScope,
                                            namespaced: bool)
    requires ScopeAtMost(s, t) && ScopeAtMost(t, s)
    ensures RoleFindings(rules, RoleContext(AnonOwner(owner), t, namespaced))
            == Each(RoleFindings(rules, RoleContext(owner, s, namespaced)), Anon)
  {
    hide Reported, SeverityFor;
    forall wild ensures SeverityFor(s, wild, namespaced) == SeverityFor(t, wild, namespaced) {
      SeverityMonotone(s, t, wild, namespaced);
      SeverityMonotone(t, s, wild, namespaced);
    }
    var fs := RoleFindings(rules, RoleContext(owner, s, namespaced));
    var gs := RoleFindings(rules, RoleContext(AnonOwner(owner), t, namespaced));
    assert |fs| == |gs| && forall i :: 0 <= i < |fs| ==> gs[i] == Anon(fs[i]);
    assert gs == Each(fs, Anon);
  }

  lemma {:induction false} AnonRoleTables(st: Store)
    ensures AnonStore(st).clusterRoles == EachEntry(st.clusterRoles, AnonClusterRole)
    ensures AnonStore(st).roles == EachEntry(st.roles, AnonRole)
    ensures AnonStore(st).clusterRoleBindings == Each(st.clusterRoleBindings, AnonBinding)
    ensures AnonStore(st).roleBindings == Each(st.roleBindings, AnonBinding)
  {
  }

  lemma {:induction false} AnonClusterRolePhase(st: Store, k: string)
    ensures ClusterRolePhase(AnonStore(st))(k) == Each(ClusterRolePhase(st)(k), Anon)
  {
    hide RoleFindings, ClusterRoleScope, RoleScope, Each, AnonStore;
    AnonRoleTables(st);
    EachNone<Finding, Finding>(Anon);
    if k in st.clusterRoles {
      var cr := st.clusterRoles[k];
      var crbs, rbs := st.clusterRoleBindings, st.roleBindings;
      var s, t := ClusterRoleScope(k, crbs, rbs),
                  ClusterRoleScope(k, Each(crbs, AnonBinding), Each(rbs, AnonBinding));
      AnonScopes(k, "", crbs, rbs);
      AnonRoleFindings(cr.rules, ClusterRoleOwner(k, cr.file), s, t, false);
      EachIf("aggregationRule" in cr.doc, AggregatedFinding(k, cr.file), Anon);
      EachAppend(if "aggregationRule" in cr.doc then [AggregatedFinding(k, cr.file)] else [],
                 RoleFindings(cr.rules, RoleContext(ClusterRoleOwner(k, cr.file), s, false)), Anon);
    }
  }

  lemma {:induction false} AnonRolePhase(st: Store, k: string)
    ensures RolePhase(AnonStore(st))(k) == Each(RolePhase(st)(k), Anon)
  {
    hide RoleFindings, ClusterRoleScope, RoleScope, ExtractNameFromKey, Each, AnonStore;
    AnonRoleTables(st);
    EachNone<Finding, Finding>(Anon);
    if k in st.roles {
      var role, name := st.roles[k], ExtractNameFromKey(k);
      AnonScopes(name, role.namespace, st.clusterRoleBindings, st.roleBindings);
      AnonRoleFindings(role.rules, RoleOwner(k, role), RoleScope(name, role.namespace, st.roleBindings),
                       RoleScope(name, role.namespace, Each(st.roleBindings, AnonBinding)), true);
    }
  }

  // ----- per-object checks

  lemma {:induction false} AnonNew(shown: bool, rule: RuleId, severity: Severity, owner: Owner)
    ensures (if shown then [NewFinding(rule, severity, AnonOwner(owner))] else [])
            == Each(if shown then [NewFinding(rule, severity, owner)] else [], Anon)
  {
    EachIf(shown, NewFinding(rule, severity, owner), Anon);
  }

  lemma {:induction false} AnonWorkloadFindings(doc: Doc, owner: Owner, upper: Upper)
    ensures WorkloadFindings(doc, AnonOwner(owner), upper) == Each(WorkloadFindings(doc, owner, upper), Anon)
  {
    hide PodSpecFindings, Each;
    EachNone<Finding, Finding>(Anon);
    match PodSpec(doc, owner.kind) {
      case None =>
      case Some(podSpec) => AnonPodSpec(podSpec, owner, upper);
    }
  }

  lemma {:induction false} AnonPodSpec(podSpec: Doc, owner: Owner, upper: Upper)
    ensures PodSpecFindings(podSpec, AnonOwner(owner), upper) == Each(PodSpecFindings(podSpec, owner, upper), Anon)
  {
    hide AnyPrivileged, HostPathSeverity, CapabilitySeverity, HostNamespaces, Containers, FlatMap, Each, NewFinding,
         AnonOwner;
    var containers := Containers(podSpec);
    var hostPath := HostPathSeverity(MapItems(Field(podSpec, "volumes")), FlatMap(containers, MountsOf));
    var capability := CapabilitySeverity(FlatMap(containers, AddedCapabilities), upper);
    var a := if AnyPrivileged(containers) then [NewFinding(PRIVILEGED_CONTAINER, HIGH, owner)] else [];
    var b := if HostNamespaces(podSpec) then [NewFinding(HOST_NAMESPACE, HIGH, owner)] else [];
    var c := if hostPath > INFO then [NewFinding(HOST_PATH, hostPath, owner)] else [];
    var d := if capability > INFO then [NewFinding(DANGEROUS_CAPABILITIES, capability, owner)] else [];
    AnonNew(AnyPrivileged(containers), PRIVILEGED_CONTAINER, HIGH, owner);
    AnonNew(HostNamespaces(podSpec), HOST_NAMESPACE, HIGH, owner);
    AnonNew(hostPath > INFO, HOST_PATH, hostPath, owner);
    AnonNew(capability > INFO, DANGEROUS_CAPABILITIES, capability, owner);
    EachAppend(a, b, Anon);
    EachAppend(a + b, c, Anon);
    EachAppend(a + b + c, d, Anon);
  }

  lemma {:induction false} AnonPodPhase(st: Store, lib: Library, k: string)
    ensures PodPhase(AnonStore(st), lib)(k) == Each(PodPhase(st, lib)(k), Anon)
  {
    hide WorkloadFindings, Each, AnonOwner, AnonStore;
    EachNone<Finding, Finding>(Anon);
    AnonPodTables(st);
    if k in st.pods {
      var pod := st.pods[k];
      var owner := Owner(Pod, pod.name, pod.namespace, pod.file);
      AnonWorkloadFindings(pod.doc, owner, lib.upper);
      AnonOwnerIs(owner);
    }
  }

  lemma {:induction false} AnonOwnerIs(owner: Owner)
    ensures AnonOwner(owner) == owner.(file := "")
  {
  }

  lemma {:induction false} AnonPodTables(st: Store)
    ensures AnonStore(st).pods == EachEntry(st.pods, AnonPod)
    ensures AnonStore(st).workloads == EachEntry(st.workloads, AnonWorkload)
  {
  }

  lemma {:induction false} AnonWorkloadPhase(st: Store, lib: Library, k: string)
    ensures WorkloadPhase(AnonStore(st), lib)(k) == Each(WorkloadPhase(st, lib)(k), Anon)
  {
    hide WorkloadFindings, Each, AnonOwner, AnonStore;
    EachNone<Finding, Finding>(Anon);
    AnonPodTables(st);
    if k in st.workloads {
      var w := st.workloads[k];
      var owner := Owner(w.kind, w.name, w.namespace, w.file);
      AnonWorkloadFindings(w.doc, owner, lib.upper);
      AnonOwnerIs(owner);
    }
  }

  lemma {:induction false} AnonPolicy(o: ObjectData, parse: CidrParser)
    ensures PolicyFindings(AnonObject(o), parse) == Each(PolicyFindings(o, parse), Anon)
  {
    hide Broad, PolicySeverity, Each, NewFinding;
    EachNone<Finding, Finding>(Anon);
    match SubMap(o.doc, "spec") {
      case None =>
      case Some(spec) =>
        var ingress := Broad(spec, "Ingress", "ingress", "from", parse);
        var egress := Broad(spec, "Egress", "egress", "to", parse);
        AnonNew(ingress, NETWORK_POLICY_INGRESS, PolicySeverity(spec), PolicyOwner(o));
        AnonNew(egress, NETWORK_POLICY_EGRESS, PolicySeverity(spec), PolicyOwner(o));
        EachAppend(if ingress then [NewFinding(NETWORK_POLICY_INGRESS, PolicySeverity(spec), PolicyOwner(o))] else [],
                   if egress then [NewFinding(NETWORK_POLICY_EGRESS, PolicySeverity(spec), PolicyOwner(o))] else [],
                   Anon);
    }
  }

  lemma {:induction false} AnonIngress(o: ObjectData)
    ensures IngressFindings(AnonObject(o)) == Each(IngressFindings(o), Anon)
  {
    hide Unencrypted, BroadHost, Each, NewFinding;
    EachNone<Finding, Finding>(Anon);
    match SubMap(o.doc, "spec") {
      case None =>
      case Some(spec) =>
        var rules, defaultBackend := ListField(spec, "rules"), "defaultBackend" in spec;
        var plain := Unencrypted(ListField(spec, "tls"), rules, defaultBackend);
        var broad := BroadHost(rules, defaultBackend);
        AnonNew(plain, UNENCRYPTED_ROUTE, WARNING, OwnerOf(Ingress, o));
        AnonNew(broad, BROAD_EXTERNAL_ROUTE, WARNING, OwnerOf(Ingress, o));
        EachAppend(if plain then [NewFinding(UNENCRYPTED_ROUTE, WARNING, OwnerOf(Ingress, o))] else [],
                   if broad then [NewFinding(BROAD_EXTERNAL_ROUTE, WARNING, OwnerOf(Ingress, o))] else [], Anon);
    }
  }

  lemma {:induction false} AnonRoute(o: ObjectData)
    ensures RouteFindings(AnonObject(o)) == Each(RouteFindings(o), Anon)
  {
    hide RouteTlsSeverity, Each, NewFinding;
    EachNone<Finding, Finding>(Anon);
    match SubMap(o.doc, "spec") {
      case None =>
      case Some(spec) =>
        var severity, broad := RouteTlsSeverity(spec), StringField(spec, "wildcardPolicy") == "Subdomain";
        AnonNew(severity > INFO, UNENCRYPTED_ROUTE, severity, OwnerOf(Route, o));
        AnonNew(broad, BROAD_EXTERNAL_ROUTE, WARNING, OwnerOf(Route, o));
        EachAppend(if severity > INFO then [NewFinding(UNENCRYPTED_ROUTE, severity, OwnerOf(Route, o))] else [],
                   if broad then [NewFinding(BROAD_EXTERNAL_ROUTE, WARNING, OwnerOf(Route, o))] else [], Anon);
    }
  }

  lemma {:induction false} AnonSingles(o: ObjectData, lib: Library)
    ensures ServiceFindings(AnonObject(o)) == Each(ServiceFindings(o), Anon)
    ensures ConstraintFindings(AnonObject(o), lib) == Each(ConstraintFindings(o, lib), Anon)
    ensures SecretFindings(AnonObject(o), lib) == Each(SecretFindings(o, lib), Anon)
  {
    hide ReachableService, Each, NewFinding;
    EachNone<Finding, Finding>(Anon);
    AnonNew(true, EXTERNAL_SERVICE, WARNING, OwnerOf(Service, o));
    AnonNew(true, SERVICE_ACCOUNT_TOKEN_SECRET, HIGH, OwnerOf(Secret, o));
    AnonNew(true, CREDENTIAL_SECRET, WARNING, OwnerOf(Secret, o));
    if lib.constraintCheck(o.doc).Some? {
      AnonNew(true, PERMISSIVE_SCC, lib.constraintCheck(o.doc).value,
              Owner(SecurityContextConstraints, o.name, "", o.file));
    }
  }

  lemma {:induction false} AnonObjects(m: map<string, ObjectData>, f: ObjectData -> seq<Finding>, order: seq<string>)
    requires forall o :: f(AnonObject(o)) == Each(f(o), Anon)
    ensures FlatMap(order, PerObject(EachEntry(m, AnonObject), f)) == Each(FlatMap(order, PerObject(m, f)), Anon)
  {
    hide FlatMap, Each;
    EachNone<Finding, Finding>(Anon);
    FlatMapThenEach(order, PerObject(m, f), PerObject(EachEntry(m, AnonObject), f), Anon);
  }

  // ----- chains

  lemma {:induction false} AnonRefsAt(st: Store, k: string)
    ensures PodRefs(AnonStore(st).pods)(k) == Each(PodRefs(st.pods)(k), AnonRef)
    ensures WorkloadRefs(AnonStore(st).workloads)(k) == Each(WorkloadRefs(st.workloads)(k), AnonRef)
  {
    hide AnonStore, Each, References;
    EachNone<SaRef, SaRef>(AnonRef);
    AnonPodTables(st);
    if k in st.pods {
      EachOne(PodRef(st.pods[k]), AnonRef);
    }
    if k in st.workloads {
      EachOne(WorkloadRef(st.workloads[k]), AnonRef);
    }
  }

  lemma {:induction false} AnonReferences(st: Store, o: Orders)
    ensures References(AnonStore(st).pods, o.chainPods, AnonStore(st).workloads, o.chainWorkloads)
            == Each(References(st.pods, o.chainPods, st.workloads, o.chainWorkloads), AnonRef)
  {
    hide FlatMap, Each;
    forall k
      ensures PodRefs(AnonStore(st).pods)(k) == Each(PodRefs(st.pods)(k), AnonRef)
      ensures WorkloadRefs(AnonStore(st).workloads)(k) == Each(WorkloadRefs(st.workloads)(k), AnonRef)
    {
      AnonRefsAt(st, k);
    }
    FlatMapThenEach(o.chainPods, PodRefs(st.pods), PodRefs(AnonStore(st).pods), AnonRef);
    FlatMapThenEach(o.chainWorkloads, WorkloadRefs(st.workloads), WorkloadRefs(AnonStore(st).workloads), AnonRef);
    EachAppend(FlatMap(o.chainPods, PodRefs(st.pods)), FlatMap(o.chainWorkloads, WorkloadRefs(st.workloads)), AnonRef);
  }

  lemma {:induction false} AnonRefEmissions(ref: SaRef, crbs: seq<BindingData>, rbs: seq<BindingData>)
    ensures RefEmissions(Each(crbs, AnonBinding), Each(rbs, AnonBinding))(AnonRef(ref))
            == Each(RefEmissions(crbs, rbs)(ref), Anon)
  {
    hide FlatMap, Each, ReferencesSubject, RefersToClusterRole, BindsClusterRole;
    forall b
      ensures AdminEmissions(AnonRef(ref))(AnonBinding(b)) == Each(AdminEmissions(ref)(b), Anon)
      ensures UsedEmissions(AnonRef(ref))(AnonBinding(b)) == Each(UsedEmissions(ref)(b), Anon)
    {
      AnonBindingReads(b, ref.account, ref.namespace);
      EachIf(MakesAdmin(b, ref), AdminFinding(ref), Anon);
      EachIf(ReferencesSubject(b, ref.account, ref.namespace) && RefersToClusterRole(b), BindingFinding(b), Anon);
    }
    EachThenFlatMap(crbs, AnonBinding, AdminEmissions(ref), AdminEmissions(AnonRef(ref)), Anon);
    EachThenFlatMap(rbs, AnonBinding, UsedEmissions(ref), UsedEmissions(AnonRef(ref)), Anon);
    EachAppend(FlatMap(crbs, AdminEmissions(ref)), FlatMap(rbs, UsedEmissions(ref)), Anon);
  }

  lemma {:induction false} AnonBindingReads(b: BindingData, account: string, namespace: string)
    ensures ReferencesSubject(AnonBinding(b), account, namespace) <==> ReferencesSubject(b, account, namespace)
    ensures RefersToClusterRole(AnonBinding(b)) <==> RefersToClusterRole(b)
    ensures BindsClusterRole(AnonBinding(b), "cluster-admin") <==> BindsClusterRole(b, "cluster-admin")
  {
  }

  lemma {:induction false} AnonChains(refs: seq<SaRef>, crbs: seq<BindingData>, rbs: seq<BindingData>)
    ensures ChainFindings(Each(refs, AnonRef), Each(crbs, AnonBinding), Each(rbs, AnonBinding))
            == Each(ChainFindings(refs, crbs, rbs), Anon)
  {
    hide FlatMap, FirstBy, RefEmissions, RefersToClusterRole;
    var cs, rs := Each(crbs, AnonBinding), Each(rbs, AnonBinding);
    forall ref ensures RefEmissions(cs, rs)(AnonRef(ref)) == Each(RefEmissions(crbs, rbs)(ref), Anon) {
      AnonRefEmissions(ref, crbs, rbs);
    }
    forall b ensures BindingEmission(AnonBinding(b)) == Each(BindingEmission(b), Anon) {
      AnonBindingReads(b, "", "");
      EachIf(RefersToClusterRole(b), BindingFinding(b), Anon);
    }
    EachThenFlatMap(refs, AnonRef, RefEmissions(crbs, rbs), RefEmissions(cs, rs), Anon);
    EachThenFlatMap(rbs, AnonBinding, BindingEmission, BindingEmission, Anon);
    EachAppend(FlatMap(refs, RefEmissions(crbs, rbs)), FlatMap(rbs, BindingEmission), Anon);
    AnonFirstBy(ChainEmissions(refs, crbs, rbs));
  }

  // ----- the report

  lemma {:induction false} AnonObjectParts(st: Store, o: Orders, lib: Library)
    ensures var a := AnonStore(st);
            && PolicyReport(a, o, lib) == Each(PolicyReport(st, o, lib), Anon)
            && ConstraintReport(a, o, lib) == Each(ConstraintReport(st, o, lib), Anon)
            && SecretReport(a, o, lib) == Each(SecretReport(st, o, lib), Anon)
  {
    hide FlatMap, FirstBy, PerObject, PolicyFindings, ConstraintFindings, SecretFindings, Each, EachEntry;
    forall x: ObjectData
      ensures PolicyCheck(lib)(AnonObject(x)) == Each(PolicyCheck(lib)(x), Anon)
      ensures ConstraintCheck(lib)(AnonObject(x)) == Each(ConstraintCheck(lib)(x), Anon)
      ensures SecretCheck(lib)(AnonObject(x)) == Each(SecretCheck(lib)(x), Anon)
    {
      AnonPolicy(x, lib.parse);
      AnonSingles(x, lib);
    }
    AnonObjects(st.networkPolicies, PolicyCheck(lib), o.policies);
    AnonObjects(st.constraints, ConstraintCheck(lib), o.constraints);
    AnonObjects(st.secrets, SecretCheck(lib), o.secrets);
    AnonFirstBy(FlatMap(o.policies, PerObject(st.networkPolicies, PolicyCheck(lib))));
    AnonFirstBy(FlatMap(o.constraints, PerObject(st.constraints, ConstraintCheck(lib))));
    AnonFirstBy(FlatMap(o.secrets, PerObject(st.secrets, SecretCheck(lib))));
  }

  lemma {:induction false} AnonExposure(st: Store, o: Orders, lib: Library)
    ensures ExposureReport(AnonStore(st), o) == Each(ExposureReport(st, o), Anon)
  {
    hide FlatMap, FirstBy, PerObject, ServiceFindings, IngressFindings, RouteFindings, Each, EachEntry;
    forall x: ObjectData
      ensures ServiceCheck()(AnonObject(x)) == Each(ServiceCheck()(x), Anon)
      ensures IngressCheck()(AnonObject(x)) == Each(IngressCheck()(x), Anon)
      ensures RouteCheck()(AnonObject(x)) == Each(RouteCheck()(x), Anon)
    {
      AnonSingles(x, lib);
      AnonIngress(x);
      AnonRoute(x);
    }
    AnonObjects(st.services, ServiceCheck(), o.services);
    AnonObjects(st.ingresses, IngressCheck(), o.ingresses);
    AnonObjects(st.routes, RouteCheck(), o.routes);
    var xs := FlatMap(o.services, PerObject(st.services, ServiceCheck()));
    var ys := FlatMap(o.ingresses, PerObject(st.ingresses, IngressCheck()));
    var zs := FlatMap(o.routes, PerObject(st.routes, RouteCheck()));
    EachAppend(xs, ys, Anon);
    EachAppend(xs + ys, zs, Anon);
    AnonFirstBy(xs + ys + zs);
  }

  lemma {:induction false} AnonRbac(st: Store, o: Orders)
    ensures RbacReport(AnonStore(st), o) == Each(RbacReport(st, o), Anon)
  {
    hide FlatMap, AnonStore, ClusterRolePhase, RolePhase;
    var a := AnonStore(st);
    forall k ensures ClusterRolePhase(a)(k) == Each(ClusterRolePhase(st)(k), Anon) {
      AnonClusterRolePhase(st, k);
    }
    forall k ensures RolePhase(a)(k) == Each(RolePhase(st)(k), Anon) {
      AnonRolePhase(st, k);
    }
    FlatMapThenEach(o.clusterRoles, ClusterRolePhase(st), ClusterRolePhase(a), Anon);
    FlatMapThenEach(o.roles, RolePhase(st), RolePhase(a), Anon);
    EachAppend(FlatMap(o.clusterRoles, ClusterRolePhase(st)), FlatMap(o.roles, RolePhase(st)), Anon);
  }

  lemma {:induction false} AnonPodSecurity(st: Store, o: Orders, lib: Library)
    ensures PodSecurityReport(AnonStore(st), o, lib) == Each(PodSecurityReport(st, o, lib), Anon)
  {
    hide FlatMap, AnonStore, PodPhase, WorkloadPhase;
    var a := AnonStore(st);
    forall k
      ensures PodPhase(a, lib)(k) == Each(PodPhase(st, lib)(k), Anon)
      ensures WorkloadPhase(a, lib)(k) == Each(WorkloadPhase(st, lib)(k), Anon)
    {
      AnonPodPhase(st, lib, k);
      AnonWorkloadPhase(st, lib, k);
    }
    FlatMapThenEach(o.pods, PodPhase(st, lib), PodPhase(a, lib), Anon);
    FlatMapThenEach(o.workloads, WorkloadPhase(st, lib), WorkloadPhase(a, lib), Anon);
    EachAppend(FlatMap(o.pods, PodPhase(st, lib)), FlatMap(o.workloads, WorkloadPhase(st, lib)), Anon);
  }

  lemma {:induction false} AnonFullReport(st: Store, o: Orders, lib: Library)
    ensures FullReport(AnonStore(st), o, lib) == Each(FullReport(st, o, lib), Anon)
  {
    hide AnonStore, RbacReport, PodSecurityReport, PolicyReport, ConstraintReport, ExposureReport, SecretReport,
         ChainFindings, Each, References;
    AnonRbac(st, o);
    AnonPodSecurity(st, o, lib);
    AnonObjectParts(st, o, lib);
    AnonExposure(st, o, lib);
    var refs := References(st.pods, o.chainPods, st.workloads, o.chainWorkloads);
    AnonReferences(st, o);
    AnonChains(refs, st.clusterRoleBindings, st.roleBindings);
    AnonRoleTables(st);
    var r1 := RbacReport(st, o) + PodSecurityReport(st, o, lib);
    var r2 := r1 + PolicyReport(st, o, lib);
    var r3 := r2 + ConstraintReport(st, o, lib);
    var r4 := r3 + ExposureReport(st, o);
    EachAppend(RbacReport(st, o), PodSecurityReport(st, o, lib), Anon);
    EachAppend(r1, PolicyReport(st, o, lib), Anon);
    EachAppend(r2, ConstraintReport(st, o, lib), Anon);
    EachAppend(r3, ExposureReport(st, o), Anon);
    EachAppend(r4, SecretReport(st, o, lib), Anon);
    EachAppend(r4 + SecretReport(st, o, lib), ChainReport(st, o), Anon);
  }

  lemma {:induction false} AnonVisits(st: Store, o: Orders)
    requires Visits(o, st)
    ensures Visits(o, AnonStore(st))
  {
    hide Enumerates, InOrder;
    var a := AnonStore(st);
    assert a.clusterRoles.Keys == st.clusterRoles.Keys && a.roles.Keys == st.roles.Keys;
    assert a.pods.Keys == st.pods.Keys && a.workloads.Keys == st.workloads.Keys;
    assert a.networkPolicies.Keys == st.networkPolicies.Keys && a.constraints.Keys == st.constraints.Keys;
    assert a.services.Keys == st.services.Keys && a.ingresses.Keys == st.ingresses.Keys;
    assert a.routes.Keys == st.routes.Keys && a.secrets.Keys == st.secrets.Keys;
  }

  lemma {:induction false} AnonVerdicts(fs: seq<Finding>)
    ensures Verdicts(Each(fs, Anon)) == Verdicts(fs)
  {
    VerdictsPointwise(fs);
    VerdictsPointwise(Each(fs, Anon));
  }

  /** Whatever is reported for a store is reported, file names aside, for the store without files. */
  lemma {:induction false} FilesAreLabels(st: Store, lib: Library, fs: seq<Finding>)
    requires IsReport(st, lib, fs)
    ensures IsReport(AnonStore(st), lib, Each(fs, Anon)) && Verdicts(Each(fs, Anon)) == Verdicts(fs)
  {
    hide Visits, FullReport, AnonStore, Each;
    var o :| Visits(o, st) && fs == FullReport(st, o, lib);
    AnonVisits(st, o);
    AnonFullReport(st, o, lib);
    AnonVerdicts(fs);
  }

  // ----- loading

  lemma {:induction false} EachEntryUpdate<A, B>(m: map<string, A>, key: string, x: A, u: A -> B)
    ensures EachEntry(m[key := x], u) == EachEntry(m, u)[key := u(x)]
  {
  }

  lemma {:induction false} AnonPutKind(st: Store, kind: Kind, leaf: Leaf)
    ensures AnonStore(PutKind(st, kind, leaf)) == PutKind(AnonStore(st), kind, AnonLeaf(leaf))
  {
    hide Each, EachEntry, NameOf, NamespaceOf, Key, KindText, MapItems, MapField;
    var name, namespace := NameOf(leaf.doc), NamespaceOf(leaf.doc, kind);
    var key, record := Key(namespace, name), ObjectData(name, namespace, leaf.file, leaf.doc);
    match kind {
      case ClusterRole => EachEntryUpdate(st.clusterRoles, name, ClusterRoleOf(leaf), AnonClusterRole);
      case Role => EachEntryUpdate(st.roles, key, RoleOf(leaf), AnonRole);
      case ClusterRoleBinding => AnonBindings(st.clusterRoleBindings, BindingOf(leaf, ""));
      case RoleBinding => AnonBindings(st.roleBindings, BindingOf(leaf, namespace));
      case ServiceAccount => EachEntryUpdate(st.serviceAccounts, key, record, AnonObject);
      case Service => EachEntryUpdate(st.services, key, record, AnonObject);
      case Ingress => EachEntryUpdate(st.ingresses, key, record, AnonObject);
      case Route => EachEntryUpdate(st.routes, key, record, AnonObject);
      case Secret => EachEntryUpdate(st.secrets, key, record, AnonObject);
      case NetworkPolicy => EachEntryUpdate(st.networkPolicies, key, record, AnonObject);
      case SecurityContextConstraints =>
        EachEntryUpdate(st.constraints, name, record.(namespace := ""), AnonObject);
      case Pod => EachEntryUpdate(st.pods, key, PodOf(leaf), AnonPod);
      case _ => EachEntryUpdate(st.workloads, KindText(kind) + "/" + key, WorkloadOf(kind, leaf), AnonWorkload);
    }
  }

  lemma {:induction false} AnonBindings(bs: seq<BindingData>, b: BindingData)
    ensures Each(bs + [b], AnonBinding) == Each(bs, AnonBinding) + [AnonBinding(b)]
  {
  }

  /** Loading commutes with forgetting the files. */
  lemma {:induction false} AnonPutAll(st: Store, leaves: seq<Leaf>)
    ensures AnonStore(PutAll(st, leaves)) == PutAll(AnonStore(st), Each(leaves, AnonLeaf))
  {
    hide AnonStore, PutKind, ReadableKind, Versioned;
    if leaves == [] {
    } else {
      var front, last := leaves[..|leaves| - 1], leaves[|leaves| - 1];
      AnonPutAll(st, front);
      EachLast(leaves, AnonLeaf);
      assert Each(leaves, AnonLeaf)[..|front|] == Each(front, AnonLeaf);
      if ReadableKind(last.doc).Some? {
        AnonPutKind(PutAll(st, front), ReadableKind(last.doc).value, last);
      }
    }
  }

  lemma {:induction false} AnonEmpty()
    ensures AnonStore(EMPTY_STORE) == EMPTY_STORE
  {
  }
}
