/** The report does not depend on the order in which Go visits its maps, nor on the order of the
    binding lists. */
module OrderTheorems {
  import opened Sequences
  import opened Values
  import opened Models
  import opened Scopes
  import opened RoleRules
  import opened Chains
  import opened NetworkPolicies
  import opened Exposure
  import opened Analyzer
  import opened ReportShape
  import opened SortedKeys

  // ----- deduplication drops nothing outside the chain phase

  function ObjectOwner(kind: Kind, m: map<string, ObjectData>): string -> Owner {
    k => if k in m then OwnerOf(kind, m[k]) else Owner(kind, "", "", "")
  }

  /** What a per-object check may report. */
  ghost predicate WellShaped(kind: Kind, m: map<string, ObjectData>, f: ObjectData -> seq<Finding>,
                             rules: set<RuleId>) {
    forall k :: k in m ==> OwnedBy(f(m[k]), OwnerOf(kind, m[k]), rules) && DistinctBy(f(m[k]), RuleIn)
  }

  ghost predicate FromKind(fs: seq<Finding>, kind: Kind, rules: set<RuleId>, ns: iset<string>) {
    forall f :: f in fs ==> f.id.kind == kind && f.id.rule in rules && Placed(f.id.kind, f.id.namespace, ns)
                            && !f.suppressed
  }

  lemma {:induction false} ObjectPhaseDistinct(kind: Kind, m: map<string, ObjectData>, f: ObjectData -> seq<Finding>,
                                               order: seq<string>, rules: set<RuleId>, ns: iset<string>)
    requires Enumerates(order, m.Keys) && WellShaped(kind, m, f, rules)
    requires AllEntries(m, ObjectKeyed) && AllEntries(m, ObjectIn(ns)) && Apart(ns) && NamespacedKind(kind)
    ensures DistinctBy(FlatMap(order, PerObject(m, f)), FingerprintOf)
    ensures FirstBy(FlatMap(order, PerObject(m, f)), FingerprintOf) == FlatMap(order, PerObject(m, f))
    ensures FromKind(FlatMap(order, PerObject(m, f)), kind, rules, ns)
  {
    hide FirstBy, FlatMap, Key, OwnedBy, DistinctBy, FromKind, NamespacedKind;
    var g, own := PerObject(m, f), ObjectOwner(kind, m);
    forall k | k in order
      ensures OwnedBy(g(k), own(k), rules) && DistinctBy(g(k), RuleIn) && Placed(own(k).kind, own(k).namespace, ns)
    {
      assert k in m && ObjectIn(ns)(k, m[k]);
    }
    forall i, j | 0 <= i < j < |order| ensures !SameResource(own(order[i]), own(order[j])) {
      assert order[i] in m && order[j] in m;
      assert ObjectKeyed(order[i], m[order[i]]) && ObjectKeyed(order[j], m[order[j]]);
    }
    OwnedDistinct(order, g, own, rules, ns);
    OwnedFromKind(order, g, own, kind, rules, ns);
    FirstByKeepsDistinct(FlatMap(order, g), FingerprintOf);
  }

  lemma {:induction false} OwnedFromKind(o: seq<string>, f: string -> seq<Finding>, own: string -> Owner, kind: Kind,
                                         rules: set<RuleId>, ns: iset<string>)
    requires AllOwned(o, f, own, rules, ns) && forall k :: k in o ==> own(k).kind == kind
    ensures FromKind(FlatMap(o, f), kind, rules, ns)
  {
    hide FlatMap, DistinctBy, Placed;
    forall x: Finding | x in FlatMap(o, f)
      ensures x.id.kind == kind && x.id.rule in rules && Placed(x.id.kind, x.id.namespace, ns) && !x.suppressed
    {
      InFlatMap(o, f, x);
      var k :| k in o && x in f(k);
      assert OwnedBy(f(k), own(k), rules);
    }
  }

  lemma {:induction false} PoliciesDistinct(st: Store, o: Orders, lib: Library, ns: iset<string>)
    requires Orderly(st, ns) && Visits(o, st)
    ensures var fs := FlatMap(o.policies, PerObject(st.networkPolicies, PolicyCheck(lib)));
            && PolicyReport(st, o, lib) == fs && DistinctBy(fs, FingerprintOf)
            && FromKind(fs, NetworkPolicy, POLICY_RULES, ns)
  {
    hide FirstBy, FlatMap, FromKind, PolicyFindings, OwnedBy, AllEntries, DistinctBy, Enumerates;
    forall k | k in st.networkPolicies
      ensures var fs := PolicyCheck(lib)(st.networkPolicies[k]);
              OwnedBy(fs, OwnerOf(NetworkPolicy, st.networkPolicies[k]), POLICY_RULES) && DistinctBy(fs, RuleIn)
    {
      PolicyShape(st.networkPolicies[k], lib.parse);
    }
    ObjectPhaseDistinct(NetworkPolicy, st.networkPolicies, PolicyCheck(lib), o.policies, POLICY_RULES, ns);
  }

  lemma {:induction false} SecretsDistinct(st: Store, o: Orders, lib: Library, ns: iset<string>)
    requires Orderly(st, ns) && Visits(o, st)
    ensures var fs := FlatMap(o.secrets, PerObject(st.secrets, SecretCheck(lib)));
            SecretReport(st, o, lib) == fs && DistinctBy(fs, FingerprintOf) && FromKind(fs, Secret, SECRET_RULES, ns)
  {
    hide FirstBy, FlatMap, FromKind, SecretFindings, OwnedBy, AllEntries, DistinctBy, Enumerates;
    forall k | k in st.secrets
      ensures var fs := SecretCheck(lib)(st.secrets[k]);
              OwnedBy(fs, OwnerOf(Secret, st.secrets[k]), SECRET_RULES) && DistinctBy(fs, RuleIn)
    {
      SecretShape(st.secrets[k], lib);
    }
    ObjectPhaseDistinct(Secret, st.secrets, SecretCheck(lib), o.secrets, SECRET_RULES, ns);
  }

  function ConstraintOwnerAt(m: map<string, ObjectData>): string -> Owner {
    k => if k in m then ConstraintOwner(m[k]) else Owner(SecurityContextConstraints, "", "", "")
  }

  lemma {:induction false} ConstraintsDistinct(st: Store, o: Orders, lib: Library, ns: iset<string>)
    requires Orderly(st, ns) && Visits(o, st)
    ensures var fs := FlatMap(o.constraints, PerObject(st.constraints, ConstraintCheck(lib)));
            && ConstraintReport(st, o, lib) == fs && DistinctBy(fs, FingerprintOf)
            && FromKind(fs, SecurityContextConstraints, {PERMISSIVE_SCC}, ns)
  {
    hide FirstBy, FlatMap, ConstraintFindings, OwnedBy, DistinctBy, FromKind;
    var order, m := o.constraints, st.constraints;
    var f, own := PerObject(m, ConstraintCheck(lib)), ConstraintOwnerAt(m);
    forall k | k in order
      ensures OwnedBy(f(k), own(k), {PERMISSIVE_SCC}) && DistinctBy(f(k), RuleIn)
              && Placed(own(k).kind, own(k).namespace, ns)
    {
      assert k in m;
      ConstraintShape(m[k], lib);
    }
    forall i, j | 0 <= i < j < |order| ensures !SameResource(own(order[i]), own(order[j])) {
      assert order[i] in m && order[j] in m;
      assert ConstraintKeyed(order[i], m[order[i]]) && ConstraintKeyed(order[j], m[order[j]]);
    }
    OwnedDistinct(order, f, own, {PERMISSIVE_SCC}, ns);
    OwnedFromKind(order, f, own, SecurityContextConstraints, {PERMISSIVE_SCC}, ns);
    FirstByKeepsDistinct(FlatMap(order, f), FingerprintOf);
  }

  lemma {:induction false} ServicesDistinct(st: Store, o: Orders, ns: iset<string>)
    requires Orderly(st, ns) && Visits(o, st)
    ensures var fs := FlatMap(o.services, PerObject(st.services, ServiceCheck()));
            DistinctBy(fs, FingerprintOf) && FromKind(fs, Service, {EXTERNAL_SERVICE}, ns)
  {
    hide FirstBy, FlatMap, FromKind, ServiceFindings, OwnedBy, AllEntries, DistinctBy, Enumerates;
    forall k | k in st.services
      ensures var fs := ServiceCheck()(st.services[k]);
              OwnedBy(fs, OwnerOf(Service, st.services[k]), {EXTERNAL_SERVICE}) && DistinctBy(fs, RuleIn)
    {
      ServiceShape(st.services[k]);
    }
    ObjectPhaseDistinct(Service, st.services, ServiceCheck(), o.services, {EXTERNAL_SERVICE}, ns);
  }

  lemma {:induction false} IngressesDistinct(st: Store, o: Orders, ns: iset<string>)
    requires Orderly(st, ns) && Visits(o, st)
    ensures var fs := FlatMap(o.ingresses, PerObject(st.ingresses, IngressCheck()));
            DistinctBy(fs, FingerprintOf) && FromKind(fs, Ingress, ROUTE_RULES, ns)
  {
    hide FirstBy, FlatMap, FromKind, IngressFindings, OwnedBy, AllEntries, DistinctBy, Enumerates;
    forall k | k in st.ingresses
      ensures var fs := IngressCheck()(st.ingresses[k]);
              OwnedBy(fs, OwnerOf(Ingress, st.ingresses[k]), ROUTE_RULES) && DistinctBy(fs, RuleIn)
    {
      IngressShape(st.ingresses[k]);
    }
    ObjectPhaseDistinct(Ingress, st.ingresses, IngressCheck(), o.ingresses, ROUTE_RULES, ns);
  }

  lemma {:induction false} RoutesDistinct(st: Store, o: Orders, ns: iset<string>)
    requires Orderly(st, ns) && Visits(o, st)
    ensures var fs := FlatMap(o.routes, PerObject(st.routes, RouteCheck()));
            DistinctBy(fs, FingerprintOf) && FromKind(fs, Route, ROUTE_RULES, ns)
  {
    hide FirstBy, FlatMap, FromKind, RouteFindings, OwnedBy, AllEntries, DistinctBy, Enumerates;
    forall k | k in st.routes
      ensures var fs := RouteCheck()(st.routes[k]);
              OwnedBy(fs, OwnerOf(Route, st.routes[k]), ROUTE_RULES) && DistinctBy(fs, RuleIn)
    {
      RouteShape(st.routes[k]);
    }
    ObjectPhaseDistinct(Route, st.routes, RouteCheck(), o.routes, ROUTE_RULES, ns);
  }

  lemma {:induction false} KindsApart(xs: seq<Finding>, ys: seq<Finding>, kind: Kind, rules: set<RuleId>,
                                      ns: iset<string>)
    requires Apart(ns) && FromKind(ys, kind, rules, ns)
    requires forall x :: x in xs ==> x.id.kind != kind && Placed(x.id.kind, x.id.namespace, ns)
    ensures forall x, y :: x in xs && y in ys ==> FingerprintOf(x) != FingerprintOf(y)
  {
    forall x, y | x in xs && y in ys ensures FingerprintOf(x) != FingerprintOf(y) {
      PlacedInjective(x.id, y.id, ns);
    }
  }

  lemma {:induction false} ExposureDistinct(st: Store, o: Orders, ns: iset<string>)
    requires Orderly(st, ns) && Visits(o, st)
    ensures ExposureReport(st, o) == ExposureEmissions(st, o) && DistinctBy(ExposureEmissions(st, o), FingerprintOf)
  {
    hide FirstBy, FlatMap, DistinctBy, Placed, FingerprintOf, WellKeyed, NamespacesIn, Apart, Visits;
    ServicesDistinct(st, o, ns);
    IngressesDistinct(st, o, ns);
    RoutesDistinct(st, o, ns);
    var xs := FlatMap(o.services, PerObject(st.services, ServiceCheck()));
    var ys := FlatMap(o.ingresses, PerObject(st.ingresses, IngressCheck()));
    var zs := FlatMap(o.routes, PerObject(st.routes, RouteCheck()));
    KindsApart(xs, ys, Ingress, ROUTE_RULES, ns);
    DistinctAppend(xs, ys, FingerprintOf);
    KindsApart(xs + ys, zs, Route, ROUTE_RULES, ns);
    DistinctAppend(xs + ys, zs, FingerprintOf);
    FirstByKeepsDistinct(ExposureEmissions(st, o), FingerprintOf);
  }

  /** Everything but the chain findings, as plain concatenations over the objects. */
  ghost function ObjectReport(st: Store, o: Orders, lib: Library): seq<Finding> {
    RbacReport(st, o) + PodSecurityReport(st, o, lib)
    + FlatMap(o.policies, PerObject(st.networkPolicies, PolicyCheck(lib)))
    + FlatMap(o.constraints, PerObject(st.constraints, ConstraintCheck(lib)))
    + ExposureEmissions(st, o)
    + FlatMap(o.secrets, PerObject(st.secrets, SecretCheck(lib)))
  }

  /** On loaded stores whose namespaces do not collide, first-wins deduplication drops findings only in the
      chain phase. */
  lemma {:induction false} DedupOnlyInChains(st: Store, o: Orders, lib: Library, ns: iset<string>)
    requires Orderly(st, ns) && Visits(o, st)
    ensures FullReport(st, o, lib) == ObjectReport(st, o, lib) + ChainReport(st, o)
  {
    hide FirstBy, FlatMap, WellKeyed, NamespacesIn, Apart, Visits, DistinctBy, FromKind, RbacReport, PodSecurityReport,
         PolicyReport, ConstraintReport, ExposureReport, SecretReport, ChainReport, ExposureEmissions;
    PoliciesDistinct(st, o, lib, ns);
    ConstraintsDistinct(st, o, lib, ns);
    ExposureDistinct(st, o, ns);
    SecretsDistinct(st, o, lib, ns);
  }

  // ----- permuted bindings

  /** Only the flags of a scope matter to the findings. */
  lemma {:induction false} SameFlagsSameFindings(rules: seq<Doc>, owner: Owner, s: BindingScope, t: BindingScope,
                                                 namespaced: bool)
    requires ScopeAtMost(s, t) && ScopeAtMost(t, s)
    ensures RoleFindings(rules, RoleContext(owner, s, namespaced))
            == RoleFindings(rules, RoleContext(owner, t, namespaced))
  {
    hide Reported;
    var fs := RoleFindings(rules, RoleContext(owner, s, namespaced));
    var gs := RoleFindings(rules, RoleContext(owner, t, namespaced));
    assert forall i :: 0 <= i < |fs| ==> fs[i] == gs[i];
  }

  lemma {:induction false} RolePhasesAgree(a: Store, b: Store, k: string)
    requires SameUpToBindingOrder(a, b)
    ensures ClusterRolePhase(a)(k) == ClusterRolePhase(b)(k) && RolePhase(a)(k) == RolePhase(b)(k)
  {
    hide RoleFindings, ClusterRoleScope, RoleScope, ExtractNameFromKey;
    if k in a.clusterRoles {
      ScopesGrow(k, "", a.clusterRoleBindings, b.clusterRoleBindings, a.roleBindings, b.roleBindings);
      ScopesGrow(k, "", b.clusterRoleBindings, a.clusterRoleBindings, b.roleBindings, a.roleBindings);
      SameFlagsSameFindings(a.clusterRoles[k].rules, ClusterRoleOwner(k, a.clusterRoles[k].file),
                            ClusterRoleScope(k, a.clusterRoleBindings, a.roleBindings),
                            ClusterRoleScope(k, b.clusterRoleBindings, b.roleBindings), false);
    }
    if k in a.roles {
      var role, name := a.roles[k], ExtractNameFromKey(k);
      ScopesGrow(name, role.namespace, a.clusterRoleBindings, b.clusterRoleBindings, a.roleBindings, b.roleBindings);
      ScopesGrow(name, role.namespace, b.clusterRoleBindings, a.clusterRoleBindings, b.roleBindings, a.roleBindings);
      SameFlagsSameFindings(role.rules, RoleOwner(k, role), RoleScope(name, role.namespace, a.roleBindings),
                            RoleScope(name, role.namespace, b.roleBindings), true);
    }
  }

  lemma {:induction false} RbacPermuted(a: Store, b: Store, oa: Orders, ob: Orders)
    requires SameUpToBindingOrder(a, b) && Visits(oa, a) && Visits(ob, b)
    ensures multiset(RbacReport(a, oa)) == multiset(RbacReport(b, ob))
  {
    hide FlatMap, ClusterRolePhase, RolePhase;
    EnumerationsAgree(oa.clusterRoles, ob.clusterRoles, a.clusterRoles.Keys);
    EnumerationsAgree(oa.roles, ob.roles, a.roles.Keys);
    FlatMapPermuted(oa.clusterRoles, ob.clusterRoles, ClusterRolePhase(a));
    FlatMapPermuted(oa.roles, ob.roles, RolePhase(a));
    forall k ensures ClusterRolePhase(a)(k) == ClusterRolePhase(b)(k) && RolePhase(a)(k) == RolePhase(b)(k) {
      RolePhasesAgree(a, b, k);
    }
    FlatMapSame(ob.clusterRoles, ClusterRolePhase(a), ClusterRolePhase(b));
    FlatMapSame(ob.roles, RolePhase(a), RolePhase(b));
  }

  lemma {:induction false} PodSecurityPermuted(a: Store, b: Store, oa: Orders, ob: Orders, lib: Library)
    requires SameUpToBindingOrder(a, b) && Visits(oa, a) && Visits(ob, b)
    ensures multiset(PodSecurityReport(a, oa, lib)) == multiset(PodSecurityReport(b, ob, lib))
  {
    hide FlatMap, PodFindings, ControllerFindings;
    EnumerationsAgree(oa.pods, ob.pods, a.pods.Keys);
    EnumerationsAgree(oa.workloads, ob.workloads, a.workloads.Keys);
    FlatMapPermuted(oa.pods, ob.pods, PodPhase(a, lib));
    FlatMapPermuted(oa.workloads, ob.workloads, WorkloadPhase(a, lib));
    FlatMapSame(ob.pods, PodPhase(a, lib), PodPhase(b, lib));
    FlatMapSame(ob.workloads, WorkloadPhase(a, lib), WorkloadPhase(b, lib));
  }

  lemma {:induction false} ObjectsPermuted(m: map<string, ObjectData>, f: ObjectData -> seq<Finding>, xs: seq<string>,
                                           ys: seq<string>)
    requires Enumerates(xs, m.Keys) && Enumerates(ys, m.Keys)
    ensures multiset(FlatMap(xs, PerObject(m, f))) == multiset(FlatMap(ys, PerObject(m, f)))
  {
    EnumerationsAgree(xs, ys, m.Keys);
    FlatMapPermuted(xs, ys, PerObject(m, f));
  }

  lemma {:induction false} ExposurePermuted(a: Store, b: Store, oa: Orders, ob: Orders)
    requires SameUpToBindingOrder(a, b) && Visits(oa, a) && Visits(ob, b)
    ensures multiset(ExposureEmissions(a, oa)) == multiset(ExposureEmissions(b, ob))
  {
    hide FlatMap, PerObject, Enumerates;
    ObjectsPermuted(a.services, ServiceCheck(), oa.services, ob.services);
    ObjectsPermuted(a.ingresses, IngressCheck(), oa.ingresses, ob.ingresses);
    ObjectsPermuted(a.routes, RouteCheck(), oa.routes, ob.routes);
  }

  lemma {:induction false} ObjectReportPermuted(a: Store, b: Store, oa: Orders, ob: Orders, lib: Library)
    requires SameUpToBindingOrder(a, b) && Visits(oa, a) && Visits(ob, b)
    ensures multiset(ObjectReport(a, oa, lib)) == multiset(ObjectReport(b, ob, lib))
  {
    hide FlatMap, PerObject, Enumerates, RbacReport, PodSecurityReport, ExposureEmissions;
    RbacPermuted(a, b, oa, ob);
    PodSecurityPermuted(a, b, oa, ob, lib);
    ExposurePermuted(a, b, oa, ob);
    ObjectsPermuted(a.networkPolicies, PolicyCheck(lib), oa.policies, ob.policies);
    ObjectsPermuted(a.constraints, ConstraintCheck(lib), oa.constraints, ob.constraints);
    ObjectsPermuted(a.secrets, SecretCheck(lib), oa.secrets, ob.secrets);
  }

  /** The phases that sort their keys return the same findings, in the same order, in every run. */
  lemma {:induction false} SortedPhasesFixed(st: Store, o: Orders, p: Orders, lib: Library)
    requires Visits(o, st) && Visits(p, st)
    ensures PodSecurityReport(st, o, lib) == PodSecurityReport(st, p, lib)
    ensures PolicyReport(st, o, lib) == PolicyReport(st, p, lib)
    ensures ConstraintReport(st, o, lib) == ConstraintReport(st, p, lib)
    ensures ExposureReport(st, o) == ExposureReport(st, p)
    ensures SecretReport(st, o, lib) == SecretReport(st, p, lib)
  {
    hide FlatMap, FirstBy, PerObject, PodPhase, WorkloadPhase, Before;
    SortedUnique(o.pods, p.pods);
    SortedUnique(o.workloads, p.workloads);
    SortedUnique(o.policies, p.policies);
    SortedUnique(o.constraints, p.constraints);
    SortedUnique(o.services, p.services);
    SortedUnique(o.ingresses, p.ingresses);
    SortedUnique(o.routes, p.routes);
    SortedUnique(o.secrets, p.secrets);
  }

  // ----- chains

  lemma {:induction false} ReferencesExact(st: Store, o: Orders, ref: SaRef)
    requires Visits(o, st)
    ensures ref in References(st.pods, o.chainPods, st.workloads, o.chainWorkloads) <==>
            || (exists k :: k in st.pods && ref == PodRef(st.pods[k]))
            || (exists k :: k in st.workloads && ref == WorkloadRef(st.workloads[k]))
  {
    hide FlatMap, PodRef, WorkloadRef;
    InFlatMap(o.chainPods, PodRefs(st.pods), ref);
    InFlatMap(o.chainWorkloads, WorkloadRefs(st.workloads), ref);
    assert forall k :: ref in PodRefs(st.pods)(k) <==> k in st.pods && ref == PodRef(st.pods[k]);
    assert forall k :: ref in WorkloadRefs(st.workloads)(k)
                       <==> k in st.workloads && ref == WorkloadRef(st.workloads[k]);
  }

  lemma {:induction false} ReferencesWithin(st: Store, o: Orders, ns: iset<string>)
    requires Visits(o, st) && Orderly(st, ns)
    ensures ChainWithin(References(st.pods, o.chainPods, st.workloads, o.chainWorkloads), st.roleBindings, ns)
  {
    hide FlatMap, References;
    forall ref | ref in References(st.pods, o.chainPods, st.workloads, o.chainWorkloads)
      ensures Placed(ref.kind, ref.namespace, ns)
    {
      ReferencesExact(st, o, ref);
      if k :| k in st.pods && ref == PodRef(st.pods[k]) {
        assert PodIn(ns)(k, st.pods[k]);
      } else {
        var k :| k in st.workloads && ref == WorkloadRef(st.workloads[k]);
        assert WorkloadIn(ns)(k, st.workloads[k]);
      }
    }
  }

  lemma {:induction false} DistinctVerdicts(fs: seq<Finding>)
    requires DistinctBy(fs, FingerprintOf)
    ensures NoDup(Verdicts(fs)) && |Verdicts(fs)| == |fs|
    ensures forall i :: 0 <= i < |fs| ==> Verdicts(fs)[i] == VerdictOf(fs[i])
  {
    VerdictsPointwise(fs);
    forall i, j | 0 <= i < j < |fs| ensures Verdicts(fs)[i] != Verdicts(fs)[j] {
      assert FingerprintOf(fs[i]) != FingerprintOf(fs[j]);
    }
  }

  lemma {:induction false} VerdictsPointwise(fs: seq<Finding>)
    ensures |Verdicts(fs)| == |fs| && forall i :: 0 <= i < |fs| ==> Verdicts(fs)[i] == VerdictOf(fs[i])
  {
    if fs == [] {
    } else {
      VerdictsPointwise(fs[..|fs| - 1]);
    }
  }

  lemma {:induction false} OneVerdict(f: Finding)
    ensures Verdicts([f]) == [VerdictOf(f)] && Verdicts([]) == []
  {
    VerdictsPointwise([f]);
    VerdictsPointwise([]);
  }

  lemma {:induction false} SameMembers<A>(xs: seq<A>, ys: seq<A>)
    requires multiset(xs) == multiset(ys)
    ensures forall x :: x in xs <==> x in ys
  {
    assert forall x :: x in xs <==> x in multiset(xs);
    assert forall x :: x in ys <==> x in multiset(ys);
  }

  /** The chain findings may differ in the file they name, but not in identities or severities. */
  lemma {:induction false} ChainsPermuted(a: Store, b: Store, oa: Orders, ob: Orders, ns: iset<string>)
    requires SameUpToBindingOrder(a, b) && Visits(oa, a) && Visits(ob, b) && Orderly(a, ns)
    ensures multiset(Verdicts(ChainReport(a, oa))) == multiset(Verdicts(ChainReport(b, ob)))
  {
    hide ChainFindings, References, Visits, WellKeyed, NamespacesIn, Apart, MakesAdmin, RefersToClusterRole, FlatMap;
    var ra := References(a.pods, oa.chainPods, a.workloads, oa.chainWorkloads);
    var rb := References(b.pods, ob.chainPods, b.workloads, ob.chainWorkloads);
    SameMembers(a.clusterRoleBindings, b.clusterRoleBindings);
    SameMembers(a.roleBindings, b.roleBindings);
    forall ref ensures ref in ra <==> ref in rb {
      ReferencesExact(a, oa, ref);
      ReferencesExact(b, ob, ref);
    }
    ReferencesWithin(a, oa, ns);
    assert ChainWithin(rb, b.roleBindings, ns);
    forall v ensures v in Verdicts(ChainReport(a, oa)) <==> v in Verdicts(ChainReport(b, ob)) {
      ChainsAreTheJoin(ra, a.clusterRoleBindings, a.roleBindings, v, ns);
      ChainsAreTheJoin(rb, b.clusterRoleBindings, b.roleBindings, v, ns);
      assert IsAdminIdentity(v.id, ra, a.clusterRoleBindings) <==> IsAdminIdentity(v.id, rb, b.clusterRoleBindings);
      assert IsBindingIdentity(v.id, a.roleBindings) <==> IsBindingIdentity(v.id, b.roleBindings);
    }
    ChainsDistinct(ra, a.clusterRoleBindings, a.roleBindings);
    ChainsDistinct(rb, b.clusterRoleBindings, b.roleBindings);
    DistinctVerdicts(ChainReport(a, oa));
    DistinctVerdicts(ChainReport(b, ob));
    NoDupSameElements(Verdicts(ChainReport(a, oa)), Verdicts(ChainReport(b, ob)));
  }

  // ----- the theorem

  lemma {:induction false} OrderlyAgrees(a: Store, b: Store, ns: iset<string>)
    requires SameUpToBindingOrder(a, b) && Orderly(a, ns)
    ensures Orderly(b, ns)
  {
    hide AllEntries, Placed;
    SameMembers(a.roleBindings, b.roleBindings);
  }

  /** Any two runs of Analyze, on stores with equal maps and reordered binding lists, report the same
      multiset of identities and severities, whatever order the maps are visited in. */
  lemma {:induction false} OrderIndependence(a: Store, b: Store, lib: Library, fs: seq<Finding>, gs: seq<Finding>,
                                             ns: iset<string>)
    requires SameUpToBindingOrder(a, b) && Orderly(a, ns)
    requires IsReport(a, lib, fs) && IsReport(b, lib, gs)
    ensures multiset(Verdicts(fs)) == multiset(Verdicts(gs))
  {
    hide FullReport, ObjectReport, ChainReport, WellKeyed, NamespacesIn, Apart, Visits, FlatMap, SameUpToBindingOrder;
    var oa :| Visits(oa, a) && fs == FullReport(a, oa, lib);
    var ob :| Visits(ob, b) && gs == FullReport(b, ob, lib);
    OrderlyAgrees(a, b, ns);
    DedupOnlyInChains(a, oa, lib, ns);
    DedupOnlyInChains(b, ob, lib, ns);
    ObjectReportPermuted(a, b, oa, ob, lib);
    ChainsPermuted(a, b, oa, ob, ns);
    FlatMapAppend(ObjectReport(a, oa, lib), ChainReport(a, oa), VerdictIn);
    FlatMapAppend(ObjectReport(b, ob, lib), ChainReport(b, ob), VerdictIn);
    FlatMapPermuted(ObjectReport(a, oa, lib), ObjectReport(b, ob, lib), VerdictIn);
  }
}
