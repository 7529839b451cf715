/** Scanning more manifests never hides a finding. */
module MonotoneTheorems {
  import opened Sequences
  import opened Values
  import opened Models
  import opened Scopes
  import opened RoleRules
  import opened RoleTheorems
  import opened Chains
  import opened Analyzer
  import opened OrderTheorems

  /** The larger report has a finding with the same identity that is at least as severe. */
  ghost predicate Rises(f: Finding, gs: seq<Finding>) {
    exists g :: g in gs && g.id == f.id && f.severity <= g.severity && g.suppressed == f.suppressed
  }

  ghost predicate Kept(f: Finding, gs: seq<Finding>) {
    HasKey(gs, FingerprintOf, FingerprintOf(f))
  }

  lemma {:induction false} RisesIsKept(f: Finding, gs: seq<Finding>)
    requires Rises(f, gs)
    ensures Kept(f, gs)
  {
  }

  lemma {:induction false} RisesWithin(f: Finding, gs: seq<Finding>, hs: seq<Finding>)
    requires forall g :: g in gs ==> g in hs
    ensures Rises(f, gs) ==> Rises(f, hs)
    ensures Kept(f, gs) ==> Kept(f, hs)
  {
  }

  // ----- role rules

  lemma {:induction false} RoleFindingsRise(rules: seq<Doc>, owner: Owner, s: BindingScope, t: BindingScope,
                                            namespaced: bool, f: Finding)
    requires ScopeAtMost(s, t) && f in RoleFindings(rules, RoleContext(owner, s, namespaced))
    ensures Rises(f, RoleFindings(rules, RoleContext(owner, t, namespaced)))
  {
    var fs := RoleFindings(rules, RoleContext(owner, s, namespaced));
    var gs := RoleFindings(rules, RoleContext(owner, t, namespaced));
    RoleFindingsMonotone(rules, owner, s, t, namespaced);
    var i :| 0 <= i < |fs| && fs[i] == f;
    assert gs[i] in gs && gs[i].id == f.id;
  }

  lemma {:induction false} ClusterRoleRises(a: Store, b: Store, k: string, f: Finding)
    requires Extends(a, b) && f in ClusterRolePhase(a)(k)
    ensures Rises(f, ClusterRolePhase(b)(k))
  {
    hide RoleFindings, ClusterRoleScope;
    var cr := a.clusterRoles[k];
    assert b.clusterRoles[k] == cr;
    var s := ClusterRoleScope(k, a.clusterRoleBindings, a.roleBindings);
    var t := ClusterRoleScope(k, b.clusterRoleBindings, b.roleBindings);
    var owner := ClusterRoleOwner(k, cr.file);
    ScopesGrow(k, "", a.clusterRoleBindings, b.clusterRoleBindings, a.roleBindings, b.roleBindings);
    if f in RoleFindings(cr.rules, RoleContext(owner, s, false)) {
      RoleFindingsRise(cr.rules, owner, s, t, false, f);
      RisesWithin(f, RoleFindings(cr.rules, RoleContext(owner, t, false)), ClusterRolePhase(b)(k));
    } else {
      assert f in ClusterRolePhase(b)(k);
    }
  }

  lemma {:induction false} RoleRises(a: Store, b: Store, k: string, f: Finding)
    requires Extends(a, b) && f in RolePhase(a)(k)
    ensures Rises(f, RolePhase(b)(k))
  {
    hide RoleFindings, RoleScope, ExtractNameFromKey;
    var role, name := a.roles[k], ExtractNameFromKey(k);
    assert b.roles[k] == role;
    ScopesGrow(name, role.namespace, a.clusterRoleBindings, b.clusterRoleBindings, a.roleBindings, b.roleBindings);
    RoleFindingsRise(role.rules, RoleOwner(k, role), RoleScope(name, role.namespace, a.roleBindings),
                     RoleScope(name, role.namespace, b.roleBindings), true, f);
  }

  lemma {:induction false} PhaseRises(f: Finding, ys: seq<string>, h: string -> seq<Finding>, k: string)
    requires k in ys && Rises(f, h(k))
    ensures Rises(f, FlatMap(ys, h))
  {
    forall g | g in h(k) ensures g in FlatMap(ys, h) {
      InFlatMap(ys, h, g);
    }
    RisesWithin(f, h(k), FlatMap(ys, h));
  }

  lemma {:induction false} RbacRises(a: Store, b: Store, oa: Orders, ob: Orders, f: Finding)
    requires Extends(a, b) && Visits(oa, a) && Visits(ob, b) && f in RbacReport(a, oa)
    ensures Rises(f, RbacReport(b, ob))
  {
    hide FlatMap, ClusterRoleFindings, NamespacedRoleFindings, Rises;
    var cs, rs := FlatMap(ob.clusterRoles, ClusterRolePhase(b)), FlatMap(ob.roles, RolePhase(b));
    InFlatMap(oa.clusterRoles, ClusterRolePhase(a), f);
    InFlatMap(oa.roles, RolePhase(a), f);
    if k :| k in oa.clusterRoles && f in ClusterRolePhase(a)(k) {
      ClusterRoleRises(a, b, k, f);
      assert k in ob.clusterRoles;
      PhaseRises(f, ob.clusterRoles, ClusterRolePhase(b), k);
      RisesWithin(f, cs, cs + rs);
    } else {
      var k :| k in oa.roles && f in RolePhase(a)(k);
      RoleRises(a, b, k, f);
      assert k in ob.roles;
      PhaseRises(f, ob.roles, RolePhase(b), k);
      RisesWithin(f, rs, cs + rs);
    }
  }

  // ----- per-object phases

  lemma {:induction false} PodSecurityStays(a: Store, b: Store, oa: Orders, ob: Orders, lib: Library, f: Finding)
    requires Extends(a, b) && Visits(oa, a) && Visits(ob, b) && f in PodSecurityReport(a, oa, lib)
    ensures f in PodSecurityReport(b, ob, lib)
  {
    hide FlatMap, PodFindings, ControllerFindings;
    InFlatMap(oa.pods, PodPhase(a, lib), f);
    InFlatMap(oa.workloads, WorkloadPhase(a, lib), f);
    InFlatMap(ob.pods, PodPhase(b, lib), f);
    InFlatMap(ob.workloads, WorkloadPhase(b, lib), f);
    if k :| k in oa.pods && f in PodPhase(a, lib)(k) {
      assert k in ob.pods && f in PodPhase(b, lib)(k);
    } else {
      var k :| k in oa.workloads && f in WorkloadPhase(a, lib)(k);
      assert k in ob.workloads && f in WorkloadPhase(b, lib)(k);
    }
  }

  lemma {:induction false} ObjectStays(m: map<string, ObjectData>, n: map<string, ObjectData>,
                                       h: ObjectData -> seq<Finding>, xs: seq<string>, ys: seq<string>, f: Finding)
    requires Within(m, n) && Enumerates(xs, m.Keys) && Enumerates(ys, n.Keys)
    ensures f in FlatMap(xs, PerObject(m, h)) ==> f in FlatMap(ys, PerObject(n, h))
  {
    hide FlatMap;
    InFlatMap(xs, PerObject(m, h), f);
    InFlatMap(ys, PerObject(n, h), f);
    if k :| k in xs && f in PerObject(m, h)(k) {
      assert k in ys && f in PerObject(n, h)(k);
    }
  }

  lemma {:induction false} ExposureStays(a: Store, b: Store, oa: Orders, ob: Orders, f: Finding)
    requires Extends(a, b) && Visits(oa, a) && Visits(ob, b)
    ensures f in ExposureEmissions(a, oa) ==> f in ExposureEmissions(b, ob)
  {
    hide FlatMap, PerObject, Within, Enumerates;
    ObjectStays(a.services, b.services, ServiceCheck(), oa.services, ob.services, f);
    ObjectStays(a.ingresses, b.ingresses, IngressCheck(), oa.ingresses, ob.ingresses, f);
    ObjectStays(a.routes, b.routes, RouteCheck(), oa.routes, ob.routes, f);
  }

  // ----- chains

  lemma {:induction false} EmissionsStay(a: Store, b: Store, oa: Orders, ob: Orders, f: Finding)
    requires Extends(a, b) && Visits(oa, a) && Visits(ob, b)
    requires f in ChainEmissions(References(a.pods, oa.chainPods, a.workloads, oa.chainWorkloads),
                                 a.clusterRoleBindings, a.roleBindings)
    ensures f in ChainEmissions(References(b.pods, ob.chainPods, b.workloads, ob.chainWorkloads),
                                b.clusterRoleBindings, b.roleBindings)
  {
    hide ChainEmissions, References, Visits, MakesAdmin, RefersToClusterRole, AdminFinding, BindingFinding;
    var ra := References(a.pods, oa.chainPods, a.workloads, oa.chainWorkloads);
    var rb := References(b.pods, ob.chainPods, b.workloads, ob.chainWorkloads);
    assert forall x :: x in a.clusterRoleBindings ==> x in multiset(b.clusterRoleBindings);
    assert forall x :: x in a.roleBindings ==> x in multiset(b.roleBindings);
    forall ref | ref in ra ensures ref in rb {
      ReferencesExact(a, oa, ref);
      ReferencesExact(b, ob, ref);
    }
    EmissionsExact(ra, a.clusterRoleBindings, a.roleBindings, f);
    EmissionsExact(rb, b.clusterRoleBindings, b.roleBindings, f);
  }

  lemma {:induction false} ChainRises(a: Store, b: Store, oa: Orders, ob: Orders, f: Finding, ns: iset<string>)
    requires Extends(a, b) && Visits(oa, a) && Visits(ob, b) && f in ChainReport(a, oa)
    ensures exists g :: g in ChainReport(b, ob) && FingerprintOf(g) == FingerprintOf(f) && g.severity == f.severity
    ensures Orderly(b, ns) ==> Rises(f, ChainReport(b, ob))
  {
    hide FirstBy, ChainEmissions, References, Visits, Extends, WellKeyed, NamespacesIn, Apart, ChainWithin;
    var ra := References(a.pods, oa.chainPods, a.workloads, oa.chainWorkloads);
    var rb := References(b.pods, ob.chainPods, b.workloads, ob.chainWorkloads);
    var ea := ChainEmissions(ra, a.clusterRoleBindings, a.roleBindings);
    var eb := ChainEmissions(rb, b.clusterRoleBindings, b.roleBindings);
    FirstByMember(ea, FingerprintOf);
    FirstByMember(eb, FingerprintOf);
    EmissionsStay(a, b, oa, ob, f);
    FirstByKeys(eb, FingerprintOf, FingerprintOf(f));
    var g :| g in FirstBy(eb, FingerprintOf) && FingerprintOf(g) == FingerprintOf(f);
    FingerprintRule(g.id, f.id);
    EmissionShape(rb, b.clusterRoleBindings, b.roleBindings, f, ns);
    EmissionShape(rb, b.clusterRoleBindings, b.roleBindings, g, ns);
    if Orderly(b, ns) {
      ReferencesWithin(b, ob, ns);
      PlacedInjective(f.id, g.id, ns);
      assert g in ChainReport(b, ob) && g.id == f.id;
    }
  }

  // ----- the theorems

  lemma {:induction false} FirstByStays(xs: seq<Finding>, ys: seq<Finding>, f: Finding)
    requires forall x :: x in xs ==> x in ys
    ensures f in FirstBy(xs, FingerprintOf) ==> Kept(f, FirstBy(ys, FingerprintOf))
  {
    hide FirstBy;
    FirstByMember(xs, FingerprintOf);
    FirstByKeys(ys, FingerprintOf, FingerprintOf(f));
  }

  /** Every fingerprint of the smaller scan is in the larger one, on all stores whatsoever. */
  lemma {:induction false} NothingHidden(a: Store, b: Store, lib: Library, fs: seq<Finding>, gs: seq<Finding>,
                                         f: Finding)
    requires Extends(a, b) && IsReport(a, lib, fs) && IsReport(b, lib, gs) && f in fs
    ensures HasKey(gs, FingerprintOf, FingerprintOf(f))
  {
    hide Extends, Visits, Within, Enumerates, RbacReport, PodSecurityReport, ExposureEmissions, ChainReport, FirstBy,
         FlatMap, Rises, Kept, PerObject;
    var oa :| Visits(oa, a) && fs == FullReport(a, oa, lib);
    var ob :| Visits(ob, b) && gs == FullReport(b, ob, lib);
    PartKept(a, b, lib, oa, ob, f);
  }

  lemma {:induction false} PartKept(a: Store, b: Store, lib: Library, oa: Orders, ob: Orders, f: Finding)
    requires Extends(a, b) && Visits(oa, a) && Visits(ob, b) && f in FullReport(a, oa, lib)
    ensures HasKey(FullReport(b, ob, lib), FingerprintOf, FingerprintOf(f))
  {
    hide Within, Enumerates, RbacReport, PodSecurityReport, ExposureEmissions, ChainReport, FirstBy, FlatMap, Rises,
         PerObject, FingerprintOf;
    var gs := FullReport(b, ob, lib);
    if f in RbacReport(a, oa) {
      RbacRises(a, b, oa, ob, f);
      RisesIsKept(f, RbacReport(b, ob));
      RisesWithin(f, RbacReport(b, ob), gs);
    } else if f in PodSecurityReport(a, oa, lib) {
      PodSecurityStays(a, b, oa, ob, lib, f);
    } else if f in ChainReport(a, oa) {
      ChainRises(a, b, oa, ob, f, iset{});
    } else {
      DedupedPartKept(a, b, lib, oa, ob, f);
      RisesWithin(f, DedupedPart(b, lib, ob), gs);
    }
  }

  ghost function DedupedPart(st: Store, lib: Library, o: Orders): seq<Finding> {
    PolicyReport(st, o, lib) + ConstraintReport(st, o, lib) + ExposureReport(st, o) + SecretReport(st, o, lib)
  }

  lemma {:induction false} DedupedPartKept(a: Store, b: Store, lib: Library, oa: Orders, ob: Orders, f: Finding)
    requires Extends(a, b) && Visits(oa, a) && Visits(ob, b) && f in DedupedPart(a, lib, oa)
    ensures Kept(f, DedupedPart(b, lib, ob))
  {
    hide Within, Enumerates, ExposureEmissions, FirstBy, FlatMap, PerObject, FingerprintOf, Kept;
    var gs := DedupedPart(b, lib, ob);
    forall x ensures
      && (x in FlatMap(oa.policies, PerObject(a.networkPolicies, PolicyCheck(lib)))
          ==> x in FlatMap(ob.policies, PerObject(b.networkPolicies, PolicyCheck(lib))))
      && (x in FlatMap(oa.constraints, PerObject(a.constraints, ConstraintCheck(lib)))
          ==> x in FlatMap(ob.constraints, PerObject(b.constraints, ConstraintCheck(lib))))
      && (x in FlatMap(oa.secrets, PerObject(a.secrets, SecretCheck(lib)))
          ==> x in FlatMap(ob.secrets, PerObject(b.secrets, SecretCheck(lib))))
      && (x in ExposureEmissions(a, oa) ==> x in ExposureEmissions(b, ob))
    {
      ObjectStays(a.networkPolicies, b.networkPolicies, PolicyCheck(lib), oa.policies, ob.policies, x);
      ObjectStays(a.constraints, b.constraints, ConstraintCheck(lib), oa.constraints, ob.constraints, x);
      ObjectStays(a.secrets, b.secrets, SecretCheck(lib), oa.secrets, ob.secrets, x);
      ExposureStays(a, b, oa, ob, x);
    }
    if f in PolicyReport(a, oa, lib) {
      FirstByStays(FlatMap(oa.policies, PerObject(a.networkPolicies, PolicyCheck(lib))),
                   FlatMap(ob.policies, PerObject(b.networkPolicies, PolicyCheck(lib))), f);
      RisesWithin(f, PolicyReport(b, ob, lib), gs);
    } else if f in ConstraintReport(a, oa, lib) {
      FirstByStays(FlatMap(oa.constraints, PerObject(a.constraints, ConstraintCheck(lib))),
                   FlatMap(ob.constraints, PerObject(b.constraints, ConstraintCheck(lib))), f);
      RisesWithin(f, ConstraintReport(b, ob, lib), gs);
    } else if f in ExposureReport(a, oa) {
      FirstByStays(ExposureEmissions(a, oa), ExposureEmissions(b, ob), f);
      RisesWithin(f, ExposureReport(b, ob), gs);
    } else {
      FirstByStays(FlatMap(oa.secrets, PerObject(a.secrets, SecretCheck(lib))),
                   FlatMap(ob.secrets, PerObject(b.secrets, SecretCheck(lib))), f);
      RisesWithin(f, SecretReport(b, ob, lib), gs);
    }
  }

  /** Where namespaces do not collide, every finding of the smaller scan is in the larger one under the same
      identity and at least as severe. */
  lemma {:induction false} ScanningMoreRaises(a: Store, b: Store, lib: Library, fs: seq<Finding>, gs: seq<Finding>,
                                              f: Finding, ns: iset<string>)
    requires Extends(a, b) && Orderly(b, ns)
    requires IsReport(a, lib, fs) && IsReport(b, lib, gs) && f in fs
    ensures Rises(f, gs)
  {
    hide Extends, Visits, WellKeyed, NamespacesIn, Apart, FullReport, ObjectReport, ChainReport;
    var oa :| Visits(oa, a) && fs == FullReport(a, oa, lib);
    var ob :| Visits(ob, b) && gs == FullReport(b, ob, lib);
    DedupOnlyInChains(b, ob, lib, ns);
    if f in ChainReport(a, oa) {
      ChainRises(a, b, oa, ob, f, ns);
      RisesWithin(f, ChainReport(b, ob), gs);
    } else {
      OutsideChains(a, oa, lib, f);
      ObjectRises(a, b, lib, oa, ob, f);
      RisesWithin(f, ObjectReport(b, ob, lib), gs);
    }
    assert Rises(f, gs);
  }

  lemma {:induction false} OutsideChains(st: Store, o: Orders, lib: Library, f: Finding)
    requires f in FullReport(st, o, lib) && f !in ChainReport(st, o)
    ensures f in ObjectReport(st, o, lib)
  {
    hide FirstBy, FlatMap, RbacReport, PodSecurityReport, ChainReport, ExposureEmissions;
    FirstByMember(FlatMap(o.policies, PerObject(st.networkPolicies, PolicyCheck(lib))), FingerprintOf);
    FirstByMember(FlatMap(o.constraints, PerObject(st.constraints, ConstraintCheck(lib))), FingerprintOf);
    FirstByMember(ExposureEmissions(st, o), FingerprintOf);
    FirstByMember(FlatMap(o.secrets, PerObject(st.secrets, SecretCheck(lib))), FingerprintOf);
  }

  lemma {:induction false} ObjectRises(a: Store, b: Store, lib: Library, oa: Orders, ob: Orders, f: Finding)
    requires Extends(a, b) && Visits(oa, a) && Visits(ob, b) && f in ObjectReport(a, oa, lib)
    ensures Rises(f, ObjectReport(b, ob, lib))
  {
    hide Within, Enumerates, RbacReport, PodSecurityReport, ExposureEmissions, FlatMap, PerObject;
    if f in RbacReport(a, oa) {
      RbacRises(a, b, oa, ob, f);
      RisesWithin(f, RbacReport(b, ob), ObjectReport(b, ob, lib));
    } else {
      if f in PodSecurityReport(a, oa, lib) {
        PodSecurityStays(a, b, oa, ob, lib, f);
      }
      ObjectStays(a.networkPolicies, b.networkPolicies, PolicyCheck(lib), oa.policies, ob.policies, f);
      ObjectStays(a.constraints, b.constraints, ConstraintCheck(lib), oa.constraints, ob.constraints, f);
      ObjectStays(a.secrets, b.secrets, SecretCheck(lib), oa.secrets, ob.secrets, f);
      ExposureStays(a, b, oa, ob, f);
      assert f in ObjectReport(b, ob, lib);
    }
  }
}
