/** Every finding is about a loaded record and points to the file it came from. */
module ReportFiles {
  import opened Sequences
  import opened Models
  import opened Scopes
  import opened Chains
  import opened NetworkPolicies
  import opened Workloads
  import opened Exposure
  import opened RoleTheorems
  import opened Analyzer
  import opened OrderTheorems
  import opened ReportShape

  /** Some record has the name and namespace of the finding, and its file. */
  ghost predicate FromObject(m: map<string, ObjectData>, f: Finding) {
    exists k :: k in m && f.id.name == m[k].name && f.id.namespace == m[k].namespace && f.file == m[k].file
  }

  ghost predicate FromWorkload(m: map<string, WorkloadData>, f: Finding) {
    exists k :: k in m && f.id.kind == m[k].kind && f.id.name == m[k].name && f.id.namespace == m[k].namespace
                && f.file == m[k].file
  }

  ghost predicate FromRole(m: map<string, RoleData>, f: Finding) {
    exists k :: k in m && f.id.name == ExtractNameFromKey(k) && f.id.namespace == m[k].namespace && f.file == m[k].file
  }

  ghost predicate FromPod(m: map<string, PodData>, f: Finding) {
    exists k :: k in m && f.id.name == m[k].name && f.id.namespace == m[k].namespace && f.file == m[k].file
  }

  ghost predicate FromBinding(bs: seq<BindingData>, f: Finding) {
    exists b :: b in bs && f.id.name == b.name && f.id.namespace == b.namespace && f.file == b.file
  }

  /** A record of the finding's kind is the one the finding is about. */
  ghost predicate IsAboutRecord(st: Store, f: Finding) {
    match f.id.kind
    case ClusterRole =>
      f.id.namespace == "" && f.id.name in st.clusterRoles && f.file == st.clusterRoles[f.id.name].file
    case Role => FromRole(st.roles, f)
    case RoleBinding => FromBinding(st.roleBindings, f)
    case Pod => FromPod(st.pods, f)
    case NetworkPolicy => FromObject(st.networkPolicies, f)
    case SecurityContextConstraints =>
      f.id.namespace == "" && exists k :: k in st.constraints && f.id.name == st.constraints[k].name
                                          && f.file == st.constraints[k].file
    case Service => FromObject(st.services, f)
    case Ingress => FromObject(st.ingresses, f)
    case Route => FromObject(st.routes, f)
    case Secret => FromObject(st.secrets, f)
    case _ => FromWorkload(st.workloads, f)
  }

  ghost predicate AllFromRecords(st: Store, fs: seq<Finding>) {
    forall f :: f in fs ==> IsAboutRecord(st, f) && !f.suppressed
  }

  // ----- phase by phase

  lemma {:induction false} PhaseFromRecords(st: Store, order: seq<string>, g: string -> seq<Finding>)
    requires forall k :: k in order ==> AllFromRecords(st, g(k))
    ensures AllFromRecords(st, FlatMap(order, g)) && AllFromRecords(st, FirstBy(FlatMap(order, g), FingerprintOf))
  {
    hide FlatMap, FirstBy, IsAboutRecord;
    forall f | f in FlatMap(order, g) ensures IsAboutRecord(st, f) && !f.suppressed {
      InFlatMap(order, g, f);
      var k :| k in order && f in g(k);
      assert AllFromRecords(st, g(k));
    }
    FirstByMember(FlatMap(order, g), FingerprintOf);
  }

  lemma {:induction false} OwnedFromRecords(st: Store, fs: seq<Finding>, owner: Owner, rules: set<RuleId>)
    requires OwnedBy(fs, owner, rules)
    requires forall f: Finding :: f.id == RoleIdentity(f.id.rule, owner) && f.file == owner.file
                                  ==> IsAboutRecord(st, f)
    ensures AllFromRecords(st, fs)
  {
    hide IsAboutRecord;
  }

  lemma {:induction false} RbacFromRecords(st: Store, o: Orders)
    requires Visits(o, st)
    ensures AllFromRecords(st, RbacReport(st, o))
  {
    hide AllFromRecords, FlatMap, FirstBy, ClusterRoleFindings, NamespacedRoleFindings, OwnedBy;
    forall k | k in o.clusterRoles ensures AllFromRecords(st, ClusterRolePhase(st)(k)) {
      ClusterRoleShape(k, st.clusterRoles[k], st.clusterRoleBindings, st.roleBindings);
      OwnedFromRecords(st, ClusterRolePhase(st)(k), ClusterRoleOwner(k, st.clusterRoles[k].file), ROLE_RULES);
    }
    forall k | k in o.roles ensures AllFromRecords(st, RolePhase(st)(k)) {
      RoleShape(k, st.roles[k], st.roleBindings);
      OwnedFromRecords(st, RolePhase(st)(k), RoleOwner(k, st.roles[k]), ROLE_RULES);
    }
    PhaseFromRecords(st, o.clusterRoles, ClusterRolePhase(st));
    PhaseFromRecords(st, o.roles, RolePhase(st));
    JoinedFromRecords(st, FlatMap(o.clusterRoles, ClusterRolePhase(st)), FlatMap(o.roles, RolePhase(st)));
  }

  lemma {:induction false} JoinedFromRecords(st: Store, xs: seq<Finding>, ys: seq<Finding>)
    requires AllFromRecords(st, xs) && AllFromRecords(st, ys)
    ensures AllFromRecords(st, xs + ys)
  {
    hide IsAboutRecord;
  }

  lemma {:induction false} PodRecord(st: Store, k: string, lib: Library)
    requires k in st.pods
    ensures AllFromRecords(st, PodPhase(st, lib)(k))
  {
    hide AllFromRecords, WorkloadFindings, OwnedBy, DistinctBy;
    var pod := st.pods[k];
    var owner := Owner(Pod, pod.name, pod.namespace, pod.file);
    WorkloadShape(pod.doc, owner, lib.upper);
    OwnedFromRecords(st, PodPhase(st, lib)(k), owner, POD_RULES);
  }

  lemma {:induction false} WorkloadRecord(st: Store, k: string, lib: Library)
    requires k in st.workloads && WorkloadKeyed(k, st.workloads[k])
    ensures AllFromRecords(st, WorkloadPhase(st, lib)(k))
  {
    hide AllFromRecords, WorkloadFindings, OwnedBy, DistinctBy;
    var w := st.workloads[k];
    var owner := Owner(w.kind, w.name, w.namespace, w.file);
    WorkloadShape(w.doc, owner, lib.upper);
    OwnedFromRecords(st, WorkloadPhase(st, lib)(k), owner, POD_RULES);
  }

  lemma {:induction false} PodFromRecords(st: Store, o: Orders, lib: Library)
    requires Visits(o, st) && WellKeyed(st)
    ensures AllFromRecords(st, PodSecurityReport(st, o, lib))
  {
    hide AllFromRecords, FlatMap, FirstBy, PodPhase, WorkloadPhase;
    forall k | k in o.pods ensures AllFromRecords(st, PodPhase(st, lib)(k)) {
      PodRecord(st, k, lib);
    }
    forall k | k in o.workloads ensures AllFromRecords(st, WorkloadPhase(st, lib)(k)) {
      WorkloadRecord(st, k, lib);
    }
    PhaseFromRecords(st, o.pods, PodPhase(st, lib));
    PhaseFromRecords(st, o.workloads, WorkloadPhase(st, lib));
    JoinedFromRecords(st, FlatMap(o.pods, PodPhase(st, lib)), FlatMap(o.workloads, WorkloadPhase(st, lib)));
  }

  lemma {:induction false} ObjectsFromRecords(st: Store, o: Orders, lib: Library)
    requires Visits(o, st)
    ensures AllFromRecords(st, PolicyReport(st, o, lib)) && AllFromRecords(st, ConstraintReport(st, o, lib))
    ensures AllFromRecords(st, SecretReport(st, o, lib))
  {
    hide AllFromRecords, FlatMap, FirstBy, PolicyFindings, ConstraintFindings, SecretFindings, OwnedBy, DistinctBy;
    forall k | k in o.policies ensures AllFromRecords(st, PerObject(st.networkPolicies, PolicyCheck(lib))(k)) {
      var x := st.networkPolicies[k];
      PolicyShape(x, lib.parse);
      OwnedFromRecords(st, PolicyFindings(x, lib.parse), OwnerOf(NetworkPolicy, x), POLICY_RULES);
    }
    forall k | k in o.constraints ensures AllFromRecords(st, PerObject(st.constraints, ConstraintCheck(lib))(k)) {
      var x := st.constraints[k];
      ConstraintShape(x, lib);
      OwnedFromRecords(st, ConstraintFindings(x, lib), ConstraintOwner(x), {PERMISSIVE_SCC});
    }
    forall k | k in o.secrets ensures AllFromRecords(st, PerObject(st.secrets, SecretCheck(lib))(k)) {
      var x := st.secrets[k];
      SecretShape(x, lib);
      OwnedFromRecords(st, SecretFindings(x, lib), OwnerOf(Secret, x), SECRET_RULES);
    }
    PhaseFromRecords(st, o.policies, PerObject(st.networkPolicies, PolicyCheck(lib)));
    PhaseFromRecords(st, o.constraints, PerObject(st.constraints, ConstraintCheck(lib)));
    PhaseFromRecords(st, o.secrets, PerObject(st.secrets, SecretCheck(lib)));
  }

  lemma {:induction false} EmissionsFromRecords(st: Store, o: Orders)
    requires Visits(o, st)
    ensures AllFromRecords(st, ExposureEmissions(st, o))
  {
    hide AllFromRecords, FlatMap, FirstBy, ServiceFindings, IngressFindings, RouteFindings, OwnedBy, DistinctBy;
    var services, ingresses := PerObject(st.services, ServiceCheck()), PerObject(st.ingresses, IngressCheck());
    var routes := PerObject(st.routes, RouteCheck());
    forall k | k in o.services ensures AllFromRecords(st, services(k)) {
      ServiceShape(st.services[k]);
      OwnedFromRecords(st, services(k), OwnerOf(Service, st.services[k]), {EXTERNAL_SERVICE});
    }
    forall k | k in o.ingresses ensures AllFromRecords(st, ingresses(k)) {
      IngressShape(st.ingresses[k]);
      OwnedFromRecords(st, ingresses(k), OwnerOf(Ingress, st.ingresses[k]), ROUTE_RULES);
    }
    forall k | k in o.routes ensures AllFromRecords(st, routes(k)) {
      RouteShape(st.routes[k]);
      OwnedFromRecords(st, routes(k), OwnerOf(Route, st.routes[k]), ROUTE_RULES);
    }
    PhaseFromRecords(st, o.services, services);
    PhaseFromRecords(st, o.ingresses, ingresses);
    PhaseFromRecords(st, o.routes, routes);
    JoinedFromRecords(st, FlatMap(o.services, services), FlatMap(o.ingresses, ingresses));
    JoinedFromRecords(st, FlatMap(o.services, services) + FlatMap(o.ingresses, ingresses), FlatMap(o.routes, routes));
  }

  lemma {:induction false} ChainsFromRecords(st: Store, o: Orders)
    requires Visits(o, st) && WellKeyed(st)
    ensures AllFromRecords(st, ChainReport(st, o))
  {
    hide FirstBy, ChainEmissions, References, MakesAdmin, RefersToClusterRole;
    var refs := References(st.pods, o.chainPods, st.workloads, o.chainWorkloads);
    hide ChainFindings, IsAboutRecord, AdminFinding, BindingFinding;
    forall f | f in ChainReport(st, o) ensures IsAboutRecord(st, f) && !f.suppressed {
      assert f in ChainEmissions(refs, st.clusterRoleBindings, st.roleBindings) by {
        InChains(st, o, f);
      }
      EmissionsExact(refs, st.clusterRoleBindings, st.roleBindings, f);
      if ref, b :| ref in refs && b in st.clusterRoleBindings && MakesAdmin(b, ref) && f == AdminFinding(ref) {
        ReferenceFromRecord(st, o, ref);
      } else {
        var b :| b in st.roleBindings && f == BindingFinding(b);
        BindingFromRecord(st, b);
      }
    }
  }

  lemma {:induction false} InChains(st: Store, o: Orders, f: Finding)
    requires f in ChainReport(st, o)
    ensures f in ChainEmissions(References(st.pods, o.chainPods, st.workloads, o.chainWorkloads),
                                st.clusterRoleBindings, st.roleBindings)
  {
    hide ChainEmissions, References, FirstBy;
    var refs := References(st.pods, o.chainPods, st.workloads, o.chainWorkloads);
    FirstByMember(ChainEmissions(refs, st.clusterRoleBindings, st.roleBindings), FingerprintOf);
  }

  lemma {:induction false} BindingFromRecord(st: Store, b: BindingData)
    requires b in st.roleBindings
    ensures IsAboutRecord(st, BindingFinding(b)) && !BindingFinding(b).suppressed
  {
  }

  lemma {:induction false} ReferenceFromRecord(st: Store, o: Orders, ref: SaRef)
    requires Visits(o, st) && WellKeyed(st)
    requires ref in References(st.pods, o.chainPods, st.workloads, o.chainWorkloads)
    ensures IsAboutRecord(st, AdminFinding(ref)) && !AdminFinding(ref).suppressed
  {
    hide References, Visits;
    ReferencesExact(st, o, ref);
    if k :| k in st.pods && ref == PodRef(st.pods[k]) {
      assert FromPod(st.pods, AdminFinding(ref));
    } else {
      var k :| k in st.workloads && ref == WorkloadRef(st.workloads[k]);
      assert WorkloadKeyed(k, st.workloads[k]);
      assert FromWorkload(st.workloads, AdminFinding(ref));
    }
  }

  /** Whatever a report names was loaded: each finding has the kind, name, namespace and file of one record,
      and none is suppressed yet. */
  lemma {:induction false} FindingsFromRecords(st: Store, lib: Library, fs: seq<Finding>, f: Finding)
    requires WellKeyed(st) && IsReport(st, lib, fs) && f in fs
    ensures IsAboutRecord(st, f) && !f.suppressed
  {
    hide RbacReport, PodSecurityReport, PolicyReport, ConstraintReport, ExposureEmissions, SecretReport, ChainReport,
         FirstBy, IsAboutRecord, WellKeyed, Visits;
    var o :| Visits(o, st) && fs == FullReport(st, o, lib);
    RbacFromRecords(st, o);
    PodFromRecords(st, o, lib);
    ObjectsFromRecords(st, o, lib);
    EmissionsFromRecords(st, o);
    FirstByMember(ExposureEmissions(st, o), FingerprintOf);
    ChainsFromRecords(st, o);
  }
}
