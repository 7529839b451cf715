/** Which phase of the report a finding comes from, and which findings of a phase survive. */
module ReportParts {
  import opened Sequences
  import opened Models
  import opened Chains
  import opened NetworkPolicies
  import opened Workloads
  import opened Exposure
  import opened Analyzer
  import opened SortedKeys
  import opened ReportShape
  import opened OrderTheorems

  // ----- the kinds and rules of a phase

  ghost predicate AllAbout(fs: seq<Finding>, kind: Kind, rules: set<RuleId>) {
    forall f :: f in fs ==> f.id.kind == kind && f.id.rule in rules
  }

  lemma {:induction false} PhaseAbout(order: seq<string>, h: string -> seq<Finding>, kind: Kind, rules: set<RuleId>)
    requires forall k :: k in order ==> AllAbout(h(k), kind, rules)
    ensures AllAbout(FlatMap(order, h), kind, rules)
  {
    hide FlatMap;
    forall f | f in FlatMap(order, h) ensures f.id.kind == kind && f.id.rule in rules {
      InFlatMap(order, h, f);
      var k :| k in order && f in h(k);
      assert AllAbout(h(k), kind, rules);
    }
  }

  lemma {:induction false} RbacAbout(st: Store, o: Orders)
    requires Visits(o, st)
    ensures AllAbout(FlatMap(o.clusterRoles, ClusterRolePhase(st)), ClusterRole, ROLE_RULES)
    ensures AllAbout(FlatMap(o.roles, RolePhase(st)), Role, ROLE_RULES)
  {
    hide FlatMap, ClusterRoleFindings, NamespacedRoleFindings;
    forall k | k in o.clusterRoles ensures AllAbout(ClusterRolePhase(st)(k), ClusterRole, ROLE_RULES) {
      ClusterRoleShape(k, st.clusterRoles[k], st.clusterRoleBindings, st.roleBindings);
    }
    forall k | k in o.roles ensures AllAbout(RolePhase(st)(k), Role, ROLE_RULES) {
      RoleShape(k, st.roles[k], st.roleBindings);
    }
    PhaseAbout(o.clusterRoles, ClusterRolePhase(st), ClusterRole, ROLE_RULES);
    PhaseAbout(o.roles, RolePhase(st), Role, ROLE_RULES);
  }

  /** The findings of a phase over objects that survive its own deduplication. */
  ghost function Kept(order: seq<string>, m: map<string, ObjectData>, h: ObjectData -> seq<Finding>): seq<Finding> {
    FirstBy(FlatMap(order, PerObject(m, h)), FingerprintOf)
  }

  lemma {:induction false} KeptAbout(order: seq<string>, m: map<string, ObjectData>, h: ObjectData -> seq<Finding>,
                                     kind: Kind, rules: set<RuleId>)
    requires forall x :: AllAbout(h(x), kind, rules)
    ensures AllAbout(Kept(order, m, h), kind, rules)
    ensures AllAbout(FlatMap(order, PerObject(m, h)), kind, rules)
  {
    hide FlatMap, FirstBy;
    PhaseAbout(order, PerObject(m, h), kind, rules);
    FirstByMember(FlatMap(order, PerObject(m, h)), FingerprintOf);
  }

  lemma {:induction false} ObjectsAbout(st: Store, o: Orders, lib: Library)
    ensures AllAbout(PolicyReport(st, o, lib), NetworkPolicy, POLICY_RULES)
    ensures AllAbout(ConstraintReport(st, o, lib), SecurityContextConstraints, {PERMISSIVE_SCC})
    ensures AllAbout(SecretReport(st, o, lib), Secret, SECRET_RULES)
  {
    hide FlatMap, FirstBy, PolicyFindings, ConstraintFindings, SecretFindings, DistinctBy;
    forall x: ObjectData
      ensures AllAbout(PolicyCheck(lib)(x), NetworkPolicy, POLICY_RULES)
      ensures AllAbout(ConstraintCheck(lib)(x), SecurityContextConstraints, {PERMISSIVE_SCC})
      ensures AllAbout(SecretCheck(lib)(x), Secret, SECRET_RULES)
    {
      PolicyShape(x, lib.parse);
      ConstraintShape(x, lib);
      SecretShape(x, lib);
    }
    KeptAbout(o.policies, st.networkPolicies, PolicyCheck(lib), NetworkPolicy, POLICY_RULES);
    KeptAbout(o.constraints, st.constraints, ConstraintCheck(lib), SecurityContextConstraints, {PERMISSIVE_SCC});
    KeptAbout(o.secrets, st.secrets, SecretCheck(lib), Secret, SECRET_RULES);
  }

  lemma {:induction false} ExposureAbout(st: Store, o: Orders)
    ensures AllAbout(Kept(o.services, st.services, ServiceCheck()), Service, EXPOSURE_RULES)
    ensures AllAbout(Kept(o.ingresses, st.ingresses, IngressCheck()), Ingress, EXPOSURE_RULES)
    ensures AllAbout(Kept(o.routes, st.routes, RouteCheck()), Route, EXPOSURE_RULES)
    ensures AllAbout(FlatMap(o.services, PerObject(st.services, ServiceCheck())), Service, EXPOSURE_RULES)
    ensures AllAbout(FlatMap(o.ingresses, PerObject(st.ingresses, IngressCheck())), Ingress, EXPOSURE_RULES)
    ensures AllAbout(FlatMap(o.routes, PerObject(st.routes, RouteCheck())), Route, EXPOSURE_RULES)
  {
    hide FlatMap, FirstBy, Kept, ServiceFindings, IngressFindings, RouteFindings, DistinctBy;
    forall x: ObjectData
      ensures AllAbout(ServiceCheck()(x), Service, EXPOSURE_RULES)
      ensures AllAbout(IngressCheck()(x), Ingress, EXPOSURE_RULES)
      ensures AllAbout(RouteCheck()(x), Route, EXPOSURE_RULES)
    {
      ServiceShape(x);
      IngressShape(x);
      RouteShape(x);
    }
    KeptAbout(o.services, st.services, ServiceCheck(), Service, EXPOSURE_RULES);
    KeptAbout(o.ingresses, st.ingresses, IngressCheck(), Ingress, EXPOSURE_RULES);
    KeptAbout(o.routes, st.routes, RouteCheck(), Route, EXPOSURE_RULES);
  }

  lemma {:induction false} KindsDiffer(xs: seq<Finding>, ys: seq<Finding>, kind: Kind, rules: set<RuleId>)
    requires AllAbout(ys, kind, rules) && forall x :: x in xs ==> x.id.kind != kind
    ensures forall x, y :: x in xs && y in ys ==> FingerprintOf(x) != FingerprintOf(y)
  {
    forall x, y | x in xs && y in ys ensures FingerprintOf(x) != FingerprintOf(y) {
      FingerprintInjective(x.id, y.id);
    }
  }

  /** Services, ingresses and routes never share a fingerprint, whatever their namespaces, so each kind
      is deduplicated on its own. */
  lemma {:induction false} ExposureSplits(st: Store, o: Orders)
    ensures ExposureReport(st, o)
            == Kept(o.services, st.services, ServiceCheck()) + Kept(o.ingresses, st.ingresses, IngressCheck())
               + Kept(o.routes, st.routes, RouteCheck())
  {
    hide FlatMap, FirstBy, PerObject, FingerprintOf;
    var xs := FlatMap(o.services, PerObject(st.services, ServiceCheck()));
    var ys := FlatMap(o.ingresses, PerObject(st.ingresses, IngressCheck()));
    var zs := FlatMap(o.routes, PerObject(st.routes, RouteCheck()));
    ExposureAbout(st, o);
    KindsDiffer(xs, ys, Ingress, EXPOSURE_RULES);
    KindsDiffer(xs + ys, zs, Route, EXPOSURE_RULES);
    FirstByApart(xs, ys, FingerprintOf);
    FirstByApart(xs + ys, zs, FingerprintOf);
  }

  lemma {:induction false} PodsAbout(st: Store, o: Orders, lib: Library, f: Finding)
    requires Visits(o, st) && f in PodSecurityReport(st, o, lib)
    ensures f.id.rule in POD_RULES
    ensures WellKeyed(st) ==> f.id.kind == Pod || IsWorkload(f.id.kind)
  {
    hide FlatMap, WorkloadFindings, DistinctBy;
    InFlatMap(o.pods, PodPhase(st, lib), f);
    InFlatMap(o.workloads, WorkloadPhase(st, lib), f);
    if k :| k in o.pods && f in PodPhase(st, lib)(k) {
      var pod := st.pods[k];
      WorkloadShape(pod.doc, Owner(Pod, pod.name, pod.namespace, pod.file), lib.upper);
    } else {
      var k :| k in o.workloads && f in WorkloadPhase(st, lib)(k);
      var w := st.workloads[k];
      assert WellKeyed(st) ==> WorkloadKeyed(k, w);
      WorkloadShape(w.doc, Owner(w.kind, w.name, w.namespace, w.file), lib.upper);
    }
  }

  lemma {:induction false} ChainsAbout(st: Store, o: Orders, f: Finding)
    requires Visits(o, st) && f in ChainReport(st, o)
    ensures f.id.rule in CHAIN_RULES
    ensures WellKeyed(st) ==> f.id.kind in {Pod, RoleBinding} || IsWorkload(f.id.kind)
  {
    hide FirstBy, ChainEmissions, References, MakesAdmin, RefersToClusterRole;
    var refs := References(st.pods, o.chainPods, st.workloads, o.chainWorkloads);
    FirstByMember(ChainEmissions(refs, st.clusterRoleBindings, st.roleBindings), FingerprintOf);
    EmissionsExact(refs, st.clusterRoleBindings, st.roleBindings, f);
    if ref, b :| ref in refs && b in st.clusterRoleBindings && MakesAdmin(b, ref) && f == AdminFinding(ref) {
      ReferencesExact(st, o, ref);
      if k :| k in st.workloads && ref == WorkloadRef(st.workloads[k]) {
        assert WellKeyed(st) ==> WorkloadKeyed(k, st.workloads[k]);
      }
    }
  }

  // ----- the parts

  /** The parts of a report, each after its own deduplication. */
  datatype Parts = Parts(clusterRoles: seq<Finding>, roles: seq<Finding>, pods: seq<Finding>, policies: seq<Finding>,
                         constraints: seq<Finding>, services: seq<Finding>, ingresses: seq<Finding>,
                         routes: seq<Finding>, secrets: seq<Finding>, chains: seq<Finding>)

  ghost function PartsOf(st: Store, o: Orders, lib: Library): Parts {
    Parts(FlatMap(o.clusterRoles, ClusterRolePhase(st)), FlatMap(o.roles, RolePhase(st)), PodSecurityReport(st, o, lib),
          PolicyReport(st, o, lib), ConstraintReport(st, o, lib), Kept(o.services, st.services, ServiceCheck()),
          Kept(o.ingresses, st.ingresses, IngressCheck()), Kept(o.routes, st.routes, RouteCheck()),
          SecretReport(st, o, lib), ChainReport(st, o))
  }

  function Joined(p: Parts): seq<Finding> {
    p.clusterRoles + p.roles + p.pods + p.policies + p.constraints + p.services + p.ingresses + p.routes + p.secrets
    + p.chains
  }

  lemma {:induction false} ReportIsJoined(st: Store, o: Orders, lib: Library)
    ensures FullReport(st, o, lib) == Joined(PartsOf(st, o, lib))
  {
    hide FlatMap, FirstBy, PodSecurityReport, PolicyReport, ConstraintReport, ExposureReport, SecretReport, ChainReport,
         Kept;
    ExposureSplits(st, o);
  }

  lemma {:induction false} InJoined(p: Parts, f: Finding)
    ensures f in Joined(p) <==>
            || f in p.clusterRoles || f in p.roles || f in p.pods || f in p.policies || f in p.constraints
            || f in p.services || f in p.ingresses || f in p.routes || f in p.secrets || f in p.chains
  {
  }

  /** What each part is about. */
  lemma {:induction false} PartsAbout(st: Store, o: Orders, lib: Library, f: Finding)
    requires Visits(o, st)
    ensures var p := PartsOf(st, o, lib);
            && AllAbout(p.clusterRoles, ClusterRole, ROLE_RULES) && AllAbout(p.roles, Role, ROLE_RULES)
            && (f in p.pods ==> f.id.rule in POD_RULES && (WellKeyed(st) ==> f.id.kind == Pod || IsWorkload(f.id.kind)))
            && AllAbout(p.policies, NetworkPolicy, POLICY_RULES)
            && AllAbout(p.constraints, SecurityContextConstraints, {PERMISSIVE_SCC})
            && AllAbout(p.services, Service, EXPOSURE_RULES) && AllAbout(p.ingresses, Ingress, EXPOSURE_RULES)
            && AllAbout(p.routes, Route, EXPOSURE_RULES) && AllAbout(p.secrets, Secret, SECRET_RULES)
            && (f in p.chains ==> f.id.rule in CHAIN_RULES
                                  && (WellKeyed(st) ==> f.id.kind in {Pod, RoleBinding} || IsWorkload(f.id.kind)))
  {
    hide FlatMap, PodSecurityReport, PolicyReport, ConstraintReport, SecretReport, ChainReport, Kept, WellKeyed, Visits,
         AllAbout;
    RbacAbout(st, o);
    ObjectsAbout(st, o, lib);
    ExposureAbout(st, o);
    if f in PodSecurityReport(st, o, lib) {
      PodsAbout(st, o, lib, f);
    }
    if f in ChainReport(st, o) {
      ChainsAbout(st, o, f);
    }
  }

  /** The rule families of pods, policies, constraints, secrets and chains belong to one part each. */
  lemma {:induction false} PartOfRule(st: Store, o: Orders, lib: Library, f: Finding)
    requires Visits(o, st)
    ensures var p := PartsOf(st, o, lib);
            && (f.id.rule in POD_RULES ==> (f in FullReport(st, o, lib) <==> f in p.pods))
            && (f.id.rule in CHAIN_RULES ==> (f in FullReport(st, o, lib) <==> f in p.chains))
            && (f.id.rule in POLICY_RULES ==> (f in FullReport(st, o, lib) <==> f in p.policies))
            && (f.id.rule in SECRET_RULES ==> (f in FullReport(st, o, lib) <==> f in p.secrets))
            && (f.id.rule == PERMISSIVE_SCC ==> (f in FullReport(st, o, lib) <==> f in p.constraints))
  {
    hide PartsOf, Joined, FullReport, WellKeyed, Visits;
    ReportIsJoined(st, o, lib);
    PartsAbout(st, o, lib, f);
    InJoined(PartsOf(st, o, lib), f);
  }

  /** So do the kinds of roles, services, ingresses and routes. */
  lemma {:induction false} PartOfKind(st: Store, o: Orders, lib: Library, f: Finding)
    requires WellKeyed(st) && Visits(o, st)
    ensures var p := PartsOf(st, o, lib);
            && (f.id.kind == ClusterRole ==> (f in FullReport(st, o, lib) <==> f in p.clusterRoles))
            && (f.id.kind == Role ==> (f in FullReport(st, o, lib) <==> f in p.roles))
            && (f.id.kind == Service ==> (f in FullReport(st, o, lib) <==> f in p.services))
            && (f.id.kind == Ingress ==> (f in FullReport(st, o, lib) <==> f in p.ingresses))
            && (f.id.kind == Route ==> (f in FullReport(st, o, lib) <==> f in p.routes))
  {
    hide PartsOf, Joined, FullReport, WellKeyed, Visits;
    ReportIsJoined(st, o, lib);
    PartsAbout(st, o, lib, f);
    InJoined(PartsOf(st, o, lib), f);
  }

  // ----- identities and verdicts of a list

  lemma {:induction false} InIds(fs: seq<Finding>, id: Identity)
    ensures id in Ids(fs) <==> exists f :: f in fs && f.id == id
  {
    InFlatMap(fs, IdIn, id);
    if f :| f in fs && f.id == id {
      assert id in IdIn(f);
    }
  }

  lemma {:induction false} InVerdicts(fs: seq<Finding>, v: Verdict)
    ensures v in Verdicts(fs) <==> exists f :: f in fs && VerdictOf(f) == v
  {
    InFlatMap(fs, VerdictIn, v);
    if f :| f in fs && VerdictOf(f) == v {
      assert v in VerdictIn(f);
    }
  }

  // ----- which findings of a phase survive

  /** No object under an earlier key emits the fingerprint. */
  ghost predicate Unshadowed(m: map<string, ObjectData>, h: ObjectData -> seq<Finding>, k: string,
                              fingerprint: string)
  {
    forall j :: j in m && Before(j, k) ==> !HasKey(h(m[j]), FingerprintOf, fingerprint)
  }

  lemma {:induction false} FlatMapHasKey(order: seq<string>, g: string -> seq<Finding>, fingerprint: string)
    ensures HasKey(FlatMap(order, g), FingerprintOf, fingerprint)
            <==> exists k :: k in order && HasKey(g(k), FingerprintOf, fingerprint)
  {
    hide FlatMap, FingerprintOf;
    if x :| x in FlatMap(order, g) && FingerprintOf(x) == fingerprint {
      InFlatMap(order, g, x);
      var k :| k in order && x in g(k);
      assert HasKey(g(k), FingerprintOf, fingerprint);
    }
    if k :| k in order && HasKey(g(k), FingerprintOf, fingerprint) {
      var x :| x in g(k) && FingerprintOf(x) == fingerprint;
      InFlatMap(order, g, x);
    }
  }

  /** The position at which a finding is kept. */
  ghost predicate KeptAt(order: seq<string>, g: string -> seq<Finding>, i: nat, f: Finding)
    requires i < |order|
  {
    f in g(order[i]) && forall j :: 0 <= j < i ==> !HasKey(g(order[j]), FingerprintOf, FingerprintOf(f))
  }

  lemma {:induction false} KeptByPosition(order: seq<string>, g: string -> seq<Finding>, f: Finding)
    requires forall k :: k in order ==> DistinctBy(g(k), FingerprintOf)
    ensures f in FirstBy(FlatMap(order, g), FingerprintOf) <==> exists i :: 0 <= i < |order| && KeptAt(order, g, i, f)
  {
    if order == [] {
    } else {
      var front, last := order[..|order| - 1], order[|order| - 1];
      assert order == front + [last];
      KeptByPosition(front, g, f);
      hide FirstBy, FlatMap, DistinctBy, HasKey, FingerprintOf;
      FlatMapSnoc(front, last, g);
      FirstByBlock(FlatMap(front, g), g(last), FingerprintOf, f);
      FlatMapHasKey(front, g, FingerprintOf(f));
      assert forall i :: 0 <= i < |front| ==> (KeptAt(order, g, i, f) <==> KeptAt(front, g, i, f));
      assert KeptAt(order, g, |front|, f)
          <==> f in g(last) && forall k :: k in front ==> !HasKey(g(k), FingerprintOf, FingerprintOf(f));
    }
  }

  /** What a phase that visits sorted keys keeps: each finding that no earlier object shadows. */
  lemma {:induction false} KeptExact(order: seq<string>, m: map<string, ObjectData>, h: ObjectData -> seq<Finding>,
                                     f: Finding)
    requires InOrder(order, m.Keys) && forall x :: DistinctBy(h(x), FingerprintOf)
    ensures f in Kept(order, m, h)
            <==> exists k :: k in m && f in h(m[k]) && Unshadowed(m, h, k, FingerprintOf(f))
  {
    hide FirstBy, FlatMap, DistinctBy, HasKey, FingerprintOf, Before;
    var g := PerObject(m, h);
    KeptByPosition(order, g, f);
    forall i | 0 <= i < |order|
      ensures KeptAt(order, g, i, f) <==> f in h(m[order[i]]) && Unshadowed(m, h, order[i], FingerprintOf(f))
    {
      EarlierKeys(order, m.Keys, i);
    }
  }

  /** In a sorted enumeration the positions before a key are the keys before it. */
  lemma {:induction false} EarlierKeys(order: seq<string>, keys: set<string>, i: nat)
    requires InOrder(order, keys) && i < |order|
    ensures order[i] in keys
    ensures forall k :: k in keys && Before(k, order[i]) <==> exists j :: 0 <= j < i && order[j] == k
  {
    hide Before;
    assert order[i] in order;
    forall k ensures k in keys && Before(k, order[i]) <==> exists j :: 0 <= j < i && order[j] == k {
      if k in keys && Before(k, order[i]) {
        var j :| 0 <= j < |order| && order[j] == k;
        BeforeTotal(order[i], k);
      }
    }
  }
}
