/** How often a fingerprint can occur in a report. */
module UniquenessTheorems {
  import opened Sequences
  import opened Values
  import opened Models
  import opened Scopes
  import opened RoleRules
  import opened RoleTheorems
  import opened Documents
  import opened RoleMeaning
  import opened Chains
  import opened Workloads
  import opened Analyzer
  import opened ReportShape
  import opened OrderTheorems
  import opened ReportParts

  // ----- the phases outside role rules

  /** Findings of the given rules, about resources that are not roles. */
  ghost predicate OutsideRoles(fs: seq<Finding>, rules: set<RuleId>, ns: iset<string>) {
    forall f :: f in fs ==> f.id.rule in rules && f.id.kind !in {ClusterRole, Role}
                            && Placed(f.id.kind, f.id.namespace, ns)
  }

  lemma {:induction false} AppendApart(xs: seq<Finding>, ys: seq<Finding>, rx: set<RuleId>, ry: set<RuleId>,
                                       ns: iset<string>)
    requires DistinctBy(xs, FingerprintOf) && OutsideRoles(xs, rx, ns)
    requires DistinctBy(ys, FingerprintOf) && OutsideRoles(ys, ry, ns) && rx !! ry
    ensures DistinctBy(xs + ys, FingerprintOf) && OutsideRoles(xs + ys, rx + ry, ns)
  {
    hide DistinctBy, Placed;
    forall x, y | x in xs && y in ys ensures FingerprintOf(x) != FingerprintOf(y) {
      if FingerprintOf(x) == FingerprintOf(y) {
        FingerprintRule(x.id, y.id);
      }
    }
    DistinctAppend(xs, ys, FingerprintOf);
  }

  function PodOwnerAt(pods: map<string, PodData>): string -> Owner {
    k => if k in pods then Owner(Pod, pods[k].name, pods[k].namespace, pods[k].file) else Owner(Pod, "", "", "")
  }

  lemma {:induction false} PodsDistinct(st: Store, o: Orders, lib: Library, ns: iset<string>)
    requires Orderly(st, ns) && Visits(o, st)
    ensures var fs := FlatMap(o.pods, PodPhase(st, lib));
            DistinctBy(fs, FingerprintOf) && FromKind(fs, Pod, POD_RULES, ns)
  {
    hide FlatMap, WorkloadFindings, OwnedBy, DistinctBy, FromKind;
    var order, f, own := o.pods, PodPhase(st, lib), PodOwnerAt(st.pods);
    forall k | k in order
      ensures OwnedBy(f(k), own(k), POD_RULES) && DistinctBy(f(k), RuleIn) && Placed(own(k).kind, own(k).namespace, ns)
    {
      assert k in st.pods && PodIn(ns)(k, st.pods[k]);
      WorkloadShape(st.pods[k].doc, own(k), lib.upper);
    }
    forall i, j | 0 <= i < j < |order| ensures !SameResource(own(order[i]), own(order[j])) {
      assert order[i] in st.pods && order[j] in st.pods;
      assert PodKeyed(order[i], st.pods[order[i]]) && PodKeyed(order[j], st.pods[order[j]]);
    }
    OwnedDistinct(order, f, own, POD_RULES, ns);
    OwnedFromKind(order, f, own, Pod, POD_RULES, ns);
  }

  function WorkloadOwnerAt(ws: map<string, WorkloadData>): string -> Owner {
    k => if k in ws then Owner(ws[k].kind, ws[k].name, ws[k].namespace, ws[k].file) else Owner(Deployment, "", "", "")
  }

  lemma {:induction false} WorkloadsDistinct(st: Store, o: Orders, lib: Library, ns: iset<string>)
    requires Orderly(st, ns) && Visits(o, st)
    ensures var fs := FlatMap(o.workloads, WorkloadPhase(st, lib));
            && DistinctBy(fs, FingerprintOf) && OutsideRoles(fs, POD_RULES, ns)
            && forall f :: f in fs ==> IsWorkload(f.id.kind)
  {
    hide FlatMap, WorkloadFindings, DistinctBy, Placed, KindText;
    var order, f, own := o.workloads, WorkloadPhase(st, lib), WorkloadOwnerAt(st.workloads);
    forall k | k in order
      ensures OwnedBy(f(k), own(k), POD_RULES) && DistinctBy(f(k), RuleIn) && Placed(own(k).kind, own(k).namespace, ns)
      ensures IsWorkload(own(k).kind)
    {
      assert k in st.workloads && WorkloadIn(ns)(k, st.workloads[k]) && WorkloadKeyed(k, st.workloads[k]);
      WorkloadShape(st.workloads[k].doc, own(k), lib.upper);
    }
    forall i, j | 0 <= i < j < |order| ensures !SameResource(own(order[i]), own(order[j])) {
      assert order[i] in st.workloads && order[j] in st.workloads;
      assert WorkloadKeyed(order[i], st.workloads[order[i]]) && WorkloadKeyed(order[j], st.workloads[order[j]]);
    }
    OwnedDistinct(order, f, own, POD_RULES, ns);
    forall x: Finding | x in FlatMap(order, f)
      ensures x.id.rule in POD_RULES && IsWorkload(x.id.kind) && Placed(x.id.kind, x.id.namespace, ns)
    {
      InFlatMap(order, f, x);
      var k :| k in order && x in f(k);
      assert OwnedBy(f(k), own(k), POD_RULES);
    }
  }

  lemma {:induction false} PodSecurityDistinct(st: Store, o: Orders, lib: Library, ns: iset<string>)
    requires Orderly(st, ns) && Visits(o, st)
    ensures DistinctBy(PodSecurityReport(st, o, lib), FingerprintOf)
            && OutsideRoles(PodSecurityReport(st, o, lib), POD_RULES, ns)
  {
    hide FlatMap, WellKeyed, NamespacesIn, Apart, Visits, DistinctBy, Placed, FingerprintOf;
    PodsDistinct(st, o, lib, ns);
    WorkloadsDistinct(st, o, lib, ns);
    KindsApart(FlatMap(o.workloads, WorkloadPhase(st, lib)), FlatMap(o.pods, PodPhase(st, lib)), Pod, POD_RULES, ns);
    DistinctAppend(FlatMap(o.pods, PodPhase(st, lib)), FlatMap(o.workloads, WorkloadPhase(st, lib)), FingerprintOf);
  }

  lemma {:induction false} ExposureOutside(st: Store, o: Orders, ns: iset<string>)
    requires Orderly(st, ns) && Visits(o, st)
    ensures OutsideRoles(ExposureEmissions(st, o), EXPOSURE_RULES, ns)
  {
    hide FlatMap, WellKeyed, NamespacesIn, Apart, Visits, DistinctBy, Placed;
    ServicesDistinct(st, o, ns);
    IngressesDistinct(st, o, ns);
    RoutesDistinct(st, o, ns);
  }

  lemma {:induction false} ChainsOutside(st: Store, o: Orders, ns: iset<string>)
    requires Orderly(st, ns) && Visits(o, st)
    ensures DistinctBy(ChainReport(st, o), FingerprintOf) && OutsideRoles(ChainReport(st, o), CHAIN_RULES, ns)
  {
    hide FirstBy, FlatMap, ChainEmissions, References, DistinctBy, Placed, MakesAdmin, RefersToClusterRole;
    var refs := References(st.pods, o.chainPods, st.workloads, o.chainWorkloads);
    ChainsDistinct(refs, st.clusterRoleBindings, st.roleBindings);
    ReferencesWithin(st, o, ns);
    FirstByMember(ChainEmissions(refs, st.clusterRoleBindings, st.roleBindings), FingerprintOf);
    forall f | f in ChainReport(st, o)
      ensures f.id.rule in CHAIN_RULES && f.id.kind !in {ClusterRole, Role} && Placed(f.id.kind, f.id.namespace, ns)
    {
      EmissionShape(refs, st.clusterRoleBindings, st.roleBindings, f, ns);
      EmissionsExact(refs, st.clusterRoleBindings, st.roleBindings, f);
      if ref, b :| ref in refs && b in st.clusterRoleBindings && MakesAdmin(b, ref) && f == AdminFinding(ref) {
        ReferencesExact(st, o, ref);
        if k :| k in st.workloads && ref == WorkloadRef(st.workloads[k]) {
          assert WorkloadKeyed(k, st.workloads[k]);
        }
      }
    }
  }

  /** Everything the report says about resources other than roles. */
  ghost function RestReport(st: Store, o: Orders, lib: Library): seq<Finding> {
    PodSecurityReport(st, o, lib)
    + FlatMap(o.policies, PerObject(st.networkPolicies, PolicyCheck(lib)))
    + FlatMap(o.constraints, PerObject(st.constraints, ConstraintCheck(lib)))
    + ExposureEmissions(st, o)
    + FlatMap(o.secrets, PerObject(st.secrets, SecretCheck(lib)))
    + ChainReport(st, o)
  }

  lemma {:induction false} RestDistinct(st: Store, o: Orders, lib: Library, ns: iset<string>)
    requires Orderly(st, ns) && Visits(o, st)
    ensures DistinctBy(RestReport(st, o, lib), FingerprintOf)
    ensures forall f :: f in RestReport(st, o, lib)
                        ==> f.id.kind !in {ClusterRole, Role} && Placed(f.id.kind, f.id.namespace, ns)
  {
    hide FlatMap, WellKeyed, NamespacesIn, Apart, Visits, DistinctBy, Placed, FirstBy, FingerprintOf, PodSecurityReport,
         ExposureEmissions, ChainReport, PerObject;
    PodSecurityDistinct(st, o, lib, ns);
    PoliciesDistinct(st, o, lib, ns);
    ConstraintsDistinct(st, o, lib, ns);
    ExposureDistinct(st, o, ns);
    ExposureOutside(st, o, ns);
    SecretsDistinct(st, o, lib, ns);
    ChainsOutside(st, o, ns);
    var pods := PodSecurityReport(st, o, lib);
    var policies := FlatMap(o.policies, PerObject(st.networkPolicies, PolicyCheck(lib)));
    var constraints := FlatMap(o.constraints, PerObject(st.constraints, ConstraintCheck(lib)));
    var exposure, secrets := ExposureEmissions(st, o), FlatMap(o.secrets, PerObject(st.secrets, SecretCheck(lib)));
    var r1 := POD_RULES + POLICY_RULES;
    var r2 := r1 + {PERMISSIVE_SCC};
    var r3 := r2 + EXPOSURE_RULES;
    AppendApart(pods, policies, POD_RULES, POLICY_RULES, ns);
    AppendApart(pods + policies, constraints, r1, {PERMISSIVE_SCC}, ns);
    AppendApart(pods + policies + constraints, exposure, r2, EXPOSURE_RULES, ns);
    AppendApart(pods + policies + constraints + exposure, secrets, r3, SECRET_RULES, ns);
    AppendApart(pods + policies + constraints + exposure + secrets, ChainReport(st, o), r3 + SECRET_RULES,
                CHAIN_RULES, ns);
  }

  // ----- counting identities

  lemma {:induction false} IdsCount(xs: seq<Finding>, ys: seq<Finding>, id: Identity)
    ensures multiset(Ids(xs + ys))[id] == multiset(Ids(xs))[id] + multiset(Ids(ys))[id]
  {
    FlatMapAppend(xs, ys, IdIn);
  }

  lemma {:induction false} IdsPointwise(fs: seq<Finding>)
    ensures |Ids(fs)| == |fs| && forall i :: 0 <= i < |fs| ==> Ids(fs)[i] == fs[i].id
  {
    if fs == [] {
    } else {
      IdsPointwise(fs[..|fs| - 1]);
    }
  }

  lemma {:induction false} DistinctOnce(fs: seq<Finding>, id: Identity)
    requires DistinctBy(fs, FingerprintOf)
    ensures multiset(Ids(fs))[id] == if id in Ids(fs) then 1 else 0
  {
    IdsPointwise(fs);
    forall i, j | 0 <= i < j < |fs| ensures Ids(fs)[i] != Ids(fs)[j] {
      assert FingerprintOf(fs[i]) != FingerprintOf(fs[j]);
    }
    NoDupCount(Ids(fs), id);
  }

  /** When only one object can have the identity, it is counted there. */
  lemma {:induction false} OwnerCount(o: seq<string>, f: string -> seq<Finding>, id: Identity, k: string)
    requires NoDup(o) && forall x :: x in o && x != k ==> id !in Ids(f(x))
    ensures multiset(Ids(FlatMap(o, f)))[id] == if k in o then multiset(Ids(f(k)))[id] else 0
  {
    if o == [] {
    } else {
      var front, last := o[..|o| - 1], o[|o| - 1];
      assert o == front + [last];
      OwnerCount(front, f, id, k);
      IdsCount(FlatMap(front, f), f(last), id);
      if last != k {
        assert id !in Ids(f(last));
      } else {
        assert k !in front;
      }
    }
  }

  /** How often KC-001 is reported for a role with these rules. */
  ghost function WildcardVariants(rules: seq<Doc>): nat {
    (if SomeLists(rules, "resources", "*") then 1 else 0) + (if SomeLists(rules, "apiGroups", "*") then 1 else 0)
  }

  /** How often an identity can occur among the findings of one role. */
  ghost predicate RoleMultiplicity(count: nat, rule: RuleId, rules: seq<Doc>) {
    if rule == WILDCARD_RESOURCES then count == WildcardVariants(rules) else count <= 1
  }

  lemma {:induction false} ClusterRoleCount(name: string, cr: ClusterRoleData, crbs: seq<BindingData>,
                                            rbs: seq<BindingData>, rule: RuleId)
    ensures var ids := Ids(ClusterRoleFindings(name, cr, crbs, rbs));
            RoleMultiplicity(multiset(ids)[Identity(rule, ClusterRole, name, "")], rule, cr.rules)
  {
    hide RoleFindings, ClusterRoleScope, Says, SomeLists;
    var c := RoleContext(ClusterRoleOwner(name, cr.file), ClusterRoleScope(name, crbs, rbs), false);
    var id := Identity(rule, ClusterRole, name, "");
    var aggregated := if "aggregationRule" in cr.doc then [AggregatedFinding(name, cr.file)] else [];
    RoleCountsMeaning(cr.rules, c, rule);
    IdsCount(aggregated, RoleFindings(cr.rules, c), id);
    IdsPointwise(aggregated);
    if rule == AGGREGATED_CLUSTER_ROLE && id in Ids(RoleFindings(cr.rules, c)) {
      InIds(RoleFindings(cr.rules, c), id);
      var f :| f in RoleFindings(cr.rules, c) && f.id == id;
      RoleFindingShape(cr.rules, c, f);
    }
  }

  lemma {:induction false} RoleKeyFromIdentity(key: string, key': string, role: RoleData, role': RoleData)
    requires RoleKeyed(key, role) && RoleKeyed(key', role') && role.namespace == role'.namespace
    requires ExtractNameFromKey(key) == ExtractNameFromKey(key')
    ensures key == key'
  {
    var n := |Key(role.namespace, "")|;
    assert key == Key(role.namespace, key[n..]) && key' == Key(role.namespace, key'[n..]);
    ExtractedNameInjective(role.namespace, key[n..], key'[n..]);
  }

  lemma {:induction false} ClusterRolesCount(st: Store, o: Orders, id: Identity)
    requires Visits(o, st) && id.kind == ClusterRole
    ensures var count := multiset(Ids(FlatMap(o.clusterRoles, ClusterRolePhase(st))))[id];
            if id.name in st.clusterRoles && id.namespace == ""
            then RoleMultiplicity(count, id.rule, st.clusterRoles[id.name].rules) else count == 0
  {
    hide FlatMap, ClusterRoleFindings, RoleMultiplicity;
    forall k | k in o.clusterRoles && (k != id.name || id.namespace != "") ensures id !in Ids(ClusterRolePhase(st)(k)) {
      var cr := st.clusterRoles[k];
      ClusterRoleShape(k, cr, st.clusterRoleBindings, st.roleBindings);
      InIds(ClusterRolePhase(st)(k), id);
    }
    OwnerCount(o.clusterRoles, ClusterRolePhase(st), id, id.name);
    if id.name in st.clusterRoles {
      ClusterRoleCount(id.name, st.clusterRoles[id.name], st.clusterRoleBindings, st.roleBindings, id.rule);
      if id.namespace == "" {
        assert id == Identity(id.rule, ClusterRole, id.name, "");
      }
    }
  }

  lemma {:induction false} RolesCount(st: Store, o: Orders, k: string, rule: RuleId)
    requires Visits(o, st) && WellKeyed(st) && k in st.roles
    ensures var ids := Ids(FlatMap(o.roles, RolePhase(st)));
            RoleMultiplicity(multiset(ids)[RoleIdentity(rule, RoleOwner(k, st.roles[k]))], rule, st.roles[k].rules)
  {
    hide FlatMap, RoleFindings, RoleScope, ExtractNameFromKey, Says, SomeLists;
    var role := st.roles[k];
    var id := RoleIdentity(rule, RoleOwner(k, role));
    forall x | x in o.roles && x != k ensures id !in Ids(RolePhase(st)(x)) {
      RoleShape(x, st.roles[x], st.roleBindings);
      InIds(RolePhase(st)(x), id);
      if id in Ids(RolePhase(st)(x)) {
        assert RoleKeyed(k, role) && RoleKeyed(x, st.roles[x]);
        RoleKeyFromIdentity(k, x, role, st.roles[x]);
      }
    }
    OwnerCount(o.roles, RolePhase(st), id, k);
    var c := RoleContext(RoleOwner(k, role), RoleScope(ExtractNameFromKey(k), role.namespace, st.roleBindings), true);
    RoleCountsMeaning(role.rules, c, rule);
  }

  // ----- the theorem

  /** Where a finding's identity comes from, and how often it occurs in the report. */
  ghost predicate Multiplicity(st: Store, id: Identity, count: nat) {
    if id.kind == ClusterRole then
      id.name in st.clusterRoles && RoleMultiplicity(count, id.rule, st.clusterRoles[id.name].rules)
    else if id.kind == Role then
      exists k :: k in st.roles && id == RoleIdentity(id.rule, RoleOwner(k, st.roles[k]))
                  && RoleMultiplicity(count, id.rule, st.roles[k].rules)
    else count == 1
  }

  lemma {:induction false} RbacMembers(st: Store, o: Orders, f: Finding, ns: iset<string>)
    requires Visits(o, st) && Orderly(st, ns)
    ensures f in FlatMap(o.clusterRoles, ClusterRolePhase(st)) ==> f.id.kind == ClusterRole && f.id.namespace == ""
    ensures f in FlatMap(o.roles, RolePhase(st)) ==>
              exists k :: k in st.roles && f.id == RoleIdentity(f.id.rule, RoleOwner(k, st.roles[k]))
                          && Placed(f.id.kind, f.id.namespace, ns)
  {
    hide FlatMap, ClusterRoleFindings, NamespacedRoleFindings, ExtractNameFromKey;
    InFlatMap(o.clusterRoles, ClusterRolePhase(st), f);
    InFlatMap(o.roles, RolePhase(st), f);
    if k :| k in o.clusterRoles && f in ClusterRolePhase(st)(k) {
      ClusterRoleShape(k, st.clusterRoles[k], st.clusterRoleBindings, st.roleBindings);
    }
    if k :| k in o.roles && f in RolePhase(st)(k) {
      RoleShape(k, st.roles[k], st.roleBindings);
      assert RoleIn(ns)(k, st.roles[k]);
    }
  }

  lemma {:induction false} IdentityCount(st: Store, o: Orders, lib: Library, f: Finding, ns: iset<string>)
    requires Orderly(st, ns) && Visits(o, st) && f in FullReport(st, o, lib)
    ensures Multiplicity(st, f.id, multiset(Ids(FullReport(st, o, lib)))[f.id]) && Placed(f.id.kind, f.id.namespace, ns)
  {
    hide FlatMap, WellKeyed, NamespacesIn, Apart, Visits, RoleMultiplicity, FullReport, ClusterRolePhase, RolePhase,
         RestReport, DistinctBy;
    var cs, rs := FlatMap(o.clusterRoles, ClusterRolePhase(st)), FlatMap(o.roles, RolePhase(st));
    var rest := RestReport(st, o, lib);
    ReportSplits(st, o, lib, ns);
    RestDistinct(st, o, lib, ns);
    IdsCount(cs, rs, f.id);
    IdsCount(cs + rs, rest, f.id);
    InIds(cs, f.id);
    InIds(rs, f.id);
    InIds(rest, f.id);
    forall g ensures g in cs ==> g.id.kind == ClusterRole && g.id.namespace == "" {
      RbacMembers(st, o, g, ns);
    }
    forall g ensures g in rs ==> g.id.kind == Role && Placed(g.id.kind, g.id.namespace, ns) {
      RbacMembers(st, o, g, ns);
    }
    if f in cs {
      ClusterRolesCount(st, o, f.id);
      InIds(cs, f.id);
    } else if f in rs {
      RbacMembers(st, o, f, ns);
      var k :| k in st.roles && f.id == RoleIdentity(f.id.rule, RoleOwner(k, st.roles[k]));
      RolesCount(st, o, k, f.id.rule);
    } else {
      DistinctOnce(rest, f.id);
    }
  }

  lemma {:induction false} ReportSplits(st: Store, o: Orders, lib: Library, ns: iset<string>)
    requires Orderly(st, ns) && Visits(o, st)
    ensures FullReport(st, o, lib) == FlatMap(o.clusterRoles, ClusterRolePhase(st)) + FlatMap(o.roles, RolePhase(st))
                                      + RestReport(st, o, lib)
  {
    hide FlatMap, WellKeyed, NamespacesIn, Apart, Visits, FullReport, PodSecurityReport, ChainReport, ExposureEmissions,
         PerObject, ClusterRolePhase, RolePhase;
    DedupOnlyInChains(st, o, lib, ns);
  }

  function FingerprintIn(f: Finding): seq<string> {
    [FingerprintOf(f)]
  }

  function Fingerprints(fs: seq<Finding>): seq<string> {
    FlatMap(fs, FingerprintIn)
  }

  lemma {:induction false} FingerprintsCountIds(fs: seq<Finding>, id: Identity, ns: iset<string>)
    requires Apart(ns) && Placed(id.kind, id.namespace, ns)
    requires forall f :: f in fs ==> Placed(f.id.kind, f.id.namespace, ns)
    ensures multiset(Fingerprints(fs))[id.Fingerprint()] == multiset(Ids(fs))[id]
  {
    if fs == [] {
    } else {
      var front, last := fs[..|fs| - 1], fs[|fs| - 1];
      assert fs == front + [last];
      FingerprintsCountIds(front, id, ns);
      PlacedInjective(last.id, id, ns);
    }
  }

  /** A finding's fingerprint occurs once, except that KC-001 on a role occurs once per wildcard variant
      the role has, so at most twice. */
  ghost predicate RightlyCounted(st: Store, fs: seq<Finding>, f: Finding) {
    var count := multiset(Fingerprints(fs))[FingerprintOf(f)];
    if f.id.rule != WILDCARD_RESOURCES || f.id.kind !in {ClusterRole, Role} then count == 1
    else if f.id.kind == ClusterRole then
      f.id.name in st.clusterRoles && count == WildcardVariants(st.clusterRoles[f.id.name].rules)
    else
      exists k :: k in st.roles && f.id == RoleIdentity(f.id.rule, RoleOwner(k, st.roles[k]))
                  && count == WildcardVariants(st.roles[k].rules)
  }

  /** On a store whose namespaces do not collide, every fingerprint of the report is rightly counted. */
  lemma {:induction false} FingerprintMultiplicity(st: Store, lib: Library, fs: seq<Finding>, f: Finding,
                                                   ns: iset<string>)
    requires Orderly(st, ns) && IsReport(st, lib, fs) && f in fs
    ensures RightlyCounted(st, fs, f)
  {
    hide WellKeyed, NamespacesIn, Apart, Visits, FullReport, Placed, FingerprintIn, WildcardVariants;
    var o :| Visits(o, st) && fs == FullReport(st, o, lib);
    forall g | g in fs ensures Placed(g.id.kind, g.id.namespace, ns) {
      IdentityCount(st, o, lib, g, ns);
    }
    IdentityCount(st, o, lib, f, ns);
    FingerprintsCountIds(fs, f.id, ns);
    InIds(fs, f.id);
    assert multiset(Ids(fs))[f.id] >= 1;
  }

  // ----- exactly which chain findings a report holds

  /** Some stored pod or workload controller of the identity runs with the account. */
  ghost predicate RunsAs(st: Store, id: Identity, account: string) {
    || (id.kind == Pod && exists k :: k in st.pods && PodIs(st.pods[k], id, account))
    || (exists k :: k in st.workloads && ControllerIs(st.workloads[k], id, account))
  }

  predicate PodIs(pod: PodData, id: Identity, account: string) {
    pod.name == id.name && pod.namespace == id.namespace && pod.serviceAccount == account
  }

  predicate ControllerIs(w: WorkloadData, id: Identity, account: string) {
    w.kind == id.kind && w.name == id.name && w.namespace == id.namespace && w.serviceAccount == account
  }

  /** The binding makes the account of the namespace cluster-admin. */
  predicate IsAdminBinding(b: BindingData, account: string, namespace: string) {
    && TextAt(b.roleRef, "kind") == "ClusterRole" && TextAt(b.roleRef, "name") == "cluster-admin"
    && exists s :: s in b.subjects && IsSubject(s, account, namespace)
  }

  predicate IsSubject(subject: Doc, account: string, namespace: string) {
    && TextAt(subject, "kind") == "ServiceAccount" && TextAt(subject, "name") == account
    && TextAt(subject, "namespace") == namespace
  }

  predicate ForClusterRole(b: BindingData) {
    TextAt(b.roleRef, "kind") == "ClusterRole"
  }

  /** The identities that are due: KC-013 for the pods and workload controllers whose ServiceAccount is a
      subject of a cluster role binding to cluster-admin, KC-014 for the role bindings that refer to a
      cluster role. */
  ghost predicate DueInStore(st: Store, id: Identity) {
    || (id.rule == 13 && exists account, b :: RunsAs(st, id, account) && b in st.clusterRoleBindings
                                              && IsAdminBinding(b, account, id.namespace))
    || (id.rule == 14 && id.kind == RoleBinding
        && exists b :: b in st.roleBindings && ForClusterRole(b) && b.name == id.name && b.namespace == id.namespace)
  }

  lemma {:induction false} BindingMeaning(b: BindingData, ref: SaRef)
    ensures MakesAdmin(b, ref) <==> IsAdminBinding(b, ref.account, ref.namespace)
    ensures RefersToClusterRole(b) <==> ForClusterRole(b)
  {
    hide TextAt, StringField;
    ReadText(b.roleRef, "kind");
    ReadText(b.roleRef, "name");
    forall s ensures IsAccount(s, ref.account, ref.namespace) <==> IsSubject(s, ref.account, ref.namespace) {
      ReadText(s, "kind");
      ReadText(s, "name");
      ReadText(s, "namespace");
    }
  }

  lemma {:induction false} RunsAsMeaning(st: Store, o: Orders, id: Identity, account: string)
    requires Visits(o, st)
    ensures RunsAs(st, id, account) <==>
            exists ref :: ref in References(st.pods, o.chainPods, st.workloads, o.chainWorkloads)
                          && ref.kind == id.kind && ref.name == id.name && ref.namespace == id.namespace
                          && ref.account == account
  {
    hide References, Visits;
    var refs := References(st.pods, o.chainPods, st.workloads, o.chainWorkloads);
    if id.kind == Pod && exists k :: k in st.pods && PodIs(st.pods[k], id, account) {
      var k :| k in st.pods && PodIs(st.pods[k], id, account);
      ReferencesExact(st, o, PodRef(st.pods[k]));
    }
    if k :| k in st.workloads && ControllerIs(st.workloads[k], id, account) {
      ReferencesExact(st, o, WorkloadRef(st.workloads[k]));
    }
    if ref :| ref in refs && ref.kind == id.kind && ref.name == id.name && ref.namespace == id.namespace
              && ref.account == account {
      ReferencesExact(st, o, ref);
      if k :| k in st.pods && ref == PodRef(st.pods[k]) {
        assert PodIs(st.pods[k], id, account);
      } else {
        var k :| k in st.workloads && ref == WorkloadRef(st.workloads[k]);
        assert ControllerIs(st.workloads[k], id, account);
      }
    }
  }

  lemma {:induction false} AdminDue(st: Store, o: Orders, id: Identity)
    requires Visits(o, st)
    ensures var refs := References(st.pods, o.chainPods, st.workloads, o.chainWorkloads);
            IsAdminIdentity(id, refs, st.clusterRoleBindings) <==>
            id.rule == 13 && exists account, b :: RunsAs(st, id, account) && b in st.clusterRoleBindings
                                                  && IsAdminBinding(b, account, id.namespace)
  {
    hide References, MakesAdmin, IsAdminBinding, RunsAs, Visits;
    var refs := References(st.pods, o.chainPods, st.workloads, o.chainWorkloads);
    if ref, b :| ref in refs && b in st.clusterRoleBindings && MakesAdmin(b, ref) && id == AdminFinding(ref).id {
      RunsAsMeaning(st, o, id, ref.account);
      BindingMeaning(b, ref);
    }
    if account, b :| RunsAs(st, id, account) && b in st.clusterRoleBindings && IsAdminBinding(b, account, id.namespace)
                     && id.rule == 13 {
      RunsAsMeaning(st, o, id, account);
      var ref :| ref in refs && ref.kind == id.kind && ref.name == id.name && ref.namespace == id.namespace
                 && ref.account == account;
      BindingMeaning(b, ref);
      assert id == AdminFinding(ref).id;
    }
  }

  lemma {:induction false} DueInStoreIs(st: Store, o: Orders, id: Identity)
    requires Visits(o, st)
    ensures var refs := References(st.pods, o.chainPods, st.workloads, o.chainWorkloads);
            DueInStore(st, id) <==>
            || ChainDue(Verdict(id, CRITICAL), refs, st.clusterRoleBindings, st.roleBindings)
            || ChainDue(Verdict(id, WARNING), refs, st.clusterRoleBindings, st.roleBindings)
  {
    hide References, MakesAdmin, RefersToClusterRole, RunsAs, Visits, IsAdminBinding, ForClusterRole, IsAdminIdentity;
    AdminDue(st, o, id);
    forall b ensures RefersToClusterRole(b) <==> ForClusterRole(b) {
      BindingMeaning(b, SaRef(Pod, "", "", "", ""));
    }
  }

  lemma {:induction false} IdsInChain(st: Store, o: Orders, lib: Library, id: Identity)
    requires Visits(o, st) && id.rule in CHAIN_RULES
    ensures id in Ids(FullReport(st, o, lib)) <==> id in Ids(ChainReport(st, o))
  {
    hide FlatMap, Visits, ChainReport, FullReport;
    InIds(FullReport(st, o, lib), id);
    InIds(ChainReport(st, o), id);
    forall f: Finding | f.id == id ensures f in FullReport(st, o, lib) <==> f in ChainReport(st, o) {
      PartOfRule(st, o, lib, f);
    }
  }

  lemma {:induction false} VerdictsMember(chain: seq<Finding>, id: Identity, refs: seq<SaRef>, st: Store)
    requires chain == ChainFindings(refs, st.clusterRoleBindings, st.roleBindings)
    ensures id in Ids(chain) <==> Verdict(id, CRITICAL) in Verdicts(chain) || Verdict(id, WARNING) in Verdicts(chain)
  {
    hide FirstBy, ChainEmissions;
    InIds(chain, id);
    InVerdicts(chain, Verdict(id, CRITICAL));
    InVerdicts(chain, Verdict(id, WARNING));
    FirstByMember(ChainEmissions(refs, st.clusterRoleBindings, st.roleBindings), FingerprintOf);
    forall f | f in chain ensures f.severity in {CRITICAL, WARNING} {
      EmissionShape(refs, st.clusterRoleBindings, st.roleBindings, f, iset{});
    }
  }

  /** In a full report, KC-013 and KC-014 stand only for identities that are due, and every identity that
      is due is reported up to its fingerprint; where namespaces do not collide, they stand for exactly
      the identities that are due. */
  lemma {:induction false} ChainIdentitiesExact(st: Store, lib: Library, fs: seq<Finding>, id: Identity,
                                                ns: iset<string>)
    requires IsReport(st, lib, fs) && id.rule in CHAIN_RULES
    ensures id in Ids(fs) ==> DueInStore(st, id)
    ensures DueInStore(st, id) ==> exists other :: other in Ids(fs) && other.Fingerprint() == id.Fingerprint()
    ensures Orderly(st, ns) ==> (id in Ids(fs) <==> DueInStore(st, id))
  {
    hide WellKeyed, NamespacesIn, Apart, Visits, FullReport, ChainFindings, References, ChainDue, DueInStore, FlatMap,
         ChainWithin;
    var o :| Visits(o, st) && fs == FullReport(st, o, lib);
    var refs, chain := References(st.pods, o.chainPods, st.workloads, o.chainWorkloads), ChainReport(st, o);
    DueInStoreIs(st, o, id);
    IdsInChain(st, o, lib, id);
    VerdictsMember(chain, id, refs, st);
    if Orderly(st, ns) {
      ReferencesWithin(st, o, ns);
    }
    ChainsAreTheJoin(refs, st.clusterRoleBindings, st.roleBindings, Verdict(id, CRITICAL), ns);
    ChainsAreTheJoin(refs, st.clusterRoleBindings, st.roleBindings, Verdict(id, WARNING), ns);
    if w :| w in Verdicts(chain) && w.id.Fingerprint() == id.Fingerprint() {
      InVerdicts(chain, w);
      InIds(chain, w.id);
      FingerprintRule(w.id, id);
      IdsInChain(st, o, lib, w.id);
    }
  }

  /** KC-013 is always CRITICAL and KC-014 always WARNING. */
  lemma {:induction false} ChainSeverities(st: Store, lib: Library, fs: seq<Finding>, v: Verdict)
    requires IsReport(st, lib, fs) && v in Verdicts(fs)
    ensures v.id.rule == 13 ==> v.severity == 3
    ensures v.id.rule == 14 ==> v.severity == 1
  {
    hide Visits, FullReport, ChainFindings, References, FlatMap;
    var o :| Visits(o, st) && fs == FullReport(st, o, lib);
    InVerdicts(fs, v);
    var f :| f in fs && VerdictOf(f) == v;
    PartOfRule(st, o, lib, f);
    if f.id.rule in {13, 14} {
      var refs := References(st.pods, o.chainPods, st.workloads, o.chainWorkloads);
      assert f in ChainFindings(refs, st.clusterRoleBindings, st.roleBindings);
      KeptIsEmitted(refs, st.clusterRoleBindings, st.roleBindings);
      EmissionShape(refs, st.clusterRoleBindings, st.roleBindings, f, iset{});
    }
  }
}
