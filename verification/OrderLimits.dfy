/** Exactly when neither document order nor Go's map order changes the answer. */
module OrderLimits {
  import opened Sequences
  import opened SortedKeys
  import opened Values
  import opened Models
  import opened Chains
  import opened Analyzer
  import opened Loader
  import opened LoaderTheorems
  import opened Suppressions
  import opened OrderTheorems
  import opened EndToEnd
  import opened Limits

  // ----- exactly when document order does not matter

  function RoleRefDoc(): Doc {
    map["kind" := Str("ClusterRole"), "name" := Str("view")]
  }

  function BindingDoc(namespace: string, name: string): Doc {
    map["kind" := Str("RoleBinding"), "roleRef" := Map(RoleRefDoc()),
        "metadata" := Map(map["name" := Str(name), "namespace" := Str(namespace)])]
  }

  function BindingLeaf(namespace: string, name: string): Leaf {
    Leaf(BindingDoc(namespace, name), "bindings.yaml")
  }

  function BindingRecord(namespace: string, name: string): BindingData {
    BindingData(name, namespace, RoleRefDoc(), [], "bindings.yaml")
  }

  lemma {:induction false} BindingReads(namespace: string, name: string)
    requires namespace != ""
    ensures var leaf := BindingLeaf(namespace, name);
            && ReadableKind(leaf.doc) == Some(RoleBinding) && Versioned(RoleBinding, leaf.doc)
            && NamespaceOf(leaf.doc, RoleBinding) == namespace
            && BindingOf(leaf, namespace) == BindingRecord(namespace, name)
  {
    hide RoleRefDoc;
    ParseKindExact("RoleBinding", RoleBinding);
  }

  lemma {:induction false} BindingLoads(st: Store, namespace: string, name: string)
    requires namespace != ""
    ensures Put(st, BindingLeaf(namespace, name))
            == st.(roleBindings := st.roleBindings + [BindingRecord(namespace, name)])
  {
    hide BindingDoc, BindingRecord, ReadableKind, Versioned, NameOf, NamespaceOf, BindingOf;
    BindingReads(namespace, name);
  }

  lemma {:induction false} BindingsLoad(namespace: string, name: string, namespace': string, name': string)
    requires namespace != "" && namespace' != ""
    ensures Loaded([BindingLeaf(namespace, name), BindingLeaf(namespace', name')])
            == EMPTY_STORE.(roleBindings := [BindingRecord(namespace, name), BindingRecord(namespace', name')])
  {
    hide BindingDoc, BindingRecord, Put, PutAll;
    var x, y := BindingLeaf(namespace, name), BindingLeaf(namespace', name');
    var b, c := BindingRecord(namespace, name), BindingRecord(namespace', name');
    var one := EMPTY_STORE.(roleBindings := [b]);
    assert [] + [b] == [b] && [b] + [c] == [b, c] && [x] + [y] == [x, y];
    BindingLoads(EMPTY_STORE, namespace, name);
    BindingLoads(one, namespace', name');
    PutAllOne(EMPTY_STORE, x);
    PutAllOne(one, y);
    PutAllAppend(EMPTY_STORE, [x], [y]);
  }

  function PodOrders(sorted: seq<string>, visited: seq<string>): Orders {
    Orders([], [], sorted, [], [], [], [], [], [], [], visited, [])
  }

  /** The report of a store that holds role bindings only. */
  lemma {:induction false} BindingsOnly(rbs: seq<BindingData>, lib: Library)
    ensures IsReport(EMPTY_STORE.(roleBindings := rbs), lib, FirstBy(FlatMap(rbs, BindingEmission), FingerprintOf))
  {
    hide ClusterRolePhase, RolePhase, PodPhase, WorkloadPhase, PerObject, BindingEmission, RefEmissions;
    var st, o := EMPTY_STORE.(roleBindings := rbs), PodOrders([], []);
    NothingEmitted();
    assert References(st.pods, [], st.workloads, []) == [];
    assert ChainEmissions([], [], rbs) == FlatMap(rbs, BindingEmission);
    assert Visits(o, st);
    assert FullReport(st, o, lib) == FirstBy(FlatMap(rbs, BindingEmission), FingerprintOf);
  }

  lemma {:induction false} FirstBindingWins(b: BindingData, c: BindingData, lib: Library)
    requires RefersToClusterRole(b) && RefersToClusterRole(c)
    requires FingerprintOf(BindingFinding(b)) == FingerprintOf(BindingFinding(c))
    ensures IsReport(EMPTY_STORE.(roleBindings := [b, c]), lib, [BindingFinding(b)])
  {
    hide IsReport, FingerprintOf, RefersToClusterRole, BindingFinding;
    var f, g := BindingFinding(b), BindingFinding(c);
    FlatMapSnoc([], b, BindingEmission);
    FlatMapSnoc([b], c, BindingEmission);
    assert [] + [b] == [b] && [b] + [c] == [b, c];
    FirstBySnoc([], f, FingerprintOf);
    FirstBySnoc([f], g, FingerprintOf);
    assert [] + [f] == [f] && [f] + [g] == [f, g] && f in [f];
    assert FlatMap([b, c], BindingEmission) == [f, g] && FirstBy([f, g], FingerprintOf) == [f];
    BindingsOnly([b, c], lib);
  }

  ghost predicate Reordered(xs: seq<Leaf>, ys: seq<Leaf>, lib: Library, ns: iset<string>, fs: seq<Finding>,
                            gs: seq<Finding>)
  {
    && LeavesWithin(xs, ns) && NoDocOverwrites(Docs(xs)) && multiset(Docs(xs)) == multiset(Docs(ys))
    && RunReports(xs, lib, fs) && RunReports(ys, lib, gs)
  }

  /** Reordered documents, with namespaces of the set, report the same identities and severities. */
  ghost predicate OrderIrrelevant(ns: iset<string>, lib: Library) {
    forall xs, ys, fs, gs :: Reordered(xs, ys, lib, ns, fs, gs) ==> multiset(Verdicts(fs)) == multiset(Verdicts(gs))
  }

  /** Two role bindings with one fingerprint: which of them is reported depends on their order. */
  lemma {:induction false} CollidingBindings(s: string, t: string, ns: iset<string>, lib: Library)
    requires EndsWithBarred(t, s) && s in ns && t in ns && s != "" && t != ""
    ensures !OrderIrrelevant(ns, lib)
  {
    hide IsReport, FingerprintOf, BindingDoc, Loaded;
    var p, q := CollidingSpots(s, t);
    assert SamePrintAs(ROLE_BINDING_CLUSTER_REF, RoleBinding, p, q);
    var b, c := BindingRecord(s, p.name), BindingRecord(t, q.name);
    var x, y := BindingLeaf(s, p.name), BindingLeaf(t, q.name);
    BindingPrints(b, c);
    FirstBindingWins(b, c, lib);
    FirstBindingWins(c, b, lib);
    BindingsLoad(s, p.name, t, q.name);
    BindingsLoad(t, q.name, s, p.name);
    BindingsReordered(s, p.name, t, q.name, ns);
    assert Reordered([x, y], [y, x], lib, ns, [BindingFinding(b)], [BindingFinding(c)]);
    OneVerdict(BindingFinding(b));
    OneVerdict(BindingFinding(c));
    assert VerdictOf(BindingFinding(b)) != VerdictOf(BindingFinding(c));
    assert VerdictOf(BindingFinding(b)) in multiset([VerdictOf(BindingFinding(b))]);
    assert VerdictOf(BindingFinding(b)) !in multiset([VerdictOf(BindingFinding(c))]);
  }

  lemma {:induction false} BindingPrints(b: BindingData, c: BindingData)
    ensures FingerprintOf(BindingFinding(b)) == FingerprintOf(BindingFinding(c)) <==>
            Identity(ROLE_BINDING_CLUSTER_REF, RoleBinding, b.name, b.namespace).Fingerprint()
            == Identity(ROLE_BINDING_CLUSTER_REF, RoleBinding, c.name, c.namespace).Fingerprint()
  {
  }

  lemma {:induction false} BindingsReordered(namespace: string, name: string, namespace': string, name': string,
                                             ns: iset<string>)
    requires namespace in ns && namespace' in ns && namespace != "" && namespace' != ""
    ensures var x, y := BindingLeaf(namespace, name), BindingLeaf(namespace', name');
            && LeavesWithin([x, y], ns) && NoDocOverwrites(Docs([x, y]))
            && multiset(Docs([x, y])) == multiset(Docs([y, x]))
  {
    hide BindingDoc, ReadableKind, Versioned, NameOf, NamespaceOf, BindingOf;
    var x, y := BindingLeaf(namespace, name), BindingLeaf(namespace', name');
    BindingReads(namespace, name);
    BindingReads(namespace', name');
    assert Docs([x, y]) == [DocOf(x), DocOf(y)] && Docs([y, x]) == [DocOf(y), DocOf(x)];
    assert [DocOf(x), DocOf(y)] == [DocOf(x)] + [DocOf(y)] && [DocOf(y), DocOf(x)] == [DocOf(y)] + [DocOf(x)];
  }

  /** The order of documents does not matter exactly when no namespace they may be in ends with '|' and
      another one. */
  lemma {:induction false} DocumentOrderIff(ns: iset<string>, lib: Library)
    ensures OrderIrrelevant(ns, lib) <==> Apart(ns - iset{""})
  {
    hide LeavesWithin, RunReports, Apart, NoDocOverwrites, EndsWithBarred;
    var named := ns - iset{""};
    if Apart(named) {
      forall xs, ys, fs, gs | Reordered(xs, ys, lib, ns, fs, gs)
        ensures multiset(Verdicts(fs)) == multiset(Verdicts(gs))
      {
        NamedNamespaces(xs, ns);
        DocumentOrderEndToEnd(xs, ys, lib, fs, gs, named);
      }
    } else {
      var s, t := NotApart(named);
      CollidingBindings(s, t, ns, lib);
    }
  }

  // ----- exactly when the answer is deterministic

  function PodDoc(p: Spot): Doc {
    map["kind" := Str("Pod"), "apiVersion" := Str("v1"),
        "metadata" := Map(map["name" := Str(p.name), "namespace" := Str(p.namespace)])]
  }

  function PodLeaf(p: Spot): Leaf {
    Leaf(PodDoc(p), "pods.yaml")
  }

  function PodRecord(p: Spot): PodData {
    PodData(p.name, p.namespace, "default", "pods.yaml", PodDoc(p))
  }

  function AccountDoc(namespace: string): Doc {
    map["kind" := Str("ServiceAccount"), "name" := Str("default"), "namespace" := Str(namespace)]
  }

  function AdminDoc(s: string, t: string): Doc {
    map["kind" := Str("ClusterRoleBinding"), "metadata" := Map(map["name" := Str("admins")]),
        "roleRef" := Map(AdminRef()), "subjects" := List([Map(AccountDoc(s)), Map(AccountDoc(t))])]
  }

  function AdminRef(): Doc {
    map["kind" := Str("ClusterRole"), "name" := Str("cluster-admin")]
  }

  function AdminLeaf(s: string, t: string): Leaf {
    Leaf(AdminDoc(s, t), "pods.yaml")
  }

  function AdminBinding(s: string, t: string): BindingData {
    BindingData("admins", "", AdminRef(), [AccountDoc(s), AccountDoc(t)], "pods.yaml")
  }

  function AdminPods(p: Spot, q: Spot): Store {
    EMPTY_STORE.(pods := map[SpotKey(p) := PodRecord(p), SpotKey(q) := PodRecord(q)],
                 clusterRoleBindings := [AdminBinding(p.namespace, q.namespace)])
  }

  function AdminLeaves(p: Spot, q: Spot): seq<Leaf> {
    [PodLeaf(p), PodLeaf(q), AdminLeaf(p.namespace, q.namespace)]
  }

  function PodAdminFinding(p: Spot): Finding {
    AdminFinding(PodRef(PodRecord(p)))
  }

  lemma {:induction false} PodReads(p: Spot)
    requires p.namespace != ""
    ensures var leaf := PodLeaf(p);
            && ReadableKind(leaf.doc) == Some(Pod) && Versioned(Pod, leaf.doc) && NameOf(leaf.doc) == p.name
            && NamespaceOf(leaf.doc, Pod) == p.namespace && PodOf(leaf) == PodRecord(p)
  {
    hide ParseKind;
    ParseKindExact("Pod", Pod);
  }

  lemma {:induction false} PodLoads(st: Store, p: Spot)
    requires p.namespace != ""
    ensures Put(st, PodLeaf(p)) == st.(pods := st.pods[SpotKey(p) := PodRecord(p)])
  {
    hide PodDoc, PodRecord, ReadableKind, Versioned, NameOf, NamespaceOf, PodOf;
    PodReads(p);
  }

  lemma {:induction false} AdminReads(s: string, t: string)
    ensures var leaf := AdminLeaf(s, t);
            && ReadableKind(leaf.doc) == Some(ClusterRoleBinding) && Versioned(ClusterRoleBinding, leaf.doc)
            && BindingOf(leaf, "") == AdminBinding(s, t)
  {
    hide AccountDoc, AdminRef, FlatMap, ParseKind;
    ParseKindExact("ClusterRoleBinding", ClusterRoleBinding);
    TwoMaps(AccountDoc(s), AccountDoc(t));
  }

  lemma {:induction false} TwoMaps(a: Doc, b: Doc)
    ensures FlatMap([Map(a), Map(b)], MapOf) == [a, b]
  {
    FlatMapSnoc([], Map(a), MapOf);
    FlatMapSnoc([Map(a)], Map(b), MapOf);
    assert [] + [Map(a)] == [Map(a)] && [Map(a)] + [Map(b)] == [Map(a), Map(b)];
    assert [a] + [b] == [a, b];
  }

  lemma {:induction false} AdminLoads(st: Store, s: string, t: string)
    ensures Put(st, AdminLeaf(s, t)) == st.(clusterRoleBindings := st.clusterRoleBindings + [AdminBinding(s, t)])
  {
    hide AdminDoc, AdminBinding, ReadableKind, Versioned, NameOf, NamespaceOf, BindingOf;
    AdminReads(s, t);
  }

  lemma {:induction false} AdminPodsLoad(p: Spot, q: Spot)
    requires p.namespace != "" && q.namespace != ""
    ensures Loaded(AdminLeaves(p, q)) == AdminPods(p, q)
  {
    hide PodDoc, PodRecord, AdminDoc, AdminBinding, Put, PutAll;
    var x, y, z := PodLeaf(p), PodLeaf(q), AdminLeaf(p.namespace, q.namespace);
    var one := EMPTY_STORE.(pods := map[SpotKey(p) := PodRecord(p)]);
    var two := EMPTY_STORE.(pods := map[SpotKey(p) := PodRecord(p), SpotKey(q) := PodRecord(q)]);
    PodLoads(EMPTY_STORE, p);
    PodLoads(one, q);
    AdminLoads(two, p.namespace, q.namespace);
    PutAllOne(EMPTY_STORE, x);
    PutAllOne(one, y);
    PutAllOne(two, z);
    PutAllAppend(EMPTY_STORE, [x], [y]);
    PutAllAppend(EMPTY_STORE, [x] + [y], [z]);
    assert [x] + [y] + [z] == AdminLeaves(p, q);
    assert [] + [AdminBinding(p.namespace, q.namespace)] == [AdminBinding(p.namespace, q.namespace)];
  }

  lemma {:induction false} PodIsAdmin(p: Spot, s: string, t: string, lib: Library)
    requires p.namespace in {s, t}
    ensures MakesAdmin(AdminBinding(s, t), PodRef(PodRecord(p)))
    ensures PodFindings(PodRecord(p), lib) == []
  {
    var b := AdminBinding(s, t);
    assert AccountDoc(p.namespace) in b.subjects && IsAccount(AccountDoc(p.namespace), "default", p.namespace);
  }

  lemma {:induction false} TwoInOrder(k: string, k': string) returns (order: seq<string>)
    requires k != k'
    ensures InOrder(order, {k, k'})
  {
    hide Before;
    BeforeTotal(k, k');
    order := if Before(k, k') then [k, k'] else [k', k];
  }

  /** The chain findings of the two pods, the first one visited first. */
  lemma {:induction false} AdminEmitted(p: Spot, q: Spot, b: BindingData)
    requires MakesAdmin(b, PodRef(PodRecord(p))) && MakesAdmin(b, PodRef(PodRecord(q)))
    requires FingerprintOf(PodAdminFinding(p)) == FingerprintOf(PodAdminFinding(q))
    ensures ChainFindings([PodRef(PodRecord(p)), PodRef(PodRecord(q))], [b], []) == [PodAdminFinding(p)]
  {
    hide MakesAdmin, FingerprintOf, AdminFinding, PodRef, PodRecord;
    var r, r' := PodRef(PodRecord(p)), PodRef(PodRecord(q));
    var f, g := PodAdminFinding(p), PodAdminFinding(q);
    OneAdmin(r, b);
    OneAdmin(r', b);
    FlatMapSnoc([], r, RefEmissions([b], []));
    FlatMapSnoc([r], r', RefEmissions([b], []));
    assert [] + [r] == [r] && [r] + [r'] == [r, r'] && [] + [f] == [f] && [f] + [g] == [f, g];
    assert ChainEmissions([r, r'], [b], []) == [f, g];
    FirstBySnoc([], f, FingerprintOf);
    FirstBySnoc([f], g, FingerprintOf);
    assert f in [f];
  }

  lemma {:induction false} OneAdmin(ref: SaRef, b: BindingData)
    requires MakesAdmin(b, ref)
    ensures RefEmissions([b], [])(ref) == [AdminFinding(ref)]
  {
    hide MakesAdmin, AdminFinding;
    FlatMapSnoc([], b, AdminEmissions(ref));
    assert [] + [b] == [b];
  }

  lemma {:induction false} AdminPrints(p: Spot, q: Spot)
    ensures FingerprintOf(PodAdminFinding(p)) == FingerprintOf(PodAdminFinding(q)) <==>
            SamePrintAs(CLUSTER_ADMIN_POD, Pod, p, q)
  {
  }

  lemma {:induction false} AdminVisits(p: Spot, q: Spot, first: Spot, second: Spot, sorted: seq<string>)
    requires SpotKey(p) != SpotKey(q) && InOrder(sorted, {SpotKey(p), SpotKey(q)})
    requires (first == p && second == q) || (first == q && second == p)
    ensures Visits(PodOrders(sorted, [SpotKey(first), SpotKey(second)]), AdminPods(p, q))
  {
    hide PodRecord, AdminBinding, Before;
    assert AdminPods(p, q).pods.Keys == {SpotKey(p), SpotKey(q)};
    assert Enumerates([SpotKey(first), SpotKey(second)], {SpotKey(p), SpotKey(q)});
  }

  lemma {:induction false} AdminRefs(p: Spot, q: Spot, first: Spot, second: Spot)
    requires SpotKey(p) != SpotKey(q)
    requires (first == p && second == q) || (first == q && second == p)
    ensures References(AdminPods(p, q).pods, [SpotKey(first), SpotKey(second)], map[], [])
            == [PodRef(PodRecord(first)), PodRef(PodRecord(second))]
  {
    hide PodRecord, AdminBinding, PodRef;
    var m, a, b := AdminPods(p, q).pods, SpotKey(first), SpotKey(second);
    FlatMapSnoc([], a, PodRefs(m));
    FlatMapSnoc([a], b, PodRefs(m));
    assert [] + [a] == [a] && [a] + [b] == [a, b];
    var r, r' := PodRef(PodRecord(first)), PodRef(PodRecord(second));
    assert [] + [r] == [r] && [r] + [r'] == [r, r'] && [r, r'] + [] == [r, r'];
  }

  /** Pods without a spec have no findings of their own. */
  lemma {:induction false} QuietPods(p: Spot, q: Spot, order: seq<string>, lib: Library)
    ensures FlatMap(order, PodPhase(AdminPods(p, q), lib)) == []
  {
    hide FlatMap;
    forall k | k in order ensures PodPhase(AdminPods(p, q), lib)(k) == [] {
      PodIsAdmin(p, p.namespace, p.namespace, lib);
      PodIsAdmin(q, q.namespace, q.namespace, lib);
    }
    FlatMapEmpty(order, PodPhase(AdminPods(p, q), lib));
  }

  lemma {:induction false} NothingElse(st: Store, lib: Library)
    ensures FlatMap([], ClusterRolePhase(st)) == [] && FlatMap([], RolePhase(st)) == []
    ensures FlatMap([], WorkloadPhase(st, lib)) == []
    ensures FlatMap([], PerObject(st.networkPolicies, PolicyCheck(lib))) == []
    ensures FlatMap([], PerObject(st.constraints, ConstraintCheck(lib))) == []
    ensures FlatMap([], PerObject(st.services, ServiceCheck())) == []
    ensures FlatMap([], PerObject(st.ingresses, IngressCheck())) == []
    ensures FlatMap([], PerObject(st.routes, RouteCheck())) == []
    ensures FlatMap([], PerObject(st.secrets, SecretCheck(lib))) == []
    ensures FirstBy<Finding, string>([], FingerprintOf) == []
  {
  }

  /** The report of the two pods when the first one is visited first. */
  lemma {:induction false} AdminReport(p: Spot, q: Spot, first: Spot, second: Spot, lib: Library)
    requires SpotKey(p) != SpotKey(q) && SamePrint(p, q)
    requires (first == p && second == q) || (first == q && second == p)
    ensures IsReport(AdminPods(p, q), lib, [PodAdminFinding(first)])
  {
    hide PodRecord, AdminBinding, AdminFinding, FullReport, ChainFindings, References, PodPhase;
    var st := AdminPods(p, q);
    var b := AdminBinding(p.namespace, q.namespace);
    PodIsAdmin(p, p.namespace, q.namespace, lib);
    PodIsAdmin(q, p.namespace, q.namespace, lib);
    assert SamePrintAs(CLUSTER_ADMIN_POD, Pod, p, q);
    AdminPrints(p, q);
    AdminPrints(q, p);
    AdminEmitted(first, second, b);
    var sorted := TwoInOrder(SpotKey(p), SpotKey(q));
    AdminVisits(p, q, first, second, sorted);
    AdminRefs(p, q, first, second);
    QuietPods(p, q, sorted, lib);
    PodsOnly(st, sorted, [SpotKey(first), SpotKey(second)], lib);
  }

  /** The report for visiting orders in which only pods occur. */
  lemma {:induction false} PodsOnly(st: Store, sorted: seq<string>, visited: seq<string>, lib: Library)
    ensures FullReport(st, PodOrders(sorted, visited), lib)
            == FlatMap(sorted, PodPhase(st, lib))
               + ChainFindings(References(st.pods, visited, st.workloads, []), st.clusterRoleBindings, st.roleBindings)
  {
    hide FirstBy, FlatMap, ClusterRolePhase, RolePhase, WorkloadPhase, PodPhase, PerObject, ChainFindings, References;
    NothingElse(st, lib);
  }

  ghost predicate SameRun(leaves: seq<Leaf>, lib: Library, ns: iset<string>, fs: seq<Finding>, gs: seq<Finding>) {
    LeavesWithin(leaves, ns) && RunReports(leaves, lib, fs) && RunReports(leaves, lib, gs)
  }

  /** All runs over the same documents, with namespaces of the set, pass or fail together. */
  ghost predicate AnswersAgree(ns: iset<string>, lib: Library) {
    forall leaves, fs, gs, entries, threshold ::
      SameRun(leaves, lib, ns, fs, gs) && GateFails(SuppressAll(fs, entries), threshold)
      ==> GateFails(SuppressAll(gs, entries), threshold)
  }

  /** Which of two pods with one fingerprint is reported depends on the order Go visits them in, and
      only one of them may be suppressed. */
  lemma {:induction false} CollidingPods(s: string, t: string, ns: iset<string>, lib: Library)
    requires EndsWithBarred(t, s) && s in ns && t in ns && s != "" && t != ""
    ensures !AnswersAgree(ns, lib)
  {
    hide IsReport, SamePrint, EndsWithBarred, GateFails, SuppressAll, AdminFinding, Loaded, LeavesWithin;
    var p, q := CollidingSpots(s, t);
    AdminPodsLoad(p, q);
    AdminReport(p, q, p, q, lib);
    AdminReport(p, q, q, p, lib);
    AdminWithin(p, q, ns);
    var f, g := PodAdminFinding(p), PodAdminFinding(q);
    assert SameRun(AdminLeaves(p, q), lib, ns, [g], [f]);
    SuppressedPod(p, q);
  }

  lemma {:induction false} AdminWithin(p: Spot, q: Spot, ns: iset<string>)
    requires p.namespace in ns && q.namespace in ns && p.namespace != "" && q.namespace != ""
    ensures LeavesWithin(AdminLeaves(p, q), ns)
  {
    hide PodDoc, AdminDoc, ReadableKind, Versioned, NameOf, NamespaceOf, PodOf, BindingOf;
    PodReads(p);
    PodReads(q);
    AdminReads(p.namespace, q.namespace);
  }

  lemma {:induction false} SuppressedPod(p: Spot, q: Spot)
    requires p != q && p.namespace != ""
    ensures var entries := [Suppression(RuleText(CLUSTER_ADMIN_POD), p.name, p.namespace)];
            && !GateFails(SuppressAll([PodAdminFinding(p)], entries), CRITICAL)
            && GateFails(SuppressAll([PodAdminFinding(q)], entries), CRITICAL)
  {
    hide PodDoc, RuleText;
    var entries := [Suppression(RuleText(CLUSTER_ADMIN_POD), p.name, p.namespace)];
    var f, g := PodAdminFinding(p), PodAdminFinding(q);
    GateAfterSuppression([f], entries, CRITICAL);
    GateAfterSuppression([g], entries, CRITICAL);
    assert g in [g] && entries[0] in entries;
    assert Suppressions.Matches(f, entries[0]) && !Suppressions.Matches(g, entries[0]);
  }

  /** Whether a run passes is determined by the documents exactly when no namespace they may be in ends
      with '|' and another one. */
  lemma {:induction false} AnswersAgreeIff(ns: iset<string>, lib: Library)
    ensures AnswersAgree(ns, lib) <==> Apart(ns - iset{""})
  {
    hide LeavesWithin, RunReports, Apart, GateFails, SuppressAll, EndsWithBarred;
    var named := ns - iset{""};
    if Apart(named) {
      forall leaves, fs, gs, entries, threshold |
        SameRun(leaves, lib, ns, fs, gs) && GateFails(SuppressAll(fs, entries), threshold)
        ensures GateFails(SuppressAll(gs, entries), threshold)
      {
        NamedNamespaces(leaves, ns);
        GateDeterministic(leaves, lib, fs, gs, entries, threshold, named);
      }
    } else {
      var s, t := NotApart(named);
      CollidingPods(s, t, ns, lib);
    }
  }
}
