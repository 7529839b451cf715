/** Exactly when fingerprints are unique, chains are the join, and deduplication is idle elsewhere. */
module UniqueLimits {
  import opened Sequences
  import opened SortedKeys
  import opened Values
  import opened Models
  import opened PodSpecs
  import opened Chains
  import opened Workloads
  import opened Exposure
  import opened Analyzer
  import opened Loader
  import opened LoaderTheorems
  import opened ReportShape
  import opened OrderTheorems
  import opened ReportParts
  import opened UniquenessTheorems
  import opened ObjectReports
  import opened EndToEnd
  import opened Limits
  import opened GrowthLimits
  import opened OrderLimits

  // ----- two pods that both share the host network

  function HostPodDoc(p: Spot): Doc {
    map["kind" := Str("Pod"), "apiVersion" := Str("v1"), "spec" := Map(map["hostNetwork" := Bool(true)]),
        "metadata" := Map(map["name" := Str(p.name), "namespace" := Str(p.namespace)])]
  }

  function HostPodLeaf(p: Spot): Leaf {
    Leaf(HostPodDoc(p), "pods.yaml")
  }

  function HostPodRecord(p: Spot): PodData {
    PodData(p.name, p.namespace, "default", "pods.yaml", HostPodDoc(p))
  }

  function HostPods(p: Spot, q: Spot): Store {
    EMPTY_STORE.(pods := map[SpotKey(p) := HostPodRecord(p), SpotKey(q) := HostPodRecord(q)])
  }

  function HostPodFinding(p: Spot): Finding {
    NewFinding(HOST_NAMESPACE, HIGH, Owner(Pod, p.name, p.namespace, "pods.yaml"))
  }

  lemma {:induction false} HostPodReads(p: Spot)
    requires p.namespace != ""
    ensures var leaf := HostPodLeaf(p);
            && ReadableKind(leaf.doc) == Some(Pod) && Versioned(Pod, leaf.doc) && NameOf(leaf.doc) == p.name
            && NamespaceOf(leaf.doc, Pod) == p.namespace && PodOf(leaf) == HostPodRecord(p)
  {
    hide ServiceAccountName, KindText;
    ParseKindExact("Pod", Pod);
    PodText();
    HostPodAccount(p);
  }

  lemma {:induction false} PodText()
    ensures KindText(Pod) == "Pod"
  {
  }

  lemma {:induction false} HostPodAccount(p: Spot)
    ensures ServiceAccountName(HostPodDoc(p), Pod) == "default"
  {
    var spec: Doc := map["hostNetwork" := Bool(true)];
    assert PodSpec(HostPodDoc(p), Pod) == Some(spec);
  }

  lemma {:induction false} HostPodLoads(st: Store, p: Spot)
    requires p.namespace != ""
    ensures Put(st, HostPodLeaf(p)) == st.(pods := st.pods[SpotKey(p) := HostPodRecord(p)])
  {
    hide HostPodDoc, HostPodRecord, ReadableKind, Versioned, NameOf, NamespaceOf, PodOf;
    HostPodReads(p);
  }

  lemma {:induction false} HostPodsLoad(p: Spot, q: Spot)
    requires p.namespace != "" && q.namespace != ""
    ensures Loaded([HostPodLeaf(p), HostPodLeaf(q)]) == HostPods(p, q)
  {
    hide HostPodDoc, HostPodRecord, Put, PutAll;
    var x, y := HostPodLeaf(p), HostPodLeaf(q);
    var one := EMPTY_STORE.(pods := map[SpotKey(p) := HostPodRecord(p)]);
    HostPodLoads(EMPTY_STORE, p);
    HostPodLoads(one, q);
    PutAllOne(EMPTY_STORE, x);
    PutAllOne(one, y);
    PutAllAppend(EMPTY_STORE, [x], [y]);
    assert [x] + [y] == [x, y];
  }

  /** What a bare pod spec with the host's network is reported for. */
  lemma {:induction false} HostPodFindings(p: Spot, lib: Library)
    ensures PodFindings(HostPodRecord(p), lib) == [HostPodFinding(p)]
  {
    var spec: Doc := map["hostNetwork" := Bool(true)];
    BareSpec(spec, lib.upper);
    assert PodSpec(HostPodDoc(p), Pod) == Some(spec);
    hide Containers, AnyPrivileged, HostPathSeverity, CapabilitySeverity, FlatMap;
  }

  lemma {:induction false} BareSpec(spec: Doc, upper: Upper)
    requires spec == map["hostNetwork" := Bool(true)]
    ensures HostNamespaces(spec) && !AnyPrivileged(Containers(spec))
    ensures HostPathSeverity(MapItems(Field(spec, "volumes")), FlatMap(Containers(spec), MountsOf)) == INFO
    ensures CapabilitySeverity(FlatMap(Containers(spec), AddedCapabilities), upper) == INFO
  {
    NoContainers(spec);
    FlatMapNone(MountsOf);
    FlatMapNone(AddedCapabilities);
  }

  lemma {:induction false} NoContainers(spec: Doc)
    requires spec == map["hostNetwork" := Bool(true)]
    ensures Containers(spec) == []
  {
    hide FlatMap;
    FlatMapEmptyItems(spec);
  }

  lemma {:induction false} FlatMapEmptyItems(spec: Doc)
    requires spec == map["hostNetwork" := Bool(true)]
    ensures FlatMap(CONTAINER_FIELDS, ItemsUnder(spec)) == []
  {
    FlatMapEmpty(CONTAINER_FIELDS, ItemsUnder(spec));
  }

  /** The report of the two pods, in the order of their keys. */
  lemma {:induction false} HostPodsReport(p: Spot, q: Spot, lib: Library) returns (a: Spot, b: Spot)
    requires SpotKey(p) != SpotKey(q)
    ensures (a == p && b == q) || (a == q && b == p)
    ensures IsReport(HostPods(p, q), lib, [HostPodFinding(a), HostPodFinding(b)])
  {
    hide HostPodRecord, HostPodFinding, FullReport, Before, PodFindings, Enumerates, FlatMap, ChainFindings;
    var st := HostPods(p, q);
    BeforeTotal(SpotKey(p), SpotKey(q));
    if Before(SpotKey(p), SpotKey(q)) {
      a, b := p, q;
    } else {
      a, b := q, p;
    }
    var sorted := [SpotKey(a), SpotKey(b)];
    HostPodsVisits(p, q, a, b);
    HostPodFindings(a, lib);
    HostPodFindings(b, lib);
    var f := PodPhase(st, lib);
    assert f(SpotKey(a)) == [HostPodFinding(a)] && f(SpotKey(b)) == [HostPodFinding(b)];
    TwoPhases(SpotKey(a), SpotKey(b), f, HostPodFinding(a), HostPodFinding(b));
    PodsOnly(st, sorted, sorted, lib);
    NoAdmins(References(st.pods, sorted, st.workloads, []));
    assert [HostPodFinding(a), HostPodFinding(b)] + [] == [HostPodFinding(a), HostPodFinding(b)];
  }

  lemma {:induction false} HostPodsVisits(p: Spot, q: Spot, a: Spot, b: Spot)
    requires SpotKey(p) != SpotKey(q) && Before(SpotKey(a), SpotKey(b))
    requires (a == p && b == q) || (a == q && b == p)
    ensures var sorted := [SpotKey(a), SpotKey(b)]; Visits(PodOrders(sorted, sorted), HostPods(p, q))
  {
    hide HostPodRecord, Before;
    assert HostPods(p, q).pods.Keys == {SpotKey(p), SpotKey(q)};
    assert InOrder([SpotKey(a), SpotKey(b)], {SpotKey(p), SpotKey(q)});
  }

  lemma {:induction false} TwoPhases(k: string, j: string, f: string -> seq<Finding>, x: Finding, y: Finding)
    requires f(k) == [x] && f(j) == [y]
    ensures FlatMap([k, j], f) == [x, y]
  {
    FlatMapSnoc([], k, f);
    FlatMapSnoc([k], j, f);
    assert [] + [k] == [k] && [k] + [j] == [k, j] && [x] + [y] == [x, y];
  }

  /** Without bindings there are no chains. */
  lemma {:induction false} NoAdmins(refs: seq<SaRef>)
    ensures ChainFindings(refs, [], []) == []
  {
    hide FirstBy;
    NothingEmitted();
    forall ref | ref in refs ensures RefEmissions([], [])(ref) == [] {
    }
    FlatMapEmpty(refs, RefEmissions([], []));
    assert ChainEmissions(refs, [], []) == [];
  }

  lemma {:induction false} TwicePrinted(f: Finding, g: Finding)
    requires FingerprintOf(f) == FingerprintOf(g)
    ensures multiset(Fingerprints([f, g]))[FingerprintOf(f)] == 2
  {
    FlatMapSnoc([], f, FingerprintIn);
    FlatMapSnoc([f], g, FingerprintIn);
    assert [] + [f] == [f] && [f] + [g] == [f, g];
    assert Fingerprints([f, g]) == [FingerprintOf(f), FingerprintOf(g)];
  }

  // ----- exactly when fingerprints are unique

  ghost predicate RunHas(leaves: seq<Leaf>, lib: Library, ns: iset<string>, fs: seq<Finding>, f: Finding) {
    LeavesWithin(leaves, ns) && RunReports(leaves, lib, fs) && f in fs
  }

  /** Documents with namespaces of the set give reports in which every fingerprint is rightly counted. */
  ghost predicate CountsRight(ns: iset<string>, lib: Library) {
    forall leaves, fs, f :: RunHas(leaves, lib, ns, fs, f) ==> RightlyCounted(Loaded(leaves), fs, f)
  }

  /** Documents with namespaces of the set give reports in which every fingerprint other than KC-001 on a
      role occurs once. */
  ghost predicate Unique(ns: iset<string>, lib: Library) {
    forall leaves, fs, f :: RunHas(leaves, lib, ns, fs, f)
                            && (f.id.rule != WILDCARD_RESOURCES || f.id.kind !in {ClusterRole, Role})
                            ==> multiset(Fingerprints(fs))[FingerprintOf(f)] == 1
  }

  lemma {:induction false} CollidingHostPods(s: string, t: string, ns: iset<string>, lib: Library)
    requires EndsWithBarred(t, s) && s in ns && t in ns && s != "" && t != ""
    ensures !Unique(ns, lib)
  {
    hide IsReport, SamePrint, EndsWithBarred, Loaded, LeavesWithin, Fingerprints, FingerprintOf;
    var p, q := CollidingSpots(s, t);
    HostPodsLoad(p, q);
    var a, b := HostPodsReport(p, q, lib);
    HostPodsWithin(p, q, ns);
    var f, g := HostPodFinding(a), HostPodFinding(b);
    HostPodPrints(p, q);
    TwicePrinted(f, g);
    assert RunHas([HostPodLeaf(p), HostPodLeaf(q)], lib, ns, [f, g], f);
  }

  lemma {:induction false} HostPodPrints(p: Spot, q: Spot)
    requires SamePrint(p, q)
    ensures FingerprintOf(HostPodFinding(p)) == FingerprintOf(HostPodFinding(q))
  {
    assert SamePrintAs(HOST_NAMESPACE, Pod, p, q);
  }

  lemma {:induction false} HostPodsWithin(p: Spot, q: Spot, ns: iset<string>)
    requires p.namespace in ns && q.namespace in ns && p.namespace != "" && q.namespace != ""
    ensures LeavesWithin([HostPodLeaf(p), HostPodLeaf(q)], ns)
  {
    hide HostPodDoc, ReadableKind, Versioned, NameOf, NamespaceOf, PodOf;
    HostPodReads(p);
    HostPodReads(q);
  }

  /** Fingerprints are unique, and KC-001 on a role is counted by its variants, exactly when no namespace
      the documents may be in ends with '|' and another one. */
  lemma {:induction false} UniqueIff(ns: iset<string>, lib: Library)
    ensures Unique(ns, lib) <==> Apart(ns - iset{""})
    ensures CountsRight(ns, lib) <==> Apart(ns - iset{""})
  {
    hide LeavesWithin, RunReports, Apart, EndsWithBarred, Orderly, WildcardVariants, Fingerprints;
    var named := ns - iset{""};
    if Apart(named) {
      forall leaves, fs, f | RunHas(leaves, lib, ns, fs, f) ensures RightlyCounted(Loaded(leaves), fs, f) {
        NamedNamespaces(leaves, ns);
        LoadedOrderly(leaves, named);
        RunIsReport(leaves, lib, fs);
        FingerprintMultiplicity(Loaded(leaves), lib, fs, f, named);
      }
    } else {
      var s, t := NotApart(named);
      CollidingHostPods(s, t, ns, lib);
    }
  }

  lemma {:induction false} RunIsReport(leaves: seq<Leaf>, lib: Library, fs: seq<Finding>)
    requires RunReports(leaves, lib, fs)
    ensures IsReport(Loaded(leaves), lib, fs)
  {
  }

  // ----- exactly when chains are the join

  ghost predicate RunOver(leaves: seq<Leaf>, lib: Library, ns: iset<string>, fs: seq<Finding>) {
    LeavesWithin(leaves, ns) && RunReports(leaves, lib, fs)
  }

  /** Documents with namespaces of the set give reports in which KC-013 and KC-014 stand for exactly the
      identities that are due. */
  ghost predicate ChainsJoin(ns: iset<string>, lib: Library) {
    forall leaves, fs, id: Identity :: RunOver(leaves, lib, ns, fs) && id.rule in CHAIN_RULES
                             ==> (id in Ids(fs) <==> DueInStore(Loaded(leaves), id))
  }

  lemma {:induction false} HiddenAdmin(s: string, t: string, ns: iset<string>, lib: Library)
    requires EndsWithBarred(t, s) && s in ns && t in ns && s != "" && t != ""
    ensures !ChainsJoin(ns, lib)
  {
    hide IsReport, SamePrint, EndsWithBarred, AdminFinding, Loaded, LeavesWithin, Ids, DueInStore;
    var p, q := CollidingSpots(s, t);
    AdminPodsLoad(p, q);
    AdminReport(p, q, p, q, lib);
    AdminWithin(p, q, ns);
    var f, id := PodAdminFinding(p), Identity(CLUSTER_ADMIN_POD, Pod, q.name, q.namespace);
    assert RunOver(AdminLeaves(p, q), lib, ns, [f]);
    OtherAdminDue(p, q, lib);
    OnlyId(f, id);
    PodAdminId(p);
  }

  lemma {:induction false} PodAdminId(p: Spot)
    ensures PodAdminFinding(p).id == Identity(CLUSTER_ADMIN_POD, Pod, p.name, p.namespace)
  {
  }

  lemma {:induction false} OtherAdminDue(p: Spot, q: Spot, lib: Library)
    ensures DueInStore(AdminPods(p, q), Identity(CLUSTER_ADMIN_POD, Pod, q.name, q.namespace))
  {
    hide MakesAdmin, AdminBinding, IsAdminBinding;
    var st, ref, b := AdminPods(p, q), PodRef(PodRecord(q)), AdminBinding(p.namespace, q.namespace);
    var id := Identity(CLUSTER_ADMIN_POD, Pod, q.name, q.namespace);
    PodIsAdmin(q, p.namespace, q.namespace, lib);
    BindingMeaning(b, ref);
    assert SpotKey(q) in st.pods && PodIs(st.pods[SpotKey(q)], id, "default");
    assert RunsAs(st, id, "default") && b in st.clusterRoleBindings;
  }

  lemma {:induction false} OnlyId(f: Finding, id: Identity)
    ensures id in Ids([f]) <==> id == f.id
  {
    InIds([f], id);
  }

  /** KC-013 and KC-014 are the relational join exactly when no namespace the documents may be in ends with
      '|' and another one. */
  lemma {:induction false} ChainsJoinIff(ns: iset<string>, lib: Library)
    ensures ChainsJoin(ns, lib) <==> Apart(ns - iset{""})
  {
    hide LeavesWithin, RunReports, Apart, EndsWithBarred, Orderly, DueInStore, Ids;
    var named := ns - iset{""};
    if Apart(named) {
      forall leaves, fs, id: Identity | RunOver(leaves, lib, ns, fs) && id.rule in CHAIN_RULES
        ensures id in Ids(fs) <==> DueInStore(Loaded(leaves), id)
      {
        NamedNamespaces(leaves, ns);
        LoadedOrderly(leaves, named);
        RunIsReport(leaves, lib, fs);
        ChainIdentitiesExact(Loaded(leaves), lib, fs, id, named);
      }
    } else {
      var s, t := NotApart(named);
      HiddenAdmin(s, t, ns, lib);
    }
  }

  // ----- exactly when a report names every route for which something is due

  /** Documents with namespaces of the set give reports that say about routes exactly what is due. */
  ghost predicate RoutesPlain(ns: iset<string>, lib: Library) {
    forall leaves, fs, v: Verdict :: RunOver(leaves, lib, ns, fs) && v.id.kind == Route
                                     ==> (v in Verdicts(fs) <==> RouteDueSomewhere(Loaded(leaves), v))
  }

  ghost predicate RouteDueSomewhere(st: Store, v: Verdict) {
    exists k :: DueAt(st.routes, Route, RouteDue, v, k)
  }

  lemma {:induction false} ShadowedIsDue(p: Spot, first: Spot)
    requires SpotKey(first) != SpotKey(p)
    ensures RouteDueSomewhere(BothStored(p, first), VerdictOf(RouteFinding(p.namespace, p.name, true)))
  {
    var st, v := BothStored(p, first), VerdictOf(RouteFinding(p.namespace, p.name, true));
    assert st.routes[SpotKey(p)] == RouteRecord(p.namespace, p.name, true);
    assert DueAt(st.routes, Route, RouteDue, v, SpotKey(p));
  }

  lemma {:induction false} HiddenRoute(s: string, t: string, ns: iset<string>, lib: Library)
    requires EndsWithBarred(t, s) && s in ns && t in ns && s != "" && t != ""
    ensures !RoutesPlain(ns, lib)
  {
    hide RunReports, EndsWithBarred, SameRoutePrint, Before, Loaded, LeavesWithin, Verdicts, RouteDueSomewhere,
         ScansMore;
    var p, first := ShadowingSpots(s, t);
    SpotsScanned(p, first, ns, lib);
    SpotsLoad(p, first);
    ShadowedIsDue(p, first);
    var x, y := RouteLeaf(p.namespace, p.name, true), RouteLeaf(first.namespace, first.name, false);
    var f, g := RouteFinding(p.namespace, p.name, true), RouteFinding(first.namespace, first.name, false);
    assert RunOver([x, y], lib, ns, [g]);
    OneVerdict(g);
    assert VerdictOf(f) !in Verdicts([g]);
  }

  /** The plain form of what a report says about routes holds exactly when no namespace the documents may
      be in ends with '|' and another one. */
  lemma {:induction false} RoutesPlainIff(ns: iset<string>, lib: Library)
    ensures RoutesPlain(ns, lib) <==> Apart(ns - iset{""})
  {
    hide LeavesWithin, RunReports, Apart, EndsWithBarred, WellKeyed, NamespacesIn, Verdicts, DueAt, DueFirst, Loaded;
    var named := ns - iset{""};
    if Apart(named) {
      forall leaves, fs, v: Verdict | RunOver(leaves, lib, ns, fs) && v.id.kind == Route
        ensures v in Verdicts(fs) <==> RouteDueSomewhere(Loaded(leaves), v)
      {
        NamedNamespaces(leaves, ns);
        LoadedOrderly(leaves, named);
        RunIsReport(leaves, lib, fs);
        RouteVerdictsExact(Loaded(leaves), lib, fs, v, named);
      }
    } else {
      var s, t := NotApart(named);
      HiddenRoute(s, t, ns, lib);
    }
  }

  // ----- exactly when deduplication drops findings in the chain phase only

  ghost predicate Visited(st: Store, o: Orders, ns: iset<string>) {
    WellKeyed(st) && NamespacesIn(st, ns) && Visits(o, st)
  }

  ghost predicate DedupIdle(ns: iset<string>, lib: Library) {
    forall st, o :: Visited(st, o, ns) ==> FullReport(st, o, lib) == ObjectReport(st, o, lib) + ChainReport(st, o)
  }

  lemma {:induction false} DedupIdleIff(ns: iset<string>, lib: Library)
    ensures DedupIdle(ns, lib) <==> Apart(ns)
  {
    hide WellKeyed, NamespacesIn, Visits, FullReport, ObjectReport, ChainReport, EndsWithBarred, Shadows;
    if Apart(ns) {
      forall st, o | Visited(st, o, ns)
        ensures FullReport(st, o, lib) == ObjectReport(st, o, lib) + ChainReport(st, o)
      {
        DedupOnlyInChains(st, o, lib, ns);
      }
    } else {
      var s, t := NotApart(ns);
      var p, first := ShadowingSpots(s, t);
      ShadowLowers(p, first, lib);
      SpotsIn(p, first, ns);
      var st := BothStored(p, first);
      var f, g := RouteFinding(p.namespace, p.name, true), RouteFinding(first.namespace, first.name, false);
      var o :| Visits(o, st) && [g] == FullReport(st, o, lib);
      assert Visited(st, o, ns);
      ShadowedEmitted(p, first, o, lib);
      NotRaised(p, first);
    }
  }

  lemma {:induction false} ShadowedEmitted(p: Spot, first: Spot, o: Orders, lib: Library)
    requires Shadows(first, p) && Visits(o, BothStored(p, first))
    ensures RouteFinding(p.namespace, p.name, true) in ObjectReport(BothStored(p, first), o, lib)
  {
    hide FlatMap, RouteFindings, RouteRecord, SameRoutePrint, Before, RbacReport, PodSecurityReport;
    var st, k := BothStored(p, first), SpotKey(p);
    RouteReported(p.namespace, p.name, true);
    InFlatMap(o.routes, PerObject(st.routes, RouteCheck()), RouteFinding(p.namespace, p.name, true));
    assert k in st.routes && st.routes[k] == RouteRecord(p.namespace, p.name, true) && k in o.routes;
    assert RouteFinding(p.namespace, p.name, true) in PerObject(st.routes, RouteCheck())(k);
  }
}
