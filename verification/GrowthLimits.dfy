/** Exactly when scanning more documents only raises severities. */
module GrowthLimits {
  import opened Sequences
  import opened SortedKeys
  import opened Values
  import opened Models
  import opened Chains
  import opened Exposure
  import opened Analyzer
  import opened Loader
  import opened LoaderTheorems
  import opened MonotoneTheorems
  import opened Suppressions
  import opened EndToEnd
  import opened Limits

  // ----- two Route documents

  /** A Route that serves plaintext, which is HIGH, or one without TLS termination, which is WARNING. */
  function RouteDoc(namespace: string, name: string, plaintext: bool): Doc {
    map["kind" := Str("Route"), "apiVersion" := Str("route.openshift.io/v1"),
        "metadata" := Map(map["name" := Str(name), "namespace" := Str(namespace)]),
        "spec" := Map(map["tls" := Map(TlsOf(plaintext))])]
  }

  function TlsOf(plaintext: bool): Doc {
    if plaintext then map["insecureEdgeTerminationPolicy" := Str("Allow")] else map[]
  }

  function RouteLeaf(namespace: string, name: string, plaintext: bool): Leaf {
    Leaf(RouteDoc(namespace, name, plaintext), "routes.yaml")
  }

  function RouteRecord(namespace: string, name: string, plaintext: bool): ObjectData {
    ObjectData(name, namespace, "routes.yaml", RouteDoc(namespace, name, plaintext))
  }

  function RouteFinding(namespace: string, name: string, plaintext: bool): Finding {
    NewFinding(UNENCRYPTED_ROUTE, if plaintext then HIGH else WARNING,
               OwnerOf(Route, RouteRecord(namespace, name, plaintext)))
  }

  lemma {:induction false} RouteReported(namespace: string, name: string, plaintext: bool)
    ensures RouteFindings(RouteRecord(namespace, name, plaintext)) == [RouteFinding(namespace, name, plaintext)]
  {
  }

  lemma {:induction false} RouteReads(namespace: string, name: string, plaintext: bool)
    requires namespace != ""
    ensures var doc := RouteDoc(namespace, name, plaintext);
            && ReadableKind(doc) == Some(Route) && Versioned(Route, doc)
            && NameOf(doc) == name && NamespaceOf(doc, Route) == namespace
  {
    ParseKindExact("Route", Route);
  }

  /** The loader stores the Route under its key, in any namespace a document can name. */
  lemma {:induction false} RouteLoads(st: Store, namespace: string, name: string, plaintext: bool)
    requires namespace != ""
    ensures Put(st, RouteLeaf(namespace, name, plaintext))
            == st.(routes := st.routes[Key(namespace, name) := RouteRecord(namespace, name, plaintext)])
  {
    hide RouteDoc, ReadableKind, Versioned, NameOf, NamespaceOf;
    RouteReads(namespace, name, plaintext);
  }

  // ----- reports of stores that hold routes only

  function RouteOrder(routes: seq<string>): Orders {
    Orders([], [], [], [], [], [], [], [], routes, [], [], [])
  }

  lemma {:induction false} NoChains()
    ensures ChainFindings([], [], []) == []
  {
  }

  lemma {:induction false} RoutesOnly(m: map<string, ObjectData>, order: seq<string>, lib: Library)
    requires InOrder(order, m.Keys)
    ensures IsReport(EMPTY_STORE.(routes := m), lib, FirstBy(FlatMap(order, PerObject(m, RouteCheck())), FingerprintOf))
  {
    hide ClusterRolePhase, RolePhase, PodPhase, WorkloadPhase, PerObject, ChainFindings, RouteCheck;
    var st, o := EMPTY_STORE.(routes := m), RouteOrder(order);
    NoChains();
    NothingEmitted();
    assert References(st.pods, [], st.workloads, []) == [];
    assert ExposureEmissions(st, o) == FlatMap(order, PerObject(m, RouteCheck()));
    assert Visits(o, st);
    assert FullReport(st, o, lib) == FirstBy(FlatMap(order, PerObject(m, RouteCheck())), FingerprintOf);
  }

  lemma {:induction false} OneRoute(key: string, o: ObjectData, f: Finding, lib: Library)
    requires RouteFindings(o) == [f]
    ensures IsReport(EMPTY_STORE.(routes := map[key := o]), lib, [f])
  {
    hide RouteFindings, IsReport, Before;
    var m := map[key := o];
    var h := PerObject(m, RouteCheck());
    FlatMapSnoc([], key, h);
    FirstBySnoc([], f, FingerprintOf);
    assert [] + [key] == [key] && [] + [f] == [f];
    assert FlatMap([key], h) == [f] && FirstBy([f], FingerprintOf) == [f];
    assert InOrder([key], m.Keys);
    RoutesOnly(m, [key], lib);
  }

  /** Of two routes with one fingerprint, the one whose key sorts first is reported. */
  lemma {:induction false} TwoRoutes(key: string, o: ObjectData, f: Finding, key': string, o': ObjectData,
                                     f': Finding, lib: Library)
    requires Before(key, key') && key != key' && RouteFindings(o) == [f] && RouteFindings(o') == [f']
    requires FingerprintOf(f) == FingerprintOf(f')
    ensures IsReport(EMPTY_STORE.(routes := map[key := o, key' := o']), lib, [f])
  {
    hide RouteFindings, IsReport, FingerprintOf, Before;
    var m := map[key := o, key' := o'];
    var h := PerObject(m, RouteCheck());
    FlatMapSnoc([], key, h);
    FlatMapSnoc([key], key', h);
    assert [] + [key] == [key] && [key] + [key'] == [key, key'];
    FirstBySnoc([], f, FingerprintOf);
    FirstBySnoc([f], f', FingerprintOf);
    assert [] + [f] == [f] && [f] + [f'] == [f, f'] && f in [f];
    assert FlatMap([key, key'], h) == [f, f'] && FirstBy([f, f'], FingerprintOf) == [f];
    assert InOrder([key, key'], m.Keys);
    RoutesOnly(m, [key, key'], lib);
  }

  // ----- colliding namespaces lower a severity

  function OneStored(p: Spot): Store {
    EMPTY_STORE.(routes := map[SpotKey(p) := RouteRecord(p.namespace, p.name, true)])
  }

  function BothStored(p: Spot, first: Spot): Store {
    EMPTY_STORE.(routes := map[SpotKey(p) := RouteRecord(p.namespace, p.name, true),
                               SpotKey(first) := RouteRecord(first.namespace, first.name, false)])
  }

  ghost predicate SameRoutePrint(p: Spot, q: Spot) {
    FingerprintOf(RouteFinding(p.namespace, p.name, true)) == FingerprintOf(RouteFinding(q.namespace, q.name, false))
  }

  /** The route at p and another one whose key sorts first have one fingerprint. */
  ghost predicate Shadows(first: Spot, p: Spot) {
    SameRoutePrint(p, first) && Before(SpotKey(first), SpotKey(p)) && SpotKey(first) != SpotKey(p)
  }

  lemma {:induction false} ShadowingSpots(s: string, t: string) returns (p: Spot, first: Spot)
    requires EndsWithBarred(t, s)
    ensures p.namespace in {s, t} && first.namespace in {s, t} && Shadows(first, p)
  {
    hide FingerprintOf, Before;
    var a, b := CollidingSpots(s, t);
    assert SamePrintAs(UNENCRYPTED_ROUTE, Route, a, b);
    RoutePrints(a, b);
    RoutePrints(b, a);
    BeforeTotal(SpotKey(a), SpotKey(b));
    if Before(SpotKey(a), SpotKey(b)) {
      p, first := b, a;
    } else {
      p, first := a, b;
    }
  }

  lemma {:induction false} RoutePrints(p: Spot, q: Spot)
    ensures SameRoutePrint(p, q) <==> SamePrintAs(UNENCRYPTED_ROUTE, Route, p, q)
  {
  }

  /** Adding the route that sorts first replaces the HIGH finding by a WARNING one with the same
      fingerprint. */
  lemma {:induction false} ShadowLowers(p: Spot, first: Spot, lib: Library)
    requires Shadows(first, p)
    ensures Extends(OneStored(p), BothStored(p, first)) && WellKeyed(BothStored(p, first))
    ensures IsReport(OneStored(p), lib, [RouteFinding(p.namespace, p.name, true)])
    ensures IsReport(BothStored(p, first), lib, [RouteFinding(first.namespace, first.name, false)])
  {
    hide IsReport, RouteFindings, FingerprintOf, Before, RouteDoc;
    var o, o' := RouteRecord(p.namespace, p.name, true), RouteRecord(first.namespace, first.name, false);
    RouteReported(p.namespace, p.name, true);
    RouteReported(first.namespace, first.name, false);
    OneRoute(SpotKey(p), o, RouteFinding(p.namespace, p.name, true), lib);
    TwoRoutes(SpotKey(first), o', RouteFinding(first.namespace, first.name, false),
              SpotKey(p), o, RouteFinding(p.namespace, p.name, true), lib);
    assert map[SpotKey(first) := o', SpotKey(p) := o] == map[SpotKey(p) := o, SpotKey(first) := o'];
  }

  /** The two stores are what the loader makes of the two documents. */
  lemma {:induction false} SpotsLoad(p: Spot, first: Spot)
    requires p.namespace != "" && first.namespace != ""
    ensures var x, y := RouteLeaf(p.namespace, p.name, true), RouteLeaf(first.namespace, first.name, false);
            Loaded([x]) == OneStored(p) && Loaded([x, y]) == BothStored(p, first)
  {
    hide RouteDoc, Put, PutAll;
    var x, y := RouteLeaf(p.namespace, p.name, true), RouteLeaf(first.namespace, first.name, false);
    RouteLoads(EMPTY_STORE, p.namespace, p.name, true);
    RouteLoads(OneStored(p), first.namespace, first.name, false);
    PutAllOne(EMPTY_STORE, x);
    PutAllOne(OneStored(p), y);
    PutAllAppend(EMPTY_STORE, [x], [y]);
    assert [x] + [y] == [x, y] && EMPTY_STORE.routes == map[];
  }

  // ----- exactly when scanning more only raises

  ghost predicate StoresGrow(a: Store, b: Store, lib: Library, ns: iset<string>, fs: seq<Finding>, gs: seq<Finding>) {
    Extends(a, b) && WellKeyed(b) && NamespacesIn(b, ns) && IsReport(a, lib, fs) && IsReport(b, lib, gs)
  }

  /** Stores with namespaces of the set keep every finding, at least as severe, when they grow. */
  ghost predicate StoresRaise(ns: iset<string>, lib: Library) {
    forall a, b, fs, gs, f :: StoresGrow(a, b, lib, ns, fs, gs) && f in fs ==> Rises(f, gs)
  }

  /** Severities only rise on all stores with namespaces of a set exactly when no namespace of the set
      ends with '|' and another one. */
  lemma {:induction false} StoresRaiseIff(ns: iset<string>, lib: Library)
    ensures StoresRaise(ns, lib) <==> Apart(ns)
  {
    hide Extends, WellKeyed, NamespacesIn, IsReport, Rises, EndsWithBarred;
    if Apart(ns) {
      forall a, b, fs, gs, f | StoresGrow(a, b, lib, ns, fs, gs) && f in fs ensures Rises(f, gs) {
        ScanningMoreRaises(a, b, lib, fs, gs, f, ns);
      }
    } else {
      var s, t := NotApart(ns);
      var p, first := ShadowingSpots(s, t);
      ShadowLowers(p, first, lib);
      SpotsIn(p, first, ns);
      var f, g := RouteFinding(p.namespace, p.name, true), RouteFinding(first.namespace, first.name, false);
      assert StoresGrow(OneStored(p), BothStored(p, first), lib, ns, [f], [g]) && f in [f];
      NotRaised(p, first);
    }
  }

  lemma {:induction false} SpotsIn(p: Spot, first: Spot, ns: iset<string>)
    requires p.namespace in ns && first.namespace in ns
    ensures NamespacesIn(BothStored(p, first), ns)
  {
    hide RouteDoc;
  }

  lemma {:induction false} NotRaised(p: Spot, first: Spot)
    ensures !Rises(RouteFinding(p.namespace, p.name, true), [RouteFinding(first.namespace, first.name, false)])
  {
  }

  ghost predicate ScansGrow(leaves: seq<Leaf>, larger: seq<Leaf>, lib: Library, ns: iset<string>, fs: seq<Finding>,
                            gs: seq<Finding>)
  {
    && LeavesWithin(larger, ns) && ScansMore(leaves, larger)
    && RunReports(leaves, lib, fs) && RunReports(larger, lib, gs)
  }

  /** Further documents, with namespaces of the set, keep every finding, at least as severe. */
  ghost predicate DocumentsRaise(ns: iset<string>, lib: Library) {
    forall leaves, larger, fs, gs, f :: ScansGrow(leaves, larger, lib, ns, fs, gs) && f in fs ==> Rises(f, gs)
  }

  /** Further documents, with namespaces of the set, never turn a failing run into a passing one. */
  ghost predicate DocumentsStillFail(ns: iset<string>, lib: Library) {
    forall leaves, larger, fs, gs, entries, threshold ::
      ScansGrow(leaves, larger, lib, ns, fs, gs) && GateFails(SuppressAll(fs, entries), threshold)
      ==> GateFails(SuppressAll(gs, entries), threshold)
  }

  lemma {:induction false} ApartRaises(ns: iset<string>, lib: Library)
    requires Apart(ns - iset{""})
    ensures DocumentsRaise(ns, lib) && DocumentsStillFail(ns, lib)
  {
    hide LeavesWithin, ScansMore, RunReports, Rises, Apart, GateFails, SuppressAll;
    forall leaves, larger, fs, gs, f | ScansGrow(leaves, larger, lib, ns, fs, gs) && f in fs ensures Rises(f, gs) {
      NamedNamespaces(larger, ns);
      MoreDocumentsRaise(leaves, larger, lib, fs, gs, f, ns - iset{""});
    }
    forall leaves, larger, fs, gs, entries, threshold |
      ScansGrow(leaves, larger, lib, ns, fs, gs) && GateFails(SuppressAll(fs, entries), threshold)
      ensures GateFails(SuppressAll(gs, entries), threshold)
    {
      NamedNamespaces(larger, ns);
      MoreDocumentsStillFail(leaves, larger, lib, fs, gs, entries, threshold, ns - iset{""});
    }
  }

  /** Two documents with which a failing run passes. */
  lemma {:induction false} SpotsScanned(p: Spot, first: Spot, ns: iset<string>, lib: Library)
    requires Shadows(first, p) && p.namespace in ns && first.namespace in ns
    requires p.namespace != "" && first.namespace != ""
    ensures var x, y := RouteLeaf(p.namespace, p.name, true), RouteLeaf(first.namespace, first.name, false);
            ScansGrow([x], [x, y], lib, ns, [RouteFinding(p.namespace, p.name, true)],
                      [RouteFinding(first.namespace, first.name, false)])
  {
    hide IsReport, SameRoutePrint, Before, Loaded, RouteDoc, NameOf, NamespaceOf, ReadableKind, Versioned;
    var x, y := RouteLeaf(p.namespace, p.name, true), RouteLeaf(first.namespace, first.name, false);
    ShadowLowers(p, first, lib);
    SpotsLoad(p, first);
    RouteReads(p.namespace, p.name, true);
    RouteReads(first.namespace, first.name, false);
    KeysApart(p, first);
    assert LeafWithin(x, ns) && LeafWithin(y, ns);
    BlockScansMore([x], [y], []);
    assert [x] + [] == [x] && [x] + [y] + [] == [x, y];
  }

  lemma {:induction false} KeysApart(p: Spot, first: Spot)
    requires SpotKey(first) != SpotKey(p) && p.namespace != "" && first.namespace != ""
    ensures var x, y := RouteLeaf(p.namespace, p.name, true), RouteLeaf(first.namespace, first.name, false);
            NoClash([x] + [], [y])
  {
    hide RouteDoc, NameOf, NamespaceOf, ReadableKind, Versioned;
    RouteReads(p.namespace, p.name, true);
    RouteReads(first.namespace, first.name, false);
  }

  lemma {:induction false} GatePasses(p: Spot, first: Spot)
    ensures GateFails(SuppressAll([RouteFinding(p.namespace, p.name, true)], []), HIGH)
    ensures !GateFails(SuppressAll([RouteFinding(first.namespace, first.name, false)], []), HIGH)
  {
    hide RouteDoc;
    GateAfterSuppression([RouteFinding(p.namespace, p.name, true)], [], HIGH);
    GateAfterSuppression([RouteFinding(first.namespace, first.name, false)], [], HIGH);
    assert RouteFinding(p.namespace, p.name, true) in [RouteFinding(p.namespace, p.name, true)];
  }

  /** Scanning further documents only raises, and never makes a failing run pass, exactly when no
      namespace the documents may be in ends with '|' and another one. */
  lemma {:induction false} DocumentsRaiseIff(ns: iset<string>, lib: Library)
    ensures DocumentsRaise(ns, lib) <==> Apart(ns - iset{""})
    ensures DocumentsStillFail(ns, lib) <==> Apart(ns - iset{""})
  {
    hide ScansGrow, Rises, EndsWithBarred, GateFails, SuppressAll, Shadows;
    if Apart(ns - iset{""}) {
      ApartRaises(ns, lib);
    } else {
      var s, t := NotApart(ns - iset{""});
      var p, first := ShadowingSpots(s, t);
      SpotsScanned(p, first, ns, lib);
      var x, y := RouteLeaf(p.namespace, p.name, true), RouteLeaf(first.namespace, first.name, false);
      var f, g := RouteFinding(p.namespace, p.name, true), RouteFinding(first.namespace, first.name, false);
      assert ScansGrow([x], [x, y], lib, ns, [f], [g]) && f in [f];
      NotRaised(p, first);
      GatePasses(p, first);
    }
  }
}
