/** What exactly a whole report says about pods, network policies, services, ingresses and routes. */
module ObjectReports {
  import opened Sequences
  import opened Values
  import opened Models
  import opened PodSpecs
  import opened NetworkPolicies
  import opened SelectorTheorems
  import opened NetworkTheorems
  import opened Workloads
  import opened Exposure
  import opened Documents
  import opened LoaderMeaning
  import opened PodMeaning
  import opened ExposureMeaning
  import opened NetworkMeaning
  import opened Analyzer
  import opened SortedKeys
  import opened RoleTheorems
  import opened ReportShape
  import opened ReportParts

  // ----- objects under sorted keys

  /** Whether a rule is due for an object, at a severity. */
  type DueTest = (ObjectData, RuleId, Severity) -> bool

  predicate Named(id: Identity, kind: Kind, o: ObjectData) {
    id.kind == kind && id.name == o.name && id.namespace == o.namespace
  }

  /** The object has something due with the fingerprint. */
  ghost predicate Prints(o: ObjectData, kind: Kind, due: DueTest, fingerprint: string) {
    exists rule, severity :: due(o, rule, severity)
                             && Identity(rule, kind, o.name, o.namespace).Fingerprint() == fingerprint
  }

  /** The verdict is due for the object under the key. */
  ghost predicate DueAt(m: map<string, ObjectData>, kind: Kind, due: DueTest, v: Verdict, k: string) {
    k in m && Named(v.id, kind, m[k]) && due(m[k], v.id.rule, v.severity)
  }

  /** The verdict is due for some object, and nothing with its fingerprint for an object under an earlier
      key. */
  ghost predicate DueFirst(m: map<string, ObjectData>, kind: Kind, due: DueTest, v: Verdict) {
    exists k :: DueAt(m, kind, due, v, k)
                && forall j :: j in m && Before(j, k) ==> !Prints(m[j], kind, due, v.id.Fingerprint())
  }

  /** The check emits what is due, each rule once. */
  ghost predicate Emits(h: ObjectData -> seq<Finding>, kind: Kind, due: DueTest, o: ObjectData) {
    && DistinctBy(h(o), FingerprintOf)
    && forall v :: v in Verdicts(h(o)) <==> Named(v.id, kind, o) && due(o, v.id.rule, v.severity)
  }

  lemma {:induction false} EmitsPrints(h: ObjectData -> seq<Finding>, kind: Kind, due: DueTest, o: ObjectData,
                                       fingerprint: string)
    requires Emits(h, kind, due, o)
    ensures HasKey(h(o), FingerprintOf, fingerprint) <==> Prints(o, kind, due, fingerprint)
  {
    hide Verdicts, DistinctBy;
    if f :| f in h(o) && FingerprintOf(f) == fingerprint {
      InVerdicts(h(o), VerdictOf(f));
      assert due(o, f.id.rule, f.severity);
    }
    if rule, severity :| due(o, rule, severity)
                         && Identity(rule, kind, o.name, o.namespace).Fingerprint() == fingerprint {
      var v := Verdict(Identity(rule, kind, o.name, o.namespace), severity);
      InVerdicts(h(o), v);
      var f :| f in h(o) && VerdictOf(f) == v;
      assert FingerprintOf(f) == fingerprint;
    }
  }

  lemma {:induction false} DueIsEmitted(m: map<string, ObjectData>, h: ObjectData -> seq<Finding>, kind: Kind,
                                        due: DueTest, v: Verdict, k: string)
    requires k in m && Emits(h, kind, due, m[k])
    ensures DueAt(m, kind, due, v, k) <==> exists f :: f in h(m[k]) && VerdictOf(f) == v
  {
    hide Verdicts, DistinctBy;
    InVerdicts(h(m[k]), v);
  }

  lemma {:induction false} EmitsDistinct(h: ObjectData -> seq<Finding>, kind: Kind, due: DueTest, o: ObjectData)
    requires Emits(h, kind, due, o)
    ensures DistinctBy(h(o), FingerprintOf)
  {
    hide Verdicts, DistinctBy;
  }

  /** A phase over sorted keys reports exactly what is due first. */
  lemma {:induction false} PhaseExact(order: seq<string>, m: map<string, ObjectData>, h: ObjectData -> seq<Finding>,
                                      kind: Kind, due: DueTest, v: Verdict)
    requires InOrder(order, m.Keys) && forall o :: Emits(h, kind, due, o)
    ensures v in Verdicts(Kept(order, m, h)) <==> DueFirst(m, kind, due, v)
  {
    hide Verdicts, DistinctBy, InOrder, Enumerates, Before, Prints, Kept, Emits, DueAt, Unshadowed;
    InVerdicts(Kept(order, m, h), v);
    forall o ensures DistinctBy(h(o), FingerprintOf) {
      EmitsDistinct(h, kind, due, o);
    }
    if f :| f in Kept(order, m, h) && VerdictOf(f) == v {
      KeptExact(order, m, h, f);
      var k :| k in m && f in h(m[k]) && Unshadowed(m, h, k, FingerprintOf(f));
      DueIsEmitted(m, h, kind, due, v, k);
      ShadowIsPrint(m, h, kind, due, k, v.id.Fingerprint());
    }
    if k :| DueAt(m, kind, due, v, k)
            && forall j :: j in m && Before(j, k) ==> !Prints(m[j], kind, due, v.id.Fingerprint()) {
      assert k in m by {
        DueHasKey(m, kind, due, v, k);
      }
      DueIsEmitted(m, h, kind, due, v, k);
      var f :| f in h(m[k]) && VerdictOf(f) == v;
      ShadowIsPrint(m, h, kind, due, k, v.id.Fingerprint());
      KeptExact(order, m, h, f);
    }
  }

  lemma {:induction false} DueHasKey(m: map<string, ObjectData>, kind: Kind, due: DueTest, v: Verdict, k: string)
    requires DueAt(m, kind, due, v, k)
    ensures k in m
  {
  }

  lemma {:induction false} ShadowIsPrint(m: map<string, ObjectData>, h: ObjectData -> seq<Finding>, kind: Kind,
                                         due: DueTest, k: string, fingerprint: string)
    requires forall o :: Emits(h, kind, due, o)
    ensures Unshadowed(m, h, k, fingerprint) <==>
            forall j :: j in m && Before(j, k) ==> !Prints(m[j], kind, due, fingerprint)
  {
    hide Prints, Before, Emits;
    forall o ensures HasKey(h(o), FingerprintOf, fingerprint) <==> Prints(o, kind, due, fingerprint) {
      EmitsPrints(h, kind, due, o, fingerprint);
    }
  }

  /** Where namespaces do not collide, no object shadows another one. */
  lemma {:induction false} NothingShadowed(m: map<string, ObjectData>, kind: Kind, due: DueTest, v: Verdict,
                                           ns: iset<string>)
    requires AllEntries(m, ObjectKeyed) && AllEntries(m, ObjectIn(ns)) && Apart(ns) && NamespacedKind(kind)
    ensures DueFirst(m, kind, due, v) <==> exists k :: DueAt(m, kind, due, v, k)
  {
    hide Apart, Before, NamespacedKind;
    if k :| DueAt(m, kind, due, v, k) {
      forall j | j in m && Before(j, k) ensures !Prints(m[j], kind, due, v.id.Fingerprint()) {
        OtherPrint(m, kind, due, v, k, j, ns);
      }
    }
  }

  lemma {:induction false} OtherPrint(m: map<string, ObjectData>, kind: Kind, due: DueTest, v: Verdict, k: string,
                                      j: string, ns: iset<string>)
    requires AllEntries(m, ObjectKeyed) && AllEntries(m, ObjectIn(ns)) && Apart(ns) && NamespacedKind(kind)
    requires DueAt(m, kind, due, v, k) && j in m && Before(j, k)
    ensures !Prints(m[j], kind, due, v.id.Fingerprint())
  {
    hide Apart, Before;
    assert ObjectKeyed(k, m[k]) && ObjectKeyed(j, m[j]) && ObjectIn(ns)(k, m[k]) && ObjectIn(ns)(j, m[j]);
    forall rule ensures Identity(rule, kind, m[j].name, m[j].namespace).Fingerprint() != v.id.Fingerprint() {
      PlacedInjective(Identity(rule, kind, m[j].name, m[j].namespace), v.id, ns);
      BeforeTotal(j, k);
    }
  }

  /** Findings about one object, all of its own identity and with distinct rules. */
  lemma {:induction false} OwnedEmits(h: ObjectData -> seq<Finding>, kind: Kind, due: DueTest, o: ObjectData,
                                      rules: set<RuleId>)
    requires OwnedBy(h(o), OwnerOf(kind, o), rules) && DistinctBy(h(o), RuleIn)
    requires forall f: Finding :: f.id == Identity(f.id.rule, kind, o.name, o.namespace)
                                  ==> ((exists g :: g in h(o) && VerdictOf(g) == VerdictOf(f))
                                       <==> due(o, f.id.rule, f.severity))
    ensures Emits(h, kind, due, o)
  {
    hide Verdicts;
    ObjectDistinct(h(o), OwnerOf(kind, o), rules);
    forall v ensures v in Verdicts(h(o)) <==> Named(v.id, kind, o) && due(o, v.id.rule, v.severity) {
      InVerdicts(h(o), v);
      assert VerdictOf(Finding(v.id, v.severity, "", false)) == v;
    }
  }

  // ----- services

  /** KC-025 is due, as WARNING, for a service with a reachable type or an external IP. */
  ghost predicate ServiceDue(o: ObjectData, rule: RuleId, severity: Severity) {
    rule == 25 && severity == 1 && MapAt(o.doc, "spec").Some? && ReachesOut(MapAt(o.doc, "spec").value)
  }

  lemma {:induction false} ServiceEmits(o: ObjectData)
    ensures Emits(ServiceCheck(), Service, ServiceDue, o)
  {
    hide ReachesOut, ReachableService, DistinctBy, OwnedBy;
    ServiceShape(o);
    ReadMap(o.doc, "spec");
    if SubMap(o.doc, "spec").Some? {
      ReachesOutMeaning(SubMap(o.doc, "spec").value);
    }
    var f := NewFinding(25, 1, OwnerOf(Service, o));
    assert f in ServiceFindings(o) <==> ServiceDue(o, 25, 1);
    assert forall x :: x in ServiceFindings(o) ==> x == f;
    assert forall rule, severity :: ServiceDue(o, rule, severity) ==> rule == 25 && severity == 1;
    hide ServiceFindings, ServiceDue;
    OwnedEmits(ServiceCheck(), Service, ServiceDue, o, {25});
  }

  // ----- ingresses

  /** KC-026 and KC-027 are due, as WARNING, for an ingress that has rules or a default backend, when it
      serves plaintext or any host. */
  ghost predicate IngressDue(o: ObjectData, rule: RuleId, severity: Severity) {
    && severity == 1 && MapAt(o.doc, "spec").Some?
    && var spec := MapAt(o.doc, "spec").value;
       && (HasEntries(spec, "rules") || "defaultBackend" in spec)
       && ((rule == 26 && ServesPlaintext(spec)) || (rule == 27 && ServesAnyHost(spec)))
  }

  lemma {:induction false} IngressEmits(o: ObjectData)
    ensures Emits(IngressCheck(), Ingress, IngressDue, o)
  {
    hide Unencrypted, BroadHost, ServesPlaintext, ServesAnyHost, HasEntries, DistinctBy, OwnedBy, ListField;
    IngressShape(o);
    ReadMap(o.doc, "spec");
    if SubMap(o.doc, "spec").Some? {
      var spec := SubMap(o.doc, "spec").value;
      PlaintextMeaning(spec);
      AnyHostMeaning(spec);
      ReadEntries(spec, "rules");
    }
    var f, g := NewFinding(26, 1, OwnerOf(Ingress, o)), NewFinding(27, 1, OwnerOf(Ingress, o));
    assert f in IngressFindings(o) <==> IngressDue(o, 26, 1);
    assert g in IngressFindings(o) <==> IngressDue(o, 27, 1);
    assert forall x :: x in IngressFindings(o) ==> x in {f, g};
    assert forall rule, severity :: IngressDue(o, rule, severity) ==> severity == 1 && rule in {26, 27};
    hide IngressFindings, IngressDue;
    OwnedEmits(IngressCheck(), Ingress, IngressDue, o, ROUTE_RULES);
  }

  // ----- routes

  /** KC-026 is due for a route as HIGH when it allows plaintext and otherwise as WARNING when it has no TLS
      termination, KC-027 as WARNING for the wildcard policy Subdomain. */
  predicate RouteDue(o: ObjectData, rule: RuleId, severity: Severity) {
    && MapAt(o.doc, "spec").Some?
    && var spec := MapAt(o.doc, "spec").value;
       var plaintext := TlsText(spec, "insecureEdgeTerminationPolicy") == "Allow";
       || (rule == 26 && severity == 2 && plaintext)
       || (rule == 26 && severity == 1 && !plaintext && TlsText(spec, "termination") == "")
       || (rule == 27 && severity == 1 && TextAt(spec, "wildcardPolicy") == "Subdomain")
  }

  lemma {:induction false} RouteReads(o: ObjectData)
    requires SubMap(o.doc, "spec").Some?
    ensures MapAt(o.doc, "spec") == SubMap(o.doc, "spec")
    ensures var spec := SubMap(o.doc, "spec").value;
            && StringField(MapField(spec, "tls"), "insecureEdgeTerminationPolicy")
               == TlsText(spec, "insecureEdgeTerminationPolicy")
            && StringField(MapField(spec, "tls"), "termination") == TlsText(spec, "termination")
            && StringField(spec, "wildcardPolicy") == TextAt(spec, "wildcardPolicy")
  {
    hide StringField, TextAt, TlsText;
    var spec := SubMap(o.doc, "spec").value;
    ReadMap(o.doc, "spec");
    TlsTextMeaning(spec, "insecureEdgeTerminationPolicy");
    TlsTextMeaning(spec, "termination");
    ReadText(spec, "wildcardPolicy");
  }

  lemma {:induction false} RouteEmits(o: ObjectData)
    ensures Emits(RouteCheck(), Route, RouteDue, o)
  {
    hide DistinctBy, OwnedBy, StringField, TextAt, TlsText, MapField;
    RouteShape(o);
    ReadMap(o.doc, "spec");
    if SubMap(o.doc, "spec").Some? {
      RouteReads(o);
    }
    var severity := if SubMap(o.doc, "spec").Some? then RouteTlsSeverity(SubMap(o.doc, "spec").value) else 0;
    var f, g := NewFinding(26, severity, OwnerOf(Route, o)), NewFinding(27, 1, OwnerOf(Route, o));
    assert f in RouteFindings(o) <==> RouteDue(o, 26, severity);
    assert g in RouteFindings(o) <==> RouteDue(o, 27, 1);
    assert forall x :: x in RouteFindings(o) ==> x in {f, g};
    assert forall rule, s :: RouteDue(o, rule, s) ==> (rule == 26 && s == severity) || (rule == 27 && s == 1);
    hide RouteFindings, RouteDue, RouteTlsSeverity;
    OwnedEmits(RouteCheck(), Route, RouteDue, o, ROUTE_RULES);
  }

  lemma {:induction false} ServicePart(st: Store, o: Orders, v: Verdict)
    requires Visits(o, st)
    ensures v in Verdicts(Kept(o.services, st.services, ServiceCheck()))
            <==> DueFirst(st.services, Service, ServiceDue, v)
  {
    hide Verdicts, ServiceDue, DueFirst, Emits, Kept, ServiceFindings, InOrder, Enumerates;
    forall x ensures Emits(ServiceCheck(), Service, ServiceDue, x) {
      ServiceEmits(x);
    }
    PhaseExact(o.services, st.services, ServiceCheck(), Service, ServiceDue, v);
  }

  lemma {:induction false} IngressPart(st: Store, o: Orders, v: Verdict)
    requires Visits(o, st)
    ensures v in Verdicts(Kept(o.ingresses, st.ingresses, IngressCheck()))
            <==> DueFirst(st.ingresses, Ingress, IngressDue, v)
  {
    hide Verdicts, IngressDue, DueFirst, Emits, Kept, IngressFindings, InOrder, Enumerates;
    forall x ensures Emits(IngressCheck(), Ingress, IngressDue, x) {
      IngressEmits(x);
    }
    PhaseExact(o.ingresses, st.ingresses, IngressCheck(), Ingress, IngressDue, v);
  }

  lemma {:induction false} RoutePart(st: Store, o: Orders, v: Verdict)
    requires Visits(o, st)
    ensures v in Verdicts(Kept(o.routes, st.routes, RouteCheck()))
            <==> DueFirst(st.routes, Route, RouteDue, v)
  {
    hide Verdicts, RouteDue, DueFirst, Emits, Kept, RouteFindings, InOrder, Enumerates;
    forall x ensures Emits(RouteCheck(), Route, RouteDue, x) {
      RouteEmits(x);
    }
    PhaseExact(o.routes, st.routes, RouteCheck(), Route, RouteDue, v);
  }

  // ----- exposure in a whole report

  /** KC-025 to KC-027: a whole report says about services, ingresses and routes exactly what is due first
      among the objects of the kind; where namespaces do not collide, exactly what is due. */
  lemma {:induction false} ServiceVerdictsExact(st: Store, lib: Library, fs: seq<Finding>, v: Verdict, ns: iset<string>)
    requires WellKeyed(st) && IsReport(st, lib, fs) && v.id.kind == Service
    ensures v in Verdicts(fs) <==> DueFirst(st.services, Service, ServiceDue, v)
    ensures Orderly(st, ns) ==> (v in Verdicts(fs) <==> exists k :: DueAt(st.services, Service, ServiceDue, v, k))
  {
    hide FullReport, Verdicts, ServiceDue, DueFirst, DueAt, Kept, Apart, AllEntries, Visits;
    var o :| Visits(o, st) && fs == FullReport(st, o, lib);
    ServicePart(st, o, v);
    SameVerdicts(st, o, lib, PartsOf(st, o, lib).services, v);
    if Orderly(st, ns) {
      NothingShadowed(st.services, Service, ServiceDue, v, ns);
    }
  }

  lemma {:induction false} IngressVerdictsExact(st: Store, lib: Library, fs: seq<Finding>, v: Verdict, ns: iset<string>)
    requires WellKeyed(st) && IsReport(st, lib, fs) && v.id.kind == Ingress
    ensures v in Verdicts(fs) <==> DueFirst(st.ingresses, Ingress, IngressDue, v)
    ensures Orderly(st, ns) ==> (v in Verdicts(fs) <==> exists k :: DueAt(st.ingresses, Ingress, IngressDue, v, k))
  {
    hide FullReport, Verdicts, IngressDue, DueFirst, DueAt, Kept, Apart, AllEntries, Visits;
    var o :| Visits(o, st) && fs == FullReport(st, o, lib);
    IngressPart(st, o, v);
    SameVerdicts(st, o, lib, PartsOf(st, o, lib).ingresses, v);
    if Orderly(st, ns) {
      NothingShadowed(st.ingresses, Ingress, IngressDue, v, ns);
    }
  }

  lemma {:induction false} RouteVerdictsExact(st: Store, lib: Library, fs: seq<Finding>, v: Verdict, ns: iset<string>)
    requires WellKeyed(st) && IsReport(st, lib, fs) && v.id.kind == Route
    ensures v in Verdicts(fs) <==> DueFirst(st.routes, Route, RouteDue, v)
    ensures Orderly(st, ns) ==> (v in Verdicts(fs) <==> exists k :: DueAt(st.routes, Route, RouteDue, v, k))
  {
    hide FullReport, Verdicts, RouteDue, DueFirst, DueAt, Kept, Apart, AllEntries, Visits;
    var o :| Visits(o, st) && fs == FullReport(st, o, lib);
    RoutePart(st, o, v);
    SameVerdicts(st, o, lib, PartsOf(st, o, lib).routes, v);
    if Orderly(st, ns) {
      NothingShadowed(st.routes, Route, RouteDue, v, ns);
    }
  }

  // ----- network policies

  ghost predicate PolicyIsDue(o: ObjectData, rule: RuleId, severity: Severity, parse: CidrParser) {
    match MapAt(o.doc, "spec")
    case Some(spec) => PolicySpecDue(spec, rule, severity, parse)
    case None => false
  }

  ghost function PolicyDue(parse: CidrParser): DueTest {
    (o: ObjectData, rule: RuleId, severity: Severity) => PolicyIsDue(o, rule, severity, parse)
  }

  lemma {:induction false} PolicyEmits(o: ObjectData, lib: Library)
    ensures Emits(PolicyCheck(lib), NetworkPolicy, PolicyDue(lib.parse), o)
  {
    hide PolicySpecDue, PolicyFindings, DistinctBy, OwnedBy;
    PolicyShape(o, lib.parse);
    forall f: Finding | f.id == Identity(f.id.rule, NetworkPolicy, o.name, o.namespace)
      ensures (exists g :: g in PolicyFindings(o, lib.parse) && VerdictOf(g) == VerdictOf(f))
              <==> PolicyIsDue(o, f.id.rule, f.severity, lib.parse)
    {
      PolicyMeaning(o, f.id.rule, f.severity, lib.parse);
      PolicyFiles(o, lib.parse);
      assert VerdictOf(NewFinding(f.id.rule, f.severity, PolicyOwner(o))) == VerdictOf(f);
    }
    hide PolicyIsDue;
    OwnedEmits(PolicyCheck(lib), NetworkPolicy, PolicyDue(lib.parse), o, POLICY_RULES);
  }

  lemma {:induction false} PolicyFiles(o: ObjectData, parse: CidrParser)
    ensures forall g :: g in PolicyFindings(o, parse) ==> g == NewFinding(g.id.rule, g.severity, PolicyOwner(o))
  {
    hide Broad, PolicySeverity;
  }

  lemma {:induction false} PolicyPart(st: Store, o: Orders, lib: Library, v: Verdict)
    requires Visits(o, st)
    ensures v in Verdicts(PolicyReport(st, o, lib))
            <==> DueFirst(st.networkPolicies, NetworkPolicy, PolicyDue(lib.parse), v)
  {
    hide Verdicts, PolicyDue, DueFirst, Emits, PolicyFindings, InOrder, Enumerates, FirstBy, FlatMap;
    forall x ensures Emits(PolicyCheck(lib), NetworkPolicy, PolicyDue(lib.parse), x) {
      PolicyEmits(x, lib);
    }
    PhaseExact(o.policies, st.networkPolicies, PolicyCheck(lib), NetworkPolicy, PolicyDue(lib.parse), v);
  }

  /** KC-017 and KC-018: a whole report says about network policies exactly what is due first; where
      namespaces do not collide, exactly what is due. */
  lemma {:induction false} PolicyVerdictsExact(st: Store, lib: Library, fs: seq<Finding>, v: Verdict, ns: iset<string>)
    requires IsReport(st, lib, fs) && v.id.rule in POLICY_RULES
    ensures v in Verdicts(fs) <==> DueFirst(st.networkPolicies, NetworkPolicy, PolicyDue(lib.parse), v)
    ensures var m := st.networkPolicies;
            Orderly(st, ns) ==> (v in Verdicts(fs) <==> exists k :: DueAt(m, NetworkPolicy, PolicyDue(lib.parse), v, k))
  {
    hide FullReport, Verdicts, PolicyDue, DueFirst, DueAt, Apart, AllEntries, PolicyReport, Visits;
    var o :| Visits(o, st) && fs == FullReport(st, o, lib);
    PolicyPart(st, o, lib, v);
    SameVerdicts(st, o, lib, PolicyReport(st, o, lib), v);
    if Orderly(st, ns) {
      NothingShadowed(st.networkPolicies, NetworkPolicy, PolicyDue(lib.parse), v, ns);
    }
  }

  /** Every selector, peer and address block of the policy is well formed. */
  ghost predicate WellFormedPolicy(spec: Doc, parse: CidrParser) {
    && (SubMap(spec, "podSelector").Some? ==> WellFormedSelector(spec["podSelector"].fields))
    && WellFormedRules(ListField(spec, "ingress"), "from", parse)
    && WellFormedRules(ListField(spec, "egress"), "to", parse)
  }

  /** The policy applies to every pod of its namespace. */
  ghost predicate SelectsAllPods(spec: Doc) {
    || "podSelector" !in spec || spec["podSelector"] == Null
    || (MapAt(spec, "podSelector").Some? && forall labels: Labels :: Matches(spec["podSelector"].fields, labels))
  }

  /** The policy covers the direction and one of its rules opens it up. */
  ghost predicate OpensUp(spec: Doc, direction: string, rulesKey: string, peerKey: string, parse: CidrParser) {
    CoversDirection(spec, direction) && exists rule :: ListsMap(spec, rulesKey, rule) && RuleOpens(rule, peerKey, parse)
  }

  lemma {:induction false} OpensUpMeaning(spec: Doc, direction: string, rulesKey: string, peerKey: string,
                                          parse: CidrParser)
    requires WellFormedRules(ListField(spec, rulesKey), peerKey, parse)
    ensures Broad(spec, direction, rulesKey, peerKey, parse) <==> OpensUp(spec, direction, rulesKey, peerKey, parse)
  {
    hide WellFormedRules, BroadPeers, RuleOpens, DirectionEnabled, CoversDirection, HasItem, ListField;
    DirectionMeaning(spec, direction);
    BroadExact(ListField(spec, rulesKey), peerKey, parse);
    forall v ensures v in ListField(spec, rulesKey) <==> HasItem(spec, rulesKey, v) {
      ReadList(spec, rulesKey, v);
    }
    if v :| v in ListField(spec, rulesKey) && v.Map? && RuleOpens(v.fields, peerKey, parse) {
      assert v == Map(v.fields) && ListsMap(spec, rulesKey, v.fields);
    }
    if rule :| ListsMap(spec, rulesKey, rule) && RuleOpens(rule, peerKey, parse) {
      assert Map(rule) in ListField(spec, rulesKey);
    }
  }

  lemma {:induction false} SelectsAllMeaning(spec: Doc)
    requires SubMap(spec, "podSelector").Some? ==> WellFormedSelector(spec["podSelector"].fields)
    ensures PolicySeverity(spec) == if SelectsAllPods(spec) then 2 else 1
  {
    hide OpenSelector, WellFormedSelector, Matches;
    PolicySeverityExact(spec);
    PolicyTwoSeverities(spec);
    ReadMap(spec, "podSelector");
  }

  /** What is due for a well-formed policy, in terms of the traffic it lets through. */
  lemma {:induction false} PolicyDueMeaning(o: ObjectData, rule: RuleId, severity: Severity, parse: CidrParser)
    requires SubMap(o.doc, "spec").Some? && WellFormedPolicy(SubMap(o.doc, "spec").value, parse)
    ensures MapAt(o.doc, "spec") == SubMap(o.doc, "spec")
    ensures var spec := SubMap(o.doc, "spec").value;
            PolicyIsDue(o, rule, severity, parse) <==>
            && severity == (if SelectsAllPods(spec) then 2 else 1)
            && (|| (rule == 17 && OpensUp(spec, "Ingress", "ingress", "from", parse))
                || (rule == 18 && OpensUp(spec, "Egress", "egress", "to", parse)))
  {
    hide PolicySeverity, SelectsAllPods, WellFormedSelector, WellFormedRules, Broad, IsBroad, OpensUp, IsNull,
         HoldsOpenSelector;
    var spec := SubMap(o.doc, "spec").value;
    ReadMap(o.doc, "spec");
    SelectsAllMeaning(spec);
    SeverityMeaning(spec);
    BroadMeaning(spec, "Ingress", "ingress", "from", parse);
    BroadMeaning(spec, "Egress", "egress", "to", parse);
    OpensUpMeaning(spec, "Ingress", "ingress", "from", parse);
    OpensUpMeaning(spec, "Egress", "egress", "to", parse);
  }

  lemma {:induction false} PolicyTwoSeverities(spec: Doc)
    ensures PolicySeverity(spec) in {HIGH, WARNING}
  {
    hide OpenSelector;
  }

  // ----- secrets

  /** KC-029 is due, as HIGH, for a long-lived token and KC-028, as WARNING, for other credential material. */
  predicate SecretIsDue(o: ObjectData, rule: RuleId, severity: Severity, check: Doc -> Option<SecretVerdict>) {
    || (rule == 29 && severity == 2 && check(o.doc) == Some(LongLivedToken))
    || (rule == 28 && severity == 1 && check(o.doc) == Some(CredentialMaterial))
  }

  ghost function SecretDue(check: Doc -> Option<SecretVerdict>): DueTest {
    (o: ObjectData, rule: RuleId, severity: Severity) => SecretIsDue(o, rule, severity, check)
  }

  lemma {:induction false} SecretEmits(o: ObjectData, lib: Library)
    ensures Emits(SecretCheck(lib), Secret, SecretDue(lib.secretCheck), o)
  {
    hide DistinctBy, OwnedBy;
    SecretShape(o, lib);
    var f, g := NewFinding(29, 2, OwnerOf(Secret, o)), NewFinding(28, 1, OwnerOf(Secret, o));
    assert f in SecretFindings(o, lib) <==> SecretIsDue(o, 29, 2, lib.secretCheck);
    assert g in SecretFindings(o, lib) <==> SecretIsDue(o, 28, 1, lib.secretCheck);
    assert forall x :: x in SecretFindings(o, lib) ==> x in {f, g};
    assert forall rule, s :: SecretIsDue(o, rule, s, lib.secretCheck)
                             ==> (rule == 29 && s == 2) || (rule == 28 && s == 1);
    hide SecretFindings, SecretIsDue;
    OwnedEmits(SecretCheck(lib), Secret, SecretDue(lib.secretCheck), o, SECRET_RULES);
  }

  /** KC-028 and KC-029: a whole report says about secrets exactly what is due first; where namespaces do
      not collide, exactly what is due. */
  lemma {:induction false} SecretVerdictsExact(st: Store, lib: Library, fs: seq<Finding>, v: Verdict, ns: iset<string>)
    requires IsReport(st, lib, fs) && v.id.rule in {28, 29}
    ensures v in Verdicts(fs) <==> DueFirst(st.secrets, Secret, SecretDue(lib.secretCheck), v)
    ensures var due := SecretDue(lib.secretCheck);
            Orderly(st, ns) ==> (v in Verdicts(fs) <==> exists k :: DueAt(st.secrets, Secret, due, v, k))
  {
    hide FullReport, Verdicts, SecretDue, DueFirst, DueAt, Apart, AllEntries, Visits, Emits, SecretFindings, FirstBy,
         FlatMap;
    var o :| Visits(o, st) && fs == FullReport(st, o, lib);
    forall x ensures Emits(SecretCheck(lib), Secret, SecretDue(lib.secretCheck), x) {
      SecretEmits(x, lib);
    }
    SecretsInOrder(o, st);
    PhaseExact(o.secrets, st.secrets, SecretCheck(lib), Secret, SecretDue(lib.secretCheck), v);
    SameVerdicts(st, o, lib, SecretReport(st, o, lib), v);
    if Orderly(st, ns) {
      NothingShadowed(st.secrets, Secret, SecretDue(lib.secretCheck), v, ns);
    }
  }

  lemma {:induction false} SecretsInOrder(o: Orders, st: Store)
    requires Visits(o, st)
    ensures InOrder(o.secrets, st.secrets.Keys) && InOrder(o.constraints, st.constraints.Keys)
  {
  }

  // ----- security context constraints

  /** KC-024: a whole report names exactly the constraints that the check objects to, without a namespace and
      at the severity the check gives. */
  lemma {:induction false} ConstraintVerdictsExact(st: Store, lib: Library, fs: seq<Finding>, v: Verdict)
    requires WellKeyed(st) && IsReport(st, lib, fs) && v.id.rule == 24
    ensures v in Verdicts(fs) <==>
            && v.id.kind == SecurityContextConstraints && v.id.namespace == "" && v.id.name in st.constraints
            && lib.constraintCheck(st.constraints[v.id.name].doc) == Some(v.severity)
  {
    hide FullReport, Verdicts, Visits, FirstBy, FlatMap, DistinctBy, ConstraintFindings, InOrder;
    var o :| Visits(o, st) && fs == FullReport(st, o, lib);
    var m, part := st.constraints, ConstraintReport(st, o, lib);
    SameVerdicts(st, o, lib, part, v);
    InVerdicts(part, v);
    SecretsInOrder(o, st);
    forall x ensures DistinctBy(ConstraintCheck(lib)(x), FingerprintOf) {
      ConstraintsDistinct(x, lib);
    }
    if f :| f in part && VerdictOf(f) == v {
      KeptExact(o.constraints, m, ConstraintCheck(lib), f);
      var k :| k in m && f in ConstraintFindings(m[k], lib);
      ConstraintSays(m[k], lib, f);
    }
    if v.id == Identity(24, SecurityContextConstraints, v.id.name, "") && v.id.name in m
       && lib.constraintCheck(m[v.id.name].doc) == Some(v.severity) {
      var k := v.id.name;
      var f := Finding(v.id, v.severity, m[k].file, false);
      ConstraintSays(m[k], lib, f);
      ConstraintUnshadowed(st, lib, k, f);
      KeptExact(o.constraints, m, ConstraintCheck(lib), f);
    }
  }

  lemma {:induction false} ConstraintSays(o: ObjectData, lib: Library, f: Finding)
    ensures f in ConstraintFindings(o, lib) <==>
            f == Finding(Identity(24, SecurityContextConstraints, o.name, ""), f.severity, o.file, false)
            && lib.constraintCheck(o.doc) == Some(f.severity)
  {
  }

  lemma {:induction false} ConstraintsDistinct(o: ObjectData, lib: Library)
    ensures DistinctBy(ConstraintFindings(o, lib), FingerprintOf)
  {
  }

  /** Constraints have no namespace, so those under other keys have other fingerprints. */
  lemma {:induction false} ConstraintUnshadowed(st: Store, lib: Library, k: string, f: Finding)
    requires WellKeyed(st) && k in st.constraints && f in ConstraintFindings(st.constraints[k], lib)
    ensures Unshadowed(st.constraints, ConstraintCheck(lib), k, FingerprintOf(f))
  {
    hide ConstraintFindings;
    var m := st.constraints;
    assert ConstraintKeyed(k, m[k]);
    ConstraintSays(m[k], lib, f);
    forall j, g | j in m && Before(j, k) && g in ConstraintFindings(m[j], lib)
      ensures FingerprintOf(g) != FingerprintOf(f)
    {
      assert ConstraintKeyed(j, m[j]);
      ConstraintSays(m[j], lib, g);
      BeforeTotal(j, k);
      FingerprintInjective(g.id, f.id);
    }
  }

  // ----- pods and workload controllers

  /** Something is due for the pod spec of the document, which is where its kind keeps it. */
  ghost predicate SpecDue(doc: Doc, kind: Kind, rule: RuleId, severity: Severity, upper: Upper) {
    match MapUnder(doc, PodSpecPath(KindText(kind)))
    case Some(podSpec) => PodSpecDue(podSpec, rule, severity, upper)
    case None => false
  }

  ghost predicate PodDueAt(pods: map<string, PodData>, k: string, v: Verdict, upper: Upper) {
    && k in pods && v.id == Identity(v.id.rule, Pod, pods[k].name, pods[k].namespace)
    && SpecDue(pods[k].doc, Pod, v.id.rule, v.severity, upper)
  }

  ghost predicate WorkloadDueAt(workloads: map<string, WorkloadData>, k: string, v: Verdict, upper: Upper) {
    && k in workloads && v.id == Identity(v.id.rule, workloads[k].kind, workloads[k].name, workloads[k].namespace)
    && SpecDue(workloads[k].doc, workloads[k].kind, v.id.rule, v.severity, upper)
  }

  /** The verdict is due for some pod or workload controller of that name. */
  ghost predicate PodDue(st: Store, v: Verdict, upper: Upper) {
    (exists k :: PodDueAt(st.pods, k, v, upper)) || (exists k :: WorkloadDueAt(st.workloads, k, v, upper))
  }

  lemma {:induction false} SpecVerdicts(doc: Doc, owner: Owner, upper: Upper, v: Verdict)
    requires v.id.rule in POD_RULES
    ensures v in Verdicts(WorkloadFindings(doc, owner, upper)) <==>
            v.id == RoleIdentity(v.id.rule, owner) && SpecDue(doc, owner.kind, v.id.rule, v.severity, upper)
  {
    hide WorkloadFindings, PodSpecFindings, PodSpecDue, Verdicts, DistinctBy;
    var fs := WorkloadFindings(doc, owner, upper);
    WorkloadShape(doc, owner, upper);
    InVerdicts(fs, v);
    SpecFindings(doc, owner, upper);
    LoaderMeaning.PodSpecMeaning(doc, owner.kind);
    if PodSpec(doc, owner.kind).Some? {
      PodMeaning.PodSpecMeaning(PodSpec(doc, owner.kind).value, owner, upper, v.id.rule, v.severity);
    }
    SpecFiles(doc, owner, upper);
    if f :| f in fs && VerdictOf(f) == v {
      assert f == NewFinding(v.id.rule, v.severity, owner);
    }
    assert v.id == RoleIdentity(v.id.rule, owner) ==> VerdictOf(NewFinding(v.id.rule, v.severity, owner)) == v;
  }

  lemma {:induction false} SpecFindings(doc: Doc, owner: Owner, upper: Upper)
    ensures WorkloadFindings(doc, owner, upper)
            == if PodSpec(doc, owner.kind).Some? then PodSpecFindings(PodSpec(doc, owner.kind).value, owner, upper)
               else []
  {
  }

  lemma {:induction false} SpecFiles(doc: Doc, owner: Owner, upper: Upper)
    ensures forall f :: f in WorkloadFindings(doc, owner, upper) ==> f == NewFinding(f.id.rule, f.severity, owner)
  {
    hide Containers, AnyPrivileged, HostNamespaces, HostPathSeverity, CapabilitySeverity, FlatMap;
  }

  lemma {:induction false} PodAt(st: Store, lib: Library, v: Verdict, k: string)
    requires v.id.rule in POD_RULES
    ensures v in Verdicts(PodPhase(st, lib)(k)) <==> PodDueAt(st.pods, k, v, lib.upper)
    ensures v in Verdicts(WorkloadPhase(st, lib)(k)) <==> WorkloadDueAt(st.workloads, k, v, lib.upper)
  {
    hide Verdicts, SpecDue, WorkloadFindings;
    InVerdicts([], v);
    if k in st.pods {
      var pod := st.pods[k];
      SpecVerdicts(pod.doc, Owner(Pod, pod.name, pod.namespace, pod.file), lib.upper, v);
    }
    if k in st.workloads {
      var w := st.workloads[k];
      SpecVerdicts(w.doc, Owner(w.kind, w.name, w.namespace, w.file), lib.upper, v);
    }
  }

  lemma {:induction false} PodPart(st: Store, o: Orders, lib: Library, v: Verdict)
    requires Visits(o, st) && v.id.rule in POD_RULES
    ensures v in Verdicts(PodSecurityReport(st, o, lib)) <==> PodDue(st, v, lib.upper)
  {
    hide Verdicts, PodDueAt, WorkloadDueAt, PodPhase, WorkloadPhase, FlatMap;
    VerdictsAppend(FlatMap(o.pods, PodPhase(st, lib)), FlatMap(o.workloads, WorkloadPhase(st, lib)), v);
    VerdictByKey(o.pods, PodPhase(st, lib), v);
    VerdictByKey(o.workloads, WorkloadPhase(st, lib), v);
    forall k
      ensures v in Verdicts(PodPhase(st, lib)(k)) <==> PodDueAt(st.pods, k, v, lib.upper)
      ensures v in Verdicts(WorkloadPhase(st, lib)(k)) <==> WorkloadDueAt(st.workloads, k, v, lib.upper)
      ensures PodDueAt(st.pods, k, v, lib.upper) ==> k in o.pods
      ensures WorkloadDueAt(st.workloads, k, v, lib.upper) ==> k in o.workloads
    {
      PodAt(st, lib, v, k);
      KeysVisited(st, o, lib, v, k);
    }
  }

  lemma {:induction false} KeysVisited(st: Store, o: Orders, lib: Library, v: Verdict, k: string)
    requires Visits(o, st)
    ensures PodDueAt(st.pods, k, v, lib.upper) ==> k in o.pods
    ensures WorkloadDueAt(st.workloads, k, v, lib.upper) ==> k in o.workloads
  {
    hide SpecDue;
  }

  /** KC-019 to KC-022: a whole report says about pods and workload controllers exactly what is due,
      whatever the namespaces. */
  lemma {:induction false} PodVerdictsExact(st: Store, lib: Library, fs: seq<Finding>, v: Verdict)
    requires IsReport(st, lib, fs) && v.id.rule in POD_RULES
    ensures v in Verdicts(fs) <==> PodDue(st, v, lib.upper)
  {
    hide FullReport, Verdicts, PodDue, PodSecurityReport, Visits;
    var o :| Visits(o, st) && fs == FullReport(st, o, lib);
    SameVerdicts(st, o, lib, PodSecurityReport(st, o, lib), v);
    PodPart(st, o, lib, v);
  }

  lemma {:induction false} VerdictsAppend(xs: seq<Finding>, ys: seq<Finding>, v: Verdict)
    ensures v in Verdicts(xs + ys) <==> v in Verdicts(xs) || v in Verdicts(ys)
  {
    FlatMapAppend(xs, ys, VerdictIn);
  }

  lemma {:induction false} VerdictByKey(order: seq<string>, g: string -> seq<Finding>, v: Verdict)
    ensures v in Verdicts(FlatMap(order, g)) <==> exists k :: k in order && v in Verdicts(g(k))
  {
    hide FlatMap, Verdicts;
    var fs := FlatMap(order, g);
    InVerdicts(fs, v);
    if f :| f in fs && VerdictOf(f) == v {
      InFlatMap(order, g, f);
      var k :| k in order && f in g(k);
      InVerdicts(g(k), v);
    }
    if k :| k in order && v in Verdicts(g(k)) {
      InVerdicts(g(k), v);
      var f :| f in g(k) && VerdictOf(f) == v;
      InFlatMap(order, g, f);
    }
  }

  /** Verdicts of a family that belongs to one part are found in that part. */
  lemma {:induction false} SameVerdicts(st: Store, o: Orders, lib: Library, part: seq<Finding>, v: Verdict)
    requires Visits(o, st)
    requires var p := PartsOf(st, o, lib);
             || (WellKeyed(st) && v.id.kind == Service && part == p.services)
             || (WellKeyed(st) && v.id.kind == Ingress && part == p.ingresses)
             || (WellKeyed(st) && v.id.kind == Route && part == p.routes)
             || (v.id.rule in POD_RULES && part == p.pods)
             || (v.id.rule in POLICY_RULES && part == p.policies)
             || (v.id.rule in SECRET_RULES && part == p.secrets)
             || (v.id.rule == PERMISSIVE_SCC && part == p.constraints)
    ensures v in Verdicts(FullReport(st, o, lib)) <==> v in Verdicts(part)
  {
    hide FullReport, PartsOf, Verdicts, WellKeyed, Visits;
    var fs := FullReport(st, o, lib);
    InVerdicts(fs, v);
    InVerdicts(part, v);
    forall f: Finding | VerdictOf(f) == v ensures f in fs <==> f in part {
      if WellKeyed(st) {
        PartOfKind(st, o, lib, f);
      }
      PartOfRule(st, o, lib, f);
    }
  }
}
