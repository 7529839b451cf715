/** Workload -> ServiceAccount -> binding -> role chains (analyzePrivilegeChains in
    pkg/analyzer/analyzer.go). */
module Chains {
  import opened Sequences
  import opened Values
  import opened Models
  import opened Scopes

  datatype SaRef = SaRef(kind: Kind, name: string, namespace: string, account: string, file: string)

  function PodRef(pod: PodData): SaRef {
    SaRef(Pod, pod.name, pod.namespace, pod.serviceAccount, pod.file)
  }

  function WorkloadRef(w: WorkloadData): SaRef {
    SaRef(w.kind, w.name, w.namespace, w.serviceAccount, w.file)
  }

  predicate IsAccount(subject: Doc, account: string, namespace: string) {
    && StringField(subject, "kind") == "ServiceAccount"
    && StringField(subject, "name") == account
    && StringField(subject, "namespace") == namespace
  }

  ghost predicate ReferencesSubject(b: BindingData, account: string, namespace: string) {
    exists s :: s in b.subjects && IsAccount(s, account, namespace)
  }

  method BindingReferencesSubject(b: BindingData, account: string, namespace: string) returns (found: bool)
    ensures found == ReferencesSubject(b, account, namespace)
  {
    for i := 0 to |b.subjects|
      invariant forall s :: s in b.subjects[..i] ==> !IsAccount(s, account, namespace)
    {
      if IsAccount(b.subjects[i], account, namespace) {
        return true;
      }
    }
    return false;
  }

  // ----- what is emitted, before first-wins deduplication

  function AdminFinding(ref: SaRef): Finding {
    NewFinding(CLUSTER_ADMIN_POD, CRITICAL, Owner(ref.kind, ref.name, ref.namespace, ref.file))
  }

  function BindingFinding(b: BindingData): Finding {
    NewFinding(ROLE_BINDING_CLUSTER_REF, WARNING, Owner(RoleBinding, b.name, b.namespace, b.file))
  }

  ghost predicate MakesAdmin(b: BindingData, ref: SaRef) {
    ReferencesSubject(b, ref.account, ref.namespace) && BindsClusterRole(b, "cluster-admin")
  }

  predicate RefersToClusterRole(b: BindingData) {
    RoleRefKind(b) == "ClusterRole"
  }

  ghost function AdminEmissions(ref: SaRef): BindingData -> seq<Finding> {
    b => if MakesAdmin(b, ref) then [AdminFinding(ref)] else []
  }

  ghost function UsedEmissions(ref: SaRef): BindingData -> seq<Finding> {
    b => if ReferencesSubject(b, ref.account, ref.namespace) && RefersToClusterRole(b) then [BindingFinding(b)] else []
  }

  function BindingEmission(b: BindingData): seq<Finding> {
    if RefersToClusterRole(b) then [BindingFinding(b)] else []
  }

  ghost function RefEmissions(crbs: seq<BindingData>, rbs: seq<BindingData>): SaRef -> seq<Finding> {
    ref => FlatMap(crbs, AdminEmissions(ref)) + FlatMap(rbs, UsedEmissions(ref))
  }

  ghost function ChainEmissions(refs: seq<SaRef>, crbs: seq<BindingData>, rbs: seq<BindingData>): seq<Finding> {
    FlatMap(refs, RefEmissions(crbs, rbs)) + FlatMap(rbs, BindingEmission)
  }

  /** The specification of analyzePrivilegeChains for one order of the references. */
  ghost function ChainFindings(refs: seq<SaRef>, crbs: seq<BindingData>, rbs: seq<BindingData>): seq<Finding> {
    FirstBy(ChainEmissions(refs, crbs, rbs), FingerprintOf)
  }

  /** The references of all pods and workloads, in the order the maps are visited. */
  function References(pods: map<string, PodData>, podOrder: seq<string>, workloads: map<string, WorkloadData>,
                      workloadOrder: seq<string>): seq<SaRef>
  {
    FlatMap(podOrder, PodRefs(pods)) + FlatMap(workloadOrder, WorkloadRefs(workloads))
  }

  function PodRefs(pods: map<string, PodData>): string -> seq<SaRef> {
    k => if k in pods then [PodRef(pods[k])] else []
  }

  function WorkloadRefs(workloads: map<string, WorkloadData>): string -> seq<SaRef> {
    k => if k in workloads then [WorkloadRef(workloads[k])] else []
  }

  // ----- the analysis itself

  method CollectReferences(resources: LoadedResources)
    returns (refs: seq<SaRef>, ghost podOrder: seq<string>, ghost workloadOrder: seq<string>)
    ensures Enumerates(podOrder, resources.pods.Keys) && Enumerates(workloadOrder, resources.workloads.Keys)
    ensures refs == References(resources.pods, podOrder, resources.workloads, workloadOrder)
  {
    hide FlatMap;
    var pods, workloads := resources.pods, resources.workloads;
    refs, podOrder, workloadOrder := [], [], [];
    FlatMapNone(PodRefs(pods));
    FlatMapNone(WorkloadRefs(workloads));
    var left := pods.Keys;
    while left != {}
      invariant left <= pods.Keys && Enumerates(podOrder, pods.Keys - left)
      invariant refs == FlatMap(podOrder, PodRefs(pods))
      decreases left
    {
      var k :| k in left;
      FlatMapSnoc(podOrder, k, PodRefs(pods));
      refs := refs + [PodRef(pods[k])];
      left, podOrder := left - {k}, podOrder + [k];
    }
    ghost var podPart := refs;
    left := workloads.Keys;
    while left != {}
      invariant left <= workloads.Keys && Enumerates(workloadOrder, workloads.Keys - left)
      invariant refs == podPart + FlatMap(workloadOrder, WorkloadRefs(workloads))
      decreases left
    {
      var k :| k in left;
      FlatMapSnoc(workloadOrder, k, WorkloadRefs(workloads));
      refs := refs + [WorkloadRef(workloads[k])];
      left, workloadOrder := left - {k}, workloadOrder + [k];
    }
  }

  method AnalyzePrivilegeChains(resources: LoadedResources)
    returns (findings: seq<Finding>, ghost podOrder: seq<string>, ghost workloadOrder: seq<string>)
    ensures Enumerates(podOrder, resources.pods.Keys) && Enumerates(workloadOrder, resources.workloads.Keys)
    ensures findings == ChainFindings(References(resources.pods, podOrder, resources.workloads, workloadOrder),
                                      resources.clusterRoleBindings, resources.roleBindings)
  {
    hide FirstBy, RefEmissions, FlatMap, References;
    var refs: seq<SaRef>;
    refs, podOrder, workloadOrder := CollectReferences(resources);
    var crbs, rbs := resources.clusterRoleBindings, resources.roleBindings;
    findings := [];
    ghost var emitted: seq<Finding> := [];
    NothingEmitted();
    FlatMapNone(RefEmissions(crbs, rbs));
    assert refs[..0] == [];
    for i := 0 to |refs|
      invariant emitted == FlatMap(refs[..i], RefEmissions(crbs, rbs))
      invariant findings == FirstBy(emitted, FingerprintOf)
    {
      FlatMapSnoc(refs[..i], refs[i], RefEmissions(crbs, rbs));
      assert refs[..i + 1] == refs[..i] + [refs[i]];
      findings := ChainsOf(refs[i], crbs, rbs, findings, emitted);
      emitted := emitted + RefEmissions(crbs, rbs)(refs[i]);
    }
    assert refs[..|refs|] == refs;
    findings := BindingLevel(rbs, findings, emitted);
  }

  /** The last loop: role bindings are reported whether or not a pod or workload uses them. */
  method BindingLevel(rbs: seq<BindingData>, findings: seq<Finding>, ghost emitted: seq<Finding>)
    returns (r: seq<Finding>)
    requires findings == FirstBy(emitted, FingerprintOf)
    ensures r == FirstBy(emitted + FlatMap(rbs, BindingEmission), FingerprintOf)
  {
    hide FirstBy, RoleRefKind;
    r := findings;
    ghost var done: seq<Finding> := [];
    assert emitted + done == emitted;
    for i := 0 to |rbs|
      invariant done == FlatMap(rbs[..i], BindingEmission)
      invariant r == FirstBy(emitted + done, FingerprintOf)
    {
      FlatMapSnoc(rbs[..i], rbs[i], BindingEmission);
      assert rbs[..i + 1] == rbs[..i] + [rbs[i]];
      if RoleRefKind(rbs[i]) == "ClusterRole" {
        r := EmitNew(r, BindingFinding(rbs[i]), emitted + done);
        assert emitted + done + [BindingFinding(rbs[i])] == emitted + (done + [BindingFinding(rbs[i])]);
        done := done + [BindingFinding(rbs[i])];
      }
    }
    assert rbs[..|rbs|] == rbs;
  }

  lemma {:induction false} NothingEmitted()
    ensures FirstBy<Finding, string>([], FingerprintOf) == []
  {
  }

  /** The two inner loops for one reference. */
  method ChainsOf(ref: SaRef, crbs: seq<BindingData>, rbs: seq<BindingData>, findings: seq<Finding>,
                  ghost emitted: seq<Finding>)
    returns (r: seq<Finding>)
    requires findings == FirstBy(emitted, FingerprintOf)
    ensures r == FirstBy(emitted + RefEmissions(crbs, rbs)(ref), FingerprintOf)
  {
    hide FirstBy, FlatMap, AdminEmissions, UsedEmissions;
    r := AdminChains(ref, crbs, findings, emitted);
    ghost var admin := FlatMap(crbs, AdminEmissions(ref));
    r := UsedBindings(ref, rbs, r, emitted + admin);
    assert emitted + admin + FlatMap(rbs, UsedEmissions(ref)) == emitted + (admin + FlatMap(rbs, UsedEmissions(ref)));
  }

  method AdminChains(ref: SaRef, crbs: seq<BindingData>, findings: seq<Finding>, ghost emitted: seq<Finding>)
    returns (r: seq<Finding>)
    requires findings == FirstBy(emitted, FingerprintOf)
    ensures r == FirstBy(emitted + FlatMap(crbs, AdminEmissions(ref)), FingerprintOf)
  {
    hide FirstBy, ReferencesSubject, RoleRefName, RoleRefKind;
    r := findings;
    ghost var done: seq<Finding> := [];
    assert emitted + done == emitted;
    for i := 0 to |crbs|
      invariant done == FlatMap(crbs[..i], AdminEmissions(ref))
      invariant r == FirstBy(emitted + done, FingerprintOf)
    {
      FlatMapSnoc(crbs[..i], crbs[i], AdminEmissions(ref));
      assert crbs[..i + 1] == crbs[..i] + [crbs[i]];
      var referenced := BindingReferencesSubject(crbs[i], ref.account, ref.namespace);
      if !referenced {
        continue;
      }
      if RoleRefKind(crbs[i]) == "ClusterRole" && RoleRefName(crbs[i]) == "cluster-admin" {
        r := EmitNew(r, AdminFinding(ref), emitted + done);
        assert emitted + done + [AdminFinding(ref)] == emitted + (done + [AdminFinding(ref)]);
        done := done + [AdminFinding(ref)];
      }
    }
    assert crbs[..|crbs|] == crbs;
  }

  method UsedBindings(ref: SaRef, rbs: seq<BindingData>, findings: seq<Finding>, ghost emitted: seq<Finding>)
    returns (r: seq<Finding>)
    requires findings == FirstBy(emitted, FingerprintOf)
    ensures r == FirstBy(emitted + FlatMap(rbs, UsedEmissions(ref)), FingerprintOf)
  {
    hide FirstBy, ReferencesSubject, RoleRefKind;
    r := findings;
    ghost var done: seq<Finding> := [];
    assert emitted + done == emitted;
    for i := 0 to |rbs|
      invariant done == FlatMap(rbs[..i], UsedEmissions(ref))
      invariant r == FirstBy(emitted + done, FingerprintOf)
    {
      FlatMapSnoc(rbs[..i], rbs[i], UsedEmissions(ref));
      assert rbs[..i + 1] == rbs[..i] + [rbs[i]];
      var referenced := BindingReferencesSubject(rbs[i], ref.account, ref.namespace);
      if !referenced {
        continue;
      }
      if RoleRefKind(rbs[i]) == "ClusterRole" {
        r := EmitNew(r, BindingFinding(rbs[i]), emitted + done);
        assert emitted + done + [BindingFinding(rbs[i])] == emitted + (done + [BindingFinding(rbs[i])]);
        done := done + [BindingFinding(rbs[i])];
      }
    }
    assert rbs[..|rbs|] == rbs;
  }

  // ----- the relational join

  ghost predicate IsAdminIdentity(id: Identity, refs: seq<SaRef>, crbs: seq<BindingData>) {
    exists ref, b :: ref in refs && b in crbs && MakesAdmin(b, ref) && id == AdminFinding(ref).id
  }

  ghost predicate IsBindingIdentity(id: Identity, rbs: seq<BindingData>) {
    exists b :: b in rbs && RefersToClusterRole(b) && id == BindingFinding(b).id
  }

  lemma {:induction false} RefEmissionsExact(ref: SaRef, crbs: seq<BindingData>, rbs: seq<BindingData>, f: Finding)
    ensures f in RefEmissions(crbs, rbs)(ref) <==>
            || (f == AdminFinding(ref) && exists b :: b in crbs && MakesAdmin(b, ref))
            || (exists b :: b in rbs && ReferencesSubject(b, ref.account, ref.namespace) && RefersToClusterRole(b)
                            && f == BindingFinding(b))
  {
    hide FlatMap, MakesAdmin, ReferencesSubject, RefersToClusterRole, AdminFinding, BindingFinding;
    InFlatMap(crbs, AdminEmissions(ref), f);
    InFlatMap(rbs, UsedEmissions(ref), f);
    assert forall b :: f in AdminEmissions(ref)(b) <==> MakesAdmin(b, ref) && f == AdminFinding(ref);
    assert forall b :: f in UsedEmissions(ref)(b) <==>
        ReferencesSubject(b, ref.account, ref.namespace) && RefersToClusterRole(b) && f == BindingFinding(b);
  }

  /** Everything emitted, before deduplication, is the union of the two joins. */
  lemma {:induction false} EmissionsExact(refs: seq<SaRef>, crbs: seq<BindingData>, rbs: seq<BindingData>, f: Finding)
    ensures f in ChainEmissions(refs, crbs, rbs) <==>
            || (exists ref, b :: ref in refs && b in crbs && MakesAdmin(b, ref) && f == AdminFinding(ref))
            || (exists b :: b in rbs && RefersToClusterRole(b) && f == BindingFinding(b))
  {
    hide FlatMap, MakesAdmin, ReferencesSubject, RefersToClusterRole, AdminFinding, BindingFinding, RefEmissions;
    InFlatMap(refs, RefEmissions(crbs, rbs), f);
    InFlatMap(rbs, BindingEmission, f);
    forall ref ensures f in RefEmissions(crbs, rbs)(ref) <==>
        || (f == AdminFinding(ref) && exists b :: b in crbs && MakesAdmin(b, ref))
        || (exists b :: b in rbs && ReferencesSubject(b, ref.account, ref.namespace) && RefersToClusterRole(b)
                        && f == BindingFinding(b))
    {
      RefEmissionsExact(ref, crbs, rbs, f);
    }
    assert forall b :: f in BindingEmission(b) <==> RefersToClusterRole(b) && f == BindingFinding(b);
  }

  ghost predicate ChainWithin(refs: seq<SaRef>, rbs: seq<BindingData>, ns: iset<string>) {
    (forall ref :: ref in refs ==> Placed(ref.kind, ref.namespace, ns)) && (forall b :: b in rbs ==> b.namespace in ns)
  }

  /** KC-013 is due for the pods and workloads whose ServiceAccount a cluster role binding makes
      cluster-admin, KC-014 for the role bindings that refer to a cluster role. */
  ghost predicate ChainDue(v: Verdict, refs: seq<SaRef>, crbs: seq<BindingData>, rbs: seq<BindingData>) {
    || (v.severity == CRITICAL && IsAdminIdentity(v.id, refs, crbs))
    || (v.severity == WARNING && IsBindingIdentity(v.id, rbs))
  }

  lemma {:induction false} DueIsEmitted(v: Verdict, refs: seq<SaRef>, crbs: seq<BindingData>, rbs: seq<BindingData>)
    ensures ChainDue(v, refs, crbs, rbs) <==>
            exists f :: f in ChainEmissions(refs, crbs, rbs) && VerdictOf(f) == v
  {
    hide MakesAdmin, RefersToClusterRole, ChainEmissions;
    if f :| f in ChainEmissions(refs, crbs, rbs) && VerdictOf(f) == v {
      EmissionsExact(refs, crbs, rbs, f);
    }
    if v.severity == CRITICAL && IsAdminIdentity(v.id, refs, crbs) {
      var ref, b :| ref in refs && b in crbs && MakesAdmin(b, ref) && v.id == AdminFinding(ref).id;
      EmissionsExact(refs, crbs, rbs, AdminFinding(ref));
    }
    if v.severity == WARNING && IsBindingIdentity(v.id, rbs) {
      var b :| b in rbs && RefersToClusterRole(b) && v.id == BindingFinding(b).id;
      EmissionsExact(refs, crbs, rbs, BindingFinding(b));
    }
  }

  /** Chain analysis reports only what is due, and everything that is due up to its fingerprint, whatever
      pods, workloads and namespaces there are. Where namespaces do not collide it is the relational
      join, once per identity. */
  lemma {:induction false} ChainsAreTheJoin(refs: seq<SaRef>, crbs: seq<BindingData>, rbs: seq<BindingData>,
                                            v: Verdict, ns: iset<string>)
    ensures v in Verdicts(ChainFindings(refs, crbs, rbs)) ==> ChainDue(v, refs, crbs, rbs)
    ensures ChainDue(v, refs, crbs, rbs)
            ==> exists w :: w in Verdicts(ChainFindings(refs, crbs, rbs)) && StandsFor(w, v)
    ensures Apart(ns) && ChainWithin(refs, rbs, ns)
            ==> (v in Verdicts(ChainFindings(refs, crbs, rbs)) <==> ChainDue(v, refs, crbs, rbs))
  {
    hide FirstBy, ChainDue, ChainEmissions, FlatMap, Apart, ChainWithin, ChainFindings, StandsFor;
    var kept := ChainFindings(refs, crbs, rbs);
    InFlatMap(kept, VerdictIn, v);
    DueIsEmitted(v, refs, crbs, rbs);
    KeptIsEmitted(refs, crbs, rbs);
    if f :| f in ChainEmissions(refs, crbs, rbs) && VerdictOf(f) == v {
      var g := Survivor(refs, crbs, rbs, f, ns);
      InFlatMap(kept, VerdictIn, VerdictOf(g));
      assert VerdictOf(g) in VerdictIn(g);
    }
  }

  lemma {:induction false} KeptIsEmitted(refs: seq<SaRef>, crbs: seq<BindingData>, rbs: seq<BindingData>)
    ensures forall f :: f in ChainFindings(refs, crbs, rbs) ==> f in ChainEmissions(refs, crbs, rbs)
  {
    hide ChainEmissions;
    FirstByMember(ChainEmissions(refs, crbs, rbs), FingerprintOf);
  }

  /** The verdict has the fingerprint and the severity of the other one. */
  ghost predicate StandsFor(w: Verdict, v: Verdict) {
    w.id.Fingerprint() == v.id.Fingerprint() && w.severity == v.severity
  }

  /** The severity of a chain finding is a function of its rule. */
  function ChainSeverity(rule: RuleId): Severity {
    if rule == CLUSTER_ADMIN_POD then CRITICAL else WARNING
  }

  lemma {:induction false} EmissionShape(refs: seq<SaRef>, crbs: seq<BindingData>, rbs: seq<BindingData>, f: Finding,
                                         ns: iset<string>)
    requires f in ChainEmissions(refs, crbs, rbs)
    ensures f.severity == ChainSeverity(f.id.rule) && f.id.rule in {CLUSTER_ADMIN_POD, ROLE_BINDING_CLUSTER_REF}
    ensures !f.suppressed
    ensures ChainWithin(refs, rbs, ns) ==> Placed(f.id.kind, f.id.namespace, ns)
  {
    hide MakesAdmin, RefersToClusterRole, ChainEmissions;
    EmissionsExact(refs, crbs, rbs, f);
    if ref, b :| ref in refs && b in crbs && MakesAdmin(b, ref) && f == AdminFinding(ref) {
    } else {
      var b :| b in rbs && RefersToClusterRole(b) && f == BindingFinding(b);
    }
  }

  /** Deduplication keeps a finding with the fingerprint and severity of every emission; where
      namespaces do not collide, with its identity. */
  lemma {:induction false} Survivor(refs: seq<SaRef>, crbs: seq<BindingData>, rbs: seq<BindingData>, f: Finding,
                                    ns: iset<string>) returns (g: Finding)
    requires f in ChainEmissions(refs, crbs, rbs)
    ensures g in ChainFindings(refs, crbs, rbs) && StandsFor(VerdictOf(g), VerdictOf(f))
    ensures Apart(ns) && ChainWithin(refs, rbs, ns) ==> VerdictOf(g) == VerdictOf(f)
  {
    hide FirstBy, MakesAdmin, RefersToClusterRole, ChainEmissions, Apart;
    var all := ChainEmissions(refs, crbs, rbs);
    FirstByKeys(all, FingerprintOf, FingerprintOf(f));
    FirstByMember(all, FingerprintOf);
    g :| g in FirstBy(all, FingerprintOf) && FingerprintOf(g) == FingerprintOf(f);
    EmissionShape(refs, crbs, rbs, f, ns);
    EmissionShape(refs, crbs, rbs, g, ns);
    FingerprintRule(f.id, g.id);
    if Apart(ns) && ChainWithin(refs, rbs, ns) {
      PlacedInjective(f.id, g.id, ns);
    }
  }

  /** No fingerprint repeats among chain findings, whatever the namespaces look like. */
  lemma {:induction false} ChainsDistinct(refs: seq<SaRef>, crbs: seq<BindingData>, rbs: seq<BindingData>)
    ensures DistinctBy(ChainFindings(refs, crbs, rbs), FingerprintOf)
  {
    FirstByDistinct(ChainEmissions(refs, crbs, rbs), FingerprintOf);
  }
}
