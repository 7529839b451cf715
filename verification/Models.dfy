/** Findings, severities and the records the loader produces (pkg/models/models.go). */
module Models {
  import opened Sequences
  import opened Values

  // ----- severities and rule IDs

  type Severity = s: int | 0 <= s <= 3 witness 0

  const INFO: Severity := 0
  const WARNING: Severity := 1
  const HIGH: Severity := 2
  const CRITICAL: Severity := 3

  /** Rule number n stands for the ID "KC-0nn". */
  type RuleId = n: int | 1 <= n <= 31 witness 1

  const WILDCARD_RESOURCES: RuleId := 1
  const WILDCARD_VERBS: RuleId := 2
  const ESCALATE_VERB: RuleId := 3
  const IMPERSONATE_VERB: RuleId := 4
  const BIND_VERB: RuleId := 5
  const SECRETS_ACCESS: RuleId := 6
  const PODS_EXEC_ATTACH: RuleId := 7
  const NODES_ACCESS: RuleId := 8
  const PV_ACCESS: RuleId := 9
  const RBAC_MODIFICATION: RuleId := 10
  const ESCALATION_BINDINGS: RuleId := 11
  const ESCALATION_POD_CREATION: RuleId := 12
  const CLUSTER_ADMIN_POD: RuleId := 13
  const ROLE_BINDING_CLUSTER_REF: RuleId := 14
  const AGGREGATED_CLUSTER_ROLE: RuleId := 15
  const NETWORK_POLICY_ACCESS: RuleId := 16
  const NETWORK_POLICY_INGRESS: RuleId := 17
  const NETWORK_POLICY_EGRESS: RuleId := 18
  const PRIVILEGED_CONTAINER: RuleId := 19
  const HOST_NAMESPACE: RuleId := 20
  const HOST_PATH: RuleId := 21
  const DANGEROUS_CAPABILITIES: RuleId := 22
  const SCC_USE: RuleId := 23
  const PERMISSIVE_SCC: RuleId := 24
  const EXTERNAL_SERVICE: RuleId := 25
  const UNENCRYPTED_ROUTE: RuleId := 26
  const BROAD_EXTERNAL_ROUTE: RuleId := 27
  const CREDENTIAL_SECRET: RuleId := 28
  const SERVICE_ACCOUNT_TOKEN_SECRET: RuleId := 29
  const SERVICE_ACCOUNT_TOKEN_ACCESS: RuleId := 30
  const CSR_APPROVAL: RuleId := 31

  function Digit(n: int): char
    requires 0 <= n <= 9
  {
    '0' + n as char
  }

  function RuleText(rule: RuleId): string {
    ['K', 'C', '-', '0', Digit(rule / 10), Digit(rule % 10)]
  }

  lemma {:induction false} RuleTextInjective(a: RuleId, b: RuleId)
    requires RuleText(a) == RuleText(b)
    ensures a == b
  {
    assert RuleText(a)[4] == RuleText(b)[4] && RuleText(a)[5] == RuleText(b)[5];
  }

  lemma {:induction false} RuleTexts(rule: RuleId)
    ensures RuleText(rule) == [
              "KC-001", "KC-002", "KC-003", "KC-004", "KC-005", "KC-006", "KC-007", "KC-008", "KC-009", "KC-010",
              "KC-011", "KC-012", "KC-013", "KC-014", "KC-015", "KC-016", "KC-017", "KC-018", "KC-019", "KC-020",
              "KC-021", "KC-022", "KC-023", "KC-024", "KC-025", "KC-026", "KC-027", "KC-028", "KC-029", "KC-030",
              "KC-031"][rule - 1]
  {
    assert Digit(0) == '0' && Digit(1) == '1' && Digit(2) == '2' && Digit(3) == '3' && Digit(4) == '4';
    assert Digit(5) == '5' && Digit(6) == '6' && Digit(7) == '7' && Digit(8) == '8' && Digit(9) == '9';
  }

  // ----- resource kinds

  /** The kinds the loader knows; every other kind text is ignored. */
  datatype Kind = ClusterRole | Role | ClusterRoleBinding | RoleBinding | ServiceAccount | Service | Ingress | Route
                | Secret | Pod | NetworkPolicy | SecurityContextConstraints | Deployment | DaemonSet | StatefulSet
                | Job | CronJob | ReplicaSet | ReplicationController | DeploymentConfig

  function KindText(kind: Kind): string {
    match kind
    case ClusterRole => "ClusterRole"
    case Role => "Role"
    case ClusterRoleBinding => "ClusterRoleBinding"
    case RoleBinding => "RoleBinding"
    case ServiceAccount => "ServiceAccount"
    case Service => "Service"
    case Ingress => "Ingress"
    case Route => "Route"
    case Secret => "Secret"
    case Pod => "Pod"
    case NetworkPolicy => "NetworkPolicy"
    case SecurityContextConstraints => "SecurityContextConstraints"
    case Deployment => "Deployment"
    case DaemonSet => "DaemonSet"
    case StatefulSet => "StatefulSet"
    case Job => "Job"
    case CronJob => "CronJob"
    case ReplicaSet => "ReplicaSet"
    case ReplicationController => "ReplicationController"
    case DeploymentConfig => "DeploymentConfig"
  }

  const ALL_KINDS: seq<Kind> :=
    [ClusterRole, Role, ClusterRoleBinding, RoleBinding, ServiceAccount, Service, Ingress, Route, Secret, Pod,
     NetworkPolicy, SecurityContextConstraints, Deployment, DaemonSet, StatefulSet, Job, CronJob, ReplicaSet,
     ReplicationController, DeploymentConfig]

  function KindAmong(text: string, kinds: seq<Kind>): Option<Kind> {
    if kinds == [] then None
    else if KindText(kinds[0]) == text then Some(kinds[0])
    else KindAmong(text, kinds[1..])
  }

  /** The case of the loader's switch that a kind text selects. */
  function ParseKind(text: string): Option<Kind> {
    KindAmong(text, ALL_KINDS)
  }

  lemma {:induction false} KindTextInjective(a: Kind, b: Kind)
    ensures KindText(a) == KindText(b) <==> a == b
  {
    // length and first letter already tell the kinds apart
    assert |KindText(a)| == |KindText(b)| && KindText(a)[0] == KindText(b)[0] ==> a == b;
  }

  lemma {:induction false} KindTextPlain(kind: Kind)
    ensures BarFree(KindText(kind))
  {
    if IsWorkload(kind) {
      WorkloadTextPlain(kind);
    }
  }

  lemma {:induction false} WorkloadTextPlain(kind: Kind)
    requires IsWorkload(kind)
    ensures BarFree(KindText(kind))
  {
  }

  lemma {:induction false} KindAmongExact(text: string, kinds: seq<Kind>, kind: Kind)
    ensures KindAmong(text, kinds) == Some(kind) <==> kind in kinds && KindText(kind) == text
  {
    if kinds == [] {
    } else {
      KindTextInjective(kind, kinds[0]);
      KindAmongExact(text, kinds[1..], kind);
    }
  }

  lemma {:induction false} ParseKindExact(text: string, kind: Kind)
    ensures ParseKind(text) == Some(kind) <==> KindText(kind) == text
  {
    KindAmongExact(text, ALL_KINDS, kind);
    assert kind in ALL_KINDS;
  }

  predicate IsWorkload(kind: Kind) {
    kind in {Deployment, DaemonSet, StatefulSet, Job, CronJob, ReplicaSet, ReplicationController, DeploymentConfig}
  }

  // ----- findings

  datatype Identity = Identity(rule: RuleId, kind: Kind, name: string, namespace: string) {
    /** The text whose SHA-256 is the fingerprint; the hash is taken to be injective, so the text
        itself stands for it. */
    function Fingerprint(): string {
      RuleText(rule) + "|" + Resource()
    }

    function Resource(): string {
      KindText(kind) + "|" + (name + "|" + namespace)
    }
  }

  datatype Finding = Finding(id: Identity, severity: Severity, file: string, suppressed: bool)

  datatype Verdict = Verdict(id: Identity, severity: Severity)

  /** The resource a finding is about. */
  datatype Owner = Owner(kind: Kind, name: string, namespace: string, file: string)

  function NewFinding(rule: RuleId, severity: Severity, owner: Owner): Finding {
    Finding(Identity(rule, owner.kind, owner.name, owner.namespace), severity, owner.file, false)
  }

  function FingerprintOf(f: Finding): string {
    f.id.Fingerprint()
  }

  function VerdictOf(f: Finding): Verdict {
    Verdict(f.id, f.severity)
  }

  function VerdictIn(f: Finding): seq<Verdict> {
    [VerdictOf(f)]
  }

  function IdIn(f: Finding): seq<Identity> {
    [f.id]
  }

  function Ids(findings: seq<Finding>): seq<Identity> {
    FlatMap(findings, IdIn)
  }

  function Verdicts(findings: seq<Finding>): seq<Verdict> {
    FlatMap(findings, VerdictIn)
  }

  method AppendIfNew(findings: seq<Finding>, f: Finding) returns (r: seq<Finding>)
    ensures r == if HasKey(findings, FingerprintOf, FingerprintOf(f)) then findings else findings + [f]
  {
    hide FingerprintOf;
    for i := 0 to |findings|
      invariant forall j :: 0 <= j < i ==> FingerprintOf(findings[j]) != FingerprintOf(f)
    {
      if FingerprintOf(findings[i]) == FingerprintOf(f) {
        assert findings[i] in findings;
        return findings;
      }
    }
    return findings + [f];
  }

  /** Appends with first-wins deduplication, keeping track of everything emitted so far. */
  method EmitNew(findings: seq<Finding>, f: Finding, ghost emitted: seq<Finding>) returns (r: seq<Finding>)
    requires findings == FirstBy(emitted, FingerprintOf)
    ensures r == FirstBy(emitted + [f], FingerprintOf)
  {
    FirstBySnoc(emitted, f, FingerprintOf);
    r := AppendIfNew(findings, f);
  }

  predicate BarFree(s: string) {
    '|' !in s
  }

  /** The namespace ends with '|' and the other one, so that resources in them can share a fingerprint. */
  predicate EndsWithBarred(namespace: string, other: string) {
    HasSuffix(namespace, "|" + other)
  }

  /** No namespace of the set ends with '|' and another one. */
  ghost predicate Apart(ns: iset<string>) {
    forall s, t :: s in ns && t in ns ==> !EndsWithBarred(s, t)
  }

  /** Namespaces without '|', which all ordinary ones are, are apart. */
  lemma {:induction false} OrdinaryApart(ns: iset<string>)
    requires forall s :: s in ns ==> BarFree(s)
    ensures Apart(ns)
  {
    forall s, t | s in ns && t in ns ensures !EndsWithBarred(s, t) {
      SuffixHoldsBar(s, t);
    }
  }

  lemma {:induction false} SuffixHoldsBar(s: string, t: string)
    ensures EndsWithBarred(s, t) ==> !BarFree(s)
  {
    if EndsWithBarred(s, t) {
      assert s[|s| - |t| - 1] == ("|" + t)[0];
    }
  }

  predicate NamespacedKind(kind: Kind) {
    kind !in {ClusterRole, ClusterRoleBinding, SecurityContextConstraints}
  }

  /** Resources of namespaced kinds are in one of the namespaces, the others in none. */
  ghost predicate Placed(kind: Kind, namespace: string, ns: iset<string>) {
    if NamespacedKind(kind) then namespace in ns else namespace == ""
  }

  /** The text that is hashed. */
  lemma {:induction false} FingerprintLayout(id: Identity)
    ensures id.Fingerprint() == RuleText(id.rule) + "|" + KindText(id.kind) + "|" + id.name + "|" + id.namespace
  {
    var rule, kind := RuleText(id.rule) + "|", KindText(id.kind) + "|";
    assert rule + (kind + (id.name + "|" + id.namespace)) == rule + kind + (id.name + "|" + id.namespace);
  }

  lemma {:induction false} FixedCut(left: string, right: string, left': string, right': string)
    requires |left| == |left'| && left + right == left' + right'
    ensures left == left' && right == right'
  {
    assert left == (left + right)[..|left|] && left' == (left' + right')[..|left'|];
    assert right == (left + right)[|left|..] && right' == (left' + right')[|left'|..];
  }

  /** The rule of a finding can always be read back from its fingerprint. */
  lemma {:induction false} FingerprintRule(a: Identity, b: Identity)
    requires a.Fingerprint() == b.Fingerprint()
    ensures a.rule == b.rule
    ensures a.Resource() == b.Resource()
  {
    FixedCut(RuleText(a.rule) + "|", a.Resource(), RuleText(b.rule) + "|", b.Resource());
    FixedCut(RuleText(a.rule), "|", RuleText(b.rule), "|");
    RuleTextInjective(a.rule, b.rule);
  }

  lemma {:induction false} SuffixFromCollision(n: string, s: string, m: string, t: string)
    requires n + "|" + s == m + "|" + t && |s| < |t|
    ensures EndsWithBarred(t, s)
  {
    var a, b := n + "|" + s, m + "|" + t;
    var tail := "|" + s;
    assert a[|a| - |tail|..] == tail;
    assert b[|b| - |tail|..] == t[|t| - |tail|..];
  }

  lemma {:induction false} SameLengthSame(n: string, s: string, m: string, t: string)
    requires n + "|" + s == m + "|" + t && |s| == |t|
    ensures n == m && s == t
  {
    FixedCut(n + "|", s, m + "|", t);
    FixedCut(n, "|", m, "|");
  }

  lemma {:induction false} ResourceParts(a: Identity, b: Identity)
    requires a.Resource() == b.Resource()
    ensures a.kind == b.kind && a.name + "|" + a.namespace == b.name + "|" + b.namespace
  {
    KindTextPlain(a.kind);
    KindTextPlain(b.kind);
    KindTextInjective(a.kind, b.kind);
    hide KindText, BarFree;
    FirstCutUnique('|', KindText(a.kind), a.name + "|" + a.namespace, KindText(b.kind), b.name + "|" + b.namespace);
  }

  /** Unless one namespace ends with '|' and the other, the fingerprint determines the whole identity,
      whatever the resource names hold. */
  lemma {:induction false} FingerprintInjective(a: Identity, b: Identity)
    requires a.kind == b.kind ==> !EndsWithBarred(a.namespace, b.namespace) && !EndsWithBarred(b.namespace, a.namespace)
    ensures a.Fingerprint() == b.Fingerprint() <==> a == b
  {
    if a.Fingerprint() == b.Fingerprint() {
      FingerprintRule(a, b);
      ResourceParts(a, b);
      hide EndsWithBarred;
      if |a.namespace| < |b.namespace| {
        SuffixFromCollision(a.name, a.namespace, b.name, b.namespace);
      } else if |b.namespace| < |a.namespace| {
        SuffixFromCollision(b.name, b.namespace, a.name, a.namespace);
      } else {
        SameLengthSame(a.name, a.namespace, b.name, b.namespace);
      }
    }
  }

  lemma {:induction false} PlacedInjective(a: Identity, b: Identity, ns: iset<string>)
    requires Apart(ns) && Placed(a.kind, a.namespace, ns) && Placed(b.kind, b.namespace, ns)
    ensures a.Fingerprint() == b.Fingerprint() <==> a == b
  {
    FingerprintInjective(a, b);
  }

  /** Every namespace that holds a '|' lets two different resources share a fingerprint. */
  lemma {:induction false} BarredNamespaceCollides(rule: RuleId, kind: Kind, name: string, left: string, right: string)
    ensures var a := Identity(rule, kind, name, left + "|" + right);
            var b := Identity(rule, kind, name + "|" + left, right);
            a.Fingerprint() == b.Fingerprint() && a != b
  {
    assert |name + "|" + left| > |name|;
    assert name + "|" + (left + "|" + right) == (name + "|" + left) + "|" + right;
  }

  // ----- loaded records

  datatype BindingScope = BindingScope(
    clusterWide: bool,
    namespaceScoped: bool,
    unbound: bool,
    clusterBindings: seq<string>,
    roleBindings: seq<string>,
    subjectTypes: map<string, nat>)

  datatype ClusterRoleData = ClusterRoleData(rules: seq<Doc>, file: string, doc: Doc)
  datatype RoleData = RoleData(rules: seq<Doc>, namespace: string, file: string, doc: Doc)
  /** A missing roleRef is a nil map, which reads like an empty one. */
  datatype BindingData = BindingData(name: string, namespace: string, roleRef: Doc, subjects: seq<Doc>,
                                     file: string)
  /** Service accounts, network policies, SCCs, services, ingresses, routes and secrets. */
  datatype ObjectData = ObjectData(name: string, namespace: string, file: string, doc: Doc)
  datatype PodData = PodData(name: string, namespace: string, serviceAccount: string, file: string, doc: Doc)
  datatype WorkloadData = WorkloadData(name: string, kind: Kind, namespace: string, serviceAccount: string,
                                       file: string, doc: Doc)

  datatype Store = Store(
    clusterRoles: map<string, ClusterRoleData>,
    roles: map<string, RoleData>,
    clusterRoleBindings: seq<BindingData>,
    roleBindings: seq<BindingData>,
    serviceAccounts: map<string, ObjectData>,
    pods: map<string, PodData>,
    workloads: map<string, WorkloadData>,
    networkPolicies: map<string, ObjectData>,
    constraints: map<string, ObjectData>,
    services: map<string, ObjectData>,
    ingresses: map<string, ObjectData>,
    routes: map<string, ObjectData>,
    secrets: map<string, ObjectData>)

  const EMPTY_STORE := Store(map[], map[], [], [], map[], map[], map[], map[], map[], map[], map[], map[], map[])

  function Key(namespace: string, name: string): string {
    namespace + "/" + name
  }

  ghost predicate AllEntries<T>(m: map<string, T>, ok: (string, T) -> bool) {
    forall k :: k in m ==> ok(k, m[k])
  }

  lemma {:induction false} AllEntriesUpdate<T>(m: map<string, T>, key: string, x: T, ok: (string, T) -> bool)
    requires AllEntries(m, ok) && ok(key, x)
    ensures AllEntries(m[key := x], ok)
  {
  }

  predicate ObjectKeyed(key: string, record: ObjectData) {
    key == Key(record.namespace, record.name)
  }

  predicate ConstraintKeyed(key: string, record: ObjectData) {
    key == record.name
  }

  /** The name part of the key follows the namespace. */
  predicate RoleKeyed(key: string, role: RoleData) {
    HasPrefix(key, Key(role.namespace, ""))
  }

  predicate PodKeyed(key: string, pod: PodData) {
    key == Key(pod.namespace, pod.name)
  }

  predicate WorkloadKeyed(key: string, workload: WorkloadData) {
    key == KindText(workload.kind) + "/" + Key(workload.namespace, workload.name) && IsWorkload(workload.kind)
  }

  /** Every record sits under the key its own name, namespace and kind prescribe. */
  ghost predicate WellKeyed(st: Store) {
    && AllEntries(st.roles, RoleKeyed) && AllEntries(st.pods, PodKeyed) && AllEntries(st.workloads, WorkloadKeyed)
    && AllEntries(st.networkPolicies, ObjectKeyed) && AllEntries(st.services, ObjectKeyed)
    && AllEntries(st.ingresses, ObjectKeyed) && AllEntries(st.routes, ObjectKeyed)
    && AllEntries(st.secrets, ObjectKeyed) && AllEntries(st.serviceAccounts, ObjectKeyed)
    && AllEntries(st.constraints, ConstraintKeyed)
  }

  ghost function RoleIn(ns: iset<string>): (string, RoleData) -> bool {
    (key: string, role: RoleData) => role.namespace in ns
  }

  ghost function PodIn(ns: iset<string>): (string, PodData) -> bool {
    (key: string, pod: PodData) => pod.namespace in ns
  }

  ghost function WorkloadIn(ns: iset<string>): (string, WorkloadData) -> bool {
    (key: string, workload: WorkloadData) => Placed(workload.kind, workload.namespace, ns)
  }

  ghost function ObjectIn(ns: iset<string>): (string, ObjectData) -> bool {
    (key: string, record: ObjectData) => record.namespace in ns
  }

  /** Every resource of a namespaced kind that can be reported is in one of the namespaces. */
  ghost predicate NamespacesIn(st: Store, ns: iset<string>) {
    && AllEntries(st.roles, RoleIn(ns)) && AllEntries(st.pods, PodIn(ns))
    && AllEntries(st.workloads, WorkloadIn(ns)) && AllEntries(st.networkPolicies, ObjectIn(ns))
    && AllEntries(st.services, ObjectIn(ns)) && AllEntries(st.ingresses, ObjectIn(ns))
    && AllEntries(st.routes, ObjectIn(ns)) && AllEntries(st.secrets, ObjectIn(ns))
    && (forall b :: b in st.roleBindings ==> b.namespace in ns)
  }

  /** A store as the loader fills it, with namespaces in which no two resources share a fingerprint. */
  ghost predicate Orderly(st: Store, ns: iset<string>) {
    WellKeyed(st) && NamespacesIn(st, ns) && Apart(ns)
  }

  ghost predicate Within<T>(small: map<string, T>, large: map<string, T>) {
    forall k :: k in small ==> k in large && large[k] == small[k]
  }

  /** A store that has everything another one has: more records under fresh keys, more bindings. */
  ghost predicate Extends(small: Store, large: Store) {
    && Within(small.clusterRoles, large.clusterRoles) && Within(small.roles, large.roles)
    && multiset(small.clusterRoleBindings) <= multiset(large.clusterRoleBindings)
    && multiset(small.roleBindings) <= multiset(large.roleBindings)
    && Within(small.serviceAccounts, large.serviceAccounts) && Within(small.pods, large.pods)
    && Within(small.workloads, large.workloads) && Within(small.networkPolicies, large.networkPolicies)
    && Within(small.constraints, large.constraints) && Within(small.services, large.services)
    && Within(small.ingresses, large.ingresses) && Within(small.routes, large.routes)
    && Within(small.secrets, large.secrets)
  }

  /** Equal maps, and binding lists that agree up to order. */
  ghost predicate SameUpToBindingOrder(a: Store, b: Store) {
    && a == b.(clusterRoleBindings := a.clusterRoleBindings, roleBindings := a.roleBindings)
    && multiset(a.clusterRoleBindings) == multiset(b.clusterRoleBindings)
    && multiset(a.roleBindings) == multiset(b.roleBindings)
  }

  /** The store the loader fills in place. */
  class LoadedResources {
    var clusterRoles: map<string, ClusterRoleData>
    var roles: map<string, RoleData>
    var clusterRoleBindings: seq<BindingData>
    var roleBindings: seq<BindingData>
    var serviceAccounts: map<string, ObjectData>
    var pods: map<string, PodData>
    var workloads: map<string, WorkloadData>
    var networkPolicies: map<string, ObjectData>
    var constraints: map<string, ObjectData>
    var services: map<string, ObjectData>
    var ingresses: map<string, ObjectData>
    var routes: map<string, ObjectData>
    var secrets: map<string, ObjectData>

    ghost function Contents(): Store
      reads this
    {
      Store(clusterRoles, roles, clusterRoleBindings, roleBindings, serviceAccounts, pods, workloads,
            networkPolicies, constraints, services, ingresses, routes, secrets)
    }

    constructor ()
      ensures Contents() == EMPTY_STORE
    {
      clusterRoles, roles, clusterRoleBindings, roleBindings := map[], map[], [], [];
      serviceAccounts, pods, workloads, networkPolicies := map[], map[], map[], map[];
      constraints, services, ingresses, routes, secrets := map[], map[], map[], map[], map[];
    }

    function IsEmpty(): bool
      reads this
      ensures IsEmpty() <==> Contents() == EMPTY_STORE
    {
      && |clusterRoles| == 0 && |roles| == 0 && |clusterRoleBindings| == 0 && |roleBindings| == 0
      && |serviceAccounts| == 0 && |pods| == 0 && |workloads| == 0 && |networkPolicies| == 0
      && |constraints| == 0 && |services| == 0 && |ingresses| == 0 && |routes| == 0 && |secrets| == 0
    }
  }
}
