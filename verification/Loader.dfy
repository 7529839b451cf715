/** Routing of parsed documents into the store (pkg/loader/loader.go). */
module Loader {
  import opened Values
  import opened Models
  import opened PodSpecs

  /** A document that is not a Kubernetes List, with the file it came from. */
  datatype Leaf = Leaf(doc: Doc, file: string)

  datatype Table = ClusterRoles | Roles | ServiceAccounts | Pods | Workloads | NetworkPolicies | Constraints
                 | Services | Ingresses | Routes | Secrets

  /** The place a leaf is written to. */
  datatype Slot = Nowhere | ClusterBindingList | BindingList | Cell(table: Table, key: string)

  datatype Entry = ClusterRoleEntry(clusterRole: ClusterRoleData) | RoleEntry(role: RoleData)
                 | ObjectEntry(record: ObjectData)
                 | PodEntry(pod: PodData) | WorkloadEntry(workload: WorkloadData)

  function KindNameOf(doc: Doc): string {
    StringField(doc, "kind")
  }

  predicate IsList(doc: Doc) {
    HasSuffix(KindNameOf(doc), "List")
  }

  // ----- flattening nested Lists

  function Leaves(v: Value, file: string): seq<Leaf>
    decreases v, 0
  {
    match v
    case Map(doc) =>
      if !IsList(doc) then [Leaf(doc, file)]
      else if "items" in doc && doc["items"].List? then LeavesOfAll(doc["items"].items, file)
      else []
    case _ => []
  }

  function LeavesOfAll(items: seq<Value>, file: string): seq<Leaf>
    decreases items, 1
  {
    if items == [] then []
    else LeavesOfAll(items[..|items| - 1], file) + Leaves(items[|items| - 1], file)
  }

  // ----- what one leaf contributes

  function NamedNamespace(doc: Doc): string {
    StringField(MapField(doc, "metadata"), "namespace")
  }

  function NameOf(doc: Doc): string {
    StringField(MapField(doc, "metadata"), "name")
  }

  function NamespaceOf(doc: Doc, kind: Kind): string {
    if NamedNamespace(doc) == "" && NamespacedKind(kind) then "default" else NamedNamespace(doc)
  }

  /** The only apiVersion under which a kind is read; None when the loader does not look. */
  function RequiredApiVersion(kind: Kind): Option<string> {
    match kind
    case Service | Secret | Pod | ReplicationController => Some("v1")
    case Ingress | NetworkPolicy => Some("networking.k8s.io/v1")
    case Route => Some("route.openshift.io/v1")
    case SecurityContextConstraints => Some("security.openshift.io/v1")
    case Deployment | DaemonSet | StatefulSet | ReplicaSet => Some("apps/v1")
    case Job | CronJob => Some("batch/v1")
    case DeploymentConfig => Some("apps.openshift.io/v1")
    case _ => None
  }

  function KeyedSlot(kind: Kind, namespace: string, name: string): Slot {
    match kind
    case ClusterRoleBinding => ClusterBindingList
    case RoleBinding => BindingList
    case ClusterRole => Cell(ClusterRoles, name)
    case SecurityContextConstraints => Cell(Constraints, name)
    case Role => Cell(Roles, Key(namespace, name))
    case ServiceAccount => Cell(ServiceAccounts, Key(namespace, name))
    case Service => Cell(Services, Key(namespace, name))
    case Ingress => Cell(Ingresses, Key(namespace, name))
    case Route => Cell(Routes, Key(namespace, name))
    case Secret => Cell(Secrets, Key(namespace, name))
    case Pod => Cell(Pods, Key(namespace, name))
    case NetworkPolicy => Cell(NetworkPolicies, Key(namespace, name))
    case _ => Cell(Workloads, KindText(kind) + "/" + Key(namespace, name))
  }

  /** Only the apiVersion that a kind requires is read. */
  predicate Versioned(kind: Kind, doc: Doc) {
    RequiredApiVersion(kind) == None || RequiredApiVersion(kind) == Some(StringField(doc, "apiVersion"))
  }

  function SlotFor(kind: Kind, doc: Doc): Slot {
    KeyedSlot(kind, NamespaceOf(doc, kind), NameOf(doc))
  }

  /** The kind of a leaf that the loader looks at: known, and with a metadata map. */
  function ReadableKind(doc: Doc): Option<Kind> {
    if Field(doc, "metadata").Map? then ParseKind(KindNameOf(doc)) else None
  }

  function SlotOf(doc: Doc): Slot {
    match ReadableKind(doc)
    case None => Nowhere
    case Some(kind) => if Versioned(kind, doc) then SlotFor(kind, doc) else Nowhere
  }

  function BindingOf(leaf: Leaf, namespace: string): BindingData {
    BindingData(NameOf(leaf.doc), namespace, MapField(leaf.doc, "roleRef"),
                MapItems(Field(leaf.doc, "subjects")), leaf.file)
  }

  function ClusterRoleOf(leaf: Leaf): ClusterRoleData {
    ClusterRoleData(MapItems(Field(leaf.doc, "rules")), leaf.file, leaf.doc)
  }

  function RoleOf(leaf: Leaf): RoleData {
    RoleData(MapItems(Field(leaf.doc, "rules")), NamespaceOf(leaf.doc, Role), leaf.file, leaf.doc)
  }

  function PodOf(leaf: Leaf): PodData {
    var doc := leaf.doc;
    PodData(NameOf(doc), NamespaceOf(doc, Pod), ServiceAccountName(doc, Pod), leaf.file, doc)
  }

  function WorkloadOf(kind: Kind, leaf: Leaf): WorkloadData {
    var doc := leaf.doc;
    WorkloadData(NameOf(doc), kind, NamespaceOf(doc, kind), ServiceAccountName(doc, kind), leaf.file, doc)
  }

  function EntryOf(kind: Kind, leaf: Leaf): Entry {
    match kind
    case ClusterRole => ClusterRoleEntry(ClusterRoleOf(leaf))
    case Role => RoleEntry(RoleOf(leaf))
    case SecurityContextConstraints => ObjectEntry(ObjectData(NameOf(leaf.doc), "", leaf.file, leaf.doc))
    case ServiceAccount | Service | Ingress | Route | Secret | NetworkPolicy =>
      ObjectEntry(ObjectData(NameOf(leaf.doc), NamespaceOf(leaf.doc, kind), leaf.file, leaf.doc))
    case Pod => PodEntry(PodOf(leaf))
    case _ => WorkloadEntry(WorkloadOf(kind, leaf))
  }

  // ----- the store as eleven tables and two lists

  function AsClusterRole(x: ClusterRoleData): Entry {
    ClusterRoleEntry(x)
  }

  function AsRole(x: RoleData): Entry {
    RoleEntry(x)
  }

  function AsObject(x: ObjectData): Entry {
    ObjectEntry(x)
  }

  function AsPod(x: PodData): Entry {
    PodEntry(x)
  }

  function AsWorkload(x: WorkloadData): Entry {
    WorkloadEntry(x)
  }

  function EntryAt<T>(m: map<string, T>, key: string, wrap: T -> Entry): Option<Entry> {
    if key in m then Some(wrap(m[key])) else None
  }

  function Lookup(st: Store, table: Table, key: string): Option<Entry> {
    match table
    case ClusterRoles => EntryAt(st.clusterRoles, key, AsClusterRole)
    case Roles => EntryAt(st.roles, key, AsRole)
    case ServiceAccounts => EntryAt(st.serviceAccounts, key, AsObject)
    case Pods => EntryAt(st.pods, key, AsPod)
    case Workloads => EntryAt(st.workloads, key, AsWorkload)
    case NetworkPolicies => EntryAt(st.networkPolicies, key, AsObject)
    case Constraints => EntryAt(st.constraints, key, AsObject)
    case Services => EntryAt(st.services, key, AsObject)
    case Ingresses => EntryAt(st.ingresses, key, AsObject)
    case Routes => EntryAt(st.routes, key, AsObject)
    case Secrets => EntryAt(st.secrets, key, AsObject)
  }

  function Put(st: Store, leaf: Leaf): Store {
    match ReadableKind(leaf.doc)
    case None => st
    case Some(kind) => if Versioned(kind, leaf.doc) then PutKind(st, kind, leaf) else st
  }

  function PutKind(st: Store, kind: Kind, leaf: Leaf): Store {
    var name, namespace := NameOf(leaf.doc), NamespaceOf(leaf.doc, kind);
    var key, record := Key(namespace, name), ObjectData(name, namespace, leaf.file, leaf.doc);
    match kind
    case ClusterRole => st.(clusterRoles := st.clusterRoles[name := ClusterRoleOf(leaf)])
    case Role => st.(roles := st.roles[key := RoleOf(leaf)])
    case ClusterRoleBinding => st.(clusterRoleBindings := st.clusterRoleBindings + [BindingOf(leaf, "")])
    case RoleBinding => st.(roleBindings := st.roleBindings + [BindingOf(leaf, namespace)])
    case ServiceAccount => st.(serviceAccounts := st.serviceAccounts[key := record])
    case Service => st.(services := st.services[key := record])
    case Ingress => st.(ingresses := st.ingresses[key := record])
    case Route => st.(routes := st.routes[key := record])
    case Secret => st.(secrets := st.secrets[key := record])
    case NetworkPolicy => st.(networkPolicies := st.networkPolicies[key := record])
    case SecurityContextConstraints => st.(constraints := st.constraints[name := record.(namespace := "")])
    case Pod => st.(pods := st.pods[key := PodOf(leaf)])
    case _ => st.(workloads := st.workloads[KindText(kind) + "/" + key := WorkloadOf(kind, leaf)])
  }

  function PutAll(st: Store, leaves: seq<Leaf>): Store {
    if leaves == [] then st else Put(PutAll(st, leaves[..|leaves| - 1]), leaves[|leaves| - 1])
  }

  // ----- the loader itself

  method Categorize(doc: Doc, file: string, result: LoadedResources)
    modifies result
    ensures result.Contents() == PutAll(old(result.Contents()), Leaves(Map(doc), file))
    decreases Map(doc)
  {
    var kind := KindNameOf(doc);
    ghost var before := result.Contents();
    if HasSuffix(kind, "List") {
      if "items" in doc && doc["items"].List? {
        var items := doc["items"].items;
        assert doc["items"] < Map(doc);
        for i := 0 to |items|
          invariant result.Contents() == PutAll(before, LeavesOfAll(items[..i], file))
        {
          assert items[..i + 1][..i] == items[..i];
          if items[i].Map? {
            PutAllAppend(before, LeavesOfAll(items[..i], file), Leaves(items[i], file));
            Categorize(items[i].fields, file, result);
          } else {
            assert LeavesOfAll(items[..i + 1], file) == LeavesOfAll(items[..i], file);
          }
        }
        assert items[..|items|] == items;
      }
      return;
    }
    PutAllOne(before, Leaf(doc, file));
    match ReadableKind(doc) {
      case None =>
      case Some(known) =>
        if Versioned(known, doc) {
          StoreLeaf(known, doc, file, result);
        }
    }
  }

  /** The switch over kinds at the end of categorize. */
  method StoreLeaf(kind: Kind, doc: Doc, file: string, result: LoadedResources)
    modifies result
    ensures result.Contents() == PutKind(old(result.Contents()), kind, Leaf(doc, file))
  {
    hide NameOf, NamespaceOf, Key, KindText, ServiceAccountName, Field, MapField, MapItems;
    var name, namespace := NameOf(doc), NamespaceOf(doc, kind);
    var key := Key(namespace, name);
    match kind {
      case ClusterRole =>
        var rules := ToMapSlice(Field(doc, "rules"));
        result.clusterRoles := result.clusterRoles[name := ClusterRoleData(rules, file, doc)];
      case Role =>
        var rules := ToMapSlice(Field(doc, "rules"));
        result.roles := result.roles[key := RoleData(rules, namespace, file, doc)];
      case ClusterRoleBinding =>
        var binding := ExtractBinding(doc, name, "", file);
        result.clusterRoleBindings := result.clusterRoleBindings + [binding];
      case RoleBinding =>
        var binding := ExtractBinding(doc, name, namespace, file);
        result.roleBindings := result.roleBindings + [binding];
      case ServiceAccount | Service | Ingress | Route | Secret | NetworkPolicy | SecurityContextConstraints =>
        StoreObject(kind, doc, file, result);
      case Pod =>
        result.pods := result.pods[key := PodData(name, namespace, ServiceAccountName(doc, kind), file, doc)];
      case _ =>
        var workload := WorkloadData(name, kind, namespace, ServiceAccountName(doc, kind), file, doc);
        result.workloads := result.workloads[KindText(kind) + "/" + key := workload];
    }
  }

  /** The cases of the switch that store the document as it is. */
  method StoreObject(kind: Kind, doc: Doc, file: string, result: LoadedResources)
    requires kind in {ServiceAccount, Service, Ingress, Route, Secret, NetworkPolicy, SecurityContextConstraints}
    modifies result
    ensures result.Contents() == PutKind(old(result.Contents()), kind, Leaf(doc, file))
  {
    hide NameOf, NamespaceOf, Key, KindText;
    var name, namespace := NameOf(doc), NamespaceOf(doc, kind);
    var key, record := Key(namespace, name), ObjectData(name, namespace, file, doc);
    match kind {
      case ServiceAccount => result.serviceAccounts := result.serviceAccounts[key := record];
      case Service => result.services := result.services[key := record];
      case Ingress => result.ingresses := result.ingresses[key := record];
      case Route => result.routes := result.routes[key := record];
      case Secret => result.secrets := result.secrets[key := record];
      case NetworkPolicy => result.networkPolicies := result.networkPolicies[key := record];
      case SecurityContextConstraints =>
        result.constraints := result.constraints[name := record.(namespace := "")];
    }
  }

  method ExtractBinding(doc: Doc, name: string, namespace: string, file: string) returns (binding: BindingData)
    ensures binding == BindingData(name, namespace, MapField(doc, "roleRef"), MapItems(Field(doc, "subjects")), file)
  {
    var subjects := ToMapSlice(Field(doc, "subjects"));
    binding := BindingData(name, namespace, MapField(doc, "roleRef"), subjects, file);
  }

  lemma {:induction false} PutAllOne(st: Store, leaf: Leaf)
    ensures PutAll(st, [leaf]) == Put(st, leaf)
    ensures PutAll(st, []) == st
  {
    assert [leaf][..0] == [];
  }

  /** Loading is a homomorphism from concatenation of leaves to composition of updates. */
  lemma {:induction false} PutAllAppend(st: Store, xs: seq<Leaf>, ys: seq<Leaf>)
    ensures PutAll(st, xs + ys) == PutAll(PutAll(st, xs), ys)
  {
    if ys == [] {
      assert xs + ys == xs;
    } else {
      assert (xs + ys)[..|xs + ys| - 1] == xs + ys[..|ys| - 1];
      PutAllAppend(st, xs, ys[..|ys| - 1]);
    }
  }
}
