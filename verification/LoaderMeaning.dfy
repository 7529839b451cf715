/** What the loader does with a document, in the words of the manifest. */
module LoaderMeaning {
  import opened Sequences
  import opened Values
  import opened Models
  import opened Documents
  import opened PodSpecs
  import opened Loader

  // ----- which documents are read

  const ANY_VERSION := {"ClusterRole", "Role", "ClusterRoleBinding", "RoleBinding", "ServiceAccount"}

  /** The kinds that are read under one apiVersion only. */
  const VERSIONED := {
    ("Service", "v1"), ("Secret", "v1"), ("Pod", "v1"), ("ReplicationController", "v1"),
    ("Ingress", "networking.k8s.io/v1"), ("NetworkPolicy", "networking.k8s.io/v1"),
    ("Route", "route.openshift.io/v1"), ("SecurityContextConstraints", "security.openshift.io/v1"),
    ("Deployment", "apps/v1"), ("DaemonSet", "apps/v1"), ("StatefulSet", "apps/v1"), ("ReplicaSet", "apps/v1"),
    ("Job", "batch/v1"), ("CronJob", "batch/v1"), ("DeploymentConfig", "apps.openshift.io/v1")
  }

  const CONTROLLERS := {"Deployment", "DaemonSet", "StatefulSet", "Job", "CronJob", "ReplicaSet",
                        "ReplicationController", "DeploymentConfig"}

  /** The document has a metadata map and a kind and apiVersion that the loader reads. */
  predicate IsRead(doc: Doc) {
    && MapAt(doc, "metadata").Some?
    && (TextAt(doc, "kind") in ANY_VERSION || (TextAt(doc, "kind"), TextAt(doc, "apiVersion")) in VERSIONED)
  }

  /** The name in the metadata. */
  function NameIn(doc: Doc): string {
    match MapAt(doc, "metadata") case Some(m) => TextAt(m, "name") case None => ""
  }

  /** The namespace in the metadata, "default" when there is none. */
  function NamespaceIn(doc: Doc): string {
    match MapAt(doc, "metadata")
    case Some(m) => if TextAt(m, "namespace") == "" then "default" else TextAt(m, "namespace")
    case None => "default"
  }

  // ----- the account a pod runs with

  /** The map at the end of a path of maps. */
  function MapUnder(doc: Doc, path: seq<string>): Option<Doc>
    decreases |path|
  {
    if path == [] then Some(doc)
    else match MapAt(doc, path[0]) case Some(m) => MapUnder(m, path[1..]) case None => None
  }

  /** Where a document of the kind keeps its pod spec. */
  function PodSpecPath(kind: string): seq<string> {
    if kind == "Pod" then ["spec"]
    else if kind == "CronJob" then ["spec", "jobTemplate", "spec", "template", "spec"]
    else ["spec", "template", "spec"]
  }

  /** The account a pod spec names: serviceAccountName before serviceAccount before "default". */
  function AccountNamed(podSpec: Option<Doc>): string {
    match podSpec
    case None => "default"
    case Some(spec) =>
      if TextAt(spec, "serviceAccountName") != "" then TextAt(spec, "serviceAccountName")
      else if TextAt(spec, "serviceAccount") != "" then TextAt(spec, "serviceAccount")
      else "default"
  }

  function AccountIn(doc: Doc): string {
    AccountNamed(MapUnder(doc, PodSpecPath(TextAt(doc, "kind"))))
  }

  lemma {:induction false} PathSteps(doc: Doc)
    ensures MapUnder(doc, ["spec"]) == MapAt(doc, "spec")
    ensures MapUnder(doc, ["spec", "template", "spec"]) ==
            match MapAt(doc, "spec") case None => None case Some(spec) => MapUnder(spec, ["template", "spec"])
    ensures MapUnder(doc, ["template", "spec"]) ==
            match MapAt(doc, "template") case None => None case Some(template) => MapAt(template, "spec")
    ensures MapUnder(doc, ["spec", "jobTemplate", "spec", "template", "spec"]) ==
            match MapAt(doc, "spec") case None => None
            case Some(spec) => match MapAt(spec, "jobTemplate") case None => None
            case Some(job) => MapUnder(job, ["spec", "template", "spec"])
  {
    hide MapAt;
    assert ["spec"][1..] == [] && ["template", "spec"][1..] == ["spec"];
    assert ["spec", "template", "spec"][1..] == ["template", "spec"];
    assert ["spec", "jobTemplate", "spec", "template", "spec"][1..] == ["jobTemplate", "spec", "template", "spec"];
    assert ["jobTemplate", "spec", "template", "spec"][1..] == ["spec", "template", "spec"];
  }

  /** The pod spec is read from where the kind keeps it. */
  lemma {:induction false} PodSpecMeaning(doc: Doc, kind: Kind)
    ensures PodSpec(doc, kind) == MapUnder(doc, PodSpecPath(KindText(kind)))
  {
    hide MapAt, MapUnder, SubMap, MapField, KindText;
    KindTextOf(kind);
    PathSteps(doc);
    ReadMap(doc, "spec");
    if MapAt(doc, "spec").Some? {
      var spec := MapAt(doc, "spec").value;
      PathSteps(spec);
      ReadMap(spec, "jobTemplate");
      ReadMap(spec, "template");
      if MapAt(spec, "template").Some? {
        ReadMap(MapAt(spec, "template").value, "spec");
      }
      if kind == CronJob {
        JobSpec(spec, kind);
      }
    }
  }

  lemma {:induction false} KindTextOf(kind: Kind)
    ensures KindText(kind) == "Pod" <==> kind == Pod
    ensures KindText(kind) == "CronJob" <==> kind == CronJob
  {
    ParseKindExact("Pod", kind);
    ParseKindExact("CronJob", kind);
    KindTextInjective(kind, Pod);
    KindTextInjective(kind, CronJob);
  }

  /** A CronJob has its template one level further down. */
  lemma {:induction false} JobSpec(spec: Doc, kind: Kind)
    requires kind == CronJob
    ensures TemplateSpec(spec, kind) ==
            match MapAt(spec, "jobTemplate") case None => None
            case Some(job) => MapUnder(job, ["spec", "template", "spec"])
  {
    hide MapUnder;
    ReadMap(spec, "jobTemplate");
    match MapAt(spec, "jobTemplate") {
      case None =>
      case Some(job) =>
        ReadMap(job, "spec");
        PathSteps(job);
        if MapAt(job, "spec").Some? {
          var inner := MapAt(job, "spec").value;
          PathSteps(inner);
          ReadMap(inner, "template");
          if MapAt(inner, "template").Some? {
            ReadMap(MapAt(inner, "template").value, "spec");
          }
        }
    }
  }

  lemma {:induction false} AccountMeaning(doc: Doc, kind: Kind)
    ensures ServiceAccountName(doc, kind) == AccountNamed(MapUnder(doc, PodSpecPath(KindText(kind))))
  {
    hide PodSpec, MapUnder, KindText, StringField, TextAt;
    PodSpecMeaning(doc, kind);
    match PodSpec(doc, kind) {
      case None =>
      case Some(spec) =>
        ReadText(spec, "serviceAccountName");
        ReadText(spec, "serviceAccount");
    }
  }

  // ----- what a document adds to the store

  /** The store after a document that is not a List. */
  function Stored(st: Store, doc: Doc, file: string): Store {
    var kind, name, namespace := TextAt(doc, "kind"), NameIn(doc), NamespaceIn(doc);
    var key, record := namespace + "/" + name, ObjectData(name, namespace, file, doc);
    if !IsRead(doc) then st
    else if kind == "ClusterRole" then
      st.(clusterRoles := st.clusterRoles[name := ClusterRoleData(MapItems(Field(doc, "rules")), file, doc)])
    else if kind == "Role" then
      st.(roles := st.roles[key := RoleData(MapItems(Field(doc, "rules")), namespace, file, doc)])
    else if kind == "ClusterRoleBinding" then
      st.(clusterRoleBindings := st.clusterRoleBindings + [BindingFrom(doc, name, "", file)])
    else if kind == "RoleBinding" then
      st.(roleBindings := st.roleBindings + [BindingFrom(doc, name, namespace, file)])
    else if kind == "ServiceAccount" then st.(serviceAccounts := st.serviceAccounts[key := record])
    else if kind == "Service" then st.(services := st.services[key := record])
    else if kind == "Ingress" then st.(ingresses := st.ingresses[key := record])
    else if kind == "Route" then st.(routes := st.routes[key := record])
    else if kind == "Secret" then st.(secrets := st.secrets[key := record])
    else if kind == "NetworkPolicy" then st.(networkPolicies := st.networkPolicies[key := record])
    else if kind == "SecurityContextConstraints" then
      st.(constraints := st.constraints[name := ObjectData(name, "", file, doc)])
    else if kind == "Pod" then
      st.(pods := st.pods[key := PodData(name, namespace, AccountIn(doc), file, doc)])
    else
      st.(workloads := st.workloads[kind + "/" + key :=
                                      WorkloadData(name, ControllerKind(kind), namespace, AccountIn(doc), file, doc)])
  }

  function BindingFrom(doc: Doc, name: string, namespace: string, file: string): BindingData {
    BindingData(name, namespace, match MapAt(doc, "roleRef") case Some(m) => m case None => map[],
                MapItems(Field(doc, "subjects")), file)
  }

  function ControllerKind(kind: string): Kind {
    if kind == "Deployment" then Deployment else if kind == "DaemonSet" then DaemonSet
    else if kind == "StatefulSet" then StatefulSet else if kind == "Job" then Job
    else if kind == "CronJob" then CronJob else if kind == "ReplicaSet" then ReplicaSet
    else if kind == "ReplicationController" then ReplicationController else DeploymentConfig
  }

  // ----- the loader does that

  /** The twenty kinds and their texts. */
  lemma {:induction false} KindTexts()
    ensures KindText(ClusterRole) == "ClusterRole" && KindText(Role) == "Role"
    ensures KindText(ClusterRoleBinding) == "ClusterRoleBinding" && KindText(RoleBinding) == "RoleBinding"
    ensures KindText(ServiceAccount) == "ServiceAccount" && KindText(Service) == "Service"
    ensures KindText(Ingress) == "Ingress" && KindText(Route) == "Route" && KindText(Secret) == "Secret"
    ensures KindText(Pod) == "Pod" && KindText(NetworkPolicy) == "NetworkPolicy"
    ensures KindText(SecurityContextConstraints) == "SecurityContextConstraints"
    ensures KindText(Deployment) == "Deployment" && KindText(DaemonSet) == "DaemonSet"
    ensures KindText(StatefulSet) == "StatefulSet" && KindText(Job) == "Job" && KindText(CronJob) == "CronJob"
    ensures KindText(ReplicaSet) == "ReplicaSet" && KindText(ReplicationController) == "ReplicationController"
    ensures KindText(DeploymentConfig) == "DeploymentConfig"
  {
  }

  lemma {:induction false} ReadKindText(doc: Doc)
    ensures match ParseKind(TextAt(doc, "kind"))
            case Some(kind) => TextAt(doc, "kind") == KindText(kind)
            case None => forall kind :: TextAt(doc, "kind") != KindText(kind)
  {
    hide KindText, TextAt;
    forall kind ensures ParseKind(TextAt(doc, "kind")) == Some(kind) <==> KindText(kind) == TextAt(doc, "kind") {
      ParseKindExact(TextAt(doc, "kind"), kind);
    }
  }

  lemma {:induction false} VersionMeaning(doc: Doc, kind: Kind)
    requires TextAt(doc, "kind") == KindText(kind)
    ensures Versioned(kind, doc) <==>
            TextAt(doc, "kind") in ANY_VERSION || (TextAt(doc, "kind"), TextAt(doc, "apiVersion")) in VERSIONED
  {
    hide KindText, TextAt;
    KindTexts();
    ReadText(doc, "apiVersion");
  }

  lemma {:induction false} UnknownKind(doc: Doc)
    requires forall kind :: TextAt(doc, "kind") != KindText(kind)
    ensures !IsRead(doc)
  {
    hide KindText, TextAt;
    KindTexts();
    var kind := TextAt(doc, "kind");
    assert kind != KindText(ClusterRole) && kind != KindText(Role) && kind != KindText(ClusterRoleBinding)
        && kind != KindText(RoleBinding) && kind != KindText(ServiceAccount) && kind != KindText(Service)
        && kind != KindText(Ingress) && kind != KindText(Route) && kind != KindText(Secret) && kind != KindText(Pod)
        && kind != KindText(NetworkPolicy) && kind != KindText(SecurityContextConstraints)
        && kind != KindText(Deployment) && kind != KindText(DaemonSet) && kind != KindText(StatefulSet)
        && kind != KindText(Job) && kind != KindText(CronJob) && kind != KindText(ReplicaSet)
        && kind != KindText(ReplicationController) && kind != KindText(DeploymentConfig);
  }

  /** The loader takes a document for one of a kind when it is read and has the kind's text. */
  lemma {:induction false} ReadMeaning(doc: Doc, kind: Kind)
    ensures ReadableKind(doc) == Some(kind) && Versioned(kind, doc)
            <==> IsRead(doc) && TextAt(doc, "kind") == KindText(kind)
  {
    hide KindText, TextAt, Versioned, ParseKind;
    ReadText(doc, "kind");
    ReadMap(doc, "metadata");
    ParseKindExact(TextAt(doc, "kind"), kind);
    if TextAt(doc, "kind") == KindText(kind) {
      VersionMeaning(doc, kind);
    }
  }

  lemma {:induction false} ReadMetadata(doc: Doc, kind: Kind)
    requires MapAt(doc, "metadata").Some?
    ensures Field(doc, "metadata").Map? && NameOf(doc) == NameIn(doc)
    ensures kind !in {ClusterRole, ClusterRoleBinding, SecurityContextConstraints}
            ==> NamespaceOf(doc, kind) == NamespaceIn(doc)
  {
    hide TextAt, StringField;
    ReadMap(doc, "metadata");
    ReadText(MapAt(doc, "metadata").value, "name");
    ReadText(MapAt(doc, "metadata").value, "namespace");
  }

  lemma {:induction false} StoredKind(st: Store, kind: Kind, doc: Doc, file: string)
    requires IsRead(doc) && TextAt(doc, "kind") == KindText(kind)
    ensures PutKind(st, kind, Leaf(doc, file)) == Stored(st, doc, file)
  {
    hide KindText, TextAt, NameOf, NamespaceOf, NameIn, NamespaceIn, IsRead, MapItems, AccountIn, ServiceAccountName;
    KindTexts();
    assert MapAt(doc, "metadata").Some? by {
      HasMetadata(doc);
    }
    ReadMetadata(doc, kind);
    ReadMap(doc, "roleRef");
    AccountSame(doc, kind);
  }

  lemma {:induction false} HasMetadata(doc: Doc)
    requires IsRead(doc)
    ensures MapAt(doc, "metadata").Some?
  {
  }

  lemma {:induction false} AccountSame(doc: Doc, kind: Kind)
    requires TextAt(doc, "kind") == KindText(kind)
    ensures ServiceAccountName(doc, kind) == AccountIn(doc)
  {
    AccountMeaning(doc, kind);
  }

  /** One document that is not a List does to the store exactly what its kind, apiVersion and metadata
      say. */
  lemma {:induction false} PutMeaning(st: Store, doc: Doc, file: string)
    ensures Put(st, Leaf(doc, file)) == Stored(st, doc, file)
  {
    hide KindText, TextAt, PutKind, Stored, Versioned, ParseKind;
    ReadText(doc, "kind");
    ReadMap(doc, "metadata");
    ReadKindText(doc);
    if MapAt(doc, "metadata").Some? && ParseKind(TextAt(doc, "kind")).Some? {
      var kind := ParseKind(TextAt(doc, "kind")).value;
      VersionMeaning(doc, kind);
      if IsRead(doc) {
        StoredKind(st, kind, doc, file);
      } else {
        NotStored(st, doc, file);
      }
    } else {
      if ParseKind(TextAt(doc, "kind")).None? {
        UnknownKind(doc);
      }
      NotStored(st, doc, file);
    }
  }

  lemma {:induction false} NotStored(st: Store, doc: Doc, file: string)
    requires !IsRead(doc)
    ensures Stored(st, doc, file) == st
  {
  }

  // ----- Lists

  /** The kind ends in "List", as "List" itself and typed lists such as "RoleBindingList" do. */
  predicate IsListText(kind: string) {
    |kind| >= 4 && kind[|kind| - 4..] == "List"
  }

  lemma {:induction false} ListMeaning(doc: Doc)
    ensures IsList(doc) <==> IsListText(TextAt(doc, "kind"))
  {
    ReadText(doc, "kind");
  }

  /** The leaves of the maps among the items. */
  function ItemLeaves(file: string): Value -> seq<Leaf> {
    (item: Value) => if item.Map? then Leaves(item, file) else []
  }

  lemma {:induction false} LeavesOfItems(items: seq<Value>, file: string)
    ensures LeavesOfAll(items, file) == FlatMap(items, ItemLeaves(file))
  {
    if items == [] {
    } else {
      LeavesOfItems(items[..|items| - 1], file);
    }
  }

  /** A document is a leaf of its own unless its kind ends in "List"; then its leaves are those of the maps
      among its items, in order. */
  lemma {:induction false} LeavesMeaning(doc: Doc, file: string)
    ensures Leaves(Map(doc), file) ==
            if !IsListText(TextAt(doc, "kind")) then [Leaf(doc, file)]
            else if "items" in doc && doc["items"].List? then FlatMap(doc["items"].items, ItemLeaves(file))
            else []
  {
    hide IsListText, IsList, TextAt, FlatMap;
    ListMeaning(doc);
    if "items" in doc && doc["items"].List? {
      LeavesOfItems(doc["items"].items, file);
    }
  }
}
