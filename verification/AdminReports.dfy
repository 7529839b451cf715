/** From documents to KC-013: a workload whose account is made cluster-admin is always reported. */
module AdminReports {
  import opened Values
  import opened Models
  import opened Documents
  import opened PodSpecs
  import opened Loader
  import opened LoaderTheorems
  import opened LoaderMeaning
  import opened Analyzer
  import opened UniquenessTheorems
  import opened EndToEnd

  /** The document is a Pod or a workload controller that the loader reads. */
  predicate IsWorkloadDoc(doc: Doc) {
    IsRead(doc) && (TextAt(doc, "kind") == "Pod" || TextAt(doc, "kind") in CONTROLLERS)
  }

  /** The document is a ClusterRoleBinding that makes the account of the namespace cluster-admin. */
  ghost predicate IsAdminDoc(doc: Doc, account: string, namespace: string) {
    && IsRead(doc) && TextAt(doc, "kind") == "ClusterRoleBinding" && MapAt(doc, "roleRef").Some?
    && TextAt(MapAt(doc, "roleRef").value, "kind") == "ClusterRole"
    && TextAt(MapAt(doc, "roleRef").value, "name") == "cluster-admin"
    && exists s :: ListsMap(doc, "subjects", s) && IsSubject(s, account, namespace)
  }

  /** The documents are stored under the same key of the same map. */
  predicate SameCell(x: Doc, y: Doc) {
    && IsRead(x) && TextAt(x, "kind") == TextAt(y, "kind")
    && NamespaceIn(x) + "/" + NameIn(x) == NamespaceIn(y) + "/" + NameIn(y)
  }

  /** Leaf i is not overwritten by a later one. */
  ghost predicate Survives(leaves: seq<Leaf>, i: nat)
    requires i < |leaves|
  {
    forall j :: i < j < |leaves| ==> !SameCell(leaves[j].doc, leaves[i].doc)
  }

  function WorkloadId(doc: Doc): Identity {
    Identity(13, if TextAt(doc, "kind") == "Pod" then Pod else ControllerKind(TextAt(doc, "kind")), NameIn(doc),
             NamespaceIn(doc))
  }

  // ----- what the store holds

  function PodKey(doc: Doc): string {
    NamespaceIn(doc) + "/" + NameIn(doc)
  }

  function ControllerKey(doc: Doc): string {
    TextAt(doc, "kind") + "/" + PodKey(doc)
  }

  lemma {:induction false} PutKindPods(st: Store, kind: Kind, leaf: Leaf)
    ensures PutKind(st, kind, leaf).pods ==
            if kind == Pod then st.pods[Key(NamespaceOf(leaf.doc, kind), NameOf(leaf.doc)) := PodOf(leaf)] else st.pods
    ensures PutKind(st, kind, leaf).workloads ==
            if IsWorkload(kind) then
              st.workloads[KindText(kind) + "/" + Key(NamespaceOf(leaf.doc, kind), NameOf(leaf.doc))
                             := WorkloadOf(kind, leaf)]
            else st.workloads
  {
    hide NameOf, NamespaceOf, Key, KindText, PodOf, WorkloadOf, BindingOf, ClusterRoleOf, RoleOf;
  }

  /** Only a Pod document that is read touches the pods. */
  lemma {:induction false} PutPod(st: Store, leaf: Leaf)
    ensures var doc := leaf.doc;
            Put(st, leaf).pods ==
            if IsRead(doc) && TextAt(doc, "kind") == "Pod" then
              st.pods[PodKey(doc) := PodData(NameIn(doc), NamespaceIn(doc), AccountIn(doc), leaf.file, doc)]
            else st.pods
  {
    hide PutKind, TextAt, NameIn, NamespaceIn, NameOf, NamespaceOf, AccountIn, ServiceAccountName, KindText,
         ReadableKind,
         Versioned, IsRead;
    KindTexts();
    ReadMeaning(leaf.doc, Pod);
    if ReadableKind(leaf.doc).Some? {
      PutKindPods(st, ReadableKind(leaf.doc).value, leaf);
    }
    if IsRead(leaf.doc) && TextAt(leaf.doc, "kind") == "Pod" {
      HasMetadata(leaf.doc);
      ReadMetadata(leaf.doc, Pod);
      AccountSame(leaf.doc, Pod);
    }
  }

  lemma {:induction false} SlashFree(kind: string)
    requires kind in CONTROLLERS
    ensures '/' !in kind
  {
  }

  lemma {:induction false} ControllerTexts(kind: Kind)
    ensures IsWorkload(kind) <==> KindText(kind) in CONTROLLERS
    ensures IsWorkload(kind) ==> ControllerKind(KindText(kind)) == kind
  {
    KindTexts();
  }

  lemma {:induction false} ReadController(doc: Doc)
    ensures IsRead(doc) && TextAt(doc, "kind") in CONTROLLERS <==>
            ReadableKind(doc).Some? && Versioned(ReadableKind(doc).value, doc) && IsWorkload(ReadableKind(doc).value)
    ensures IsRead(doc) && TextAt(doc, "kind") in CONTROLLERS ==>
              ControllerKind(TextAt(doc, "kind")) == ReadableKind(doc).value
              && TextAt(doc, "kind") == KindText(ReadableKind(doc).value)
  {
    hide TextAt, KindText, ReadableKind, Versioned, IsRead, IsWorkload, CONTROLLERS, ControllerKind;
    if ReadableKind(doc).Some? {
      ReadMeaning(doc, ReadableKind(doc).value);
      ControllerTexts(ReadableKind(doc).value);
    }
    if IsRead(doc) && TextAt(doc, "kind") in CONTROLLERS {
      var kind := ControllerKind(TextAt(doc, "kind"));
      ControllerText(TextAt(doc, "kind"));
      ReadMeaning(doc, kind);
      ControllerTexts(kind);
    }
  }

  lemma {:induction false} ControllerText(text: string)
    requires text in CONTROLLERS
    ensures KindText(ControllerKind(text)) == text
  {
    KindTexts();
  }

  /** Only a controller document that is read touches the workloads. */
  lemma {:induction false} PutController(st: Store, leaf: Leaf)
    ensures var doc := leaf.doc;
            Put(st, leaf).workloads ==
            if IsRead(doc) && TextAt(doc, "kind") in CONTROLLERS then
              st.workloads[ControllerKey(doc) := WorkloadData(NameIn(doc), ControllerKind(TextAt(doc, "kind")),
                                                              NamespaceIn(doc), AccountIn(doc), leaf.file, doc)]
            else st.workloads
  {
    hide PutKind, TextAt, NameIn, NamespaceIn, NameOf, NamespaceOf, AccountIn, ServiceAccountName, KindText,
         ReadableKind,
         Versioned, IsRead, IsWorkload, CONTROLLERS, ControllerKind;
    ReadController(leaf.doc);
    if ReadableKind(leaf.doc).Some? {
      PutKindPods(st, ReadableKind(leaf.doc).value, leaf);
    }
    if IsRead(leaf.doc) && TextAt(leaf.doc, "kind") in CONTROLLERS {
      var kind := ReadableKind(leaf.doc).value;
      HasMetadata(leaf.doc);
      NamespacedController(kind);
      ReadMetadata(leaf.doc, kind);
      AccountSame(leaf.doc, kind);
    }
  }

  lemma {:induction false} NamespacedController(kind: Kind)
    requires IsWorkload(kind)
    ensures kind !in {ClusterRole, ClusterRoleBinding, SecurityContextConstraints}
  {
  }

  lemma {:induction false} SameKeySameCell(x: Doc, y: Doc)
    requires IsRead(x) && TextAt(x, "kind") in CONTROLLERS && TextAt(y, "kind") in CONTROLLERS
    requires ControllerKey(x) == ControllerKey(y)
    ensures SameCell(x, y)
  {
    hide IsRead, TextAt, NameIn, NamespaceIn, CONTROLLERS;
    SlashFree(TextAt(x, "kind"));
    SlashFree(TextAt(y, "kind"));
    FirstCutUnique('/', TextAt(x, "kind"), PodKey(x), TextAt(y, "kind"), PodKey(y));
  }

  /** The record of a surviving pod or controller is in the store. */
  lemma {:induction false} WorkloadKept(leaves: seq<Leaf>, i: nat)
    requires i < |leaves| && Survives(leaves, i) && IsWorkloadDoc(leaves[i].doc)
    ensures RunsAs(Loaded(leaves), WorkloadId(leaves[i].doc), AccountIn(leaves[i].doc))
  {
    hide TextAt, NameIn, NamespaceIn, AccountIn, ControllerKind, IsRead, Loaded, CONTROLLERS;
    var doc := leaves[i].doc;
    if TextAt(doc, "kind") == "Pod" {
      PodKept(leaves, i);
      assert PodIs(Loaded(leaves).pods[PodKey(doc)], WorkloadId(doc), AccountIn(doc));
    } else {
      ControllerKept(leaves, i);
      assert ControllerIs(Loaded(leaves).workloads[ControllerKey(doc)], WorkloadId(doc), AccountIn(doc));
    }
  }

  lemma {:induction false} PodKept(leaves: seq<Leaf>, i: nat)
    requires i < |leaves| && Survives(leaves, i) && IsRead(leaves[i].doc) && TextAt(leaves[i].doc, "kind") == "Pod"
    ensures var doc := leaves[i].doc;
            && PodKey(doc) in Loaded(leaves).pods
            && Loaded(leaves).pods[PodKey(doc)]
               == PodData(NameIn(doc), NamespaceIn(doc), AccountIn(doc), leaves[i].file, doc)
  {
    hide Put, TextAt, NameIn, NamespaceIn, AccountIn, IsRead;
    var front, last := leaves[..|leaves| - 1], leaves[|leaves| - 1];
    assert Loaded(leaves) == Put(Loaded(front), last);
    PutPod(Loaded(front), last);
    if i < |front| {
      assert !SameCell(leaves[|leaves| - 1].doc, leaves[i].doc);
      PodKept(front, i);
    }
  }

  lemma {:induction false} ControllerKept(leaves: seq<Leaf>, i: nat)
    requires i < |leaves| && Survives(leaves, i) && IsRead(leaves[i].doc)
    requires TextAt(leaves[i].doc, "kind") in CONTROLLERS
    ensures var doc := leaves[i].doc;
            && ControllerKey(doc) in Loaded(leaves).workloads
            && Loaded(leaves).workloads[ControllerKey(doc)]
               == WorkloadData(NameIn(doc), ControllerKind(TextAt(doc, "kind")), NamespaceIn(doc), AccountIn(doc),
                               leaves[i].file, doc)
  {
    hide Put, TextAt, NameIn, NamespaceIn, AccountIn, IsRead, ControllerKind, CONTROLLERS, ControllerKey;
    var front, last := leaves[..|leaves| - 1], leaves[|leaves| - 1];
    assert Loaded(leaves) == Put(Loaded(front), last);
    PutController(Loaded(front), last);
    if i < |front| {
      assert !SameCell(leaves[|leaves| - 1].doc, leaves[i].doc);
      if IsRead(last.doc) && TextAt(last.doc, "kind") in CONTROLLERS
         && ControllerKey(last.doc) == ControllerKey(leaves[i].doc) {
        SameKeySameCell(last.doc, leaves[i].doc);
      }
      ControllerKept(front, i);
    }
  }

  lemma {:induction false} PutBinding(st: Store, leaf: Leaf)
    ensures var doc := leaf.doc;
            Put(st, leaf).clusterRoleBindings == st.clusterRoleBindings +
            if IsRead(doc) && TextAt(doc, "kind") == "ClusterRoleBinding"
            then [BindingFrom(doc, NameIn(doc), "", leaf.file)]
            else []
  {
    hide PutKind, TextAt, NameIn, NameOf, KindText, ReadableKind, Versioned, IsRead, MapItems, BindingOf;
    KindTexts();
    ReadMeaning(leaf.doc, ClusterRoleBinding);
    if ReadableKind(leaf.doc).Some? {
      PutKindBindings(st, ReadableKind(leaf.doc).value, leaf);
    }
    if IsRead(leaf.doc) && TextAt(leaf.doc, "kind") == "ClusterRoleBinding" {
      HasMetadata(leaf.doc);
      ReadMetadata(leaf.doc, ClusterRoleBinding);
      ReadMap(leaf.doc, "roleRef");
      BindingSame(leaf);
    }
  }

  lemma {:induction false} BindingSame(leaf: Leaf)
    requires NameOf(leaf.doc) == NameIn(leaf.doc)
    ensures BindingOf(leaf, "") == BindingFrom(leaf.doc, NameIn(leaf.doc), "", leaf.file)
  {
    hide NameOf, NameIn, MapItems;
    ReadMap(leaf.doc, "roleRef");
  }

  lemma {:induction false} BindingKept(leaves: seq<Leaf>, i: nat)
    requires i < |leaves| && IsRead(leaves[i].doc) && TextAt(leaves[i].doc, "kind") == "ClusterRoleBinding"
    ensures BindingFrom(leaves[i].doc, NameIn(leaves[i].doc), "", leaves[i].file) in Loaded(leaves).clusterRoleBindings
  {
    hide Put, TextAt, NameIn, IsRead, BindingFrom;
    var front, last := leaves[..|leaves| - 1], leaves[|leaves| - 1];
    assert Loaded(leaves) == Put(Loaded(front), last);
    PutBinding(Loaded(front), last);
    if i < |front| {
      BindingKept(front, i);
    }
  }

  lemma {:induction false} AdminDocMeaning(doc: Doc, file: string, account: string, namespace: string)
    requires IsAdminDoc(doc, account, namespace)
    ensures IsAdminBinding(BindingFrom(doc, NameIn(doc), "", file), account, namespace)
  {
    hide IsRead, TextAt, IsSubject, ListsMap, MapItems, NameIn;
    var s :| ListsMap(doc, "subjects", s) && IsSubject(s, account, namespace);
    ReadMaps(doc, "subjects", s);
    assert s in BindingFrom(doc, NameIn(doc), "", file).subjects;
  }

  // ----- the report

  /** A pod or controller document that no later document overwrites, together with a ClusterRoleBinding
      document that makes its account cluster-admin, is named by KC-013 in every report, up to its
      fingerprint; where namespaces do not collide, by its own identity. */
  lemma {:induction false} AdminWorkloadReported(leaves: seq<Leaf>, i: nat, j: nat, lib: Library, fs: seq<Finding>,
                                                 ns: iset<string>)
    requires i < |leaves| && j < |leaves| && RunReports(leaves, lib, fs)
    requires IsWorkloadDoc(leaves[i].doc) && Survives(leaves, i)
    requires IsAdminDoc(leaves[j].doc, AccountIn(leaves[i].doc), NamespaceIn(leaves[i].doc))
    ensures exists id :: id in Ids(fs) && id.Fingerprint() == WorkloadId(leaves[i].doc).Fingerprint()
    ensures Apart(ns) && LeavesWithin(leaves, ns) ==> WorkloadId(leaves[i].doc) in Ids(fs)
  {
    hide IsReport, Loaded, Survives, IsWorkloadDoc, RunsAs, IsAdminBinding, Apart, LeavesWithin, Orderly, Ids;
    var id, account, st := WorkloadId(leaves[i].doc), AccountIn(leaves[i].doc), Loaded(leaves);
    var b := BindingFrom(leaves[j].doc, NameIn(leaves[j].doc), "", leaves[j].file);
    WorkloadKept(leaves, i);
    BindingKept(leaves, j);
    AdminDocMeaning(leaves[j].doc, leaves[j].file, account, NamespaceIn(leaves[i].doc));
    assert RunsAs(st, id, account) && b in st.clusterRoleBindings && IsAdminBinding(b, account, id.namespace);
    assert DueInStore(st, id);
    ChainIdentitiesExact(st, lib, fs, id, ns);
    if Apart(ns) && LeavesWithin(leaves, ns) {
      LoadedOrderly(leaves, ns);
    }
  }

  // ----- an example

  const DEPLOYER_POD: Doc := map[
    "kind" := Str("Pod"), "apiVersion" := Str("v1"), "metadata" := Map(map["name" := Str("web")]),
    "spec" := Map(map["serviceAccountName" := Str("deployer")])]

  const DEPLOYER: Doc := map[
    "kind" := Str("ServiceAccount"), "name" := Str("deployer"), "namespace" := Str("default")]

  const DEPLOYER_BINDING: Doc := map[
    "kind" := Str("ClusterRoleBinding"), "metadata" := Map(map["name" := Str("deployers")]),
    "roleRef" := Map(map["kind" := Str("ClusterRole"), "name" := Str("cluster-admin")]),
    "subjects" := List([Map(DEPLOYER)])]

  lemma {:induction false} DeployerDocs()
    ensures IsWorkloadDoc(DEPLOYER_POD) && AccountIn(DEPLOYER_POD) == "deployer"
    ensures NamespaceIn(DEPLOYER_POD) == "default" && NameIn(DEPLOYER_POD) == "web"
    ensures IsAdminDoc(DEPLOYER_BINDING, "deployer", "default") && !SameCell(DEPLOYER_BINDING, DEPLOYER_POD)
  {
    assert PodSpecPath("Pod") == ["spec"] && ["spec"][1..] == [];
    assert MapUnder(DEPLOYER_POD, ["spec"]) == MapUnder(map["serviceAccountName" := Str("deployer")], []);
    assert ListsMap(DEPLOYER_BINDING, "subjects", DEPLOYER) && IsSubject(DEPLOYER, "deployer", "default");
  }

  lemma {:induction false} DeployerNamespaces()
    ensures LeavesWithin([Leaf(DEPLOYER_POD, ""), Leaf(DEPLOYER_BINDING, "")], iset{"default"})
  {
    hide ParseKind;
    ParseKindExact("Pod", Pod);
    ParseKindExact("ClusterRoleBinding", ClusterRoleBinding);
  }

  /** A pod that names an account, beside a binding of the account to cluster-admin. */
  lemma {:induction false} DeployerReported(lib: Library, fs: seq<Finding>)
    requires RunReports([Leaf(DEPLOYER_POD, ""), Leaf(DEPLOYER_BINDING, "")], lib, fs)
    ensures Identity(13, Pod, "web", "default") in Ids(fs)
  {
    hide RunReports, LeavesWithin, IsWorkloadDoc, IsAdminDoc, SameCell, AccountIn, NamespaceIn, NameIn, Ids;
    DeployerDocs();
    var leaves := [Leaf(DEPLOYER_POD, ""), Leaf(DEPLOYER_BINDING, "")];
    DeployerNamespaces();
    OrdinaryApart(iset{"default"});
    AdminWorkloadReported(leaves, 0, 1, lib, fs, iset{"default"});
  }
}
