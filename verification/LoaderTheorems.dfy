/** What a loaded store holds, whatever the order and nesting of the documents. */
module LoaderTheorems {
  import opened Sequences
  import opened Values
  import opened Models
  import opened Loader

  // ----- last write wins

  ghost predicate Targets(leaf: Leaf, table: Table, key: string) {
    SlotOf(leaf.doc) == Cell(table, key)
  }

  /** The record a leaf that has a cell is stored as. */
  ghost function Record(leaf: Leaf): Entry
    requires SlotOf(leaf.doc).Cell?
  {
    EntryOf(ReadableKind(leaf.doc).value, leaf)
  }

  ghost predicate IsLastTarget(leaves: seq<Leaf>, i: nat, table: Table, key: string)
    requires i < |leaves|
  {
    Targets(leaves[i], table, key) && forall j :: i < j < |leaves| ==> !Targets(leaves[j], table, key)
  }

  lemma {:induction false} PutKindLookup(st: Store, kind: Kind, leaf: Leaf, table: Table, key: string)
    ensures Lookup(PutKind(st, kind, leaf), table, key) ==
            if SlotFor(kind, leaf.doc) == Cell(table, key) then Some(EntryOf(kind, leaf)) else Lookup(st, table, key)
  {
    hide NameOf, NamespaceOf, Key, KindText, ClusterRoleOf, RoleOf, PodOf, WorkloadOf, BindingOf;
  }

  lemma {:induction false} PutLookup(st: Store, leaf: Leaf, table: Table, key: string)
    ensures Lookup(Put(st, leaf), table, key) ==
            if Targets(leaf, table, key) then Some(Record(leaf)) else Lookup(st, table, key)
  {
    match ReadableKind(leaf.doc)
    case None =>
    case Some(kind) => PutKindLookup(st, kind, leaf, table, key);
  }

  /** A cell no leaf targets keeps its content; otherwise it holds the last leaf that targets it. */
  lemma {:induction false} LastWriteWins(st: Store, leaves: seq<Leaf>, table: Table, key: string)
    ensures (forall i :: 0 <= i < |leaves| ==> !Targets(leaves[i], table, key))
            ==> Lookup(PutAll(st, leaves), table, key) == Lookup(st, table, key)
    ensures forall i :: 0 <= i < |leaves| && IsLastTarget(leaves, i, table, key)
                        ==> Lookup(PutAll(st, leaves), table, key) == Some(Record(leaves[i]))
  {
    hide PutAll, Lookup, SlotOf;
    if forall i :: 0 <= i < |leaves| ==> !Targets(leaves[i], table, key) {
      UntargetedKept(st, leaves, table, key);
    }
    forall i | 0 <= i < |leaves| && IsLastTarget(leaves, i, table, key)
      ensures Lookup(PutAll(st, leaves), table, key) == Some(Record(leaves[i]))
    {
      LastTargetWins(st, leaves, i, table, key);
    }
  }

  lemma {:induction false} UntargetedKept(st: Store, leaves: seq<Leaf>, table: Table, key: string)
    requires forall i :: 0 <= i < |leaves| ==> !Targets(leaves[i], table, key)
    ensures Lookup(PutAll(st, leaves), table, key) == Lookup(st, table, key)
  {
    hide Put, Lookup, Targets, Record;
    if leaves == [] {
    } else {
      var front := leaves[..|leaves| - 1];
      UntargetedKept(st, front, table, key);
      PutLookup(PutAll(st, front), leaves[|leaves| - 1], table, key);
    }
  }

  lemma {:induction false} LastTargetWins(st: Store, leaves: seq<Leaf>, i: nat, table: Table, key: string)
    requires i < |leaves| && IsLastTarget(leaves, i, table, key)
    ensures Lookup(PutAll(st, leaves), table, key) == Some(Record(leaves[i]))
  {
    hide Put, Lookup, SlotOf;
    var front, last := leaves[..|leaves| - 1], leaves[|leaves| - 1];
    PutLookup(PutAll(st, front), last, table, key);
    if i < |front| {
      LastTargetWins(st, front, i, table, key);
    }
  }

  // ----- one binding entry per binding leaf

  function ClusterBindingIn(leaf: Leaf): seq<BindingData> {
    if SlotOf(leaf.doc) == ClusterBindingList then [BindingOf(leaf, "")] else []
  }

  function BindingIn(leaf: Leaf): seq<BindingData> {
    if SlotOf(leaf.doc) == BindingList then [BindingOf(leaf, NamespaceOf(leaf.doc, RoleBinding))] else []
  }

  lemma {:induction false} KeyedSlotLists(kind: Kind, namespace: string, name: string)
    ensures KeyedSlot(kind, namespace, name) == ClusterBindingList <==> kind == ClusterRoleBinding
    ensures KeyedSlot(kind, namespace, name) == BindingList <==> kind == RoleBinding
    ensures KeyedSlot(kind, namespace, name) != Nowhere
  {
  }

  lemma {:induction false} PutKindBindings(st: Store, kind: Kind, leaf: Leaf)
    ensures PutKind(st, kind, leaf).clusterRoleBindings ==
            st.clusterRoleBindings + if kind == ClusterRoleBinding then [BindingOf(leaf, "")] else []
    ensures PutKind(st, kind, leaf).roleBindings ==
            st.roleBindings + if kind == RoleBinding then [BindingOf(leaf, NamespaceOf(leaf.doc, kind))] else []
  {
    hide NameOf, NamespaceOf, Key, KindText, BindingOf, WorkloadOf;
  }

  lemma {:induction false} PutBindings(st: Store, leaf: Leaf)
    ensures Put(st, leaf).clusterRoleBindings == st.clusterRoleBindings + ClusterBindingIn(leaf)
    ensures Put(st, leaf).roleBindings == st.roleBindings + BindingIn(leaf)
  {
    hide PutKind, KeyedSlot, NameOf, NamespaceOf, BindingOf, ReadableKind, Versioned;
    match ReadableKind(leaf.doc)
    case None =>
    case Some(kind) =>
      KeyedSlotLists(kind, NamespaceOf(leaf.doc, kind), NameOf(leaf.doc));
      PutKindBindings(st, kind, leaf);
  }

  lemma {:induction false} BindingsLoaded(st: Store, leaves: seq<Leaf>)
    ensures PutAll(st, leaves).clusterRoleBindings == st.clusterRoleBindings + FlatMap(leaves, ClusterBindingIn)
    ensures PutAll(st, leaves).roleBindings == st.roleBindings + FlatMap(leaves, BindingIn)
  {
    if leaves == [] {
    } else {
      var front := leaves[..|leaves| - 1];
      BindingsLoaded(st, front);
      PutBindings(PutAll(st, front), leaves[|leaves| - 1]);
    }
  }

  lemma {:induction false} MapItemsCount(items: seq<Value>, doc: Doc)
    ensures multiset(FlatMap(items, MapOf))[doc] == multiset(items)[Map(doc)]
  {
    if items == [] {
    } else {
      var front, last := items[..|items| - 1], items[|items| - 1];
      assert items == front + [last];
      MapItemsCount(front, doc);
    }
  }

  /** No subject is lost or made up: a binding lists each map among its document's subjects as often
      as the document does. */
  lemma {:induction false} BindingSubjects(leaf: Leaf, namespace: string, subject: Doc)
    ensures multiset(BindingOf(leaf, namespace).subjects)[subject]
            == multiset(ListField(leaf.doc, "subjects"))[Map(subject)]
  {
    MapItemsCount(ListField(leaf.doc, "subjects"), subject);
  }

  // ----- document order

  /** Leaves written to the same cell are the same leaf. */
  ghost predicate NoOverwrite(leaves: seq<Leaf>) {
    forall x, y :: x in leaves && y in leaves && SlotOf(x.doc).Cell? && SlotOf(x.doc) == SlotOf(y.doc) ==> x == y
  }

  ghost predicate SameCells(a: Store, b: Store) {
    forall table, key :: Lookup(a, table, key) == Lookup(b, table, key)
  }

  lemma {:induction false} TableAgrees<T>(m: map<string, T>, n: map<string, T>, wrap: T -> Entry, a: Store, b: Store,
                                          table: Table)
    requires SameCells(a, b)
    requires forall key :: Lookup(a, table, key) == EntryAt(m, key, wrap)
    requires forall key :: Lookup(b, table, key) == EntryAt(n, key, wrap)
    requires forall key :: key in m && key in n && wrap(m[key]) == wrap(n[key]) ==> m[key] == n[key]
    ensures m == n
  {
    hide Lookup;
    forall key: string
      ensures key in m <==> key in n
      ensures key in m ==> m[key] == n[key]
    {
      assert Lookup(a, table, key) == Lookup(b, table, key);
      assert EntryAt(m, key, wrap) == EntryAt(n, key, wrap);
    }
  }

  lemma {:induction false} RbacTablesAgree(a: Store, b: Store)
    requires SameCells(a, b)
    ensures a.clusterRoles == b.clusterRoles && a.roles == b.roles
    ensures a.pods == b.pods && a.workloads == b.workloads
  {
    TableAgrees(a.clusterRoles, b.clusterRoles, AsClusterRole, a, b, ClusterRoles);
    TableAgrees(a.roles, b.roles, AsRole, a, b, Roles);
    TableAgrees(a.pods, b.pods, AsPod, a, b, Pods);
    TableAgrees(a.workloads, b.workloads, AsWorkload, a, b, Workloads);
  }

  lemma {:induction false} ExposedTablesAgree(a: Store, b: Store)
    requires SameCells(a, b)
    ensures a.services == b.services && a.ingresses == b.ingresses
    ensures a.routes == b.routes && a.secrets == b.secrets
  {
    TableAgrees(a.services, b.services, AsObject, a, b, Services);
    TableAgrees(a.ingresses, b.ingresses, AsObject, a, b, Ingresses);
    TableAgrees(a.routes, b.routes, AsObject, a, b, Routes);
    TableAgrees(a.secrets, b.secrets, AsObject, a, b, Secrets);
  }

  lemma {:induction false} PolicyTablesAgree(a: Store, b: Store)
    requires SameCells(a, b)
    ensures a.serviceAccounts == b.serviceAccounts && a.networkPolicies == b.networkPolicies
    ensures a.constraints == b.constraints
  {
    TableAgrees(a.serviceAccounts, b.serviceAccounts, AsObject, a, b, ServiceAccounts);
    TableAgrees(a.networkPolicies, b.networkPolicies, AsObject, a, b, NetworkPolicies);
    TableAgrees(a.constraints, b.constraints, AsObject, a, b, Constraints);
  }

  lemma {:induction false} MapsFromLookups(a: Store, b: Store)
    requires SameCells(a, b)
    ensures a == b.(clusterRoleBindings := a.clusterRoleBindings, roleBindings := a.roleBindings)
  {
    RbacTablesAgree(a, b);
    ExposedTablesAgree(a, b);
    PolicyTablesAgree(a, b);
  }

  lemma {:induction false} LastTargetExists(leaves: seq<Leaf>, leaf: Leaf, table: Table, key: string) returns (i: nat)
    requires leaf in leaves && Targets(leaf, table, key)
    ensures i < |leaves| && IsLastTarget(leaves, i, table, key)
  {
    hide Targets;
    var last := |leaves| - 1;
    if Targets(leaves[last], table, key) {
      i := last;
    } else {
      i := LastTargetExists(leaves[..last], leaf, table, key);
      assert forall j :: i < j < last ==> leaves[..last][j] == leaves[j];
    }
  }

  /** Without overwrites, what a cell holds does not depend on where its leaf stands. */
  lemma {:induction false} NoOverwriteLookup(leaves: seq<Leaf>, table: Table, key: string)
    requires NoOverwrite(leaves)
    ensures (forall leaf :: leaf in leaves ==> !Targets(leaf, table, key))
            ==> Lookup(PutAll(EMPTY_STORE, leaves), table, key) == None
    ensures forall leaf :: leaf in leaves && Targets(leaf, table, key)
                           ==> Lookup(PutAll(EMPTY_STORE, leaves), table, key) == Some(Record(leaf))
  {
    LastWriteWins(EMPTY_STORE, leaves, table, key);
    forall leaf | leaf in leaves && Targets(leaf, table, key)
      ensures Lookup(PutAll(EMPTY_STORE, leaves), table, key) == Some(Record(leaf))
    {
      hide PutAll, Lookup, SlotOf;
      var i := LastTargetExists(leaves, leaf, table, key);
      assert leaves[i] in leaves;
    }
  }

  /** Any reordering of leaves that do not overwrite each other loads the same maps and the same
      bindings in another order. */
  lemma {:induction false} DocumentOrder(xs: seq<Leaf>, ys: seq<Leaf>)
    requires NoOverwrite(xs)
    requires multiset(xs) == multiset(ys)
    ensures SameUpToBindingOrder(PutAll(EMPTY_STORE, xs), PutAll(EMPTY_STORE, ys))
  {
    hide PutAll, Lookup, SlotOf;
    assert forall leaf :: leaf in xs <==> leaf in multiset(xs);
    assert forall leaf :: leaf in ys <==> leaf in multiset(ys);
    assert NoOverwrite(ys);
    var a, b := PutAll(EMPTY_STORE, xs), PutAll(EMPTY_STORE, ys);
    forall table, key ensures Lookup(a, table, key) == Lookup(b, table, key) {
      NoOverwriteLookup(xs, table, key);
      NoOverwriteLookup(ys, table, key);
    }
    MapsFromLookups(a, b);
    BindingsLoaded(EMPTY_STORE, xs);
    BindingsLoaded(EMPTY_STORE, ys);
    FlatMapPermuted(xs, ys, ClusterBindingIn);
    FlatMapPermuted(xs, ys, BindingIn);
    assert a.clusterRoleBindings == FlatMap(xs, ClusterBindingIn);
    assert b.clusterRoleBindings == FlatMap(ys, ClusterBindingIn);
    assert a.roleBindings == FlatMap(xs, BindingIn) && b.roleBindings == FlatMap(ys, BindingIn);
  }

  // ----- adding documents

  /** The extra leaves write to no cell that is already taken. */
  ghost predicate Fresh(st: Store, extra: seq<Leaf>) {
    forall leaf, table, key :: leaf in extra && Targets(leaf, table, key) ==> Lookup(st, table, key) == None
  }

  lemma {:induction false} TableWithin<T>(m: map<string, T>, n: map<string, T>, wrap: T -> Entry, a: Store, b: Store,
                                          table: Table)
    requires forall key :: Lookup(a, table, key).Some? ==> Lookup(b, table, key) == Lookup(a, table, key)
    requires forall key :: Lookup(a, table, key) == EntryAt(m, key, wrap)
    requires forall key :: Lookup(b, table, key) == EntryAt(n, key, wrap)
    requires forall key :: key in m && key in n && wrap(m[key]) == wrap(n[key]) ==> m[key] == n[key]
    ensures Within(m, n)
  {
    hide Lookup;
    forall key | key in m ensures key in n && n[key] == m[key] {
      assert EntryAt(m, key, wrap).Some?;
      assert EntryAt(n, key, wrap) == EntryAt(m, key, wrap);
    }
  }

  ghost predicate CellsKept(a: Store, b: Store) {
    forall table, key :: Lookup(a, table, key).Some? ==> Lookup(b, table, key) == Lookup(a, table, key)
  }

  lemma {:induction false} RbacTablesWithin(a: Store, b: Store)
    requires CellsKept(a, b)
    ensures Within(a.clusterRoles, b.clusterRoles) && Within(a.roles, b.roles)
    ensures Within(a.pods, b.pods) && Within(a.workloads, b.workloads)
  {
    TableWithin(a.clusterRoles, b.clusterRoles, AsClusterRole, a, b, ClusterRoles);
    TableWithin(a.roles, b.roles, AsRole, a, b, Roles);
    TableWithin(a.pods, b.pods, AsPod, a, b, Pods);
    TableWithin(a.workloads, b.workloads, AsWorkload, a, b, Workloads);
  }

  lemma {:induction false} ExposedTablesWithin(a: Store, b: Store)
    requires CellsKept(a, b)
    ensures Within(a.services, b.services) && Within(a.ingresses, b.ingresses)
    ensures Within(a.routes, b.routes) && Within(a.secrets, b.secrets)
  {
    TableWithin(a.services, b.services, AsObject, a, b, Services);
    TableWithin(a.ingresses, b.ingresses, AsObject, a, b, Ingresses);
    TableWithin(a.routes, b.routes, AsObject, a, b, Routes);
    TableWithin(a.secrets, b.secrets, AsObject, a, b, Secrets);
  }

  lemma {:induction false} PolicyTablesWithin(a: Store, b: Store)
    requires CellsKept(a, b)
    ensures Within(a.serviceAccounts, b.serviceAccounts) && Within(a.networkPolicies, b.networkPolicies)
    ensures Within(a.constraints, b.constraints)
  {
    TableWithin(a.serviceAccounts, b.serviceAccounts, AsObject, a, b, ServiceAccounts);
    TableWithin(a.networkPolicies, b.networkPolicies, AsObject, a, b, NetworkPolicies);
    TableWithin(a.constraints, b.constraints, AsObject, a, b, Constraints);
  }

  /** The extra leaves write to no cell that the others write to. */
  ghost predicate NoClash(leaves: seq<Leaf>, extra: seq<Leaf>) {
    forall x, e :: x in leaves && e in extra && SlotOf(e.doc).Cell? ==> SlotOf(x.doc) != SlotOf(e.doc)
  }

  lemma {:induction false} MergedLookup(st: Store, leaves: seq<Leaf>, extra: seq<Leaf>, merged: seq<Leaf>,
                                        table: Table, key: string)
    requires Merges(leaves, extra, merged) && forall e :: e in extra ==> !Targets(e, table, key)
    ensures Lookup(PutAll(st, merged), table, key) == Lookup(PutAll(st, leaves), table, key)
  {
    hide Put, Lookup, Targets, Record;
    if merged != [] {
      var front, last := merged[..|merged| - 1], merged[|merged| - 1];
      PutLookup(PutAll(st, front), last, table, key);
      if leaves != [] && leaves[|leaves| - 1] == last && Merges(leaves[..|leaves| - 1], extra, front) {
        MergedLookup(st, leaves[..|leaves| - 1], extra, front, table, key);
        PutLookup(PutAll(st, leaves[..|leaves| - 1]), last, table, key);
      } else {
        assert last in extra;
        MergedLookup(st, leaves, extra[..|extra| - 1], front, table, key);
      }
    }
  }

  lemma {:induction false} TakenCellsKept(st: Store, leaves: seq<Leaf>, extra: seq<Leaf>, merged: seq<Leaf>)
    requires Merges(leaves, extra, merged) && NoClash(leaves, extra) && Fresh(st, extra)
    ensures CellsKept(PutAll(st, leaves), PutAll(st, merged))
  {
    hide PutAll, Lookup, Merges;
    forall table, key | Lookup(PutAll(st, leaves), table, key).Some?
      ensures Lookup(PutAll(st, merged), table, key) == Lookup(PutAll(st, leaves), table, key)
    {
      LastWriteWins(st, leaves, table, key);
      if i :| 0 <= i < |leaves| && Targets(leaves[i], table, key) {
        assert leaves[i] in leaves;
      }
      MergedLookup(st, leaves, extra, merged, table, key);
    }
  }

  /** Loading further documents, anywhere among the others, extends the store when they write to no
      cell that is otherwise taken; among themselves the documents may overwrite each other. */
  lemma {:induction false} InsertedExtends(st: Store, leaves: seq<Leaf>, extra: seq<Leaf>, merged: seq<Leaf>)
    requires Merges(leaves, extra, merged) && NoClash(leaves, extra) && Fresh(st, extra)
    ensures Extends(PutAll(st, leaves), PutAll(st, merged))
  {
    hide PutAll, Lookup, Merges, FlatMap, CellsKept, NoClash, Fresh;
    var smaller, larger := PutAll(st, leaves), PutAll(st, merged);
    TakenCellsKept(st, leaves, extra, merged);
    RbacTablesWithin(smaller, larger);
    ExposedTablesWithin(smaller, larger);
    PolicyTablesWithin(smaller, larger);
    BindingsLoaded(st, leaves);
    BindingsLoaded(st, merged);
    MergesMultiset(leaves, extra, merged);
    MergedBindings(leaves, extra, merged, ClusterBindingIn);
    MergedBindings(leaves, extra, merged, BindingIn);
  }

  lemma {:induction false} MergedBindings(leaves: seq<Leaf>, extra: seq<Leaf>, merged: seq<Leaf>,
                                          f: Leaf -> seq<BindingData>)
    requires multiset(merged) == multiset(leaves + extra)
    ensures multiset(FlatMap(leaves, f)) <= multiset(FlatMap(merged, f))
  {
    FlatMapPermuted(merged, leaves + extra, f);
    FlatMapAppend(leaves, extra, f);
  }

  // ----- invariants of loaded stores

  lemma {:induction false} PutKindWellKeyed(st: Store, kind: Kind, leaf: Leaf)
    requires WellKeyed(st)
    ensures WellKeyed(PutKind(st, kind, leaf))
  {
    hide AllEntries, NameOf, NamespaceOf;
    var name, namespace := NameOf(leaf.doc), NamespaceOf(leaf.doc, kind);
    var key, record := Key(namespace, name), ObjectData(name, namespace, leaf.file, leaf.doc);
    match kind {
      case ClusterRole | ClusterRoleBinding | RoleBinding =>
      case ServiceAccount => AllEntriesUpdate(st.serviceAccounts, key, record, ObjectKeyed);
      case Role => AllEntriesUpdate(st.roles, key, RoleOf(leaf), RoleKeyed);
      case Service => AllEntriesUpdate(st.services, key, record, ObjectKeyed);
      case Ingress => AllEntriesUpdate(st.ingresses, key, record, ObjectKeyed);
      case Route => AllEntriesUpdate(st.routes, key, record, ObjectKeyed);
      case Secret => AllEntriesUpdate(st.secrets, key, record, ObjectKeyed);
      case NetworkPolicy => AllEntriesUpdate(st.networkPolicies, key, record, ObjectKeyed);
      case SecurityContextConstraints =>
        AllEntriesUpdate(st.constraints, name, record.(namespace := ""), ConstraintKeyed);
      case Pod => AllEntriesUpdate(st.pods, key, PodOf(leaf), PodKeyed);
      case _ => AllEntriesUpdate(st.workloads, KindText(kind) + "/" + key, WorkloadOf(kind, leaf), WorkloadKeyed);
    }
  }

  lemma {:induction false} LoadedWellKeyed(st: Store, leaves: seq<Leaf>)
    requires WellKeyed(st)
    ensures WellKeyed(PutAll(st, leaves))
  {
    hide WellKeyed, PutKind, Versioned, ReadableKind;
    if leaves == [] {
    } else {
      var front, last := leaves[..|leaves| - 1], leaves[|leaves| - 1];
      LoadedWellKeyed(st, front);
      if ReadableKind(last.doc).Some? {
        PutKindWellKeyed(PutAll(st, front), ReadableKind(last.doc).value, last);
      }
    }
  }

  /** Every leaf of a namespaced kind is in one of the namespaces, after defaulting. */
  ghost predicate LeavesWithin(leaves: seq<Leaf>, ns: iset<string>) {
    forall leaf :: leaf in leaves ==> LeafWithin(leaf, ns)
  }

  ghost predicate LeafWithin(leaf: Leaf, ns: iset<string>) {
    match ReadableKind(leaf.doc)
    case None => true
    case Some(kind) => NamespacedKind(kind) ==> NamespaceOf(leaf.doc, kind) in ns
  }

  lemma {:induction false} PutKindWithin(st: Store, kind: Kind, leaf: Leaf, ns: iset<string>)
    requires NamespacesIn(st, ns) && (NamespacedKind(kind) ==> NamespaceOf(leaf.doc, kind) in ns)
    ensures NamespacesIn(PutKind(st, kind, leaf), ns)
  {
    hide AllEntries, NameOf, NamespaceOf;
    var name, namespace := NameOf(leaf.doc), NamespaceOf(leaf.doc, kind);
    var key, record := Key(namespace, name), ObjectData(name, namespace, leaf.file, leaf.doc);
    match kind {
      case ClusterRole | ClusterRoleBinding | RoleBinding | ServiceAccount | SecurityContextConstraints =>
      case Role => AllEntriesUpdate(st.roles, key, RoleOf(leaf), RoleIn(ns));
      case Service => AllEntriesUpdate(st.services, key, record, ObjectIn(ns));
      case Ingress => AllEntriesUpdate(st.ingresses, key, record, ObjectIn(ns));
      case Route => AllEntriesUpdate(st.routes, key, record, ObjectIn(ns));
      case Secret => AllEntriesUpdate(st.secrets, key, record, ObjectIn(ns));
      case NetworkPolicy => AllEntriesUpdate(st.networkPolicies, key, record, ObjectIn(ns));
      case Pod => AllEntriesUpdate(st.pods, key, PodOf(leaf), PodIn(ns));
      case _ => AllEntriesUpdate(st.workloads, KindText(kind) + "/" + key, WorkloadOf(kind, leaf), WorkloadIn(ns));
    }
  }

  lemma {:induction false} LoadedWithin(st: Store, leaves: seq<Leaf>, ns: iset<string>)
    requires NamespacesIn(st, ns) && LeavesWithin(leaves, ns)
    ensures NamespacesIn(PutAll(st, leaves), ns)
  {
    hide NamespacesIn, PutKind, Versioned, ReadableKind;
    if leaves == [] {
    } else {
      var front, last := leaves[..|leaves| - 1], leaves[|leaves| - 1];
      LoadedWithin(st, front, ns);
      if ReadableKind(last.doc).Some? {
        assert LeafWithin(last, ns);
        PutKindWithin(PutAll(st, front), ReadableKind(last.doc).value, last, ns);
      }
    }
  }
}
