/** What the bindings must say for the scope of a role, in the words of the manifest. */
module ScopeMeaning {
  import opened Sequences
  import opened Values
  import opened Models
  import opened Documents
  import opened Scopes

  /** The binding's role reference. */
  predicate RefersTo(b: BindingData, kind: string, name: string) {
    TextAt(b.roleRef, "kind") == kind && TextAt(b.roleRef, "name") == name
  }

  lemma {:induction false} ReferenceSame(b: BindingData, name: string, namespace: string)
    ensures BindsClusterRole(b, name) <==> RefersTo(b, "ClusterRole", name)
    ensures BindsRole(b, name, namespace) <==> RefersTo(b, "Role", name) && b.namespace == namespace
  {
    hide TextAt, StringField;
    ReadText(b.roleRef, "kind");
    ReadText(b.roleRef, "name");
  }

  /** Which bindings count. */
  type BindingTest = BindingData -> bool

  function ToClusterRole(name: string): BindingTest {
    b => RefersTo(b, "ClusterRole", name)
  }

  function ToRole(name: string, namespace: string): BindingTest {
    b => RefersTo(b, "Role", name) && b.namespace == namespace
  }

  /** The names of the bindings that count, in the order of the list. */
  function NamesAmong(bs: seq<BindingData>, counts: BindingTest): seq<string> {
    if bs == [] then []
    else
      var last := bs[|bs| - 1];
      NamesAmong(bs[..|bs| - 1], counts) + (if counts(last) then [last.name] else [])
  }

  /** How many of the subjects have the kind. */
  function SubjectsOfKind(subjects: seq<Doc>, kind: string): nat {
    if subjects == [] then 0
    else
      SubjectsOfKind(subjects[..|subjects| - 1], kind)
      + (if TextAt(subjects[|subjects| - 1], "kind") == kind then 1 else 0)
  }

  /** How many subjects of the kind the bindings that count have together. */
  function SubjectsAmong(bs: seq<BindingData>, counts: BindingTest, kind: string): nat {
    if bs == [] then 0
    else
      var last := bs[|bs| - 1];
      SubjectsAmong(bs[..|bs| - 1], counts, kind) + (if counts(last) then SubjectsOfKind(last.subjects, kind) else 0)
  }

  ghost predicate SomeAmong(bs: seq<BindingData>, counts: BindingTest) {
    exists b :: b in bs && counts(b)
  }

  // ----- matching

  /** The matcher picks the bindings that count. */
  ghost predicate Picks(f: BindingData -> seq<BindingData>, counts: BindingTest) {
    forall b :: f(b) == if counts(b) then [b] else []
  }

  lemma {:induction false} PickedNames(bs: seq<BindingData>, f: BindingData -> seq<BindingData>, counts: BindingTest)
    requires Picks(f, counts)
    ensures FlatMap(FlatMap(bs, f), BindingName) == NamesAmong(bs, counts)
  {
    FlatMapNone(BindingName);
    if bs != [] {
      var front, last := bs[..|bs| - 1], bs[|bs| - 1];
      PickedNames(front, f, counts);
      FlatMapAppend(FlatMap(front, f), f(last), BindingName);
      FlatMapSnoc([], last, BindingName);
      assert [] + [last] == [last];
    }
  }

  lemma {:induction false} KindsTold(b: BindingData, kind: string)
    requires kind != ""
    ensures multiset(SubjectKinds(b))[kind] == SubjectsOfKind(b.subjects, kind)
  {
    KindsCounted(b.subjects, kind);
  }

  lemma {:induction false} KindsCounted(subjects: seq<Doc>, kind: string)
    requires kind != ""
    ensures multiset(FlatMap(subjects, SubjectKind))[kind] == SubjectsOfKind(subjects, kind)
  {
    if subjects != [] {
      var last := subjects[|subjects| - 1];
      KindsCounted(subjects[..|subjects| - 1], kind);
      ReadText(last, "kind");
    }
  }

  lemma {:induction false} PickedSubjects(bs: seq<BindingData>, f: BindingData -> seq<BindingData>,
                                          counts: BindingTest, kind: string)
    requires Picks(f, counts) && kind != ""
    ensures multiset(FlatMap(FlatMap(bs, f), SubjectKinds))[kind] == SubjectsAmong(bs, counts, kind)
  {
    hide SubjectKinds;
    FlatMapNone(SubjectKinds);
    if bs != [] {
      var front, last := bs[..|bs| - 1], bs[|bs| - 1];
      PickedSubjects(front, f, counts, kind);
      FlatMapAppend(FlatMap(front, f), f(last), SubjectKinds);
      FlatMapSnoc([], last, SubjectKinds);
      assert [] + [last] == [last] && [] + SubjectKinds(last) == SubjectKinds(last);
      KindsTold(last, kind);
    }
  }

  lemma {:induction false} PickedSome(bs: seq<BindingData>, f: BindingData -> seq<BindingData>, counts: BindingTest)
    requires Picks(f, counts)
    ensures FlatMap(bs, f) != [] <==> SomeAmong(bs, counts)
  {
    hide FlatMap;
    MatchesExact(bs, f);
  }

  lemma {:induction false} NamedKinds(bs: seq<BindingData>)
    ensures "" !in FlatMap(bs, SubjectKinds)
  {
    InFlatMap(bs, SubjectKinds, "");
    forall b ensures "" !in SubjectKinds(b) {
      InFlatMap(b.subjects, SubjectKind, "");
    }
  }

  /** The scope is what the bindings that count say: whether there are any, what they are called, and how many
      subjects of each kind they have. */
  ghost predicate Tells(s: BindingScope, crbs: seq<BindingData>, inCluster: BindingTest, rbs: seq<BindingData>,
                        inNamespace: BindingTest)
  {
    && (s.clusterWide <==> SomeAmong(crbs, inCluster)) && (s.namespaceScoped <==> SomeAmong(rbs, inNamespace))
    && (s.unbound <==> !SomeAmong(crbs, inCluster) && !SomeAmong(rbs, inNamespace))
    && s.clusterBindings == NamesAmong(crbs, inCluster) && s.roleBindings == NamesAmong(rbs, inNamespace)
    && forall kind :: (if kind in s.subjectTypes then s.subjectTypes[kind] else 0)
                      == if kind == "" then 0
                         else SubjectsAmong(crbs, inCluster, kind) + SubjectsAmong(rbs, inNamespace, kind)
  }

  lemma {:induction false} ScopeTells(crbs: seq<BindingData>, f: BindingData -> seq<BindingData>,
                                      inCluster: BindingTest, rbs: seq<BindingData>,
                                      g: BindingData -> seq<BindingData>, inNamespace: BindingTest)
    requires Picks(f, inCluster) && Picks(g, inNamespace)
    ensures Tells(ScopeOf(FlatMap(crbs, f), FlatMap(rbs, g)), crbs, inCluster, rbs, inNamespace)
  {
    hide FlatMap, SomeAmong, Picks, SubjectKinds;
    var cluster, namespaced := FlatMap(crbs, f), FlatMap(rbs, g);
    PickedSome(crbs, f, inCluster);
    PickedSome(rbs, g, inNamespace);
    PickedNames(crbs, f, inCluster);
    PickedNames(rbs, g, inNamespace);
    NamedKinds(cluster);
    NamedKinds(namespaced);
    forall kind | kind != ""
      ensures multiset(FlatMap(cluster, SubjectKinds))[kind] == SubjectsAmong(crbs, inCluster, kind)
      ensures multiset(FlatMap(namespaced, SubjectKinds))[kind] == SubjectsAmong(rbs, inNamespace, kind)
    {
      PickedSubjects(crbs, f, inCluster, kind);
      PickedSubjects(rbs, g, inNamespace, kind);
    }
  }

  /** The scope of a cluster role: every binding of either list that refers to it counts. */
  lemma {:induction false} ClusterRoleScopeMeaning(name: string, crbs: seq<BindingData>, rbs: seq<BindingData>)
    ensures Tells(ClusterRoleScope(name, crbs, rbs), crbs, ToClusterRole(name), rbs, ToClusterRole(name))
  {
    hide Tells, ScopeOf, FlatMap, RefersTo, BindsClusterRole;
    forall b ensures ClusterRoleMatches(name)(b) == if ToClusterRole(name)(b) then [b] else [] {
      ReferenceSame(b, name, "");
    }
    ScopeTells(crbs, ClusterRoleMatches(name), ToClusterRole(name), rbs, ClusterRoleMatches(name), ToClusterRole(name));
  }

  /** The scope of a role: only role bindings of its own namespace count. */
  lemma {:induction false} RoleScopeMeaning(name: string, namespace: string, rbs: seq<BindingData>)
    ensures Tells(RoleScope(name, namespace, rbs), [], ToRole(name, namespace), rbs, ToRole(name, namespace))
  {
    hide Tells, ScopeOf, FlatMap, RefersTo, BindsRole;
    var f := RoleMatches(name, namespace);
    forall b ensures f(b) == if ToRole(name, namespace)(b) then [b] else [] {
      ReferenceSame(b, name, namespace);
    }
    FlatMapNone(f);
    ScopeTells([], f, ToRole(name, namespace), rbs, f, ToRole(name, namespace));
  }
}
