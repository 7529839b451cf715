/** How a role is bound: the scope resolvers of pkg/analyzer/analyzer.go. */
module Scopes {
  import opened Sequences
  import opened Values
  import opened Models

  function RoleRefName(b: BindingData): string {
    StringField(b.roleRef, "name")
  }

  function RoleRefKind(b: BindingData): string {
    StringField(b.roleRef, "kind")
  }

  predicate BindsClusterRole(b: BindingData, name: string) {
    RoleRefName(b) == name && RoleRefKind(b) == "ClusterRole"
  }

  predicate BindsRole(b: BindingData, name: string, namespace: string) {
    RoleRefName(b) == name && RoleRefKind(b) == "Role" && b.namespace == namespace
  }

  /** The part of a namespaced key after the first '/'; the whole key when there is none. */
  function ExtractNameFromKey(key: string): string {
    if '/' !in key then key
    else if key[0] == '/' then key[1..]
    else ExtractNameFromKey(key[1..])
  }

  // ----- specification

  function IfSo(b: BindingData, matches: bool): seq<BindingData> {
    if matches then [b] else []
  }

  function ClusterRoleMatches(name: string): BindingData -> seq<BindingData> {
    b => IfSo(b, BindsClusterRole(b, name))
  }

  function RoleMatches(name: string, namespace: string): BindingData -> seq<BindingData> {
    b => IfSo(b, BindsRole(b, name, namespace))
  }

  function BindingName(b: BindingData): seq<string> {
    [b.name]
  }

  function SubjectKind(subject: Doc): seq<string> {
    if StringField(subject, "kind") != "" then [StringField(subject, "kind")] else []
  }

  /** The kinds of the subjects of a binding that have one. */
  function SubjectKinds(b: BindingData): seq<string> {
    FlatMap(b.subjects, SubjectKind)
  }

  function Tally(kinds: seq<string>): map<string, nat> {
    map k | k in kinds :: multiset(kinds)[k]
  }

  /** The scope that results when these cluster role bindings and role bindings match. */
  function ScopeOf(cluster: seq<BindingData>, namespaced: seq<BindingData>): BindingScope {
    BindingScope(
      cluster != [], namespaced != [], cluster == [] && namespaced == [],
      FlatMap(cluster, BindingName), FlatMap(namespaced, BindingName),
      Tally(FlatMap(cluster, SubjectKinds) + FlatMap(namespaced, SubjectKinds)))
  }

  function ClusterRoleScope(name: string, crbs: seq<BindingData>, rbs: seq<BindingData>): BindingScope {
    ScopeOf(FlatMap(crbs, ClusterRoleMatches(name)), FlatMap(rbs, ClusterRoleMatches(name)))
  }

  function RoleScope(name: string, namespace: string, rbs: seq<BindingData>): BindingScope {
    ScopeOf([], FlatMap(rbs, RoleMatches(name, namespace)))
  }

  // ----- the resolvers

  lemma {:induction false} TallySnoc(kinds: seq<string>, kind: string)
    ensures Tally(kinds + [kind]) ==
            var counts := Tally(kinds); counts[kind := (if kind in counts then counts[kind] else 0) + 1]
  {
    assert multiset(kinds + [kind]) == multiset(kinds) + multiset{kind};
  }

  lemma {:induction false} TallyEmpty()
    ensures Tally([]) == map[]
  {
  }

  method CountSubjects(b: BindingData, counts: map<string, nat>, ghost kinds: seq<string>) returns (r: map<string, nat>)
    requires counts == Tally(kinds)
    ensures r == Tally(kinds + SubjectKinds(b))
  {
    hide Tally, FlatMap;
    r := counts;
    FlatMapNone(SubjectKind);
    assert kinds + [] == kinds && b.subjects[..0] == [];
    for i := 0 to |b.subjects|
      invariant r == Tally(kinds + FlatMap(b.subjects[..i], SubjectKind))
    {
      FlatMapSnoc(b.subjects[..i], b.subjects[i], SubjectKind);
      assert b.subjects[..i + 1] == b.subjects[..i] + [b.subjects[i]];
      ghost var before := FlatMap(b.subjects[..i], SubjectKind);
      var kind := StringField(b.subjects[i], "kind");
      if kind != "" {
        TallySnoc(kinds + before, kind);
        assert kinds + before + [kind] == kinds + (before + [kind]);
        r := r[kind := (if kind in r then r[kind] else 0) + 1];
      } else {
        assert before + [] == before;
      }
    }
    assert b.subjects[..|b.subjects|] == b.subjects;
  }

  lemma {:induction false} NothingMatched()
    ensures FlatMap([], BindingName) == [] && FlatMap([], SubjectKinds) == []
  {
  }

  /** The loop the cluster role resolver runs over each of the two binding lists. */
  method MatchClusterRole(name: string, bs: seq<BindingData>, counts: map<string, nat>, ghost kinds: seq<string>)
    returns (bound: bool, names: seq<string>, counts': map<string, nat>)
    requires counts == Tally(kinds)
    ensures var matching := FlatMap(bs, ClusterRoleMatches(name));
            && bound == (matching != []) && names == FlatMap(matching, BindingName)
            && counts' == Tally(kinds + FlatMap(matching, SubjectKinds))
  {
    hide Tally, SubjectKinds, RoleRefName, RoleRefKind, FlatMap;
    bound, names, counts' := false, [], counts;
    ghost var matching: seq<BindingData> := [];
    NothingMatched();
    FlatMapNone(ClusterRoleMatches(name));
    assert kinds + [] == kinds && bs[..0] == [];
    for i := 0 to |bs|
      invariant matching == FlatMap(bs[..i], ClusterRoleMatches(name))
      invariant bound == (matching != []) && names == FlatMap(matching, BindingName)
      invariant counts' == Tally(kinds + FlatMap(matching, SubjectKinds))
    {
      FlatMapSnoc(bs[..i], bs[i], ClusterRoleMatches(name));
      assert bs[..i + 1] == bs[..i] + [bs[i]];
      if RoleRefName(bs[i]) == name && RoleRefKind(bs[i]) == "ClusterRole" {
        FlatMapSnoc(matching, bs[i], BindingName);
        FlatMapSnoc(matching, bs[i], SubjectKinds);
        bound, names := true, names + [bs[i].name];
        counts' := CountSubjects(bs[i], counts', kinds + FlatMap(matching, SubjectKinds));
        assert kinds + FlatMap(matching, SubjectKinds) + SubjectKinds(bs[i])
            == kinds + (FlatMap(matching, SubjectKinds) + SubjectKinds(bs[i]));
        matching := matching + [bs[i]];
      } else {
        assert matching + [] == matching;
      }
    }
    assert bs[..|bs|] == bs;
  }

  method ResolveClusterRoleScope(name: string, resources: LoadedResources) returns (scope: BindingScope)
    ensures scope == ClusterRoleScope(name, resources.clusterRoleBindings, resources.roleBindings)
  {
    hide Tally;
    TallyEmpty();
    var cluster, clusterNames, counts := MatchClusterRole(name, resources.clusterRoleBindings, map[], []);
    ghost var matching := FlatMap(resources.clusterRoleBindings, ClusterRoleMatches(name));
    assert [] + FlatMap(matching, SubjectKinds) == FlatMap(matching, SubjectKinds);
    var namespaced, names, allCounts :=
      MatchClusterRole(name, resources.roleBindings, counts, FlatMap(matching, SubjectKinds));
    scope := BindingScope(cluster, namespaced, !cluster && !namespaced, clusterNames, names, allCounts);
  }

  lemma {:induction false} ScopeOfOne(matching: seq<BindingData>)
    ensures ScopeOf([], matching) ==
            BindingScope(false, matching != [], matching == [], [], FlatMap(matching, BindingName),
                         Tally(FlatMap(matching, SubjectKinds)))
  {
    hide Tally;
    assert [] + FlatMap(matching, SubjectKinds) == FlatMap(matching, SubjectKinds);
  }

  method ResolveRoleScope(key: string, resources: LoadedResources) returns (scope: BindingScope)
    ensures scope == if key in resources.roles
                     then RoleScope(ExtractNameFromKey(key), resources.roles[key].namespace, resources.roleBindings)
                     else ScopeOf([], [])
  {
    scope := BindingScope(false, false, false, [], [], map[]);
    if key !in resources.roles {
      ScopeOfOne([]);
      NothingMatched();
      TallyEmpty();
      return scope.(unbound := true);
    }
    hide Tally, SubjectKinds, RoleRefName, RoleRefKind, FlatMap, ExtractNameFromKey, ScopeOf;
    TallyEmpty();
    NothingMatched();
    var name, namespace, rbs := ExtractNameFromKey(key), resources.roles[key].namespace, resources.roleBindings;
    ghost var matching: seq<BindingData> := [];
    ghost var kinds: seq<string> := [];
    FlatMapNone(RoleMatches(name, namespace));
    assert rbs[..0] == [];
    for i := 0 to |rbs|
      invariant matching == FlatMap(rbs[..i], RoleMatches(name, namespace)) && kinds == FlatMap(matching, SubjectKinds)
      invariant scope == BindingScope(false, matching != [], false, [], FlatMap(matching, BindingName), Tally(kinds))
    {
      FlatMapSnoc(rbs[..i], rbs[i], RoleMatches(name, namespace));
      assert rbs[..i + 1] == rbs[..i] + [rbs[i]];
      if RoleRefName(rbs[i]) == name && RoleRefKind(rbs[i]) == "Role" && rbs[i].namespace == namespace {
        FlatMapSnoc(matching, rbs[i], BindingName);
        FlatMapSnoc(matching, rbs[i], SubjectKinds);
        var counts := CountSubjects(rbs[i], scope.subjectTypes, kinds);
        scope := scope.(namespaceScoped := true, roleBindings := scope.roleBindings + [rbs[i].name],
                        subjectTypes := counts);
        matching, kinds := matching + [rbs[i]], kinds + SubjectKinds(rbs[i]);
      } else {
        assert matching + [] == matching;
      }
    }
    assert rbs[..|rbs|] == rbs;
    ScopeOfOne(matching);
    if !scope.namespaceScoped {
      scope := scope.(unbound := true);
    }
  }

  // ----- properties of scopes

  /** The name read back from a key is the role's own name exactly when its namespace has no '/'. */
  lemma {:induction false} ExtractedName(namespace: string, name: string)
    ensures ExtractNameFromKey(Key(namespace, name)) == name <==> '/' !in namespace
    ensures '/' in namespace ==> |ExtractNameFromKey(Key(namespace, name))| > |name|
    ensures '/' in Key(namespace, name)
  {
    if namespace == "" {
      assert Key(namespace, name)[1..] == name;
    } else {
      assert Key(namespace, name)[1..] == Key(namespace[1..], name);
      assert Key(namespace, name)[0] == namespace[0];
      ExtractedName(namespace[1..], name);
      if namespace[0] == '/' {
        assert |Key(namespace[1..], name)| > |name|;
      }
    }
  }

  /** A binding to a role is found by the resolver exactly when the role's namespace has no '/'. */
  lemma {:induction false} OwnBindingSeen(namespace: string, name: string, b: BindingData)
    requires BindsRole(b, name, namespace)
    ensures BindsRole(b, ExtractNameFromKey(Key(namespace, name)), namespace) <==> '/' !in namespace
  {
    ExtractedName(namespace, name);
  }

  /** Two keys under one namespace with the same extracted name are the same key, even when the
      namespace holds a '/'. */
  lemma {:induction false} ExtractedNameInjective(namespace: string, name: string, name': string)
    requires ExtractNameFromKey(Key(namespace, name)) == ExtractNameFromKey(Key(namespace, name'))
    ensures name == name'
  {
    var key, key' := Key(namespace, name), Key(namespace, name');
    if namespace == "" {
      assert key[1..] == name && key'[1..] == name';
    } else {
      var rest := namespace[1..];
      assert key[1..] == Key(rest, name) && key'[1..] == Key(rest, name');
      assert key[0] == namespace[0] && key'[0] == namespace[0];
      ExtractedName(rest, name);
      ExtractedName(rest, name');
      if namespace[0] == '/' {
        assert name == Key(rest, name)[|rest| + 1..] && name' == Key(rest, name')[|rest| + 1..];
      } else {
        ExtractedNameInjective(rest, name, name');
      }
    }
  }

  ghost predicate Consistent(s: BindingScope) {
    s.unbound <==> !s.clusterWide && !s.namespaceScoped
  }

  /** How many subjects of these bindings have the kind. */
  function SubjectCount(bindings: seq<BindingData>, kind: string): nat {
    if bindings == [] then 0
    else SubjectCount(bindings[..|bindings| - 1], kind) + multiset(SubjectKinds(bindings[|bindings| - 1]))[kind]
  }

  lemma {:induction false} CountsAddUp(bindings: seq<BindingData>, kind: string)
    ensures multiset(FlatMap(bindings, SubjectKinds))[kind] == SubjectCount(bindings, kind)
  {
    if bindings == [] {
    } else {
      CountsAddUp(bindings[..|bindings| - 1], kind);
    }
  }

  lemma {:induction false} MatchesExact(bs: seq<BindingData>, f: BindingData -> seq<BindingData>)
    requires forall b :: f(b) == [] || f(b) == [b]
    ensures FlatMap(bs, f) != [] <==> exists b :: b in bs && f(b) != []
  {
    if bs == [] {
    } else {
      var front, last := bs[..|bs| - 1], bs[|bs| - 1];
      assert bs == front + [last];
      MatchesExact(front, f);
    }
  }

  /** A cluster role is bound cluster-wide, namespaced or not at all exactly as the bindings say, and
      its subject counts are the subjects of the matching bindings added up. */
  lemma {:induction false} ClusterRoleScopeExact(name: string, crbs: seq<BindingData>, rbs: seq<BindingData>,
                                                 kind: string)
    ensures var s := ClusterRoleScope(name, crbs, rbs);
            && Consistent(s)
            && (s.clusterWide <==> exists b :: b in crbs && BindsClusterRole(b, name))
            && (s.namespaceScoped <==> exists b :: b in rbs && BindsClusterRole(b, name))
            && (if kind in s.subjectTypes then s.subjectTypes[kind] else 0)
               == SubjectCount(FlatMap(crbs, ClusterRoleMatches(name)), kind)
                  + SubjectCount(FlatMap(rbs, ClusterRoleMatches(name)), kind)
  {
    hide BindsClusterRole;
    MatchesExact(crbs, ClusterRoleMatches(name));
    MatchesExact(rbs, ClusterRoleMatches(name));
    CountsAddUp(FlatMap(crbs, ClusterRoleMatches(name)), kind);
    CountsAddUp(FlatMap(rbs, ClusterRoleMatches(name)), kind);
  }

  lemma {:induction false} RoleScopeExact(name: string, namespace: string, rbs: seq<BindingData>, kind: string)
    ensures var s := RoleScope(name, namespace, rbs);
            && Consistent(s) && !s.clusterWide
            && (s.namespaceScoped <==> exists b :: b in rbs && BindsRole(b, name, namespace))
            && (if kind in s.subjectTypes then s.subjectTypes[kind] else 0)
               == SubjectCount(FlatMap(rbs, RoleMatches(name, namespace)), kind)
  {
    hide BindsRole;
    MatchesExact(rbs, RoleMatches(name, namespace));
    CountsAddUp(FlatMap(rbs, RoleMatches(name, namespace)), kind);
  }

  /** The flags are what severities depend on. */
  ghost predicate ScopeAtMost(s: BindingScope, t: BindingScope) {
    Consistent(s) && Consistent(t) && (s.clusterWide ==> t.clusterWide) && (s.namespaceScoped ==> t.namespaceScoped)
  }

  /** More bindings only widen the scope of a role. */
  lemma {:induction false} ScopesGrow(name: string, namespace: string, crbs: seq<BindingData>,
                                      crbs': seq<BindingData>, rbs: seq<BindingData>, rbs': seq<BindingData>)
    requires multiset(crbs) <= multiset(crbs') && multiset(rbs) <= multiset(rbs')
    ensures ScopeAtMost(ClusterRoleScope(name, crbs, rbs), ClusterRoleScope(name, crbs', rbs'))
    ensures ScopeAtMost(RoleScope(name, namespace, rbs), RoleScope(name, namespace, rbs'))
  {
    hide ClusterRoleScope, RoleScope, BindsClusterRole, BindsRole;
    ClusterRoleScopeExact(name, crbs, rbs, "");
    ClusterRoleScopeExact(name, crbs', rbs', "");
    RoleScopeExact(name, namespace, rbs, "");
    RoleScopeExact(name, namespace, rbs', "");
    assert forall b :: b in crbs ==> b in multiset(crbs');
    assert forall b :: b in rbs ==> b in multiset(rbs');
  }
}
