/** Where the guarantees end: when fingerprints collide, and when the order of rules matters. */
module Limits {
  import opened Sequences
  import opened Values
  import opened Models
  import opened Scopes
  import opened Rules
  import opened RoleRules
  import opened RoleTheorems
  import opened Loader
  import opened LoaderTheorems

  // ----- fingerprints

  /** Some resource in one namespace shares its fingerprint with one in the other. */
  ghost predicate CanCollide(s: string, t: string) {
    exists rule, kind, n, m :: Shared(rule, kind, n, s, m, t)
  }

  ghost predicate Shared(rule: RuleId, kind: Kind, n: string, s: string, m: string, t: string) {
    Identity(rule, kind, n, s).Fingerprint() == Identity(rule, kind, m, t).Fingerprint()
  }

  lemma {:induction false} CollisionFromSuffix(s: string, t: string)
    requires EndsWithBarred(t, s)
    ensures CanCollide(s, t) && CanCollide(t, s)
  {
    var q := t[..|t| - |s| - 1];
    assert t == q + "|" + s;
    BarredNamespaceCollides(NETWORK_POLICY_INGRESS, NetworkPolicy, "", q, s);
    assert Shared(NETWORK_POLICY_INGRESS, NetworkPolicy, "" + "|" + q, s, "", t);
    assert Shared(NETWORK_POLICY_INGRESS, NetworkPolicy, "", t, "" + "|" + q, s);
  }

  /** Resources of two different namespaces can share a fingerprint exactly when one namespace ends
      with '|' and the other; otherwise no choice of names makes them collide. */
  lemma {:induction false} NamespacesCollideIff(s: string, t: string)
    requires s != t
    ensures CanCollide(s, t) <==> EndsWithBarred(t, s) || EndsWithBarred(s, t)
  {
    if CanCollide(s, t) {
      var rule, kind, n, m :| Shared(rule, kind, n, s, m, t);
      FingerprintRule(Identity(rule, kind, n, s), Identity(rule, kind, m, t));
      ResourceParts(Identity(rule, kind, n, s), Identity(rule, kind, m, t));
      if |s| < |t| {
        SuffixFromCollision(n, s, m, t);
      } else if |t| < |s| {
        SuffixFromCollision(m, t, n, s);
      } else {
        SameLengthSame(n, s, m, t);
      }
    }
    if EndsWithBarred(t, s) {
      CollisionFromSuffix(s, t);
    }
    if EndsWithBarred(s, t) {
      CollisionFromSuffix(t, s);
    }
  }

  lemma {:induction false} NotApart(ns: iset<string>) returns (s: string, t: string)
    requires !Apart(ns)
    ensures s in ns && t in ns && EndsWithBarred(t, s)
  {
    t, s :| t in ns && s in ns && EndsWithBarred(t, s);
  }

  /** A document in the empty namespace is put into the default one. */
  lemma {:induction false} NamedNamespaces(leaves: seq<Leaf>, ns: iset<string>)
    requires LeavesWithin(leaves, ns)
    ensures LeavesWithin(leaves, ns - iset{""})
  {
    hide ReadableKind, NamedNamespace;
    forall leaf | leaf in leaves ensures LeafWithin(leaf, ns - iset{""}) {
      assert LeafWithin(leaf, ns);
    }
  }

  // ----- colliding resources

  /** Where a resource is: its namespace and name. */
  datatype Spot = Spot(namespace: string, name: string)

  function SpotKey(p: Spot): string {
    Key(p.namespace, p.name)
  }

  /** Resources of the same rule and kind at the two spots share their fingerprint. */
  ghost predicate SamePrint(a: Spot, b: Spot) {
    forall rule, kind :: SamePrintAs(rule, kind, a, b)
  }

  ghost predicate SamePrintAs(rule: RuleId, kind: Kind, a: Spot, b: Spot) {
    Identity(rule, kind, a.name, a.namespace).Fingerprint() == Identity(rule, kind, b.name, b.namespace).Fingerprint()
  }

  /** In colliding namespaces there are two spots with one fingerprint and different keys. */
  lemma {:induction false} CollidingSpots(s: string, t: string) returns (a: Spot, b: Spot)
    requires EndsWithBarred(t, s)
    ensures a.namespace == s && b.namespace == t && SpotKey(a) != SpotKey(b) && SamePrint(a, b)
  {
    var prefix := t[..|t| - |s| - 1];
    assert t == prefix + "|" + s;
    var n := if prefix != "" && prefix[|prefix| - 1] == 'x' then "y" else "x";
    a, b := Spot(s, n + "|" + prefix), Spot(t, n);
    forall rule, kind ensures SamePrintAs(rule, kind, a, b) {
      BarredNamespaceCollides(rule, kind, n, prefix, s);
    }
    assert SpotKey(a)[|SpotKey(a)| - 1] != SpotKey(b)[|SpotKey(b)| - 1];
  }

  // ----- the order of a cluster role's rules can change a severity

  const NARROW_RULE: Doc := map["verbs" := List([Str("escalate")])]
  const WIDE_RULE: Doc := map["verbs" := List([Str("escalate"), Str("*")])]

  lemma {:induction false} ConcreteRules()
    ensures PolicyRuleOf(NARROW_RULE) == PolicyRule(["escalate"], [], [])
    ensures PolicyRuleOf(WIDE_RULE) == PolicyRule(["escalate", "*"], [], [])
  {
    var one, two := [Str("escalate")], [Str("escalate"), Str("*")];
    FlatMapSnoc([], one[0], StringOf);
    FlatMapSnoc(one, two[1], StringOf);
    assert [] + [one[0]] == one && one + [two[1]] == two;
    assert ["escalate"] + ["*"] == ["escalate", "*"];
  }

  /** For a cluster-wide role, KC-003 is HIGH or CRITICAL depending on which rule comes first. */
  lemma {:induction false} RuleOrderMatters(owner: Owner, name: string, crb: BindingData)
    requires BindsClusterRole(crb, name)
    ensures var c := RoleContext(owner, ClusterRoleScope(name, [crb], []), false);
            && NewFinding(ESCALATE_VERB, HIGH, owner) in RoleFindings([NARROW_RULE, WIDE_RULE], c)
            && NewFinding(ESCALATE_VERB, CRITICAL, owner) in RoleFindings([WIDE_RULE, NARROW_RULE], c)
  {
    hide RoleFindings, ClusterRoleScope, BindsClusterRole;
    var c := RoleContext(owner, ClusterRoleScope(name, [crb], []), false);
    ClusterRoleScopeExact(name, [crb], [], "");
    assert crb in [crb];
    ConcreteRules();
    assert DangerousVerb("escalate") == Some(ESCALATE_VERB);
    assert "escalate" in ["escalate"] && "escalate" in ["escalate", "*"];
    assert FirstFiring([NARROW_RULE, WIDE_RULE], 0, Plain(ESCALATE_VERB));
    assert FirstFiring([WIDE_RULE, NARROW_RULE], 0, Plain(ESCALATE_VERB));
    FindingSeverity([NARROW_RULE, WIDE_RULE], c, 0, Plain(ESCALATE_VERB));
    FindingSeverity([WIDE_RULE, NARROW_RULE], c, 0, Plain(ESCALATE_VERB));
    assert !Wild(PolicyRuleOf(NARROW_RULE)) && Wild(PolicyRuleOf(WIDE_RULE));
  }
}
