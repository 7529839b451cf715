/** Suppressions and the exit threshold (pkg/suppression/suppression.go, cmd/kube-chainsaw/main.go). */
module Suppressions {
  import opened Models

  /** The reason text of an entry is not interpreted. */
  datatype Suppression = Suppression(ruleId: string, resourceName: string, resourceNamespace: string)

  predicate Matches(f: Finding, s: Suppression) {
    && RuleText(f.id.rule) == s.ruleId
    && f.id.name == s.resourceName
    && (s.resourceNamespace == "" || f.id.namespace == s.resourceNamespace)
  }

  predicate MatchesAny(f: Finding, entries: seq<Suppression>) {
    exists s :: s in entries && Matches(f, s)
  }

  function Suppress(f: Finding, entries: seq<Suppression>): Finding {
    f.(suppressed := f.suppressed || MatchesAny(f, entries))
  }

  function SuppressAll(fs: seq<Finding>, entries: seq<Suppression>): seq<Finding> {
    seq(|fs|, i requires 0 <= i < |fs| => Suppress(fs[i], entries))
  }

  method ApplySuppressions(findings: array<Finding>, entries: seq<Suppression>)
    modifies findings
    ensures findings[..] == SuppressAll(old(findings[..]), entries)
  {
    for i := 0 to findings.Length
      invariant forall k :: 0 <= k < i ==> findings[k] == Suppress(old(findings[k]), entries)
      invariant forall k :: i <= k < findings.Length ==> findings[k] == old(findings[k])
    {
      for j := 0 to |entries|
        invariant forall k :: 0 <= k < i ==> findings[k] == Suppress(old(findings[k]), entries)
        invariant forall k :: i <= k < findings.Length ==> findings[k] == old(findings[k])
        invariant forall s :: s in entries[..j] ==> !Matches(findings[i], s)
      {
        if Matches(findings[i], entries[j]) {
          findings[i] := findings[i].(suppressed := true);
          assert entries[j] in entries;
          break;
        }
      }
    }
  }

  ghost predicate GateFails(fs: seq<Finding>, threshold: Severity) {
    exists f :: f in fs && !f.suppressed && f.severity >= threshold
  }

  method ThresholdExceeded(findings: array<Finding>, threshold: Severity) returns (fails: bool)
    ensures fails == GateFails(findings[..], threshold)
    ensures fails <==>
            exists i :: 0 <= i < findings.Length && !findings[i].suppressed && findings[i].severity >= threshold
  {
    for i := 0 to findings.Length
      invariant forall k :: 0 <= k < i ==> findings[k].suppressed || findings[k].severity < threshold
    {
      if !findings[i].suppressed && findings[i].severity >= threshold {
        assert findings[i] in findings[..];
        return true;
      }
    }
    return false;
  }

  // ----- what suppression does

  /** Only flags change: a finding ends up suppressed exactly when it was or some entry names its rule and
      its resource, in its namespace or in any. */
  lemma {:induction false} OnlyFlags(fs: seq<Finding>, entries: seq<Suppression>, i: nat)
    requires i < |fs|
    ensures var g := SuppressAll(fs, entries)[i];
            && g == fs[i].(suppressed := g.suppressed)
            && (g.suppressed <==>
                || fs[i].suppressed
                || exists s :: s in entries && s.ruleId == RuleText(fs[i].id.rule) && s.resourceName == fs[i].id.name
                               && s.resourceNamespace in {"", fs[i].id.namespace})
  {
    assert forall s :: Matches(fs[i], s) <==>
        && s.ruleId == RuleText(fs[i].id.rule) && s.resourceName == fs[i].id.name
        && s.resourceNamespace in {"", fs[i].id.namespace};
  }

  lemma {:induction false} Idempotent(fs: seq<Finding>, entries: seq<Suppression>)
    ensures SuppressAll(SuppressAll(fs, entries), entries) == SuppressAll(fs, entries)
  {
    forall f ensures Suppress(Suppress(f, entries), entries) == Suppress(f, entries) {
      assert forall s :: Matches(Suppress(f, entries), s) <==> Matches(f, s);
    }
  }

  /** The order and repetition of entries do not matter. */
  lemma {:induction false} EntriesAsSet(fs: seq<Finding>, entries: seq<Suppression>, others: seq<Suppression>)
    requires forall s :: s in entries <==> s in others
    ensures SuppressAll(fs, entries) == SuppressAll(fs, others)
  {
    hide Matches;
    assert forall f :: MatchesAny(f, entries) <==> MatchesAny(f, others);
  }

  /** Some finding passes both filters before suppression exactly when the gate fails after it. */
  lemma {:induction false} GateAfterSuppression(fs: seq<Finding>, entries: seq<Suppression>, threshold: Severity)
    ensures GateFails(SuppressAll(fs, entries), threshold) <==>
            exists f :: f in fs && !f.suppressed && f.severity >= threshold && !MatchesAny(f, entries)
  {
    hide MatchesAny;
    var gs := SuppressAll(fs, entries);
    if g :| g in gs && !g.suppressed && g.severity >= threshold {
      var i :| 0 <= i < |gs| && gs[i] == g;
      assert fs[i] in fs && Suppress(fs[i], entries) == g;
    }
    if f :| f in fs && !f.suppressed && f.severity >= threshold && !MatchesAny(f, entries) {
      var i :| 0 <= i < |fs| && fs[i] == f;
      assert gs[i] in gs && gs[i] == Suppress(f, entries);
    }
  }

  /** Extra suppressions never turn a passing run into a failing one. */
  lemma {:induction false} MoreSuppressionsPass(fs: seq<Finding>, entries: seq<Suppression>, more: seq<Suppression>,
                                                threshold: Severity)
    requires forall s :: s in entries ==> s in more
    ensures GateFails(SuppressAll(fs, more), threshold) ==> GateFails(SuppressAll(fs, entries), threshold)
  {
    hide Matches;
    GateAfterSuppression(fs, entries, threshold);
    GateAfterSuppression(fs, more, threshold);
  }

  /** The gate looks at identities, severities and flags only. */
  lemma {:induction false} RaisedGateFails(fs: seq<Finding>, gs: seq<Finding>, entries: seq<Suppression>,
                                           threshold: Severity)
    requires forall f :: f in fs ==>
               exists g :: g in gs && g.id == f.id && f.severity <= g.severity && g.suppressed == f.suppressed
    ensures GateFails(SuppressAll(fs, entries), threshold) ==> GateFails(SuppressAll(gs, entries), threshold)
  {
    GateAfterSuppression(fs, entries, threshold);
    GateAfterSuppression(gs, entries, threshold);
    if f :| f in fs && !f.suppressed && f.severity >= threshold && !MatchesAny(f, entries) {
      var g :| g in gs && g.id == f.id && f.severity <= g.severity && g.suppressed == f.suppressed;
      assert forall s :: Matches(g, s) <==> Matches(f, s);
    }
  }
}
