/** What exactly a whole report says about roles and cluster roles. */
module RoleReports {
  import opened Sequences
  import opened Values
  import opened Models
  import opened Scopes
  import opened Rules
  import opened RoleRules
  import opened RoleTheorems
  import opened Documents
  import opened ScopeMeaning
  import opened RoleMeaning
  import opened Analyzer
  import opened ReportShape
  import opened ReportParts

  // ----- roles

  /** Some rule of the role says what it takes. */
  ghost predicate RuleSaid(rules: seq<Doc>, rule: RuleId) {
    exists r :: r in rules && Says(r, rule)
  }

  /** Role findings are WARNING for a bound role and INFO otherwise. */
  function RoleSeverity(st: Store, name: string, namespace: string): Severity {
    if exists b :: b in st.roleBindings && RefersTo(b, "Role", name) && b.namespace == namespace then 1 else 0
  }

  /** What one stored role contributes. */
  lemma {:induction false} StoredRole(st: Store, k: string, v: Verdict)
    requires k in st.roles && v.id == RoleIdentity(v.id.rule, RoleOwner(k, st.roles[k]))
    ensures v in Verdicts(RolePhase(st)(k)) <==>
            RuleSaid(st.roles[k].rules, v.id.rule) && v.severity == RoleSeverity(st, v.id.name, v.id.namespace)
  {
    hide RoleFindings, RoleScope, ExtractNameFromKey, Says, BindsRole, RefersTo;
    var role, fs := st.roles[k], RolePhase(st)(k);
    var owner := RoleOwner(k, role);
    var c := RoleContext(owner, RoleScope(owner.name, role.namespace, st.roleBindings), true);
    RoleIdsMeaning(role.rules, c, v.id.rule);
    InVerdicts(fs, v);
    InIds(fs, v.id);
    forall b ensures BindsRole(b, owner.name, owner.namespace)
        <==> RefersTo(b, "Role", owner.name) && b.namespace == owner.namespace
    {
      ReferenceSame(b, owner.name, owner.namespace);
    }
    forall f | f in fs ensures f.severity == RoleSeverity(st, owner.name, owner.namespace) {
      NamespacedSeverity(role.rules, owner, owner.name, role.namespace, st.roleBindings, f);
    }
  }

  lemma {:induction false} RoleOwnIds(st: Store, k: string, f: Finding)
    requires k in st.roles && f in RolePhase(st)(k)
    ensures f.id == RoleIdentity(f.id.rule, RoleOwner(k, st.roles[k]))
  {
    hide NamespacedRoleFindings;
    RoleShape(k, st.roles[k], st.roleBindings);
  }

  /** A whole report names a role exactly for the rules that the role's own rules trigger: as WARNING
      when some role binding refers to the role under the reported name, as INFO otherwise. */
  lemma {:induction false} RoleVerdictsExact(st: Store, lib: Library, fs: seq<Finding>, v: Verdict)
    requires WellKeyed(st) && IsReport(st, lib, fs) && v.id.kind == Role
    ensures v in Verdicts(fs) <==>
            && v.severity == RoleSeverity(st, v.id.name, v.id.namespace)
            && exists k :: k in st.roles
                           && v.id == Identity(v.id.rule, Role, ExtractNameFromKey(k), st.roles[k].namespace)
                           && RuleSaid(st.roles[k].rules, v.id.rule)
  {
    hide WellKeyed, Visits, FullReport, RuleSaid, RoleSeverity, NamespacedRoleFindings, FlatMap;
    var o :| Visits(o, st) && fs == FullReport(st, o, lib);
    InVerdicts(fs, v);
    if f :| f in fs && VerdictOf(f) == v {
      PartOfKind(st, o, lib, f);
      assert PartsOf(st, o, lib).roles == FlatMap(o.roles, RolePhase(st));
      InFlatMap(o.roles, RolePhase(st), f);
      var k :| k in o.roles && f in RolePhase(st)(k);
      RoleOwnIds(st, k, f);
      InVerdicts(RolePhase(st)(k), v);
      StoredRole(st, k, v);
    }
    if k :| k in st.roles && v.id == RoleIdentity(v.id.rule, RoleOwner(k, st.roles[k]))
            && RuleSaid(st.roles[k].rules, v.id.rule) && v.severity == RoleSeverity(st, v.id.name, v.id.namespace) {
      StoredRole(st, k, v);
      InVerdicts(RolePhase(st)(k), v);
      var f :| f in RolePhase(st)(k) && VerdictOf(f) == v;
      RoleInReport(st, o, lib, k, f);
    }
  }

  lemma {:induction false} RoleInReport(st: Store, o: Orders, lib: Library, k: string, f: Finding)
    requires Visits(o, st) && k in st.roles && f in RolePhase(st)(k)
    ensures f in FullReport(st, o, lib)
  {
    hide FlatMap, PodSecurityReport, PolicyReport, ConstraintReport, ExposureReport, SecretReport, ChainReport,
         NamespacedRoleFindings, ClusterRolePhase;
    InFlatMap(o.roles, RolePhase(st), f);
    assert k in o.roles;
  }

  /** In a namespace without '/', a role is reported under its own name, as WARNING exactly when some
      role binding of its namespace refers to it. */
  lemma {:induction false} BoundRoleWarns(st: Store, lib: Library, fs: seq<Finding>, namespace: string, name: string,
                                          rule: RuleId, severity: Severity)
    requires WellKeyed(st) && IsReport(st, lib, fs) && '/' !in namespace
    requires Key(namespace, name) in st.roles && st.roles[Key(namespace, name)].namespace == namespace
    requires RuleSaid(st.roles[Key(namespace, name)].rules, rule)
    ensures Verdict(Identity(rule, Role, name, namespace), severity) in Verdicts(fs) <==>
            severity == if exists b :: b in st.roleBindings && RefersTo(b, "Role", name) && b.namespace == namespace
                        then 1 else 0
  {
    hide WellKeyed, IsReport, RuleSaid, RefersTo;
    ExtractedName(namespace, name);
    var key := Key(namespace, name);
    assert RoleIdentity(rule, RoleOwner(key, st.roles[key])) == Identity(rule, Role, name, namespace);
    RoleVerdictsExact(st, lib, fs, Verdict(Identity(rule, Role, name, namespace), severity));
  }

  // ----- cluster roles

  /** The severity of a finding about a cluster role, read off the bindings and the wildcards of the rule
      that decides it: bound cluster-wide it is CRITICAL or HIGH, bound in a namespace HIGH or WARNING,
      and INFO when not bound. */
  ghost function BoundSeverity(st: Store, name: string, wild: bool): Severity {
    if exists b :: b in st.clusterRoleBindings && RefersTo(b, "ClusterRole", name) then (if wild then 3 else 2)
    else if exists b :: b in st.roleBindings && RefersTo(b, "ClusterRole", name) then (if wild then 2 else 1)
    else 0
  }

  /** Rule i of the role is the first to say what the variant of the rule ID takes, at this severity. */
  ghost predicate Decides(st: Store, name: string, rules: seq<Doc>, i: nat, variant: Variant, v: Verdict)
    requires i < |rules|
  {
    && SaysVariant(rules[i], variant) && (forall j :: 0 <= j < i ==> !SaysVariant(rules[j], variant))
    && (variant == Plain(v.id.rule) || (variant == AnyGroup && v.id.rule == 1))
    && v.severity == BoundSeverity(st, name, variant == AnyGroup || SaysWildcard(rules[i]))
  }

  lemma {:induction false} DecidesIs(st: Store, name: string, rules: seq<Doc>, i: nat, variant: Variant, v: Verdict)
    requires i < |rules|
    ensures Decides(st, name, rules, i, variant, v) <==>
            && FirstFiring(rules, i, variant) && RuleOf(variant) == v.id.rule
            && v.severity == BoundSeverity(st, name, WildFor(PolicyRuleOf(rules[i]), variant))
  {
    hide Fires, WildFor, SaysVariant, SaysWildcard, BoundSeverity, PolicyRuleOf;
    forall j | 0 <= j < |rules|
      ensures Fires(PolicyRuleOf(rules[j]), variant) <==> SaysVariant(rules[j], variant)
      ensures WildFor(PolicyRuleOf(rules[j]), variant) <==> variant == AnyGroup || SaysWildcard(rules[j])
    {
      VariantMeaning(rules[j], variant);
    }
  }

  /** What a report says about a cluster role: KC-015 when it is aggregated, and for each variant the
      severity that the first rule to say it calls for. */
  ghost predicate ClusterRoleDue(st: Store, name: string, cr: ClusterRoleData, v: Verdict) {
    || (v.id.rule == 15 && v.severity == 0 && "aggregationRule" in cr.doc)
    || (exists i, variant :: 0 <= i < |cr.rules| && Decides(st, name, cr.rules, i, variant, v))
  }

  lemma {:induction false} FirstExists(rules: seq<Doc>, variant: Variant) returns (i: nat)
    requires FiresIn(rules, variant)
    ensures i < |rules| && FirstFiring(rules, i, variant)
  {
    hide Fires;
    var r :| r in rules && Fires(PolicyRuleOf(r), variant);
    i := 0;
    while !Fires(PolicyRuleOf(rules[i]), variant)
      invariant i < |rules| && forall j :: 0 <= j < i ==> !Fires(PolicyRuleOf(rules[j]), variant)
      decreases |rules| - i
    {
      var k :| 0 <= k < |rules| && rules[k] == r;
      i := i + 1;
    }
  }

  /** The triggers that are reported, each with the flag of the first rule that has it. */
  lemma {:induction false} ReportedTrigger(rules: seq<Doc>, t: Trigger)
    ensures t in Reported(rules) <==>
            exists i :: 0 <= i < |rules| && FirstFiring(rules, i, t.variant)
                        && t.wild == WildFor(PolicyRuleOf(rules[i]), t.variant)
  {
    hide Fires, WildFor, Reported, FirstFiring;
    ReportedExact(rules, t.variant);
    if t in Reported(rules) {
      assert VariantOf(t) == t.variant && HasKey(Reported(rules), VariantOf, t.variant);
      var i := FirstExists(rules, t.variant);
      EarliestDecides(rules, i, t.variant);
      SameVariantSame(Reported(rules), t, Trigger(t.variant, WildFor(PolicyRuleOf(rules[i]), t.variant)));
    }
    if i :| 0 <= i < |rules| && FirstFiring(rules, i, t.variant)
            && t.wild == WildFor(PolicyRuleOf(rules[i]), t.variant) {
      EarliestDecides(rules, i, t.variant);
    }
  }

  lemma {:induction false} SameVariantSame(ts: seq<Trigger>, t: Trigger, u: Trigger)
    requires DistinctBy(ts, VariantOf) && t in ts && u in ts && t.variant == u.variant
    ensures t == u
  {
    var i, j :| 0 <= i < |ts| && 0 <= j < |ts| && ts[i] == t && ts[j] == u;
    assert VariantOf(ts[i]) == VariantOf(ts[j]);
  }

  lemma {:induction false} InRendered(ts: seq<Trigger>, c: RoleContext, f: Finding)
    ensures f in RenderAll(ts, c) <==> exists t :: t in ts && f == Render(t, c)
  {
    hide Render;
    if t :| t in ts && f == Render(t, c) {
      var i :| 0 <= i < |ts| && ts[i] == t;
      assert RenderAll(ts, c)[i] == f;
    }
  }

  lemma {:induction false} StoredClusterRole(st: Store, k: string, v: Verdict)
    requires k in st.clusterRoles && v.id == Identity(v.id.rule, ClusterRole, k, "")
    ensures v in Verdicts(ClusterRolePhase(st)(k)) <==> ClusterRoleDue(st, k, st.clusterRoles[k], v)
  {
    hide RoleFindings, ClusterRoleScope, Verdicts, BoundSeverity, FirstFiring, Decides;
    var cr := st.clusterRoles[k];
    var c := RoleContext(ClusterRoleOwner(k, cr.file),
                         ClusterRoleScope(k, st.clusterRoleBindings, st.roleBindings), false);
    InVerdicts(ClusterRolePhase(st)(k), v);
    RoleVerdict(st, k, cr, v);
    assert VerdictOf(AggregatedFinding(k, cr.file))
        == Verdict(Identity(AGGREGATED_CLUSTER_ROLE, ClusterRole, k, ""), INFO);
  }

  lemma {:induction false} RoleVerdict(st: Store, k: string, cr: ClusterRoleData, v: Verdict)
    requires v.id == Identity(v.id.rule, ClusterRole, k, "")
    ensures var c := RoleContext(ClusterRoleOwner(k, cr.file),
                                 ClusterRoleScope(k, st.clusterRoleBindings, st.roleBindings), false);
            (exists f :: f in RoleFindings(cr.rules, c) && VerdictOf(f) == v) <==>
            exists i, variant :: 0 <= i < |cr.rules| && Decides(st, k, cr.rules, i, variant, v)
  {
    hide ClusterRoleScope, Reported, BoundSeverity, FirstFiring, SeverityFor, WildFor, RenderAll, Decides;
    var c := RoleContext(ClusterRoleOwner(k, cr.file),
                         ClusterRoleScope(k, st.clusterRoleBindings, st.roleBindings), false);
    forall wild ensures SeverityFor(c.scope, wild, false) == BoundSeverity(st, k, wild) {
      BoundSeverityIs(st, k, wild);
    }
    if f :| f in RoleFindings(cr.rules, c) && VerdictOf(f) == v {
      InRendered(Reported(cr.rules), c, f);
      var t :| t in Reported(cr.rules) && f == Render(t, c);
      ReportedTrigger(cr.rules, t);
      var i :| 0 <= i < |cr.rules| && FirstFiring(cr.rules, i, t.variant)
               && t.wild == WildFor(PolicyRuleOf(cr.rules[i]), t.variant);
      DecidesIs(st, k, cr.rules, i, t.variant, v);
    }
    if i, variant :| 0 <= i < |cr.rules| && Decides(st, k, cr.rules, i, variant, v) {
      DecidesIs(st, k, cr.rules, i, variant, v);
      var t := Trigger(variant, WildFor(PolicyRuleOf(cr.rules[i]), variant));
      ReportedTrigger(cr.rules, t);
      InRendered(Reported(cr.rules), c, Render(t, c));
    }
  }

  lemma {:induction false} BoundSeverityIs(st: Store, name: string, wild: bool)
    ensures SeverityFor(ClusterRoleScope(name, st.clusterRoleBindings, st.roleBindings), wild, false)
            == BoundSeverity(st, name, wild)
  {
    hide SeverityFor, ClusterRoleScope, BindsClusterRole, RefersTo;
    forall b ensures BindsClusterRole(b, name) <==> RefersTo(b, "ClusterRole", name) {
      ReferenceSame(b, name, "");
    }
    ClusterRoleSeverity(name, st.clusterRoleBindings, st.roleBindings, wild);
  }

  /** A whole report says about cluster roles exactly what is due. */
  lemma {:induction false} ClusterRoleVerdictsExact(st: Store, lib: Library, fs: seq<Finding>, v: Verdict)
    requires WellKeyed(st) && IsReport(st, lib, fs) && v.id.kind == ClusterRole
    ensures v in Verdicts(fs) <==>
            && v.id.namespace == "" && v.id.name in st.clusterRoles
            && ClusterRoleDue(st, v.id.name, st.clusterRoles[v.id.name], v)
  {
    hide WellKeyed, Visits, FullReport, ClusterRoleDue, ClusterRoleFindings, FlatMap;
    var o :| Visits(o, st) && fs == FullReport(st, o, lib);
    InVerdicts(fs, v);
    if f :| f in fs && VerdictOf(f) == v {
      PartOfKind(st, o, lib, f);
      assert PartsOf(st, o, lib).clusterRoles == FlatMap(o.clusterRoles, ClusterRolePhase(st));
      InFlatMap(o.clusterRoles, ClusterRolePhase(st), f);
      var k :| k in o.clusterRoles && f in ClusterRolePhase(st)(k);
      ClusterRoleShape(k, st.clusterRoles[k], st.clusterRoleBindings, st.roleBindings);
      InVerdicts(ClusterRolePhase(st)(k), v);
      StoredClusterRole(st, k, v);
    }
    if v.id.namespace == "" && v.id.name in st.clusterRoles {
      StoredClusterRole(st, v.id.name, v);
      InVerdicts(ClusterRolePhase(st)(v.id.name), v);
      if f :| f in ClusterRolePhase(st)(v.id.name) && VerdictOf(f) == v {
        ClusterRoleInReport(st, o, lib, v.id.name, f);
      }
    }
  }

  lemma {:induction false} DueIsSaid(st: Store, name: string, cr: ClusterRoleData, id: Identity)
    ensures (exists severity :: ClusterRoleDue(st, name, cr, Verdict(id, severity))) <==>
            RuleSaid(cr.rules, id.rule) || (id.rule == 15 && "aggregationRule" in cr.doc)
  {
    hide BoundSeverity, SaysVariant, SaysWildcard, Says;
    forall r, variant | variant == Plain(id.rule) || (variant == AnyGroup && id.rule == 1)
      ensures SaysVariant(r, variant) ==> Says(r, id.rule)
    {
      VariantSaid(r, id.rule);
    }
    if severity :| ClusterRoleDue(st, name, cr, Verdict(id, severity)) {
      if i, variant :| 0 <= i < |cr.rules| && Decides(st, name, cr.rules, i, variant, Verdict(id, severity)) {
        assert cr.rules[i] in cr.rules;
      }
    }
    if r :| r in cr.rules && Says(r, id.rule) {
      VariantSaid(r, id.rule);
      var variant := if SaysVariant(r, Plain(id.rule)) then Plain(id.rule) else AnyGroup;
      var i := FirstSaying(cr.rules, r, variant);
      var severity := BoundSeverity(st, name, variant == AnyGroup || SaysWildcard(cr.rules[i]));
      assert Decides(st, name, cr.rules, i, variant, Verdict(id, severity));
      assert ClusterRoleDue(st, name, cr, Verdict(id, severity));
    }
    if id.rule == 15 && "aggregationRule" in cr.doc {
      assert ClusterRoleDue(st, name, cr, Verdict(id, 0));
    }
  }

  lemma {:induction false} VariantSaid(r: Doc, id: RuleId)
    ensures Says(r, id) <==> SaysVariant(r, Plain(id)) || (id == 1 && SaysVariant(r, AnyGroup))
  {
    hide ListsText;
  }

  lemma {:induction false} FirstSaying(rules: seq<Doc>, r: Doc, variant: Variant) returns (i: nat)
    requires r in rules && SaysVariant(r, variant)
    ensures i < |rules| && SaysVariant(rules[i], variant) && forall j :: 0 <= j < i ==> !SaysVariant(rules[j], variant)
  {
    hide SaysVariant;
    i := 0;
    while !SaysVariant(rules[i], variant)
      invariant i < |rules| && forall j :: 0 <= j < i ==> !SaysVariant(rules[j], variant)
      decreases |rules| - i
    {
      var k :| 0 <= k < |rules| && rules[k] == r;
      i := i + 1;
    }
  }

  /** So a whole report names a cluster role exactly for the rules its own rules trigger, and for KC-015
      exactly when it is aggregated. */
  lemma {:induction false} ClusterRoleIdsExact(st: Store, lib: Library, fs: seq<Finding>, id: Identity)
    requires WellKeyed(st) && IsReport(st, lib, fs) && id.kind == ClusterRole
    ensures id in Ids(fs) <==>
            && id.namespace == "" && id.name in st.clusterRoles
            && (|| RuleSaid(st.clusterRoles[id.name].rules, id.rule)
                || (id.rule == 15 && "aggregationRule" in st.clusterRoles[id.name].doc))
  {
    hide WellKeyed, IsReport, ClusterRoleDue, RuleSaid, Verdicts, Ids;
    InIds(fs, id);
    forall severity
      ensures Verdict(id, severity) in Verdicts(fs) <==> exists f :: f in fs && VerdictOf(f) == Verdict(id, severity)
      ensures Verdict(id, severity) in Verdicts(fs) <==>
              && id.namespace == "" && id.name in st.clusterRoles
              && ClusterRoleDue(st, id.name, st.clusterRoles[id.name], Verdict(id, severity))
    {
      InVerdicts(fs, Verdict(id, severity));
      ClusterRoleVerdictsExact(st, lib, fs, Verdict(id, severity));
    }
    if f :| f in fs && f.id == id {
      assert VerdictOf(f) == Verdict(id, f.severity);
    }
    if id.name in st.clusterRoles {
      DueIsSaid(st, id.name, st.clusterRoles[id.name], id);
    }
  }

  lemma {:induction false} ClusterRoleInReport(st: Store, o: Orders, lib: Library, k: string, f: Finding)
    requires Visits(o, st) && k in st.clusterRoles && f in ClusterRolePhase(st)(k)
    ensures f in FullReport(st, o, lib)
  {
    hide FlatMap, PodSecurityReport, PolicyReport, ConstraintReport, ExposureReport, SecretReport, ChainReport,
         ClusterRoleFindings, RolePhase;
    InFlatMap(o.clusterRoles, ClusterRolePhase(st), f);
    assert k in o.clusterRoles;
  }
}
