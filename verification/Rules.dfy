/** Trigger tables, permission semantics and severities (pkg/analyzer/rules.go and the permission
    predicates of pkg/analyzer/analyzer.go). */
module Rules {
  import opened Values
  import opened Models

  // ----- what an RBAC rule grants

  datatype PolicyRule = PolicyRule(verbs: seq<string>, resources: seq<string>, groups: seq<string>)

  datatype Permission = Permission(verb: string, group: string, resource: string)

  function PolicyRuleOf(rule: Doc): PolicyRule {
    PolicyRule(StringItems(Field(rule, "verbs")), StringItems(Field(rule, "resources")),
               StringItems(Field(rule, "apiGroups")))
  }

  predicate Lists(xs: seq<string>, x: string) {
    x in xs || "*" in xs
  }

  /** Kubernetes semantics: every list holds the literal or the wildcard. */
  predicate Grants(p: PolicyRule, t: Permission) {
    Lists(p.verbs, t.verb) && Lists(p.groups, t.group) && Lists(p.resources, t.resource)
  }

  ghost predicate GrantsOneOf(p: PolicyRule, targets: iset<Permission>) {
    exists t :: t in targets && Grants(p, t)
  }

  ghost function Targets(verbs: set<string>, group: string, resources: set<string>): iset<Permission> {
    iset t: Permission | t.verb in verbs && t.group == group && t.resource in resources
  }

  const RBAC_GROUP := "rbac.authorization.k8s.io"
  const CSR_GROUP := "certificates.k8s.io"
  const SCC_GROUP := "security.openshift.io"

  const MUTATION_VERBS := {"create", "patch", "update"}
  const BINDING_RESOURCES := {"roles", "clusterroles", "rolebindings", "clusterrolebindings"}
  const CSR_RESOURCES := {"certificatesigningrequests", "certificatesigningrequests/approval",
                          "certificatesigningrequests/status", "signers"}
  const CSR_SUBRESOURCES := {"certificatesigningrequests/approval", "certificatesigningrequests/status"}
  const CORE_WORKLOADS := {"pods", "replicationcontrollers"}
  const APPS_WORKLOADS := {"deployments", "daemonsets", "statefulsets", "replicasets"}
  const BATCH_WORKLOADS := {"jobs", "cronjobs"}
  const OPENSHIFT_WORKLOADS := {"deploymentconfigs"}

  /** The permissions each combination rule is about. */
  ghost function TargetsOf(rule: RuleId): iset<Permission> {
    match rule
    case 11 => Targets(MUTATION_VERBS, RBAC_GROUP, BINDING_RESOURCES)
    case 12 => Targets({"create"}, "", CORE_WORKLOADS) + Targets({"create"}, "apps", APPS_WORKLOADS)
               + Targets({"create"}, "batch", BATCH_WORKLOADS)
               + Targets({"create"}, "apps.openshift.io", OPENSHIFT_WORKLOADS)
    case 23 => Targets({"use"}, SCC_GROUP, {"securitycontextconstraints"})
    case 30 => Targets({"create"}, "", {"serviceaccounts/token"})
    case 31 => Targets({"approve", "sign"}, CSR_GROUP, CSR_RESOURCES)
               + Targets({"update", "patch"}, CSR_GROUP, CSR_SUBRESOURCES)
    case _ => iset{}
  }

  predicate Hits(x: string, wanted: set<string>) {
    x in wanted || x == "*"
  }

  ghost predicate ListsAny(xs: seq<string>, wanted: set<string>) {
    exists x :: x in xs && Hits(x, wanted)
  }

  lemma {:induction false} ListsAnyMember(xs: seq<string>, wanted: set<string>)
    requires wanted != {}
    ensures ListsAny(xs, wanted) <==> exists x :: x in wanted && Lists(xs, x)
  {
    if ListsAny(xs, wanted) {
      var x :| x in xs && Hits(x, wanted);
      var w :| w in wanted;
      assert Lists(xs, if x in wanted then x else w);
    }
    if x :| x in wanted && Lists(xs, x) {
      assert Hits(if x in xs then x else "*", wanted);
    }
  }

  /** A product of target lists is granted exactly when each list is met separately. */
  lemma {:induction false} ProductGranted(p: PolicyRule, verbs: set<string>, group: string, resources: set<string>)
    requires verbs != {} && resources != {}
    ensures GrantsOneOf(p, Targets(verbs, group, resources))
            <==> ListsAny(p.verbs, verbs) && Lists(p.groups, group) && ListsAny(p.resources, resources)
  {
    hide Lists, ListsAny;
    ListsAnyMember(p.verbs, verbs);
    ListsAnyMember(p.resources, resources);
    if ListsAny(p.verbs, verbs) && Lists(p.groups, group) && ListsAny(p.resources, resources) {
      var v :| v in verbs && Lists(p.verbs, v);
      var r :| r in resources && Lists(p.resources, r);
      var t := Permission(v, group, r);
      assert t in Targets(verbs, group, resources) && Grants(p, t);
    }
  }

  lemma {:induction false} UnionGranted(p: PolicyRule, a: iset<Permission>, b: iset<Permission>)
    ensures GrantsOneOf(p, a + b) <==> GrantsOneOf(p, a) || GrantsOneOf(p, b)
  {
    hide Grants;
    if t :| t in a && Grants(p, t) {
      assert t in a + b;
    }
    if t :| t in b && Grants(p, t) {
      assert t in a + b;
    }
  }

  // ----- the permission predicates, as the source scans for them

  method GroupListed(groups: seq<string>, home: string) returns (matches: bool)
    ensures matches == Lists(groups, home)
  {
    for i := 0 to |groups|
      invariant home !in groups[..i] && "*" !in groups[..i]
    {
      if groups[i] == "*" || groups[i] == home {
        return true;
      }
    }
    return false;
  }

  method AnyListed(xs: seq<string>, wanted: set<string>) returns (found: bool)
    ensures found == ListsAny(xs, wanted)
  {
    for i := 0 to |xs|
      invariant forall x :: x in xs[..i] ==> !Hits(x, wanted)
    {
      if xs[i] in wanted || xs[i] == "*" {
        assert Hits(xs[i], wanted);
        return true;
      }
    }
    return false;
  }

  method HasEscalationBindingCombo(p: PolicyRule) returns (fires: bool)
    ensures fires == GrantsOneOf(p, TargetsOf(ESCALATION_BINDINGS))
  {
    ProductGranted(p, MUTATION_VERBS, RBAC_GROUP, BINDING_RESOURCES);
    var verb := AnyListed(p.verbs, MUTATION_VERBS);
    if !verb {
      return false;
    }
    var resource := AnyListed(p.resources, BINDING_RESOURCES);
    if !resource {
      return false;
    }
    fires := GroupListed(p.groups, RBAC_GROUP);
  }

  method HasSccUsePermission(p: PolicyRule) returns (fires: bool)
    ensures fires == GrantsOneOf(p, TargetsOf(SCC_USE))
  {
    ProductGranted(p, {"use"}, SCC_GROUP, {"securitycontextconstraints"});
    var group := GroupListed(p.groups, SCC_GROUP);
    if !group {
      return false;
    }
    var verb := AnyListed(p.verbs, {"use"});
    if !verb {
      return false;
    }
    fires := AnyListed(p.resources, {"securitycontextconstraints"});
  }

  predicate CsrHit(resource: string, verb: string) {
    && (resource == "*" || resource in CSR_RESOURCES)
    && (verb == "*" || verb == "approve" || verb == "sign"
        || (resource == "*" && (verb == "update" || verb == "patch"))
        || (resource == "certificatesigningrequests/approval" && (verb == "update" || verb == "patch"))
        || (resource == "certificatesigningrequests/status" && (verb == "update" || verb == "patch")))
  }

  lemma {:induction false} CsrHitSplits(resource: string, verb: string)
    ensures CsrHit(resource, verb) <==>
            || (Hits(resource, CSR_RESOURCES) && Hits(verb, {"approve", "sign"}))
            || (Hits(resource, CSR_SUBRESOURCES) && Hits(verb, {"update", "patch"}))
  {
    assert CSR_SUBRESOURCES <= CSR_RESOURCES;
  }

  lemma {:induction false} CsrGranted(p: PolicyRule)
    ensures GrantsOneOf(p, TargetsOf(CSR_APPROVAL))
            <==> Lists(p.groups, CSR_GROUP) && exists r, v :: r in p.resources && v in p.verbs && CsrHit(r, v)
  {
    hide CsrHit, Hits, Targets, Grants, Lists;
    ProductGranted(p, {"approve", "sign"}, CSR_GROUP, CSR_RESOURCES);
    ProductGranted(p, {"update", "patch"}, CSR_GROUP, CSR_SUBRESOURCES);
    UnionGranted(p, Targets({"approve", "sign"}, CSR_GROUP, CSR_RESOURCES),
                 Targets({"update", "patch"}, CSR_GROUP, CSR_SUBRESOURCES));
    forall r, v ensures CsrHit(r, v) <==>
        || (Hits(r, CSR_RESOURCES) && Hits(v, {"approve", "sign"}))
        || (Hits(r, CSR_SUBRESOURCES) && Hits(v, {"update", "patch"}))
    {
      CsrHitSplits(r, v);
    }
  }

  method HasCsrApprovalPermission(p: PolicyRule) returns (fires: bool)
    ensures fires == GrantsOneOf(p, TargetsOf(CSR_APPROVAL))
  {
    hide TargetsOf, GrantsOneOf;
    CsrGranted(p);
    var group := GroupListed(p.groups, CSR_GROUP);
    if !group {
      return false;
    }
    for i := 0 to |p.resources|
      invariant forall r, v :: r in p.resources[..i] && v in p.verbs ==> !CsrHit(r, v)
    {
      var resource := p.resources[i];
      if resource != "*" && resource !in CSR_RESOURCES {
        continue;
      }
      for j := 0 to |p.verbs|
        invariant forall v :: v in p.verbs[..j] ==> !CsrHit(resource, v)
      {
        var verb := p.verbs[j];
        if verb == "*" || verb == "approve" || verb == "sign"
           || (resource == "*" && (verb == "update" || verb == "patch"))
           || (resource == "certificatesigningrequests/approval" && (verb == "update" || verb == "patch"))
           || (resource == "certificatesigningrequests/status" && (verb == "update" || verb == "patch")) {
          assert CsrHit(resource, verb);
          return true;
        }
      }
    }
    return false;
  }

  method HasServiceAccountTokenPermission(p: PolicyRule) returns (fires: bool)
    ensures fires == GrantsOneOf(p, TargetsOf(SERVICE_ACCOUNT_TOKEN_ACCESS))
  {
    ProductGranted(p, {"create"}, "", {"serviceaccounts/token"});
    var core := GroupListed(p.groups, "");
    if !core {
      return false;
    }
    for i := 0 to |p.resources|
      invariant forall r :: r in p.resources[..i] && Hits(r, {"serviceaccounts/token"})
                            ==> !ListsAny(p.verbs, {"create"})
    {
      if p.resources[i] != "serviceaccounts/token" && p.resources[i] != "*" {
        continue;
      }
      assert Hits(p.resources[i], {"serviceaccounts/token"});
      var creates := AnyListed(p.verbs, {"create"});
      if creates {
        return true;
      }
    }
    return false;
  }

  // ----- workload creation

  predicate IsWorkloadResource(resource: string) {
    resource in CORE_WORKLOADS + APPS_WORKLOADS + BATCH_WORKLOADS + OPENSHIFT_WORKLOADS
  }

  predicate WorkloadGroupHit(group: string, resource: string) {
    || group == "*"
    || (resource in CORE_WORKLOADS && group == "")
    || (resource in APPS_WORKLOADS && group == "apps")
    || (resource in BATCH_WORKLOADS && group == "batch")
    || (resource in OPENSHIFT_WORKLOADS && group == "apps.openshift.io")
  }

  predicate AnyWorkloadGroup(group: string) {
    group == "*" || group == "" || group == "apps" || group == "batch" || group == "apps.openshift.io"
  }

  /** One resource entry and one group entry that together give access to a workload kind. */
  predicate WorkloadHit(resource: string, group: string) {
    if resource == "*" then AnyWorkloadGroup(group)
    else IsWorkloadResource(resource) && WorkloadGroupHit(group, resource)
  }

  lemma {:induction false} WorkloadHitSplits(resource: string, group: string)
    ensures WorkloadHit(resource, group) <==>
            || (Hits(resource, CORE_WORKLOADS) && Hits(group, {""}))
            || (Hits(resource, APPS_WORKLOADS) && Hits(group, {"apps"}))
            || (Hits(resource, BATCH_WORKLOADS) && Hits(group, {"batch"}))
            || (Hits(resource, OPENSHIFT_WORKLOADS) && Hits(group, {"apps.openshift.io"}))
  {
  }

  lemma {:induction false} ListsIsHit(xs: seq<string>, x: string)
    ensures Lists(xs, x) <==> ListsAny(xs, {x})
  {
    if Lists(xs, x) {
      assert Hits(if x in xs then x else "*", {x});
    }
  }

  lemma {:induction false} CreationProduct(p: PolicyRule, group: string, resources: set<string>)
    requires resources != {}
    ensures GrantsOneOf(p, Targets({"create"}, group, resources)) <==>
            && ListsAny(p.verbs, {"create"})
            && exists r, g :: r in p.resources && g in p.groups && Hits(r, resources) && Hits(g, {group})
  {
    ProductGranted(p, {"create"}, group, resources);
    ListsIsHit(p.groups, group);
  }

  lemma {:induction false} PodCreationGranted(p: PolicyRule)
    ensures GrantsOneOf(p, TargetsOf(ESCALATION_POD_CREATION)) <==>
            ListsAny(p.verbs, {"create"}) && exists r, g :: r in p.resources && g in p.groups && WorkloadHit(r, g)
  {
    hide WorkloadHit, Hits, Targets, GrantsOneOf, ListsAny;
    CreationProduct(p, "", CORE_WORKLOADS);
    CreationProduct(p, "apps", APPS_WORKLOADS);
    CreationProduct(p, "batch", BATCH_WORKLOADS);
    CreationProduct(p, "apps.openshift.io", OPENSHIFT_WORKLOADS);
    var t1, t2 := Targets({"create"}, "", CORE_WORKLOADS), Targets({"create"}, "apps", APPS_WORKLOADS);
    var t3 := Targets({"create"}, "batch", BATCH_WORKLOADS);
    var t4 := Targets({"create"}, "apps.openshift.io", OPENSHIFT_WORKLOADS);
    UnionGranted(p, t1, t2);
    UnionGranted(p, t1 + t2, t3);
    UnionGranted(p, t1 + t2 + t3, t4);
    forall r, g ensures WorkloadHit(r, g) <==>
        || (Hits(r, CORE_WORKLOADS) && Hits(g, {""}))
        || (Hits(r, APPS_WORKLOADS) && Hits(g, {"apps"}))
        || (Hits(r, BATCH_WORKLOADS) && Hits(g, {"batch"}))
        || (Hits(r, OPENSHIFT_WORKLOADS) && Hits(g, {"apps.openshift.io"}))
    {
      WorkloadHitSplits(r, g);
    }
  }

  method ApiGroupMatchesEscalationWorkload(groups: seq<string>, resource: string) returns (matches: bool)
    ensures matches <==> resource == "*" || exists g :: g in groups && WorkloadGroupHit(g, resource)
  {
    if resource == "*" {
      return true;
    }
    for i := 0 to |groups|
      invariant forall g :: g in groups[..i] ==> !WorkloadGroupHit(g, resource)
    {
      if WorkloadGroupHit(groups[i], resource) {
        return true;
      }
    }
    return false;
  }

  method HasEscalationPodCombo(p: PolicyRule) returns (fires: bool)
    ensures fires == GrantsOneOf(p, TargetsOf(ESCALATION_POD_CREATION))
  {
    hide TargetsOf, GrantsOneOf, IsWorkloadResource, WorkloadGroupHit, AnyWorkloadGroup;
    PodCreationGranted(p);
    var creates := AnyListed(p.verbs, {"create"});
    if !creates {
      return false;
    }
    for i := 0 to |p.resources|
      invariant forall r, g :: r in p.resources[..i] && g in p.groups ==> !WorkloadHit(r, g)
    {
      var resource := p.resources[i];
      if resource == "*" {
        for j := 0 to |p.groups|
          invariant forall g :: g in p.groups[..j] ==> !WorkloadHit("*", g)
        {
          if AnyWorkloadGroup(p.groups[j]) {
            assert WorkloadHit("*", p.groups[j]);
            return true;
          }
        }
        continue;
      }
      if IsWorkloadResource(resource) {
        var matches := ApiGroupMatchesEscalationWorkload(p.groups, resource);
        if matches {
          var g :| g in p.groups && WorkloadGroupHit(g, resource);
          assert WorkloadHit(resource, g);
          return true;
        }
      }
    }
    return false;
  }
}
