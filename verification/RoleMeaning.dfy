/** What a role's rules must say for each rule ID to be reported, in the words of the manifest. */
module RoleMeaning {
  import opened Values
  import opened Models
  import opened Documents
  import opened Rules
  import opened RoleRules
  import opened RoleTheorems

  /** One of the texts is listed under the key. */
  ghost predicate ListsOne(rule: Doc, key: string, texts: set<string>) {
    exists text :: text in texts && ListsText(rule, key, text)
  }

  /** The rule lists one of the resources, and their API group or all groups. */
  ghost predicate Names(rule: Doc, group: string, resources: set<string>) {
    ListsOne(rule, "resources", resources) && ListsOne(rule, "apiGroups", {group, "*"})
  }

  /** The rule grants one of the verbs on one of the resources of the group, literally or by wildcards. */
  ghost predicate Allows(rule: Doc, verbs: set<string>, group: string, resources: set<string>) {
    ListsOne(rule, "verbs", verbs + {"*"}) && Names(rule, group, resources + {"*"})
  }

  /** What a rule must say to be reported under KC-0nn. */
  ghost predicate Says(rule: Doc, id: RuleId) {
    match id
    case 1 => ListsText(rule, "resources", "*") || ListsText(rule, "apiGroups", "*")
    case 2 => ListsText(rule, "verbs", "*")
    case 3 => ListsText(rule, "verbs", "escalate")
    case 4 => ListsText(rule, "verbs", "impersonate")
    case 5 => ListsText(rule, "verbs", "bind")
    case 6 => Names(rule, "", {"secrets"})
    case 7 => Names(rule, "", {"pods/exec", "pods/attach", "pods/log", "pods/ephemeralcontainers", "pods/portforward"})
    case 8 => Names(rule, "", {"nodes", "nodes/proxy"})
    case 9 => Names(rule, "", {"persistentvolumes"})
    case 10 => Names(rule, "rbac.authorization.k8s.io", {"clusterroles", "clusterrolebindings"})
    case 11 =>
      Allows(rule, {"create", "patch", "update"}, "rbac.authorization.k8s.io",
             {"roles", "clusterroles", "rolebindings", "clusterrolebindings"})
    case 12 =>
      || Allows(rule, {"create"}, "", {"pods", "replicationcontrollers"})
      || Allows(rule, {"create"}, "apps", {"deployments", "daemonsets", "statefulsets", "replicasets"})
      || Allows(rule, {"create"}, "batch", {"jobs", "cronjobs"})
      || Allows(rule, {"create"}, "apps.openshift.io", {"deploymentconfigs"})
    case 16 => Names(rule, "networking.k8s.io", {"networkpolicies"})
    case 23 => Allows(rule, {"use"}, "security.openshift.io", {"securitycontextconstraints"})
    case 30 => Allows(rule, {"create"}, "", {"serviceaccounts/token"})
    case 31 =>
      || Allows(rule, {"approve", "sign"}, "certificates.k8s.io",
                {"certificatesigningrequests", "certificatesigningrequests/approval",
                 "certificatesigningrequests/status", "signers"})
      || Allows(rule, {"update", "patch"}, "certificates.k8s.io",
                {"certificatesigningrequests/approval", "certificatesigningrequests/status"})
    case _ => false
  }

  /** Whether wildcards raise the severity of what the rule is reported for. */
  ghost predicate SaysWildcard(rule: Doc) {
    ListsText(rule, "verbs", "*") || ListsText(rule, "resources", "*")
  }

  // ----- lists and wildcards

  lemma {:induction false} ListsSame(rule: Doc)
    ensures var p := PolicyRuleOf(rule);
            && (forall x :: x in p.verbs <==> ListsText(rule, "verbs", x))
            && (forall x :: x in p.resources <==> ListsText(rule, "resources", x))
            && (forall x :: x in p.groups <==> ListsText(rule, "apiGroups", x))
  {
    hide ListsText, StringItems;
    var p := PolicyRuleOf(rule);
    forall x
      ensures x in p.verbs <==> ListsText(rule, "verbs", x)
      ensures x in p.resources <==> ListsText(rule, "resources", x)
      ensures x in p.groups <==> ListsText(rule, "apiGroups", x)
    {
      ReadTexts(rule, "verbs", x);
      ReadTexts(rule, "resources", x);
      ReadTexts(rule, "apiGroups", x);
    }
  }

  lemma {:induction false} ListsAnySame(xs: seq<string>, rule: Doc, key: string, wanted: set<string>)
    requires forall x :: x in xs <==> ListsText(rule, key, x)
    ensures ListsAny(xs, wanted) <==> ListsOne(rule, key, wanted + {"*"})
    ensures (exists x :: x in xs && x in wanted) <==> ListsOne(rule, key, wanted)
  {
    hide ListsText;
    if x :| x in xs && Hits(x, wanted) {
      assert x in wanted + {"*"};
    }
    if text :| text in wanted + {"*"} && ListsText(rule, key, text) {
      assert text in xs && Hits(text, wanted);
    }
  }

  lemma {:induction false} ListsIt(xs: seq<string>, rule: Doc, key: string, x: string)
    requires forall x :: x in xs <==> ListsText(rule, key, x)
    ensures Lists(xs, x) <==> ListsOne(rule, key, {x, "*"})
  {
    hide ListsText;
    assert Lists(xs, x) ==> (if x in xs then x else "*") in {x, "*"};
  }

  lemma {:induction false} AllowsIsGranted(rule: Doc, verbs: set<string>, group: string, resources: set<string>)
    requires verbs != {} && resources != {}
    ensures Allows(rule, verbs, group, resources) <==> GrantsOneOf(PolicyRuleOf(rule), Targets(verbs, group, resources))
  {
    hide ListsAny, Lists, ListsOne, ListsText, GrantsOneOf, Targets, PolicyRuleOf;
    var p := PolicyRuleOf(rule);
    ListsSame(rule);
    ProductGranted(p, verbs, group, resources);
    ListsAnySame(p.verbs, rule, "verbs", verbs);
    ListsAnySame(p.resources, rule, "resources", resources);
    ListsIt(p.groups, rule, "apiGroups", group);
  }

  // ----- the families

  lemma {:induction false} VerbMeaning(rule: Doc, id: RuleId)
    requires id in {2, 3, 4, 5}
    ensures Fires(PolicyRuleOf(rule), Plain(id)) <==> Says(rule, id)
  {
    hide ListsText, HomeGroup, PolicyRuleOf, Lists;
    ListsSame(rule);
    VerbTable(id);
    NoResourceRule(PolicyRuleOf(rule), id);
  }

  lemma {:induction false} VerbTable(id: RuleId)
    requires id in {2, 3, 4, 5}
    ensures forall verb :: DangerousVerb(verb) == Some(id) <==>
              verb == if id == 2 then "*" else if id == 3 then "escalate" else if id == 4 then "impersonate" else "bind"
  {
  }

  lemma {:induction false} NoResourceRule(p: PolicyRule, id: RuleId)
    requires id in {2, 3, 4, 5}
    ensures forall res :: !ResourceFires(p, res, id)
  {
  }

  /** The resources behind each rule ID, and their home group. */
  ghost function SensitiveGroup(id: RuleId): string {
    match id
    case 10 => "rbac.authorization.k8s.io"
    case 16 => "networking.k8s.io"
    case _ => ""
  }

  ghost function SensitiveNames(id: RuleId): set<string> {
    match id
    case 6 => {"secrets"}
    case 7 => {"pods/exec", "pods/attach", "pods/log", "pods/ephemeralcontainers", "pods/portforward"}
    case 8 => {"nodes", "nodes/proxy"}
    case 9 => {"persistentvolumes"}
    case 10 => {"clusterroles", "clusterrolebindings"}
    case 16 => {"networkpolicies"}
    case _ => {}
  }

  lemma {:induction false} ResourceTable(id: RuleId, res: string)
    requires id in {6, 7, 8, 9, 10, 16}
    ensures DangerousResource(res) == Some(id) <==> res in SensitiveNames(id)
    ensures res in SensitiveNames(id) ==> res != "*" && HomeGroup(res) == SensitiveGroup(id)
  {
  }

  lemma {:induction false} NoVerbRule(id: RuleId)
    requires id !in {2, 3, 4, 5}
    ensures forall verb :: DangerousVerb(verb) != Some(id)
  {
  }

  lemma {:induction false} SaysNames(rule: Doc, id: RuleId)
    requires id in {6, 7, 8, 9, 10, 16}
    ensures Says(rule, id) <==> Names(rule, SensitiveGroup(id), SensitiveNames(id))
  {
    hide Names;
  }

  lemma {:induction false} ResourceMeaning(rule: Doc, id: RuleId)
    requires id in {6, 7, 8, 9, 10, 16}
    ensures Fires(PolicyRuleOf(rule), Plain(id)) <==> Says(rule, id)
  {
    hide ListsText, DangerousResource, DangerousVerb, HomeGroup, PolicyRuleOf, Lists, Says, SensitiveNames,
         SensitiveGroup,
         ListsOne;
    var p := PolicyRuleOf(rule);
    ListsSame(rule);
    NoVerbRule(id);
    SaysNames(rule, id);
    ListsAnySame(p.resources, rule, "resources", SensitiveNames(id));
    ListsIt(p.groups, rule, "apiGroups", SensitiveGroup(id));
    forall res
      ensures ResourceFires(p, res, id) <==> res in SensitiveNames(id) && Lists(p.groups, SensitiveGroup(id))
    {
      ResourceTable(id, res);
    }
  }

  lemma {:induction false} WildcardMeaning(rule: Doc)
    ensures Fires(PolicyRuleOf(rule), Plain(1)) <==> ListsText(rule, "resources", "*")
    ensures Fires(PolicyRuleOf(rule), AnyGroup) <==> ListsText(rule, "apiGroups", "*")
    ensures Wild(PolicyRuleOf(rule)) <==> SaysWildcard(rule)
  {
    hide ListsText, HomeGroup, PolicyRuleOf, DangerousVerb;
    ListsSame(rule);
    NoVerbRule(1);
    assert forall res :: DangerousResource(res) == Some(1) <==> res == "*";
  }

  lemma {:induction false} ComboMeaning(rule: Doc, id: RuleId)
    requires id in {11, 12, 23, 30, 31}
    ensures Fires(PolicyRuleOf(rule), Plain(id)) <==> Says(rule, id)
  {
    hide Allows, GrantsOneOf, Targets, PolicyRuleOf, DangerousVerb, DangerousResource;
    AllowsIsGranted(rule, {"create", "patch", "update"}, "rbac.authorization.k8s.io",
                    {"roles", "clusterroles", "rolebindings", "clusterrolebindings"});
    AllowsIsGranted(rule, {"use"}, "security.openshift.io", {"securitycontextconstraints"});
    AllowsIsGranted(rule, {"create"}, "", {"serviceaccounts/token"});
    if id == 12 {
      CreationMeaning(rule);
    } else if id == 31 {
      ApprovalMeaning(rule);
    }
  }

  lemma {:induction false} CreationMeaning(rule: Doc)
    ensures GrantsOneOf(PolicyRuleOf(rule), TargetsOf(12)) <==> Says(rule, 12)
  {
    hide Allows, GrantsOneOf, Targets, PolicyRuleOf;
    var p := PolicyRuleOf(rule);
    var t1 := Targets({"create"}, "", {"pods", "replicationcontrollers"});
    var t2 := Targets({"create"}, "apps", {"deployments", "daemonsets", "statefulsets", "replicasets"});
    var t3 := Targets({"create"}, "batch", {"jobs", "cronjobs"});
    var t4 := Targets({"create"}, "apps.openshift.io", {"deploymentconfigs"});
    AllowsIsGranted(rule, {"create"}, "", {"pods", "replicationcontrollers"});
    AllowsIsGranted(rule, {"create"}, "apps", {"deployments", "daemonsets", "statefulsets", "replicasets"});
    AllowsIsGranted(rule, {"create"}, "batch", {"jobs", "cronjobs"});
    AllowsIsGranted(rule, {"create"}, "apps.openshift.io", {"deploymentconfigs"});
    UnionGranted(p, t1, t2);
    UnionGranted(p, t1 + t2, t3);
    UnionGranted(p, t1 + t2 + t3, t4);
  }

  lemma {:induction false} ApprovalMeaning(rule: Doc)
    ensures GrantsOneOf(PolicyRuleOf(rule), TargetsOf(31)) <==> Says(rule, 31)
  {
    hide Allows, GrantsOneOf, Targets, PolicyRuleOf;
    var all := {"certificatesigningrequests", "certificatesigningrequests/approval",
                "certificatesigningrequests/status", "signers"};
    var some := {"certificatesigningrequests/approval", "certificatesigningrequests/status"};
    AllowsIsGranted(rule, {"approve", "sign"}, "certificates.k8s.io", all);
    AllowsIsGranted(rule, {"update", "patch"}, "certificates.k8s.io", some);
    UnionGranted(PolicyRuleOf(rule), Targets({"approve", "sign"}, "certificates.k8s.io", all),
                 Targets({"update", "patch"}, "certificates.k8s.io", some));
  }

  lemma {:induction false} OtherMeaning(rule: Doc, id: RuleId)
    requires id !in {1, 2, 3, 4, 5, 6, 7, 8, 9, 10, 11, 12, 16, 23, 30, 31}
    ensures !Fires(PolicyRuleOf(rule), Plain(id)) && !Says(rule, id)
  {
    hide HomeGroup, PolicyRuleOf, Lists;
    NoVerbRule(id);
    assert forall res :: DangerousResource(res) != Some(id);
  }

  /** What fires is what the manifest says. */
  lemma {:induction false} FiresMeaning(rule: Doc, id: RuleId)
    ensures Fires(PolicyRuleOf(rule), Plain(id)) || (id == 1 && Fires(PolicyRuleOf(rule), AnyGroup)) <==> Says(rule, id)
  {
    hide Fires, PolicyRuleOf, ListsText, Names, Allows;
    if id == 1 {
      WildcardMeaning(rule);
    } else if id in {2, 3, 4, 5} {
      VerbMeaning(rule, id);
    } else if id in {6, 7, 8, 9, 10, 16} {
      ResourceMeaning(rule, id);
    } else if id in {11, 12, 23, 30, 31} {
      ComboMeaning(rule, id);
    } else {
      OtherMeaning(rule, id);
    }
  }

  /** What a rule must say for one variant; KC-001 has one for resources and one for API groups. */
  ghost predicate SaysVariant(rule: Doc, v: Variant) {
    match v
    case AnyGroup => ListsText(rule, "apiGroups", "*")
    case Plain(id) => if id == 1 then ListsText(rule, "resources", "*") else Says(rule, id)
  }

  lemma {:induction false} VariantMeaning(rule: Doc, v: Variant)
    ensures Fires(PolicyRuleOf(rule), v) <==> SaysVariant(rule, v)
    ensures WildFor(PolicyRuleOf(rule), v) <==> v == AnyGroup || SaysWildcard(rule)
  {
    hide Fires, PolicyRuleOf, ListsText, Says, SaysWildcard;
    WildcardMeaning(rule);
    if v.Plain? {
      FiresMeaning(rule, v.rule);
    }
  }

  // ----- the findings of a role

  /** Each rule ID is reported for a role exactly when some rule of the role says what it takes. */
  lemma {:induction false} RoleIdsMeaning(rules: seq<Doc>, c: RoleContext, id: RuleId)
    ensures RoleIdentity(id, c.owner) in Ids(RoleFindings(rules, c)) <==> exists r :: r in rules && Says(r, id)
  {
    hide RoleFindings, Says, Fires, PolicyRuleOf;
    RoleFindingsCount(rules, c, id);
    forall r | r in rules
      ensures Fires(PolicyRuleOf(r), Plain(id)) || (id == 1 && Fires(PolicyRuleOf(r), AnyGroup)) <==> Says(r, id)
    {
      FiresMeaning(r, id);
    }
  }

  /** No grant on a sensitive resource is missed: whichever verb a rule grants on it, literally or by
      wildcards, the role is reported for the resource or for wildcard resources. */
  lemma {:induction false} SensitiveGrantReported(rules: seq<Doc>, rule: Doc, c: RoleContext, verb: string,
                                                  resource: string, id: RuleId)
    requires rule in rules && id in {6, 7, 8, 9, 10, 16} && resource in SensitiveNames(id)
    requires Allows(rule, {verb}, SensitiveGroup(id), {resource})
    ensures RoleIdentity(id, c.owner) in Ids(RoleFindings(rules, c))
            || RoleIdentity(1, c.owner) in Ids(RoleFindings(rules, c))
  {
    hide RoleFindings, ListsText, Says;
    RoleIdsMeaning(rules, c, id);
    RoleIdsMeaning(rules, c, 1);
    SaysNames(rule, id);
    assert ListsText(rule, "resources", "*") ==> Says(rule, 1) by {
      WildcardSays(rule);
    }
  }

  lemma {:induction false} WildcardSays(rule: Doc)
    ensures ListsText(rule, "resources", "*") ==> Says(rule, 1)
  {
  }

  /** Some rule lists the text under the key. */
  ghost predicate SomeLists(rules: seq<Doc>, key: string, text: string) {
    exists r :: r in rules && ListsText(r, key, text)
  }

  /** KC-001 is reported once for wildcard resources and once for wildcard API groups, every other rule ID
      at most once. */
  lemma {:induction false} RoleCountsMeaning(rules: seq<Doc>, c: RoleContext, id: RuleId)
    ensures var count := multiset(Ids(RoleFindings(rules, c)))[RoleIdentity(id, c.owner)];
            if id == 1 then
              count == (if SomeLists(rules, "resources", "*") then 1 else 0)
                       + (if SomeLists(rules, "apiGroups", "*") then 1 else 0)
            else count == if exists r :: r in rules && Says(r, id) then 1 else 0
  {
    hide RoleFindings, Says, Fires, PolicyRuleOf, ListsText;
    RoleFindingsCount(rules, c, id);
    forall r | r in rules
      ensures Fires(PolicyRuleOf(r), Plain(1)) <==> ListsText(r, "resources", "*")
      ensures Fires(PolicyRuleOf(r), AnyGroup) <==> ListsText(r, "apiGroups", "*")
      ensures Fires(PolicyRuleOf(r), Plain(id)) || (id == 1 && Fires(PolicyRuleOf(r), AnyGroup)) <==> Says(r, id)
    {
      FiresMeaning(r, id);
      WildcardMeaning(r);
    }
  }
}
