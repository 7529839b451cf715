/** What a network policy must say for KC-017 and KC-018, in the words of the manifest and for every document,
    well formed or not. */
module NetworkMeaning {
  import opened Sequences
  import opened Values
  import opened Models
  import opened Documents
  import opened NetworkPolicies
  import opened NetworkTheorems

  // ----- directions

  /** The directions a policy covers: those that policyTypes names, and if it names none, Ingress always and
      Egress when there is an egress rule. */
  ghost predicate CoversDirection(spec: Doc, direction: string) {
    if exists text :: ListsText(spec, "policyTypes", text) then ListsText(spec, "policyTypes", direction)
    else direction == "Ingress" || (direction == "Egress" && HasEntries(spec, "egress"))
  }

  lemma {:induction false} DirectionMeaning(spec: Doc, direction: string)
    ensures DirectionEnabled(spec, direction) <==> CoversDirection(spec, direction)
  {
    hide ListsText, StringItems, ListField, HasEntries;
    var types := StringItems(Field(spec, "policyTypes"));
    forall text ensures text in types <==> ListsText(spec, "policyTypes", text) {
      ReadTexts(spec, "policyTypes", text);
    }
    assert types != [] ==> types[0] in types;
    ReadEntries(spec, "egress");
  }

  // ----- peers

  predicate IsNull(doc: Doc, key: string) {
    key !in doc || doc[key] == Null
  }

  /** The field holds a selector that has nothing but labels and expressions, and those empty or null. */
  ghost predicate HoldsOpenSelector(doc: Doc, key: string) {
    && MapAt(doc, key).Some?
    && forall entry :: entry in MapAt(doc, key).value ==>
         || (entry == "matchLabels" && MapAt(doc, key).value[entry] in {Null, Map(map[])})
         || (entry == "matchExpressions" && MapAt(doc, key).value[entry] in {Null, List([])})
  }

  /** The field holds an IP block of prefix length 0 and without exceptions. */
  predicate HoldsOpenBlock(doc: Doc, key: string, parse: CidrParser) {
    && MapAt(doc, key).Some?
    && var block := MapAt(doc, key).value;
       && "cidr" in block && block["cidr"].Str?
       && parse(block["cidr"].text).Some? && parse(block["cidr"].text).value.bits == 0
       && (IsNull(block, "except") || block["except"] == List([]))
  }

  /** The reason is given for the peer. */
  ghost predicate PeerGives(peer: Doc, reason: Reason, parse: CidrParser) {
    match reason
    case OmittedPeers => false
    case EmptyPeerList => false
    case EmptyPeer => peer == map[]
    case AllNamespaces => HoldsOpenSelector(peer, "namespaceSelector")
    case AllPods => HoldsOpenSelector(peer, "podSelector") && "namespaceSelector" !in peer
    case AllAddresses => HoldsOpenBlock(peer, "ipBlock", parse)
  }

  ghost predicate RuleGives(rule: Doc, peerKey: string, reason: Reason, parse: CidrParser) {
    match reason
    case OmittedPeers => IsNull(rule, peerKey)
    case EmptyPeerList => peerKey in rule && rule[peerKey] == List([])
    case _ => exists peer :: ListsMap(rule, peerKey, peer) && PeerGives(peer, reason, parse)
  }

  /** Some rule gives the reason. */
  ghost predicate RulesGive(spec: Doc, rulesKey: string, peerKey: string, reason: Reason, parse: CidrParser) {
    exists rule :: ListsMap(spec, rulesKey, rule) && RuleGives(rule, peerKey, reason, parse)
  }

  lemma {:induction false} OpenSelectorMeaning(doc: Doc, key: string)
    ensures OpenSelector(doc, key) <==> HoldsOpenSelector(doc, key)
  {
    ReadMap(doc, key);
  }

  lemma {:induction false} OpenBlockMeaning(peer: Doc, parse: CidrParser)
    ensures SubMap(peer, "ipBlock").Some? && BlockMatchesAllIps(peer["ipBlock"].fields, parse)
            <==> HoldsOpenBlock(peer, "ipBlock", parse)
  {
  }

  lemma {:induction false} PeerMeaning(peer: Doc, reason: Reason, parse: CidrParser)
    ensures reason in PeerReasons(peer, parse) <==> PeerGives(peer, reason, parse)
  {
    hide OpenSelector, HoldsOpenSelector, BlockMatchesAllIps, HoldsOpenBlock;
    OpenSelectorMeaning(peer, "namespaceSelector");
    OpenSelectorMeaning(peer, "podSelector");
    OpenBlockMeaning(peer, parse);
    NothingOpen(parse);
  }

  lemma {:induction false} NothingOpen(parse: CidrParser)
    ensures !HoldsOpenSelector(map[], "namespaceSelector") && !HoldsOpenSelector(map[], "podSelector")
    ensures !HoldsOpenBlock(map[], "ipBlock", parse)
  {
  }

  lemma {:induction false} RuleMeaning(rule: Doc, peerKey: string, reason: Reason, parse: CidrParser)
    ensures reason in RuleReasons(rule, peerKey, parse) <==> RuleGives(rule, peerKey, reason, parse)
  {
    hide PeerReasons, PeerGives, FlatMap;
    if peerKey in rule && rule[peerKey].List? {
      var peers := rule[peerKey].items;
      InFlatMap(peers, PeerValueReasons(parse), reason);
      forall peer
        ensures reason in PeerValueReasons(parse)(Map(peer)) <==> PeerGives(peer, reason, parse)
        ensures ListsMap(rule, peerKey, peer) <==> Map(peer) in peers
      {
        PeerMeaning(peer, reason, parse);
      }
      forall v ensures reason in PeerValueReasons(parse)(v) ==> v == Map(v.fields) {
      }
      PeerGivesNoRuleReason(parse);
    }
  }

  lemma {:induction false} PeerGivesNoRuleReason(parse: CidrParser)
    ensures forall peer :: !PeerGives(peer, OmittedPeers, parse) && !PeerGives(peer, EmptyPeerList, parse)
  {
  }

  /** The reasons listed for a direction are exactly those that its rules give, for any document. */
  lemma {:induction false} ReasonsMeaning(spec: Doc, rulesKey: string, peerKey: string, reason: Reason,
                                          parse: CidrParser)
    ensures reason in BroadPeers(ListField(spec, rulesKey), peerKey, parse)
            <==> RulesGive(spec, rulesKey, peerKey, reason, parse)
  {
    hide BroadPeers, RuleReasons, RuleGives, ListField, HasItem;
    var rules := ListField(spec, rulesKey);
    BroadPeersMember(rules, peerKey, parse, reason);
    forall v ensures v in rules <==> HasItem(spec, rulesKey, v) {
      ReadList(spec, rulesKey, v);
    }
    forall rule ensures reason in RuleReasons(rule, peerKey, parse) <==> RuleGives(rule, peerKey, reason, parse) {
      RuleMeaning(rule, peerKey, reason, parse);
    }
    if v :| v in rules && v.Map? && reason in RuleReasons(v.fields, peerKey, parse) {
      assert v == Map(v.fields) && ListsMap(spec, rulesKey, v.fields);
    }
    if rule :| ListsMap(spec, rulesKey, rule) && RuleGives(rule, peerKey, reason, parse) {
      assert Map(rule) in rules;
    }
  }

  // ----- policies

  /** The policy covers the direction, and its rules give some reason. */
  ghost predicate IsBroad(spec: Doc, direction: string, rulesKey: string, peerKey: string, parse: CidrParser) {
    CoversDirection(spec, direction) && exists reason :: RulesGive(spec, rulesKey, peerKey, reason, parse)
  }

  /** KC-017 and KC-018 are due for a policy that is broad in the direction: HIGH when its podSelector is
      missing, null or open, WARNING otherwise. */
  ghost predicate PolicySpecDue(spec: Doc, rule: RuleId, severity: Severity, parse: CidrParser) {
    && severity == (if IsNull(spec, "podSelector") || HoldsOpenSelector(spec, "podSelector") then 2 else 1)
    && (|| (rule == 17 && IsBroad(spec, "Ingress", "ingress", "from", parse))
        || (rule == 18 && IsBroad(spec, "Egress", "egress", "to", parse)))
  }

  lemma {:induction false} BroadMeaning(spec: Doc, direction: string, rulesKey: string, peerKey: string,
                                        parse: CidrParser)
    ensures Broad(spec, direction, rulesKey, peerKey, parse) <==> IsBroad(spec, direction, rulesKey, peerKey, parse)
  {
    hide BroadPeers, RulesGive, DirectionEnabled, CoversDirection;
    DirectionMeaning(spec, direction);
    var reasons := BroadPeers(ListField(spec, rulesKey), peerKey, parse);
    forall reason ensures reason in reasons <==> RulesGive(spec, rulesKey, peerKey, reason, parse) {
      ReasonsMeaning(spec, rulesKey, peerKey, reason, parse);
    }
    assert reasons != [] ==> reasons[0] in reasons;
  }

  lemma {:induction false} SeverityMeaning(spec: Doc)
    ensures PolicySeverity(spec)
            == if IsNull(spec, "podSelector") || HoldsOpenSelector(spec, "podSelector") then 2 else 1
  {
    hide OpenSelector, HoldsOpenSelector;
    OpenSelectorMeaning(spec, "podSelector");
  }

  /** A policy is reported for exactly what is due, whatever its document looks like. */
  lemma {:induction false} PolicyMeaning(policy: ObjectData, rule: RuleId, severity: Severity, parse: CidrParser)
    ensures NewFinding(rule, severity, PolicyOwner(policy)) in PolicyFindings(policy, parse) <==>
            MapAt(policy.doc, "spec").Some? && PolicySpecDue(MapAt(policy.doc, "spec").value, rule, severity, parse)
  {
    hide Broad, IsBroad, PolicySeverity, HoldsOpenSelector, IsNull;
    ReadMap(policy.doc, "spec");
    if MapAt(policy.doc, "spec").Some? {
      var spec := MapAt(policy.doc, "spec").value;
      SeverityMeaning(spec);
      BroadMeaning(spec, "Ingress", "ingress", "from", parse);
      BroadMeaning(spec, "Egress", "egress", "to", parse);
    }
  }
}
