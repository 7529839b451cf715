/** What selectors, peers and their reasons mean for the traffic a policy lets through. */
module NetworkTheorems {
  import opened Sequences
  import opened Values
  import opened Models
  import opened NetworkPolicies
  import opened SelectorTheorems

  /** A policy's findings are HIGH exactly when the policy applies to every pod of its namespace. */
  lemma {:induction false} PolicySeverityExact(spec: Doc)
    requires SubMap(spec, "podSelector").Some? ==> WellFormedSelector(spec["podSelector"].fields)
    ensures PolicySeverity(spec) == HIGH <==>
            || Field(spec, "podSelector") == Null
            || (SubMap(spec, "podSelector").Some?
                && forall labels: Labels :: Matches(spec["podSelector"].fields, labels))
  {
    hide SelectsEverything, WellFormedSelector, Matches;
    if SubMap(spec, "podSelector").Some? {
      SelectorExact(spec["podSelector"].fields);
    }
  }

  // ----- peers

  datatype Endpoint = PodAt(ownNamespace: bool, namespaceLabels: Labels, podLabels: Labels) | Host(address: Address)

  ghost predicate BlockAdmits(block: Doc, a: Address, parse: CidrParser) {
    && parse(StringField(block, "cidr")).Some?
    && InPrefix(a, parse(StringField(block, "cidr")).value)
    && forall v :: v in ListField(block, "except") ==> !Excluded(v, a, parse)
  }

  ghost predicate Excluded(v: Value, a: Address, parse: CidrParser) {
    parse(AsString(v)).Some? && InPrefix(a, parse(AsString(v)).value)
  }

  /** Whether traffic from or to the endpoint passes the peer. That a peer without any entry lets all pass
      is the scanner's own reading of it, taken over here. */
  ghost predicate PeerAdmits(peer: Doc, e: Endpoint, parse: CidrParser) {
    || peer == map[]
    || match e
       case PodAt(own, namespaceLabels, podLabels) =>
         && (SubMap(peer, "podSelector").Some? || SubMap(peer, "namespaceSelector").Some?)
         && (if SubMap(peer, "namespaceSelector").Some? then Matches(peer["namespaceSelector"].fields, namespaceLabels)
             else own)
         && (SubMap(peer, "podSelector").Some? ==> Matches(peer["podSelector"].fields, podLabels))
       case Host(a) => SubMap(peer, "ipBlock").Some? && BlockAdmits(peer["ipBlock"].fields, a, parse)
  }

  ghost predicate RuleAdmits(rule: Doc, peerKey: string, e: Endpoint, parse: CidrParser) {
    || Field(rule, peerKey) == Null || Field(rule, peerKey) == List([])
    || exists v :: v in ListField(rule, peerKey) && v.Map? && PeerAdmits(v.fields, e, parse)
  }

  /** The block parses, and so do its exceptions, which are of the block's own family. */
  ghost predicate WellFormedBlock(block: Doc, parse: CidrParser) {
    && Field(block, "cidr").Str? && parse(block["cidr"].text).Some?
    && (Field(block, "except") == Null || Field(block, "except").List?)
    && forall v :: v in ListField(block, "except") ==> SameFamily(v, parse(block["cidr"].text).value, parse)
  }

  ghost predicate SameFamily(v: Value, p: Prefix, parse: CidrParser) {
    parse(AsString(v)).Some? && |parse(AsString(v)).value.address| == |p.address|
  }

  /** The block admits every address of length n. */
  ghost predicate BlockAdmitsFamily(n: nat, block: Doc, parse: CidrParser) {
    n > 0 && forall a: Address :: |a| == n ==> BlockAdmits(block, a, parse)
  }

  /** An IP block is reported exactly when it admits every address of some family. */
  lemma {:induction false} BlockExact(block: Doc, parse: CidrParser)
    requires WellFormedBlock(block, parse)
    ensures BlockMatchesAllIps(block, parse) <==> exists n: nat :: BlockAdmitsFamily(n, block, parse)
  {
    var p := parse(block["cidr"].text).value;
    if BlockMatchesAllIps(block, parse) {
      assert forall a: Address :: |a| == |p.address| ==> a[..0] == p.address[..0];
      assert BlockAdmitsFamily(|p.address|, block, parse);
    }
    if n: nat :| BlockAdmitsFamily(n, block, parse) {
      FamilyBlockIsOpen(n, block, parse);
    }
  }

  lemma {:induction false} FlippedOutside(p: Prefix)
    ensures InPrefix(p.address[0 := !p.address[0]], p) <==> p.bits == 0
  {
    var other := p.address[0 := !p.address[0]];
    if p.bits > 0 {
      assert other[..p.bits][0] != p.address[..p.bits][0];
    } else {
      assert other[..0] == p.address[..0];
    }
  }

  lemma {:induction false} ExceptionExcludes(block: Doc, v: Value, parse: CidrParser)
    requires WellFormedBlock(block, parse) && v in ListField(block, "except")
    ensures exists a: Address :: |a| == |parse(block["cidr"].text).value.address| && !BlockAdmits(block, a, parse)
  {
    assert SameFamily(v, parse(block["cidr"].text).value, parse);
    var excepted := parse(AsString(v)).value;
    assert Excluded(v, excepted.address, parse);
    assert !BlockAdmits(block, excepted.address, parse);
  }

  lemma {:induction false} NothingExcepted(n: nat, block: Doc, parse: CidrParser)
    requires WellFormedBlock(block, parse) && BlockAdmitsFamily(n, block, parse)
    requires n == |parse(block["cidr"].text).value.address|
    ensures ListField(block, "except") == []
  {
    if ListField(block, "except") != [] {
      ExceptionExcludes(block, ListField(block, "except")[0], parse);
    }
  }

  lemma {:induction false} FamilyBlockIsOpen(n: nat, block: Doc, parse: CidrParser)
    requires WellFormedBlock(block, parse) && BlockAdmitsFamily(n, block, parse)
    ensures BlockMatchesAllIps(block, parse)
  {
    var p := parse(block["cidr"].text).value;
    var any := seq(n, _ => false);
    assert BlockAdmits(block, any, parse) && n == |p.address|;
    var other := p.address[0 := !p.address[0]];
    assert BlockAdmits(block, other, parse);
    assert p.bits == 0 by {
      FlippedOutside(p);
    }
    assert ListField(block, "except") == [] by {
      NothingExcepted(n, block, parse);
    }
  }

  ghost predicate WellFormedPeer(peer: Doc, parse: CidrParser) {
    && (SubMap(peer, "podSelector").Some? ==> WellFormedSelector(peer["podSelector"].fields))
    && (SubMap(peer, "namespaceSelector").Some? ==> WellFormedSelector(peer["namespaceSelector"].fields))
    && (SubMap(peer, "ipBlock").Some? ==> WellFormedBlock(peer["ipBlock"].fields, parse))
  }

  ghost predicate PeerAdmitsFamily(n: nat, peer: Doc, parse: CidrParser) {
    n > 0 && forall a: Address :: |a| == n ==> PeerAdmits(peer, Host(a), parse)
  }

  /** What each selector reason says about a peer: it lets pods of every namespace through, every pod of
      the policy's own namespace, or every address of a family. */
  ghost predicate PeerOpens(peer: Doc, reason: Reason, parse: CidrParser) {
    match reason
    case AllNamespaces => forall ns: Labels :: AdmitsSomePod(peer, ns, parse)
    case AllPods =>
      && SubMap(peer, "namespaceSelector").None?
      && forall ns: Labels, pod: Labels :: PeerAdmits(peer, PodAt(true, ns, pod), parse)
    case AllAddresses => exists n: nat :: PeerAdmitsFamily(n, peer, parse)
    case _ => false
  }

  /** Some pod of a namespace with these labels, other than the policy's own, passes the peer. */
  ghost predicate AdmitsSomePod(peer: Doc, ns: Labels, parse: CidrParser) {
    exists pod: Labels :: PeerAdmits(peer, PodAt(false, ns, pod), parse)
  }

  /** The scanner reports an open namespaceSelector even beside a podSelector that contradicts itself. */
  ghost predicate Overstated(peer: Doc, reason: Reason) {
    && reason == AllNamespaces && OpenSelector(peer, "namespaceSelector")
    && SubMap(peer, "podSelector").Some? && SelectsNothing(peer["podSelector"].fields)
  }

  /** The scanner misses an open podSelector beside a namespaceSelector key that holds no selector. */
  predicate Overlooked(peer: Doc, reason: Reason) {
    reason == AllPods && "namespaceSelector" in peer
  }

  /** Each selector reason is given for exactly the peers that are open in its sense, but for the ones
      overlooked or overstated. */
  lemma {:induction false} PeerReasonsExact(peer: Doc, reason: Reason, parse: CidrParser)
    requires WellFormedPeer(peer, parse) && peer != map[]
    requires reason in {AllNamespaces, AllPods, AllAddresses}
    ensures reason in PeerReasons(peer, parse)
            <==> (PeerOpens(peer, reason, parse) && !Overlooked(peer, reason)) || Overstated(peer, reason)
  {
    hide SelectsEverything, SelectsNothing, WellFormedSelector, Matches, BlockMatchesAllIps, BlockAdmits,
         WellFormedBlock, PeerAdmits, PeerOpens;
    NamespacesOpenExact(peer, parse);
    PodsOpenExact(peer, parse);
    FamiliesAgree(peer, parse);
    FamilyMeaning(peer, parse);
  }

  lemma {:induction false} FamilyMeaning(peer: Doc, parse: CidrParser)
    ensures PeerOpens(peer, AllAddresses, parse) <==> exists n: nat :: PeerAdmitsFamily(n, peer, parse)
  {
  }

  lemma {:induction false} NamespacesOpenExact(peer: Doc, parse: CidrParser)
    requires WellFormedPeer(peer, parse) && peer != map[]
    ensures PeerOpens(peer, AllNamespaces, parse) <==>
            && OpenSelector(peer, "namespaceSelector")
            && !(SubMap(peer, "podSelector").Some? && SelectsNothing(peer["podSelector"].fields))
  {
    hide SelectsEverything, SelectsNothing, WellFormedSelector, Matches, WellFormedBlock;
    if SubMap(peer, "namespaceSelector").Some? {
      SelectorExact(peer["namespaceSelector"].fields);
      forall ns: Labels
        ensures AdmitsSomePod(peer, ns, parse) <==>
                && Matches(peer["namespaceSelector"].fields, ns)
                && !(SubMap(peer, "podSelector").Some? && SelectsNothing(peer["podSelector"].fields))
      {
        SomePodExact(peer, ns, parse);
      }
      var any: Labels := map[];
      assert PeerOpens(peer, AllNamespaces, parse) ==> AdmitsSomePod(peer, any, parse);
    } else {
      assert forall pod: Labels :: !PeerAdmits(peer, PodAt(false, map[], pod), parse);
      assert !AdmitsSomePod(peer, map[], parse);
    }
  }

  lemma {:induction false} SomePodExact(peer: Doc, ns: Labels, parse: CidrParser)
    requires WellFormedPeer(peer, parse) && SubMap(peer, "namespaceSelector").Some?
    ensures AdmitsSomePod(peer, ns, parse) <==>
            && Matches(peer["namespaceSelector"].fields, ns)
            && !(SubMap(peer, "podSelector").Some? && SelectsNothing(peer["podSelector"].fields))
  {
    hide SelectsNothing, WellFormedSelector, Matches, WellFormedBlock;
    if SubMap(peer, "podSelector").Some? {
      SelectsNothingExact(peer["podSelector"].fields);
      if pod: Labels :| Matches(peer["podSelector"].fields, pod) {
        assert Matches(peer["namespaceSelector"].fields, ns) ==> PeerAdmits(peer, PodAt(false, ns, pod), parse);
      }
    } else {
      assert Matches(peer["namespaceSelector"].fields, ns) ==> PeerAdmits(peer, PodAt(false, ns, map[]), parse);
    }
  }

  lemma {:induction false} PodsOpenExact(peer: Doc, parse: CidrParser)
    requires WellFormedPeer(peer, parse) && peer != map[]
    ensures PeerOpens(peer, AllPods, parse) <==>
            && SubMap(peer, "namespaceSelector").None? && SubMap(peer, "podSelector").Some?
            && SelectsEverything(peer["podSelector"].fields)
  {
    hide SelectsEverything, WellFormedSelector, Matches, WellFormedBlock;
    if SubMap(peer, "podSelector").Some? {
      SelectorExact(peer["podSelector"].fields);
      if PeerOpens(peer, AllPods, parse) {
        forall pod: Labels ensures Matches(peer["podSelector"].fields, pod) {
          assert PeerAdmits(peer, PodAt(true, map[], pod), parse);
        }
      }
    } else {
      assert SubMap(peer, "namespaceSelector").None? ==> !PeerAdmits(peer, PodAt(true, map[], map[]), parse);
    }
  }

  /** A peer that admits every pod of the policy's namespace and gets no reason at all. */
  lemma {:induction false} NullNamespaceSelectorMissed(parse: CidrParser)
    ensures var peer := map["namespaceSelector" := Null, "podSelector" := Map(map[])];
            && WellFormedPeer(peer, parse) && PeerOpens(peer, AllPods, parse) && PeerReasons(peer, parse) == []
  {
    var peer := map["namespaceSelector" := Null, "podSelector" := Map(map[])];
    assert SelectsEverything(map[]) && WellFormedSelector(map[]);
    PodsOpenExact(peer, parse);
  }

  /** The reason for open pods is given exactly as it should be, except for the peers with an open
      podSelector whose namespaceSelector key holds something other than a selector. */
  lemma {:induction false} OpenPodsReportedIff(peer: Doc, parse: CidrParser)
    requires WellFormedPeer(peer, parse) && peer != map[]
    ensures (AllPods in PeerReasons(peer, parse) <==> PeerOpens(peer, AllPods, parse)) <==>
            !(&& "namespaceSelector" in peer && !peer["namespaceSelector"].Map?
              && SubMap(peer, "podSelector").Some? && SelectsEverything(peer["podSelector"].fields))
  {
    hide PeerReasons, PeerOpens, SelectsEverything, WellFormedPeer;
    PeerReasonsExact(peer, AllPods, parse);
    PodsOpenExact(peer, parse);
  }

  function RequirementOn(key: string, operator: string): Value {
    Map(map["key" := Str(key), "operator" := Str(operator)])
  }

  /** A selector that asks for a label and forbids it. */
  function Contradiction(): Doc {
    map["matchExpressions" := List([RequirementOn("app", "Exists"), RequirementOn("app", "DoesNotExist")])]
  }

  lemma {:induction false} ContradictionClashes()
    ensures WellFormedSelector(Contradiction()) && SelectsNothing(Contradiction())
  {
    var needed, denied := RequirementOn("app", "Exists"), RequirementOn("app", "DoesNotExist");
    assert ListField(Contradiction(), "matchExpressions") == [needed, denied];
    assert needed in [needed, denied] && denied in [needed, denied];
    assert Asks(needed, "app", "Exists") && Asks(denied, "app", "DoesNotExist");
    assert Clash(Contradiction(), "app");
  }

  /** A peer that lets no pod through and is reported as open to all namespaces. */
  lemma {:induction false} ContradictionReported(parse: CidrParser)
    ensures var peer := map["namespaceSelector" := Map(map[]), "podSelector" := Map(Contradiction())];
            && WellFormedPeer(peer, parse) && AllNamespaces in PeerReasons(peer, parse)
            && forall own, ns: Labels, pod: Labels :: !PeerAdmits(peer, PodAt(own, ns, pod), parse)
  {
    hide Contradiction, SelectsNothing, Matches;
    var peer := map["namespaceSelector" := Map(map[]), "podSelector" := Map(Contradiction())];
    ContradictionClashes();
    SelectsNothingExact(Contradiction());
    assert OpenSelector(peer, "namespaceSelector") && WellFormedSelector(map[]);
  }

  /** The reason for open namespaces is given exactly as it should be, except for the peers whose
      podSelector contradicts itself. */
  lemma {:induction false} OpenNamespacesReportedIff(peer: Doc, parse: CidrParser)
    requires WellFormedPeer(peer, parse) && peer != map[]
    ensures (AllNamespaces in PeerReasons(peer, parse) <==> PeerOpens(peer, AllNamespaces, parse)) <==>
            !(&& OpenSelector(peer, "namespaceSelector")
              && SubMap(peer, "podSelector").Some? && SelectsNothing(peer["podSelector"].fields))
  {
    hide PeerReasons, PeerOpens, SelectsEverything, SelectsNothing, WellFormedPeer;
    PeerReasonsExact(peer, AllNamespaces, parse);
    NamespacesOpenExact(peer, parse);
  }

  lemma {:induction false} FamiliesAgree(peer: Doc, parse: CidrParser)
    requires WellFormedPeer(peer, parse) && peer != map[]
    ensures (SubMap(peer, "ipBlock").Some? && BlockMatchesAllIps(peer["ipBlock"].fields, parse))
            <==> exists n: nat :: PeerAdmitsFamily(n, peer, parse)
  {
    hide BlockMatchesAllIps, BlockAdmits, WellFormedBlock;
    if SubMap(peer, "ipBlock").Some? {
      BlockExact(peer["ipBlock"].fields, parse);
      forall n: nat ensures PeerAdmitsFamily(n, peer, parse) <==> BlockAdmitsFamily(n, peer["ipBlock"].fields, parse) {
        assert forall a: Address :: PeerAdmits(peer, Host(a), parse) <==> BlockAdmits(peer["ipBlock"].fields, a, parse);
      }
    } else {
      forall n: nat ensures !PeerAdmitsFamily(n, peer, parse) {
        var a := seq(n, _ => false);
        assert !PeerAdmits(peer, Host(a), parse);
      }
    }
  }

  // ----- rule lists

  lemma {:induction false} BroadPeersMember(rules: seq<Value>, peerKey: string, parse: CidrParser, reason: Reason)
    ensures reason in BroadPeers(rules, peerKey, parse)
            <==> exists v :: v in rules && v.Map? && reason in RuleReasons(v.fields, peerKey, parse)
  {
    hide RuleReasons, FirstBy;
    var all := FlatMap(rules, RuleValueReasons(peerKey, parse));
    FirstByMember(all, SameReason);
    InFlatMap(rules, RuleValueReasons(peerKey, parse), reason);
    if reason in all {
      FirstByKeepsEach(all, SameReason, reason);
    }
  }

  /** Reasons are additive: those of two rule lists together are the order-preserving union, so
      adding rules never removes a reason, and none is listed twice. */
  lemma {:induction false} ReasonsAdditive(rules: seq<Value>, more: seq<Value>, peerKey: string, parse: CidrParser)
    ensures BroadPeers(rules + more, peerKey, parse)
            == FirstBy(BroadPeers(rules, peerKey, parse) + BroadPeers(more, peerKey, parse), SameReason)
    ensures BroadPeers(rules, peerKey, parse) <= BroadPeers(rules + more, peerKey, parse)
    ensures NoDup(BroadPeers(rules, peerKey, parse))
  {
    hide RuleValueReasons;
    var f := RuleValueReasons(peerKey, parse);
    var xs, ys := FlatMap(rules, f), FlatMap(more, f);
    FlatMapAppend(rules, more, f);
    FirstByAbsorbsLeft(xs, ys, SameReason);
    FirstByAbsorbsRight(FirstBy(xs, SameReason), ys, SameReason);
    FirstByPrefix(xs, ys, SameReason);
    FirstByDistinct(xs, SameReason);
  }

  /** The three "matches all" reasons are witnessed by a rule that admits every endpoint. */
  lemma {:induction false} EverythingWitnessed(rules: seq<Value>, peerKey: string, parse: CidrParser, reason: Reason)
    requires reason in BroadPeers(rules, peerKey, parse) && reason in {OmittedPeers, EmptyPeerList, EmptyPeer}
    ensures exists v :: v in rules && v.Map? && forall e :: RuleAdmits(v.fields, peerKey, e, parse)
  {
    hide BroadPeers, RuleReasons, RuleAdmits;
    BroadPeersMember(rules, peerKey, parse, reason);
    var v :| v in rules && v.Map? && reason in RuleReasons(v.fields, peerKey, parse);
    RuleAdmitsAll(v.fields, peerKey, parse, reason);
  }

  lemma {:induction false} RuleAdmitsAll(rule: Doc, peerKey: string, parse: CidrParser, reason: Reason)
    requires reason in RuleReasons(rule, peerKey, parse) && reason in {OmittedPeers, EmptyPeerList, EmptyPeer}
    ensures forall e :: RuleAdmits(rule, peerKey, e, parse)
  {
    hide FlatMap, PeerReasons, PeerAdmits;
    if Field(rule, peerKey) != Null && Field(rule, peerKey) != List([]) {
      InFlatMap(rule[peerKey].items, PeerValueReasons(parse), reason);
      var peer :| peer in rule[peerKey].items && reason in PeerValueReasons(parse)(peer);
      EmptyPeerAdmitsAll(peer.fields, parse, reason);
      assert peer in ListField(rule, peerKey);
    }
  }

  lemma {:induction false} EmptyPeerAdmitsAll(peer: Doc, parse: CidrParser, reason: Reason)
    requires reason in PeerReasons(peer, parse) && reason in {OmittedPeers, EmptyPeerList, EmptyPeer}
    ensures forall e :: PeerAdmits(peer, e, parse)
  {
    hide OpenSelector, BlockMatchesAllIps;
  }

  ghost predicate WellFormedRules(rules: seq<Value>, peerKey: string, parse: CidrParser) {
    forall v, peer :: v in rules && v.Map? && peer in ListField(v.fields, peerKey) && peer.Map?
                      ==> WellFormedPeer(peer.fields, parse)
  }

  /** Whether the scanner should and does give the reason for the peer, or gives it although it should not. */
  ghost predicate PeerEarns(peer: Value, reason: Reason, parse: CidrParser) {
    && peer.Map? && peer.fields != map[]
    && (|| (PeerOpens(peer.fields, reason, parse) && !Overlooked(peer.fields, reason))
        || Overstated(peer.fields, reason))
  }

  /** A selector reason is reported exactly when some peer of some rule is open in its sense and not
      overlooked, or is overstated. */
  lemma {:induction false} SelectorReasonsExact(rules: seq<Value>, peerKey: string, parse: CidrParser, reason: Reason)
    requires WellFormedRules(rules, peerKey, parse)
    requires reason in {AllNamespaces, AllPods, AllAddresses}
    ensures reason in BroadPeers(rules, peerKey, parse) <==>
            exists v, peer :: v in rules && v.Map? && peer in ListField(v.fields, peerKey)
                              && PeerEarns(peer, reason, parse)
  {
    hide BroadPeers, PeerReasons, PeerEarns, WellFormedPeer, FlatMap;
    BroadPeersMember(rules, peerKey, parse, reason);
    forall v | v in rules && v.Map?
      ensures reason in RuleReasons(v.fields, peerKey, parse) <==>
              exists peer :: peer in ListField(v.fields, peerKey) && PeerEarns(peer, reason, parse)
    {
      RuleReasonsExact(v.fields, peerKey, parse, reason);
    }
  }

  lemma {:induction false} RuleReasonsExact(rule: Doc, peerKey: string, parse: CidrParser, reason: Reason)
    requires forall peer :: peer in ListField(rule, peerKey) && peer.Map? ==> WellFormedPeer(peer.fields, parse)
    requires reason in {AllNamespaces, AllPods, AllAddresses}
    ensures reason in RuleReasons(rule, peerKey, parse) <==>
            exists peer :: peer in ListField(rule, peerKey) && PeerEarns(peer, reason, parse)
  {
    hide PeerOpens, Overlooked, Overstated, WellFormedPeer, OpenSelector, BlockMatchesAllIps;
    var peers := ListField(rule, peerKey);
    InFlatMap(peers, PeerValueReasons(parse), reason);
    forall peer | peer in peers && peer.Map? && peer.fields != map[]
      ensures reason in PeerReasons(peer.fields, parse) <==> PeerEarns(peer, reason, parse)
    {
      PeerReasonsExact(peer.fields, reason, parse);
    }
  }

  /** The rule leaves out its peers, lists none, lists one without any entry, or lists one that earns a
      selector reason. */
  ghost predicate RuleOpens(rule: Doc, peerKey: string, parse: CidrParser) {
    || peerKey !in rule || rule[peerKey] == Null || rule[peerKey] == List([])
    || exists peer :: peer in ListField(rule, peerKey) && PeerIsBroad(peer, parse)
  }

  ghost predicate PeerIsBroad(peer: Value, parse: CidrParser) {
    || peer == Map(map[]) || PeerEarns(peer, AllNamespaces, parse) || PeerEarns(peer, AllPods, parse)
    || PeerEarns(peer, AllAddresses, parse)
  }

  lemma {:induction false} PeerBroadExact(peer: Value, parse: CidrParser)
    requires peer.Map? ==> WellFormedPeer(peer.fields, parse)
    ensures (exists reason :: reason in PeerValueReasons(parse)(peer)) <==> PeerIsBroad(peer, parse)
  {
    hide PeerOpens, Overlooked, Overstated, WellFormedPeer, OpenSelector, BlockMatchesAllIps;
    if peer.Map? && peer.fields != map[] {
      PeerReasonsExact(peer.fields, AllNamespaces, parse);
      PeerReasonsExact(peer.fields, AllPods, parse);
      PeerReasonsExact(peer.fields, AllAddresses, parse);
      assert forall reason :: reason in PeerReasons(peer.fields, parse)
                              ==> reason in {AllNamespaces, AllPods, AllAddresses};
    } else {
      assert peer.Map? ==> EmptyPeer in PeerValueReasons(parse)(peer);
    }
  }

  lemma {:induction false} RuleOpensExact(rule: Doc, peerKey: string, parse: CidrParser)
    requires forall peer :: peer in ListField(rule, peerKey) && peer.Map? ==> WellFormedPeer(peer.fields, parse)
    ensures (exists reason :: reason in RuleReasons(rule, peerKey, parse)) <==> RuleOpens(rule, peerKey, parse)
  {
    hide PeerValueReasons, WellFormedPeer, PeerIsBroad, FlatMap;
    var peers := ListField(rule, peerKey);
    forall peer | peer in peers
      ensures (exists reason :: reason in PeerValueReasons(parse)(peer)) <==> PeerIsBroad(peer, parse)
    {
      PeerBroadExact(peer, parse);
    }
    if Field(rule, peerKey) == Null {
      assert OmittedPeers in RuleReasons(rule, peerKey, parse);
    } else if Field(rule, peerKey) == List([]) {
      assert EmptyPeerList in RuleReasons(rule, peerKey, parse);
    } else {
      if reason :| reason in RuleReasons(rule, peerKey, parse) {
        InFlatMap(peers, PeerValueReasons(parse), reason);
        var peer :| peer in peers && reason in PeerValueReasons(parse)(peer);
        assert PeerIsBroad(peer, parse);
      }
      if peer :| peer in peers && PeerIsBroad(peer, parse) {
        var reason :| reason in PeerValueReasons(parse)(peer);
        InFlatMap(peers, PeerValueReasons(parse), reason);
        assert reason in RuleReasons(rule, peerKey, parse);
      }
    }
  }

  /** A direction has a reason at all exactly when one of its rules opens it up. */
  lemma {:induction false} BroadExact(rules: seq<Value>, peerKey: string, parse: CidrParser)
    requires WellFormedRules(rules, peerKey, parse)
    ensures BroadPeers(rules, peerKey, parse) != [] <==>
            exists v :: v in rules && v.Map? && RuleOpens(v.fields, peerKey, parse)
  {
    hide BroadPeers, RuleReasons, RuleOpens, WellFormedPeer;
    var reasons := BroadPeers(rules, peerKey, parse);
    if reasons != [] {
      BroadPeersMember(rules, peerKey, parse, reasons[0]);
      var v :| v in rules && v.Map? && reasons[0] in RuleReasons(v.fields, peerKey, parse);
      RuleOpensExact(v.fields, peerKey, parse);
    }
    if v :| v in rules && v.Map? && RuleOpens(v.fields, peerKey, parse) {
      RuleOpensExact(v.fields, peerKey, parse);
      var reason :| reason in RuleReasons(v.fields, peerKey, parse);
      BroadPeersMember(rules, peerKey, parse, reason);
    }
  }
}
