/** Broad NetworkPolicy peers (pkg/analyzer/networkpolicy.go). */
module NetworkPolicies {
  import opened Sequences
  import opened Values
  import opened Models

  // ----- CIDR prefixes, as netip.ParsePrefix returns them

  /** An address is its bits, most significant first; the length tells the family. */
  type Address = seq<bool>

  datatype RawPrefix = RawPrefix(address: Address, bits: nat)

  type Prefix = p: RawPrefix | 0 < |p.address| && p.bits <= |p.address| witness RawPrefix([false], 0)

  /** Trims the text and parses it; None is a parse error. */
  type CidrParser = string -> Option<Prefix>

  predicate InPrefix(a: Address, p: Prefix) {
    |a| == |p.address| && a[..p.bits] == p.address[..p.bits]
  }

  // ----- selectors

  predicate SelectorEntryOpen(key: string, value: Value) {
    || (key == "matchLabels" && (value == Null || value == Map(map[])))
    || (key == "matchExpressions" && (value == Null || value == List([])))
  }

  ghost predicate SelectsEverything(selector: Doc) {
    forall key :: key in selector ==> SelectorEntryOpen(key, selector[key])
  }

  method SelectorSelectsAll(selector: Doc) returns (all: bool)
    ensures all == SelectsEverything(selector)
  {
    if |selector| == 0 {
      return true;
    }
    var left := selector.Keys;
    while left != {}
      invariant left <= selector.Keys
      invariant forall key :: key in selector && key !in left ==> SelectorEntryOpen(key, selector[key])
      decreases left
    {
      var key :| key in left;
      left := left - {key};
      var value := selector[key];
      if key == "matchLabels" {
        if !value.Map? {
          if value == Null {
            continue;
          }
          return false;
        }
        if |value.fields| > 0 {
          return false;
        }
      } else if key == "matchExpressions" {
        if !value.List? {
          if value == Null {
            continue;
          }
          return false;
        }
        if |value.items| > 0 {
          return false;
        }
      } else {
        return false;
      }
    }
    return true;
  }

  // ----- reasons

  datatype Reason = OmittedPeers | EmptyPeerList | EmptyPeer | AllNamespaces | AllPods | AllAddresses

  function SameReason(r: Reason): Reason {
    r
  }

  predicate BlockMatchesAllIps(block: Doc, parse: CidrParser) {
    && Field(block, "cidr").Str?
    && parse(block["cidr"].text).Some? && parse(block["cidr"].text).value.bits == 0
    && (Field(block, "except") == Null || Field(block, "except") == List([]))
  }

  ghost predicate OpenSelector(peer: Doc, key: string) {
    SubMap(peer, key).Some? && SelectsEverything(SubMap(peer, key).value)
  }

  ghost function PeerReasons(peer: Doc, parse: CidrParser): seq<Reason> {
    if peer == map[] then [EmptyPeer]
    else
      (if OpenSelector(peer, "namespaceSelector") then [AllNamespaces] else [])
      + (if OpenSelector(peer, "podSelector") && "namespaceSelector" !in peer then [AllPods] else [])
      + (if SubMap(peer, "ipBlock").Some? && BlockMatchesAllIps(peer["ipBlock"].fields, parse)
         then [AllAddresses] else [])
  }

  ghost function PeerValueReasons(parse: CidrParser): Value -> seq<Reason> {
    (v: Value) => if v.Map? then PeerReasons(v.fields, parse) else []
  }

  ghost function RuleReasons(rule: Doc, peerKey: string, parse: CidrParser): seq<Reason> {
    if Field(rule, peerKey) == Null then [OmittedPeers]
    else if !rule[peerKey].List? then []
    else if rule[peerKey].items == [] then [EmptyPeerList]
    else FlatMap(rule[peerKey].items, PeerValueReasons(parse))
  }

  ghost function RuleValueReasons(peerKey: string, parse: CidrParser): Value -> seq<Reason> {
    (v: Value) => if v.Map? then RuleReasons(v.fields, peerKey, parse) else []
  }

  /** The distinct reasons of all rules, in order of first appearance. */
  ghost function BroadPeers(rules: seq<Value>, peerKey: string, parse: CidrParser): seq<Reason> {
    FirstBy(FlatMap(rules, RuleValueReasons(peerKey, parse)), SameReason)
  }

  method AppendUnique(reasons: seq<Reason>, reason: Reason, ghost emitted: seq<Reason>) returns (r: seq<Reason>)
    requires reasons == FirstBy(emitted, SameReason)
    ensures r == FirstBy(emitted + [reason], SameReason)
  {
    FirstBySnoc(emitted, reason, SameReason);
    for i := 0 to |reasons|
      invariant reason !in reasons[..i]
    {
      if reasons[i] == reason {
        assert reasons[i] in reasons;
        return reasons;
      }
    }
    return reasons + [reason];
  }

  method BroadNetworkPolicyPeers(rawRules: Value, peerKey: string, parse: CidrParser) returns (reasons: seq<Reason>)
    ensures reasons == BroadPeers(if rawRules.List? then rawRules.items else [], peerKey, parse)
  {
    hide FirstBy, RuleReasons;
    reasons := [];
    NothingFound();
    if !rawRules.List? {
      return;
    }
    var rules := rawRules.items;
    ghost var emitted: seq<Reason> := [];
    for i := 0 to |rules|
      invariant emitted == FlatMap(rules[..i], RuleValueReasons(peerKey, parse))
      invariant reasons == FirstBy(emitted, SameReason)
    {
      FlatMapSnoc(rules[..i], rules[i], RuleValueReasons(peerKey, parse));
      assert rules[..i + 1] == rules[..i] + [rules[i]];
      if !rules[i].Map? {
        continue;
      }
      reasons := ScanRule(rules[i].fields, peerKey, parse, reasons, emitted);
      emitted := emitted + RuleReasons(rules[i].fields, peerKey, parse);
    }
    assert rules[..|rules|] == rules;
  }

  lemma {:induction false} NothingFound()
    ensures FirstBy<Reason, Reason>([], SameReason) == []
  {
  }

  method ScanRule(rule: Doc, peerKey: string, parse: CidrParser, reasons: seq<Reason>, ghost emitted: seq<Reason>)
    returns (r: seq<Reason>)
    requires reasons == FirstBy(emitted, SameReason)
    ensures r == FirstBy(emitted + RuleReasons(rule, peerKey, parse), SameReason)
  {
    hide FirstBy, PeerReasons, FlatMap;
    if Field(rule, peerKey) == Null {
      r := AppendUnique(reasons, OmittedPeers, emitted);
      return;
    }
    r := reasons;
    assert emitted + [] == emitted;
    if !rule[peerKey].List? {
      return;
    }
    var peers := rule[peerKey].items;
    if |peers| == 0 {
      r := AppendUnique(r, EmptyPeerList, emitted);
      return;
    }
    ghost var done: seq<Reason> := [];
    FlatMapNone(PeerValueReasons(parse));
    assert peers[..0] == [];
    for i := 0 to |peers|
      invariant done == FlatMap(peers[..i], PeerValueReasons(parse))
      invariant r == FirstBy(emitted + done, SameReason)
    {
      FlatMapSnoc(peers[..i], peers[i], PeerValueReasons(parse));
      assert peers[..i + 1] == peers[..i] + [peers[i]];
      if !peers[i].Map? {
        assert done + [] == done;
        continue;
      }
      r := ScanPeer(peers[i].fields, parse, r, emitted + done);
      assert emitted + done + PeerReasons(peers[i].fields, parse)
          == emitted + (done + PeerReasons(peers[i].fields, parse));
      done := done + PeerReasons(peers[i].fields, parse);
    }
    assert peers[..|peers|] == peers;
  }

  method ScanPeer(peer: Doc, parse: CidrParser, reasons: seq<Reason>, ghost emitted: seq<Reason>)
    returns (r: seq<Reason>)
    requires reasons == FirstBy(emitted, SameReason)
    ensures r == FirstBy(emitted + PeerReasons(peer, parse), SameReason)
  {
    hide FirstBy, SelectsEverything, BlockMatchesAllIps;
    if |peer| == 0 {
      r := AppendUnique(reasons, EmptyPeer, emitted);
      return;
    }
    r := reasons;
    ghost var done: seq<Reason> := [];
    assert emitted + done == emitted;
    if SubMap(peer, "namespaceSelector").Some? {
      var all := SelectorSelectsAll(peer["namespaceSelector"].fields);
      if all {
        r := AppendUnique(r, AllNamespaces, emitted);
        done := [AllNamespaces];
      }
    }
    if SubMap(peer, "podSelector").Some? {
      var all := SelectorSelectsAll(peer["podSelector"].fields);
      if all && "namespaceSelector" !in peer {
        r := AppendUnique(r, AllPods, emitted + done);
        assert emitted + done + [AllPods] == emitted + (done + [AllPods]);
        done := done + [AllPods];
      }
    }
    if SubMap(peer, "ipBlock").Some? && BlockMatchesAllIps(peer["ipBlock"].fields, parse) {
      r := AppendUnique(r, AllAddresses, emitted + done);
      assert emitted + done + [AllAddresses] == emitted + (done + [AllAddresses]);
      done := done + [AllAddresses];
    }
    assert PeerReasons(peer, parse) == done;
  }

  // ----- one policy

  predicate DirectionEnabled(spec: Doc, direction: string) {
    var types := StringItems(Field(spec, "policyTypes"));
    if |types| > 0 then direction in types
    else if direction == "Ingress" then true
    else direction == "Egress" && |ListField(spec, "egress")| > 0
  }

  ghost function PolicySeverity(spec: Doc): Severity {
    if Field(spec, "podSelector") == Null || OpenSelector(spec, "podSelector") then HIGH else WARNING
  }

  function PolicyOwner(policy: ObjectData): Owner {
    Owner(NetworkPolicy, policy.name, policy.namespace, policy.file)
  }

  ghost predicate Broad(spec: Doc, direction: string, rulesKey: string, peerKey: string, parse: CidrParser) {
    DirectionEnabled(spec, direction) && BroadPeers(ListField(spec, rulesKey), peerKey, parse) != []
  }

  ghost function PolicyFindings(policy: ObjectData, parse: CidrParser): seq<Finding> {
    match SubMap(policy.doc, "spec")
    case None => []
    case Some(spec) =>
      (if Broad(spec, "Ingress", "ingress", "from", parse)
       then [NewFinding(NETWORK_POLICY_INGRESS, PolicySeverity(spec), PolicyOwner(policy))] else [])
      + (if Broad(spec, "Egress", "egress", "to", parse)
         then [NewFinding(NETWORK_POLICY_EGRESS, PolicySeverity(spec), PolicyOwner(policy))] else [])
  }

  method NetworkPolicySeverity(spec: Doc) returns (severity: Severity)
    ensures severity == PolicySeverity(spec)
  {
    if Field(spec, "podSelector") == Null {
      return HIGH;
    }
    if SubMap(spec, "podSelector").Some? {
      var all := SelectorSelectsAll(spec["podSelector"].fields);
      if all {
        return HIGH;
      }
    }
    return WARNING;
  }

  method AnalyzePolicy(policy: ObjectData, parse: CidrParser, findings: seq<Finding>, ghost emitted: seq<Finding>)
    returns (r: seq<Finding>)
    requires findings == FirstBy(emitted, FingerprintOf)
    ensures r == FirstBy(emitted + PolicyFindings(policy, parse), FingerprintOf)
  {
    hide FirstBy, PolicySeverity, BroadPeers, DirectionEnabled;
    r := findings;
    assert emitted + [] == emitted;
    if SubMap(policy.doc, "spec").None? {
      return;
    }
    var spec := policy.doc["spec"].fields;
    var severity := NetworkPolicySeverity(spec);
    ghost var done: seq<Finding> := [];
    if DirectionEnabled(spec, "Ingress") {
      var reasons := BroadNetworkPolicyPeers(Field(spec, "ingress"), "from", parse);
      if |reasons| > 0 {
        var f := NewFinding(NETWORK_POLICY_INGRESS, severity, PolicyOwner(policy));
        r := EmitNew(r, f, emitted);
        done := [f];
      }
    }
    if DirectionEnabled(spec, "Egress") {
      var reasons := BroadNetworkPolicyPeers(Field(spec, "egress"), "to", parse);
      if |reasons| > 0 {
        var f := NewFinding(NETWORK_POLICY_EGRESS, severity, PolicyOwner(policy));
        r := EmitNew(r, f, emitted + done);
        assert emitted + done + [f] == emitted + (done + [f]);
        done := done + [f];
      }
    }
    assert done == PolicyFindings(policy, parse);
  }
}
