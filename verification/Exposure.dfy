/** Externally reachable services, ingresses and routes (pkg/analyzer/exposure.go). */
module Exposure {
  import opened Sequences
  import opened Values
  import opened Models

  // ----- which hosts the TLS entries of an ingress cover

  /** A TLS entry without hosts covers every host. */
  predicate CatchAll(entry: Value) {
    entry.Map? && StringItems(Field(entry.fields, "hosts")) == []
  }

  function HostsIn(entry: Value): seq<string> {
    if entry.Map? then StringItems(Field(entry.fields, "hosts")) else []
  }

  predicate CoveredBy(host: string, tlsHost: string) {
    tlsHost == host || (HasPrefix(tlsHost, "*.") && HasSuffix(host, tlsHost[1..]))
  }

  ghost predicate Covered(host: string, tlsHosts: seq<string>) {
    exists t :: t in tlsHosts && CoveredBy(host, t)
  }

  ghost predicate RuleUnencrypted(rule: Value, tlsHosts: seq<string>) {
    || !rule.Map? || StringField(rule.fields, "host") == ""
    || !Covered(StringField(rule.fields, "host"), tlsHosts)
  }

  ghost predicate Unencrypted(entries: seq<Value>, rules: seq<Value>, defaultBackend: bool) {
    || entries == []
    || (&& (forall entry :: entry in entries ==> !CatchAll(entry))
        && if rules == [] then defaultBackend
           else exists rule :: rule in rules && RuleUnencrypted(rule, FlatMap(entries, HostsIn)))
  }

  method IngressHostCovered(host: string, tlsHosts: seq<string>) returns (covered: bool)
    ensures covered == Covered(host, tlsHosts)
  {
    for i := 0 to |tlsHosts|
      invariant forall t :: t in tlsHosts[..i] ==> !CoveredBy(host, t)
    {
      if tlsHosts[i] == host {
        assert CoveredBy(host, tlsHosts[i]);
        return true;
      }
      if HasPrefix(tlsHosts[i], "*.") && HasSuffix(host, tlsHosts[i][1..]) {
        assert CoveredBy(host, tlsHosts[i]);
        return true;
      }
    }
    return false;
  }

  method IngressHasUnencryptedHosts(spec: Doc, rules: seq<Value>, defaultBackend: bool) returns (unencrypted: bool)
    ensures unencrypted == Unencrypted(ListField(spec, "tls"), rules, defaultBackend)
  {
    hide CoveredBy;
    var entries := ListField(spec, "tls");
    if |entries| == 0 {
      return true;
    }
    var tlsHosts: seq<string> := [];
    for i := 0 to |entries|
      invariant tlsHosts == FlatMap(entries[..i], HostsIn)
      invariant forall entry :: entry in entries[..i] ==> !CatchAll(entry)
    {
      FlatMapSnoc(entries[..i], entries[i], HostsIn);
      assert entries[..i + 1] == entries[..i] + [entries[i]];
      if !entries[i].Map? {
        continue;
      }
      if "hosts" !in entries[i].fields {
        assert CatchAll(entries[i]);
        return false;
      }
      var values := ToStringSlice(entries[i].fields["hosts"]);
      if |values| == 0 {
        assert CatchAll(entries[i]);
        return false;
      }
      tlsHosts := tlsHosts + values;
    }
    assert entries[..|entries|] == entries;
    if |rules| == 0 {
      return defaultBackend;
    }
    for i := 0 to |rules|
      invariant forall rule :: rule in rules[..i] ==> !RuleUnencrypted(rule, tlsHosts)
    {
      if !rules[i].Map? {
        assert RuleUnencrypted(rules[i], tlsHosts);
        return true;
      }
      var host := StringField(rules[i].fields, "host");
      var covered := IngressHostCovered(host, tlsHosts);
      if host == "" || !covered {
        assert RuleUnencrypted(rules[i], tlsHosts);
        return true;
      }
    }
    return false;
  }

  lemma {:induction false} HostsKept(entries: seq<Value>, more: seq<Value>, host: string)
    requires forall entry :: entry in entries ==> entry in more
    ensures Covered(host, FlatMap(entries, HostsIn)) ==> Covered(host, FlatMap(more, HostsIn))
  {
    hide CoveredBy, HostsIn;
    if t :| t in FlatMap(entries, HostsIn) && CoveredBy(host, t) {
      InFlatMap(entries, HostsIn, t);
      InFlatMap(more, HostsIn, t);
    }
  }

  /** Adding TLS entries never turns an encrypted ingress unencrypted. */
  lemma {:induction false} MoreTlsIsSafer(entries: seq<Value>, more: seq<Value>, rules: seq<Value>,
                                          defaultBackend: bool)
    requires forall entry :: entry in entries ==> entry in more
    ensures Unencrypted(more, rules, defaultBackend) ==> Unencrypted(entries, rules, defaultBackend)
  {
    hide CatchAll, Covered;
    if Unencrypted(more, rules, defaultBackend) && entries != [] {
      assert entries[0] in more;
      if rules != [] {
        var rule :| rule in rules && RuleUnencrypted(rule, FlatMap(more, HostsIn));
        if rule.Map? {
          HostsKept(entries, more, StringField(rule.fields, "host"));
        }
        assert RuleUnencrypted(rule, FlatMap(entries, HostsIn));
      }
    }
  }

  /** The order and repetition of TLS entries do not matter. */
  lemma {:induction false} TlsAsSet(entries: seq<Value>, others: seq<Value>, rules: seq<Value>, defaultBackend: bool)
    requires forall entry :: entry in entries <==> entry in others
    ensures Unencrypted(entries, rules, defaultBackend) <==> Unencrypted(others, rules, defaultBackend)
  {
    MoreTlsIsSafer(entries, others, rules, defaultBackend);
    MoreTlsIsSafer(others, entries, rules, defaultBackend);
  }

  // ----- broad hosts

  predicate BroadRule(rule: Value) {
    rule.Map? && (StringField(rule.fields, "host") == "" || HasPrefix(StringField(rule.fields, "host"), "*."))
  }

  ghost predicate BroadHost(rules: seq<Value>, defaultBackend: bool) {
    if rules == [] then defaultBackend else exists rule :: rule in rules && BroadRule(rule)
  }

  method IngressHasBroadHost(rules: seq<Value>, defaultBackend: bool) returns (broad: bool)
    ensures broad == BroadHost(rules, defaultBackend)
  {
    if |rules| == 0 {
      return defaultBackend;
    }
    for i := 0 to |rules|
      invariant forall rule :: rule in rules[..i] ==> !BroadRule(rule)
    {
      if !rules[i].Map? {
        continue;
      }
      var host := StringField(rules[i].fields, "host");
      if host == "" || HasPrefix(host, "*.") {
        assert BroadRule(rules[i]);
        return true;
      }
    }
    return false;
  }

  // ----- one object of each kind

  function OwnerOf(kind: Kind, o: ObjectData): Owner {
    Owner(kind, o.name, o.namespace, o.file)
  }

  predicate ReachableService(spec: Doc) {
    StringField(spec, "type") in {"LoadBalancer", "NodePort", "ExternalName"}
    || StringItems(Field(spec, "externalIPs")) != []
  }

  ghost function ServiceFindings(o: ObjectData): seq<Finding> {
    match SubMap(o.doc, "spec")
    case None => []
    case Some(spec) =>
      if ReachableService(spec) then [NewFinding(EXTERNAL_SERVICE, WARNING, OwnerOf(Service, o))] else []
  }

  ghost function IngressFindings(o: ObjectData): seq<Finding> {
    match SubMap(o.doc, "spec")
    case None => []
    case Some(spec) =>
      var rules, defaultBackend := ListField(spec, "rules"), "defaultBackend" in spec;
      if rules == [] && !defaultBackend then []
      else
        (if Unencrypted(ListField(spec, "tls"), rules, defaultBackend)
         then [NewFinding(UNENCRYPTED_ROUTE, WARNING, OwnerOf(Ingress, o))] else [])
        + (if BroadHost(rules, defaultBackend)
           then [NewFinding(BROAD_EXTERNAL_ROUTE, WARNING, OwnerOf(Ingress, o))] else [])
  }

  function RouteTlsSeverity(spec: Doc): Severity {
    var tls := MapField(spec, "tls");
    if StringField(tls, "insecureEdgeTerminationPolicy") == "Allow" then HIGH
    else if StringField(tls, "termination") == "" then WARNING
    else INFO
  }

  function RouteFindings(o: ObjectData): seq<Finding> {
    match SubMap(o.doc, "spec")
    case None => []
    case Some(spec) =>
      (if RouteTlsSeverity(spec) > INFO
       then [NewFinding(UNENCRYPTED_ROUTE, RouteTlsSeverity(spec), OwnerOf(Route, o))] else [])
      + (if StringField(spec, "wildcardPolicy") == "Subdomain"
         then [NewFinding(BROAD_EXTERNAL_ROUTE, WARNING, OwnerOf(Route, o))] else [])
  }

  method AnalyzeService(o: ObjectData, findings: seq<Finding>, ghost emitted: seq<Finding>) returns (r: seq<Finding>)
    requires findings == FirstBy(emitted, FingerprintOf)
    ensures r == FirstBy(emitted + ServiceFindings(o), FingerprintOf)
  {
    hide FirstBy;
    r := findings;
    assert emitted + [] == emitted;
    if SubMap(o.doc, "spec").None? {
      return;
    }
    var spec := SubMap(o.doc, "spec").value;
    var serviceType := StringField(spec, "type");
    var reachable := serviceType == "LoadBalancer" || serviceType == "NodePort" || serviceType == "ExternalName";
    var externalIps := ToStringSlice(Field(spec, "externalIPs"));
    if reachable || |externalIps| > 0 {
      r := EmitNew(r, NewFinding(EXTERNAL_SERVICE, WARNING, OwnerOf(Service, o)), emitted);
    }
  }

  method AnalyzeIngress(o: ObjectData, findings: seq<Finding>, ghost emitted: seq<Finding>) returns (r: seq<Finding>)
    requires findings == FirstBy(emitted, FingerprintOf)
    ensures r == FirstBy(emitted + IngressFindings(o), FingerprintOf)
  {
    hide FirstBy, Unencrypted, BroadHost;
    r := findings;
    assert emitted + [] == emitted;
    if SubMap(o.doc, "spec").None? {
      return;
    }
    var spec := SubMap(o.doc, "spec").value;
    var rules, defaultBackend := ListField(spec, "rules"), "defaultBackend" in spec;
    if |rules| == 0 && !defaultBackend {
      return;
    }
    ghost var done: seq<Finding> := [];
    var unencrypted := IngressHasUnencryptedHosts(spec, rules, defaultBackend);
    if unencrypted {
      var f := NewFinding(UNENCRYPTED_ROUTE, WARNING, OwnerOf(Ingress, o));
      r := EmitNew(r, f, emitted);
      done := [f];
    }
    var broad := IngressHasBroadHost(rules, defaultBackend);
    if broad {
      var f := NewFinding(BROAD_EXTERNAL_ROUTE, WARNING, OwnerOf(Ingress, o));
      r := EmitNew(r, f, emitted + done);
      assert emitted + done + [f] == emitted + (done + [f]);
      done := done + [f];
    }
    assert done == IngressFindings(o);
  }

  method AnalyzeRoute(o: ObjectData, findings: seq<Finding>, ghost emitted: seq<Finding>) returns (r: seq<Finding>)
    requires findings == FirstBy(emitted, FingerprintOf)
    ensures r == FirstBy(emitted + RouteFindings(o), FingerprintOf)
  {
    hide FirstBy;
    r := findings;
    assert emitted + [] == emitted;
    if SubMap(o.doc, "spec").None? {
      return;
    }
    var spec := SubMap(o.doc, "spec").value;
    var tls := MapField(spec, "tls");
    ghost var done: seq<Finding> := [];
    if StringField(tls, "insecureEdgeTerminationPolicy") == "Allow" {
      var f := NewFinding(UNENCRYPTED_ROUTE, HIGH, OwnerOf(Route, o));
      r := EmitNew(r, f, emitted);
      done := [f];
    } else if StringField(tls, "termination") == "" {
      var f := NewFinding(UNENCRYPTED_ROUTE, WARNING, OwnerOf(Route, o));
      r := EmitNew(r, f, emitted);
      done := [f];
    }
    if StringField(spec, "wildcardPolicy") == "Subdomain" {
      var f := NewFinding(BROAD_EXTERNAL_ROUTE, WARNING, OwnerOf(Route, o));
      r := EmitNew(r, f, emitted + done);
      assert emitted + done + [f] == emitted + (done + [f]);
      done := done + [f];
    }
    assert done == RouteFindings(o);
  }
}
