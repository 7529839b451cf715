/** What services, ingresses and routes must say for KC-025 to KC-027, in the words of the manifest. */
module ExposureMeaning {
  import opened Sequences
  import opened Values
  import opened Documents
  import opened Exposure

  // ----- services

  /** The type is reachable from outside, or there is an external IP. */
  ghost predicate ReachesOut(spec: Doc) {
    || TextAt(spec, "type") in {"LoadBalancer", "NodePort", "ExternalName"}
    || exists ip :: ListsText(spec, "externalIPs", ip)
  }

  lemma {:induction false} ReachesOutMeaning(spec: Doc)
    ensures ReachableService(spec) <==> ReachesOut(spec)
  {
    hide TextAt, StringField, ListsText, StringItems;
    ReadText(spec, "type");
    var ips := StringItems(Field(spec, "externalIPs"));
    forall ip ensures ip in ips <==> ListsText(spec, "externalIPs", ip) {
      ReadTexts(spec, "externalIPs", ip);
    }
    assert ips != [] ==> ips[0] in ips;
  }

  // ----- hosts covered by TLS

  /** A TLS host covers itself, and a wildcard "*.d" every host that ends in ".d". */
  ghost predicate Covers(tlsHost: string, host: string) {
    tlsHost == host || exists sub, domain :: IsBelow(host, sub, domain) && tlsHost == "*." + domain
  }

  ghost predicate IsBelow(host: string, sub: string, domain: string) {
    host == sub + "." + domain
  }

  lemma {:induction false} CoversMeaning(tlsHost: string, host: string)
    ensures CoveredBy(host, tlsHost) <==> Covers(tlsHost, host)
  {
    if HasPrefix(tlsHost, "*.") && HasSuffix(host, tlsHost[1..]) {
      var suffix := tlsHost[1..];
      var sub, domain := host[..|host| - |suffix|], tlsHost[2..];
      assert suffix == "." + domain && tlsHost == "*." + domain;
      assert host == sub + suffix;
      assert IsBelow(host, sub, domain);
    }
    if sub, domain :| IsBelow(host, sub, domain) && tlsHost == "*." + domain {
      assert tlsHost[1..] == "." + domain;
      assert host == sub + ("." + domain);
    }
  }

  /** Some TLS entry of the ingress names the host. */
  ghost predicate NamesTls(spec: Doc, tlsHost: string) {
    exists entry :: ListsMap(spec, "tls", entry) && ListsText(entry, "hosts", tlsHost)
  }

  /** Some TLS entry names no host and so stands for all. */
  ghost predicate HasCatchAll(spec: Doc) {
    exists entry :: ListsMap(spec, "tls", entry) && NamesNoHost(entry)
  }

  ghost predicate NamesNoHost(entry: Doc) {
    forall host :: !ListsText(entry, "hosts", host)
  }

  /** The rule is not a map, names no host, or names one that no TLS host covers. */
  ghost predicate InTheClear(spec: Doc, rule: Value) {
    || !rule.Map? || TextAt(rule.fields, "host") == ""
    || !exists tlsHost :: NamesTls(spec, tlsHost) && Covers(tlsHost, TextAt(rule.fields, "host"))
  }

  /** Some traffic reaches the ingress without TLS. */
  ghost predicate ServesPlaintext(spec: Doc) {
    || !HasEntries(spec, "tls")
    || (&& !HasCatchAll(spec)
        && if HasEntries(spec, "rules") then exists rule :: HasItem(spec, "rules", rule) && InTheClear(spec, rule)
           else "defaultBackend" in spec)
  }

  lemma {:induction false} CatchAllMeaning(entry: Doc)
    ensures CatchAll(Map(entry)) <==> NamesNoHost(entry)
  {
    hide ListsText, StringItems;
    var hosts := StringItems(Field(entry, "hosts"));
    forall host ensures host in hosts <==> ListsText(entry, "hosts", host) {
      ReadTexts(entry, "hosts", host);
    }
    assert hosts != [] ==> hosts[0] in hosts;
  }

  lemma {:induction false} TlsHostsMeaning(spec: Doc, tlsHost: string)
    ensures tlsHost in FlatMap(ListField(spec, "tls"), HostsIn) <==> NamesTls(spec, tlsHost)
  {
    hide ListsText, HasItem, StringItems, ListField, FlatMap;
    var entries := ListField(spec, "tls");
    InFlatMap(entries, HostsIn, tlsHost);
    forall v ensures v in entries <==> HasItem(spec, "tls", v) {
      ReadList(spec, "tls", v);
    }
    forall entry ensures tlsHost in HostsIn(Map(entry)) <==> ListsText(entry, "hosts", tlsHost) {
      ReadTexts(entry, "hosts", tlsHost);
    }
    if v :| v in entries && tlsHost in HostsIn(v) {
      assert v == Map(v.fields);
    }
    if entry :| ListsMap(spec, "tls", entry) && ListsText(entry, "hosts", tlsHost) {
      assert Map(entry) in entries;
    }
  }

  lemma {:induction false} ClearMeaning(spec: Doc, rule: Value)
    ensures RuleUnencrypted(rule, FlatMap(ListField(spec, "tls"), HostsIn)) <==> InTheClear(spec, rule)
  {
    hide NamesTls, Covers, CoveredBy, FlatMap, ListField, TextAt, StringField;
    if rule.Map? {
      ReadText(rule.fields, "host");
      var host := TextAt(rule.fields, "host");
      forall tlsHost
        ensures tlsHost in FlatMap(ListField(spec, "tls"), HostsIn) <==> NamesTls(spec, tlsHost)
        ensures CoveredBy(host, tlsHost) <==> Covers(tlsHost, host)
      {
        TlsHostsMeaning(spec, tlsHost);
        CoversMeaning(tlsHost, host);
      }
    }
  }

  lemma {:induction false} PlaintextMeaning(spec: Doc)
    ensures Unencrypted(ListField(spec, "tls"), ListField(spec, "rules"), "defaultBackend" in spec)
            <==> ServesPlaintext(spec)
  {
    hide RuleUnencrypted, InTheClear, CatchAll, NamesNoHost, ListField, HasEntries, FlatMap, HasItem;
    ReadEntries(spec, "tls");
    ReadEntries(spec, "rules");
    forall v
      ensures v in ListField(spec, "tls") <==> HasItem(spec, "tls", v)
      ensures v in ListField(spec, "rules") <==> HasItem(spec, "rules", v)
      ensures RuleUnencrypted(v, FlatMap(ListField(spec, "tls"), HostsIn)) <==> InTheClear(spec, v)
      ensures CatchAll(v) <==> v.Map? && NamesNoHost(v.fields)
    {
      ReadList(spec, "tls", v);
      ReadList(spec, "rules", v);
      ClearMeaning(spec, v);
      AnyCatchAll(v);
    }
    if entry :| ListsMap(spec, "tls", entry) && NamesNoHost(entry) {
      assert CatchAll(Map(entry));
    }
  }

  lemma {:induction false} AnyCatchAll(v: Value)
    ensures CatchAll(v) <==> v.Map? && NamesNoHost(v.fields)
  {
    if v.Map? {
      CatchAllMeaning(v.fields);
      assert v == Map(v.fields);
    }
  }

  // ----- broad hosts

  /** Some rule names no host or a wildcard, or there are no rules but a default backend. */
  ghost predicate ServesAnyHost(spec: Doc) {
    if HasEntries(spec, "rules") then exists rule :: ListsMap(spec, "rules", rule) && AnyHost(rule)
    else "defaultBackend" in spec
  }

  predicate AnyHost(rule: Doc) {
    TextAt(rule, "host") == "" || "*." <= TextAt(rule, "host")
  }

  lemma {:induction false} AnyHostMeaning(spec: Doc)
    ensures BroadHost(ListField(spec, "rules"), "defaultBackend" in spec) <==> ServesAnyHost(spec)
  {
    hide ListField, HasEntries, TextAt, StringField, HasItem;
    ReadEntries(spec, "rules");
    forall v ensures v in ListField(spec, "rules") <==> HasItem(spec, "rules", v) {
      ReadList(spec, "rules", v);
    }
    forall rule ensures BroadRule(Map(rule)) <==> AnyHost(rule) {
      ReadText(rule, "host");
    }
    if v :| v in ListField(spec, "rules") && BroadRule(v) {
      assert v == Map(v.fields);
    }
    if rule :| ListsMap(spec, "rules", rule) && AnyHost(rule) {
      assert BroadRule(Map(rule));
    }
  }

  // ----- routes

  /** The text of a field of the route's TLS settings. */
  function TlsText(spec: Doc, key: string): string {
    match MapAt(spec, "tls") case Some(tls) => TextAt(tls, key) case None => ""
  }

  lemma {:induction false} TlsTextMeaning(spec: Doc, key: string)
    ensures StringField(MapField(spec, "tls"), key) == TlsText(spec, key)
  {
    ReadMap(spec, "tls");
    ReadText(MapField(spec, "tls"), key);
  }
}
