/** Pod security settings of pods and workload controllers (pkg/analyzer/workload_security.go). */
module Workloads {
  import opened Sequences
  import opened Values
  import opened Models
  import opened PodSpecs

  /** Upper-casing is library code: any function. */
  type Upper = string -> string

  predicate DangerousCapability(capability: string) {
    HighRiskCapability(capability) || capability in {"NET_ADMIN", "NET_RAW", "PERFMON", "SYS_CHROOT"}
  }

  predicate HighRiskCapability(capability: string) {
    capability in {"ALL", "DAC_READ_SEARCH", "BPF", "MAC_ADMIN", "SYS_ADMIN", "SYS_MODULE", "SYS_PTRACE", "SYS_RAWIO"}
  }

  const SENSITIVE_PREFIXES :=
    ["/dev", "/etc", "/etc/kubernetes", "/proc", "/sys", "/var/lib/kubelet", "/var/lib/containers", "/var/run"]

  predicate UnderPrefix(path: string, prefix: string) {
    path == prefix || HasPrefix(path, prefix + "/")
  }

  /** The root or a path at or below a sensitive directory; trailing slashes make no difference. */
  ghost predicate SensitivePath(path: string) {
    path == "/" || path == "//" || exists prefix :: prefix in SENSITIVE_PREFIXES && UnderPrefix(path, prefix)
  }

  lemma {:induction false} TrimKeepsPrefix(path: string, prefix: string)
    requires |prefix| > 0 && prefix[|prefix| - 1] != '/'
    ensures UnderPrefix(TrimSuffix(path, "/"), prefix) <==> UnderPrefix(path, prefix)
  {
    if HasSuffix(path, "/") {
      var trimmed := TrimSuffix(path, "/");
      assert path == trimmed + "/";
      if UnderPrefix(path, prefix) && trimmed != prefix {
        assert path != prefix;
        assert |prefix + "/"| <= |trimmed|;
        assert trimmed[..|prefix| + 1] == path[..|prefix| + 1];
      }
      if UnderPrefix(trimmed, prefix) && trimmed != prefix {
        assert path[..|prefix| + 1] == trimmed[..|prefix| + 1];
      }
    }
  }

  lemma {:induction false} PrefixesEndPlain(prefix: string)
    requires prefix in SENSITIVE_PREFIXES
    ensures |prefix| > 1 && prefix[|prefix| - 1] != '/'
  {
  }

  method SensitiveHostPath(path: string) returns (sensitive: bool)
    ensures sensitive == SensitivePath(path)
  {
    hide UnderPrefix, TrimSuffix, HasPrefix;
    var p := if path != "/" then TrimSuffix(path, "/") else path;
    RootTrimmed(path);
    forall prefix | prefix in SENSITIVE_PREFIXES
      ensures UnderPrefix(p, prefix) <==> UnderPrefix(path, prefix)
    {
      PrefixesEndPlain(prefix);
      TrimKeepsPrefix(path, prefix);
    }
    if p == "/" {
      return true;
    }
    for i := 0 to |SENSITIVE_PREFIXES|
      invariant forall prefix :: prefix in SENSITIVE_PREFIXES[..i] ==> !UnderPrefix(p, prefix)
    {
      assert SENSITIVE_PREFIXES[..i + 1] == SENSITIVE_PREFIXES[..i] + [SENSITIVE_PREFIXES[i]];
      if UnderPrefix(p, SENSITIVE_PREFIXES[i]) {
        assert SENSITIVE_PREFIXES[i] in SENSITIVE_PREFIXES;
        return true;
      }
    }
    assert SENSITIVE_PREFIXES[..|SENSITIVE_PREFIXES|] == SENSITIVE_PREFIXES;
    return false;
  }

  lemma {:induction false} RootTrimmed(path: string)
    ensures path != "/" ==> (TrimSuffix(path, "/") == "/" <==> path == "//")
  {
    if HasSuffix(path, "/") {
      assert path == TrimSuffix(path, "/") + "/";
    }
  }

  // ----- what the containers of a pod spec ask for

  const CONTAINER_FIELDS := ["containers", "initContainers", "ephemeralContainers"]
  const MOUNT_FIELDS := ["volumeMounts", "volumeDevices"]

  function ItemsUnder(doc: Doc): string -> seq<Doc> {
    field => MapItems(Field(doc, field))
  }

  /** The containers of all three lists. */
  function Containers(podSpec: Doc): seq<Doc> {
    FlatMap(CONTAINER_FIELDS, ItemsUnder(podSpec))
  }

  function MountName(mount: Doc): seq<string> {
    if StringField(mount, "name") != "" then [StringField(mount, "name")] else []
  }

  function MountsOf(container: Doc): seq<string> {
    FlatMap(FlatMap(MOUNT_FIELDS, ItemsUnder(container)), MountName)
  }

  predicate Privileged(container: Doc) {
    AsBool(Field(MapField(container, "securityContext"), "privileged"))
  }

  function AddedCapabilities(container: Doc): seq<string> {
    StringItems(Field(MapField(MapField(container, "securityContext"), "capabilities"), "add"))
  }

  /** The name a raw capability is judged by. */
  function Normalised(raw: string, upper: Upper): string {
    TrimPrefix(upper(raw), "CAP_")
  }

  ghost predicate AddsHighRisk(raws: seq<string>, upper: Upper) {
    exists raw :: raw in raws && HighRiskCapability(Normalised(raw, upper))
  }

  ghost predicate AddsDangerous(raws: seq<string>, upper: Upper) {
    exists raw :: raw in raws && DangerousCapability(Normalised(raw, upper))
  }

  /** The maximum severity any added capability calls for. */
  ghost function CapabilitySeverity(raws: seq<string>, upper: Upper): Severity {
    if AddsHighRisk(raws, upper) then HIGH else if AddsDangerous(raws, upper) then WARNING else INFO
  }

  /** A hostPath volume that some container mounts by name. */
  predicate MountedHostPath(volume: Doc, mounted: seq<string>) {
    SubMap(volume, "hostPath").Some? && StringField(volume, "name") in mounted
  }

  function PathOf(volume: Doc): string {
    StringField(MapField(volume, "hostPath"), "path")
  }

  ghost function HostPathSeverity(volumes: seq<Doc>, mounted: seq<string>): Severity {
    if exists v :: v in volumes && MountedHostPath(v, mounted) && SensitivePath(PathOf(v)) then HIGH
    else if exists v :: v in volumes && MountedHostPath(v, mounted) then WARNING
    else INFO
  }

  ghost predicate AnyPrivileged(containers: seq<Doc>) {
    exists c :: c in containers && Privileged(c)
  }

  predicate HostNamespaces(podSpec: Doc) {
    AsBool(Field(podSpec, "hostNetwork")) || AsBool(Field(podSpec, "hostPID")) || AsBool(Field(podSpec, "hostIPC"))
  }

  /** The findings of one pod spec: each rule at most once, at the maximum severity. */
  ghost function PodSpecFindings(podSpec: Doc, owner: Owner, upper: Upper): seq<Finding> {
    var containers := Containers(podSpec);
    var hostPath := HostPathSeverity(MapItems(Field(podSpec, "volumes")), FlatMap(containers, MountsOf));
    var capability := CapabilitySeverity(FlatMap(containers, AddedCapabilities), upper);
    (if AnyPrivileged(containers) then [NewFinding(PRIVILEGED_CONTAINER, HIGH, owner)] else [])
    + (if HostNamespaces(podSpec) then [NewFinding(HOST_NAMESPACE, HIGH, owner)] else [])
    + (if hostPath > INFO then [NewFinding(HOST_PATH, hostPath, owner)] else [])
    + (if capability > INFO then [NewFinding(DANGEROUS_CAPABILITIES, capability, owner)] else [])
  }

  ghost function WorkloadFindings(doc: Doc, owner: Owner, upper: Upper): seq<Finding> {
    match PodSpec(doc, owner.kind)
    case None => []
    case Some(podSpec) => PodSpecFindings(podSpec, owner, upper)
  }

  // ----- the scan

  /** The state the source keeps in privilegedContainers, capabilityDetails, mountedVolumes and
      severityByRule while it walks the containers. */
  datatype Posture = Posture(privileged: bool, dangerous: bool, capability: Severity, mounted: set<string>)

  ghost predicate Summarises(p: Posture, containers: seq<Doc>, upper: Upper) {
    var raws, mounts := FlatMap(containers, AddedCapabilities), FlatMap(containers, MountsOf);
    && p.privileged == AnyPrivileged(containers)
    && p.dangerous == AddsDangerous(raws, upper) && p.capability == CapabilitySeverity(raws, upper)
    && forall name :: name in p.mounted <==> name in mounts
  }

  lemma {:induction false} AddsSnoc(raws: seq<string>, raw: string, upper: Upper)
    ensures AddsHighRisk(raws + [raw], upper)
            <==> AddsHighRisk(raws, upper) || HighRiskCapability(Normalised(raw, upper))
    ensures AddsDangerous(raws + [raw], upper)
            <==> AddsDangerous(raws, upper) || DangerousCapability(Normalised(raw, upper))
  {
    hide HighRiskCapability, DangerousCapability, Normalised;
    assert raw in raws + [raw];
    assert forall r :: r in raws ==> r in raws + [raw];
  }

  method ScanCapabilities(container: Doc, upper: Upper, p: Posture, ghost before: seq<string>) returns (r: Posture)
    requires p.dangerous == AddsDangerous(before, upper) && p.capability == CapabilitySeverity(before, upper)
    ensures r == p.(dangerous := r.dangerous, capability := r.capability)
    ensures var raws := before + AddedCapabilities(container);
            r.dangerous == AddsDangerous(raws, upper) && r.capability == CapabilitySeverity(raws, upper)
  {
    hide HighRiskCapability, Normalised, AddsHighRisk, AddsDangerous;
    r := p;
    var raws := ToStringSlice(Field(MapField(MapField(container, "securityContext"), "capabilities"), "add"));
    assert before + raws[..0] == before;
    for i := 0 to |raws|
      invariant r == p.(dangerous := r.dangerous, capability := r.capability)
      invariant r.dangerous == AddsDangerous(before + raws[..i], upper)
      invariant r.capability == CapabilitySeverity(before + raws[..i], upper)
    {
      AddsSnoc(before + raws[..i], raws[i], upper);
      assert before + raws[..i + 1] == before + raws[..i] + [raws[i]];
      var capability := TrimPrefix(upper(raws[i]), "CAP_");
      assert capability == Normalised(raws[i], upper) by {
        NormalisedIs(raws[i], upper);
      }
      if !DangerousCapability(capability) {
        continue;
      }
      r := r.(dangerous := true);
      if HighRiskCapability(capability) {
        r := r.(capability := HIGH);
      } else if r.capability < WARNING {
        r := r.(capability := WARNING);
      }
    }
    assert raws[..|raws|] == raws;
  }

  lemma {:induction false} NormalisedIs(raw: string, upper: Upper)
    ensures Normalised(raw, upper) == TrimPrefix(upper(raw), "CAP_")
  {
  }

  method ScanMounts(container: Doc, mounted: set<string>, ghost before: seq<string>) returns (r: set<string>)
    requires forall name :: name in mounted <==> name in before
    ensures forall name :: name in r <==> name in before + MountsOf(container)
  {
    hide FlatMap, MapItems;
    r := mounted;
    ghost var mounts: seq<Doc> := [];
    NothingMounted(container);
    assert MOUNT_FIELDS[..0] == [] && before + [] == before;
    for i := 0 to |MOUNT_FIELDS|
      invariant mounts == FlatMap(MOUNT_FIELDS[..i], ItemsUnder(container))
      invariant forall name :: name in r <==> name in before + FlatMap(mounts, MountName)
    {
      FlatMapSnoc(MOUNT_FIELDS[..i], MOUNT_FIELDS[i], ItemsUnder(container));
      assert MOUNT_FIELDS[..i + 1] == MOUNT_FIELDS[..i] + [MOUNT_FIELDS[i]];
      var items := ToMapSlice(Field(container, MOUNT_FIELDS[i]));
      ghost var outer := mounts;
      for j := 0 to |items|
        invariant mounts == outer + items[..j]
        invariant forall name :: name in r <==> name in before + FlatMap(mounts, MountName)
      {
        FlatMapSnoc(mounts, items[j], MountName);
        var name := StringField(items[j], "name");
        if name != "" {
          r := r + {name};
        }
        mounts := mounts + [items[j]];
      }
      assert items[..|items|] == items;
    }
    assert MOUNT_FIELDS[..|MOUNT_FIELDS|] == MOUNT_FIELDS;
  }

  lemma {:induction false} NothingMounted(container: Doc)
    ensures FlatMap([], MountName) == [] && FlatMap([], ItemsUnder(container)) == []
  {
  }

  method ScanContainer(container: Doc, upper: Upper, p: Posture, ghost before: seq<Doc>) returns (r: Posture)
    requires Summarises(p, before, upper)
    ensures Summarises(r, before + [container], upper)
  {
    hide AddsHighRisk, AddsDangerous, CapabilitySeverity, MountsOf, AddedCapabilities, Privileged;
    FlatMapSnoc(before, container, MountsOf);
    FlatMapSnoc(before, container, AddedCapabilities);
    AnyPrivilegedSnoc(before, container);
    var mounted := ScanMounts(container, p.mounted, FlatMap(before, MountsOf));
    r := p.(mounted := mounted);
    if Privileged(container) {
      r := r.(privileged := true);
    }
    r := ScanCapabilities(container, upper, r, FlatMap(before, AddedCapabilities));
  }

  lemma {:induction false} AnyPrivilegedSnoc(containers: seq<Doc>, c: Doc)
    ensures AnyPrivileged(containers + [c]) <==> AnyPrivileged(containers) || Privileged(c)
  {
    assert c in containers + [c];
    assert forall x :: x in containers ==> x in containers + [c];
  }

  method ScanContainers(podSpec: Doc, upper: Upper) returns (p: Posture)
    ensures Summarises(p, Containers(podSpec), upper)
  {
    hide Summarises;
    p := Posture(false, false, INFO, {});
    NothingScanned(upper);
    ghost var done: seq<Doc> := [];
    for i := 0 to |CONTAINER_FIELDS|
      invariant done == FlatMap(CONTAINER_FIELDS[..i], ItemsUnder(podSpec))
      invariant Summarises(p, done, upper)
    {
      FlatMapSnoc(CONTAINER_FIELDS[..i], CONTAINER_FIELDS[i], ItemsUnder(podSpec));
      assert CONTAINER_FIELDS[..i + 1] == CONTAINER_FIELDS[..i] + [CONTAINER_FIELDS[i]];
      var items := ToMapSlice(Field(podSpec, CONTAINER_FIELDS[i]));
      ghost var outer := done;
      for j := 0 to |items|
        invariant done == outer + items[..j]
        invariant Summarises(p, done, upper)
      {
        p := ScanContainer(items[j], upper, p, done);
        done := done + [items[j]];
      }
      assert items[..|items|] == items;
    }
    assert CONTAINER_FIELDS[..|CONTAINER_FIELDS|] == CONTAINER_FIELDS;
  }

  lemma {:induction false} NothingScanned(upper: Upper)
    ensures Summarises(Posture(false, false, INFO, {}), [], upper)
  {
  }

  lemma {:induction false} HostPathSnoc(volumes: seq<Doc>, v: Doc, mounted: seq<string>)
    ensures HostPathSeverity(volumes + [v], mounted) ==
            if !MountedHostPath(v, mounted) then HostPathSeverity(volumes, mounted)
            else if SensitivePath(PathOf(v)) then HIGH
            else if HostPathSeverity(volumes, mounted) < WARNING then WARNING
            else HostPathSeverity(volumes, mounted)
  {
    hide MountedHostPath, SensitivePath, PathOf;
    assert v in volumes + [v];
    assert forall x :: x in volumes ==> x in volumes + [v];
  }

  lemma {:induction false} UnspecifiedPath()
    ensures !SensitivePath("") && !SensitivePath("<unspecified>")
  {
    forall prefix | prefix in SENSITIVE_PREFIXES
      ensures !UnderPrefix("", prefix) && !UnderPrefix("<unspecified>", prefix)
    {
      PrefixesEndPlain(prefix);
      assert (prefix + "/")[0] == '/' && "<unspecified>"[0] == '<';
    }
  }

  method ScanVolumes(podSpec: Doc, mountedVolumes: set<string>, ghost mounted: seq<string>) returns (severity: Severity)
    requires forall name :: name in mountedVolumes <==> name in mounted
    ensures severity == HostPathSeverity(MapItems(Field(podSpec, "volumes")), mounted)
  {
    hide SensitivePath, HostPathSeverity;
    severity := INFO;
    NoVolumes(mounted);
    UnspecifiedPath();
    var volumes := ToMapSlice(Field(podSpec, "volumes"));
    for i := 0 to |volumes|
      invariant severity == HostPathSeverity(volumes[..i], mounted)
    {
      HostPathSnoc(volumes[..i], volumes[i], mounted);
      assert volumes[..i + 1] == volumes[..i] + [volumes[i]];
      if SubMap(volumes[i], "hostPath").None? || StringField(volumes[i], "name") !in mountedVolumes {
        continue;
      }
      var path := StringField(SubMap(volumes[i], "hostPath").value, "path");
      if path == "" {
        path := "<unspecified>";
      }
      var sensitive := SensitiveHostPath(path);
      if sensitive {
        severity := HIGH;
      } else if severity < WARNING {
        severity := WARNING;
      }
    }
    assert volumes[..|volumes|] == volumes;
  }

  lemma {:induction false} NoVolumes(mounted: seq<string>)
    ensures HostPathSeverity([], mounted) == INFO
  {
  }

  method AnalyzeWorkloadSecurityObject(doc: Doc, owner: Owner, upper: Upper) returns (findings: seq<Finding>)
    ensures findings == WorkloadFindings(doc, owner, upper)
  {
    hide FirstBy, HostPathSeverity, CapabilitySeverity, Containers, AnyPrivileged, AddsDangerous, HostNamespaces,
         FlatMap;
    findings := [];
    if PodSpec(doc, owner.kind).None? {
      return;
    }
    var podSpec := PodSpec(doc, owner.kind).value;
    ghost var containers := Containers(podSpec);
    var p := ScanContainers(podSpec, upper);
    var hostPath := ScanVolumes(podSpec, p.mounted, FlatMap(containers, MountsOf));
    DangerousIsSeverity(FlatMap(containers, AddedCapabilities), upper);
    if p.privileged {
      findings := AppendRule(findings, PRIVILEGED_CONTAINER, HIGH, owner);
    }
    if HostNamespaces(podSpec) {
      findings := AppendRule(findings, HOST_NAMESPACE, HIGH, owner);
    }
    if hostPath > INFO {
      findings := AppendRule(findings, HOST_PATH, hostPath, owner);
    }
    if p.dangerous {
      findings := AppendRule(findings, DANGEROUS_CAPABILITIES, p.capability, owner);
    }
  }

  lemma {:induction false} DangerousIsSeverity(raws: seq<string>, upper: Upper)
    ensures AddsDangerous(raws, upper) <==> CapabilitySeverity(raws, upper) > INFO
  {
    HighRiskIsDangerous(raws, upper);
  }

  lemma {:induction false} HighRiskIsDangerous(raws: seq<string>, upper: Upper)
    ensures AddsHighRisk(raws, upper) ==> AddsDangerous(raws, upper)
  {
    hide Normalised;
    if raw :| raw in raws && HighRiskCapability(Normalised(raw, upper)) {
      assert DangerousCapability(Normalised(raw, upper));
    }
  }

  /** Within one object every rule is new, so the duplicate check never drops a finding. */
  method AppendRule(findings: seq<Finding>, rule: RuleId, severity: Severity, owner: Owner) returns (r: seq<Finding>)
    requires forall f :: f in findings ==> f.id.rule != rule
    ensures r == findings + [NewFinding(rule, severity, owner)]
  {
    var f := NewFinding(rule, severity, owner);
    forall g | g in findings && FingerprintOf(g) == FingerprintOf(f) ensures false {
      FingerprintRule(g.id, f.id);
    }
    r := AppendIfNew(findings, f);
  }

  // ----- what the result does not depend on

  /** Findings depend on the containers as a set: reordering them, repeating them or moving them
      between the three lists changes nothing. */
  lemma {:induction false} ContainersAsSet(a: Doc, b: Doc, owner: Owner, upper: Upper)
    requires forall c :: c in Containers(a) <==> c in Containers(b)
    requires Field(a, "volumes") == Field(b, "volumes") && HostNamespaces(a) == HostNamespaces(b)
    ensures PodSpecFindings(a, owner, upper) == PodSpecFindings(b, owner, upper)
  {
    hide Containers, Privileged, Normalised, HighRiskCapability, DangerousCapability, SensitivePath, MapItems,
         MountsOf, AddedCapabilities;
    forall x ensures x in FlatMap(Containers(a), MountsOf) <==> x in FlatMap(Containers(b), MountsOf) {
      InFlatMap(Containers(a), MountsOf, x);
      InFlatMap(Containers(b), MountsOf, x);
    }
    forall x
      ensures x in FlatMap(Containers(a), AddedCapabilities) <==> x in FlatMap(Containers(b), AddedCapabilities)
    {
      InFlatMap(Containers(a), AddedCapabilities, x);
      InFlatMap(Containers(b), AddedCapabilities, x);
    }
    SameMounts(MapItems(Field(a, "volumes")), FlatMap(Containers(a), MountsOf), FlatMap(Containers(b), MountsOf));
  }

  lemma {:induction false} SameMounts(volumes: seq<Doc>, mounted: seq<string>, mounted': seq<string>)
    requires forall x :: x in mounted <==> x in mounted'
    ensures HostPathSeverity(volumes, mounted) == HostPathSeverity(volumes, mounted')
  {
    hide SensitivePath, PathOf;
    assert forall v :: MountedHostPath(v, mounted) <==> MountedHostPath(v, mounted');
  }

  /** KC-022 is reported exactly when some container of the three lists adds a dangerous capability,
      and is HIGH exactly when one adds a high-risk one. */
  lemma {:induction false} CapabilityFindingExact(podSpec: Doc, owner: Owner, upper: Upper, severity: Severity)
    ensures NewFinding(DANGEROUS_CAPABILITIES, severity, owner) in PodSpecFindings(podSpec, owner, upper) <==>
            && (exists c, raw :: c in Containers(podSpec) && raw in AddedCapabilities(c)
                                 && DangerousCapability(Normalised(raw, upper)))
            && severity == if exists c, raw :: c in Containers(podSpec) && raw in AddedCapabilities(c)
                                               && HighRiskCapability(Normalised(raw, upper))
                           then HIGH else WARNING
  {
    hide Containers, AddedCapabilities, Normalised, PodSpecFindings, FlatMap, DangerousCapability, HighRiskCapability;
    CapabilityFindingIs(podSpec, owner, upper, severity);
    var raws := FlatMap(Containers(podSpec), AddedCapabilities);
    forall raw ensures raw in raws <==> exists c :: c in Containers(podSpec) && raw in AddedCapabilities(c) {
      InFlatMap(Containers(podSpec), AddedCapabilities, raw);
    }
    assert AddsHighRisk(raws, upper) <==> exists c, raw :: c in Containers(podSpec) && raw in AddedCapabilities(c)
                                                           && HighRiskCapability(Normalised(raw, upper));
    assert AddsDangerous(raws, upper) <==> exists c, raw :: c in Containers(podSpec) && raw in AddedCapabilities(c)
                                                            && DangerousCapability(Normalised(raw, upper));
    HighRiskIsDangerous(raws, upper);
  }

  lemma {:induction false} CapabilityFindingIs(podSpec: Doc, owner: Owner, upper: Upper, severity: Severity)
    ensures NewFinding(DANGEROUS_CAPABILITIES, severity, owner) in PodSpecFindings(podSpec, owner, upper) <==>
            && severity > INFO
            && severity == CapabilitySeverity(FlatMap(Containers(podSpec), AddedCapabilities), upper)
  {
    hide Containers, HostPathSeverity, CapabilitySeverity, AnyPrivileged, HostNamespaces, FlatMap;
  }

  /** KC-021 is reported exactly when some hostPath volume is mounted by name by some container, and
      is HIGH exactly when such a volume has a sensitive path. */
  lemma {:induction false} HostPathFindingExact(podSpec: Doc, owner: Owner, upper: Upper, severity: Severity)
    ensures NewFinding(HOST_PATH, severity, owner) in PodSpecFindings(podSpec, owner, upper) <==>
            && (exists v, c :: v in MapItems(Field(podSpec, "volumes")) && c in Containers(podSpec)
                               && MountedHostPath(v, MountsOf(c)))
            && severity == if exists v, c :: v in MapItems(Field(podSpec, "volumes")) && c in Containers(podSpec)
                                             && MountedHostPath(v, MountsOf(c)) && SensitivePath(PathOf(v))
                           then HIGH else WARNING
  {
    hide Containers, MountsOf, CapabilitySeverity, AnyPrivileged, HostNamespaces, SensitivePath, PathOf, MapItems;
    var mounted := FlatMap(Containers(podSpec), MountsOf);
    forall v
      ensures MountedHostPath(v, mounted) <==> exists c :: c in Containers(podSpec) && MountedHostPath(v, MountsOf(c))
    {
      InFlatMap(Containers(podSpec), MountsOf, StringField(v, "name"));
    }
  }
}
