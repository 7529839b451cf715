/** What a pod spec must say for KC-019 to KC-022, in the words of the manifest. */
module PodMeaning {
  import opened Sequences
  import opened Values
  import opened Models
  import opened Documents
  import opened Workloads

  // ----- containers and mounts

  /** The container is in one of the three lists. */
  ghost predicate HasContainer(podSpec: Doc, container: Doc) {
    || ListsMap(podSpec, "containers", container)
    || ListsMap(podSpec, "initContainers", container)
    || ListsMap(podSpec, "ephemeralContainers", container)
  }

  /** The container mounts the volume of that name, as a file system or as a device. */
  ghost predicate Mounts(container: Doc, name: string) {
    name != "" && exists m :: MountsBy(container, m) && TextAt(m, "name") == name
  }

  ghost predicate MountsBy(container: Doc, mount: Doc) {
    ListsMap(container, "volumeMounts", mount) || ListsMap(container, "volumeDevices", mount)
  }

  predicate RunsPrivileged(container: Doc) {
    match MapAt(container, "securityContext") case Some(context) => IsTrue(context, "privileged") case None => false
  }

  // ----- capabilities

  /** The container adds the capability, as written. */
  ghost predicate Adds(container: Doc, raw: string) {
    match MapAt(container, "securityContext")
    case None => false
    case Some(context) =>
      match MapAt(context, "capabilities")
      case None => false
      case Some(capabilities) => ListsText(capabilities, "add", raw)
  }

  const DANGEROUS_NAMES := {
    "ALL", "DAC_READ_SEARCH", "BPF", "MAC_ADMIN", "NET_ADMIN", "NET_RAW", "PERFMON", "SYS_ADMIN", "SYS_CHROOT",
    "SYS_MODULE", "SYS_PTRACE", "SYS_RAWIO"
  }

  const HIGH_RISK_NAMES := {
    "ALL", "DAC_READ_SEARCH", "BPF", "MAC_ADMIN", "SYS_ADMIN", "SYS_MODULE", "SYS_PTRACE", "SYS_RAWIO"
  }

  /** In upper case, the text is one of the names, with or without "CAP_" before it. */
  predicate IsCapability(raw: string, upper: Upper, names: set<string>) {
    upper(raw) in names || exists name :: name in names && upper(raw) == "CAP_" + name
  }

  ghost predicate AddsOneOf(podSpec: Doc, upper: Upper, names: set<string>) {
    exists c, raw :: HasContainer(podSpec, c) && Adds(c, raw) && IsCapability(raw, upper, names)
  }

  // ----- host paths

  const SENSITIVE_DIRECTORIES := {
    "/dev", "/etc", "/etc/kubernetes", "/proc", "/sys", "/var/lib/kubelet", "/var/lib/containers", "/var/run"
  }

  /** The root, or a sensitive directory or something below it. */
  predicate IsSensitive(path: string) {
    || path == "/" || path == "//"
    || exists dir :: dir in SENSITIVE_DIRECTORIES && (path == dir || dir + "/" <= path)
  }

  /** The path of a hostPath volume. */
  function HostPathIn(volume: Doc): Option<string> {
    match MapAt(volume, "hostPath") case Some(hostPath) => Some(TextAt(hostPath, "path")) case None => None
  }

  /** Some container mounts the volume, which is a hostPath one. */
  ghost predicate MountsHost(podSpec: Doc, volume: Doc) {
    && ListsMap(podSpec, "volumes", volume) && HostPathIn(volume).Some?
    && exists c :: HasContainer(podSpec, c) && Mounts(c, TextAt(volume, "name"))
  }

  ghost predicate MountsSensitive(podSpec: Doc, volume: Doc) {
    MountsHost(podSpec, volume) && IsSensitive(HostPathIn(volume).value)
  }

  // ----- what is due

  /** The rules for pod specs: KC-019 for privileged containers, KC-020 for host namespaces, KC-021 for mounted
      hostPath volumes and KC-022 for dangerous capabilities. */
  ghost predicate PodSpecDue(podSpec: Doc, rule: RuleId, severity: Severity, upper: Upper) {
    || (rule == 19 && severity == 2 && exists c :: HasContainer(podSpec, c) && RunsPrivileged(c))
    || (&& rule == 20 && severity == 2
        && (IsTrue(podSpec, "hostNetwork") || IsTrue(podSpec, "hostPID") || IsTrue(podSpec, "hostIPC")))
    || (&& rule == 21 && (exists v :: MountsHost(podSpec, v))
        && severity == if exists v :: MountsSensitive(podSpec, v) then 2 else 1)
    || (&& rule == 22 && AddsOneOf(podSpec, upper, DANGEROUS_NAMES)
        && severity == if AddsOneOf(podSpec, upper, HIGH_RISK_NAMES) then 2 else 1)
  }

  // ----- the scanner looks for that

  lemma {:induction false} ContainersMeaning(podSpec: Doc, c: Doc)
    ensures c in Containers(podSpec) <==> HasContainer(podSpec, c)
  {
    hide ListsMap, MapItems, FlatMap;
    InFlatMap(CONTAINER_FIELDS, ItemsUnder(podSpec), c);
    ReadMaps(podSpec, "containers", c);
    ReadMaps(podSpec, "initContainers", c);
    ReadMaps(podSpec, "ephemeralContainers", c);
    assert CONTAINER_FIELDS[0] in CONTAINER_FIELDS && CONTAINER_FIELDS[1] in CONTAINER_FIELDS
        && CONTAINER_FIELDS[2] in CONTAINER_FIELDS;
    assert forall field :: field in CONTAINER_FIELDS ==>
        (c in ItemsUnder(podSpec)(field) <==> c in MapItems(Field(podSpec, field)));
  }

  lemma {:induction false} MountItems(container: Doc, m: Doc)
    ensures m in FlatMap(MOUNT_FIELDS, ItemsUnder(container)) <==> MountsBy(container, m)
  {
    hide ListsMap, MapItems, FlatMap;
    InFlatMap(MOUNT_FIELDS, ItemsUnder(container), m);
    ReadMaps(container, "volumeMounts", m);
    ReadMaps(container, "volumeDevices", m);
    assert MOUNT_FIELDS[0] in MOUNT_FIELDS && MOUNT_FIELDS[1] in MOUNT_FIELDS;
    assert forall field :: field in MOUNT_FIELDS ==>
        (m in ItemsUnder(container)(field) <==> m in MapItems(Field(container, field)));
  }

  lemma {:induction false} MountsMeaning(container: Doc, name: string)
    ensures name in MountsOf(container) <==> Mounts(container, name)
  {
    hide MountsBy, FlatMap, TextAt, StringField;
    var mounts := FlatMap(MOUNT_FIELDS, ItemsUnder(container));
    InFlatMap(mounts, MountName, name);
    forall m
      ensures m in mounts <==> MountsBy(container, m)
      ensures name in MountName(m) <==> name != "" && TextAt(m, "name") == name
    {
      MountItems(container, m);
      ReadText(m, "name");
    }
  }

  lemma {:induction false} PrivilegedMeaning(container: Doc)
    ensures Privileged(container) <==> RunsPrivileged(container)
  {
    hide IsTrue;
    ReadMap(container, "securityContext");
    ReadFlag(MapField(container, "securityContext"), "privileged");
    EmptyFlag("privileged");
  }

  lemma {:induction false} EmptyFlag(key: string)
    ensures !IsTrue(map[], key)
  {
  }

  lemma {:induction false} AddsMeaning(container: Doc, raw: string)
    ensures raw in AddedCapabilities(container) <==> Adds(container, raw)
  {
    hide ListsText, StringItems;
    ReadMap(container, "securityContext");
    var context := MapField(container, "securityContext");
    ReadMap(context, "capabilities");
    ReadTexts(MapField(context, "capabilities"), "add", raw);
    EmptyList("add", raw);
    EmptyMap("capabilities");
  }

  lemma {:induction false} EmptyList(key: string, text: string)
    ensures !ListsText(map[], key, text)
  {
  }

  lemma {:induction false} EmptyMap(key: string)
    ensures MapAt(map[], key) == None
  {
  }

  lemma {:induction false} NormalisedMeaning(raw: string, upper: Upper, names: set<string>)
    requires forall name :: name in names ==> !("CAP_" <= name)
    ensures Normalised(raw, upper) in names <==> IsCapability(raw, upper, names)
  {
    var text := upper(raw);
    if "CAP_" <= text {
      assert text == "CAP_" + text[4..];
      assert forall name :: text == "CAP_" + name ==> name == text[4..];
    } else {
      assert forall name: string :: text != "CAP_" + name by {
        forall name: string ensures text != "CAP_" + name {
          assert "CAP_" <= "CAP_" + name;
        }
      }
    }
  }

  lemma {:induction false} NamesMeaning(raw: string, upper: Upper)
    ensures DangerousCapability(Normalised(raw, upper)) <==> IsCapability(raw, upper, DANGEROUS_NAMES)
    ensures HighRiskCapability(Normalised(raw, upper)) <==> IsCapability(raw, upper, HIGH_RISK_NAMES)
  {
    hide Normalised, IsCapability;
    PlainNames();
    NormalisedMeaning(raw, upper, DANGEROUS_NAMES);
    NormalisedMeaning(raw, upper, HIGH_RISK_NAMES);
    CapabilityTable(Normalised(raw, upper));
  }

  lemma {:induction false} PlainNames()
    ensures forall name :: name in DANGEROUS_NAMES ==> name != "" && !("CAP_" <= name)
    ensures HIGH_RISK_NAMES <= DANGEROUS_NAMES
  {
    forall name | name in DANGEROUS_NAMES ensures name != "" && !("CAP_" <= name) {
      assert |name| < 4 || name[..4] != "CAP_" by {
        assert |name| >= 1 && name[0] != 'C';
      }
    }
  }

  lemma {:induction false} CapabilityTable(name: string)
    ensures DangerousCapability(name) <==> name in DANGEROUS_NAMES
    ensures HighRiskCapability(name) <==> name in HIGH_RISK_NAMES
  {
  }

  lemma {:induction false} SensitiveMeaning(path: string)
    ensures SensitivePath(path) <==> IsSensitive(path)
  {
    forall dir ensures UnderPrefix(path, dir) <==> path == dir || dir + "/" <= path {
    }
    hide UnderPrefix;
    DirectoryTable();
  }

  lemma {:induction false} DirectoryTable()
    ensures forall dir :: dir in SENSITIVE_PREFIXES <==> dir in SENSITIVE_DIRECTORIES
  {
    assert SENSITIVE_PREFIXES == ["/dev", "/etc", "/etc/kubernetes", "/proc", "/sys", "/var/lib/kubelet",
                                  "/var/lib/containers", "/var/run"];
    assert SENSITIVE_PREFIXES[0] in SENSITIVE_PREFIXES && SENSITIVE_PREFIXES[1] in SENSITIVE_PREFIXES
        && SENSITIVE_PREFIXES[2] in SENSITIVE_PREFIXES && SENSITIVE_PREFIXES[3] in SENSITIVE_PREFIXES
        && SENSITIVE_PREFIXES[4] in SENSITIVE_PREFIXES && SENSITIVE_PREFIXES[5] in SENSITIVE_PREFIXES
        && SENSITIVE_PREFIXES[6] in SENSITIVE_PREFIXES && SENSITIVE_PREFIXES[7] in SENSITIVE_PREFIXES;
  }

  lemma {:induction false} VolumeMeaning(podSpec: Doc, v: Doc, c: Doc)
    ensures v in MapItems(Field(podSpec, "volumes")) <==> ListsMap(podSpec, "volumes", v)
    ensures MountedHostPath(v, MountsOf(c)) <==> HostPathIn(v).Some? && Mounts(c, TextAt(v, "name"))
    ensures HostPathIn(v).Some? ==> PathOf(v) == HostPathIn(v).value
  {
    hide ListsMap, MapItems, MountsOf, Mounts, TextAt, StringField;
    ReadMaps(podSpec, "volumes", v);
    ReadMap(v, "hostPath");
    ReadText(v, "name");
    ReadText(MapField(v, "hostPath"), "path");
    MountsMeaning(c, StringField(v, "name"));
  }

  lemma {:induction false} HostNamespacesMeaning(podSpec: Doc)
    ensures HostNamespaces(podSpec) <==>
            IsTrue(podSpec, "hostNetwork") || IsTrue(podSpec, "hostPID") || IsTrue(podSpec, "hostIPC")
  {
    hide IsTrue, AsBool;
    ReadFlag(podSpec, "hostNetwork");
    ReadFlag(podSpec, "hostPID");
    ReadFlag(podSpec, "hostIPC");
  }

  // ----- the findings of a pod spec

  lemma {:induction false} FlagFindings(podSpec: Doc, owner: Owner, upper: Upper, severity: Severity)
    ensures NewFinding(19, severity, owner) in PodSpecFindings(podSpec, owner, upper)
            <==> severity == 2 && AnyPrivileged(Containers(podSpec))
    ensures NewFinding(20, severity, owner) in PodSpecFindings(podSpec, owner, upper)
            <==> severity == 2 && HostNamespaces(podSpec)
  {
    hide Containers, AnyPrivileged, HostNamespaces, HostPathSeverity, CapabilitySeverity, FlatMap;
  }

  lemma {:induction false} FlagMeaning(podSpec: Doc, owner: Owner, upper: Upper, severity: Severity)
    ensures NewFinding(19, severity, owner) in PodSpecFindings(podSpec, owner, upper)
            <==> severity == 2 && exists c :: HasContainer(podSpec, c) && RunsPrivileged(c)
    ensures NewFinding(20, severity, owner) in PodSpecFindings(podSpec, owner, upper)
            <==> && severity == 2
                 && (IsTrue(podSpec, "hostNetwork") || IsTrue(podSpec, "hostPID") || IsTrue(podSpec, "hostIPC"))
  {
    hide PodSpecFindings, Containers, HasContainer, Privileged, RunsPrivileged, HostNamespaces, IsTrue;
    FlagFindings(podSpec, owner, upper, severity);
    HostNamespacesMeaning(podSpec);
    forall c
      ensures c in Containers(podSpec) <==> HasContainer(podSpec, c)
      ensures Privileged(c) <==> RunsPrivileged(c)
    {
      ContainersMeaning(podSpec, c);
      PrivilegedMeaning(c);
    }
  }

  lemma {:induction false} MountsHostMeaning(podSpec: Doc, v: Doc)
    ensures MountsHost(podSpec, v) <==>
            && v in MapItems(Field(podSpec, "volumes"))
            && exists c :: c in Containers(podSpec) && MountedHostPath(v, MountsOf(c))
    ensures MountsHost(podSpec, v) ==> (SensitivePath(PathOf(v)) <==> MountsSensitive(podSpec, v))
  {
    hide Containers, HasContainer, MountsOf, Mounts, MapItems, ListsMap, MountedHostPath, SensitivePath, IsSensitive,
         PathOf, TextAt, HostPathIn;
    VolumeMeaning(podSpec, v, map[]);
    forall c
      ensures c in Containers(podSpec) <==> HasContainer(podSpec, c)
      ensures MountedHostPath(v, MountsOf(c)) <==> HostPathIn(v).Some? && Mounts(c, TextAt(v, "name"))
    {
      ContainersMeaning(podSpec, c);
      VolumeMeaning(podSpec, v, c);
    }
    SensitiveMeaning(PathOf(v));
  }

  lemma {:induction false} HostPathMeaning(podSpec: Doc, owner: Owner, upper: Upper, severity: Severity)
    ensures NewFinding(21, severity, owner) in PodSpecFindings(podSpec, owner, upper) <==>
            && (exists v :: MountsHost(podSpec, v))
            && severity == if exists v :: MountsSensitive(podSpec, v) then 2 else 1
  {
    hide PodSpecFindings, Containers, MountsOf, MapItems, MountedHostPath, SensitivePath, IsSensitive, PathOf,
         HasContainer,
         ListsMap, Mounts, TextAt, HostPathIn;
    HostPathFindingExact(podSpec, owner, upper, severity);
    SensitiveMounts(podSpec);
  }

  lemma {:induction false} SensitiveMounts(podSpec: Doc)
    ensures (exists v, c :: v in MapItems(Field(podSpec, "volumes")) && c in Containers(podSpec)
                            && MountedHostPath(v, MountsOf(c)) && SensitivePath(PathOf(v)))
            <==> exists v :: MountsSensitive(podSpec, v)
    ensures (exists v, c :: v in MapItems(Field(podSpec, "volumes")) && c in Containers(podSpec)
                            && MountedHostPath(v, MountsOf(c)))
            <==> exists v :: MountsHost(podSpec, v)
  {
    hide Containers, MountsOf, MapItems, MountedHostPath, SensitivePath, IsSensitive, PathOf, MountsHost, HostPathIn;
    if v, c :| v in MapItems(Field(podSpec, "volumes")) && c in Containers(podSpec) && MountedHostPath(v, MountsOf(c)) {
      MountsHostMeaning(podSpec, v);
    }
    if v, c :| v in MapItems(Field(podSpec, "volumes")) && c in Containers(podSpec) && MountedHostPath(v, MountsOf(c))
               && SensitivePath(PathOf(v)) {
      MountsHostMeaning(podSpec, v);
    }
    if v :| MountsHost(podSpec, v) {
      MountsHostMeaning(podSpec, v);
    }
    if v :| MountsSensitive(podSpec, v) {
      MountsHostMeaning(podSpec, v);
    }
  }

  lemma {:induction false} CapabilityMeaning(podSpec: Doc, owner: Owner, upper: Upper, severity: Severity)
    ensures NewFinding(22, severity, owner) in PodSpecFindings(podSpec, owner, upper) <==>
            && AddsOneOf(podSpec, upper, DANGEROUS_NAMES)
            && severity == if AddsOneOf(podSpec, upper, HIGH_RISK_NAMES) then 2 else 1
  {
    hide PodSpecFindings, Containers, HasContainer, AddedCapabilities, Adds, DangerousCapability, HighRiskCapability,
         Normalised, IsCapability;
    CapabilityFindingExact(podSpec, owner, upper, severity);
    forall c, raw
      ensures c in Containers(podSpec) <==> HasContainer(podSpec, c)
      ensures raw in AddedCapabilities(c) <==> Adds(c, raw)
      ensures DangerousCapability(Normalised(raw, upper)) <==> IsCapability(raw, upper, DANGEROUS_NAMES)
      ensures HighRiskCapability(Normalised(raw, upper)) <==> IsCapability(raw, upper, HIGH_RISK_NAMES)
    {
      ContainersMeaning(podSpec, c);
      AddsMeaning(c, raw);
      NamesMeaning(raw, upper);
    }
  }

  /** A pod spec is reported for exactly what is due, at the severity due. */
  lemma {:induction false} PodSpecMeaning(podSpec: Doc, owner: Owner, upper: Upper, rule: RuleId, severity: Severity)
    requires rule in {19, 20, 21, 22}
    ensures NewFinding(rule, severity, owner) in PodSpecFindings(podSpec, owner, upper)
            <==> PodSpecDue(podSpec, rule, severity, upper)
  {
    hide PodSpecFindings, HasContainer, RunsPrivileged, IsTrue, MountsHost, IsSensitive, AddsOneOf;
    if rule == 21 {
      HostPathMeaning(podSpec, owner, upper, severity);
    } else if rule == 22 {
      CapabilityMeaning(podSpec, owner, upper, severity);
    } else {
      FlagMeaning(podSpec, owner, upper, severity);
    }
  }
}
