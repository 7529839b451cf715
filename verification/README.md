# A verified model of kube-chainsaw's scan

kube-chainsaw reads Kubernetes manifests, routes them into a store of resources, runs eight analysis
phases over the store, marks suppressed findings and fails when a remaining finding reaches a severity
threshold. This project models that pipeline, from manifest text to the pass/fail answer, and proves what
it promises about the answer.

## What is modelled

* **Manifests and Loader** (`Manifests`, `Loader`, `PodSpecs`): template stripping, document splitting, unwrapping of
  nested Lists, and the switch that fills the eleven keyed maps and two binding lists of the class
  `Models.LoadedResources` in place. `LoaderTheorems` says what a loaded store holds.
* **RBAC** (`Rules`, `RoleRules`, `Scopes`, `Chains`): the permission scans, the pass over a role's rules with its
  `seen` set, the scope resolvers and the workload-to-role chains. `RoleTheorems` states their meaning against a
  `Grants` relation on permissions.
* **Posture** (`NetworkPolicies`, `Workloads`, `Exposure`): selectors and peers, pod security settings, and ingress TLS,
  each against its Kubernetes meaning (`SelectorTheorems` and `NetworkTheorems` for selectors, peers and address blocks).
* **Report** (`Analyzer`, `SortedKeys`, `ReportShape`): the eight phases. Go visits maps in an arbitrary order, so loops
  over a map pick the next key nondeterministically; the phases that sort their keys first visit them in that order.
  `IsReport` holds of every report some order produces.
* **Meaning** (`Documents`, `LoaderMeaning`, `RoleMeaning`, `ScopeMeaning`, `NetworkMeaning`, `PodMeaning`,
  `ExposureMeaning`): what a manifest has to say, field by field and with the texts and numbers written out, for each
  table, default and rule ID. Lemmas for all documents tie these statements to the functions the operations use.
* **Theorems over whole runs** (`OrderTheorems`, `FileTheorems`, `MonotoneTheorems`, `UniquenessTheorems`, `EndToEnd`,
  `Suppressions`), and what exactly a whole report says about each kind of object (`ReportParts`, `RoleReports`,
  `ObjectReports`, `AdminReports`, `ReportFiles`), in the words of the manifests.
* **Limits** (`Limits`, `GrowthLimits`, `OrderLimits`, `UniqueLimits`): inputs for which an unrestricted claim fails, and
  the exact conditions.

A finding carries its identity (rule, kind, name, namespace), severity, file and suppression flag. Titles,
descriptions and remediations are functions of those fields or plain text and are not modelled, so the
lists of container names and paths that only feed descriptions become flags. Rule number n stands for the
text `KC-0nn`; a kind is a constant with its text. SHA-256 is taken to be injective, so a fingerprint is
represented by the text that is hashed. `netip.ParsePrefix`, `strings.ToUpper` and the YAML decoder are arbitrary
functions, and so are the per-object checks of `scc.go` and `secrets.go`; every result holds for all of them.

## Main results

1. `OrderTheorems.OrderIndependence`: the multiset of identities and severities depends neither on map
   iteration nor on the order of the binding lists; `EndToEnd.DocumentOrderEndToEnd` carries this to documents that are
   permuted, moved to other files or wrapped into Lists.
2. `MonotoneTheorems.NothingHidden` and `ScanningMoreRaises`: a larger scan keeps every fingerprint, on any stores
   whatsoever, and keeps every identity at least as severe; `EndToEnd.MoreDocumentsStillFail` carries this to documents
   that appear anywhere among the others, and through suppression to the exit status.
3. `UniquenessTheorems.FingerprintMultiplicity`: how often each fingerprint occurs in a report.
4. `RoleTheorems`: rules are reported exactly when some permission in their target table is granted, once per
   variant, at the severity of the first rule that triggers them. `RoleMeaning.RoleIdsMeaning` says for each rule ID
   which verbs, resources and API groups a rule must list, and `RoleReports.RoleVerdictsExact` and
   `ClusterRoleVerdictsExact` what a whole report says about roles.
5. `UniquenessTheorems.ChainIdentitiesExact`: KC-013 and KC-014 in a full report are a relational join.
   `AdminReports.AdminWorkloadReported` starts from the documents: a pod or controller whose account a
   ClusterRoleBinding makes cluster-admin is reported.
6. `ObjectReports`: exactly what a whole report says about pods, workload controllers, network policies, services,
   ingresses, routes, secrets and security context constraints, on any store the loader can fill, with first-wins
   deduplication accounted for. `ReportFiles.FindingsFromRecords`: every finding is about a loaded record.
7. `SelectorTheorems` and `NetworkTheorems`: selector checks are exact with respect to matching, and peer checks with
   respect to admission with two exceptions, which `OpenPodsReportedIff` and `OpenNamespacesReportedIff` characterise.
8. `LoaderTheorems`: loading is a fold over flattened leaves; last write wins. `LoaderMeaning.PutMeaning`: which
   documents are stored, in which table, under which key and with which account.

## Where the code does not meet a claim

* **Colliding namespaces.** Fingerprints join their parts with `|`. Claims 1, 2 (all but `NothingHidden`), 3 and 5 are
  made for any set of namespaces in which none ends with `|` and another one (`Models.Apart`), and so is the plain
  form of claim 6, in which no finding is deduplicated away. Kubernetes namespaces, labels in the host-name syntax of
  section 2.1 of RFC 1123, hold no `|` and so are such a set (`Models.OrdinaryApart`). The condition is exact for each of
  these claims: over all documents with namespaces of a given set, it holds if and only if the set is of this kind.
  That is `OrderLimits.DocumentOrderIff` and `AnswersAgreeIff` for claim 1, `GrowthLimits.DocumentsRaiseIff` for claim 2,
  `UniqueLimits.UniqueIff` for claim 3, `ChainsJoinIff` for claim 5 and `RoutesPlainIff` for claim 6, with routes as the
  failing case. `UniqueLimits.DedupIdleIff` is the same for stores on which deduplication is idle outside the chains.
* **A `namespaceSelector` key without a selector.** A NetworkPolicy peer with an open podSelector and, say,
  `namespaceSelector: null` admits every pod of the policy's namespace and gets no reason
  (`NetworkTheorems.NullNamespaceSelectorMissed`).
* **A podSelector that contradicts itself** beside an open namespaceSelector lets no pod through, and is reported as open
  to all namespaces (`NetworkTheorems.ContradictionReported`). `SelectorTheorems.SelectsNothingExact` says by inspection
  of its keys when a selector matches nothing.
* **A `/` in a namespace** breaks only the lookup of a role by name, exactly as `Scopes.ExtractedName` and
  `Scopes.OwnBindingSeen` say.
* **Rule order.** The severity of a bound cluster role's finding can depend on the order of its rules
  (`Limits.RuleOrderMatters`); `RoleTheorems.SeverityOrderIndependentIff` says exactly when it does not.

## Model

| member | source | states |
|---|---|---|
| Values.ToStringSlice | pkg/analyzer/analyzer.go:511-529 | the strings of a list value in order, nothing for other values |
| Values.ToMapSlice | pkg/loader/loader.go:451-470 | the maps of a list value in order, nothing for other values |
| Values.Contains | pkg/analyzer/analyzer.go:531-538 | membership |
| Models.AppendIfNew | pkg/analyzer/analyzer.go:495-502 | appends exactly when no earlier finding has the fingerprint |
| Models.FingerprintInjective | pkg/models/models.go:66-74 | unless one namespace ends with a bar and the other, equal fingerprints mean equal identities |
| Models.OrdinaryApart | pkg/models/models.go:66-74 | namespaces without a bar never collide |
| Models.FingerprintRule | pkg/models/models.go:70-74 | the rule can be read back from any fingerprint |
| Models.BarredNamespaceCollides | pkg/models/models.go:70-74 | every namespace with a bar has a colliding identity |
| Models.FingerprintLayout | pkg/models/models.go:66-74 | the text that is hashed: rule, kind, name and namespace, joined by bars |
| Models.RuleTexts | pkg/analyzer/rules.go:10-43 | the text of each rule ID |
| Models.ParseKindExact | pkg/loader/loader.go:246-424 | the kind texts select distinct cases of the switch |
| Models.LoadedResources.constructor | pkg/models/models.go:204-221 | a new store is empty |
| Models.LoadedResources.IsEmpty | pkg/models/models.go:223-239 | empty exactly when nothing at all is stored |
| Loader.Categorize | pkg/loader/loader.go:221-425 | the store after a document tree is the fold over its flattened leaves (each step written out by LoaderMeaning.PutMeaning) |
| Loader.StoreLeaf | pkg/loader/loader.go:246-424 | one leaf updates one map or list and nothing else |
| Loader.StoreObject | pkg/loader/loader.go:281-403 | stores the document under its one key, overwriting, and changes nothing else |
| LoaderMeaning.PutMeaning | pkg/loader/loader.go:236-442 | for every document: whether its kind and apiVersion text are read, and the record, table and key it is then stored under, defaults included |
| LoaderMeaning.AccountMeaning | pkg/loader/loader.go:495-551 | the account of a pod or controller: where its pod spec is, and which of the two fields or `default` counts |
| LoaderMeaning.LeavesMeaning | pkg/loader/loader.go:221-234 | a document whose kind ends in List, whatever comes before, stands for the items it holds |
| LoaderTheorems.BindingSubjects | pkg/loader/loader.go:472-493 | a binding lists every subject that is a map, as often as its document does |
| Loader.PutAllAppend | pkg/loader/loader.go:221-234 | loading is a homomorphism from concatenation to composition |
| LoaderTheorems.PutLookup | pkg/loader/loader.go:246-424 | a leaf changes its own cell and no other |
| LoaderTheorems.LastWriteWins | pkg/loader/loader.go:246-424 | a cell holds the last leaf that targets it, or its old content |
| LoaderTheorems.BindingsLoaded | pkg/loader/loader.go:273-279 | the binding lists gain one entry per binding leaf, in order |
| LoaderTheorems.NoOverwriteLookup | pkg/loader/loader.go:246-424 | without overwrites a cell's content does not depend on positions |
| LoaderTheorems.DocumentOrder | pkg/loader/loader.go:192-208 | permuted leaves load equal maps and permuted binding lists |
| LoaderTheorems.InsertedExtends | pkg/loader/loader.go:192-208 | documents that overwrite nothing, anywhere among the others, extend the store |
| LoaderTheorems.LoadedWellKeyed | pkg/loader/loader.go:261-411 | every record that knows its name or namespace sits under the key they and its kind prescribe |
| LoaderTheorems.LoadedWithin | pkg/loader/loader.go:240-244 | namespaces of records come from documents or are the default |
| Manifests.NoTemplateLeft | pkg/loader/loader.go:29-30 | replacing template expressions leaves no match anywhere |
| Manifests.StripIdempotent | pkg/loader/loader.go:182-183 | stripping twice is stripping once |
| Manifests.TemplateReplaced | pkg/loader/loader.go:182-183 | the first template expression becomes the placeholder, the text before it stays and the text after it is stripped |
| Manifests.SplitDocs | pkg/loader/loader.go:213-219 | one more piece than separators |
| Manifests.SplitRebuilds | pkg/loader/loader.go:213-219 | pieces interleaved with separators rebuild the text |
| Manifests.SplitComplete | pkg/loader/loader.go:32-33 | no piece holds a separator line, every separator is one |
| Manifests.SeparatorMeaning | pkg/loader/loader.go:32-33 | a separator line is three dashes, then blanks alone or blanks and a comment |
| Manifests.FileMeaning | pkg/loader/loader.go:157-211 | which leaves a file contributes |
| Manifests.ProcessFile | pkg/loader/loader.go:157-211 | the leaves of all decodable pieces are loaded, none when there are too many documents |
| Rules.ProductGranted | pkg/analyzer/analyzer.go:210-239 | a product of targets is granted exactly when each list is met |
| Rules.GroupListed | pkg/analyzer/rules.go:259-286 | the home group or the wildcard is listed |
| Rules.AnyListed | pkg/analyzer/analyzer.go:212-232 | some entry is wanted or the wildcard |
| Rules.HasEscalationBindingCombo | pkg/analyzer/analyzer.go:210-239 | KC-011 condition: some RBAC write permission is granted |
| Rules.HasSccUsePermission | pkg/analyzer/analyzer.go:241-249 | KC-023 condition: use of SCCs is granted |
| Rules.HasCsrApprovalPermission | pkg/analyzer/analyzer.go:251-269 | KC-031 condition: some approval or signing permission is granted |
| Rules.HasServiceAccountTokenPermission | pkg/analyzer/analyzer.go:271-291 | KC-030 condition: token creation is granted |
| Rules.HasEscalationPodCombo | pkg/analyzer/analyzer.go:295-321 | KC-012 condition: creation of some workload kind is granted |
| Rules.ApiGroupMatchesEscalationWorkload | pkg/analyzer/rules.go:290-314 | some group entry fits the workload resource |
| RoleRules.SensitiveHome | pkg/analyzer/rules.go:82-107 | each sensitive resource lies in exactly one group table |
| RoleRules.ApiGroupMatchesResource | pkg/analyzer/rules.go:235-257 | the resource is the wildcard or its home group is listed |
| RoleRules.DedupKeyInjective | pkg/analyzer/analyzer.go:75-91 | dedup keys of different variants never coincide |
| RoleRules.ReportOnce | pkg/analyzer/analyzer.go:91-101 | the `seen` set and the findings stay those of first triggers |
| RoleRules.CheckRule | pkg/analyzer/analyzer.go:64-202 | one rule adds its triggers to the pass |
| RoleRules.CheckRules | pkg/analyzer/analyzer.go:60-205 | the pass reports the first trigger of each variant (written out by RoleMeaning.FiresMeaning) |
| RoleTheorems.TriggersExact | pkg/analyzer/analyzer.go:64-201 | a rule triggers a variant exactly when the variant's condition holds |
| RoleTheorems.ReportedExact | pkg/analyzer/analyzer.go:60-205 | each variant at most once, exactly when some rule triggers it |
| RoleTheorems.FindingSeverity | pkg/analyzer/analyzer.go:60-205 | the first triggering rule decides the severity |
| RoleTheorems.RoleFindingsCount | pkg/analyzer/analyzer.go:60-205 | how often each rule ID is reported for a role |
| RoleTheorems.ComboReportedIff | pkg/analyzer/analyzer.go:126-201 | KC-011, 012, 023, 030, 031 are reported exactly when a target permission is granted |
| RoleTheorems.RulesPermuted | pkg/analyzer/analyzer.go:60-205 | permuting a role's rules keeps the reported IDs |
| RoleTheorems.SeverityOrderIndependentIff | pkg/analyzer/analyzer.go:91-101 | a severity does not depend on rule order exactly when the role is namespaced or unbound or its triggering rules agree about wildcards |
| RoleTheorems.NamespacedSeverity | pkg/analyzer/analyzer.go:32-36 | findings of namespaced roles are WARNING if bound, INFO otherwise |
| RoleTheorems.ClusterRoleSeverity | pkg/analyzer/rules.go:208-230 | the severity of a cluster role's finding, read off the bindings |
| RoleTheorems.RoleFindingsMonotone | pkg/analyzer/rules.go:208-230 | a wider scope raises severities and emits the same findings |
| RoleTheorems.NoGrantMissed | pkg/analyzer/analyzer.go:105-124 | a grant on a sensitive resource is reported under its rule or KC-001 |
| RoleMeaning.FiresMeaning | pkg/analyzer/rules.go:56-136 | what a rule must list to trigger each rule ID, with all verbs, resources and groups written out |
| RoleMeaning.RoleIdsMeaning | pkg/analyzer/analyzer.go:60-205 | a role is reported under a rule ID exactly when some rule lists what it takes |
| RoleMeaning.RoleCountsMeaning | pkg/analyzer/analyzer.go:74-101 | how often: KC-001 once for wildcard resources and once for wildcard groups, the others at most once |
| RoleMeaning.SensitiveGrantReported | pkg/analyzer/analyzer.go:105-124 | a grant on a resource from the written-out table is reported under that rule ID or KC-001 |
| Scopes.CountSubjects | pkg/analyzer/analyzer.go:574-581 | tallies the subjects that have a kind |
| Scopes.ResolveClusterRoleScope | pkg/analyzer/analyzer.go:418-447 | the scope made of the matching bindings |
| Scopes.ResolveRoleScope | pkg/analyzer/analyzer.go:449-476 | likewise for a namespaced role |
| Scopes.ClusterRoleScopeExact | pkg/analyzer/analyzer.go:418-447 | flags are existence of matching bindings, counts add up over them |
| Scopes.RoleScopeExact | pkg/analyzer/analyzer.go:449-476 | likewise, and never cluster-wide |
| ScopeMeaning.ClusterRoleScopeMeaning | pkg/analyzer/analyzer.go:418-447 | flags, binding names and subject counts, read off the roleRef and subject fields |
| ScopeMeaning.RoleScopeMeaning | pkg/analyzer/analyzer.go:449-476 | likewise, from the role bindings of the namespace alone |
| Scopes.ScopesGrow | pkg/analyzer/analyzer.go:418-476 | more bindings only widen a scope |
| Scopes.ExtractedName | pkg/analyzer/analyzer.go:583-589 | the name read back from a key is right exactly when the namespace has no slash |
| Scopes.OwnBindingSeen | pkg/analyzer/analyzer.go:461-468 | a role's binding is found exactly when its namespace has no slash |
| Scopes.ExtractedNameInjective | pkg/analyzer/analyzer.go:583-589 | within one namespace the extracted name determines the key |
| Chains.BindingReferencesSubject | pkg/analyzer/analyzer.go:561-572 | some subject is the ServiceAccount |
| Chains.CollectReferences | pkg/analyzer/analyzer.go:337-358 | one reference per pod and workload, in visiting order |
| Chains.AnalyzePrivilegeChains | pkg/analyzer/analyzer.go:323-416 | the first emission of each fingerprint, for some visiting order |
| Chains.ChainsAreTheJoin | pkg/analyzer/analyzer.go:360-413 | only what is due is kept, everything due is kept up to its fingerprint, and the join exactly where namespaces do not collide |
| Chains.ChainsDistinct | pkg/analyzer/analyzer.go:495-502 | no chain fingerprint repeats |
| NetworkPolicies.SelectorSelectsAll | pkg/analyzer/networkpolicy.go:159-194 | every entry of the selector is open, in any visiting order |
| NetworkPolicies.BroadNetworkPolicyPeers | pkg/analyzer/networkpolicy.go:77-131 | the distinct reasons of all rules and peers in order |
| NetworkPolicies.AppendUnique | pkg/analyzer/networkpolicy.go:243-250 | keeps the first of each reason |
| NetworkPolicies.NetworkPolicySeverity | pkg/analyzer/networkpolicy.go:146-157 | HIGH for a missing or open podSelector |
| NetworkPolicies.AnalyzePolicy | pkg/analyzer/networkpolicy.go:29-53 | the findings of one policy (written out by NetworkMeaning.PolicyMeaning), deduplicated against earlier ones |
| SelectorTheorems.SelectorExact | pkg/analyzer/networkpolicy.go:159-194 | on well-formed selectors: open exactly when every label set matches |
| SelectorTheorems.SelectsNothingExact | pkg/analyzer/networkpolicy.go:159-194 | on well-formed selectors: no label set matches exactly when some key contradicts itself |
| NetworkTheorems.PolicySeverityExact | pkg/analyzer/networkpolicy.go:146-157 | HIGH exactly when the policy applies to every pod |
| NetworkTheorems.BlockExact | pkg/analyzer/networkpolicy.go:196-212 | an IP block is reported exactly when it admits a whole address family |
| NetworkTheorems.PeerReasonsExact | pkg/analyzer/networkpolicy.go:105-127 | each selector reason is given for exactly the peers that admit in its sense, but for overlooked and overstated ones |
| NetworkTheorems.NullNamespaceSelectorMissed | pkg/analyzer/networkpolicy.go:116-120 | a peer that admits all pods of the namespace and gets no reason |
| NetworkTheorems.OpenPodsReportedIff | pkg/analyzer/networkpolicy.go:116-120 | exactly when the reason for open pods is right |
| NetworkTheorems.ContradictionReported | pkg/analyzer/networkpolicy.go:113-115 | a peer that lets no pod through and gets the reason for open namespaces |
| NetworkTheorems.OpenNamespacesReportedIff | pkg/analyzer/networkpolicy.go:113-115 | exactly when the reason for open namespaces is right |
| NetworkTheorems.BroadExact | pkg/analyzer/networkpolicy.go:77-131 | a rule list has a reason exactly when one of its rules opens it up |
| NetworkTheorems.SelectorReasonsExact | pkg/analyzer/networkpolicy.go:83-130 | the same for whole rule lists |
| NetworkTheorems.EverythingWitnessed | pkg/analyzer/networkpolicy.go:90-113 | each "matches all" reason has a rule that admits every endpoint |
| NetworkTheorems.ReasonsAdditive | pkg/analyzer/networkpolicy.go:77-131 | reasons of concatenated rule lists are the order-preserving union |
| NetworkMeaning.DirectionMeaning | pkg/analyzer/networkpolicy.go:59-75 | which directions count: those policyTypes names, or by default Ingress, and Egress when it has rules |
| NetworkMeaning.ReasonsMeaning | pkg/analyzer/networkpolicy.go:77-131 | which reasons the rules give, field by field, for well-formed and malformed documents |
| NetworkMeaning.PolicyMeaning | pkg/analyzer/networkpolicy.go:29-53 | what a policy must say for KC-017 and KC-018 and for HIGH, for any document |
| Workloads.SensitiveHostPath | pkg/analyzer/workload_security.go:234-247 | the root or a path under a sensitive directory, trailing slash or not |
| Workloads.ScanContainers | pkg/analyzer/workload_security.go:75-135 | summary of all containers of the three lists (named by PodMeaning.ContainersMeaning) |
| Workloads.ScanVolumes | pkg/analyzer/workload_security.go:147-172 | the maximum severity over mounted hostPath volumes |
| Workloads.AnalyzeWorkloadSecurityObject | pkg/analyzer/workload_security.go:69-197 | each rule at most once, at the maximum severity |
| Workloads.ContainersAsSet | pkg/analyzer/workload_security.go:81-135 | reordering or moving containers between lists changes nothing |
| Workloads.CapabilityFindingExact | pkg/analyzer/workload_security.go:118-133 | when KC-022 is reported and when it is HIGH |
| Workloads.HostPathFindingExact | pkg/analyzer/workload_security.go:147-172 | when KC-021 is reported and when it is HIGH |
| PodMeaning.ContainersMeaning | pkg/analyzer/workload_security.go:81-92 | the containers scanned are those under containers, initContainers and ephemeralContainers |
| PodMeaning.MountsMeaning | pkg/analyzer/workload_security.go:93-110 | the volumes a container mounts, under volumeMounts or volumeDevices |
| PodMeaning.PodSpecMeaning | pkg/analyzer/workload_security.go:69-197 | what a pod spec must say for KC-019 to KC-022 and for each severity, with all paths and capabilities written out |
| Exposure.IngressHostCovered | pkg/analyzer/exposure.go:173-183 | some TLS host equals or suffix-covers the host |
| Exposure.IngressHasUnencryptedHosts | pkg/analyzer/exposure.go:134-171 | no TLS, or no catch-all entry and an uncovered rule or bare default backend |
| Exposure.IngressHasBroadHost | pkg/analyzer/exposure.go:117-132 | some rule is hostless or a wildcard, or only a default backend |
| Exposure.MoreTlsIsSafer | pkg/analyzer/exposure.go:134-171 | adding TLS entries never makes an ingress unencrypted |
| Exposure.TlsAsSet | pkg/analyzer/exposure.go:140-155 | order and repetition of TLS entries do not matter |
| ExposureMeaning.CoversMeaning | pkg/analyzer/exposure.go:173-183 | a TLS host covers itself, and a wildcard every host below its domain |
| ExposureMeaning.PlaintextMeaning | pkg/analyzer/exposure.go:134-171 | what an ingress spec must say to be reported as unencrypted |
| ExposureMeaning.AnyHostMeaning | pkg/analyzer/exposure.go:117-132 | what an ingress spec must say to be reported as broad |
| ReportParts.KeptExact | pkg/analyzer/analyzer.go:495-502 | a phase over sorted keys keeps exactly the findings no earlier object shadows |
| ReportParts.ExposureSplits | pkg/analyzer/exposure.go:11-106 | services, ingresses and routes never shadow each other |
| ObjectReports.ServiceVerdictsExact | pkg/analyzer/exposure.go:14-42 | KC-025 in a report stands for exactly the services with a reachable type or an external IP, the first of each fingerprint |
| Exposure.AnalyzeIngress | pkg/analyzer/exposure.go:50-68 | the findings of one ingress |
| ObjectReports.IngressVerdictsExact | pkg/analyzer/exposure.go:44-69 | which ingresses a report names, and for what |
| ObjectReports.RouteVerdictsExact | pkg/analyzer/exposure.go:71-102 | which routes a report names: HIGH if plaintext is allowed, WARNING without TLS termination or for a wildcard policy |
| SortedKeys.SortKeys | pkg/analyzer/exposure.go:108-115 | the keys of a map in lexicographic order |
| SortedKeys.BeforeMeaning | pkg/analyzer/exposure.go:108-115 | that order compares texts at their first difference |
| SortedKeys.SortedUnique | pkg/analyzer/exposure.go:108-115 | there is one such order |
| Analyzer.AnalyzeClusterRoles | pkg/analyzer/analyzer.go:18-30 | phase 1 is a plain concatenation: the duplicate check never drops KC-015 |
| Analyzer.AnalyzeRoles | pkg/analyzer/analyzer.go:32-36 | phase 2 concatenates the findings of the roles, in some visiting order |
| Analyzer.AnalyzePodSecurity | pkg/analyzer/workload_security.go:40-51 | phase 3, pods in sorted key order |
| Analyzer.AnalyzeControllerSecurity | pkg/analyzer/workload_security.go:53-64 | phase 3, workload controllers in sorted key order |
| Analyzer.AnalyzeNetworkPolicies | pkg/analyzer/networkpolicy.go:15-57 | phase 4, in sorted key order |
| Analyzer.AnalyzeSecurityContextConstraints | pkg/analyzer/scc.go:11-45 | phase 5 in sorted key order, around an arbitrary per-object check |
| Analyzer.AnalyzeIngresses | pkg/analyzer/exposure.go:44-69 | phase 6 in sorted key order, after the services |
| Analyzer.AnalyzeSecrets | pkg/analyzer/secrets.go:40-75 | phase 7 in sorted key order, around an arbitrary per-object check |
| Analyzer.Analyze | pkg/analyzer/analyzer.go:10-57 | returns a report of the store for some visiting orders, nothing for nil |
| ReportShape.OwnedDistinct | pkg/models/models.go:66-74 | distinct resources with distinct rules have distinct fingerprints |
| OrderTheorems.DedupOnlyInChains | pkg/analyzer/analyzer.go:495-502 | outside the chain phase deduplication drops nothing |
| OrderTheorems.SortedPhasesFixed | pkg/analyzer/workload_security.go:37-67 | the phases that sort their keys return the same findings in every run |
| OrderTheorems.ChainsPermuted | pkg/analyzer/analyzer.go:323-416 | chain identities and severities do not depend on any order |
| OrderTheorems.OrderIndependence | pkg/analyzer/analyzer.go:11-57 | any two runs report the same multiset of identities and severities |
| FileTheorems.FilesAreLabels | pkg/analyzer/analyzer.go:11-57 | a report without file names is a report of the store without file names |
| FileTheorems.AnonPutAll | pkg/loader/loader.go:221-425 | loading commutes with forgetting the files |
| MonotoneTheorems.NothingHidden | pkg/analyzer/analyzer.go:11-57 | a larger store reports every fingerprint of a smaller one |
| MonotoneTheorems.ScanningMoreRaises | pkg/analyzer/analyzer.go:11-57 | and every identity at least as severe |
| UniquenessTheorems.FingerprintMultiplicity | pkg/analyzer/analyzer.go:74-123 | each fingerprint once, KC-001 on a role once per wildcard variant |
| UniquenessTheorems.ChainIdentitiesExact | pkg/analyzer/analyzer.go:323-416 | the same for KC-013 and KC-014 in a full report |
| UniquenessTheorems.ChainSeverities | pkg/analyzer/analyzer.go:360-413 | KC-013 is CRITICAL, KC-014 WARNING |
| AdminReports.AdminWorkloadReported | pkg/analyzer/analyzer.go:323-380 | a loaded pod or controller document whose account is a subject of a loaded binding to cluster-admin has KC-013 in every report |
| AdminReports.DeployerReported | pkg/loader/loader.go:495-510 | a pod that names an account and a binding of that account to cluster-admin, written out, give KC-013 for the pod in every report |
| UniqueLimits.UniqueIff | pkg/models/models.go:66-74 | fingerprints are unique exactly when namespaces cannot collide |
| UniqueLimits.ChainsJoinIff | pkg/analyzer/analyzer.go:323-416 | chains are the join exactly when namespaces cannot collide |
| UniqueLimits.RoutesPlainIff | pkg/analyzer/exposure.go:71-102 | a report names every route for which something is due exactly when namespaces cannot collide |
| UniqueLimits.DedupIdleIff | pkg/analyzer/analyzer.go:495-502 | deduplication is idle outside the chains exactly when namespaces cannot collide |
| ObjectReports.PodVerdictsExact | pkg/analyzer/workload_security.go:37-197 | which pods and workload controllers a report names, for what and how severely |
| ObjectReports.PolicyVerdictsExact | pkg/analyzer/networkpolicy.go:15-57 | which network policies a report names, the first of each fingerprint |
| ObjectReports.PolicyDueMeaning | pkg/analyzer/networkpolicy.go:29-53 | what is due for a well-formed policy in terms of pods selected and traffic let through |
| ObjectReports.SecretVerdictsExact | pkg/analyzer/secrets.go:40-75 | which secrets a report names: KC-029 as HIGH, KC-028 as WARNING |
| ObjectReports.ConstraintVerdictsExact | pkg/analyzer/scc.go:11-45 | which constraints a report names, without a namespace and at the severity of the check |
| ReportFiles.FindingsFromRecords | pkg/analyzer/analyzer.go:480-493 | every finding has the kind, name, namespace and file of one loaded record and is not suppressed |
| RoleReports.RoleVerdictsExact | pkg/analyzer/analyzer.go:32-36 | which namespaced roles a report names, for which rules and how severely |
| RoleReports.BoundRoleWarns | pkg/analyzer/analyzer.go:449-476 | in a namespace without a slash a role is named as itself, WARNING exactly if a binding refers to it |
| RoleReports.ClusterRoleVerdictsExact | pkg/analyzer/analyzer.go:18-30 | which cluster roles a report names, for which rules, at the severity of the first rule that triggers under the bindings |
| RoleReports.ClusterRoleIdsExact | pkg/analyzer/analyzer.go:18-30 | which cluster roles a report names for which rules, whatever the severity |
| Suppressions.ApplySuppressions | pkg/suppression/suppression.go:89-104 | the array after suppression, in place |
| Suppressions.OnlyFlags | pkg/suppression/suppression.go:94-118 | only flags change, exactly for matching findings |
| Suppressions.Idempotent | pkg/suppression/suppression.go:94-104 | suppressing twice is suppressing once |
| Suppressions.EntriesAsSet | pkg/suppression/suppression.go:94-104 | entry order does not matter |
| Suppressions.MoreSuppressionsPass | pkg/suppression/suppression.go:94-104 | extra suppressions never fail a passing run |
| Suppressions.ThresholdExceeded | cmd/kube-chainsaw/main.go:161-169 | fails exactly when an unsuppressed finding reaches the threshold |
| EndToEnd.LoadManifests | pkg/loader/loader.go:64-104 | the store is the fold over all leaves of all files |
| EndToEnd.GateDeterministic | cmd/kube-chainsaw/main.go:119-169 | two runs over the same documents pass or fail together |
| EndToEnd.Run | cmd/kube-chainsaw/main.go:95-169 | the exit status every possible report gives |
| EndToEnd.DocumentOrderEndToEnd | pkg/loader/loader.go:192-208 | documents permuted, moved between files or regrouped report the same |
| EndToEnd.GroupingIsTransparent | pkg/loader/loader.go:224-234 | wrapping documents into a List changes no leaf |
| EndToEnd.MoreDocumentsRaise | pkg/loader/loader.go:192-208 | further documents, anywhere among the others, keep every finding, at least as severe |
| EndToEnd.MoreDocumentsStillFail | cmd/kube-chainsaw/main.go:161-169 | further documents, anywhere among the others, never pass a failing run |
| EndToEnd.MoreFilesScanMore | pkg/loader/loader.go:118-150 | files found anywhere in the walk add such documents |
| Limits.NamespacesCollideIff | pkg/models/models.go:70-74 | exactly which namespaces can share a fingerprint |
| GrowthLimits.StoresRaiseIff | pkg/analyzer/exposure.go:71-96 | growing stores only raise severities exactly when their namespaces cannot collide |
| GrowthLimits.DocumentsRaiseIff | cmd/kube-chainsaw/main.go:161-169 | the same for documents and for the exit status |
| OrderLimits.DocumentOrderIff | pkg/analyzer/analyzer.go:402-413 | document order does not matter exactly when namespaces cannot collide |
| OrderLimits.AnswersAgreeIff | pkg/analyzer/analyzer.go:338-380 | repeated runs answer alike exactly when namespaces cannot collide |
| Limits.RuleOrderMatters | pkg/analyzer/analyzer.go:64-101 | rule order decides between HIGH and CRITICAL |

## Left out

- Analyzer.AnalyzeSecurityContextConstraints: the permissive-setting and subject checks of scc.go are an arbitrary function
  of the document.
- Analyzer.AnalyzeSecrets: the token and credential checks of secrets.go are an arbitrary function of the document.
- Manifests.ProcessFile: reading the file, its size limit and the trimming and decoding of a piece; the decoder is an
  arbitrary function that also says which pieces are blank, undecodable or null.
- EndToEnd.LoadManifests: directory walking, symbolic links, excluded directories and access errors; the files are given.
- Loader.StoreLeaf: the warnings about duplicate keys on standard error. The apiVersion check is made once,
  before the switch, by the table of required versions.
- Loading from a cluster (pkg/loader/cluster.go) is input/output around kubectl.
- Reporters, the command line and the loading of suppression files are presentation and wrappers.
- Titles, descriptions and remediations, including the target of a NetworkPolicy and resourceNames, which are text only.
- KnownRuleIDs, severity labels and ParseSeverity would add only easy members.
