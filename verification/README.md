# Verified model of cluster-api-provider-kubernetes

The provider turns `KubernetesMachine` and `KubernetesCluster` records into Pods and Services of a
management cluster. This project models its logic in Dafny and proves what holds of it over every
input and every run.

| part | files | what is modelled |
|---|---|---|
| Machine controller | `Machine`, `MachineReconciler`, `MachineTemplates`, `MachineOutcomes`, `MachineRuns`, `MachineConvergence` | one reconciliation as a function and as the in-place program that computes it; what it does, observable by observable; runs in an arbitrary environment; convergence |
| Pod builder | `Pods`, `PodBuilder`, `FinishedPod`, `MachinePod`, `Qos` | the machine Pod as a function of the machine's spec, the program that builds it on a deep copy, and the quality-of-service classifier |
| Cloud-init compiler | `CloudInit`, `CloudInitGenerator`, `CloudInitMeaning`, `Quoting`, `Paths`, `Shell`, `ShellExec` | the script printer, a reader for the shell fragment it prints (sections 2.2.3 and 2.7.4 of the Shell Command Language, POSIX.1-2017), an execution of what was read, and the meaning of the actions |
| Cluster controller | `Cluster`, `ClusterReconciler`, `ClusterOutcomes`, `ClusterRuns` | one reconciliation, the program, its observables, and runs |
| Both controllers | `Routing` | the created Service and the created Pods fit together |

How to read it. Each program (a `method` that changes an object) is proved equal to a function of the
state it starts from; the theorems are about those functions. `MachineOutcomes` and `ClusterOutcomes` say
what those functions do without reference to them: when each field, object, event and return value
changes, and to what. A run is any list of steps from a record
no controller has seen: reconciliations, with any of their calls failing or losing its reply, and
environment steps, which may replace all Pods, Secrets, claims or Services at will and ask for
deletion. The patch at the end of a reconciliation is two requests, metadata with spec and status, each
of which can fail alone. Where Go ranges over a map the order is an input, and the theorems hold for
every order.

What survives a failing patch. Over every run, with any patch lost in part or in whole: the provider ID
form and stability, Ready implying a provider ID, no Pod created or deleted after the provider ID is
recorded (without recreation), failures never cleared, the finalizer rules, the meaning of turning
Ready, the cluster endpoint's stability and the cluster's phase. For the rest the
exact condition is proved: a machine is Ready right after creating a Pod exactly when it was Ready
before and that step's status patch was lost (`CreateClearsReady`, with a whole run in
`RunKeepsReady`); its phase goes wrong exactly when the status half of the patch goes through without
the spec half in a step that records the provider ID (`PhaseAgrees`, `PhaseRepaired`); and a cluster
that turns Ready has its endpoint recorded exactly when the spec half goes through or it was recorded
already (`ReadyMeansResolved`).

Where the code differs from its evident intent or its documentation, the code is followed:

- A spec that lists only containers other than kind has its first container turned into the kind
  container and an empty one appended, because the search loop has an index of its own
  (`OnlyOthersLoseTheFirst`).
- The bootstrap Secret's ownership check inspects the object just built, so its failure is unreachable
  and a foreign Secret goes unnoticed (`SecretCheckUnreachable`).
- Content declared gz+base64 is never unzipped; `DecodedAsDeclared` says exactly when content comes out
  as declared.
- Decoding a runcmd entry crashes on an empty list and on null (`EntriesDecoded`).
- Making a claim writes through the owner-reference slice it shares with its template, so a template
  that already lists the machine, other than as its controller, is changed in the machine's own spec
  (`TemplatesWrittenIff`); no later reconciliation can tell (`TemplatesDoNotMatter`).
- The kubeadm flag is written into the action's own argument slice, so printing an action twice adds it
  twice (`PrintingAgain`).
- A file entry with the default mode or owner does not reset those of an existing file
  (`EffectIsDeclared`, `DefaultModeNotRestored`).
- docs/persistence.md:3-7 says that without recreation a lost Pod fails the machine; a Pod lost before
  the provider ID is recorded is created again (the last clause of `CanSucceed`).
- The comment at pkg/utils/qos.go:18-19 speaks of requests and limits being specified; zero and negative
  quantities count as unspecified, and only totals are compared; `GuaranteedIffEachReserved` says exactly
  when that gives the documented answer.
- A cluster turns Ready even when its Service offers no host or no API-server port, and then records no
  endpoint (`ReadyWithEndpoint`).

## Model

| member | source | states |
|---|---|---|
| MachineReconciler.ReconcileMachine | controllers/kubernetesmachine_controller.go:139-229 | a whole reconciliation, deferred phase and patch included, takes the API server exactly to the step function's next world, whatever it reads and whichever calls fail |
| MachineReconciler.Dispatch | controllers/kubernetesmachine_controller.go:170-228 | which lookups end the reconciliation early, and when it goes to deletion or to normal reconciliation |
| MachineReconciler.ReconcileNormalInPlace | controllers/kubernetesmachine_controller.go:399-474 | in-place normal reconciliation equals its function: early return on failure, finalizers, missing and present Pods |
| MachineReconciler.HandlePod | controllers/kubernetesmachine_controller.go:446-474 | foreign and terminating Pods, the provider ID, and otherwise provisioning |
| MachineReconciler.HandleMissingPod | controllers/kubernetesmachine_controller.go:425-439 | a missing Pod clears Ready and is created, fails the machine, or is created, by mode and provider ID |
| MachineReconciler.ProvisionPod | controllers/kubernetesmachine_controller.go:476-481 | claims first, and nothing further if any of them fails |
| MachineReconciler.StoreCloudInitSecret | controllers/kubernetesmachine_controller.go:483-505 | the Secret is created unless it exists; refused or lost creations end the step |
| MachineReconciler.EnsureSecretControlled | controllers/kubernetesmachine_controller.go:500-505 | fails the machine exactly when the Secret it is given has another owner |
| MachineReconciler.FollowKindContainer | controllers/kubernetesmachine_controller.go:507-560 | from the kind container's status to the two commands in their order, Pod deletion, failure or Ready, as `BodyExact` spells out |
| MachineReconciler.ReconcileDeleteInPlace | controllers/kubernetesmachine_controller.go:562-600 | in-place deletion equals its function, whose release of the finalizer `ReleasedExactly` spells out |
| MachineReconciler.KubernetesMachine.ReconcilePhase | controllers/kubernetesmachine_controller.go:602-628 | five overlapping assignments amount to one priority order |
| MachineReconciler.CreateMachinePod | controllers/kubernetesmachine_controller.go:681-779 | the Pod put in the store is the built one, with owner and labels; the machine's own PodSpec is not written, and its templates only as their claims require |
| MachineReconciler.GetPersistentVolumeClaims | controllers/kubernetesmachine_utils.go:26-43 | succeeds exactly when no template has another controller, and then yields one claim per template name, the last template of a name counting; says what it leaves in the machine's own templates, on success and on failure |
| MachineReconciler.SetControllerReference | controllers/kubernetesmachine_utils.go:36-38 | fails exactly when another object is the controller; otherwise the claim has the reference, and the template's slice changes only where it already listed the machine |
| MachineTemplates.TemplatesWrittenIff | controllers/kubernetesmachine_utils.go:26-43 | the machine's own templates change exactly when one that is reached lists the machine otherwise than as its controller |
| MachineTemplates.PlainOwnerIsOverwritten | controllers/kubernetesmachine_utils.go:26-43 | for instance a template that names the machine as an owner without the controller flag |
| MachineTemplates.RewrittenSettles | controllers/kubernetesmachine_utils.go:26-49 | the written templates are accepted when the original ones are, are not written again, and give the same claims |
| MachineTemplates.TemplatesDoNotMatter | controllers/kubernetesmachine_controller.go:139-229 | a machine with the written templates is reconciled exactly as one with the original templates, from any world |
| MachineReconciler.CreatePersistentVolumeClaims | controllers/kubernetesmachine_utils.go:51-75 | existing claims are kept, missing ones created, errors collected, in any visiting order |
| MachineReconciler.FindContainerStatus | pkg/utils/pod.go:11-18 | the first status with the name |
| MachineReconciler.PodReady | pkg/utils/pod.go:21-59 | the first Ready condition exists and is True |
| Machine.ClaimsOf | controllers/kubernetesmachine_utils.go:26-49 | the claim map's keys are the template names and each claim is named after its own template |
| MachineOutcomes.BodyExact | controllers/kubernetesmachine_controller.go:399-600 | for every record, store and input: Ready, the recorded failure and its message, the Pods, the Secrets with their content, the ordered events and the return value are exactly those of the stated conditions |
| MachineOutcomes.BootstrapStarts | controllers/kubernetesmachine_controller.go:531-541 | the bootstrap command is issued exactly in a running, unterminated container whose claims and Secret are in place, ready or not |
| MachineOutcomes.FinalizersExact | controllers/kubernetesmachine_controller.go:407-411 | both finalizers go on exactly in normal work on a machine that has not failed, and the machine's own comes off exactly in a release |
| MachineOutcomes.ReleasedExactly | controllers/kubernetesmachine_controller.go:562-600 | a step takes the finalizer off exactly when its spec patch is done, everything is found and unpaused, the machine is being deleted, and the cluster goes too, or it is no control-plane machine, or its Pod is gone, foreign or reset |
| MachineOutcomes.VersionExact | controllers/kubernetesmachine_controller.go:139-229 | the version is the owner's when it is found and has one |
| MachineOutcomes.ClaimsExact | controllers/kubernetesmachine_utils.go:51-75 | which claims there are after a reconciliation, and with what content |
| MachineOutcomes.CreateClaimsExact | controllers/kubernetesmachine_utils.go:51-75 | in any visiting order: missing, readable, unrefused claims are created as wanted, the events name exactly those, and success means every claim was obtained |
| MachineOutcomes.ClaimsOwned | controllers/kubernetesmachine_utils.go:26-43 | each template name's claim has its last template's content and the machine as its only controller |
| MachineOutcomes.UpsertExact | controllers/kubernetesmachine_utils.go:36-38 | the reference is there, no other object is controller, every other entry keeps its place, and one more is added only if none named the machine |
| MachineOutcomes.PatchExact | controllers/kubernetesmachine_controller.go:159-168 | each half of a patch writes its own fields and no other |
| MachineRuns.FirstStatus | pkg/utils/pod.go:11-18 | the status found is the first of its name |
| MachineRuns.PodReadyExact | pkg/utils/pod.go:21-59 | a Pod is ready exactly when its first Ready condition is True |
| MachineRuns.ProviderIDStable | controllers/kubernetesmachine_controller.go:453-462 | in every run the provider ID is absent or kubernetes://namespace/name, never changes once recorded, and a ready machine has one |
| MachineRuns.NoRecreation | controllers/kubernetesmachine_controller.go:425-439 | without recreation, no run creates or deletes a Pod after the provider ID is recorded, and Ready is never lost |
| MachineRuns.FailureFreezes | controllers/kubernetesmachine_controller.go:402-405 | a failure is never cleared; while it stands a non-deleting reconciliation touches nothing and keeps it |
| MachineRuns.CreateClearsReady | controllers/kubernetesmachine_controller.go:425-438 | after any step of a run that creates a Pod, in both modes, the machine is ready exactly when it was before and the step's status patch was lost |
| MachineRuns.LostPatchKeepsReady | controllers/kubernetesmachine_controller.go:159-168 | with that status patch lost, the Pod is created again while the record still says ready |
| MachineConvergence.RunKeepsReady | controllers/kubernetesmachine_controller.go:159-168 | every machine that allows recreation has a run from a fresh record in which this happens |
| MachineRuns.SecretCheckUnreachable | controllers/kubernetesmachine_controller.go:489-505 | the ownership check never changes the machine, and an existing Secret of any owner is passed over |
| MachineRuns.RecreationNeverFails | controllers/kubernetesmachine_controller.go:425-525 | with recreation, no run without a foreign Pod or a deletion request ever records a failure |
| MachineRuns.ReleaseStep | controllers/kubernetesmachine_controller.go:562-600 | a step that drops the finalizer was a deletion, and for a control-plane machine of a living cluster its own Pod was gone or had been reset in that step |
| MachineRuns.FinalizerReleased | controllers/kubernetesmachine_controller.go:216-228 | in every run, a lost finalizer was lost in such a step and is never had again |
| MachineRuns.ReadyMeans | controllers/kubernetesmachine_controller.go:476-557 | a step that turns the machine ready has its own live Pod, running and ready, with a true first Ready condition, a claim for every template, the Secret, holding the script if this step made it, a successful bootstrap command right before a successful provider ID command, both finalizers and no failure |
| MachineRuns.ProvisionReady | controllers/kubernetesmachine_controller.go:476-557 | what provisioning that ends in readiness has stored and issued |
| MachineRuns.ClaimsOnlyGrow | controllers/kubernetesmachine_utils.go:61-75 | no claim is removed or replaced, and success means every wanted claim exists |
| MachineRuns.PhaseAgrees | controllers/kubernetesmachine_controller.go:602-628 | in a run, after a status-patched reconciliation the phase is the priority function of deleting, failed, provider ID and ready exactly when the step does not record the provider ID with its spec patch lost, given that none before it did |
| MachineRuns.PhaseRepaired | controllers/kubernetesmachine_controller.go:602-628 | from any record, a fully patched reconciliation leaves the right phase exactly when the record calls for more than Pending or the old phase was unset or Pending |
| MachineRuns.BodyRecordsID | controllers/kubernetesmachine_controller.go:399-462 | exactly which records, Pods and lookups make a reconciliation record the provider ID |
| MachineRuns.HalfPatchStrandsPhase | controllers/kubernetesmachine_controller.go:159-168 | with a split patch the phase can stay Provisioning without a provider ID |
| MachineRuns.EtcdPersists | docs/persistence.md:3-7 | with an etcd claim template, and any user mount of the etcd directory naming it, every control-plane Pod of every run mounts the etcd directory from the machine's own claim, and no reconciliation removes a claim |
| MachineRuns.NewPodPersistent | controllers/kubernetesmachine_controller.go:688-726 | the same for one created Pod, which is owned by and named after the machine |
| MachineConvergence.ProvisionSucceeds | controllers/kubernetesmachine_controller.go:476-560 | what provisioning does to record and Pod when every call succeeds, by stage of the Pod |
| MachineConvergence.CooperativeStep | controllers/kubernetesmachine_controller.go:399-560 | the same for a whole patched reconciliation |
| MachineConvergence.StartsBootstrap | controllers/kubernetesmachine_controller.go:531-541 | a cooperative reconciliation starts the bootstrap of every running container, without which the environment does not make it ready |
| MachineConvergence.RoundConverges | controllers/kubernetesmachine_controller.go:399-560 | each cooperative round keeps whether the machine can succeed, and lowers the rank until it is zero or the machine has failed |
| MachineConvergence.Converges | controllers/kubernetesmachine_controller.go:399-560 | after as many rounds as the starting rank the machine is ready if it could succeed at the start, and has failed if it could not |
| MachineConvergence.RecreationConverges | controllers/kubernetesmachine_controller.go:425-560 | with recreation, no failure and no foreign Pod, the machine always becomes ready |
| MachineConvergence.RankZeroIsStable | controllers/kubernetesmachine_controller.go:399-560 | at rank zero any later cooperative reconciliation writes the same record exactly when the owner's version is absent or unchanged |
| MachinePod.BuildMachinePod | controllers/kubernetesmachine_controller.go:688-964 | the built Pod is the specified one, shares no container slice or SecurityContext with the machine's PodSpec, and the PodSpec is unchanged |
| MachinePod.PodSpecCell.DeepCopy | controllers/kubernetesmachine_controller.go:791-793 | an equal PodSpec whose slice and SecurityContexts are fresh and pairwise apart, even if the original's are not |
| MachinePod.SetPrivileged | controllers/kubernetesmachine_controller.go:999-1005 | the flag is written through the container's pointer, in a new SecurityContext if there was none; the other containers show no change; `FinishedFields` says to what |
| MachinePod.FillVolumes | controllers/kubernetesmachine_controller.go:803-956 | the user's volumes followed by each default whose name the user did not use |
| MachinePod.UpdateStorageInPlace | controllers/kubernetesmachine_utils.go:80-107 | claim volumes in visiting order, then every volume no template displaces |
| MachinePod.FindKind | controllers/kubernetesmachine_controller.go:968-979 | the last kind container, or index zero of the extended slice |
| MachinePod.SetKindContainerBase | controllers/kubernetesmachine_controller.go:966-1023 | exactly one element of the slice is rewritten, as the kind container |
| MachinePod.SetControlPlane | controllers/kubernetesmachine_controller.go:710-757 | etcd volume and mount, probe and port are added where missing; nothing else changes |
| MachinePod.SetVolumeMount | controllers/kubernetesmachine_utils.go:188-207 | a mount is appended only when its path is unused |
| PodBuilder.FinishedVolumes | controllers/kubernetesmachine_utils.go:80-107 | for any visiting order: names pairwise distinct; claims, then undisplaced user volumes in order, then the controller's; each template name backed by its own claim |
| PodBuilder.FinishedMounts | controllers/kubernetesmachine_controller.go:1010-1020 | user mounts are a prefix, paths stay distinct, every added mount names a volume of the Pod |
| PodBuilder.StandardIsSound | controllers/kubernetesmachine_controller.go:61-84 | the controller's own volume names are distinct, its mounts name them, and none uses the etcd directory |
| FinishedPod.FinishedFields | controllers/kubernetesmachine_controller.go:981-1020 | restart policy, name, image, terminal, privileged flag, probe and resources of the finished kind container, and what stays as the user wrote it |
| FinishedPod.OwnVolumes | controllers/kubernetesmachine_controller.go:836-956 | every volume that neither user nor template named is one of the controller's own, with its own source, and all of those are there |
| FinishedPod.OwnPaths | controllers/kubernetesmachine_controller.go:1010-1020 | every path of the controller's own that the user leaves free is mounted from its own volume, with its sub-path and mode |
| FinishedPod.CreatedPod | controllers/kubernetesmachine_controller.go:681-779 | a created Pod is new, the machine's own, labelled for its cluster and role, runs the node image of the owner's version, and its probe asks the cluster's API-server port |
| PodBuilder.OtherContainersUnchanged | controllers/kubernetesmachine_controller.go:966-979 | every container but kind comes out unchanged if the spec lists kind or nothing |
| PodBuilder.OnlyOthersLoseTheFirst | controllers/kubernetesmachine_controller.go:970-979 | otherwise the first container becomes kind and an empty one is appended |
| PodBuilder.NeverBestEffort | controllers/kubernetesmachine_controller.go:988-997 | the finished Pod is never BestEffort, and kind's resources are replaced exactly when it would have been |
| PodBuilder.EtcdOnClaim | controllers/kubernetesmachine_controller.go:710-726 | with an etcd template, the control-plane Pod's etcd directory is mounted only from its claim exactly when no user mount there names another volume |
| PodBuilder.ClaimNameInjective | controllers/kubernetesmachine_utils.go:45-49 | two templates of a machine never share a claim |
| PodBuilder.ClaimNameCollides | controllers/kubernetesmachine_utils.go:45-49 | templates of two machines can |
| PodBuilder.ClaimNamesCollideIff | controllers/kubernetesmachine_utils.go:45-49 | exactly when one machine's name ends in a dash and the other's name |
| PodBuilder.LastKind | controllers/kubernetesmachine_controller.go:970-975 | the last container named kind, or -1 |
| Qos.GetPodQOS | pkg/utils/qos.go:21-84 | computes the class from totals, for any map visiting order |
| Qos.TallyContainers | pkg/utils/qos.go:29-66 | running totals of positive cpu and memory, and whether every container has both limits |
| Qos.Accumulate | pkg/utils/qos.go:31-61 | one resource list added to a tally in any order; unsupported and non-positive entries ignored |
| Qos.BestEffortIffNothingAsked | pkg/utils/qos.go:67-69 | BestEffort exactly when no container asks for a positive amount of cpu or memory |
| Qos.GuaranteedIffEachReserved | pkg/utils/qos.go:70-83 | on every Pod, the class is Guaranteed just when there is a container and each one's limits are set and equal its own requests, unless, and only unless, a request over its limit is masked by agreeing totals |
| Qos.TotalsCanHideMismatch | pkg/utils/qos.go:70-83 | two containers whose mismatches cancel out pass as Guaranteed |
| Qos.ClassifyIgnoresOrder | pkg/utils/qos.go:26-28 | the class depends only on the multiset of containers, init ones included |
| Quoting.QuoteRoundTrip | pkg/cloudinit/runcmd.go:88-92 | a %q-quoted word is read back as itself exactly when it is printable and free of $ and backquotes |
| Quoting.QuoteIsLiteral | pkg/cloudinit/runcmd.go:88-92 | every word, printable or not, is what Go reads back from its quoted form |
| Quoting.QuotedReads | pkg/cloudinit/runcmd.go:88-92 | what a shell makes of any quoted word, and that it stops at the closing quote |
| Shell.HereDocumentExact | pkg/cloudinit/writefiles.go:79-84 | a text in a here-document comes out unchanged, with the rest of the script untouched, exactly when it has no expansion, no consumed backslash and no END line |
| CloudInitMeaning.CmdLineReads | pkg/cloudinit/runcmd.go:88-93 | a printed command line reads back as the command's words exactly when every word survives quoting |
| CloudInitMeaning.CmdLineMeans | pkg/cloudinit/runcmd.go:88-93 | what it reads back as otherwise |
| CloudInitMeaning.FileThen | pkg/cloudinit/writefiles.go:70-95 | a printed file entry reads back as its own commands and leaves everything after it alone |
| CloudInitMeaning.ScriptReads | pkg/cloudinit/kindadapter.go:61-86 | the whole script reads as the header's options and exactly the actions' commands in document order |
| ShellExec.ScriptMeaning | pkg/cloudinit/kindadapter.go:61-86 | running the script from any state does what the actions mean |
| ShellExec.ScriptFolds | pkg/cloudinit/kindadapter.go:61-86 | from any state and for any commands, a script that runs to its end leaves the ordered overwrite and append fold of newline-terminated contents, and has issued exactly the actions' commands in document order |
| ShellExec.ScriptWritesFiles | pkg/cloudinit/writefiles.go:57-98 | a file written once at a fresh path, whose mode and owner no command of the document changes, ends with its content and its declared mode and owner; untouched files stay; without chmod or chown in runcmd the script runs to its end |
| ShellExec.FileRuns | pkg/cloudinit/writefiles.go:59-96 | a file entry's commands succeed and have the stated effect, appending or overwriting |
| ShellExec.EffectIsDeclared | pkg/cloudinit/writefiles.go:86-95 | mode and owner end up as declared exactly when the ones left to the defaults were already there |
| ShellExec.DefaultModeNotRestored | pkg/cloudinit/writefiles.go:86-89 | a default mode does not undo an earlier one |
| Paths.DirQuotable | pkg/cloudinit/writefiles.go:70-72 | the directory of a quotable path is quotable |
| Paths.DirExact | pkg/cloudinit/writefiles.go:70-72 | the directory of a name under ordinary parts is those parts, rooted or not; of a bare name the root or the current directory |
| Paths.ParentCancels | pkg/cloudinit/writefiles.go:70-72 | a parent step cancels the ordinary part before it |
| Paths.DotsDrop | pkg/cloudinit/writefiles.go:70-72 | empty parts and dots make no difference, and the root is its own parent |
| Paths.TrimExact | pkg/cloudinit/writefiles.go:100-118 | white space around a text, and only that, is removed |
| CloudInit.DecodedAsDeclared | pkg/cloudinit/writefiles.go:120-158 | for every encoding and content, decoding removes every layer the encoding's name declares, unless, and only unless, the content is zipped under base64, its base64 layer decodes, and the result does not unzip to itself |
| CloudInit.DecodedByName | pkg/cloudinit/writefiles.go:120-158 | which layer is removed, by the name of the encoding, white space and case aside |
| CloudInit.AttributesExact | pkg/cloudinit/writefiles.go:59-66 | path, owner and mode without white space around them, and the defaults for blank ones |
| CloudInit.GzipUnderBase64Stays | pkg/cloudinit/writefiles.go:136-158 | content under gz+base64 is decoded but never unzipped |
| CloudInit.EntriesDecoded | pkg/cloudinit/runcmd.go:38-62 | an entry crashes the decoder exactly when it is an empty list or null, is an error exactly when it is no list of strings or string, and otherwise keeps its words or becomes a shell command |
| CloudInitGenerator.GenerateFilesBlock | pkg/cloudinit/writefiles.go:57-98 | the loop prints the specified block; a decoding error returns the block so far |
| CloudInitGenerator.GenerateCmdsBlock | pkg/cloudinit/runcmd.go:82-97 | the block prints the old commands with the flag; afterwards only script arguments of string-form kubeadm commands differ |
| CloudInitGenerator.HackKubeadmIgnoreErrors | pkg/cloudinit/runcmd.go:99-115 | the returned command has the flag; the given slice changes only in the string form |
| CloudInitGenerator.FlagAddedOnce | pkg/cloudinit/runcmd.go:99-115 | on the words themselves: the flag goes once to the end of a shell script mentioning kubeadm init or join, or of a kubeadm init or join list, and no other word changes |
| CloudInitGenerator.PrintingAgain | pkg/cloudinit/runcmd.go:99-115 | printing again gives the same command exactly when it is not a string-form kubeadm command |
| CloudInitGenerator.GetActions | pkg/cloudinit/kindadapter.go:90-132 | the scan yields the actions of the document's blocks, or an error exactly when some block does not unmarshal |
| CloudInitGenerator.BlocksPartition | pkg/cloudinit/kindadapter.go:98-129 | one block per key line in order, each with exactly that key line, only the first with lines before it, together the whole document; no key line, no block |
| CloudInitGenerator.PartitionUnique | pkg/cloudinit/kindadapter.go:98-129 | no other cut has those properties |
| CloudInitGenerator.KeyExact | pkg/cloudinit/kindadapter.go:91-101 | a key line is one with a colon after letters and underscores only |
| CloudInitGenerator.UnmarshalByName | pkg/cloudinit/kindadapter.go:43-53 | the name decides the decoder and the kind of action |
| CloudInitGenerator.UnmarshalExact | pkg/cloudinit/kindadapter.go:104-131 | there are actions exactly when every block unmarshals, one for each, in order |
| CloudInitGenerator.JoinedLines | pkg/cloudinit/kindadapter.go:106 | the decoder is given the block's own lines |
| CloudInitGenerator.GenerateScript | pkg/cloudinit/kindadapter.go:61-86 | invalid or undecodable documents give an error and no script, a failing block gives the script before it, otherwise the specified script |
| CloudInitGenerator.CompilerCorrect | pkg/cloudinit/kindadapter.go:61-86 | from document lines to effect: the script of a safe document does what its actions mean |
| ClusterReconciler.ReconcileCluster | controllers/kubernetescluster_controller.go:64-124 | a whole reconciliation takes the API server exactly to the step function's next world |
| ClusterReconciler.Dispatch | controllers/kubernetescluster_controller.go:94-124 | early returns, the default service type, deletion |
| ClusterOutcomes.Situations | controllers/kubernetescluster_controller.go:176-253 | every reconciliation that looks at the Service finds none, a foreign one, one without a host, or one with an endpoint |
| ClusterOutcomes.UnseenExact | controllers/kubernetescluster_controller.go:94-124 | short of that, only the default type and the finalizers change |
| ClusterOutcomes.AbsentExact | controllers/kubernetescluster_controller.go:287-336 | the request, spelled out, and what creating it leaves |
| ClusterOutcomes.ForeignExact | controllers/kubernetescluster_controller.go:197-204 | the failure for a foreign Service |
| ClusterOutcomes.WaitsExact | controllers/kubernetescluster_controller.go:208-225 | a load balancer without host is waited for, and nothing else changes |
| ClusterOutcomes.SeesExact | controllers/kubernetescluster_controller.go:227-252 | the offered endpoint is recorded if none is, and the cluster is ready exactly if it is the recorded one, failed otherwise |
| ClusterOutcomes.ReleasedExactly | controllers/kubernetescluster_controller.go:255-262 | a step takes the finalizer off exactly when its spec patch is done and a deleted cluster is found and not paused |
| ClusterReconciler.ReconcileNormalInPlace | controllers/kubernetescluster_controller.go:176-253 | in-place normal reconciliation equals its function |
| ClusterReconciler.FindHost | controllers/kubernetescluster_controller.go:208-225 | the cluster IP, or the load balancer's hostname, else its address, else none yet |
| ClusterRuns.HostExact | controllers/kubernetescluster_controller.go:208-225 | no host exactly for a load balancer whose first ingress, if any, has neither; its hostname if it has one, else its address; for other types the cluster IP |
| ClusterReconciler.FindPort | controllers/kubernetescluster_controller.go:227-233 | the last port that targets the API server, or zero |
| ClusterRuns.PortExact | controllers/kubernetescluster_controller.go:227-233 | of several matching ports the last one counts |
| ClusterReconciler.CreateClusterService | controllers/kubernetescluster_controller.go:287-336 | the Service created and recorded in the trace is the request |
| ClusterReconciler.KubernetesCluster.ReconcilePhase | controllers/kubernetescluster_controller.go:264-285 | four overlapping assignments amount to one priority order |
| ClusterRuns.EndpointStable | controllers/kubernetescluster_controller.go:235-246 | over every run the endpoint never changes once host and port are set, Ready and failures are never cleared |
| ClusterRuns.ReadyMeansResolved | controllers/kubernetescluster_controller.go:208-252 | a step of a run that turns the cluster ready has its own Service in hand, and leaves recorded the hostname, address or cluster IP and the last matching port of that Service exactly when its spec patch goes through or they were so already, as a set endpoint is |
| ClusterRuns.HalfPatchLosesEndpoint | controllers/kubernetescluster_controller.go:83-92 | with the spec half of the patch lost, the cluster is ready with no endpoint |
| ClusterRuns.ReadyWithEndpoint | api/v1alpha3/kubernetescluster_types.go:114-117 | a cluster turning ready has no endpoint exactly when its Service offers no host or no port |
| ClusterRuns.PhaseAgrees | controllers/kubernetescluster_controller.go:264-285 | after every reconciliation whose status patch succeeds, the phase is the priority function of deleting, failed and ready |
| ClusterRuns.RecreatedServiceAsks | controllers/kubernetescluster_controller.go:287-330 | every created Service asks for the recorded host and port |
| ClusterRuns.NeverFails | controllers/kubernetescluster_controller.go:176-253 | with an API server that honours requests and no foreign Service, a cluster of a supported type never fails in any run |
| ClusterRuns.UnsupportedTypeFails | controllers/kubernetescluster_controller.go:289-297 | every other service type, recreated at another address, fails |
| ClusterRuns.BecomesReady | controllers/kubernetescluster_controller.go:176-253 | a fresh cluster of a supported type in cooperative rounds has its Service after the first, is ready exactly one round after that Service has a host, then has that endpoint recorded, and never fails |
| ClusterRuns.CooperativeReconcile | controllers/kubernetescluster_controller.go:176-253 | one cooperative reconciliation creates a missing Service, or turns the cluster ready exactly when its Service has a host |
| Routing.ServiceReachesControlPlane | controllers/kubernetescluster_controller.go:305-330 | the Service selects a machine Pod exactly when it is a control-plane Pod of its own cluster, and each port it forwards to is named by that Pod's kind container, whatever the user's PodSpec |
| Routing.PodServesApi | controllers/kubernetesmachine_controller.go:743-757 | user ports stay in front, and the API-server port is added once, only when no user port has its name |

## Left out

- Stale caches: each reconciliation reads the store as it is; a reconciliation is one atomic step.
- The record disappearing once its finalizers are gone, and user edits of spec or status during a run: a run covers the life of one record with a fixed spec.
- Mount, port and volume slices are values in `MachinePod`, and so are init containers: the code only appends to or replaces them, so what spare capacity behind a slice holds is not modelled.
- The patch does not carry changed templates: the user's templates stay part of the configuration of a run, which `TemplatesDoNotMatter` shows makes no difference.
- How controller-runtime sets a controller reference is modelled as that library documents it; the library itself is not part of this model.
- The choice among several controller Pods and the Pod list behind it: the listed names are an input.
- pkg/pod/exec.go, client plumbing, logging, manager setup, watches and their mapping functions.
- YAML, JSON, base64 and gzip themselves, and the line scanner's length limit; `EntriesDecoded` starts from entries as JSON values, and the compiler from entries that decoded.
- pkg/cloudinit/unknown.go: its block is printed in the model, but the compiler theorems cover write_files and runcmd only.
- Quoting of code points above U+00FF, all of which count as printable here, and lower-casing outside ASCII.
- Shell features outside the fragment: expansions, other quoting, compound commands, umask, permissions of directories; and what commands other than mkdir, chmod and chown do to files.
- API conversions, webhooks, generated deep copies, end-to-end tests and manifests.
