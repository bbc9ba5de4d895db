# kg, modelled in Dafny

kg turns a pool of pre-provisioned hosts into Kubernetes clusters. A HostMachine
claims a Host from the pool, a cloud-config is compiled into one bash script, the
script is launched detached on the host over SSH, and a genesis node later lets the
finished cluster go. This project models those four parts and proves what they keep
over every run, input or document.

| modules | part |
|---|---|
| `Objects`, `Claims`, `ClaimSafety`, `ClaimTheorems`, `Tenancy`, `Reservation`, `Race`, `LostPatch`, `ComparedRelease` | the host claim protocol as a state machine: one step per API call, any number of machines, hosts, probes, crashes and moves |
| `Reconciler` | the two controllers as imperative code against a store that others change before every call; every method takes only steps of that state machine |
| `Provisioner`, `Bootstrapper`, `Bootstrap` | the detached bootstrap on a host: its files as a state machine, the code that drives it, and the composition with the claim protocol |
| `Base64`, `Shell`, `ShellReading`, `CloudInit`, `CloudInitMeaning`, `CloudInitScript`, `CloudInitLimits`, `GuardLimits` | rendering cloud-config as a script, and an independent reader and evaluator for the shell language it is written in |
| `Kubeadm`, `KubeadmLaws` | the in-place patch of kubeadm documents |
| `Sorting`, `Inventory` | natural order of host names and the sorted pool |
| `Registry`, `Genesis`, `GenesisTheorems`, `GenesisOnDisk` | the crash-atomic cluster registry and the commands that create, eject, delete, discover and forget clusters |

`dafny verify dfyconfig.toml` checks everything.

## How the claim protocol is modelled

`Claims.World` is the API store plus one saved snapshot per reconcile in flight.
`Claims.Next` is one API call. Its assumptions:

- Reconciles of one object are serial; those of different objects interleave freely.
- A List or Get sees the store at one instant.
- `Update` and `Status().Update` commit only on the resourceVersion last seen.
- The Host controller's patch writes only the fields it changed since its read and
  checks no version.
- A reconcile can die between any two calls. The one exception in the main theorems
  is the end of a release, between clearing the host's status and patching the
  machine (`Claims.NoLostPatch`). `LostPatch` shows that the exception is needed: it
  gives a run in which losing that patch lets two live machines hold one host, and
  the exact condition under which a delete pass is harmless. `ComparedRelease` shows
  that nothing else is missing: with that condition checked when a delete pass reads
  its host, exclusiveness holds in every run, lost patches included.
- A UID is a machine name with the number of moves so far; names of machines and
  hosts are not reused; hosts carry their finalizer.
- A move is made when nothing is being deleted, and ends every reconcile in flight.

In `Reconciler.Cluster` the others' actions come from an arbitrary schedule, and
`Valid()` says that the state is `Run(origin, trace)`. Clauses about an empty schedule
say what a method does when nobody interferes.

## Findings

- `reconcileDelete` never compares the claim with its own machine, so a release whose
  last patch is lost can release a host somebody else holds
  (`LostPatch.LostPatchBreaksExclusiveness`). A delete pass is harmless if and only if
  the host is unclaimed or its own (`LostPatch.DeletePassIsHarmlessIff`), and checking
  just that restores exclusiveness over every run
  (`ComparedRelease.ComparisonRestoresExclusiveness`).
- An entry that holds no command (an empty vector, a blank string, a comment) renders
  a guard with nothing in it, which is a syntax error for the whole script. Among
  entries that read by themselves these are the only ones that do
  (`CloudInitLimits.ReadableIffAllHoldCommands`).
- Inside a guard `set -e` is off, so in an entry of several lines only the last line's
  status counts, unless an earlier line ends the shell
  (`GuardLimits.GuardHidesEarlierLines`). The guard hides nothing that `set -e` would
  have caught if and only if the entry is one line and so is any group that line ends
  in (`GuardLimits.GuardHidesNothingIff`).
- With two clusters in one namespace, ejecting one can strand the other
  (`GenesisTheorems.NeighbourIsStranded` is such a run;
  `GenesisTheorems.EjectionStrandsIff` says exactly when).
- `cluster create` on an identity that was forgotten while its paused object is still
  on the genesis node records it as managed while nothing acts on it
  (`GenesisTheorems.CreateLiesIff`; `GenesisTheorems.ForgottenReleaseLies` is such a
  run).
- An ejection that was cut can be repeated, except after a move that was not recorded,
  when the record says managed for ever, and after a record with the genesis node
  still to be deleted, when the node stays (`GenesisTheorems.RepeatMendsIff`, with the
  runs `GenesisTheorems.UnrecordedMoveIsStuck` and `GenesisTheorems.IdleNodeStays`).

## Model

| member | source | states |
|---|---|---|
| ClaimSafety.StepKeeps | internal/controller/hostmachine_controller.go:269-514 | every API call of either controller, every operator action and every crash keeps the protocol's invariant |
| ClaimSafety.RunKeeps | internal/controller/hostmachine_controller.go:269-514 | so does every run |
| ClaimTheorems.NoHostHeldTwice | internal/controller/hostmachine_controller.go:269-400 | in every run from an empty pool no two machines hold one host, and the holder of a host that exists is the one its claimRef UID names |
| ClaimTheorems.HolderIsClaimant | internal/controller/hostmachine_controller.go:388-400 | a recorded or held host that exists is claimed by exactly that UID |
| ClaimTheorems.ClaimAndLabelAgree | internal/controller/hostmachine_controller.go:313-381 | in every run a claim's label is its claimant's name unless the claimant's own release is half done, and a name labels at most one host |
| ClaimTheorems.OnlyConfirmedHostsAreTaken | internal/controller/host_controller.go:79-143 | in every run an Available host has no claimRef, and a fresh claim takes a host that is unclaimed, Available, healthy, not being deleted and selected, and on which a probe answered at some step after which it was neither released nor moved |
| ClaimTheorems.EligibleIff | internal/controller/hostmachine_controller.go:342-352 | what a fresh claim asks of a host, requirement by requirement of the selector |
| ClaimTheorems.OnlyClaimingMakesHolders | internal/controller/hostmachine_controller.go:313-381 | a machine comes to hold a host only by its own reconcile recording a claim or finding one it had made |
| Reservation.NobodyElseBeforeRelease | internal/controller/hostmachine_controller.go:322-337 | after a move that drops all status and renews all UIDs, in every later interleaving, deletions of the machine and the host included: until the host is released nobody but the machine its label names holds it, nobody takes it, and while it exists that machine has no other host |
| Reservation.NobodyElseAfterClaim | internal/controller/hostmachine_controller.go:269-400 | the same from a claim on |
| Reservation.RunKeepsReserved | internal/controller/hostmachine_controller.go:433-514 | every step but the release itself keeps a host reserved, delete passes and half-done releases included |
| Tenancy.MoveKeepsAssignment | internal/controller/hostmachine_controller.go:322-337 | while neither the machine nor the host is deleted, the label stays as well and the claim is the machine's or nobody's |
| Tenancy.RunKeepsOwned | internal/controller/host_controller.go:131-138 | a tenancy survives every run that does not delete its machine or host, moves included |
| Tenancy.RecordStartsTenancy | internal/controller/hostmachine_controller.go:388-400 | a recorded claim starts a tenancy |
| Tenancy.MoveStartsTenancy | internal/controller/hostmachine_controller.go:322-337 | a move turns every label of a machine into a tenancy |
| Tenancy.OthersSpareHost | internal/controller/hostmachine_controller.go:339-381 | no step of another machine writes a host that is reserved for somebody, a half-released one included |
| Race.RaceTakesTheFirst | internal/controller/hostmachine_controller.go:306-381 | n machines with one selector, alone with the pool, end up with exactly the first n eligible hosts in inventory order, whatever the interleaving, label overwrites, conflicts and crashes |
| LostPatch.DeletePassIsHarmlessIff | internal/controller/hostmachine_controller.go:433-514 | a delete pass leaves every other machine's claim alone if and only if the host it releases is unclaimed or its own |
| LostPatch.DeletePassIsHarmless | internal/controller/hostmachine_controller.go:433-496 | that condition holds wherever a delete pass can begin in a run that loses no final patch |
| LostPatch.LostPatchBreaksExclusiveness | internal/controller/hostmachine_controller.go:433-496 | with that patch lost there is a run in which two live machines hold one host |
| ComparedRelease.ComparisonRestoresExclusiveness | internal/controller/hostmachine_controller.go:433-496 | if a delete pass compared the claim it reads with its own UID, then in every run, lost patches included, no two live machines would hold one host and the holder would be the one claimRef names: the comparison is the only gap |
| ComparedRelease.StepMatches | internal/controller/hostmachine_controller.go:433-514 | with the comparison, every step, seen without the machines whose patch was lost, is nothing, one protocol step that loses no patch, or one scrub of an unclaimed host |
| Reconciler.ClaimHost | internal/controller/hostmachine_controller.go:269-384 | takes only protocol steps; a machine with a host on record never gets another; undisturbed, a machine named by a host's claim or label gets exactly that host back, a machine named by none gets the first eligible host in inventory order or nothing if there is none, and no other host changes |
| Reconciler.ClaimFromPool | internal/controller/hostmachine_controller.go:296-384 | the list, the two recoveries and the fresh claim, in that order |
| Reconciler.ClaimByLabel | internal/controller/hostmachine_controller.go:322-384 | the recovery by label rewrites claimRef on that host only |
| Reconciler.WalkPool | internal/controller/hostmachine_controller.go:339-384 | the fresh-claim loop; undisturbed it claims the first eligible host and only that one |
| Reconciler.TakeHost | internal/controller/hostmachine_controller.go:354-381 | label first, claim after it; a conflict on the label passes on to the next host |
| Reconciler.TryHost | internal/controller/hostmachine_controller.go:342-381 | one turn of the loop: an ineligible host is passed over without a write |
| Reconciler.RecordClaim | internal/controller/hostmachine_controller.go:388-400 | on the version last seen, claimRef and phase Claimed are written and nothing else; otherwise it fails without writing |
| Reconciler.FetchRecorded | internal/controller/hostmachine_controller.go:275-289 | returns exactly the recorded host if it exists, and otherwise nothing with the reference emptied; no host changes |
| Reconciler.FindClaimed | internal/controller/hostmachine_controller.go:313-320 | the first host in the list with this machine's UID in its claimRef |
| Reconciler.FindLabelled | internal/controller/hostmachine_controller.go:326-337 | the first host in the list labelled with this machine's name |
| Reconciler.ListInOrder | internal/controller/hostmachine_controller.go:296-306 | every host of the pool once, in inventory order |
| Reconciler.MarkHostProvisioned | internal/controller/hostmachine_controller.go:402-408 | undisturbed, the host becomes Provisioned and no other changes; a refused update is reported |
| Reconciler.ReleaseHost | internal/controller/hostmachine_controller.go:498-514 | the label goes, then claim and phase; undisturbed exactly that host goes back to the pool as Pending |
| Reconciler.ClearStatus | internal/controller/hostmachine_controller.go:505-513 | the status half of a release |
| Reconciler.ReconcileDelete | internal/controller/hostmachine_controller.go:433-496 | a machine without a host, or whose host is gone, needs no release; a failed release keeps the reference |
| Reconciler.ReconcileMachine | internal/controller/hostmachine_controller.go:62-112 | a whole reconcile, from the first read to the deferred patch: a machine that is gone, without an owner or paused is left alone, one whose dependencies are not there only gets its finalizer, one being deleted goes, and any other, undisturbed, ends with its finalizer and the host on record, the host that names it, or the first eligible one, that host Provisioned exactly when its script has succeeded or it was |
| Reconciler.ReconcileNormal | internal/controller/hostmachine_controller.go:114-265 | nothing until cluster and bootstrap data are there, then claim and bootstrap; a recorded host is kept or dropped, never exchanged; undisturbed, the host ends Provisioned if its script has succeeded, and otherwise no host becomes Provisioned |
| Reconciler.ReconcileDeleted | internal/controller/hostmachine_controller.go:103-105 | undisturbed, the host goes back to the pool and the machine goes |
| Reconciler.PatchMachine | internal/controller/hostmachine_controller.go:93-101 | the deferred patch writes reference and finalizer of a machine that still exists |
| Reconciler.ReconcileHost | internal/controller/host_controller.go:50-91 | a claimed host is left entirely alone; undisturbed, a deleted one stays while its claimant exists and goes otherwise, and any other becomes Unreachable, Claimed or Available by its health, the probe and its label, and nothing else changes |
| Reconciler.ProbeHost | internal/controller/host_controller.go:93-143 | a host that answers is Available only if it carries nobody's label |
| Reconciler.PatchPhase | internal/controller/host_controller.go:62-66 | the patch writes the phase only, and only if it changed since the read |
| Reconciler.ReconcileHostDelete | internal/controller/host_controller.go:145-170 | undisturbed, a deleted host stays while its claimant exists and goes otherwise |
| Reconciler.Cluster.Update | internal/controller/hostmachine_controller.go:354-365 | commits only on the version last seen; a conflict or a missing host changes nothing |
| Reconciler.Cluster.Sound | internal/controller/hostmachine_controller.go:62-112 | whatever the controllers' code and the others did, the invariant and exclusiveness still hold |
| Provisioner.LaunchedAtMostOnce | internal/provisioner/provisioner.go:109-152 | whatever older files are on the disk and wherever attempts are cut, also in the middle of a write, one checksum's script is launched at most once between two resets, with its own runner, and never if the checksum was there already |
| Provisioner.StatusOnlyMovesForward | internal/provisioner/provisioner.go:73-104 | with no older run still going, Status moves from Idle to Running to one outcome and never back |
| Provisioner.OutcomeIsTheScripts | internal/provisioner/provisioner.go:73-152 | from a disk without the checksum, Succeeded means this script ran and exited 0, Failed means it exited with that code |
| Provisioner.OutcomeIsReported | internal/provisioner/provisioner.go:73-104 | and every outcome is reported: Idle exactly without the checksum, Running from the launch until the script exits, then Succeeded for exit 0 and Failed with its code for any other |
| Bootstrapper.Preflight | internal/provisioner/provisioner.go:154-189 | ready exactly for root with each of the seven required commands; what is missing is listed in full, in order |
| Bootstrapper.Connection.Status | internal/provisioner/provisioner.go:73-104 | two reads with the run free to end between them; on a host that was clean the answer is Succeeded exactly when the launched script has exited 0, Running while it runs, and Failed with its code |
| Bootstrapper.Connection.Start | internal/provisioner/provisioner.go:109-152 | undisturbed on a host that may start, it launches the wanted script; it never launches more than once, and reports success only after a launch |
| Bootstrapper.Connection.RunBootstrap | internal/controller/hostmachine_controller.go:186-265 | launches nothing unless the disk said Idle, at most once and only the wanted script; undisturbed, from Idle it does launch, and it reports success exactly after exit 0 |
| Bootstrapper.Connection.Sound | internal/provisioner/provisioner.go:73-152 | everything this code did on a clean host is at most one launch of the wanted script, and Succeeded is reported exactly when it exited 0 |
| Bootstrap.TenancyIsARun | internal/controller/hostmachine_controller.go:163-260 | however API calls, crashes, moves, probes, resets and other machines interleave, what happens on a tenant's host is a run of the tenant's own bootstrap |
| Bootstrap.BootstrappedAtMostOnce | internal/controller/hostmachine_controller.go:211-260 | during one tenancy the script is launched at most once across restarts, retries and moves, and it is the tenant's |
| Bootstrap.OneLaunchUntilRelease | internal/controller/hostmachine_controller.go:163-260 | from an empty store and any disks: from a claim or a move until the host is released, deletions of machine and host and the reset included, at most one launch on it, of the tenant's script |
| Bootstrap.ProvisionedHostsRanTheirScript | internal/controller/hostmachine_controller.go:246-260 | a tenant's host is Provisioned only if the tenant's script ran on it, once, and exited 0 |
| Base64.RoundTrip | internal/cloudinit/cloudinit.go:273-286 | decoding by section 4 of RFC 4648 gives back every byte sequence |
| Base64.DecodesIffEncoded | internal/cloudinit/cloudinit.go:273-286 | a text decodes to some bytes if and only if it is their encoding |
| Base64.AlphabetIsStandard | internal/cloudinit/cloudinit.go:273-286 | the digits are A to Z, a to z, 0 to 9, plus and slash |
| Base64.ThreeAreOneNumber | internal/cloudinit/cloudinit.go:273-286 | three bytes and their four digits are one 24-bit number; two bytes and one byte likewise with zero bits and padding (TwoAreOneNumber, OneIsOneNumber) |
| CloudInit.WrapBase64 | internal/cloudinit/cloudinit.go:273-286 | the loop computes the wrapped encoding |
| CloudInitMeaning.PayloadLines | internal/cloudinit/cloudinit.go:273-286 | for every content, every payload line but the last is exactly 76 characters, the last not longer, none is the delimiter, and together they are the encoding |
| CloudInitMeaning.DocumentHoldsContent | internal/cloudinit/cloudinit.go:217-236 | the here-document's text decodes to the file's bytes |
| CloudInit.DirOf | internal/cloudinit/cloudinit.go:311-317 | everything before the last slash when that is not the first character, and "/" otherwise |
| CloudInit.RenderFile | internal/cloudinit/cloudinit.go:217-236 | the buffer holds the file's block |
| CloudInitMeaning.FileRoundTrip | internal/cloudinit/cloudinit.go:217-236 | for every content and every NUL-free path, owner and mode, a shell reads the block as install, base64 -d with the here-document and redirection, chown and chmod on exactly these words, and the document decodes to the content |
| CloudInit.RenderCommand | internal/cloudinit/cloudinit.go:290-309 | a string is rendered unchanged, a list of strings is quoted and joined, and it is an error exactly for anything else |
| CloudInitMeaning.ArgvRoundTrip | internal/cloudinit/cloudinit.go:288-321 | for every vector of NUL-free arguments the shell reads the rendered line as exactly that vector |
| ShellReading.ReadQuoted | internal/cloudinit/cloudinit.go:319-321 | a quoted argument is read as one word with exactly its characters |
| ShellReading.GuardKeepsEntry | internal/cloudinit/cloudinit.go:323-335 | an entry that reads by itself reads the same inside its guard, and the guard stays whole, comments and here-documents included |
| CloudInit.Render | internal/cloudinit/cloudinit.go:103-164 | the loops compute the script, and fail exactly on an entry that is no command |
| CloudInitScript.ScriptReads | internal/cloudinit/cloudinit.go:113-164 | the script is read as set -euo pipefail, the commands that write the files, and every entry in a guard of its own: a string as the shell reads that string, a list as its one command |
| CloudInitScript.TextHasMeaning | internal/cloudinit/cloudinit.go:288-309 | what is rendered for an entry is read as the entry |
| CloudInitScript.RunGuard | internal/cloudinit/cloudinit.go:323-335 | a guarded entry that fails, wherever in it, ends the script with its status |
| CloudInitScript.ScriptRuns | internal/cloudinit/cloudinit.go:113-164 | executed, the script writes the files and runs the entries in turn until the first failure |
| CloudInitScript.ScriptStopsAtFirstFailure | internal/cloudinit/cloudinit.go:144-164 | it exits with the status of the first part that fails or ends the shell and runs nothing after it, and otherwise runs everything and exits 0 |
| GuardLimits.UnguardedListGoesOn | internal/cloudinit/cloudinit.go:323-332 | under set -e alone a failure before the last command of an AND-OR list lets the script go on; the guard stops it with that status |
| GuardLimits.GuardHidesEarlierLines | internal/cloudinit/cloudinit.go:333-335 | in an entry of two lines the guard lets a failure of the first pass, where set -e alone would stop |
| GuardLimits.GuardHidesNothingIff | internal/cloudinit/cloudinit.go:323-335 | for AND-OR lists of commands and nested groups: whenever set -e alone would end the script the guarded entry ends it there too with the same status, for every behaviour of the commands, if and only if the entry is one line and so is any group that line ends in |
| CloudInitLimits.ReadableIffAllHoldCommands | internal/cloudinit/cloudinit.go:144-164 | for string and vector entries that a shell can read by themselves, it can read the script if and only if each of them holds a command |
| CloudInitLimits.BlankEntryHoldsNothing | internal/cloudinit/cloudinit.go:290-293 | blank strings and comments hold none |
| CloudInitLimits.ReadableIffNoEmptyVector | internal/cloudinit/cloudinit.go:295-305 | with entries given as vectors: if and only if no vector is empty |
| Kubeadm.Document.SetNested | internal/cloudinit/kubeadm.go:267-285 | the walking reference computes the nested write; a failure changes nothing |
| Kubeadm.Document.SetKubeletExtraArg | internal/cloudinit/kubeadm.go:125-151 | list, mapping, nothing or error, with the document unchanged on error |
| Kubeadm.UpsertArgList | internal/cloudinit/kubeadm.go:166-175 | the loop computes the upsert |
| Kubeadm.Document.SetAddress | internal/cloudinit/kubeadm.go:251-264 | init and control-plane join only |
| Kubeadm.Document.Apply | internal/cloudinit/kubeadm.go:96-106 | the flags in order, then the address |
| Kubeadm.PatchOne | internal/cloudinit/kubeadm.go:83-114 | exactly the documents of the kubeadm.k8s.io group of kind InitConfiguration or JoinConfiguration are patched |
| Kubeadm.PatchContent | internal/cloudinit/kubeadm.go:71-119 | every document of a file is patched or kept, and a file without a kubeadm configuration is unchanged |
| Kubeadm.PatchKubeadmConfigs | internal/cloudinit/kubeadm.go:44-67 | succeeds if and only if every file can be patched and some file holds a kubeadm configuration; then every file is its patch, plain YAML if it held one and untouched if not |
| KubeadmLaws.SetReadsBack | internal/cloudinit/kubeadm.go:267-285 | a nested write reads back at its path |
| KubeadmLaws.SetKeepsOthers | internal/cloudinit/kubeadm.go:267-285 | every path apart from it is as before |
| KubeadmLaws.SetFailsIffBlocked | internal/cloudinit/kubeadm.go:267-285 | it fails if and only if something on the way is there, not null and no mapping |
| KubeadmLaws.BlockedMeans | internal/cloudinit/kubeadm.go:277-280 | that condition in terms of what reading the document shows |
| KubeadmLaws.SetAgainIsNothing | internal/cloudinit/kubeadm.go:267-285 | writing what is there changes nothing |
| KubeadmLaws.UpsertReads | internal/cloudinit/kubeadm.go:166-175 | the first occurrence of the flag is replaced, or it is added once; every other flag reads as before |
| KubeadmLaws.UpsertKeepsOthers | internal/cloudinit/kubeadm.go:166-175 | entries of other names stay as they are and in order |
| KubeadmLaws.SetArgReads | internal/cloudinit/kubeadm.go:125-151 | in list or map form the flag reads back and other flags are unchanged |
| KubeadmLaws.SetArgKeepsOthers | internal/cloudinit/kubeadm.go:125-131 | every path apart from kubeletExtraArgs is as before, also when a nodeRegistration that is no mapping is replaced |
| KubeadmLaws.PatchedArgsHaveRightForm | internal/cloudinit/kubeadm.go:125-163 | a list stays a list and a mapping a mapping; where kubeletExtraArgs was absent or null it becomes a mapping for v1beta1 to v1beta3 and a list for every other version |
| KubeadmLaws.PatchSucceedsIff | internal/cloudinit/kubeadm.go:96-106 | the exact documents a patch succeeds on |
| KubeadmLaws.PatchedFlagsReadBack | internal/cloudinit/kubeadm.go:96-100 | after a successful patch each flag that occurred at most once holds its value exactly once, a repeated one has its first occurrence replaced, and no other flag changes |
| KubeadmLaws.PatchedAddressReadsBack | internal/cloudinit/kubeadm.go:251-264 | the address reads back at localAPIEndpoint.advertiseAddress for an init and below controlPlane for a control-plane join, and a worker join gets no controlPlane |
| KubeadmLaws.PatchKeepsOthers | internal/cloudinit/kubeadm.go:83-106 | every path apart from kubeletExtraArgs, if there are flags, and from the address, if there is one, is as before |
| KubeadmLaws.PatchForMeans | internal/cloudinit/cloudinit.go:123-134 | Render pins a provider ID and an address exactly when it knows them |
| KubeadmLaws.PatchTwiceIsPatchOnce | internal/cloudinit/kubeadm.go:83-106 | patching a patched document changes nothing |
| KubeadmLaws.MachineIsPinned | internal/cloudinit/cloudinit.go:123-134 | the patch Render builds pins provider ID, node address and the API server's address, once each, keeps every other flag and is idempotent |
| Inventory.NumbersAgreeWithValues | internal/inventory/order.go:68-83 | digit strings of any length and leading zeros compare as their decimal values, ties by text, zero only for identical strings |
| Inventory.CompareZero | internal/inventory/order.go:29-54 | names compare equal only if identical |
| Inventory.CompareAntisymmetric | internal/inventory/order.go:29-54 | swapping the names negates the comparison |
| Inventory.CompareTransitive | internal/inventory/order.go:29-54 | transitive across mixed digit and text chunks |
| Inventory.ChunksTransitive | internal/inventory/order.go:29-54 | the chunk comparison is transitive although it mixes two orders |
| Inventory.Chunk | internal/inventory/order.go:58-66 | the longest leading run of digits or of non-digits, and the rest |
| Inventory.CompareMeans | internal/inventory/order.go:29-54 | the order in terms of chunks: a name that ran out comes first; else the first chunks that differ decide, two numbers by value and then text, anything else by the smaller character at the first difference or by running out |
| Inventory.CompareNames | internal/inventory/order.go:29-54 | the loop computes that comparison, and zero only for equal names |
| Inventory.SortHosts | internal/inventory/order.go:20-27 | sorts the array in place into the stable order |
| Inventory.SortHostsCorrect | internal/inventory/order.go:20-27 | the result is ordered, a permutation, and stable |
| Inventory.SortHostsIsCanonical | internal/inventory/order.go:20-27 | every arrangement of distinctly named hosts sorts to one and the same sequence |
| Registry.Store.Put | internal/registry/registry.go:142-173 | wherever it is cut or fails, the record file is the old one or the record, stamped with version and time; an invalid record is refused |
| Registry.AcceptedIff | internal/registry/registry.go:47-71 | exactly which records are accepted |
| Registry.Store.Forget | internal/registry/registry.go:176-182 | removes exactly one identity's file |
| Registry.Store.List | internal/registry/registry.go:109-140 | succeeds if and only if every record file is acceptable; then every record once, strictly ordered by namespace and name |
| Registry.PutRefines | internal/registry/registry.go:142-173 | a Put happens to the map entirely or not at all and touches no other identity |
| Registry.StoreRefinesMap | internal/registry/registry.go:80-182 | over every sequence of operations, each cut anywhere, the directory is a map from identities to valid records |
| Registry.EveryRecordIsValid | internal/registry/registry.go:80-107 | from an empty directory Get never meets an unreadable record, and what it finds is valid and names the identity asked for |
| Genesis.Cli.RunEject | internal/cli/pivot.go:64-191 | wherever the command dies, what it did is a beginning of its writes in their order, as many as it was given unless others kept it from pausing the cluster or it was paused already; nothing at all for a cluster let go, missing or not ready, without a node, or on a dry run |
| Genesis.Cli.HandOver | internal/cli/pivot.go:121-150 | the namespace moves away or the cluster is paused, or nothing happens |
| Genesis.Cli.PauseCluster | internal/cli/pivot.go:279-301 | pauses within five conflicting attempts, or leaves the cluster as it was |
| Genesis.Cli.ClustersRemaining | internal/cli/pivot.go:437-457 | exactly the unpaused clusters outside the ejected namespace |
| Genesis.Cli.RunDiscover | internal/cli/clusters.go:78-107 | records exactly the unknown clusters, as managed, and stops at the first write that fails |
| Genesis.Cli.SelectRecord | internal/cli/registry.go:90-108 | finds a record if and only if exactly one matches by name or in full |
| GenesisTheorems.LetGoStaysLetGo | internal/cli/registry.go:51-74 | over every sequence of commands, each cut anywhere, a record that says released or self-managed says so until it is forgotten |
| GenesisTheorems.ManagedMeansManaged | internal/cli/pivot.go:64-191 | over every sequence of creates, ejections, deletions and discoveries with one cluster per namespace, none cut between handing over and recording, a cluster recorded as managed is unpaused on a genesis node that exists, and a paused one is recorded as let go |
| GenesisTheorems.GenesisGoesLast | internal/cli/pivot.go:160-189 | when the genesis node goes, no record says managed |
| GenesisTheorems.NodeGoesIff | internal/cli/pivot.go:160-189 | a full release deletes the genesis node if and only if it is not kept and every cluster of every other namespace is paused |
| GenesisTheorems.EjectsIff | internal/cli/pivot.go:64-104 | exactly when an ejection does something |
| GenesisTheorems.CreateDoes | internal/cli/cluster.go:81-97 | a full create leaves the cluster on the node, as paused as it was, and recorded as managed |
| GenesisTheorems.DeleteDoes | internal/cli/cluster.go:377-407 | a full delete takes cluster and record away |
| GenesisTheorems.DiscoverDoes | internal/cli/clusters.go:78-107 | a full discovery records exactly the unknown clusters as managed |
| GenesisTheorems.LetGoIsRefused | internal/cli/registry.go:64-74 | create, delete and eject do nothing to a cluster that was let go |
| GenesisTheorems.EjectionStrandsIff | internal/cli/pivot.go:437-457 | a full ejection strands another managed cluster if and only if that one shares the namespace and the namespace is moved away, or the node is not kept and nothing outside the namespace is unpaused |
| GenesisTheorems.NeighbourIsStranded | internal/cli/pivot.go:160-189 | from nothing, two clusters built in one namespace and one released: the node is gone and the other is recorded as managed |
| GenesisTheorems.CreateLiesIff | internal/cli/cluster.go:81-97 | an accepted create records a cluster nothing acts on if and only if it was on the genesis node, paused |
| GenesisTheorems.ForgetThenCreateLies | internal/cli/registry.go:111-136 | forgetting a released cluster and creating or discovering it again does that |
| GenesisTheorems.ForgottenReleaseLies | internal/cli/registry.go:111-136 | from nothing, a cluster built, released with the node kept, forgotten and created again is recorded as managed and nothing acts on it |
| GenesisTheorems.CutEjectionLiesIff | internal/cli/pivot.go:121-158 | a cut ejection leaves a managed record of a cluster nothing acts on if and only if it was cut between handing over and recording |
| GenesisTheorems.RepeatMendsIff | internal/cli/pivot.go:64-191 | for every ejection and every cut, repeating it ends where a full one would have if and only if it was not cut after an unrecorded move, nor after the record with a genesis node still to be deleted |
| GenesisTheorems.UnrecordedMoveIsStuck | internal/cli/pivot.go:152-158 | from nothing, a self-managed ejection whose record was not written: recorded as managed, not on the node, and every later ejection refused |
| GenesisTheorems.IdleNodeStays | internal/cli/pivot.go:156-189 | from nothing, a release cut after its record: the node stays and every later ejection is refused |
| GenesisOnDisk.RecordForIsValid | internal/cli/registry.go:29-49 | the record names the genesis kubeconfig, the cluster's own or none by its mode, and Put accepts it exactly for a cluster with name and namespace |
| GenesisOnDisk.AttemptFollows | internal/cli/registry.go:51-60 | a record write cut inside Put leaves what the files say as it was; one that succeeds is the model's write |
| GenesisOnDisk.FilesFollowModel | internal/registry/registry.go:80-182 | every sequence of commands over the registry's files is a run of the command model, each command cut somewhere |
| GenesisOnDisk.LetGoSurvivesOnDisk | internal/cli/registry.go:51-74 | on disk, a record that says released or self-managed is found, valid and saying so until it is forgotten, wherever commands and their writes are cut |

## Left out

- Stale caches: with a List older than the last write, "one label per machine" does not hold.
- That hosts never leak: a machine deleted with a lost hostRef skips the release, and its host stays claimed.
- ClusterNameLabel, conditions, ObservedPublicKey, SystemInfo, addresses and provider IDs on the objects: field copying. The selector sees the labels other than the claim's.
- More than one namespace of hosts: machines and hosts of different namespaces never meet in the source.
- Two Hosts with one address: a host name stands for one machine in `Bootstrap`.
- Progress of a bootstrap: a cut between the checksum and the launch reads as Running forever.
- A runner still going when a Start for other data begins: it would write into the same exit-code file, so the outcome theorems start with every earlier run ended.
- Provisioner.LaunchedAtMostOnce: Reset is not one of its events; `Bootstrap.Reset` clears any part of the state directory and is shown never to reach a tenant's host.
- Bootstrapper.Connection.Start: its precondition is that Status said Idle, as runBootstrap has it; the source checks this in the caller only.
- The texts of the reset script, the probe script and the log tail; SSH, dialing, timeouts and host keys.
- Render: the cloud-config is parsed and its files are decoded and patched before it; checkUnsupported, the encodings and gzip are libraries or field checks.
- Option parsing of install, chown and chmod: the model stops at the words they are given, so a path that starts with a dash is not told from an option.
- Shell text outside the modelled part (expansions, pipelines, `;` and `&` lists, compound commands other than groups, assignments): the reader refuses it rather than reading it, so string entries that use it are not covered by CloudInitScript.ScriptReads. In `a; b` on one line a failure of `a` would be lost as between two lines.
- GuardLimits.GuardHidesNothingIff: lines with `exit $?` of their own are not covered, since they can end the shell with an earlier status.
- Commands that change the shell's own settings (set, trap) inside an entry; a command may return a status or end the shell.
- YAML: documents start as parsed trees and end as trees; splitYAML, joinYAML and the re-encoding are not modelled.
- Kubeadm.Document: references into the tree are paths from its root; two references to one mapping do not occur in a parsed document.
- SHA-256: Checksum is any function whose result is not empty, and Key any function without collisions.
- The endpoint of a record and the time it was written; `GenesisOnDisk` takes them as given.
- Registry.Store.Put: the JSON of a record is the record itself, and a file written in part is any text.
- sort.Slice is modelled by the same stable sort as SortHosts; with distinct identities the result is the same.
- A cluster whose deletion has been asked for and is not finished; `Genesis.Remove` is the object's end.
- Self-managed handovers that fail after the objects have moved: clusterctl decides what is left.
- Config loading and validation, object rendering, kube-vip manifests, CLI output and prompts, kind and Docker.
