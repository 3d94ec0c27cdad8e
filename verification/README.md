# Zun compute node: verified model

This project models four parts of Zun, the OpenStack container service, and proves properties of
every input, every run and every interleaving of them:

- **The provider forest** (`ProviderForest`, `ProviderForestProofs`, `ProviderSteps`,
  `ProviderPopulate`, `ProviderOutcome`, `ProviderOrder`, `ProviderSchedule`, `ProviderListing`,
  `ProviderTree`, `ProviderSubtree`): the tree of resource providers that the
  report client keeps, with recursive lookup, subtree removal and the bulk "add or replace" routine.
- **PCI devices** (`PciStates`, `PciProofs`, `PciLists`, `PciCounterexamples`, `PciDevice`): the
  seven-status life cycle of SR-IOV physical functions (PF) and virtual functions (VF).
- **Resource accounting and CPU pinning** (`Claims`, `Tracking`, `TrackingProofs`, `TrackingPins`,
  `TrackingAnswers`, `TrackingAudit`, `TrackingRuns`, `TrackingCounterexamples`,
  `ComputeNodeTracker`): claims, updates, aborts, releases and the audit on one compute node.
- **Protocols around shared things** (`KuryrNetwork`, `VolumeTable`, `VolumeManager`, `CniNetwork`):
  concurrent creation of a Docker network, volume mappings as a reference count, and the CNI
  ADD/DEL life cycle.

`dafny verify dfyconfig.toml` checks everything.

## How the model is built

Operations that change state are methods of a class; each is proved equal to a function on values,
and the whole-run properties are proved about those functions. Lookups and traversals are functions,
as they are read-only recursions in the original.

- A forest is an ordered dictionary of providers, each owning another such dictionary. Its meaning is
  `Table`: UUID to provider record. `WellFormed` says that UUIDs are unique, keys are UUIDs and
  recorded parents are actual parents, so the table determines the forest up to sibling order
  (`ParentIsPosition`).
- Which ready provider the bulk routine picks, which CPUs a claim samples, which id Docker assigns,
  what a volume driver call answers and how often a wait polls are all nondeterministic; the calls of
  the volume driver are recorded with their answers, and outcomes are stated in terms of them. The
  original picks the first ready entry, so an order of picks is what the input listed in that order
  gives.
- The database is a faithful store, and a synchronized method is one atomic step. Only network
  creation interleaves.
- Identifiers are non-empty strings, so tests for a missing identifier and for a falsy one agree. No
  provider is named like another provider's UUID (`NamesApart`), and a generated UUID is fresh.
- CPU amounts are integers in thousandths, memory and disk are integers, and limits are integers:
  an integer request fits under a fractional limit exactly when it fits under its integer part.
- The NUMA node id of a claim is one number. The original wraps it as a set (`zun/compute/claims.py`
  line 118) and reads it as a number (`zun/compute/compute_node_tracker.py` line 482).
- The last step of `free` removes the list entry with the device's id, which is what
  `zun/objects/pci_device.py` lines 363-366 mean; they mix list and `.objects` access.

## What the proofs found

- `populate_from_iterable` calls its last error one that "should never happen"
  (`zun/compute/provider_tree.py` lines 328-331). It is raised only if the input's parent relation
  has a cycle; for an input that names all descendants and has no unknown parent it is raised exactly
  then. For other inputs the look-up of a parent that an earlier round removed can fail first.
- The docstring both demands that all descendants be named and describes what happens when they are
  not (lines 276-284). Every success, in every pick order, leaves one and the same table: the
  providers without a named ancestor, unchanged, and the input entries that hang on a root or on such
  a provider (`EndIsOutcome`). It is the old table overridden by the input exactly when all
  descendants are named. Only whether the call succeeds can depend on the pick order
  (`ClosureIsNeeded`): for an input without unknown parents every order succeeds exactly when every
  entry hangs on a root or on a provider without a named ancestor (`CanFailIff`), and some order
  succeeds exactly when no entries wait for each other in a circle (`CanSucceedIff`).
- A round of that routine that raises has already removed its entry: the entry is lost
  (`FailureLosesEntry`).
- With a VF removed, freeing the last VF in use leaves its PF blocked (`FreeFreesParentIff`), for ever
  (`BlockedForGood`), and a claim followed by a free does not restore the PF (`ClaimThenFree` gives
  the exact condition, `RemovalBlocksParent` a run; without removals it never happens,
  `ClaimThenFreeInRun`).
- Aborting a dedicated claim restores the counters and the tracked containers in every state but
  leaves its CPUs pinned, because the clone was taken before the CPUs were chosen
  (`AbortRestoresNumaIff`; `AbortLeaksCpu` is a host that cannot place the same container again). It
  makes no later step raise (`ChargeKeepsCovered`, `ReleaseKeepsCovered`), and the next audit repairs
  it (`RunThenAudit`).
- A dedicated update claim samples CPUs for the increase only and replaces the recorded set
  (`DedicatedUpdatePinsIncrease`; in `UpdateLosesCpus` 2 CPUs become 1 when 3 are asked for, and none
  when 1.5 are).
- An update that takes a whole CPU or more from a dedicated container always raises, since it draws a
  sample of negative size (`MakeClaimAnswer`; one that takes less than a CPU is granted and leaves
  none).
- The abort of an update undoes it in the books exactly for a shared container or one without
  recorded CPUs (`AbortOfUpdateIff`). For a dedicated container with recorded CPUs it raises and leaves the
  container tracked but not counted, until the next audit (`AbortOfDedicatedUpdateRaises`,
  `AuditRepairsAbort`). For one without it raises nothing, but the CPUs of an increase by one or more
  stay pinned (`AbortOfUpdateLeaks` is a run from 0.5 to 2.5 CPUs and back).
- A dedicated claim on an outdated snapshot can raise while pinning; the container is then tracked
  and charged, and nothing is pinned (`DedicatedClaimRaisesIff`).
- A release of an allocated PCI device that names no container leaves its list entry behind, for each
  such release one (`ListCounts`).
- Aborting an update can exceed the limits exactly when the update shrank a limited resource, since
  another container may have claimed the difference (`AbortStaysWithinIff`; `AbortExceedsLimit` is
  such a run).
- Releasing an untracked container charges it (`ReleaseLowersIffTracked`).
- An error of the volume driver during the wait for deletion escapes without failing the container:
  `is_volume_deleted` (`zun/volume/driver.py` lines 217-229) catches a missing volume only.
- A start notification without a process id, while one is recorded, breaks the alternation of CNI
  ADD and DEL, and nothing else does (`AlternatesIff`).

## Model

| member | source | states |
|---|---|---|
| ProviderForestProofs.FindWithLockIff | zun/compute/provider_tree.py:99-113 | lookup succeeds exactly when some provider of the forest has that name or UUID, and returns such a provider; no assumption on names |
| ProviderForestProofs.FindWithLockIsFirst | zun/compute/provider_tree.py:400-405 | the recursive search with its short cut through child keys returns the first match in top-down order |
| ProviderForestProofs.ParentIsPosition | zun/compute/provider_tree.py:115-120 | a recorded parent is the provider in whose children dictionary the entry sits; roots, and only roots, record none |
| ProviderForestProofs.UuidsOnce | zun/compute/provider_tree.py:90-97 | the traversal lists every UUID of the forest, each once |
| ProviderForestProofs.UuidsTopDown | zun/compute/provider_tree.py:90-97 | in the traversal every parent comes before its children |
| ProviderSubtree.SubtreeIffClimbs | zun/compute/provider_tree.py:363-372 | the subtree of a provider is the set of providers from which it is reached along recorded parents |
| ProviderSteps.RemoveFromLaw | zun/compute/provider_tree.py:355-361 | removal succeeds exactly for a known name or UUID, deletes exactly that subtree, keeps every other record and all forest invariants |
| ProviderSteps.AttachLaw | zun/compute/provider_tree.py:345-350 | a new provider is attached exactly when its parent is present, and then only its own record is added |
| ProviderPopulate.LastEntryCounts | zun/compute/provider_tree.py:291-293 | of input entries with the same UUID the last one counts |
| ProviderPopulate.MissingIff | zun/compute/provider_tree.py:296-308 | the orphan error names exactly the stated parents that are neither in the forest nor in the input |
| ProviderPopulate.RoundKeepsProgress | zun/compute/provider_tree.py:317-353 | for a closed input one round always succeeds, whatever was picked: no finished or untouched provider lies under one still to be replaced, so none is deleted |
| ProviderPopulate.StuckHasCycle | zun/compute/provider_tree.py:327-335 | if no remaining entry can be picked, the input's parent relation has a cycle |
| ProviderPopulate.CycleStaysLeft | zun/compute/provider_tree.py:319-326 | no member of a cycle is ever picked |
| ProviderOutcome.RoundKeepsStrays | zun/compute/provider_tree.py:317-353 | one round, in any order and for any input, keeps: a provider outside the input has its old record, and a parent of it that the input names is still to be placed; finished entries have their input record; survivors and finished grounded entries are there. A round for a grounded entry succeeds |
| ProviderOutcome.RemainingSurvive | zun/compute/provider_tree.py:276-279 | a provider outside the input that is left at the end has no named ancestor |
| ProviderOutcome.EndIsOutcome | zun/compute/provider_tree.py:270-353 | after the last round the table is a function of the old forest and the input alone: survivors and grounded entries |
| ProviderOutcome.OverrideNeedsClosed | zun/compute/provider_tree.py:276-284 | that table is the old one overridden by the input only if the input names all descendants |
| ProviderOutcome.CycleIsNotAllGrounded | zun/compute/provider_tree.py:328-331 | an input with a cycle has an entry that hangs on nothing |
| ProviderOrder.CanFailIff | zun/compute/provider_tree.py:317-353 | for every input without unknown parents: some order of picks ends in an error if and only if some entry hangs neither on a root nor on a provider without named ancestors |
| ProviderOrder.LateRaises | zun/compute/provider_tree.py:342-350 | an entry that hangs on one whose parent, outside the input, lies below a named provider raises once that provider is placed, or if it is that provider |
| ProviderOrder.ClosureIsNeeded | zun/compute/provider_tree.py:276-284 | an input that does not name all descendants, for which one pick order fails and the other succeeds and loses an input provider |
| ProviderSchedule.CanSucceedIff | zun/compute/provider_tree.py:317-353 | for every input without unknown parents: some order of picks succeeds if and only if no entries wait in a circle, each for its stated parent or for all that hangs below what its round deletes |
| ProviderSchedule.Deleted | zun/compute/provider_tree.py:355-361 | between any two rounds, what the next replacement deletes: unplaced providers below it in the old forest, and placed entries that hang below one of these |
| ProviderOutcome.FailedRound | zun/compute/provider_tree.py:337-350 | what a round leaves that raises: neither the entry nor its stated parent, all survivors and placed grounded entries, and only old or stated records |
| ProviderOrder.FailureLosesEntry | zun/compute/provider_tree.py:337-350 | an input for which the failing round removes a root that the error leaves lost |
| ProviderListing.UuidsFollowPreorder | zun/compute/provider_tree.py:90-97 | the list names the providers in the order of the traversal |
| ProviderListing.PutComesLast | zun/compute/provider_tree.py:115-116 | a new provider comes last among its siblings |
| ProviderListing.PutChildIsLast | zun/compute/provider_tree.py:430-456 | in the list a new child comes right after the block of its parent, and nothing else moves |
| ProviderListing.RemoveChildTakesBlock | zun/compute/provider_tree.py:363-372 | a removal takes one block out of the list, and nothing else moves |
| ProviderTree.ProviderTree.constructor | zun/compute/provider_tree.py:233-236 | the empty tree satisfies the invariant |
| ProviderTree.ProviderTree.GetProviderUuids | zun/compute/provider_tree.py:238-256 | the whole top-down list, or that of the subtree of a provider so named; fails exactly when there is none |
| ProviderTree.ProviderTree.GetProviderUuidsInTree | zun/compute/provider_tree.py:258-268 | the list of the one root tree that contains the provider |
| ProviderTree.TreeOfFound | zun/compute/provider_tree.py:400-405 | the root returned with a match is a root, contains the match, and no other root's tree does |
| ProviderTree.ProviderTree.Remove | zun/compute/provider_tree.py:363-372 | deletes exactly the subtree of a provider so named, and nothing when refused; the list loses its block only; keeps the invariant |
| ProviderTree.ProviderTree.NewRoot | zun/compute/provider_tree.py:374-398 | refused, without change, exactly when the UUID is known; otherwise adds exactly that root, listed last; keeps the invariant |
| ProviderTree.ProviderTree.NewChild | zun/compute/provider_tree.py:430-456 | refused, without change, exactly when the UUID (or name) is known or the parent is not; otherwise adds exactly that child, listed last under the parent; keeps the invariant |
| ProviderTree.ProviderTree.FindMissingParents | zun/compute/provider_tree.py:296-308 | the parents that are neither in the forest nor in the input; the set holds exactly these; empty exactly when there is no orphan |
| ProviderTree.ProviderTree.PopulateFromIterable | zun/compute/provider_tree.py:270-353 | terminates; orphan error exactly for an unknown parent, without change; success rules out a cycle and the last error needs one and names exactly the unplaced entries, none of which may be picked; every success, also for an input that is not closed, leaves exactly the providers without a named ancestor and the entries grounded on a root or on such a provider, and this is the old table overridden by the input if and only if the input is closed; no outcome touches a provider without named ancestors; without orphans, an error means that an entry is not grounded and some order fails, a success that no entries wait in a circle and some order succeeds; when the look-up of a parent fails, the entry in turn is removed and every record left is an old or a stated one; for a closed input there is no further outcome, every entry has the stated name, generation and parent and no inventory, traits or aggregates, and a failure has finished everything outside the reported entries |
| PciProofs.StepKeepsConsistent | zun/objects/pci_device.py:214-367 | every operation keeps: PF and VF never both in use, claimed PF has all VFs UNCLAIMABLE, allocated PF all UNAVAILABLE, allocated VF has its PF UNAVAILABLE, owner set exactly on devices in use, blocked PFs have a reason |
| PciProofs.FreshIsConsistent | zun/objects/pci_device.py:181-192 | a tree of newly discovered, available devices is consistent |
| PciProofs.RunIsConsistent | zun/objects/pci_device.py:209-367 | the same over every run of claim, allocate, free and remove |
| PciProofs.BlockedIffChildBusy | zun/objects/pci_device.py:240-253 | in every run without removals from an all-available tree, a PF is UNCLAIMABLE or UNAVAILABLE exactly while one of its VFs is claimed or allocated |
| PciProofs.FreeFreesParentIff | zun/objects/pci_device.py:344-357 | freeing a VF frees its PF exactly when no other VF is in use and none was removed |
| PciProofs.RemovedStaysRemoved | zun/objects/pci_device.py:314-343 | over every run a removed device stays removed; no later free turns it back |
| PciProofs.BlockedForGood | zun/objects/pci_device.py:344-357 | over every run, a PF that is blocked while one of its VFs is removed stays blocked |
| PciProofs.OwnerKept | zun/objects/pci_device.py:276-281 | a device in use keeps its owner until it is freed by that owner or by a caller that names none |
| PciProofs.ClaimAnswer | zun/objects/pci_device.py:214-261 | in every consistent tree: a claim is done exactly for an available device without a removed relative, and each refusal is given exactly in its case; the device is owned, its VFs UNCLAIMABLE, its PF blocked |
| PciProofs.AllocateAnswer | zun/objects/pci_device.py:263-312 | an allocation is done exactly for an available device without a removed relative or one that the same container claimed; the four refusals with their cases; device ALLOCATED, relatives UNAVAILABLE, the list one longer |
| PciProofs.RemoveAnswer | zun/objects/pci_device.py:314-322 | a removal is done exactly for an available device, which loses owner and request |
| PciLists.FreeAnswer | zun/objects/pci_device.py:324-367 | a release is done exactly for a device in use named by its container or by nobody, with the two refusals in their cases; device and VFs are AVAILABLE again and the list of the container has one entry of it less |
| PciProofs.FreedIsExact | zun/objects/pci_device.py:324-367 | the list returned by free is exactly the set of devices that became AVAILABLE, without repeats |
| PciProofs.ClaimThenFree | zun/objects/pci_device.py:214-367 | claim then free restores all statuses, if and only if the device is not a VF of an available PF with an unavailable other VF |
| PciProofs.ClaimThenFreeInRun | zun/objects/pci_device.py:214-367 | over every run without removals from an all-available tree, claim then free restores every status |
| PciCounterexamples.RemovalBlocksParent | zun/objects/pci_device.py:344-357 | a run from an all-available tree (remove one VF, claim and free the other) that leaves the PF UNCLAIMABLE with nothing in use |
| PciLists.FreeFindsItsEntry | zun/objects/pci_device.py:363-366 | over every run, freeing an allocated device for its container finds the list entry to remove |
| PciLists.ListsMirrorAllocations | zun/objects/pci_device.py:309-312 | over every run, each container's list holds exactly the devices allocated to it, each once, if and only if no release of an allocated device left out the container |
| PciLists.ListCounts | zun/objects/pci_device.py:363-366 | over every run a list holds a device once while allocated to its container, plus once for every earlier release that did not name the container |
| PciLists.WithoutFirstAt | zun/objects/pci_device.py:363-366 | the first entry of the device is the one taken out of the list |
| PciDevice.PciTree.BulkUpdateStatus | zun/objects/pci_device.py:209-212 | sets the status of exactly the listed devices |
| PciDevice.PciTree.Claim | zun/objects/pci_device.py:214-261 | does to device, parent and children what the value model says, with the same refusals; a refusal changes nothing |
| PciDevice.PciTree.Allocate | zun/objects/pci_device.py:263-312 | same, and appends to the container's list |
| PciDevice.PciTree.Remove | zun/objects/pci_device.py:314-322 | same |
| PciDevice.PciTree.Free | zun/objects/pci_device.py:324-367 | same, with the returned list of freed devices and the missing-entry error |
| Claims.Sample | zun/compute/claims.py:111-115 | any choice of k distinct available CPUs |
| Claims.EnoughToSample | zun/compute/claims.py:182-193 | an admitted CPU request never exceeds the CPUs that can be sampled |
| Claims.TruncLaw | zun/compute/claims.py:111-115 | the number of CPUs to sample is the amount without its fraction, toward zero |
| Claims.GetCpusetLimits | zun/compute/manager.py:1183-1195 | a snapshot of the first node with enough unpinned CPUs and available memory; fails exactly when every node has too little of either |
| Claims.FirstFitIsAdmitted | zun/compute/claims.py:195-206 | the chosen node passes both cpuset tests of the claim |
| Claims.PinAnswer | zun/objects/numa.py:43-51 | pinning fails exactly for an unknown CPU or, with all known, for one pinned already; otherwise exactly these CPUs are pinned in addition |
| Claims.UnpinAnswer | zun/objects/numa.py:53-60 | unpinning fails exactly for an unknown CPU or, with all known, for one that is not pinned; otherwise exactly these CPUs are unpinned |
| TrackingAnswers.TestAnswer | zun/compute/claims.py:120-240 | the reasons of a refusal are exactly the resources of which less is left, under the limits, than requested |
| TrackingAnswers.MakeClaimAnswer | zun/compute/claims.py:76-118 | every answer with its exact condition in amounts and limits: granted, bad NUMA index, unavailable, no cpuset limits for a dedicated container, and no sample exactly for a decrease by a whole CPU or more |
| TrackingAnswers.ContainerClaimAnswer | zun/compute/compute_node_tracker.py:135-173 | no claim exactly for no memory, CPU, disk and PCI request; otherwise granted exactly when the limits allow the amounts |
| TrackingAnswers.SharedClaimIsTracked | zun/compute/compute_node_tracker.py:135-173 | a shared container whose amounts the limits allow is tracked as it is and counted, and nothing raises |
| TrackingAnswers.UpdateClaimAnswer | zun/compute/compute_node_tracker.py:175-209 | no claim exactly for unchanged CPU and memory; otherwise granted exactly when the limits allow the increase of both and the whole disk |
| TrackingAnswers.SharedUpdateIsTracked | zun/compute/compute_node_tracker.py:175-209 | an allowed update of a shared container moves the counters by the difference, and nothing raises |
| TrackingProofs.UpdateNumaLaw | zun/compute/compute_node_tracker.py:305-315 | a usage update changes only the node with the container's node id, and raises exactly what pinning or unpinning there raises |
| TrackingProofs.ChargeBalanced | zun/compute/compute_node_tracker.py:227-250 | tracking a new container keeps the counters equal to the sum over the tracked containers |
| TrackingProofs.ReleaseBalanced | zun/compute/compute_node_tracker.py:227-250 | so does a release with the recorded usage |
| TrackingProofs.UpdateBalanced | zun/compute/compute_node_tracker.py:252-260 | so does an update from the recorded usage |
| TrackingPins.ChargeKeepsPins | zun/objects/numa.py:43-51 | charging free CPUs raises nothing and keeps: pinned CPUs are the disjoint union of the tracked cpusets, within the node, and available memory plus pinned memory is constant |
| TrackingPins.ReleaseKeepsPins | zun/objects/numa.py:53-60 | releasing a recorded container raises nothing and keeps the same |
| TrackingPins.UpdateKeepsPins | zun/compute/compute_node_tracker.py:252-260 | so does an update of a recorded container to CPUs that are free once its own are unpinned |
| TrackingPins.ChargeKeepsCovered | zun/objects/numa.py:43-51 | also with CPUs of aborted claims still pinned, charging free CPUs raises nothing and keeps: tracked cpusets are disjoint and pinned, pinned CPUs are of the node |
| TrackingPins.ReleaseKeepsCovered | zun/objects/numa.py:53-60 | releasing a recorded container raises nothing and keeps the same |
| TrackingPins.AbortKeepsCovered | zun/compute/compute_node_tracker.py:486-491 | the abort of any claim raises nothing, leaves the NUMA nodes and keeps the same |
| TrackingPins.AbortKeepsPinsIff | zun/compute/compute_node_tracker.py:486-491 | an abort keeps pinned CPUs and tracked cpusets equal exactly when the tracked container holds no CPUs |
| TrackingPins.AbortUpdateKeepsCovered | zun/compute/compute_node_tracker.py:493-498 | the abort of an update whose clones carry no CPUs raises nothing, leaves the NUMA nodes and keeps the tracked cpusets disjoint and pinned |
| TrackingPins.AbortUpdateKeepsPinsIff | zun/compute/compute_node_tracker.py:493-498 | the abort of an update whose clones carry no CPUs keeps pinned CPUs and tracked cpusets equal exactly when the tracked container holds no CPUs |
| TrackingRuns.DedicatedClaimSucceeds | zun/compute/claims.py:88-118 | on any host with distinct NUMA ids and with a current snapshot, a dedicated claim that passes the test gets exactly int(cpu) free CPUs, is tracked with them, and pinning them never raises |
| TrackingRuns.DedicatedClaimRaisesIff | zun/compute/claims.py:111-118 | on any snapshot an admitted dedicated claim raises exactly when the limits name a node of the host where the chosen CPUs are not all free; the container is tracked and charged all the same, and then nothing is pinned |
| TrackingRuns.RunKeepsBooks | zun/compute/compute_node_tracker.py:135-315 | over every run of claims, updates and their aborts (except of dedicated updates with recorded CPUs, which raise), releases and audits: counters are sums over the tracked containers, whose cpusets are disjoint and pinned |
| TrackingRuns.RunKeepsPins | zun/compute/compute_node_tracker.py:135-315 | over every stretch of a run without an abort of a claim or update that pinned CPUs, nothing else is pinned and the memory of every NUMA node is accounted for |
| TrackingRuns.EmptyBooks | zun/compute/compute_node_tracker.py:269-277 | a host without containers and pins starts with such books |
| TrackingRuns.RunThenAudit | zun/compute/compute_node_tracker.py:227-282 | at every point of every such run the audit raises nothing, finds the tracked containers and counters that the steps kept, and repairs leaked pins |
| TrackingRuns.RunStaysWithin | zun/compute/claims.py:216-274 | with fixed limits, no run of claims, their aborts, update claims, aborts of updates that did not shrink, tracked releases and audits ever exceeds them |
| TrackingRuns.AbortStaysWithinIff | zun/compute/compute_node_tracker.py:493-498 | the abort of an update respects the limits on every host that does, if and only if the update shrank no limited resource |
| TrackingCounterexamples.AbortExceedsLimit | zun/compute/compute_node_tracker.py:493-498 | a run whose tested steps stay within a memory limit of 10 and whose abort of a shrinking update ends at 16 |
| TrackingRuns.ReleaseLowersIffTracked | zun/compute/compute_node_tracker.py:232-250 | a release takes the container's usage off the counters exactly when it is tracked |
| TrackingRuns.AbortRestoresBooks | zun/compute/claims.py:106-109 | in every state the abort of a claim restores tracked containers and counters |
| TrackingRuns.AbortRestoresNumaIff | zun/compute/claims.py:76-109 | it restores the NUMA nodes if and only if the container is shared, asks for less than one CPU, or the limits name no node of the host |
| TrackingCounterexamples.AbortLeaksCpu | zun/compute/claims.py:106-118 | a host whose only CPU stays pinned after an aborted claim, with nothing tracked and no room for the same container |
| TrackingRuns.AbortUndoesUpdate | zun/compute/compute_node_tracker.py:493-498 | in every state the abort of an update whose clones carry no CPUs, shared or dedicated, raises nothing, restores tracked containers and counters and leaves the NUMA nodes as the update made them |
| TrackingRuns.AbortOfUpdateIff | zun/compute/compute_node_tracker.py:493-498 | for every recorded container on a current snapshot: the abort of its update raises nothing and restores the counters if and only if it is shared or held no CPUs; it restores the NUMA nodes if and only if, besides, a dedicated increase is less than one CPU |
| TrackingCounterexamples.AbortOfUpdateLeaks | zun/compute/compute_node_tracker.py:493-498 | a run from an empty host: half a CPU is claimed, updated to 2.5 and aborted; two CPUs stay pinned that no container holds |
| TrackingRuns.DedicatedUpdatePinsIncrease | zun/compute/claims.py:270-274 | a dedicated update ends with CPUs for the increase only, replacing the recorded ones; their number is right exactly when the old amount fits into the fraction of the new one, or, for a decrease, when less than one CPU is asked for |
| TrackingCounterexamples.UpdateLosesCpus | zun/compute/claims.py:111-115 | from an empty host: a claim of 2 CPUs, then an update to 3 leaves one CPU and an update to 1.5 none |
| TrackingRuns.AbortOfDedicatedUpdateRaises | zun/compute/compute_node_tracker.py:493-498 | the abort of a dedicated update with recorded CPUs always raises CPUUnpinningInvalid, with the old container tracked but not counted and its CPUs unpinned |
| TrackingRuns.AuditRepairsAbort | zun/compute/compute_node_tracker.py:262-282 | the next audit restores tracked containers, counters and pins of before that update |
| TrackingAudit.AuditAgrees | zun/compute/compute_node_tracker.py:262-282 | for every state whose tracked cpusets are disjoint and on the host, recounting from zero over any list of the tracked containers, in any order and with repeats, raises nothing, gives back the tracked containers, counts them and pins exactly their CPUs; the counters and NUMA nodes are those of before wherever these were right |
| TrackingAudit.RecountCounts | zun/compute/compute_node_tracker.py:262-282 | counting from zero over any list, an error aside: exactly its containers are tracked and counted, and the free memory is what they leave |
| TrackingAudit.RecountTakesFirst | zun/compute/compute_node_tracker.py:232-243 | of several records of one container in the list the first one counts |
| ComputeNodeTracker.ComputeNodeTracker.UpdateNumaNodes | zun/compute/compute_node_tracker.py:305-315 | the loop over NUMA nodes, with the partial change left by an error |
| ComputeNodeTracker.ComputeNodeTracker.UpdateUsage | zun/compute/compute_node_tracker.py:284-315 | new counters, NUMA nodes and error as in the value model |
| ComputeNodeTracker.ComputeNodeTracker.UpdateUsageFromContainer | zun/compute/compute_node_tracker.py:227-250 | charges an unknown container, releases a known one on removal, else changes nothing |
| ComputeNodeTracker.ComputeNodeTracker.UpdateUsageFromContainerUpdate | zun/compute/compute_node_tracker.py:252-260 | records the new container and moves the usage from old to new |
| ComputeNodeTracker.ComputeNodeTracker.TryClaim | zun/compute/claims.py:76-118 | test, then a sample of the free CPUs for a dedicated container; each refusal with its reason |
| ComputeNodeTracker.ComputeNodeTracker.ContainerClaim | zun/compute/compute_node_tracker.py:135-173 | no claim for an empty request, refusal without change, or the tracked container with its CPUs |
| ComputeNodeTracker.ComputeNodeTracker.ContainerUpdateClaim | zun/compute/compute_node_tracker.py:175-209 | same for an update, tested on the increase |
| ComputeNodeTracker.ComputeNodeTracker.AbortContainerClaim | zun/compute/compute_node_tracker.py:486-491 | releases the clone |
| ComputeNodeTracker.ComputeNodeTracker.AbortContainerUpdateClaim | zun/compute/compute_node_tracker.py:493-498 | moves the usage back from new to old |
| ComputeNodeTracker.ComputeNodeTracker.RemoveUsageFromContainer | zun/compute/compute_node_tracker.py:501-509 | releases the container as passed |
| ComputeNodeTracker.ComputeNodeTracker.UpdateUsageFromContainers | zun/compute/compute_node_tracker.py:262-282 | for any list, without an error: exactly its containers are tracked and counted and the free memory is the larger of zero and what they leave of the total; from a list of the tracked containers it raises nothing and leaves exact pins |
| KuryrNetwork.StepKeepsInv | zun/network/kuryr_network.py:129-183 | every step of every caller keeps: one owner between insert and last step, and row and Docker network agree otherwise |
| KuryrNetwork.OneNetwork | zun/network/kuryr_network.py:117-183 | in every interleaving of any number of callers at most one Docker network exists, and every returned row carries its id |
| KuryrNetwork.NothingLeftBehind | zun/network/kuryr_network.py:170-183 | when all callers are done, row and Docker network both exist with the same id, or neither does |
| KuryrNetwork.CreatedStays | zun/network/kuryr_network.py:134-164 | once the Docker network and its stored id exist, no step changes them |
| KuryrNetwork.CallerFinishes | zun/network/kuryr_network.py:117-127 | a caller takes at most 12 steps, whatever the others do |
| KuryrNetwork.FindsCreated | zun/network/kuryr_network.py:136-159 | once the network is created, a caller at an insert returns its row with the third own step, in every interleaving |
| KuryrNetwork.OutcomeIff | zun/network/kuryr_network.py:117-183 | a finished caller raised exactly if Docker refused its own call, or if it lost every insert and met no created network in any of exactly three readings; it had nothing to do exactly if the network was there at its look; otherwise it returned a row |
| KuryrNetwork.CreatorCanSucceed | zun/network/kuryr_network.py:161-183 | Docker may give any fresh id, and then the creator returns and the network is there |
| KuryrNetwork.NobodyIsStuck | zun/network/kuryr_network.py:117-183 | a caller that is not done can always take a step |
| VolumeTable.OrphanedCompose | zun/compute/manager.py:489-498 | removing mappings part by part detaches the same volumes as removing them at once, and none twice |
| VolumeTable.DeletesCompose | zun/compute/manager.py:493-498 | the same for the deletions of auto-remove volumes |
| VolumeTable.OrphanedOfContainer | zun/compute/manager.py:501-513 | the volumes detached for a container are those it maps and no other container maps |
| VolumeManager.BegunIsCareful | zun/compute/manager.py:489-513 | whatever raised, every detached volume was mapped by this container and by no other, none was detached twice, every volume that lost its last mapping was detached, and deletions were of auto-remove volumes nobody else maps |
| VolumeManager.VolumeManager.DetachVolume | zun/compute/manager.py:501-513 | the driver detach is called exactly when this is the last mapping; an exception is raised exactly if asked for, and then the mapping is kept; otherwise it goes |
| VolumeManager.VolumeManager.DetachAndDelete | zun/compute/manager.py:489-498 | one round: raises exactly if detach (to be raised) or delete did; a deleted volume, and only it, is to be waited for |
| VolumeManager.VolumeManager.DetachEach | zun/compute/manager.py:489-498 | on return no mapping of the container is left, one detach per volume whose last mapping was its own, deletions only for auto-remove volumes nobody maps any more, and the result lists exactly the deleted mappings in order; raises exactly if a detach or delete did |
| VolumeManager.VolumeManager.DetachVolumes | zun/compute/manager.py:484-499 | terminates for every driver behaviour; mappings of others stay; the recorded answers decide the outcome: the driver's exception, or that of a look, or a return exactly if every deleted volume was seen deleted, else Conflict with the container failed; unless a detach or delete raised, the mappings are gone with exactly the right calls; if one did, the calls so far are right for a part and the mapping whose detach raised is kept |
| VolumeManager.VolumeManager.DetachVolumesForCapsule | zun/compute/manager.py:478-482 | the same over all containers of a capsule together; the first exception ends it and is its outcome |
| VolumeManager.VolumeManager.WaitForVolumesDeleted | zun/compute/manager.py:226-250 | looks at one volume after the other, the next once the last was seen deleted; returns exactly if all were, lets an exception of a look escape, and otherwise, after an error answer or the last poll, fails the container and raises Conflict |
| VolumeManager.VolumeManager.FailContainer | zun/compute/manager.py:183-193 | sets the error status, whatever the detaching does, touches only this container's mappings, and leaves none unless the driver raised |
| CniNetwork.AlternatesIff | zun/network/cni_network.py:152-191 | over every run of start and stop notifications ADD and DEL alternate with matching process ids, and the stored id is the attached one, exactly when no start comes without a process id while one is stored |
| CniNetwork.LastEventCounts | zun/network/cni_network.py:152-191 | after a start the namespace of its process is attached, after a stop none is |
| CniNetwork.CommandsOf | zun/network/cni_network.py:152-191 | an event issues DEL exactly for the recorded process it ends and then ADD exactly for a new one |
| CniNetwork.Container.OnContainerStarted | zun/network/cni_network.py:152-183 | the commands and stored id of the value model; what is stored is saved |
| CniNetwork.Container.OnContainerStopped | zun/network/cni_network.py:185-191 | same for a stop |

## Left out

- Aliasing: providers, PCI devices and NUMA nodes are values inside the object that owns them, so two references to one provider, device or node are not modelled.
- Provider inventories, traits and aggregates: kept with a provider, but their setters and change tests would only add easy members.
- ProviderTree.ProviderTree.Remove: without `NamesApart` the parent may be looked up by another provider's name and nothing is removed; the model assumes that names and UUIDs do not collide.
- PciDevice.PciTree.Free: device ids stand for the copies that `allocate` appends to the container's list.
- PCI `save`, `update_device` and `request_id` assignment: the DELETED status is only set by `save`; nothing else in the life cycle uses it.
- PCI requests of a claim: the PCI tracker is treated as absent; only whether a request object was given is modelled.
- ComputeNodeTracker.ComputeNodeTracker.ContainerClaim: the node is not reloaded, since every step ends by saving it; what a pinning error leaves unsaved is modelled as still in memory.
- TrackingRuns.RunStaysWithin: aborts of shrinking updates are not among its events; `AbortStaysWithinIff` shows that exactly these cannot be trusted.
- TrackingRuns.RunKeepsBooks: aborts of dedicated updates with recorded CPUs are not among its events, because they raise and leave wrong counters (`AbortOfUpdateIff`); `AbortOfDedicatedUpdateRaises` and `AuditRepairsAbort` cover them.
- ComputeNodeTracker.ComputeNodeTracker.AbortContainerUpdateClaim: the final persist call omits an argument in the original; only the usage change is modelled.
- Placement, the scheduler client and the traits sync after a step.
- Host and status fields of containers outside accounting; `unset_host`.
- KuryrNetwork.StepKeepsInv: no concurrent `remove_network`, no crash of a caller, and a failed Docker call creates nothing; subnet look-up errors end a caller before its first modelled step.
- VolumeManager.VolumeManager.DetachVolume: counts and lists see the whole table; the project filter of the database is not modelled.
- VolumeManager.VolumeManager.WaitForVolumesDeleted: time is a number of polls; a wait ends after finitely many.
- CniNetwork.Container.OnContainerStarted: CNI commands succeed.
- Configuration, API, RPC, images, exec, quota, logging and policy.
