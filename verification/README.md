# Host evacuation and placement in cluster-api-provider-maas

This project models the parts of the provider in which several controllers act on the same Kubernetes and MAAS
state without a common lock, and proves what they keep together.

A *host cluster* runs on bare-metal machines that are LXD hosts. The control-plane Machines of a *workload
cluster* are LXD VMs on those hosts. When a host is to be deleted, the Host Maintenance Controller (HMC) opens a
session, puts drain tags on the host, and holds the host's evacuation finalizer until no VM is left on it. The VM
Evacuation Controller (VEC) of the workload cluster sees the tags and moves the control-plane VMs away, one at a
time: it deletes a Machine (three or more replicas) or swaps the machine template (one replica), and completes its
per-operation session once a replacement joined a stable control plane. The MaasMachine controller composes and
deploys VMs, allocates, deploys and releases bare metal, and together with the MaasCluster controller keeps the
API server's DNS record.

## How it is modelled

- `State` holds the shared state: `World` is a snapshot of it, class `Store` the thing the controllers change.
  Each controller has a module (`Vec`, `Provision`, `Hmc`, `HostMachines`, with `HostTags`, `Gates`, `Selector`,
  `HmcSession` and `Allocation` below them). A controller's operations are methods that change a `Store` or an
  object of their own, statement by statement as the Go code does, and each is proved to compute a function on
  snapshots. The statements about runs are about those functions.
- Outcomes a reconcile does not control (which remote call fails, where a series of calls is cut off, list and map
  order, fresh identifiers) are fields of a `Calls` record: a statement holds for all of them.
- `Protocol` interleaves all controllers with the environment: users, Cluster API, MAAS and machines that fail. One
  reconcile is one atomic step, and so are host selection and composing together. `Leads` relates a state, an action,
  the next state and the event it reports; `Run` is a finite run from a state without Machines. `History` is kept
  beside the state and read by no controller.
- `Effects` and `Frames` say what each step can and cannot touch. On top of them stand the results about runs:
  `Quorum`, `Handshake`, `Stalling`, `Ownership`, `Drain`, `Termination`, `Provenance`, `Evacuation`, `Release`,
  `Wedge` and `Sessions`. `Scenarios` builds runs that reach the states two of them warn about, `Replacement` a run
  that deletes a Machine, composes its replacement and completes the session.
- `Strategy` and `Offers`, and the lemmas named `...Exactly` elsewhere, say what the functions on snapshots decide in
  terms of the objects they read, by conditions of their own.
- `Allocation` (with `Exclusivity`), `Balance`, `HostTags` and `Dns` have runs of their own. `Tags` and `ProviderIds` are the text formats.

Assumptions, which stand in `Protocol.Permitted`, `Dns.Enabled` or a module's `Consistent` predicate: reads are
current, except that HMC's list calls may leave machines out; the session a list yields first is an Active one if there
is any; UIDs, system IDs and operation IDs are not reused; MAAS
refuses to compose or rename to a hostname that is taken, and nobody else takes a hostname that belongs to a Machine;
nobody but these controllers adds or removes a MAAS tag, and a machine that is already there keeps its parent, zone,
pool, power type and, but for the rename, hostname (`NodeStatus` changes power and state only; drains and ready tags
rest on this); a machine that appears on its own carries no ready tag; IDs and zone names have no newline and IDs no
slash; an object disappears only after it was marked for deletion and its finalizers are gone; there is one workload
cluster per namespace, because VEC's sessions are listed per namespace; `lxdConfig.enabled` of the host cluster does
not change; addresses of different machines differ (for DNS only).

## Where the code differs from what one would expect

- The documented gate is "host empty and per-cluster readiness proven" (`pkg/maas/maintenance/contracts.go:39-57`).
  The code looks at readiness only when its first list call returned no VM, so on an unchanging inventory the second
  gate decides nothing (`Gates.GatesCollapse`). The readiness check accepts a ready tag of any operation.
- The control-plane tag itself starts with the cluster tag's prefix, and the last such tag wins: with the tags in the
  wrong order a ready VM of any cluster counts as a replacement (`Gates.ReplacementOfSameCluster`).
- Above 9223372036 GB the disk demand overflows and the storage filter asks for too little (`Selector.StorageFilterIsHonest`).
- Three failures put what MaasMachines name and what they hold apart (`Exclusivity.MatchKeptExactly`): the patch after
  an allocation and the closing patch both fail, and the machine is lost (`Allocation.LeakHoldsTwo`); a deployment
  fails and neither the clearing nor the closing patch goes through, so the store keeps naming a machine whose release
  was requested, MAAS grants it to another MaasMachine, and deleting the first releases the second one's machine
  (`Exclusivity.StrandedMachineIsShared`); an allocation error names a machine somebody holds, and it is force-released.
- `reconcileNormal` puts the evacuation finalizer on again whenever it finds it missing, also after HMC completed the
  evacuation (`Wedge.FinalizerReturnsExactly`). Once such a host is deleted HMC skips it and the delete path waits for
  HMC, for ever (`Wedge.WedgedForever`); `Scenarios.WedgedIsReached` is a run that ends there. A host being deleted
  can lose the finalizer exactly when it is not in that state and evacuation is done (`Wedge.DroppedExactly`).
- VEC opens a session before it knows whether it may act (`Stalling.OpensWithoutActingExactly`): it does so under an
  unstable control plane, and with two replicas, for which it has no strategy and never acts
  (`Stalling.OpenedForNothing`). A session is completed only with a replacement on record
  (`Stalling.CompletesExactly`), and until one is offered it blocks every evacuation (`Stalling.StalledExactly`).
- If the session write fails VEC acts all the same, and may act again at once (`Stalling.UnsavedActsTwice`).
- HMC works under, and in the end completes, whatever session is open; it names another host exactly when such a
  session was Active before (`Evacuation.CompletesAnotherHostsSession`, `Scenarios.AnotherHostsSessionIsCompleted`).
- A serving machine without an external IP puts an empty address in the DNS record, and the record never settles
  (`Dns.WhenItSettles`).
- Two constants are called `HostEvacuationFinalizer` (`controllers/host_maintenance_service.go:33`,
  `pkg/maas/maintenance/contracts.go:57`); the controllers use the first.

## Model

| member | source | states |
|---|---|---|
| Quorum.DeletionLeavesQuorum | controllers/vmevacuation_controller.go:202-244 | with current KCP counters VEC deletes only from a full, ready control plane of at least 3, and right after it at least spec-1, a majority, still serve |
| Quorum.DeletedMachine | controllers/vmevacuation_controller.go:215-244 | the Machine VEC deletes is a control-plane Machine, and no control-plane Machine at all was being deleted before |
| Quorum.ActionFindings | controllers/vmevacuation_controller.go:180-266 | an evacuation action means: no open session, stable KCP, no other deletion, a Machine on a draining host; deletion means 3 or more replicas, a template swap exactly 1 |
| Quorum.AtMostOneUnderDeletion | controllers/vmevacuation_controller.go:475-504 | in every reachable state at most one Machine that VEC deleted is still there |
| Quorum.NeverTwice | controllers/vmevacuation_controller.go:295-298 | no run deletes the same Machine twice |
| Strategy.DecidesExactly | controllers/vmevacuation_controller.go:180-266 | with no session open a Machine is deleted iff it is the one picked, the four replica counts agree, nothing else of the control plane is being deleted, spec.replicas is at least 3 or outside the int32 range, and the calls go through; the template is swapped iff the same holds with a count of 1, a template to swap to and its own calls |
| Strategy.ActsOnlyThen | controllers/vmevacuation_controller.go:148-244 | an action means no open session and no failing list; a deletion means such a count with all counters equal and no pause, a swap means a count of 1 |
| Strategy.WritesExactly | controllers/vmevacuation_controller.go:215-263 | what such a reconcile writes besides sessions: one deletion mark, or the new template (left behind if the KCP update fails) and the KCP's template name and maxSurge |
| Strategy.FirstIsPicked | controllers/vmevacuation_controller.go:277-388 | the Machine picked is the first readable one in list order whose VM is on a host with both drain tags and an operation, and there is no finding iff there is no such Machine |
| Strategy.TargetExactly | controllers/vmevacuation_controller.go:292-363 | a Machine is a finding for a host and an operation iff it could be read, is of the control plane, not being deleted, its VM sits on that host, both drain tags are there, and the last operation tag is the operation's |
| Strategy.StableExactly | controllers/vmevacuation_controller.go:438-472 | the KCP is stable iff it is not paused and the ready, updated and current counts are there and equal the wanted one |
| Strategy.SessionNamesHost | controllers/vmevacuation_controller.go:371-383 | a session a scan opens is Active, has no replacement and names the draining host of a Machine whose session write went through |
| Strategy.CompletionExactly | controllers/vmevacuation_controller.go:148-178 | with a session open the VM on its record gets the ready tag of its operation iff the control plane is steady and the calls up to the tag go through; the session is completed iff the last call does too; nothing else changes |
| Strategy.NothingWithoutLists | controllers/vmevacuation_controller.go:92-190 | when VEC may not proceed, or cannot list sessions or Machines, nothing changes |
| Offers.OffersExactly | pkg/maas/machine/machine.go:724-777 | an attempt that deploys or composes a control-plane VM writes its ID into a session, and reports so, iff listing and writing go through and that session is Active and first; no other session changes |
| Offers.OfferedIfAnyWaits | pkg/maas/machine/machine.go:731-775 | so with both calls going through the VM is offered iff any session is Active |
| Offers.DeployRecords | pkg/maas/machine/machine.go:291-323 | a deployed VM is recorded under the zone MAAS reports, or else the one asked for, iff the patch goes through; its hostname becomes vm- and the Machine's name iff the rename goes through and nothing has it |
| Offers.ComposeRecords | pkg/maas/machine/machine.go:527-536 | a composed VM is recorded under the zone asked for iff the patch goes through, and no other Machine changes |
| Offers.AdoptRecords | pkg/maas/machine/machine.go:468-523 | a VM left over under the Machine's hostname is recorded and nothing is composed |
| Offers.TagVmExactly | pkg/maas/machine/machine.go:706-721 | which tag a VM has after the two identity tag calls |
| Offers.ProvisionedExactly | pkg/maas/machine/machine.go:287-536 | a VM is composed iff none is on record, a host with zone and pool was picked, the hostname is free and the call goes through; one that exists is used iff it is on record and gets deployed or has the hostname |
| Offers.OtherwiseNothing | pkg/maas/machine/machine.go:287-310 | any other attempt at most renames the VM on record |
| Offers.CrashLeavesVm | pkg/maas/machine/machine.go:459-466 | an attempt cut off after composing leaves the new VM where it was asked for, unrecorded and untagged |
| Replacement.EvacuationCompletes | controllers/vmevacuation_controller.go:141-266 | a run from an initial state that deletes a Machine, composes and offers the replacement on another host, and completes the session |
| Handshake.BetweenActions | controllers/vmevacuation_controller.go:141-178 | between any two evacuation actions a replacement was provisioned for a control-plane Machine while the first one's session was open, and then that session was completed with the KCP stable, that replacement on record and the ready tag assigned |
| Handshake.ActionOpens | controllers/vmevacuation_controller.go:371-383 | an action leaves its session Active exactly when some session write of its operation went through, with no replacement on record yet |
| Handshake.WhenClosed | controllers/vmevacuation_controller.go:671-710 | only VEC closes a session, with the KCP stable, a replacement on record and the ready tag assigned |
| Handshake.WhenOffered | pkg/maas/machine/machine.go:752-775 | a replacement that came onto a session's record between two states was provisioned and offered in between |
| Handshake.OpenSessionBlocks | controllers/vmevacuation_controller.go:148-178 | with a session open a reconcile neither deletes nor swaps, and ends no session but by completing it |
| Stalling.StalledExactly | controllers/vmevacuation_controller.go:148-178 | an open session without a replacement stays so over a stretch of a run exactly as long as no VM is offered to it |
| Stalling.StallsUntilOffered | controllers/vmevacuation_controller.go:148-178 | and all that time VEC takes no evacuation action |
| Stalling.OpensWithoutActingExactly | controllers/vmevacuation_controller.go:180-263 | with its calls going through a reconcile opens a session without acting iff a session write went through and it may not act (unstable KCP, another deletion, no strategy or template for the replica count) |
| Stalling.ActsExactly | controllers/vmevacuation_controller.go:180-263 | with no session open it acts iff there is a finding and it may act |
| Stalling.CompletesExactly | controllers/vmevacuation_controller.go:148-178 | with a session open it completes it iff the KCP is stable and a replacement is on record |
| Stalling.OpenedForNothing | controllers/vmevacuation_controller.go:210-263 | an instance with an unstable KCP and one with two replicas in which the session is opened and nothing is evacuated |
| Stalling.UnsavedActsTwice | controllers/vmevacuation_controller.go:371-378 | an instance of two template swaps in a row after failed session writes |
| Ownership.AtMostOneVm | pkg/maas/machine/machine.go:354-553 | over all runs with crashes and failed patches a Machine has at most one live VM, and only one was ever composed unless one disappeared |
| Ownership.RecordedVmIsOwn | pkg/maas/machine/machine.go:468-536 | recorded IDs name a VM composed for this very Machine, by both parsers; no two Machines record the same one |
| Ownership.ProvisioningKeepsInv | pkg/maas/machine/machine.go:287-351 | every provisioning attempt, wherever it is cut off, keeps hostnames, records and VMs matched |
| Ownership.RenameKeepsOwned | pkg/maas/machine/machine.go:297-300 | renaming is only for VMs on record, so it never hides one that must still be found by its hostname |
| Provenance.ComposedWhereAsked | pkg/maas/machine/machine.go:421-466 | a new VM sits on a known host, under the Machine's hostname, in the zone and pool the Machine asks for |
| Drain.DrainsUntilCleared | controllers/host_maintenance_service.go:456-491 | from any state in which a host drains its VMs only become fewer, until HMC clears the tags after an empty read, the host is deployed anew or is gone |
| Drain.OnlyFewerGuests | pkg/maas/lxd/host_maas_client.go:407-427 | while a host keeps a maintenance tag the set of its VMs never gains a member through this provider; empty stays empty |
| Drain.PickIsNotDraining | pkg/maas/lxd/host_maas_client.go:407-427 | the host picked for a VM carries no maintenance tag |
| Drain.DrainStays | controllers/host_maintenance_controller.go:265-283 | the only steps after which a draining host drains no more |
| Termination.DeletionsAreBounded | controllers/vmevacuation_controller.go:292-385 | while the marked hosts are the same VEC deletes at most as many Machines as had a VM there at the start, and only such Machines |
| Termination.DeletionUsesUpExposure | controllers/vmevacuation_controller.go:295-385 | each deletion takes a Machine out of the measure: it had its own VM on a marked host before, and does not count after |
| Provenance.ReadyTagHasOrigin | controllers/vmevacuation_controller.go:683-703 | a VM with the ready tag of an operation was composed or deployed for a control-plane Machine while that session was Active |
| Provenance.NewVmHasOrigin | pkg/maas/machine/machine.go:724-777 | so was every VM recorded in a session |
| Provenance.ReadyVmIsReplacement | controllers/host_maintenance_service.go:391-411 | if its tagging went through, such a VM satisfies HMC's replacement test for its cluster in its pool and zone from then on |
| Provenance.OfferTrace | pkg/maas/machine/machine.go:327-335 | every offer in the history happened at a provisioning step, for a control-plane Machine and an Active session |
| Evacuation.EvacuatePassesGate | controllers/host_maintenance_controller.go:265-283 | HMC drops a finalizer or clears tags only after its list call returned no VM of the host |
| Evacuation.VerdictMeansEmpty | controllers/host_maintenance_service.go:85-135 | passing the gates means the first read was empty |
| Evacuation.CompleteReadMeansEmpty | controllers/host_maintenance_service.go:85-135 | if that list call left no machine out, the host had no VM |
| Drain.StaysEmptyAfterEvacuation | controllers/host_maintenance_controller.go:265-283 | and from then on it has none for as long as it carries a maintenance tag |
| Evacuation.EvacuatedHostIsClean | controllers/host_maintenance_controller.go:279-301 | a finished evacuation leaves all tags but the drain tags, in order, and every other machine alone; annotates the host with the operation it worked under if that write goes through; and leaves that session Completed if the completing write does, open otherwise |
| Evacuation.CompletesAnotherHostsSession | controllers/host_maintenance_controller.go:216-233 | the session worked under names another host iff one with an operation ID was Active before and did; its ID is that session's, or the fresh one |
| Scenarios.AnotherHostsSessionIsCompleted | controllers/host_maintenance_controller.go:216-301 | a run in which a host is evacuated under, and completes, the session of another host |
| Release.ReleaseIsGuarded | controllers/maasmachine_controller.go:174-250 | a release call for a host comes after its evacuation finalizer was there, and was last removed by HMC on an empty read or by the delete path without a system ID |
| Release.FinalizerWasThere | controllers/maasmachine_controller.go:389-406 | a host with IDs on record and no evacuation finalizer had one, and it was properly removed |
| Release.RequestsExactly | controllers/maasmachine_controller.go:174-250 | a delete step that reports a release call leaves that machine's lease with the same holder and a release requested, and every other lease alone; any other delete step leaves all leases alone |
| Release.LetGoIsReleased | controllers/maasmachine_controller.go:237-250 | an object that loses its own finalizer while MAAS found its machine leaves that machine's lease with a release requested |
| Release.OnlyItsGuestsGo | controllers/maasmachine_controller.go:285-344 | the delete path removes no machine from the inventory but VMs on the host it releases, and only if MAAS asked for that first |
| Wedge.FinalizerReturnsExactly | controllers/maasmachine_controller.go:389-406 | a host without its evacuation finalizer has it again after a step iff the step is its reconcileNormal, past the first finalizer, with the patch going through; no other step of anybody, and whatever the completed annotation says |
| Wedge.WedgedForever | controllers/host_maintenance_controller.go:200-214 | a host being deleted with its finalizer on and its evacuation completed stays so in every later state and is never released |
| Wedge.DroppedExactly | controllers/maasmachine_controller.go:179-193 | a host being deleted with its finalizer on can lose it in some step, with complete reads, iff it is not wedged and either has no system ID or its owner is being deleted and MAAS has it, without VMs |
| Scenarios.WedgedIsReached | controllers/maasmachine_controller.go:402-406 | a run from the beginning: created, deployed, owner deleted, evacuated, reconciled once more, deleted, wedged |
| Sessions.AlwaysSound | pkg/maas/maintenance/session.go:109-212 | in every reachable state Active iff one active session is counted, Completed means host and lists are empty, and "multiple active sessions" is never reported |
| Sessions.OpIdsNeverRepeat | pkg/maas/maintenance/session.go:178-191 | an operation ID that was replaced never comes back |
| Sessions.StepKeepsInv | controllers/host_maintenance_controller.go:216-233 | the operation ID changes only in a step from a session that is not Active, to one never used |
| HmcSession.StartKeepsSound | pkg/maas/maintenance/session.go:169-192 | starting keeps the session's shape; a new ID appears only in a step that opens a session |
| HmcSession.TrackKeepsSound | controllers/host_maintenance_service.go:332-360 | recording affected clusters keeps the shape of an open session |
| HmcSession.SessionConfigMap.SaveSession | pkg/maas/maintenance/session.go:111-165 | the ConfigMap after a save, created or updated, with the progress key filled in |
| HmcSession.SessionConfigMap.StartSession | pkg/maas/maintenance/session.go:169-192 | what a start stores and returns |
| HmcSession.StartExactly | pkg/maas/maintenance/session.go:169-192 | what is stored and returned, field by field: the open session, or a new one with the given ID, host and time |
| HmcSession.CompleteExactly | pkg/maas/maintenance/session.go:195-212 | a completion that goes through clears host, counter and tracking and keeps ID and start time |
| HmcSession.TrackExactly | controllers/host_maintenance_service.go:332-360 | tracking data replaces that of the stored session and nothing else |
| HmcSession.TriggerExactly | pkg/maas/maintenance/session.go:215-223 | a trigger is there iff the start key says true, and names the host of the other key |
| Sessions.TriggerOpens | controllers/host_maintenance_controller.go:87-137 | a trigger without an open session opens one for its host under the fresh ID |
| Sessions.NothingAsked | controllers/host_maintenance_controller.go:87-137 | without a trigger the ConfigMap reconcile leaves the session alone |
| Sessions.TooManyExactly | controllers/host_maintenance_controller.go:96-123 | the controller stops over more than one session iff an Active one counts more than one and no trigger is set, and then changes nothing |
| HmcSession.SessionConfigMap.CompleteSession | pkg/maas/maintenance/session.go:195-212 | what a completion stores; success means Completed |
| Selector.SelectHost | pkg/maas/lxd/host_maas_client.go:301-481 | succeeds iff some host is eligible, and no eligible host is better than the one returned |
| Selector.IsCandidate | pkg/maas/lxd/host_maas_client.go:345-427 | the chain of filters lets a host through iff it is eligible |
| Selector.ComputeCpCountsByHost | pkg/maas/lxd/host_maas_client.go:556-587 | the counting index holds exactly the hosts with control-plane VMs of the cluster, with their counts |
| Selector.HostHasAllTags | pkg/maas/lxd/host_maas_client.go:510-522 | whether a host has every required tag |
| Selector.HostHasStorage | pkg/maas/lxd/host_maas_client.go:385-400 | whether a local pool has the bytes uncommitted, in 64-bit arithmetic |
| Selector.RankCandidates | pkg/maas/lxd/host_maas_client.go:458-473 | the ranking is a permutation of the candidates in which nothing better comes later |
| Selector.BetterExactly | pkg/maas/lxd/host_maas_client.go:458-473 | one host is not behind another iff it has no more of the cluster's control-plane VMs, on a tie no less headroom (cores and memory weighed by the minimums), on a further tie is managed if the other one is |
| Selector.EligibleExactly | pkg/maas/lxd/host_maas_client.go:345-427 | the filters one by one |
| Selector.CountsVms | pkg/maas/lxd/host_maas_client.go:556-587 | the count is the number of machines in the list that sit on the host with both tags |
| Selector.BetterIsStrictWeakOrder | pkg/maas/lxd/host_maas_client.go:458-473 | the comparator is what the sorting library requires |
| Selector.ScoreOrder | pkg/maas/lxd/host_maas_client.go:496-507 | with both minimums positive scores order hosts as integer cross-multiplication does |
| Selector.TighteningShrinks | pkg/maas/lxd/host_maas_client.go:345-405 | asking for more never makes a host eligible, below the overflow |
| Selector.StorageFilterIsHonest | pkg/maas/lxd/host_maas_client.go:385-399 | the filter asks for the gigabytes demanded iff the demand is at most 9223372036 |
| Selector.OverflowAdmitsSmallHosts | pkg/maas/lxd/host_maas_client.go:388-396 | for demands from 9223372037 to 18446744072 GB a host with one byte passes |
| Selector.OneByteIsEnough | pkg/maas/lxd/host_maas_client.go:388-396 | for which demands in general: all whose 64-bit product is not from 2 up; at 18446744074 GB, say, it is positive and asks for 290448384 bytes (`OverflowTurnsPositive`) |
| Balance.BalancedPlacement | pkg/maas/lxd/host_maas_client.go:449-473 | from zero, k placements over n eligible hosts leave k/n on each, rounded down or up |
| Balance.SpreadNeverGrows | pkg/maas/lxd/host_maas_client.go:314-327 | from any start the gap between two eligible hosts never exceeds the larger of the initial gap and 1 |
| Balance.TotalAfter | pkg/maas/machine/machine.go:437-441 | no placement is lost: the total over the eligible hosts grows by one each time |
| Balance.ComposingIsPlacement | pkg/maas/machine/machine.go:421-544 | an attempt that composes a control-plane VM with its tag calls going through is such a placement |
| Balance.CountsIgnoreOrder | pkg/maas/lxd/host_maas_client.go:556-587 | the counts do not depend on the order in which MAAS lists its machines |
| Gates.CheckWlcReadyTags | controllers/host_maintenance_service.go:220-454 | the nested loops decide: host empty, or every control-plane VM on it has a ready replacement; and what is tracked |
| Gates.CheckEvacuationGates | controllers/host_maintenance_service.go:79-165 | the two gates in order, with their errors |
| Gates.GatesCollapse | controllers/host_maintenance_service.go:79-165 | on an unchanging inventory passing is the same as reading no VM |
| Gates.PassingMeansEmptyRead | controllers/host_maintenance_service.go:85-132 | passing means none of the listed and fetched machines was on the host |
| Gates.ClusterTagNeverMissing | controllers/host_maintenance_service.go:282-305 | the test for a cluster tag is the same as being a control-plane VM |
| Gates.ReplacementOfSameCluster | controllers/host_maintenance_service.go:287-305 | replacements are of the VM's own cluster iff its own cluster tag is the last one with the prefix |
| Gates.FindReplacement | controllers/host_maintenance_service.go:378-425 | whether any other VM of the pool and zone has all three tags |
| Gates.ReadyExactly | controllers/host_maintenance_service.go:282-441 | the check says ready iff every control-plane VM on the host has another VM in the host's pool and zone with the control-plane tag, its last cluster tag and some ready tag |
| Gates.VerdictNeedsReads | controllers/host_maintenance_service.go:253-378 | which failing read makes the check fail |
| Gates.TrackedExactly | controllers/host_maintenance_service.go:324-346 | the clusters and VMs recorded are those of the control-plane VMs on the host |
| Gates.TrackedIfRead | controllers/host_maintenance_service.go:253-346 | there is something to save iff the host and its VMs could be read |
| Evacuation.GatesExactly | controllers/host_maintenance_service.go:79-165 | the gates pass iff the reads went through, the first one returned no VM and every control-plane VM of the second has its replacement |
| Evacuation.HmcEvacuatesExactly | controllers/host_maintenance_controller.go:143-301 | a reconcile finishes an evacuation iff the host is bare metal of a host cluster, being deleted, not completed, with its finalizer and a system ID, a session is or gets open, the tag calls and the gates pass, and the finalizer patch goes through |
| Evacuation.TracksExactly | controllers/host_maintenance_service.go:237-360 | unless the gates open the host keeps the drain tags it got, and the clusters and VMs still waited for are saved iff the second read was reached and went through and the session has an operation ID and can be saved |
| Evacuation.ClearsOnceOpen | controllers/host_maintenance_service.go:168-190 | once they open the tags are cleared as far as the calls go, whether or not the finalizer patch follows |
| Gates.CollectNeeded | controllers/host_maintenance_service.go:280-305 | which VMs need a replacement, in list order |
| Gates.TrackEvacuation | controllers/host_maintenance_service.go:324-346 | the affected clusters and pending VMs to record |
| Gates.ListHostVms | pkg/maas/maintenance/common.go:110-148 | the listed machines that could be fetched and sit on the host |
| Gates.ListAllVms | pkg/maas/maintenance/common.go:151-190 | the listed machines that could be fetched and are LXD VMs |
| Gates.SelectFinds | pkg/maas/maintenance/common.go:110-190 | a list operation returns exactly those machines |
| Gates.ReadsExactly | pkg/maas/maintenance/common.go:110-190 | which VMs the two list operations return |
| HostTags.ClearUndoesEverything | controllers/host_maintenance_service.go:457-491 | after any attempts cut off anywhere, one full clear leaves the original tags less the drain tags, in order, and nothing else changed |
| HostTags.EnsureHostMaintenanceTags | pkg/maas/maintenance/host_tagging.go:23-47 | the tags after the attempt was cut off at any call |
| HostTags.ClearMaintenanceTags | controllers/host_maintenance_service.go:457-491 | the same for the clear, and when it succeeds |
| HostTags.EnsuredHostIsMarked | pkg/maas/maintenance/host_tagging.go:23-47 | a host tagged for an operation is one VEC evacuates, for that operation |
| HostTags.EnsureExactly | pkg/maas/maintenance/host_tagging.go:23-47 | which tag a host has after an attempt that was cut off at any call |
| HostTags.ClearExactly | controllers/host_maintenance_service.go:457-491 | which tag a host has left after a clear that was cut off at any call |
| HostTags.OpTagsFinds | controllers/host_maintenance_service.go:479-488 | the clear finds exactly the tags with the operation prefix |
| Allocation.ConservationExactly | pkg/maas/machine/machine.go:151-282 | a reconcile keeps every held machine named by its holder's providerID iff it does not leak |
| Allocation.ObtainedIsNamedOrReleased | pkg/maas/machine/machine.go:182-255 | after each call the machine obtained is the one the providerID names or a release was requested |
| Allocation.AtMostOneMachineEach | controllers/maasmachine_controller.go:420-465 | over all runs without a leak each MaasMachine holds at most one machine, the one it names |
| Allocation.LeakHoldsTwo | pkg/maas/machine/machine.go:203-207 | an instance of the leak after which one MaasMachine holds two |
| Exclusivity.MatchKeptExactly | pkg/maas/machine/machine.go:182-255 | a reconcile keeps "holds it" and "the store names it" the same for everybody iff it neither leaks, nor strands a released machine in the store, nor forces a held one off |
| Exclusivity.NoTwoShareAMachine | controllers/maasmachine_controller.go:420-478 | over all runs without those no two MaasMachines name one machine, and a deletion releases no machine but one's own |
| Exclusivity.StrandedMachineIsShared | pkg/maas/machine/machine.go:240-255 | a run without a leak after which two MaasMachines name one machine and deleting the first releases the second one's |
| Allocation.MachineScope.DeployMachine | pkg/maas/machine/machine.go:129-282 | memory, stored object and leases after a call, the deferred cleanup included |
| Allocation.MachineScope.Reconcile | controllers/maasmachine_controller.go:420-465 | the stored IDs and the leases after a reconcile |
| Allocation.Granted | pkg/maas/machine/machine.go:154-207 | what a call without a providerID leaves in memory, the store and the leases, by grant, machine type and patch |
| Allocation.Reused | pkg/maas/machine/machine.go:208-255 | the same for a call that works on the machine on record |
| Allocation.LookedUp | controllers/maasmachine_controller.go:420-465 | when the reconcile calls it at all, and what it records otherwise |
| Allocation.RejectedExactly | pkg/maas/machine/machine.go:192-201 | the machine types an LXD host may not be made of |
| Allocation.DeployedExactly | controllers/maasmachine_controller.go:420-452 | a reconcile deploys a machine iff it was granted or is on record and not running, its type may be used, and the calls go through |
| HostMachines.CleansExactly | controllers/maasmachine_controller.go:453-465 | stale tags are cleaned up on that machine only, and only for bare metal |
| HostMachines.NormalDeploys | controllers/maasmachine_controller.go:407-465 | past its finalizers and with the prerequisites there a host gets the IDs and leases of Allocation, and no other host changes |
| HostMachines.NormalWaits | controllers/maasmachine_controller.go:384-419 | before that nothing is deployed, released or untagged |
| HostMachines.CleanupExactly | controllers/maasmachine_controller.go:763-839 | a tag goes iff it is one of the six kinds, its removal succeeds and the machine is no LXD VM |
| Dns.DetachBeforeRelease | controllers/maasmachine_controller.go:217-235 | a control-plane machine is released only when the record holds none of its addresses, and no later state of the run does |
| Dns.StaysDetached | controllers/maascluster_controller.go:161-212 | addresses of a deleting machine that are out of the record stay out |
| Dns.ClusterStepDetaches | controllers/maascluster_controller.go:190-202 | one cluster step that goes through detaches every deleting machine |
| Dns.StepLeavesServing | controllers/maascluster_controller.go:179-211 | such a step leaves exactly the addresses of running control-plane machines not being deleted, and settles iff the record was right before |
| Dns.RecordExactly | controllers/maascluster_controller.go:179-202 | after a cluster step that goes through a text is in the record iff some labelled, powered machine that is Deploying or Deployed and not being deleted has it as its first external address, or has no external address and the text is empty |
| Dns.ExternalIpExactly | controllers/maascluster_controller.go:230-237 | the text of the first address of kind ExternalIP, or the empty text iff there is none of that kind |
| Dns.ReleasesExactly | controllers/maasmachine_controller.go:196-235 | the delete path releases a machine that was found, a control-plane one iff the record could be read and holds none of its addresses |
| Dns.ReportedExactly | controllers/maasmachine_controller.go:469-538 | which status is taken over, by state and power |
| Dns.WhenItSettles | controllers/maascluster_controller.go:184-211 | a second step settles iff every serving machine has an address and no other one shares it |
| Dns.Controllers.ReconcileDnsAttachments | controllers/maascluster_controller.go:161-212 | the record and the outcome after the loop |
| Dns.Controllers.MachineIsRegistered | pkg/maas/dns/dns.go:90-103 | whether the record holds any address of the machine |
| Dns.Controllers.GetApiServerDnsRecords | pkg/maas/dns/dns.go:105-119 | the non-empty addresses of the record |
| Dns.Controllers.GetExternalMachineIp | controllers/maascluster_controller.go:230-237 | the first external IP, or nothing |
| Dns.Controllers.UpdateDnsAttachments | pkg/maas/dns/dns.go:56-70 | the record is overwritten, or left alone on an error |
| Dns.Controllers.ReconcileStatus | controllers/maasmachine_controller.go:469-538 | the status taken over from MAAS |
| Dns.Controllers.ReconcileDelete | controllers/maasmachine_controller.go:196-235 | when the delete path goes on to release |
| Vec.Reconcile | controllers/vmevacuation_controller.go:92-266 | the state and the event after one reconcile |
| Vec.FindCpMachinesOnMaintenanceHosts | controllers/vmevacuation_controller.go:277-388 | the findings in list order, and the sessions opened on the way |
| Vec.InspectMachine | controllers/vmevacuation_controller.go:292-363 | when a Machine counts as sitting on a draining host |
| Vec.ScanHostTags | controllers/vmevacuation_controller.go:345-360 | which drain tags a host has; the last operation tag wins |
| Vec.SaveMaintenanceSession | controllers/vmevacuation_controller.go:630-668 | a write replaces the whole session |
| Vec.HasOtherCpBeingDeleted | controllers/vmevacuation_controller.go:475-504 | whether another control-plane Machine is being deleted, or that cannot be known |
| Vec.EvacuateMachine | controllers/vmevacuation_controller.go:221-263 | the strategy by replica count, 3 standing in for a count out of range |
| Vec.CreateNewTemplate | controllers/vmevacuation_controller.go:523-582 | the template created or reused |
| Vec.TagReplacementVmAndCompleteSession | controllers/vmevacuation_controller.go:671-710 | tag first, then complete, each step as far as it goes |
| Provision.CreateVmViaMaas | pkg/maas/machine/machine.go:287-351 | the state and the event after one attempt |
| Provision.PrepareLxdVm | pkg/maas/machine/machine.go:375-553 | select, compose, adopt by hostname, record and tag |
| Provision.DeployRecordedVm | pkg/maas/machine/machine.go:291-342 | rename, deploy, record and tag the VM on record |
| Provision.TagCpVm | pkg/maas/machine/machine.go:706-721 | which identity tags the VM has afterwards |
| Provision.TagVmIfMaintenanceActive | pkg/maas/machine/machine.go:724-777 | the first Active session gets the VM's ID |
| Provision.ApplyVmTags | pkg/maas/machine/machine.go:805-828 | each tag on its own, failures skipped |
| Hmc.ReconcileMaasMachine | controllers/host_maintenance_controller.go:143-318 | the state and the event after one reconcile of a host |
| Hmc.ReconcileConfigMap | controllers/host_maintenance_controller.go:87-140 | the same for the session ConfigMap |
| Hmc.EvacuateHost | controllers/host_maintenance_controller.go:244-301 | tag, gates, clear, in that order |
| Hmc.ClearTagsAndRemoveFinalizer | controllers/host_maintenance_service.go:168-190 | what is left when it stops at any call |
| Hmc.SaveTracking | controllers/host_maintenance_service.go:332-360 | tracking data is saved only for a session with an operation ID |
| HostMachines.ReconcileNormal | controllers/maasmachine_controller.go:384-465 | finalizers first, then deploy, record and clean up |
| HostMachines.ReconcileDelete | controllers/maasmachine_controller.go:174-250 | the delete path with its waits |
| HostMachines.TryRelease | controllers/maasmachine_controller.go:285-317 | the release with one retry |
| HostMachines.CleanupStaleTags | controllers/maasmachine_controller.go:763-839 | stale tags go from bare metal, never from an LXD VM |
| State.AddTagTo | pkg/maas/maintenance/common.go:84-93 | one tag call |
| State.RemoveTagFrom | pkg/maas/maintenance/common.go:96-105 | one untag call |
| ProviderIds.RoundTrip | pkg/maas/scope/machine.go:189-192 | printing and parsing back succeeds iff no newline stands in the zone or before the ID's last character; the other two parsers always succeed |
| ProviderIds.ParsersAgree | lxd-initializer/lxd-initializer.go:155-169 | the three parsers return the same ID on every text all of them accept |
| ProviderIds.ParseImpliesExtract | controllers/vmevacuation_controller.go:412-419 | VEC's extractor agrees with NewProviderID wherever that succeeds |
| ProviderIds.LastPart | pkg/util/machine.go:78-104 | the last part of a split is what follows the last slash |
| Tags.SanitizedIsNormalForm | pkg/maas/maintenance/tags.go:52-82 | every non-empty identifier becomes 1 to 63 characters of [a-z0-9-] without leading, trailing or doubled dash |
| Tags.SanitizeIdempotent | pkg/maas/maintenance/tags.go:54-82 | sanitizing twice is sanitizing once |
| Tags.SanitizeFixpoint | pkg/maas/maintenance/tags.go:54-82 | a well-formed token comes back unchanged |
| Tags.SanitizeKeepsLetters | pkg/maas/maintenance/tags.go:58-77 | only the cut at 63 loses letters or digits |
| Tags.SanitizeVersusNormalizeName | lxd-initializer/lxd-initializer.go:30-51 | the token is the normalized name, cut and right-trimmed, or "x" |
| Tags.ComputeSanitizeID | pkg/maas/maintenance/tags.go:54-82 | the loop with its dash flag computes that token |
| Tags.ComputeNormalizeName | lxd-initializer/lxd-initializer.go:30-51 | so does the initializer's loop for names |
| Tags.ParseOpTag | pkg/maas/maintenance/tags.go:42-50 | an operation ID is found iff some tag has a proper one, and that tag is there |
| Tags.FirstOpIdExactly | pkg/maas/maintenance/tags.go:42-50 | the ID found is that of the first tag with the prefix and more |
| Tags.TrimSpaceExactly | lxd-initializer/lxd-initializer.go:30-51 | white space goes off both ends and nothing else does |
| Tags.OpIdRoundTrip | pkg/maas/maintenance/tags.go:39-50 | with one operation on the host both readers give back the ID that was written |
| Tags.VmTagsAreNotDrainTags | pkg/maas/maintenance/tags.go:23-37 | no tag this provider puts on a VM is a drain tag |
| Tags.AddingOtherTags | controllers/vmevacuation_controller.go:345-363 | adding any other tag does not change whether a host drains |
| Release.LetGoExactly | controllers/maasmachine_controller.go:196-250 | (one call) the delete path drops the object's own finalizer iff the evacuation finalizer is gone and MAAS accepted the release, or no machine was found and the deletion is old enough |
| HmcSession.StartIdempotent | pkg/maas/maintenance/session.go:174-177 | (one call) a second start, for whatever host, changes nothing and returns the first session |
| HmcSession.CompleteIdempotent | pkg/maas/maintenance/session.go:195-212 | (one call) a second completion changes nothing |
| HmcSession.OtherKeysUntouched | pkg/maas/maintenance/session.go:111-165 | (one call) no session operation touches the other keys; the trigger survives completion |
| Handshake.SwapKeepsSpec | controllers/vmevacuation_controller.go:523-606 | (one call) the template the KCP is pointed to has the old template's spec; every old template stays as it was; maxSurge becomes 1 |
| Sessions.OpenSessionTagsItsHost | controllers/host_maintenance_controller.go:100-137 | (one call) with a session open, the ConfigMap reconcile puts the three drain tags of its operation on the host it names, whatever the trigger says, and touches no other machine |

## Left out

- Liveness: no statement says an evacuation finishes. `Stalling.StalledExactly` and `Wedge.WedgedForever` say when it cannot.
- Races inside one reconcile, and between host selection and composing; stale caches.
- More than one workload cluster in a namespace.
- Handshake.BetweenActions: an action none of whose session writes went through opens no session (`Handshake.ActionOpens` says exactly when), so the next action need not wait for it; `Stalling.UnsavedActsTwice` is an instance.
- Provenance.ReadyVmIsReplacement: says nothing about a VM whose tag calls failed; such a VM may carry the ready tag without the identity tags.
- Allocation.AtMostOneMachineEach: runs with a leak are shut out, and two MaasMachines may still name one machine; `Exclusivity.NoTwoShareAMachine` excludes that too, under the exact condition of `Exclusivity.MatchKeptExactly`.
- Selector.RankCandidates: stands for the library's sort.Slice and inserts candidate by candidate; which of several equally good hosts comes first is not modelled.
- Selector.ScoreOrder: scores are real numbers, without floating-point rounding.
- HostTags.EnsureHostMaintenanceTags: creating tag names in the MAAS inventory counts as calls that can fail and has no other effect.
- Provision.PrepareLxdVm: the failure domain written beside the IDs is not modelled; the cluster ID is part of a Machine's placement; that the code leaves it empty for workers is not modelled, only that workers are never tagged.
- Gates.ListHostVms: a machine whose details cannot be fetched is skipped, as in the code, so an empty read is not an empty host.
- HostMachines.TryRelease: the guest VMs that are force-deleted are an arbitrary set; unregistering an LXD host is an outcome, not an effect.
- Hmc.SaveTracking: affected clusters are a set, since the code lists them in map order.
- Tags.ComputeSanitizeID: lower-casing is exact for every character that becomes a letter a-z; other Unicode case mappings are left alone.
- Dns.Controllers.ReconcileStatus: of the status it takes over state, power and addresses; readiness, conditions and failure reasons are not modelled.
- Provision.DeployRecordedVm: the failure domain written beside the IDs is not modelled; later attempts use the zone the Machine asked for.
- Case-insensitive hostname comparison uses the same lower-casing.
- Nil dereferences where the code has them: a selected host without a zone, a providerID that cannot be parsed. The step then has no effect.
- Whether a host belongs to a host cluster, has an owner Machine, or a cluster is a workload cluster are outcomes of calls, not computed.
- JSON, RFC 3339 and number formats in the session ConfigMap, SHA-256 for cluster IDs, UUID generation.
- The MAAS and Kubernetes clients, credentials, events, conditions, watches, rate of requeueing, webhooks, API conversion.
- The LXD initializer apart from its name and providerID functions, its DaemonSet, sockets, networks, trust passwords.
- Failure-domain bookkeeping, power-on of stopped machines, boot-interface bridges, image names, bootstrap data.
- Users editing finalizers, annotations, IDs or session records by hand; the session's trigger keys can be edited.
