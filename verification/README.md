# Verification of makoon

Makoon creates and maintains MicroK8s clusters on a Proxmox host. HTTP callers record what they want
through `Operator` and send an event over a bounded channel; one background worker takes the events
one by one and drives the hypervisor and the nodes through workflows of many calls, any of which may
fail; both sides keep the same JSON store of clusters. This project models that three-way system and
proves what it keeps over every run, whatever fails and however the parties interleave. Two smaller
parts are modelled on their own: the store at the grain of single loads and saves by many threads,
and the choice of VM ids, names and addresses for new nodes.

How the parts fit together:

- `Model`, `Records`, `Picks`, `HostFile`: records of clusters and nodes, edits of node lists, sublists,
  hosts files as `tee -a` and `sed -i` change them.
- `Machine`: callers, outside world, worker loop and the steps inside an event as a transition
  system. A run is a sequence of steps (`Legal`), its final state is `Exec`. A step inside an event is
  enabled only on evidence that the worker has gathered while handling that event (what it read,
  listed, created, deleted, wrote), and the worker's trace records every call with its answer, to the
  hypervisor, to the nodes and to the repository. `Edits` says what each step does to the store without
  the functions that compute it.
- `Frames`, `QueueSafety`, `StatusInFlight`, `Masters`, `Requests`, `Orphans`, `TidyStore`, `Locks`,
  `Isolation`, `Ownership`, `HostsAgree`: properties of every run of the machine. `Strangers`: what a
  run can lead to when a request does not keep to the hypothesis of `Ownership`.
- `Outcomes`: the status that every event leaves, over every run.
- `World`: repository, channel and hypervisor as one object; each of its methods lets the other
  parties move and then takes one enabled step, whose outcome it draws freely.
- `Plan`: what a use case has to do as a list of tasks, and which traces carry such a plan out: all tasks
  in order, all of them successful, or up to the first that fails.
- `Retry`, `Common`, `CreateCluster`, `DeleteCluster`, `AddNode`, `DeleteNode`, `ChangeResources`,
  `Dispatcher`, `Worker`, `Operator`: the code in its own imperative form over `World`. That each method
  verifies means that the code takes enabled steps only, so every property of the machine's runs holds of
  it; its postconditions say that it carries out its plan. They are statements about the run itself:
  `World.At` and `World.Took` say which step was taken in which state, and the worker's state when an
  event ends has on record every call made for it (`Dispatcher.Ended`).
- `Trace`, `CreationFacts`, `AdditionFacts`, `DeletionFacts`, `RemovalFacts`, `Causes`: what the plans come
  to, said of the calls alone: which calls, of what, in which order, after which others. `EventFacts`
  brings this together for every event that has ended.
- `Success`: a creation can always go through if its ids are free. `WeakPoints`: runs in which the code
  goes wrong because it trusts its callers.
- `StableSort`, `Store`, `ConcurrentStore`: the JSON repository, used by one thread and by many.
- `Allocator`, `Decimal`, `Nodes`, `CreatorStore`: VM ids and the node generator of the creator page.

Hypotheses that the code does not establish are stated as conditions on the requests of a run:
`Requests.AllAskUniquely` (no node name twice in a cluster), `Locks.AllAskUnlocked` (creation requests
carry no locks), `Masters.RequestsHaveMasters`, `TidyStore.AllAskTidily` (in addition, the new nodes' VMs
are recorded for no other node, and no full name lies inside another node's hosts line), and `Ownership.AllAskFreely` (a new node's
id is neither recorded for another node nor in use by a VM of another name).

Two hypotheses are built into the machine's guards. `Machine.OutsideEnabled`: nobody outside creates a VM
under an id that a stored cluster has recorded; `Isolation.EventsAreIsolated` rests on it between a listing
and the use made of it, and so does `Ownership`. `Machine.EnvEnabled`: the operator is dropped
only when no request is under way, as its exclusive ownership in the code demands;
`QueueSafety.NothingSentAfterShutdown` rests on it.

## Model

| member | source | states |
|---|---|---|
| QueueSafety.QueueIsSafe | core/src/operator.rs:48-82 | in every reachable state: sent events = dispatched, then the one in hand, then queued, in order; at most 10 queued; an exited worker was told to shut down and leaves only events sent after its last empty probe |
| QueueSafety.NothingSentAfterShutdown | core/src/operator.rs:34-43 | once shutdown is requested no event enters the channel any more |
| StatusInFlight.StatusMatchesWork | core/src/dispatcher/dispatcher.rs:24-247 | in every reachable state Pending, Creating and Destroying have their event ahead or in hand; drained, every cluster is Sync or Error |
| Masters.LastMasterStays | core/src/dispatcher/usecase/delete_node_from_cluster.rs:24-40 | no step of anybody takes the last master from a record that stays stored |
| Masters.EveryClusterHasMaster | core/src/dispatcher/usecase/delete_node_from_cluster.rs:143-154 | if creation requests have a master, every stored cluster of every run has one and is never empty, although check and removal read different versions |
| Requests.EnvUnique | core/src/operator.rs:182-186 | a request keeps node names unique exactly if it brings in no name twice |
| Requests.NamesStayUnique | core/src/operator.rs:176-193 | over runs of such requests names stay unique through all worker steps |
| Orphans.DropNodeAccounted | core/src/dispatcher/usecase/delete_node_from_cluster.rs:49-57 | taking a node out of the record leaves no VM of makoon without a record |
| Orphans.DropClusterAccounted | core/src/dispatcher/usecase/delete_cluster.rs:21-25 | the same for a whole cluster, with callers adding nodes between listing and removal |
| Orphans.NoVmIsOrphaned | core/src/dispatcher/usecase/delete_node_from_cluster.rs:103-137 | in every reachable state every existing VM that makoon created matches id and name of a node of a stored cluster, if names are used once |
| WeakPoints.RemovalIsSafeIff | core/src/dispatcher/usecase/delete_node_from_cluster.rs:42-57 | removal by name orphans nothing if and only if none of the nodes so called has its VM |
| WeakPoints.EqualNamesOrphanAVm | core/src/operator.rs:182-186 | a reachable state with an orphaned VM: a cluster with two nodes of one name, created with success, and one deletion in which no call fails |
| WeakPoints.ChangeReachesAStranger | core/src/dispatcher/usecase/change_resources.rs:39-44 | a reachable state in which a resource change reconfigured a VM that makoon never made |
| Isolation.EventsAreIsolated | core/src/dispatcher/usecase/common.rs:228-248 | every worker step for an event of c other than a resource change leaves other clusters' records and logs alone, and changes only VMs with id and name of a node of c |
| Ownership.EnvOwnedIff | core/src/operator.rs:85-136 | if every VM under a recorded id is its node's, a request keeps it so if and only if the ids it records are free; no other step of callers or outsiders endangers it |
| Ownership.OwnedAlways | core/src/operator.rs:170-202 | over every run of requests that take free ids, no two nodes claim one VM and every VM under a recorded node's id carries the node's name |
| Ownership.ChangesHitOwnVm | core/src/dispatcher/usecase/change_resources.rs:39-47 | over every such run, every step of a resource change (configuration, shutdown, hard stop, start) leaves all VMs alone but the one named after the changed node |
| Strangers.ForeignIdCanBeHit | core/src/dispatcher/usecase/change_resources.rs:34-44 | in any run, right after a request that records an id under which a VM of another name exists, the run can go on to a resource change that alters that VM |
| Strangers.AskingFreelyIsNeeded | core/src/dispatcher/usecase/change_resources.rs:34-47 | in any run with every VM its node's so far, and with nodes told apart by names: after any request that records an id in use by another VM or recorded for another node, built or not, the run can go on to a resource change that alters a VM of another name |
| Locks.EveryLockHasReason | core/src/operator.rs:152-166 | in every reachable state a locked node is named by an event ahead or in hand, or its last event failed or was refused |
| Locks.ExcusesAreFailures | core/src/dispatcher/usecase/delete_node_from_cluster.rs:27-33 | the only events that leave a lock behind are those that ended in an error or refused to delete an only node |
| Locks.CleanRunsLeaveNoLocks | core/src/dispatcher/dispatcher.rs:100-121 | a run without failure or refusal drains to no locks |
| TidyStore.StaysTidy | core/src/operator.rs:85-136 | distinctness of names, of VMs and of hosts lines survives every step of every run of tidy requests |
| TidyStore.EnvTidyIff | core/src/operator.rs:85-136 | a request keeps a tidy store tidy if and only if its nodes' names are new, their VMs are recorded for no other node, and no full name lies inside another node's hosts line; no other step of callers or outsiders can make it untidy |
| HostFile.HostMapExact | core/src/dispatcher/usecase/create_cluster.rs:242-251 | with unique names the hash map of hosts holds exactly the (cluster-node, ip) pairs |
| HostFile.ExtendIsNoop | core/src/dispatcher/usecase/add_node_to_cluster.rs:124-135 | extending the map of all nodes by the map of the others changes nothing, also with repeated names |
| HostFile.ScrubIsExactIff | core/src/dispatcher/usecase/delete_node_from_cluster.rs:174-183 | deleting lines by substring removes exactly the departed node's line if and only if no other node's line contains its full name |
| HostFile.ScrubTakesLongerName | core/src/dispatcher/usecase/delete_node_from_cluster.rs:181-183 | the condition fails for generated names: master-1 takes the line of master-10 with it |
| HostsAgree.HostsFilesAgree | core/src/dispatcher/usecase/add_node_to_cluster.rs:79-143 | over every failure-free run of tidy requests, whenever drained, each live node's hosts entries are exactly the pairs of its cluster's present nodes |
| Frames.SnapKeptAlways | core/src/dispatcher/usecase/delete_cluster.rs:17-25 | the copy a workflow works from is never ahead of the store: same host, no node that the store has lost |
| Frames.EvidenceAlways | core/src/dispatcher/dispatcher.rs:25-49 | success is reported only with complete evidence, which is kept until the event ends |
| Retry.RetryWithOpts | core/src/dispatcher/utils.rs:12-38 | the first success among at most attempts + 1 calls, else the last error; delay × (calls − 1) seconds slept |
| Retry.Retry | core/src/dispatcher/utils.rs:4-10 | at most 31 calls and 300 seconds |
| Retry.SucceedsIff | core/src/dispatcher/utils.rs:12-38 | corollary: success if and only if one of the first attempts + 1 answers is one |
| Common.WaitForShutdown | core/src/dispatcher/usecase/common.rs:161-191 | true if and only if one of at most 31 polls saw Stopped (the last made); false if and only if 31 did not and the 31st saw Running; an error if and only if the 31st got no answer |
| Common.WaitForRunning | core/src/dispatcher/usecase/common.rs:198-212 | success if and only if one of at most 31 polls, the last made, saw Running |
| Common.WaitForStart | core/src/dispatcher/usecase/common.rs:193-226 | success only after a poll that saw Running and then a successful cloud-init check; at most 62 calls |
| Common.GetExistingVms | core/src/dispatcher/usecase/common.rs:228-248 | the nodes, in order, whose id and full name are in one listing |
| Common.StopVm | core/src/dispatcher/usecase/common.rs:250-267 | one graceful request; if it is granted, polls; if 31 of them did not see Stopped and the last saw Running, one hard stop and polls again; success if and only if Stopped was seen last |
| Common.CreateVm | core/src/dispatcher/usecase/common.rs:17-93 | the image first; then one creation of this node; then looks at its lock, 31 at most, and only after one found it free the disk resize; an error comes from the first of these that is refused or from 31 locked looks |
| Common.DownloadOsImage | core/src/dispatcher/usecase/common.rs:95-159 | a look at the storage; if the image is missing, a download and looks until it is there, 31 at most; then its details; each only after the one before succeeded |
| Common.RestartVmIfNecessary | core/src/dispatcher/usecase/common.rs:269-306 | the check on this VM; if and only if it answers that a reboot is required, a graceful stop, and only after Stopped was seen a start and the wait for it |
| Common.StartAndWait | core/src/dispatcher/usecase/common.rs:298-300 | one start, and if it is granted the wait; success if and only if both succeed |
| Common.SetupVm | core/src/dispatcher/usecase/common.rs:308-333 | iSCSI first; then every host of the map gets its line in the template and in the hosts file of this node, each host once, in whatever order the map is iterated, up to the first refusal; success means all of them |
| Common.JoinNodeToCluster | core/src/dispatcher/usecase/common.rs:397-452 | a token is asked of the master, and only with a usable one the node joins, as a worker if and only if it is one |
| Common.ExistingPicks | core/src/dispatcher/usecase/common.rs:228-248 | the listed nodes are those of the record whose id and full name the listing shows, in its order and each as often as there |
| Records.FindNodeFindsFirst | core/src/dispatcher/usecase/delete_node_from_cluster.rs:42-47 | the node looked up by name is the first one so called, or none exactly if there is none |
| Records.FindOtherMasterFindsFirst | core/src/dispatcher/usecase/delete_node_from_cluster.rs:35-40 | the other master is the first master of another name, or none exactly if there is none |
| Records.FindMasterFindsFirst | core/src/dispatcher/usecase/create_cluster.rs:56-61 | the master is the first one, or none exactly if there is none |
| CreateCluster.CreateUnusedVms | core/src/dispatcher/usecase/create_cluster.rs:301-311 | carries out the creations of the listed nodes one after the other, with the log entry after each, up to the first that fails; a node whose id is in use fails without a call; success ticks every node off as created |
| CreateCluster.CreateVms | core/src/dispatcher/usecase/create_cluster.rs:281-314 | a listing of the VMs, one of the containers, then the creations against the ids that both showed |
| CreateCluster.StartVms | core/src/dispatcher/usecase/create_cluster.rs:316-332 | one start per node, in order and up to the first refused, with the log entry after each |
| CreateCluster.SetupVms | core/src/dispatcher/usecase/create_cluster.rs:240-261 | every node in order is given every host of the record, up to the first refusal |
| CreateCluster.WaitForKubernetesOnAll | core/src/dispatcher/usecase/create_cluster.rs:201-209 | one readiness check per node, in order and up to the first refused |
| CreateCluster.JoinNodes | core/src/dispatcher/usecase/create_cluster.rs:168-191 | every node with another id than the first master's joins it, in order and up to the first failure; nothing for a single node; an error without a call if there is no master |
| CreateCluster.AddKubeconfig | core/src/dispatcher/usecase/create_cluster.rs:136-166 | after a note the master with the least id is asked for its configuration, and only if it answers the answer is stored; without a master there is no such call and an error; success means that the answer is in the stored record |
| CreateCluster.LeastMaster | core/src/dispatcher/usecase/create_cluster.rs:141-150 | a master with the least id, or none exactly if there is no master |
| CreateCluster.Execute | core/src/dispatcher/usecase/create_cluster.rs:14-48 | whatever happens, the calls carry out the plan of a creation (`CreationPlan`) for the record that was stored with its keys and for what the two listings showed, to its end if the result is `Ok`, else up to the first task that fails; success comes with the evidence |
| CreationFacts.EveryNodeFirst | core/src/dispatcher/usecase/create_cluster.rs:35-46 | in every run of that plan, ended or broken off: before any start every node was created and its disk grown; before any hosts file is touched every VM was started, seen running, logged in to and, if it required that, rebooted; before any installation every node had got every host in both files; before any readiness check every node was installed; before any join every node was ready |
| CreationFacts.CreationsInOrder | core/src/dispatcher/usecase/create_cluster.rs:281-314 | the creation calls are those of the first nodes of the record, all granted, and then at most that of the next node, refused; success means all nodes |
| CreationFacts.CreatesOnlyFree | core/src/dispatcher/usecase/create_cluster.rs:281-306 | no creation is asked for under an id that the listing of VMs or that of containers showed |
| CreationFacts.JoinsInOrder | core/src/dispatcher/usecase/create_cluster.rs:168-191 | the join calls are those of the nodes with another id than the first master's, each in its role, in order up to the first refused; success means all of them |
| CreationFacts.TokensFromMaster | core/src/dispatcher/usecase/create_cluster.rs:173-189 | every join token is asked of the first master |
| CreationFacts.FurnishedInOrder | core/src/dispatcher/usecase/create_cluster.rs:45-134 | addons dns and helm3, then every Helm app, then every cluster resource of the record, each once, in order and on the first master, up to the first refused; success means exactly all of them |
| CreationFacts.ConfigFirst | core/src/dispatcher/usecase/create_cluster.rs:136-166 | before the first addon the master with the least id gave its configuration, and the answer was stored |
| CreationFacts.EveryNodeJoinsOnce | core/src/dispatcher/usecase/create_cluster.rs:173-189 | with distinct ids a successful creation joined every node but the first master exactly once, with --worker if and only if it is a worker, and that master never |
| CreationFacts.OthersOnce | core/src/dispatcher/usecase/create_cluster.rs:180-189 | with distinct ids the nodes to join are each node with another id than the master's once and the others not at all |
| EventFacts.CreationsAreStaged | core/src/dispatcher/usecase/create_cluster.rs:35-46 | `EveryNodeFirst` of the calls on record for every creation that ended (`Dispatcher.Ended`), whatever its outcome, for every node of the record that it stored with its keys |
| EventFacts.CreationsGoInOrder | core/src/dispatcher/usecase/create_cluster.rs:281-314 | of each such creation: every creation call, granted or refused, is of one of the first nodes of the record in its place, granted, or of the next one, refused, and under an id that neither listing showed; so at most the next node's VM can exist in part |
| EventFacts.JoinsAreMeant | core/src/dispatcher/usecase/create_cluster.rs:168-191 | of each such creation: the join calls are as planned up to the first refused, with tokens from the first master |
| EventFacts.CreationsFurnish | core/src/dispatcher/usecase/create_cluster.rs:45-166 | of each such creation: the calls for addons, Helm apps and cluster resources are as planned up to the first refused, and all of them if it succeeded, each after the configuration was stored |
| Success.CreationCanSucceed | core/src/dispatcher/usecase/create_cluster.rs:14-48 | from every idle state, every requested cluster with a master and distinct ids that are free has a run whose last step ends its event with success (`Dispatcher.Ended`), after the whole plan was carried out; then the status is Sync, every node's VM is up, bears its name and knows all hosts, and all other VMs are kept |
| EventFacts.CreationsJoinOnce | core/src/dispatcher/usecase/create_cluster.rs:173-189 | and of a successful one with distinct ids: each node but the first master was asked to join exactly once, in its role and with success, and that master never |
| DeleteCluster.AwaitShutdown | core/src/dispatcher/usecase/delete_cluster.rs:45-62 | polls; if 31 of them did not see Stopped and the last saw Running, a warning, one hard stop and polls again, content with Running; an error if and only if the last poll of a round got no answer or the hard stop was refused |
| DeleteCluster.StopVms | core/src/dispatcher/usecase/delete_cluster.rs:29-64 | all requests, then all waits, in order and up to the first failure |
| DeleteCluster.DeleteVms | core/src/dispatcher/usecase/delete_cluster.rs:66-82 | the deletions in order up to the first failure; success ticks every listed node off |
| DeleteCluster.Execute | core/src/dispatcher/usecase/delete_cluster.rs:10-27 | the calls carry out the plan of a deletion for the record read and the listing, to its end or up to the first task that fails; the record goes last; on error it stays |
| DeletionFacts.DeletionIsDisciplined | core/src/dispatcher/usecase/delete_cluster.rs:10-82 | in every run of that plan: requests precede waits precede deletions; a VM is deleted only if the listing showed it as a node of the record, and only after a granted request and then a poll that saw Stopped or a hard stop; the record goes only after every VM shown was deleted |
| DeletionFacts.PollsAreBounded | core/src/dispatcher/usecase/delete_cluster.rs:45-62 | at most 62 polls of a node for each time the record lists it, however the deletion ends |
| EventFacts.DeletionsAreDisciplined | core/src/dispatcher/usecase/delete_cluster.rs:10-82 | both of the calls on record for every cluster deletion that ended, for the record and the listing that it read |
| AddNode.Introduce | core/src/dispatcher/usecase/add_node_to_cluster.rs:92-143 | the new node and then every other listed node are given all hosts, up to the first refusal |
| AddNode.Execute | core/src/dispatcher/usecase/add_node_to_cluster.rs:12-90 | the calls carry out the plan of an addition for the record read and the listing, to its end or up to the first task that fails; success comes with the evidence |
| AdditionFacts.NewNodeInOrder | core/src/dispatcher/usecase/add_node_to_cluster.rs:46-88 | in every run of that plan the new node goes through the stages of a creation in their order, and before it is installed it and every other listed node have got all hosts of the record |
| AdditionFacts.OnlyNewNode | core/src/dispatcher/usecase/add_node_to_cluster.rs:46-88 | it creates and joins this node and no other, each at most once; success means both |
| EventFacts.AdditionsGoInOrder | core/src/dispatcher/usecase/add_node_to_cluster.rs:30-88 | both of the calls on record for every addition that ended, for the node that the record read has first under the event's name |
| DeleteNode.RemoveVm | core/src/dispatcher/usecase/delete_node_from_cluster.rs:108-135 | request, wait with at most one hard stop, deletion, in this order and up to the first failure |
| DeleteNode.RemoveHostsFromRestOfNodes | core/src/dispatcher/usecase/delete_node_from_cluster.rs:156-186 | the record and a listing are read afresh, and every node that they show forgets the departed one, in order and up to the first refusal |
| DeleteNode.Execute | core/src/dispatcher/usecase/delete_node_from_cluster.rs:11-141 | the calls carry out the plan of a removal for the answers read on the way, to its end or up to the first task that fails; success without removal happens only for the only node |
| RemovalFacts.NotShownIsLeftAlone | core/src/dispatcher/usecase/delete_node_from_cluster.rs:49-57 | if the first listing does not show the node's id under the full name of a node of the record, the next call takes the node out of the record, and no call is about a VM but to make other nodes forget the name |
| RemovalFacts.ShownIsDrained | core/src/dispatcher/usecase/delete_node_from_cluster.rs:59-79 | if it does show it, the next call after a note drains the node, on the first master of another name |
| RemovalFacts.SecondListingDecides | core/src/dispatcher/usecase/delete_node_from_cluster.rs:103-137 | the second listing is read right after the detachment; the VM is shut down next if and only if it still shows the id under the node's name, else the node leaves the record and no VM is touched |
| RemovalFacts.RemovalIsDisciplined | core/src/dispatcher/usecase/delete_node_from_cluster.rs:59-137 | drain, leave, forget, request, wait, deletion, removal from the record and cleansing come in this order; none of the later ones before the first three were granted; only the departing node's VM is stopped or deleted, each deletion prepared |
| RemovalFacts.RemovalForgets | core/src/dispatcher/usecase/delete_node_from_cluster.rs:139-186 | a removal that succeeds ends with the node dropped, the record and a listing read afresh, and every node that they show made to forget the name in both files |
| EventFacts.RemovalsAreDecided | core/src/dispatcher/usecase/delete_node_from_cluster.rs:49-186 | all this of the calls on record for every removal that ended |
| ChangeResources.Execute | core/src/dispatcher/usecase/change_resources.rs:13-61 | the calls carry out the plan of a change for the record read, to its end or up to the first task that fails; on success the last step gave every node of the name in the stored record the new cores and memory and changed nothing else in any record |
| AdditionFacts.ChangesInOrder | core/src/dispatcher/usecase/change_resources.rs:34-58 | only the VM of the first node of the name is touched: configured with these numbers, then shut down and seen stopped, then started, and only then are the numbers stored |
| EventFacts.ChangesGoInOrder | core/src/dispatcher/usecase/change_resources.rs:30-58 | the same of the calls on record for every change that ended |
| Dispatcher.Dispatch | core/src/dispatcher/dispatcher.rs:24-236 | the last step of the run ends exactly this event with the outcome returned; the worker's state in which it was taken has on record the use case's calls, carried out to the end or to the first failure, and then the closing calls of that arm; on success it has the evidence |
| Dispatcher.CloseCreation | core/src/dispatcher/dispatcher.rs:37-49 | the status becomes Sync, then the log entry; the outcome is an error if and only if the status update, a step of the run, found no record |
| Dispatcher.Fail | core/src/dispatcher/dispatcher.rs:50-59 | the failing arm sets the status to Error in a step of the run, logs the reason if and only if that found the record, and always ends in that error |
| Dispatcher.CloseAddition | core/src/dispatcher/dispatcher.rs:100-121 | addition: log entry, then the lock is cleared, then, only if cluster and node were there, the status becomes Sync; success needs both |
| Dispatcher.CloseRemoval | core/src/dispatcher/dispatcher.rs:146-161 | removal: log entry, then the status becomes Sync; success if and only if that found the record |
| Dispatcher.CloseChange | core/src/dispatcher/dispatcher.rs:190-221 | resource change: log entry, then the status becomes Sync, then, only if the record was there, the lock is cleared; success exactly if the lock was cleared |
| Outcomes.OutcomesAreShown | core/src/dispatcher/dispatcher.rs:24-236 | over every run: an event whose use case failed ends only after a step for this event that set its cluster's status to Error, one that succeeded (but for a cluster's deletion) only after one that set Sync; right after that step a stored record has this status and is otherwise as before; only a creation may end because its first status update found no record |
| EventFacts.OutcomesAreVisible | core/src/dispatcher/dispatcher.rs:24-236 | the same of every event that ended by its use case: the status set is the verdict on it, and the trace says whether the record was found |
| EventFacts.EveryEventHasCourse | core/src/dispatcher/dispatcher.rs:24-236 | every event that ended did so by the calls of its use case and the closing calls of its arm, but for creations whose record was missing at the first status update, which end in an error |
| EventFacts.FailuresHaveCauses | core/src/dispatcher/dispatcher.rs:24-236 | every failed event has its cause: the last call of its use case was refused, found nothing, or was the last of 31 polls in vain; or all tasks before one were done that can fail without a call (no node to turn to, an id in use, an image without a file name); or the last closing call found nothing |
| EventFacts.NoKeysNoCalls | core/src/dispatcher/usecase/create_cluster.rs:23-33 | a creation that did not get to store its record with new keys has failed and has called on no node |
| Worker.FinishedEvents | core/src/operator.rs:55-69 | events finished and ending steps taken are the same in number in every run |
| Worker.RunWorker | core/src/operator.rs:55-81 | the run is extended by legal steps only; its ending steps are exactly the entries of the history, in order, and each ended its event in a state of the run that has on record all that was done for it (`Dispatcher.Ended`); each probe handles an event or naps; it stops early only when told to |
| World.World.TryReceive | core/src/operator.rs:58-70 | takes the first of the queued events, or naps exactly if the queue was empty |
| World.World.Nap | core/src/operator.rs:70-78 | after the nap the worker exits exactly if the flag is set |
| World.World.SetStatus | core/src/dispatcher/dispatcher.rs:238-247 | fails exactly if the record is missing, else stores the status |
| World.World.Unlock | core/src/dispatcher/dispatcher.rs:106-117 | fails exactly if cluster or node is missing, else the stored node has no lock |
| World.World.DropNode | core/src/dispatcher/usecase/delete_node_from_cluster.rs:143-154 | fails exactly if the cluster is missing; else the nodes of the name are gone from the record, all others are there in their order, and nothing else has changed |
| World.World.SaveResources | core/src/dispatcher/usecase/change_resources.rs:49-58 | fails exactly if the cluster is missing; else every node of the name has the new cores and memory, every other node and the rest of the record are as before |
| Edits.WorkIsDone | core/src/dispatcher/usecase/change_resources.rs:49-58 | what every step of the worker does to the store, said by fields and places: the one record it may change, what in it, and nothing else |
| Edits.RequestsAreMet | core/src/operator.rs:97-258 | the same of every request: the record as given; the node appended with its lock; the lock of the first node of the name, or of all; the status Destroying; nothing else |
| Edits.LogsWithoutPicks | core/src/repository_json.rs:92-98 | dropping a cluster drops exactly its log entries; the others stay in their order |
| Operator.CreateCluster | core/src/operator.rs:85-136 | refused exactly when the name is stored; otherwise a record with the request's host, name, key and nodes, pending, without configuration, its apps and resources differing in their ids only, is stored before its event is sent |
| Operator.ChangeNodeResources | core/src/operator.rs:138-168 | every node of the name is stored locked, and nothing else changed, before the event is sent; refused only if the cluster is missing |
| Operator.AddNodeCluster | core/src/operator.rs:170-202 | the node is stored, locked and last, and nothing else changed, before the event is sent; the locked node is returned |
| Operator.DeleteCluster | core/src/operator.rs:204-223 | the stored status is Destroying, and nothing else changed, before the event is sent |
| Operator.DeleteNodeFromCluster | core/src/operator.rs:225-261 | the first node of the name is stored locked, and nothing else changed, before the event is sent; it is returned with its lock; refused only if cluster or node is missing |
| Operator.Send | core/src/operator.rs:130-133 | the event becomes the last of at most ten queued |
| Operator.Drop | core/src/operator.rs:35-44 | raises the flag first; a join that returns finds the worker exited |
| StableSort.SortByIsStable | core/src/repository_json.rs:135 | an ordered permutation in which equal keys keep their order |
| StableSort.StableSortIsUnique | core/src/repository_json.rs:135 | there is only one such result |
| Store.JsonRepository.SaveCluster | core/src/repository_json.rs:101-126 | the file becomes the specified one, by the loop over the list |
| Store.JsonRepository.GetCluster | core/src/repository_json.rs:87-90 | the first stored cluster of the name, or none exactly if there is none |
| Store.JsonRepository.Logs | core/src/repository_json.rs:128-137 | a stable newest-first permutation of exactly the cluster's entries |
| Store.JsonRepository.DeleteCluster | core/src/repository_json.rs:92-99 | cluster and log entries retained by name |
| Store.SavedIsUpdate | core/src/repository_json.rs:101-126 | saving is an update of the map of names; an updated cluster keeps its place, a new one goes last |
| Store.DeleteIsRemoval | core/src/repository_json.rs:92-99 | exactly one cluster fewer if it was there, the map without it, the order of the others kept |
| Store.OtherLogsStay | core/src/repository_json.rs:139-149 | deleting clears exactly one cluster's entries |
| Store.NothingLost | core/src/repository_json.rs:87-90 | two stores with distinct names stand for the same ordered map if and only if they are equal |
| Store.StoreRefinesMap | core/src/repository_json.rs:83-149 | any sequence of operations on the lists is that sequence on a map that remembers insertion order, and names stay distinct |
| ConcurrentStore.NamesSurvive | core/src/repository_json.rs:53-81 | for every interleaving of single loads and saves the file and every copy in flight keep distinct names |
| ConcurrentStore.SomeOperationsInOrder | core/src/repository_json.rs:92-126 | every file that an interleaving produces is the sequential result of some of the completed operations, in the order of their saves |
| ConcurrentStore.NothingLostIffUndisturbed | core/src/repository_json.rs:53-81 | no update is lost if and only if nobody saved between another's load and save; then the result is that of all operations in order |
| ConcurrentStore.AnUpdateCanBeLost | core/src/repository_json.rs:101-126 | two simultaneous saves of new clusters can leave only the second |
| Allocator.FindEmptySlotForVmIds | core/src/generator.rs:104-118 | the least x = 100 + 10k below the limit with no used id in [x, x + 10], or an error exactly if there is none |
| Allocator.GetDefaultStartVmId | core/src/generator.rs:84-102 | the least free slot with respect to VMs and containers together, whatever order they are listed in; at most 100 + 20n; no error while 2n is below the number of slots |
| Allocator.AnswerBound | core/src/generator.rs:104-118 | pigeonhole: the result is at most 100 + 20n, and failure needs 2n ≥ 99,999,990 |
| Allocator.BoundIsTight | core/src/generator.rs:104-118 | for every n there are n ids that reach the bound, and enough of them make the search fail |
| Decimal.ReadPrint | web/src-web/src/utils/nodes.ts:47-48 | reading a printed whole number gives the number back |
| Decimal.SplitAtLast | web/src-web/src/utils/nodes.ts:35-40 | the split at the last dash or dot finds the tail again whatever precedes it |
| Nodes.StepsAddUp | web/src-web/src/utils/nodes.ts:34-50 | k steps from p-n at a.b.c.d give p-(n+k) at a.b.c.(d+k), id + k, the rest unchanged |
| Nodes.StepsAreDistinct | web/src-web/src/utils/nodes.ts:34-50 | no two of the stepped nodes share a name or an address |
| Nodes.FirstOfSorted | web/src-web/src/utils/nodes.ts:6-9 | sorting and then finding is picking the best wanted element |
| Nodes.SortedTwice | web/src-web/src/utils/nodes.ts:6-15 | the second in-place sort gives the same list as if the first had not happened |
| Nodes.GenerateNode | web/src-web/src/utils/nodes.ts:3-32 | the successor of the latest node of the type, else the first of the type relative to the lowest node, else the default |
| CreatorStore.ClusterCreatorStore.AddNode | web/src-web/src/store/cluster-creator-store.ts:104-106 | one node appended, the list otherwise as it was |
| CreatorStore.ClusterCreatorStore.UpdateNode | web/src-web/src/store/cluster-creator-store.ts:108-113 | replaces the first node with the id and no other |
| CreatorStore.ClusterCreatorStore.DeleteNode | web/src-web/src/store/cluster-creator-store.ts:115-117 | drops every node with the id; the others stay in their order |
| CreatorStore.ClusterCreatorStore.NodesOfType | web/src-web/src/store/cluster-creator-store.ts:190-197 | the nodes of one type, all of them, by ascending id, equal ids in the order of the list |
| CreatorStore.ClusterCreatorStore.AddNodes | web/src-web/src/store/cluster-creator-store.ts:104-106 | adding node after node leads to the list that the run of additions specifies |
| CreatorStore.AddOnlyLayout | web/src-web/src/utils/nodes.ts:3-32 | after any additions from one master at x the masters are exactly x, x+1, … and the workers exactly w, w+1, … with w = x + max(5, masters at the first worker), names numbered from 1 |
| CreatorStore.AddOnlyDistinctIff | web/src-web/src/utils/nodes.ts:19-31 | the ids of such a run are distinct if and only if there is no worker or the masters fit below w |
| CreatorStore.AddOnlyNamesDistinct | web/src-web/src/utils/nodes.ts:24-47 | names are distinct in every such run |
| CreatorStore.AllocatedIdsAreFree | core/src/dispatcher/usecase/create_cluster.rs:301-304 | from an allocated x, up to 5 masters and 6 workers get distinct ids in [x, x + 10], none of them used |

## Left out

- Atomic get and save: a `get_cluster` followed by `save_cluster` is one step of the machine. The store's
  lock does not give this; `ConcurrentStore` shows what happens without it.
- Repository failures: reading and writing the file always succeed; JSON encoding is not modelled.
- Worker.RunWorker: the loop is cut off after a given number of probes; the code's loop ends only when
  told to shut down.
- Operator.Send: gives up after a given number of looks at a full channel, and the request is then still
  waiting; the code blocks until there is room.
- Operator.Drop: gives up joining the worker after a given number of looks; the code waits without end.
- Answers of polls and probes are arbitrary and not tied to the modelled power state, so nothing rests on
  the hypervisor telling the truth about it; a series of polls is recorded in one step.
- Asynchronous hypervisor tasks: a call that returns `Ok` has taken effect; one that returns `Err` may or
  may not have.
- The outside world may destroy any VM, switch it on or off, and create VMs of its own under ids that no
  stored cluster has recorded; it never renames VMs, edits hosts files, or changes listings.
- A command over SSH reaches the VM under the node's id; addresses and routing are not modelled. Whether a
  command ran on a failed connection is left open.
- Hosts files are sets of entries: order, repeated lines and the file's other content are not modelled, and
  the template file gets the same edits without a state of its own. The `sed` pattern is taken literally,
  so a dot or a slash in a cluster's name is not treated as `sed` would.
- Messages of log entries and errors are shortened; dates, keys, tokens and fresh ids are arbitrary values.
- Connecting to a node is a call of its own only where a loop over apps or resources may be empty; elsewhere
  it is part of the command that follows. A pause of fixed length is not modelled but in `Retry`.
- The installation of one Helm app or one cluster resource is one call, which carries the app or resource;
  the files it writes on the node and their commands are not told apart.
- Key generation may fail; the trace then has a reading of the record as the last call of the use case.
- The record leaves out image, network, credentials and Kubernetes version, which the modelled steps only
  pass on.
- Helm applications and workloads: saving, updating and deleting them is one arbitrary edit of the two
  lists (`OpEditApps`); installing them outside a creation, status queries and log queries of the operator
  change nothing the machine tracks.
- Restart of the process: the queue is in memory only, so runs start from an empty queue and store.
- Integer widths: ids, cores and memory are unbounded naturals; no modelled step computes with them in the
  core, and the allocator stays below 2^32.
- Number literals of JavaScript other than optional minus and decimal digits (spaces, exponents, fractions,
  hexadecimal) read as NaN here, and numbers beyond 2^53 are exact.
- Allocator.GetDefaultStartVmId: the rest of the default configuration (storage, network, image) is lookups.
- CreatorStore.ClusterCreatorStore.UpdateNode: user edits of ids and names are covered as an operation, but
  the properties of runs are about additions only; after edits or deletions the code promises nothing.
- Web handlers, sessions, the HTTP and SSH clients, the Helm command builder and the views are not modelled.
