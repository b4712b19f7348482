# CyberRangeCZ sandbox service: a verified model

This project models the parts of the CyberRangeCZ platform whose correctness depends on interleavings, on
failures part-way, or on several functions agreeing with each other, and proves what they keep.

**Allocation and cleanup.** A sandbox is allocated by a chain of RQ jobs: stack, networking playbook, user
playbook, finalizing job; the user stage may also wait for a NetBird job. Cancellation, the worker exception
handler, restart and cleanup run while workers execute stages. `StageChain.dfy` is the transition system of one
chain: a stage execution is two steps, and its worker writes its own copy of the row back over whatever a cancel
stored. `RequestHandlers.dfy` is the imperative code over rows, job ids and RQ's job graph, proved to act on a chain
as that system says. `UnitLifecycle.dfy` adds the sandbox row, restart and both cleanups as events, `Requests.dfy` the
request functions, which act on rows and jobs and are proved to do what those events say, `RequestGroup.dfy` the
progress counters of a batch, and `PoolAccounting.dfy` the pool row and the two halves of the cleanup finalizer.

**NetBird.** Provisioning and teardown of VPN objects that refer to each other, over an API whose calls may fail,
while peers join through existing setup keys, time passes, and the sandbox row may vanish: `NetbirdCloud.dfy` (the
API), `NetbirdProvision.dfy`, `NetbirdTeardown.dfy`, `NetbirdTracking.dfy` (the account of what the rows record) and
`NetbirdSandbox.dfy`. `Names.dfy` holds the short stack names and the route-list columns.

**Topology.** `Cidr.dfy` and `Validators.dfy` say what the validators accept, `TopologyDefinition.dfy`,
`TopologyInstance.dfy` and `LinkQueries.dfy` model definitions, links and link indexes, `Routing.dfy` the routes of
the management node, `VisibleTopology.dfy` the view shown to users, and `DefinitionCache.dfy` the cached definitions.

Readings that matter:

- `find_image_for_node` documents that it returns None when there is no image; its code raises, and the model follows
  the code, so building the visible topology fails when an image is missing.
- `_destroy_*` and `_provision_*` catch every failure of a call; a failed creation is taken to have created nothing.
- In the `AGGRESSIVE` and `FRESH_IMPORT` modes `rev_sha` of a pool is the branch name, so the theorems about pinned
  commits speak about GitLab and GitHub in `FRESH` mode only.
- `CanHappen` of `UnitLifecycle` holds the guards of the handlers and nothing else. Saving a row that was deleted
  inserts it again, unless the request has another row for that stage by then: so a worker whose stage a restart
  recreated only reports to its batch (`DetachedEnds`), a worker whose stage a later cleanup job replaced does nothing,
  and the exception handler no longer finds their jobs. A finalizer that is queued by then still runs (`leftover`, and
  `strays` once the unit is deleted).
- Protected rows are not deleted: a sandbox with a lock, a unit with a sandbox, a pool with units or a lock. A restart
  of a locked sandbox therefore ends before it replaces anything, but after it has torn down the NetBird objects.
- A commit id can be hidden by a ref of the same name; `SelfNamed` says of one commit that it is not, and the theorems
  about pinned commits assume it of the pinned one after every push. `PinnedReadIff` and `PinnedChanges` say what
  happens otherwise.
- Entrypoint names are assumed distinct and the NetBird rows fresh; nothing in the service checks the former.

## Model

| member | source | states |
|---|---|---|
| UnitLifecycle.NoStageAfterAdmission | sandbox-service/crczp/sandbox_instance_app/lib/requests.py:75-155 | On every run, from the step that admits a plain or forced cleanup on, no allocation stage of the unit is deferred or queued or can start, whatever other cleanups, restarts and workers do |
| UnitLifecycle.ReadyMeansSucceeded | sandbox-service/crczp/sandbox_instance_app/lib/request_handlers.py:395-403 | In every reachable state, restarts and cancels included, a ready sandbox has three finished stages of which none failed |
| UnitLifecycle.StagesStartInOrder | sandbox-service/crczp/sandbox_instance_app/lib/request_handlers.py:102-138 | In every run a stage starts only after all stages before it succeeded, and the user stage only after its chain's NetBird job finished |
| UnitLifecycle.AcceptedRestart | sandbox-service/crczp/sandbox_instance_app/lib/request_handlers.py:342-380 | Whenever a restart gets past the lock and the guards, the failed stages are a suffix of the chain, exactly they are recreated, and the others stay as they are; only the first of them is queued, the NetBird job is enqueued again whichever stage failed first, the chain belongs to no batch any more, its finalizing job carries the new sandbox, and a worker that still executes a stage of the batch is detached from its row |
| UnitLifecycle.AdmittedIff | sandbox-service/crczp/sandbox_instance_app/lib/requests.py:115-146 | In every reachable state a plain cleanup is accepted exactly when all stage rows are finished, no cleanup request exists and no lock protects the sandbox |
| UnitLifecycle.ForceRefusedIff | sandbox-service/crczp/sandbox_instance_app/lib/requests.py:78-102 | In every reachable state a forced cleanup is refused exactly while the row of the stack stage is started, not finished and not failed, or a stage of another cleanup is unfinished |
| UnitLifecycle.StackStartedIff | sandbox-service/crczp/sandbox_instance_app/lib/stage_handlers.py:66-88 | In every reachable state that row is started, not finished and not failed exactly when a worker holds its job |
| UnitLifecycle.NoCleanupUnderStack | sandbox-service/crczp/sandbox_instance_app/lib/requests.py:92-142 | On every run, from the start of the stack stage until a worker ends it or the allocation is cancelled, no plain or forced cleanup is accepted |
| UnitLifecycle.ForceRefusedRun | sandbox-service/crczp/sandbox_instance_app/lib/requests.py:92-102 | From a new unit: its stages are created, the stack stage starts, and a forced cleanup is refused; as soon as the worker ends the stage, whatever the outcome, it is accepted |
| UnitLifecycle.RestartAcceptedIff | sandbox-service/crczp/sandbox_instance_app/lib/request_handlers.py:268-352 | In every reachable state a restart recreates stages exactly when there is a sandbox without a lock, all stages are finished and the user stage failed |
| UnitLifecycle.CancelRefusedIff | sandbox-service/crczp/sandbox_instance_app/lib/request_handlers.py:76-89 | In every reachable state a cancellation of the allocation is refused exactly when all its stages are finished |
| UnitLifecycle.DropRefusedIff | sandbox-service/crczp/sandbox_instance_app/lib/requests.py:171-182 | So is that of the cleanup; an existing cleanup request can be deleted exactly when it cannot be cancelled |
| UnitLifecycle.CancelAllocationRecords | sandbox-service/crczp/sandbox_instance_app/lib/stage_handlers.py:110-146 | A cancellation writes failed, finished and an end into exactly the unfinished rows, deletes their jobs and the finalizing job, leaves workers and the NetBird job running, and changes nothing else of the unit |
| UnitLifecycle.CancelCleanupRecords | sandbox-service/crczp/sandbox_instance_app/lib/stage_handlers.py:110-146 | The same for the cleanup request |
| UnitLifecycle.AllocationTerminates | sandbox-service/crczp/sandbox_instance_app/lib/request_handlers.py:511-535 | In every run without an accepted restart, cleanups and refused restarts in between, the worker steps and cancellations of the allocation number at most the rank of its chain |
| UnitLifecycle.AllocationBound | sandbox-service/crczp/sandbox_instance_app/lib/request_handlers.py:102-138 | From the creation of its stages an allocation takes at most eighteen worker steps and cancellations until a restart is accepted |
| UnitLifecycle.UnfinishedMeansWorkerStep | sandbox-service/crczp/sandbox_instance_app/lib/request_handlers.py:511-535 | No wedge: while a stage of a reachable unit is unfinished some worker can take a step |
| UnitLifecycle.EventInv | sandbox-service/crczp/sandbox_instance_app/lib/requests.py:75-183 | Every event a unit can take keeps the unit invariant: ready implies succeeded, admitted implies nothing unfinished, a worker whose row a restart deleted has not reported yet |
| UnitLifecycle.RefusedRestartLosesReadiness | sandbox-service/crczp/sandbox_instance_app/lib/request_handlers.py:268-350 | After a refused restart some run without an accepted one makes the sandbox ready before a cleanup exactly if the sandbox was locked and was ready or could still get ready: a lock keeps everything as it was, otherwise the sandbox has been replaced for good |
| UnitLifecycle.GetsReadyIff | sandbox-service/crczp/sandbox_instance_app/lib/request_handlers.py:395-403 | Without an accepted restart a sandbox gets ready on some run exactly if it is ready, or is the one of the present chain whose finalizing job is queued or whose stages are unfinished and unfailed |
| UnitLifecycle.RefusedRestartRecovers | sandbox-service/crczp/sandbox_instance_app/lib/request_handlers.py:268-350 | After a refused restart some run makes the sandbox ready without a cleanup exactly when the stages had not all succeeded, or the sandbox was locked and was ready or could still get ready |
| UnitLifecycle.LockedSandboxKept | sandbox-service/crczp/sandbox_instance_app/models.py:177-184 | A run from a new unit to a sandbox that is ready and locked, whose stages all succeeded: a restart is refused there and changes nothing |
| UnitLifecycle.DeletedSandboxComesBack | sandbox-service/crczp/sandbox_instance_app/lib/request_handlers.py:395-403 | A finalizing job queued at the admission can save the deleted sandbox again, as ready |
| UnitLifecycle.DeletedSandboxIff | sandbox-service/crczp/sandbox_instance_app/lib/requests.py:98-155 | The sandbox that an admitted cleanup deletes comes back on some later run exactly when the finalizing job of the allocation was queued at the admission |
| UnitLifecycle.CancelledButSucceeded | sandbox-service/crczp/sandbox_instance_app/lib/stage_handlers.py:66-88 | A cancel that meets a running user stage which then succeeds is lost: all stages succeeded, a restart is refused, the finalizing job is gone and the sandbox is not ready |
| UnitLifecycle.CancelLostIff | sandbox-service/crczp/sandbox_instance_app/lib/stage_handlers.py:66-146 | Some later run without an accepted restart leaves a cancelled allocation not failed and restartable exactly when the user stage was running at the cancel |
| Requests.AllocationUnit.CreateCleanupRequest | sandbox-service/crczp/sandbox_instance_app/lib/requests.py:115-155 | Accepted exactly when the event is enabled on the unit that the rows and jobs show, a lock included, and then all rows were finished, the sandbox is gone and a cleanup that spares the pool is enqueued, rows and jobs showing the unit after the event; refused, nothing changes, as running only when the first row was started and neither finished nor failed |
| Requests.AllocationUnit.PassForceGuards | sandbox-service/crczp/sandbox_instance_app/lib/requests.py:78-101 | Skipped exactly when a row of an existing cleanup request is unfinished; otherwise refused as running exactly when the first row is started and neither finished nor failed; passed exactly when the event is enabled; unless skipped the rows show the unit without its lock, also when the request is refused |
| Requests.AllocationUnit.CreateCleanupRequestForce | sandbox-service/crczp/sandbox_instance_app/lib/requests.py:75-112 | Refused exactly when the event is not enabled, as running exactly when the first row was started and neither finished nor failed, with at most the lock gone; past the guards the sandbox is gone and a cleanup with the caller's choice about the pool enqueued, rows and jobs showing the unit after the forced cleanup, or after a cancellation when stopping a running stage raised |
| Requests.AllocationUnit.CreateCleanupJobs | sandbox-service/crczp/sandbox_instance_app/lib/request_handlers.py:430-438 | The new rows and the job graph of the cleanup stages show the chain that the event creates |
| Requests.AllocationUnit.DeleteCleanupRequest | sandbox-service/crczp/sandbox_instance_app/lib/requests.py:176-182 | Refused exactly when the event is not enabled, that is, while a cleanup stage of the chain is unfinished |
| Requests.AllocationUnit.CreateRestartJobs | sandbox-service/crczp/sandbox_instance_app/lib/request_handlers.py:268-287 | Without effect exactly when there is no sandbox or a lock protects it; otherwise rows and jobs show the unit after the restart event, whose sandbox is replaced whether or not the guards accept; accepted exactly when the sandbox is unlocked and the chain finished with a failed user stage |
| Requests.AllocationUnit.LockSandbox | sandbox-service/crczp/sandbox_instance_app/lib/sandboxes.py:97-103 | Refused exactly when there is no sandbox or it has a lock; the rows show the unit after the event |
| Requests.AllocationUnit.MarkSandboxAsReady | sandbox-service/crczp/sandbox_instance_app/lib/request_handlers.py:395-403 | Rows and jobs show the unit after the event; saved exactly when the unit has no other sandbox by then |
| Requests.AllocationUnit.CreateAllocationJobs | sandbox-service/crczp/sandbox_instance_app/lib/request_handlers.py:227-260 | The new rows and the job graph show the chain of a new allocation |
| Requests.AllocationUnit.CancelAllocationRequest | sandbox-service/crczp/sandbox_instance_app/lib/requests.py:70-72 | Refused exactly when every stage of the chain is finished; rows and jobs then show the cancelled chain, whether or not RQ deletes dependents transitively |
| Requests.AllocationUnit.CancelCleanupRequest | sandbox-service/crczp/sandbox_instance_app/lib/requests.py:171-173 | The same for the cleanup chain |
| Requests.ReadyRows | sandbox-service/crczp/sandbox_instance_app/lib/request_handlers.py:395-403 | Whenever the sandbox row of a reachable unit says ready, its three stage rows are finished and none has failed |
| Requests.NoJobAfterAdmission | sandbox-service/crczp/sandbox_instance_app/lib/requests.py:75-155 | On every run after a cleanup was admitted RQ holds no queued or deferred job of an allocation stage |
| StageChain.StepInv | sandbox-service/crczp/sandbox_instance_app/lib/stage_handlers.py:66-146 | Every worker step keeps the chain invariant (a finished stage's job never waits, failures and waiting stages form suffixes) and lowers the rank |
| StageChain.CancelForm | sandbox-service/crczp/sandbox_instance_app/lib/request_handlers.py:76-89 | Cancelling in reverse order equals giving up every unfinished stage at once |
| StageChain.CancelInv | sandbox-service/crczp/sandbox_instance_app/lib/request_handlers.py:76-89 | Cancelling a chain keeps its invariant and finishes every stage |
| StageChain.HandlerCancelsOnlyUnstarted | sandbox-service/crczp/sandbox_instance_app/lib/request_handlers.py:511-535 | When the exception handler cancels, every stage it has to cancel has never started, so no stopping of a process can raise |
| StageChain.RestartRecreatesFailedSuffix | sandbox-service/crczp/sandbox_instance_app/lib/request_handlers.py:342-380 | Once all stages are finished and the last failed, the guards recreate exactly the failed stages, which are a suffix, although one guard re-reads a replaced row |
| StageChain.NoWedge | sandbox-service/crczp/sandbox_instance_app/lib/request_handlers.py:511-535 | An unfinished stage of a chain leaves some worker step enabled |
| StageChain.StepKeepsFinished | sandbox-service/crczp/sandbox_instance_app/lib/stage_handlers.py:66-88 | Worker steps never take a finished chain back, and change nothing once all stages succeeded |
| RequestHandlers.EnqueueRefines | sandbox-service/crczp/sandbox_instance_app/lib/request_handlers.py:102-138 | The rows and the job graph that the loop makes show the new chain: each new stage waits for the one before, the user stage also for the NetBird job, the finalizing job for the last; kept stages are untouched |
| RequestHandlers.RestartRefines | sandbox-service/crczp/sandbox_instance_app/lib/request_handlers.py:342-380 | Replacing the failed rows and enqueuing them again makes rows and jobs show the restarted chain |
| RequestHandlers.ShownHandlers | sandbox-service/crczp/sandbox_instance_app/lib/request_handlers.py:76-89 | What the chain invariant gives the handlers: nothing before a running stage is unfinished, and once all rows are finished the failed ones are a suffix |
| RequestHandlers.CancelActsOnChain | sandbox-service/crczp/sandbox_instance_app/lib/stage_handlers.py:110-146 | Cancelling rows and deleting jobs acts on the chain as specified, whether or not RQ deletes dependents transitively |
| RequestHandlers.BeginRefines | sandbox-service/crczp/sandbox_instance_app/lib/stage_handlers.py:66-73 | Starting a stage in rows and job graph is the chain's start step |
| RequestHandlers.EndRefines | sandbox-service/crczp/sandbox_instance_app/lib/stage_handlers.py:73-88 | Finishing it, with the write-back and RQ's promotion of deferred jobs, is the chain's finish step |
| RequestHandlers.HandleRefines | sandbox-service/crczp/sandbox_instance_app/lib/request_handlers.py:511-535 | The exception handler does to rows and jobs what it does to the chain, finished requests included |
| RequestHandlers.NetbirdRefines | sandbox-service/crczp/sandbox_instance_app/lib/request_handlers.py:214-225 | Start and end of the NetBird job, with the promotion of the user stage, are those of the chain |
| RequestHandlers.RunRefines | sandbox-service/crczp/sandbox_instance_app/lib/stage_handlers.py:66-146 | Every run of worker steps on the chain is a run on rows and jobs that ends showing the chain |
| RequestHandlers.StartedFromQueue | sandbox-service/crczp/sandbox_instance_app/lib/request_handlers.py:102-138 | A worker can start exactly the stage jobs that RQ holds as queued, and the NetBird job ends only once started |
| RequestHandlers.QueuedInOrder | sandbox-service/crczp/sandbox_instance_app/lib/request_handlers.py:102-138 | In the database a stage job is queued only behind finished, unfailed rows, that of the user stage only when the NetBird job has finished |
| RequestHandlers.RequestHandler.EnqueueRequest | sandbox-service/crczp/sandbox_instance_app/lib/request_handlers.py:102-138 | The loop leaves the database that EnqueueRefines relates to the new chain |
| RequestHandlers.RequestHandler.RestartStageHandlers | sandbox-service/crczp/sandbox_instance_app/lib/request_handlers.py:342-380 | Refused, without effect, unless all rows are finished and the last failed; accepted, the rows from the first failed one on are new and their jobs forgotten, as RestartRefines assumes |
| RequestHandlers.RequestHandler.CancelRequest | sandbox-service/crczp/sandbox_instance_app/lib/request_handlers.py:76-89 | Even if stopping a started stage raises and abandons the loop, the outcome is the complete cancellation |
| RequestGroup.GroupAccounting | sandbox-service/crczp/sandbox_instance_app/models.py:638-673 | Over every interleaving of a batch: failed is the number of executions of grouped or detached stages that ended in a failure, early or late, and finished that number plus the number of user playbooks that succeeded, which is the sum of the units' reports; one failure mail iff some execution failed, one summary iff as many reports as units; a unit reports twice exactly if a failure followed its success, else finished is at most the batch size |
| RequestGroup.GroupedInBatch | sandbox-service/crczp/sandbox_instance_app/lib/request_handlers.py:308-380 | In such an interleaving a unit starts with the creation of its stages, and these report to the group exactly if they were created for one and no restart of the unit was accepted |
| PoolAccounting.PoolConservation | sandbox-service/crczp/sandbox_instance_app/lib/request_handlers.py:487-508 | On every run from an empty pool the units are as many as the size, plus those that a finalizer has decremented but not deleted, plus what negative counts and second decrements took off; so the account balances exactly when there were none of these; the size stays within the limit; no pool row goes while a unit exists |
| PoolAccounting.CountedTwice | sandbox-service/crczp/sandbox_instance_app/lib/request_handlers.py:487-508 | A run from an empty pool without negative counts in which two units exist and the size is zero: a deletion is refused because the finalizing job of the allocation brought the sandbox back, and a second cleanup decrements again |
| PoolAccounting.CreationConserves | sandbox-service/crczp/sandbox_instance_app/lib/pools.py:175-203 | Creating sandboxes keeps the account exactly when the count is not negative; otherwise the account is off by that count |
| PoolAccounting.CreatedExactly | sandbox-service/crczp/sandbox_instance_app/lib/pools.py:188-203 | Creation adds exactly the units with the next numbers, each without stages, and leaves the others as they are; without a count it fills the pool up to its limit |
| PoolAccounting.FinalizersCountDown | sandbox-service/crczp/sandbox_instance_app/lib/request_handlers.py:487-508 | Without new units the finalizers of a run read the sizes below the initial one, counting down by one |
| PoolAccounting.ExactlyOneReadsZero | sandbox-service/crczp/sandbox_instance_app/lib/request_handlers.py:487-508 | When the size has come down to zero, exactly one finalizer has read zero |
| PoolAccounting.PoolDroppedIff | sandbox-service/crczp/sandbox_instance_app/lib/request_handlers.py:487-508 | A run without new units that deletes every unit, each decremented once by a finalizer asked to delete the pool, too, deletes the pool exactly if the unit decremented last is also the unit deleted last and no lock is on the pool then |
| PoolAccounting.PoolLeftBehind | sandbox-service/crczp/sandbox_instance_app/lib/request_handlers.py:487-508 | A run from an empty pool: two units are created and both cleaned up by force together with the pool; every unit goes and the pool stays |
| PoolAccounting.PoolSpared | sandbox-service/crczp/sandbox_instance_app/lib/requests.py:115-155 | A run from an empty pool without a forced cleanup that is to take the pool along, and without a deletion of the pool itself, leaves the pool, however many units are deleted |
| PoolAccounting.LockedPoolStays | sandbox-service/crczp/sandbox_instance_app/lib/request_handlers.py:487-508 | Until its lock is removed no run deletes a locked pool, whatever its finalizers were asked |
| PoolAccounting.FinalizersConserved | sandbox-service/crczp/sandbox_instance_app/lib/request_handlers.py:487-508 | On every run from an empty pool, for every unit: the finalizers that cleanups queued, with what they were asked about the pool, are those that have run and those still queued, also when another cleanup replaced the stages or the unit is gone |
| PoolAccounting.PoolDatabase.CreateSandboxes | sandbox-service/crczp/sandbox_instance_app/lib/pools.py:175-203 | Refused exactly when the size and the count add up to less than zero or more than the limit, so never without a count, which fills the pool to its limit; otherwise one unit per round and the size moved by the count |
| NetbirdProvision.ProvisionThenDestroy | sandbox-service/crczp/sandbox_instance_app/lib/netbird.py:268-617 | Teardown undoes provisioning: whatever creations failed, a teardown without failures within budget restores the cloud's objects exactly when no route creation failed after another route to the same group had been made; then no peer is left and no referenced or populated group was ever asked to be deleted |
| NetbirdProvision.Provision | sandbox-service/crczp/sandbox_instance_app/lib/netbird.py:268-415 | Without entrypoints and nameservers no call is made; otherwise, if the sandbox is still there, every entrypoint has its row in order, and every row that lacks its group, key, policy or one of its routes is paid for by a failed call, so that without failures nothing is lacking, the access group, key and nameserver group included; older objects stay; the rows account for every object but routes, and for all exactly when no route creation failed after another of the same group; if the sandbox vanished and no call failed, only objects of the one entrypoint in flight and a group these refer to are left |
| NetbirdProvision.ProvisionEntrypoint | sandbox-service/crczp/sandbox_instance_app/lib/netbird.py:163-212 | When it succeeds the row has a group, a key of it, exactly as many routes to it as the entrypoint has networks, and the policy from the access group; everything made belongs to the entrypoint's group and is recorded on its row, but for routes, of which some are unrecorded exactly if a route creation failed after one that was made; without the sandbox row no call is made |
| NetbirdProvision.TeardownProvisioned | sandbox-service/crczp/sandbox_instance_app/lib/netbird.py:215-244 | The end guard's teardown removes only what the given rows record, and without failures all of it |
| NetbirdTeardown.DeleteGroupPeers | sandbox-service/crczp/sandbox_instance_app/lib/netbird.py:418-436 | Only peers of that group go; without failures and in time, once no key of the group is left, the group ends without peers although others may join meanwhile |
| NetbirdTeardown.DestroyEntrypoint | sandbox-service/crczp/sandbox_instance_app/lib/netbird.py:439-490 | The row is deleted only after a deletion was attempted for every id on it; in a smooth teardown its objects are gone and the group is empty when it is deleted |
| NetbirdTeardown.DestroyAccess | sandbox-service/crczp/sandbox_instance_app/lib/netbird.py:493-544 | The same for the access row: nameserver group, key, peers, then the group |
| NetbirdTracking.EntrypointCleared | sandbox-service/crczp/sandbox_instance_app/lib/netbird.py:439-490 | Removing the objects of a row, its group only if nothing refers to it any more, keeps the account of the remaining rows and of the peers |
| NetbirdTracking.AccessCleared | sandbox-service/crczp/sandbox_instance_app/lib/netbird.py:493-544 | Once the entrypoint rows are done, removing the access objects settles the account |
| NetbirdSandbox.DestroySandbox | sandbox-service/crczp/sandbox_instance_app/lib/netbird.py:547-617 | At most one call starts after the deadline; a row is left only when the budget is exceeded, and one that is gone had every id attempted; only recorded objects go, unchanged ones stay; without failures in time everything goes and every group deletion was clean |
| Names.PadWidth | sandbox-service/crczp/sandbox_instance_app/models.py:86-134 | A number in a stack name has ten digits, or as many as it needs without a leading zero, and keeps its value |
| Names.ShortOfStackName | sandbox-service/crczp/sandbox_instance_app/lib/netbird.py:79-94 | Shortening a zero-padded stack name gives prefix, -p, plain pool id, -s, plain unit id, for all prefixes and ids |
| Names.ShortNamesInjective | sandbox-service/crczp/sandbox_instance_app/lib/netbird.py:79-94 | Equal short names have equal prefixes, pool ids and unit ids |
| Names.ShortIdempotent | sandbox-service/crczp/sandbox_instance_app/lib/netbird.py:79-94 | Shortening twice is shortening once, for every string |
| Names.ShortMatches | sandbox-service/crczp/sandbox_instance_app/lib/netbird.py:79-94 | On a name of the pattern the substitution strips exactly the leading zeros of both numbers |
| Names.ShortNoMatch | sandbox-service/crczp/sandbox_instance_app/lib/netbird.py:79-94 | A name with no such decomposition is left as it is |
| Names.RouteListRoundTrip | sandbox-service/crczp/sandbox_instance_app/models.py:621-635 | Joining then splitting returns the list exactly when all ids are non-empty and free of commas |
| Cidr.ContainsRange | libs/topology-definition/crczp/topology_definition/validators.py:128-140 | An address passes the netmask test exactly when it lies between the first and the last address of the network |
| Cidr.ContainsPrefix | libs/topology-definition/crczp/topology_definition/validators.py:128-140 | An address passes the test exactly when it agrees with the network in all bits of the prefix |
| Cidr.Sizes | libs/topology-definition/crczp/topology_definition/validators.py:117-140 | A network of prefix 32 is one address, each bit less doubles it, and prefix 0 is the whole space |
| Cidr.OverlapsIff | libs/topology-definition/crczp/topology_definition/validators.py:117-125 | The test on the ends of two networks holds exactly when some address lies in both |
| Validators.GetDuplicates | libs/topology-definition/crczp/topology_definition/validators.py:214-229 | Exactly the elements that occur at least twice |
| Validators.RaiseIfOverlaps | libs/topology-definition/crczp/topology_definition/validators.py:117-125 | Raises exactly if two entries of the dictionary by name overlap |
| Validators.OverlapCheckExact | libs/topology-definition/crczp/topology_definition/validators.py:117-125 | With distinct names that check accepts exactly when no address lies in two networks |
| Validators.RaiseIfNotInNetwork | libs/topology-definition/crczp/topology_definition/validators.py:128-140 | Accepts exactly when, per network, the last mapping that names it lies inside |
| Validators.MembershipCheckMisses | libs/topology-definition/crczp/topology_definition/validators.py:128-140 | An accepted list lies inside its networks exactly when the mappings shadowed by a later one do |
| Validators.OutsideMappingAccepted | libs/topology-definition/crczp/topology_definition/validators.py:128-140 | A list with a mapping outside its network that is accepted |
| Validators.RaiseIfIpNotUnique | libs/topology-definition/crczp/topology_definition/validators.py:143-157 | Accepts exactly pairwise distinct addresses |
| Validators.ValidateTopology | libs/topology-definition/crczp/topology_definition/validators.py:64-115 | Accepts exactly the definitions with distinct names, known mapping ends, disjoint networks, last mappings inside, distinct addresses |
| Validators.AcceptedIff | libs/topology-definition/crczp/topology_definition/validators.py:64-157 | What is accepted, on the columns of the definition: no two names equal, among hosts, routers, networks, the WAN and the definition; every mapping from a host or router to a network; no address in two networks or in one and the WAN; the last mapping to each network between its ends; no address mapped twice |
| TopologyModel.IndexFinds | libs/topology-definition/crczp/topology_definition/models.py:490-497 | An index finds exactly the names that occur, and under each the last item of that name |
| TopologyModel.TopologyDefinition.FindHostByName | libs/topology-definition/crczp/topology_definition/models.py:499-505 | Finds a host of that name exactly when the list has one, whether the index was stale or not |
| TopologyModel.TopologyDefinition.FindNetworkByName | libs/topology-definition/crczp/topology_definition/models.py:515-521 | The same for networks |
| TopologyModel.TopologyDefinition.AddHost | libs/topology-definition/crczp/topology_definition/models.py:523-528 | Appends the host and keeps the index honest |
| TopologyInstances.TopologyInstance.Build | libs/python-commons/crczp/cloud_commons/topology_instance.py:60-84 | Raises exactly on a mapping of an unknown name; otherwise every index entry is the scan of the links, in creation order |
| TopologyInstances.LinkCount | libs/python-commons/crczp/cloud_commons/topology_instance.py:391-452 | 2 + hosts + net mappings + 2 routers + router mappings links, numbered in creation order, with distinct names |
| TopologyInstances.LinkPositions | libs/python-commons/crczp/cloud_commons/topology_instance.py:391-452 | What the link with each number connects, and its address: the management node to both its networks, each host to the management network, the net mappings, each router to the management network and the WAN, the router mappings |
| TopologyInstances.EachLinkOnce | libs/python-commons/crczp/cloud_commons/topology_instance.py:79-84 | Every link is once in the list of its node and of its network, and in no other |
| TopologyInstances.LinkEnds | libs/python-commons/crczp/cloud_commons/topology_instance.py:79-84 | Every link ends at a known node and network, so the indexing loop never misses a key |
| TopologyInstances.TopologyInstance.GetNodeToNodesLinkPairs | libs/python-commons/crczp/cloud_commons/topology_instance.py:319-337 | The pairs found through the indexes are those found by scanning, for either filter given or not |
| TopologyInstances.PairsExact | libs/python-commons/crczp/cloud_commons/topology_instance.py:319-337 | These are exactly the pairs of a link of the node and a link of another node on the same network that the filters let through |
| TopologyInstances.ManPairs | libs/python-commons/crczp/cloud_commons/topology_instance.py:339-353 | Over the management network the management node is paired with each host, then each router, once |
| TopologyInstances.TopologyInstance.GetManLinkPairs | libs/python-commons/crczp/cloud_commons/topology_instance.py:339-353 | With distinct unreserved names the count check never raises |
| LinkQueries.AtUserNetwork | libs/python-commons/crczp/cloud_commons/topology_instance.py:240-253 | In an accepted topology a user network has exactly the links of its mappings, hosts' first |
| LinkQueries.AtRouter | libs/python-commons/crczp/cloud_commons/topology_instance.py:227-238 | A router has its management link, its WAN link, then those of its mappings, in order |
| LinkQueries.RouterWanLink | libs/python-commons/crczp/cloud_commons/topology_instance.py:255-268 | A router has exactly one link to the WAN, so looking it up never raises |
| LinkQueries.HostsOnNetwork | libs/python-commons/crczp/cloud_commons/topology_instance.py:240-253 | The filtered links of a user network correspond one by one to its mappings of those hosts |
| Routing.ManRoutingCorrect | sandbox-service/crczp/sandbox_ansible_app/lib/inventory.py:213-299 | In an accepted topology every address of a network with a router mapping matches one route per mapping of the router that comes first in the alphabet among those attached, all through the address of that router's one link to the WAN; exactly one route when no router is mapped to a network twice |
| Routing.NoStrayRoute | sandbox-service/crczp/sandbox_ansible_app/lib/inventory.py:259-270 | Every route is to a network with a router mapping, through the address of the one WAN link of the router that serves it |
| Routing.SandboxRouting.GetNetworkToRouterMapping | sandbox-service/crczp/sandbox_ansible_app/lib/inventory.py:284-299 | Exactly the mapped networks, each with the attached router that comes first in the alphabet: it begins every other's name, or has the smaller character where they first differ |
| Routing.SandboxRouting.SetSandboxRouting | sandbox-service/crczp/sandbox_ansible_app/lib/inventory.py:232-270 | The management node's routes are, per router, those of its mappings whose network it serves |
| Routing.LeIff | sandbox-service/crczp/sandbox_ansible_app/lib/inventory.py:292-296 | The comparison of strings used by the sort is the alphabetical order: a prefix, or the smaller character at the first difference |
| Routing.SortedReversed | sandbox-service/crczp/sandbox_ansible_app/lib/inventory.py:292-296 | The sorted mappings are the given ones, their routers in reverse alphabetical order |
| Routing.SortedStable | sandbox-service/crczp/sandbox_ansible_app/lib/inventory.py:292-296 | The mappings of one router keep their order in the sort |
| VisibleTopology.Topology.BuildTopology | sandbox-service/crczp/sandbox_instance_app/lib/topology.py:86-217 | Raises exactly when the image name of a shown router or host is that of no image; otherwise it displays, in the order of the definition, the routers not hidden, under each its linked networks that are neither hidden nor called wan, with their blocks, under each its linked hosts that are not hidden, with the mapped address, the access flag of the network, and the OS type and GUI of the first image of that name |
| VisibleTopology.FindImageIff | sandbox-service/crczp/sandbox_instance_app/lib/nodes.py:141-155 | An image is found exactly when one has that name, and it is the first one |
| VisibleTopology.Topology.GetVisibleNetworks | libs/python-commons/crczp/cloud_commons/topology_instance.py:207-223 | Exactly the WAN and the networks that are not hidden and are attached to a router that is not |
| VisibleTopology.Topology.GetVisibleHosts | libs/python-commons/crczp/cloud_commons/topology_instance.py:132-146 | Exactly the hosts that are not hidden and are linked to such a network |
| VisibleTopology.VisibleOnNetwork | sandbox-service/crczp/sandbox_instance_app/lib/topology.py:162-193 | On an attached network the filter by visible hosts lets through exactly the hosts that are not hidden |
| VisibleTopology.RouterShown | sandbox-service/crczp/sandbox_instance_app/lib/topology.py:120-150 | A router is shown exactly when it is not hidden |
| VisibleTopology.NetworkShown | sandbox-service/crczp/sandbox_instance_app/lib/topology.py:195-217 | Under it a network is shown exactly when it is linked, not hidden and not called wan |
| VisibleTopology.HostShown | sandbox-service/crczp/sandbox_instance_app/lib/topology.py:162-193 | Under that a host is shown exactly when it is linked and not hidden |
| DefinitionCache.ReadTransparent | sandbox-service/crczp/sandbox_definition_app/lib/definitions.py:113-144 | Keyed by commit, whatever pushes, evictions and other reads come between, a read returns the file of the commit its revision resolved to at its beginning, provided no push of the run puts a ref of that commit's name before it that points elsewhere |
| DefinitionCache.PinnedNeverChanges | sandbox-service/crczp/sandbox_definition_app/lib/definitions.py:113-144 | A pool pinned to a commit always gets that commit's file, on every run whose pushes leave the name of that commit its meaning |
| DefinitionCache.PinnedIff | sandbox-service/crczp/sandbox_definition_app/lib/definition_providers.py:103-113 | The name of a commit means that commit exactly when the first ref named like it, if any, points to it |
| DefinitionCache.PinnedReadIff | sandbox-service/crczp/sandbox_definition_app/lib/definitions.py:113-144 | A read of a pinned commit returns that commit's file exactly when the commit its name resolves to has the same file |
| DefinitionCache.PinnedHoldsIff | sandbox-service/crczp/sandbox_definition_app/lib/definitions.py:113-144 | After any pushes, the reads of a pinned commit on every run up to the next push return its own file exactly when the commit that its name then means has the same file, or none that loads |
| DefinitionCache.PinnedChanges | sandbox-service/crczp/sandbox_definition_app/lib/definition_providers.py:103-113 | A ref named like the pinned commit changes the pinned definition |
| DefinitionCache.RunTransparent | sandbox-service/crczp/sandbox_definition_app/lib/definitions.py:113-144 | Every interleaving that leaves the name of the commit its meaning keeps its cache entry and the reads of it in flight at its file |
| DefinitionCache.RunDated | sandbox-service/crczp/sandbox_definition_app/lib/definitions.py:113-144 | On every run, in every mode, what is cached or loaded is the file its key had at its version |
| DefinitionCache.NeverBehindIff | sandbox-service/crczp/sandbox_definition_app/lib/definitions.py:113-144 | Keyed by branch, no read on any later run returns a version before a given one exactly when neither the cache nor a read in flight holds one |
| DefinitionCache.VersionsAdvance | sandbox-service/crczp/sandbox_definition_app/lib/definitions.py:113-144 | Keyed by branch: what a read returns is the file the branch had at that version, and afterwards no read on any run returns an older version exactly when no read in flight has loaded one |
| DefinitionCache.SlowReadGoesBack | sandbox-service/crczp/sandbox_definition_app/lib/definitions.py:113-144 | Such a read: overlapping reads bring back a version from before a forced import |
| DefinitionCache.ReadSteps | sandbox-service/crczp/sandbox_definition_app/lib/definitions.py:113-144 | The steps of a read that nothing interrupts do what the whole read does |
| DefinitionCache.Definitions.GetDefinition | sandbox-service/crczp/sandbox_definition_app/lib/definitions.py:113-144 | Result and cache are those of one undisturbed read: a cached entry is returned unless the read is forced; otherwise exactly a file that loads and passes validation is returned and cached; an error leaves the cache as it was |
| DefinitionCache.Definitions.CreateDefinition | sandbox-service/crczp/sandbox_definition_app/lib/definitions.py:39-51 | A forced import sees the file its branch has now; keyed by commit it does when the name of the commit has its meaning; the result and the cache are those of one undisturbed read |
| DefinitionCache.Definitions.GetRevSha | sandbox-service/crczp/sandbox_definition_app/lib/definition_providers.py:103-193 | The commit of the first ref of that name, else the revision itself if it is a commit, else the error; in the branch-keyed modes the revision itself |

## Left out

- HTTP views, serializers, permissions, settings, mail texts: plumbing whose properties are easy next to these.
- Terraform, Docker, Kubernetes, SSH and Git calls: only success, failure and exception matter, as nondeterministic outcomes.
- Redis and RQ internals, worker crashes, database isolation below a transaction: each handler, job body and atomic block is one step, a stage execution and a cleanup finalizer are two.
- Stopping a process or container during a cancel: whether it raises is a parameter (`stubborn`).
- The NetBird job inside the chain: it catches every exception, so it only ever finishes.
- PoolAccounting.PoolDroppedIff: about runs in which no unit is decremented twice; CountedTwice shows one in which a unit is.
- Requests.AllocationUnit.CreateAllocationJobs: RQ's jobs are modelled per request, and each handler is one step; the NetBird teardown inside the request functions is that of `NetbirdSandbox`.
- DefinitionCache.PinnedNeverChanges: assumes that pushes leave the name of the pinned commit its meaning; PinnedChanges shows the failure otherwise.
- NetbirdProvision.Provision: entrypoint names distinct and rows fresh; the service checks neither.
- NetbirdCloud.Cloud: changes that other users of the NetBird account make at the same time are not modelled, nor the network ids and names that objects carry.
- Rows of the NetBird tables are passed to the teardown by value, so a row saved during a teardown is not seen by it.
- PoolAccounting.CreationConserves: the transaction that creates units and the row lock are one step.
- Requests.AllocationUnit.LockSandbox: who holds a lock is not modelled, nor how an unlocked sandbox is chosen for a trainee.
- Routing.SandboxRouting.SetSandboxRouting: the interfaces are keyed by MAC address, and router interfaces get the management node as default gateway; only the routes of the management node are modelled. Link addresses come from a map, as the cloud assigns them.
- VisibleTopology.Topology.BuildTopology: addresses are those of the mappings, so a router's WAN address is absent as in a topology that no cloud has enriched; the order of the hosts list before filtering does not matter and is not modelled.
- Names.ShortStackName: a trailing newline, which the pattern's end anchor would accept, and non-ASCII digits are not modelled.
- Cidr: text parsing of addresses and networks is not modelled; a network that parsed has no host bits set, and addresses are integers.
- Validators.ValidateTopology: name patterns, groups, volumes, monitoring targets and VPN settings are one-branch checks.
- DefinitionCache.VersionsAdvance: cache keys of other repositories and abbreviated commit ids are not modelled.
- Definitions are identified by the file they were loaded from: loading is a fixed function of the file, and whether it and the validation succeed is a parameter.
- `_get_free_ip_address`, quota arithmetic, flavour mapping, inventory groups and Ansible variables: easy next to the above.
