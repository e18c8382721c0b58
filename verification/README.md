# EdgeShard-v2, verified

A Dafny model of the parts of EdgeShard-v2 whose correctness no single function shows, with proofs for all
inputs and all runs. `dafny verify dfyconfig.toml` checks everything.

| modules | what they model |
|---|---|
| `Orders`, `Capability`, `Fingerprint` | string order and `sorted`; a Worker's capability and its canonical form; what its revision identifies |
| `Master`, `MasterHistory`, `MasterService` | the Master's registry, session and state maps: handlers and runs; what maps and snapshots show after any run; the same as objects updated in place |
| `ControlProtocol`, `AgentStops`, `AgentProgress`, `WorkerAgent` | any number of agents, a lossy network and a restarting Master; when an agent stops; what its round trips achieve; the agent's loops |
| `Decoder`, `Pipeline`, `Causality` | a decoder split into shards with per-block caches; shard objects and the local pipeline; step-by-step generation against one pass over all tokens |
| `ShardNetwork`, `RemotePipeline` | shard runtimes over a network that loses, delays, reorders, duplicates and misroutes; the remote driver |
| `Weights` | which checkpoint tensors a shard loads, and under which keys |
| `Leases`, `Ledger`, `ProfilingRunner`, `LeaseHolding` | the Worker's device leases, case ledger and RPC handlers, interleaved at their `await`s; who holds which device when |
| `ProfilingSystem`, `CaseReplies`, `StoredHistory` | Master and Workers together: run and cancel tasks, their calls, losses, restarts; one call end to end; when a stored case can still change |
| `SessionPlanning`, `Dispatching`, `Interleaving`, `ExperimentRun` | session ids from case content; planned cases at the Worker; concurrent writers of the store; dispatching a whole experiment |
| `TargetLocks` | the admin's (worker, device) locks |
| `Codec`, `ScalarUnions` | the type-directed JSON codec; exactly which unions of scalars round-trip |
| `Sampling` | adaptive warm-up and measurement loops |
| `Options` | the one `Option` type all modules share |

How things are modelled: an `await`-free piece of a handler or of the agent is one atomic step; runs are
sequences of states in which every step is one of those pieces, a loss, a delivery or a restart, in any
order. Blocks, norm and head of a model are arbitrary functions of the right shape; only the results about one pass
over all tokens (`Causality`) ask that blocks are causal. SHA-256, `json.dumps`
and fresh uuids are used only as injective or never-repeating. Clock readings, inspections, timer readings
and the answers of remote code are inputs.

Where the code does less than its comments or a natural reading say, the code is modelled and the difference is
proved: a run or an input that shows it, and the exact condition under which the property does hold.

- "History is never rewritten" fails at the Master. A cancellation that is still waiting for its reply rewrites a case
  that has meanwhile become COMPLETED to CANCELLED (`LateCancelHappens`, `LateCancelRewrites`). A run that had listed the
  case while it was undecided and then cannot prepare its session records FAILED over COMPLETED, with no call about the
  case awaited (`LatePrepareFailureRewrites`). A COMPLETED case can still be rewritten, by whatever comes next, if and
  only if some task waits for a run, cancel or fetch call about it or still lists it (`RewritableIff`). Once neither
  holds, its entry is the same in every later state, whatever is started afterwards (`SettledForEver`). Measurements
  always stay (`MeasurementsStay`).
- "A duplicate start does not fork a second dispatcher" holds for experiments with physical targets (`OneDispatcher`).
  For any other it holds until the table of runs forgets one that is unfinished (`TwoRunsOnlyIfForgotten`): by a
  cancellation, by the shutdown, or by the callback of an earlier run that comes after the next launch, and by nothing
  else (`TrackedIff`). Runs in which it then fails: `TwoUntargetedRuns`, `TwoRunsWithoutCancel`.
- An open session need not hold its devices (`OpenWithoutLease`). It holds all of them if and only if, since it acquired
  them, neither has a Close of it ended, finished or cancelled, nor has the shutdown released everything; both can
  happen while it is still being prepared. Otherwise it holds none (`OpenHoldsLeaseIff`, `StrippedExactlyBy`).
- A lease can be left when all is over: the thread of a cancelled Close goes on and may close a session that was
  prepared meanwhile (`LateMarkLeaks`). When all is quiet no lease is left if and only if every compute session's devices
  were released, and none is left if no Close was cancelled while its thread ran (`LeakFreeIff`).
- A refused lease acquisition restores the lease map if and only if the session held none of the devices that passed
  (`RefusedRestoresIff`, `RefusedDropsHeldLease`); the runner only acquires for sessions that hold nothing.
- An agent alone on its worker id can be stopped by its own delayed registration (`OwnLateRegistrationStops`). It is told
  STALE_SESSION if and only if a registration of its worker was taken since it got its session, with no Master restart
  after it (`StaleIffSuperseded`).
- A union of scalars round-trips if and only if no member takes a later member's payloads (`ScalarUnionIff`).
- An adaptive warm-up can converge if and only if its budget reaches over its windows (`CanConvergeIff`).

## Model

| member | source | states |
|---|---|---|
| `Orders.SortIgnoresOrder` | src/edgeshard/cluster/capability.py:208-232 | sorting by an injective key gives the same list exactly for the same multiset of items |
| `Capability.CanonicalValue` | src/edgeshard/cluster/capability.py:212-232 | the dict-filling recursion computes the canonical form |
| `Capability.CanonicalIffSimilar` | src/edgeshard/cluster/capability.py:195-232 | two values get one canonical form if and only if they are equal up to reordering the order-insensitive collections, at every depth |
| `Capability.RevisionIffSimilar` | src/edgeshard/cluster/capability.py:235-247 | two capabilities get one revision if and only if they are equal up to enumeration order, whatever revisions they carry |
| `Capability.SameRevisionSameIds` | src/edgeshard/cluster/capability.py:235-247 | equal revisions name the same devices and memory pools |
| `Fingerprint.RevisionIffSame` | src/edgeshard/cluster/capability.py:95-247 | two capabilities get one revision if and only if they agree in every field but the revision, up to the order of interfaces, devices, pools, platforms, addresses, dtypes and tags |
| `Fingerprint.PairsOffIsBag` | src/edgeshard/cluster/capability.py:208-232 | items pair off with similar partners exactly when both lists hold the same items as often |
| `Master.RegisterKeepsCoherence` | src/edgeshard/control/master/service.py:165-199 | registration keeps: same keys in all three maps, stored state refers only to the stored capability, stored revision fingerprints it |
| `Master.HeartbeatKeepsCoherence` | src/edgeshard/control/master/service.py:201-269 | a heartbeat, accepted or refused, keeps that coherence |
| `Master.UpdateKeepsCoherence` | src/edgeshard/control/master/service.py:271-312 | a capability update keeps that coherence |
| `Master.EveryRunCoherent` | src/edgeshard/control/master/service.py:165-312 | every state reachable by requests and restarts is coherent |
| `Master.RefusedChangesNothing` | src/edgeshard/control/master/service.py:201-312 | a rejected or invalid request changes no map |
| `Master.SessionEffect` | src/edgeshard/control/master/sessions.py:71-145 | a request leaves a worker's session alone, replaces it by a fresh one, or raises its accepted sequence |
| `Master.SupersededForEver` | src/edgeshard/control/master/sessions.py:71-130 | once a newer session opened, no request under an older one ever changes anything, through all later events |
| `Master.AcceptedSequencesIncrease` | src/edgeshard/control/master/sessions.py:86-145 | heartbeats accepted under one session, however far apart, carry strictly increasing sequences |
| `Master.SnapshotTotal` | src/edgeshard/control/master/snapshot.py:66-104 | on coherent maps the snapshot is built, with one faithful entry per registered worker in id order |
| `Master.SnapshotNeverRaises` | src/edgeshard/cluster/snapshot.py:47-71 | in every run building the snapshot succeeds |
| `MasterHistory.ConsistentIff` | src/edgeshard/cluster/snapshot.py:47-71 | a state is consistent exactly if every device and pool id it refers to is one of the capability |
| `MasterHistory.RegisterEffect` | src/edgeshard/control/master/service.py:165-199 | granted exactly if consistent in itself; then record, session and state of that worker are replaced, and nothing else changes |
| `MasterHistory.HeartbeatEffect` | src/edgeshard/control/master/service.py:201-269 | exactly when each refusal is given and when it is accepted; then state, receipt time and sequence are stored, and nothing else changes |
| `MasterHistory.UpdateEffect` | src/edgeshard/control/master/service.py:271-312 | exactly when each refusal is given and when it is accepted; then capability and state are replaced together, and identity, endpoint and session stay |
| `MasterHistory.MapsShowLast` | src/edgeshard/control/master/service.py:165-312 | after every run the Master knows exactly the workers registered since its last restart, with the state and receipt time of the last accepted request, the capability of the last accepted registration or update, and the rest of the last registration |
| `MasterHistory.SnapshotShowsLast` | src/edgeshard/control/master/snapshot.py:66-104 | after every run the snapshot has an entry for exactly these workers, and each entry shows exactly that |
| `MasterHistory.SnapshotRaisesIff` | src/edgeshard/control/master/snapshot.py:66-104 | on any maps: raises exactly if some record has no fitting state of its own or two records carry one id |
| `MasterService.WorkerRegistry.Upsert` | src/edgeshard/control/master/registry.py:64-82 | the record replaced or added under its worker id, all others unchanged |
| `MasterService.WorkerRegistry.ListWorkers` | src/edgeshard/control/master/registry.py:92-94 | all records, ordered by worker id |
| `MasterService.SessionManager.OpenSession` | src/edgeshard/control/master/sessions.py:71-80 | a session under an id never handed out before, with nothing accepted, replaces the worker's session |
| `MasterService.SessionManager.RecordAcceptedSequence` | src/edgeshard/control/master/sessions.py:132-145 | raises exactly on an unknown worker or a sequence that does not advance, and then changes nothing |
| `MasterService.StateStore.Record` | src/edgeshard/control/master/state_store.py:50-65 | stores the state under its own worker id only |
| `MasterService.Service.RegisterWorker` | src/edgeshard/control/master/service.py:165-199 | the in-place handler makes the registration step and keeps the maps coherent |
| `MasterService.Service.HeartbeatWorker` | src/edgeshard/control/master/service.py:201-269 | the in-place handler makes the heartbeat step and keeps the maps coherent |
| `MasterService.Service.UpdateCapability` | src/edgeshard/control/master/service.py:271-312 | the in-place handler makes the update step and keeps the maps coherent |
| `MasterService.Service.BuildClusterSnapshot` | src/edgeshard/control/master/service.py:155-161 | in every state the handlers leave, a snapshot with one faithful entry per worker |
| `ControlProtocol.RevisionIsFingerprint` | src/edgeshard/cluster/capability.py:235-247 | the real revision has all that the protocol needs of it |
| `ControlProtocol.EveryRunKeepsInv` | src/edgeshard/control/worker/master_client.py:245-405 | agents, requests, replies and Master agree in every run with any agents, losses, delays and restarts |
| `ControlProtocol.CurrentAgentInStep` | src/edgeshard/control/worker/master_client.py:344-375 | an agent whose session is current, with no call outstanding, has acknowledged exactly the stored revision and holds a next sequence above the last accepted one |
| `ControlProtocol.OnlyRecoverableRefusals` | src/edgeshard/control/worker/master_client.py:135-153 | the only refusals that ever reach an agent are UNKNOWN_WORKER and STALE_SESSION |
| `ControlProtocol.NoAgentEverFails` | src/edgeshard/control/worker/master_client.py:135-153 | no agent ever takes the fatal branch |
| `ControlProtocol.NoPingPong` | src/edgeshard/control/worker/master_client.py:255-296 | without transport failure or Master restart each agent registers at most once |
| `AgentStops.DisplacedIffSuperseded` | src/edgeshard/control/master/sessions.py:71-80 | in every run the Master holds another session than the agent claims exactly if a registration of its worker was taken since, with no restart after it |
| `AgentStops.StaleIffSuperseded` | src/edgeshard/control/master/sessions.py:86-130 | the agent's awaited heartbeat or update is answered STALE_SESSION exactly in that case |
| `AgentStops.StoppedOnlyIf` | src/edgeshard/control/worker/master_client.py:282-296 | an agent is stopped only because it was asked to or was superseded before |
| `AgentStops.OwnLateRegistrationStops` | src/edgeshard/control/worker/master_client.py:255-296 | for every agent, a run in which it is alone and its own delayed registration stops it |
| `AgentProgress.RegistrationGetsThrough` | src/edgeshard/control/worker/master_client.py:307-342 | from any reachable state, an undisturbed registration is granted: the agent serves the fresh session and the Master stores exactly its inspection |
| `AgentProgress.HeartbeatGetsThrough` | src/edgeshard/control/worker/master_client.py:344-375 | an inspection under the acknowledged revision is one accepted heartbeat: the Master shows its state, the sequence advances, nothing else changes |
| `AgentProgress.ChangeGetsThrough` | src/edgeshard/control/worker/master_client.py:377-405 | an inspection under another revision is retransmitted, accepted and acknowledged, and the heartbeat under the new revision follows |
| `AgentProgress.RefusalLeadsTo` | src/edgeshard/control/worker/master_client.py:135-153 | registering again, stopping or failing: exactly which refusal leads to which |
| `AgentProgress.LeavesOff` | src/edgeshard/control/worker/master_client.py:255-301 | a stopped agent is stopped, one that gives up its call is idle again, and what is lost never arrives |
| `WorkerAgent.RaiseForRejection` | src/edgeshard/control/worker/master_client.py:135-153 | each refusal leads to the one recovery the protocol model uses |
| `WorkerAgent.WorkerAgentObject.Register` | src/edgeshard/control/worker/master_client.py:307-342 | one request per call; ends registered with a fresh session, unreachable or failed, as the segments do |
| `WorkerAgent.WorkerAgentObject.UpdateCapability` | src/edgeshard/control/worker/master_client.py:377-405 | on acceptance the new revision is acknowledged and the heartbeat follows; otherwise the refusal's recovery |
| `WorkerAgent.WorkerAgentObject.HeartbeatLoop` | src/edgeshard/control/worker/master_client.py:344-375 | the loop sends exactly the requests of the protocol's segments and leaves the agent where they do |
| `WorkerAgent.WorkerAgentObject.Run` | src/edgeshard/control/worker/master_client.py:245-301 | for every script of inspections, replies, failures and stops, the nested loops send exactly what the segments send, and no session is left current |
| `Decoder.RunBlocksSplit` | src/edgeshard/inference/shard.py:210-216 | running a stack of blocks with its caches is running its first part and then the rest |
| `Decoder.ChainIsWhole` | src/edgeshard/inference/pipeline.py:127-208 | one step of any valid partition is one step of the unsplit model on the joined caches, and the stages stay in step |
| `Decoder.PipelineEqualsModel` | src/edgeshard/inference/pipeline.py:127-239 | for every valid partition, prompt and decode tokens the logits equal the unsplit model's, and all stages keep equal step and length |
| `Decoder.LastTokenIsLastOfFull` | src/edgeshard/inference/shard.py:225-236 | LAST_TOKEN logits are the last position of the FULL ones and leave the same session |
| `Causality.StackCausal` | src/edgeshard/inference/shard.py:192-216 | a stack of causal blocks is causal: a pass over two parts is the pass over the first and, on the caches it leaves, over the second |
| `Causality.IncrementalEqualsFull` | src/edgeshard/inference/pipeline.py:127-208 | for causal blocks, every partition and every sequence of steps: what a step answers is, at its own positions, the logits of one cache-free pass over all tokens at positions 0, 1, 2, ... |
| `Causality.IncrementalEqualsPrefill` | src/edgeshard/inference/shard.py:126-236 | a prompt and its decodes, at any partition, answer what one FULL prefill of all their tokens answers at any other |
| `Pipeline.ShardModule.CreateSession` | src/edgeshard/inference/shard.py:107-113 | refuses an existing id; otherwise adds an empty session and changes no other |
| `Pipeline.ShardModule.CloseSession` | src/edgeshard/inference/shard.py:115-119 | removes exactly this session, and says when there was none |
| `Pipeline.ShardModule.Step` | src/edgeshard/inference/shard.py:126-236 | prefill only at step 0, decode only after it, input by role; an error changes nothing |
| `Pipeline.ForwardMeans` | src/edgeshard/inference/shard.py:126-190 | exactly which call is accepted and which error each other one gets; an accepted one moves its session one step and as many positions as came in |
| `Pipeline.ChainSucceeds` | src/edgeshard/inference/pipeline.py:127-208 | on stages in step a chained call succeeds at every stage |
| `Pipeline.CallIsModelCall` | src/edgeshard/inference/pipeline.py:127-208 | a pipeline call after any history answers what the unsplit model answers, and touches no other session |
| `Causality.ModelLogitsAreReference` | src/edgeshard/inference/pipeline.py:127-208 | the unsplit model that calls and shard replies are compared with answers as the cache-free pass over all tokens |
| `Pipeline.ValidatePartition` | src/edgeshard/inference/pipeline.py:211-239 | accepts exactly the stage lists that reassemble one model |
| `Pipeline.AcceptedIffValid` | src/edgeshard/inference/pipeline.py:211-239 | what the check accepts of a model's shards is exactly the partitions the theorems are about |
| `Pipeline.AcceptedEqualsModel` | src/edgeshard/inference/pipeline.py:87-98 | for every accepted partition, prompt and decode tokens the logits equal the unsplit model's and the stages stay in step |
| `Pipeline.AssemblePipeline` | src/edgeshard/inference/pipeline.py:87-98 | a pipeline is built exactly for the valid partitions |
| `Pipeline.LocalPipeline.CreateSession` | src/edgeshard/inference/pipeline.py:111-121 | opens the session on every stage, or, if one refuses, on none |
| `Pipeline.LocalPipeline.Forward` | src/edgeshard/inference/pipeline.py:127-208 | the stage loop leaves every stage and the answer as one chained call does |
| `ShardNetwork.ExecuteMeans` | src/edgeshard/protocol/domain.py:122-173 | a stage executes a message only at its session's next step, routed to it under its execution id, and then advances once; a refusal changes nothing |
| `ShardNetwork.ExecutedIff` | src/edgeshard/protocol/domain.py:122-173 | executed are exactly the well-formed calls, header field by header field, for the next step of an open session |
| `ShardNetwork.RefusedDeservedly` | src/edgeshard/protocol/domain.py:122-173 | every refusal names something that is wrong with the message |
| `ShardNetwork.EmittedMeans` | src/edgeshard/runtime/shard_server.py:98-187 | what is sent on keeps execution, session, phase, step and mode, and is addressed to the next stage or the Master |
| `ShardNetwork.ForwardedIsExecuted` | src/edgeshard/runtime/shard_server.py:98-187 | what a stage sends on is executed by the next stage whenever that stands at the same step |
| `ShardNetwork.OpenCloseMean` | src/edgeshard/runtime/shard_server.py:76-90 | opening adds a new session unless there is one, closing removes it, and nothing else changes |
| `ShardNetwork.ShardRuntimeHandler.OpenHere` | src/edgeshard/runtime/shard_server.py:76-79 | a new session is open here before the downstream call; a wrong execution id or a known session changes nothing |
| `ShardNetwork.ShardRuntimeHandler.DownstreamReturned` | src/edgeshard/runtime/shard_server.py:79-84 | if the downstream call failed the session is gone here, whatever happened meanwhile, and no other is touched |
| `ShardNetwork.ShardRuntimeHandler.Handle` | src/edgeshard/runtime/shard_server.py:98-187 | the in-place handler makes the execution step, up to its forwarding call |
| `ShardNetwork.ChainAt` | src/edgeshard/inference/pipeline.py:127-208 | a chained step seen from one stage is that stage advancing on what enters it |
| `ShardNetwork.EveryRunKeepsInv` | src/edgeshard/runtime/shard_server.py:98-187 | under every network behaviour each stage holds the state of exactly the steps it executed of stage 0's token history |
| `ShardNetwork.StagesExecutePrefixes` | src/edgeshard/runtime/shard_server.py:98-187 | stage k+1 executed a prefix of what stage k sent, steps 0, 1, 2, ... each once, none skipped |
| `ShardNetwork.LogsOnlyGrow` | src/edgeshard/inference/shard.py:215-216 | no step rewrites what a stage has executed |
| `ShardNetwork.RepliesAreModelLogits` | src/edgeshard/runtime/shard_server.py:139-165 | every reply for step j is the unsplit model's answer to the tokens stage 0 executed at steps 0 .. j |
| `ShardNetwork.OpenStagesReplayHistory` | src/edgeshard/inference/shard.py:192-216 | an open stage's cache is that of the history prefix it executed |
| `RemotePipeline.Driver.SendPrefill` | src/edgeshard/control/mock/client.py:89-117 | a non-empty prompt goes out as step 0; the empty one is refused |
| `RemotePipeline.Driver.SendDecode` | src/edgeshard/control/mock/client.py:121-133 | one token goes out at the clock's step; refused before prefill |
| `RemotePipeline.Driver.Replied` | src/edgeshard/control/mock/client.py:117-136 | the reply sets or advances this session's clock only |
| `RemotePipeline.EveryDriveKeepsInv` | src/edgeshard/control/mock/client.py:89-136 | the answered calls are the first inputs stage 0 executed, and it is at most one ahead, whatever fails |
| `RemotePipeline.ClockBracketsStages` | src/edgeshard/control/mock/client.py:89-136 | clock <= last stage <= ... <= stage 0 <= clock + 1, always |
| `RemotePipeline.AnswersAreModelLogits` | src/edgeshard/control/mock/client.py:89-136 | each answer is the unsplit model's for exactly the calls answered so far plus this one; past length counts their tokens |
| `RemotePipeline.SentMeans` | src/edgeshard/control/mock/client.py:89-136 | a call carries the given tokens under the given mode, for the step of the clock |
| `RemotePipeline.SentIsExecuted` | src/edgeshard/control/mock/client.py:89-136 | what the driver sends is executed at stage 0 whenever that stands at the step of the clock |
| `RemotePipeline.CallCompletes` | src/edgeshard/runtime/shard_server.py:98-187 | from every reachable state in which all stages stand where the clock stands, an undisturbed call goes through all stages and is answered |
| `RemotePipeline.GenerationCompletes` | src/edgeshard/control/mock/client.py:89-136 | for every deployment, prompt and decode tokens there is a run in which the session is opened and all calls are answered, in order |
| `Weights.BlocksPrefixFree` | src/edgeshard/model/layout.py:73-77 | no tensor name is under two block prefixes, whatever text follows the index |
| `Weights.BlockKeys` | src/edgeshard/model/weights/safetensors.py:117-129 | global block g loads under index g - start, and the key leads back to the tensor |
| `Weights.SelectedLeadsBack` | src/edgeshard/model/weights/safetensors.py:117-146 | every selected tensor gets keys, no key twice, and each key determines the tensor |
| `Weights.KeysNeverCollide` | src/edgeshard/model/weights/safetensors.py:117-146 | no two selected tensors share a key, tied embeddings included |
| `Weights.ExactlyOneShard` | src/edgeshard/model/weights/safetensors.py:79-114 | for every valid partition each block tensor is selected by one shard and no other |
| `Weights.StandardLayoutOk` | src/edgeshard/model/adapters/base.py:136-139 | the standard prefixes do not overlap |
| `Weights.SelectShardTensors` | src/edgeshard/model/weights/safetensors.py:79-114 | selects exactly the shard's tensors; fails exactly out of bounds or on a component without tensors |
| `Weights.AssembleState` | src/edgeshard/model/weights/safetensors.py:165-182 | every tensor ends up under all its keys, nothing is overwritten and nothing else is there |
| `Weights.KeepLayerRange` | src/edgeshard/model/adapters/base.py:30-39 | skeleton layer i is global layer start + i; refuses a range that does not fit |
| `Leases.AcquireEffect` | src/edgeshard/control/worker/profiling_leases.py:126-165 | all devices or none, exactly when all are reservable, and never another session's device |
| `Leases.BusyIsFirst` | src/edgeshard/control/worker/profiling_leases.py:126-165 | a refused acquire names the first requested device that cannot be reserved |
| `Leases.RefusedRestoresIff` | src/edgeshard/control/worker/profiling_leases.py:146-155 | a refused acquire restores the map if and only if the session held none of the devices that passed |
| `Leases.DeviceLeaseManager.CheckDevice` | src/edgeshard/control/worker/profiling_leases.py:199-253 | passes exactly the reservable devices |
| `Leases.ReportedIsLast` | src/edgeshard/control/worker/profiling_leases.py:126-193 | a device counts as its last report says, and as unreported only if no report names it |
| `Leases.AvailableIsLast` | src/edgeshard/control/worker/profiling_leases.py:126-193 | a pool has the bytes its last report says |
| `Leases.ReservableIff` | src/edgeshard/control/worker/profiling_leases.py:126-193 | reservable is exactly what is last reported available, idle, within the utilization floor and with enough memory in every known pool, and not leased to another session |
| `Leases.DeviceLeaseManager.Reserve` | src/edgeshard/control/worker/profiling_leases.py:126-165 | the loop with its rollback makes the acquire step |
| `Leases.DeviceLeaseManager.ReleaseSession` | src/edgeshard/control/worker/profiling_leases.py:167-185 | releases all and only the session's devices |
| `Leases.DeviceLeaseManager.ReleaseAll` | src/edgeshard/control/worker/profiling_leases.py:187-193 | releases everything and says what |
| `Ledger.MarkGrows` | src/edgeshard/control/worker/profiling_sessions.py:326-335 | starting a case rewrites no decision and no closed session |
| `Ledger.DecideGrows` | src/edgeshard/control/worker/profiling_sessions.py:337-358 | deciding a case rewrites no decision and attaches a fitting outcome |
| `Ledger.CancelGrows` | src/edgeshard/control/worker/profiling_sessions.py:360-387 | cancelling rewrites no decision |
| `Ledger.MarkMeans` | src/edgeshard/control/worker/profiling_sessions.py:326-335 | marks exactly what is undecided in an open session, and changes that entry only |
| `Ledger.DecideMeans` | src/edgeshard/control/worker/profiling_sessions.py:337-358 | decides exactly what is undecided in an open session, with the state and outcome given |
| `Ledger.CancelMeans` | src/edgeshard/control/worker/profiling_sessions.py:360-387 | cancels exactly what is undecided in an open session and otherwise answers the decision that stands |
| `Ledger.CreateMeans` | src/edgeshard/control/worker/profiling_sessions.py:217-261 | a new session is open and empty; an existing one is left alone |
| `Ledger.CloseMeans` | src/edgeshard/control/worker/profiling_sessions.py:278-300 | closing changes exactly the closed mark, and says whether it did |
| `Ledger.ProfilingSessionManager.CreateSession` | src/edgeshard/control/worker/profiling_sessions.py:217-261 | a new id gets an open, empty record; a known one is an error and changes nothing |
| `Ledger.ProfilingSessionManager.CloseSession` | src/edgeshard/control/worker/profiling_sessions.py:278-300 | closes once; says whether this call did |
| `Ledger.ProfilingSessionManager.Start` | src/edgeshard/control/worker/profiling_sessions.py:326-335 | RUNNING, unless the session is not open or the case decided |
| `Ledger.ProfilingSessionManager.DecideCase` | src/edgeshard/control/worker/profiling_sessions.py:337-358 | terminal with its outcome, unless the session is not open or the case decided |
| `Ledger.ProfilingSessionManager.CancelCase` | src/edgeshard/control/worker/profiling_sessions.py:360-387 | CANCELLED with a failure, or the decision already there |
| `ProfilingRunner.NextKeepsInv` | src/edgeshard/control/worker/profiling_runner.py:480-766 | every handler segment keeps the runner's invariant and never rewrites the ledger |
| `ProfilingRunner.BenchmarksStartOnce` | src/edgeshard/control/worker/profiling_runner.py:697-731 | a benchmark starts at most once per session and case, in every interleaving |
| `ProfilingRunner.LedgerNeverRewritten` | src/edgeshard/control/worker/profiling_sessions.py:326-387 | a decided case keeps its entry, a closed session its record, for the rest of every run |
| `ProfilingRunner.EndRunEffect` | src/edgeshard/control/worker/profiling_runner.py:749-766 | a finished run answers the ledger's decision, its own or the cancellation that won, and raises exactly when the session was closed |
| `ProfilingRunner.AnswersAreTheLedger` | src/edgeshard/control/worker/profiling_runner.py:672-766 | every outcome an accepted Run or Get answered is the ledger's, then and ever after, so all answers agree |
| `ProfilingRunner.NoLeaseLeaks` | src/edgeshard/control/worker/profiling_runner.py:1228-1280 | a leased device belongs to a session being prepared, open or closed by a Close that is, or whose thread is, still in flight; none is left when all that is over |
| `ProfilingRunner.RefusedPrepareRestoresLeases` | src/edgeshard/control/worker/profiling_runner.py:530-536 | the runner acquires only for a session that holds nothing, so a refusal changes no lease |
| `ProfilingRunner.BenchmarksExclusive` | src/edgeshard/control/worker/profiling_runner.py:710-731 | benchmarks of two sessions share a device only if a Close or the shutdown reached one of them |
| `ProfilingRunner.ClosedMidRunStaysRunning` | src/edgeshard/control/worker/profiling_sessions.py:349-349 | closing during a run leaves the case RUNNING for ever |
| `ProfilingRunner.OpenWithoutLease` | src/edgeshard/control/worker/profiling_runner.py:1240-1248 | a concrete run to an open session without its lease |
| `LeaseHolding.OpenHoldsLeaseIff` | src/edgeshard/control/worker/profiling_runner.py:1228-1280 | in every run a compute session holds all its devices if and only if nothing released them since it acquired them, and none otherwise |
| `LeaseHolding.StrippedExactlyBy` | src/edgeshard/control/worker/profiling_runner.py:1244-1277 | only the end of a Close for the session and the shutdown's final release take its devices, also during its prepare |
| `LeaseHolding.LeakFreeIff` | src/edgeshard/control/worker/profiling_runner.py:1228-1249 | with nothing being prepared, every session closed and no Close handler left, no lease is left if and only if every compute session's devices were released; any other belongs to a session closed by a thread that outlived its Close |
| `LeaseHolding.LateMarkLeaks` | src/edgeshard/control/worker/profiling_runner.py:1240-1248 | a concrete run in which such a thread leaves a device leased |
| `LeaseHolding.RefusedDropsHeldLease` | src/edgeshard/control/worker/profiling_leases.py:146-155 | a refused acquire that drops a lease the session held |
| `ProfilingRunner.Runner.StartRun` | src/edgeshard/control/worker/profiling_runner.py:672-731 | the in-place handler makes the run's first step |
| `ProfilingRunner.RunAnsweredIff` | src/edgeshard/control/worker/profiling_runner.py:672-735 | exactly when a Run is started, replayed, refused for each reason or an error; operator cases run in operator sessions only, other model cases in model sessions only, network cases in network sessions only |
| `ProfilingRunner.StartedWrites` | src/edgeshard/control/worker/profiling_runner.py:735-736 | a started Run marks its case RUNNING and changes nothing else; any other answer changes nothing |
| `Dispatching.PlannedFits` | src/edgeshard/control/master/profiling_controller.py:278-369 | every case of a plan is of the kind its session accepts and asks for exactly its devices |
| `Dispatching.NeverKindMismatch` | src/edgeshard/control/worker/profiling_runner.py:1482-1517 | in every run of a Worker, no planned case is refused for its kind |
| `Dispatching.PlannedStartsIff` | src/edgeshard/control/worker/profiling_runner.py:672-736 | in every run of a Worker, a planned case starts if and only if its session is open, it has no entry yet, and no Close nor the shutdown took the session's devices |
| `ProfilingRunner.Runner.FinishRun` | src/edgeshard/control/worker/profiling_runner.py:749-766 | the in-place handler makes the run's last step |
| `ProfilingRunner.EndRunMeans` | src/edgeshard/control/worker/profiling_runner.py:737-766 | an undecided case gets the outcome of its benchmark; a decision that came first stands and is answered; a closed session is an error that changes nothing |
| `ProfilingRunner.EndReaches` | src/edgeshard/control/worker/profiling_runner.py:737-766 | an ended Run is gone, whatever it answers, with its case decided and no lease moved |
| `ProfilingRunner.CancelReaches` | src/edgeshard/control/worker/profiling_sessions.py:360-387 | a cancellation decides exactly its own undecided case and does nothing else |
| `ProfilingRunner.CloseReaches` | src/edgeshard/control/worker/profiling_runner.py:1228-1280 | a Close ends the use of its session, then takes back exactly its devices; the shutdown takes back all |
| `ProfilingRunner.Runner.ContinuePrepare` | src/edgeshard/control/worker/profiling_runner.py:517-548 | the in-place handler makes the prepare's step after its inspection |
| `ProfilingRunner.InspectedMeans` | src/edgeshard/control/worker/profiling_runner.py:486-616 | a network session is created exactly if its facts are complete, a compute session goes on exactly if all its devices are reservable, and then holds them; otherwise nothing changes |
| `ProfilingSystem.PersistKeeps` | src/edgeshard/control/master/profiling_controller.py:1526-1605 | persisting an outcome its Worker decided keeps every COMPLETED case backed by a decision and a stored record |
| `ProfilingSystem.EveryRunKeepsInv` | src/edgeshard/control/master/profiling_controller.py:1450-1605 | replies with outcomes are decisions of the addressed Worker about that case and session, in every run |
| `ProfilingSystem.DecisionsHappened` | src/edgeshard/control/worker/profiling_runner.py:672-766 | every decision the Master can learn of stood in that Worker's ledger at some earlier point of the run |
| `ProfilingSystem.CompletedWasDecided` | src/edgeshard/control/master/profiling_controller.py:1450-1605 | COMPLETED at the Master means the case's Worker had decided COMPLETED with that same record, and the record is persisted |
| `CaseReplies.RunHandled` | src/edgeshard/control/worker/profiling_runner.py:672-736 | a RUN starts its own case in its own session, or is answered at once and starts nothing |
| `CaseReplies.RunFinished` | src/edgeshard/control/worker/profiling_runner.py:737-766 | a benchmark that ends is answered with its decision or the one that came first, in a closed session with an error |
| `CaseReplies.CancelHandled` | src/edgeshard/control/worker/profiling_sessions.py:360-387 | a CANCEL decides exactly the case it names if that is undecided, and is answered with the state the case then has |
| `CaseReplies.FetchHandled` | src/edgeshard/control/worker/profiling_runner.py:1129-1151 | a FETCH changes nothing and is answered with the outcome, or else the state, of its case |
| `CaseReplies.OutcomeReturned` | src/edgeshard/control/master/profiling_controller.py:1527-1605 | an outcome is published as COMPLETED exactly if it measures this case on its Worker's device and contradicts no stored record; any other is FAILED and stores none |
| `CaseReplies.NoOutcomeReturned` | src/edgeshard/control/master/profiling_controller.py:1503-1524 | any other answer to a RUN fails the case; to a FETCH it records the cancellation |
| `CaseReplies.CancelReturned` | src/edgeshard/control/master/profiling_controller.py:1831-1876 | a cancellation is recorded unless the Worker says the case ended another way; then, and only then, its outcome is fetched under the same session |
| `CaseReplies.FailureReturned` | src/edgeshard/control/master/profiling_controller.py:1480-1500 | a lost RUN fails the case; a lost CANCEL or FETCH records the cancellation all the same |
| `CaseReplies.Dispatches` | src/edgeshard/control/master/profiling_controller.py:1450-1484 | a dispatch takes the case off its list and sends exactly one call about it |
| `CaseReplies.GivesUp` | src/edgeshard/control/master/profiling_controller.py:1243-1371 | giving up writes exactly the cases given up and drops them |
| `StoredHistory.OnlyItsOwnTasksRewrite` | src/edgeshard/control/master/profiling_controller.py:1243-1371 | a stored entry changes only by a task that waits for a call about the case or lists it: dispatching, giving up, or taking a reply or its loss |
| `StoredHistory.RewritableIff` | src/edgeshard/control/master/profiling_controller.py:1049-1146 | in every run a COMPLETED case can be rewritten along some continuation, new starts included, if and only if some task waits for a call about it or still lists it |
| `StoredHistory.SettledForEver` | src/edgeshard/profiling/store/sqlite.py:283-298 | although the update is unconditional, a decided case that no task waits about or lists keeps its entry in every later state of the run, whatever is started |
| `ProfilingSystem.MeasurementsStay` | src/edgeshard/control/master/profiling_controller.py:1575-1592 | no measurement is ever lost or replaced |
| `StoredHistory.LateCancelRewrites` | src/edgeshard/control/master/profiling_controller.py:1831-1844 | a waiting cancellation whose call fails turns COMPLETED into CANCELLED |
| `StoredHistory.LateCancelHappens` | src/edgeshard/control/master/profiling_controller.py:1131-1146 | a concrete run in which a case is COMPLETED while its cancellation waits |
| `StoredHistory.LatePrepareFailureRewrites` | src/edgeshard/control/master/profiling_controller.py:1301-1312 | a concrete run in which a cancellation persists COMPLETED and then, with no call about the case awaited, a run that had listed it fails to prepare and records FAILED |
| `SessionPlanning.RequestForInjective` | src/edgeshard/control/master/profiling_controller.py:278-343 | different group keys ask for different sessions |
| `SessionPlanning.GroupRequest` | src/edgeshard/control/master/profiling_controller.py:305-343 | a group's request depends on its key alone, and neither ValueError can occur |
| `SessionPlanning.PlanSessions` | src/edgeshard/control/master/profiling_controller.py:346-369 | one plan per group, in the order of first cases |
| `SessionPlanning.PlansAgree` | src/edgeshard/control/master/profiling_controller.py:346-369 | a case is in a plan if and only if the plan has the session id of the case's own key |
| `SessionPlanning.ResumeFindsSession` | src/edgeshard/control/master/profiling_controller.py:1787-1796 | planning over any two lists that hold a case finds one session id for it |
| `SessionPlanning.DistinctSessions` | src/edgeshard/profiling/domain/session.py:97-116 | distinct groups get distinct session ids |
| `SessionPlanning.SameSessionIff` | src/edgeshard/control/master/profiling_controller.py:278-343 | two cases share a session if and only if they are the same worker's and agree in kind, backend, device and, for model cases, model, dtype and target layer |
| `SessionPlanning.PlansPartition` | src/edgeshard/control/master/profiling_controller.py:346-369 | the plans hold every case exactly once |
| `Interleaving.InterleavingsAgree` | src/edgeshard/control/master/profiling_controller.py:1100-1107 | any two interleavings of writers of disjoint cases leave the same store |
| `ExperimentRun.VerdictMeaning` | src/edgeshard/control/master/profiling_controller.py:414-433 | exactly when each verdict is given: one for every uniform outcome, PARTIAL for a mix of terminal ones, and none exactly if some state is not terminal |
| `ExperimentRun.RunCase` | src/edgeshard/control/master/profiling_controller.py:1450-1605 | one terminal report, COMPLETED exactly on the exit that persisted the measurement; dispatched unless it is a bandwidth probe whose iperf server is missing |
| `ExperimentRun.ResolveNetworkFacts` | src/edgeshard/control/master/profiling_controller.py:1328-1371 | exactly the network cases whose two peers have facts are dispatchable; the others fail and are reported |
| `ExperimentRun.RunSession` | src/edgeshard/control/master/profiling_controller.py:1279-1326 | exactly the cases that are due are dispatched: session prepared, facts known, iperf server there; each case is reported once as it ended, and no other is touched |
| `ExperimentRun.RunWorker` | src/edgeshard/control/master/profiling_controller.py:1243-1277 | exactly the cases that are due at a reachable worker, each in the session of its own key, are dispatched; each is reported once as it ended |
| `ExperimentRun.CollectPending` | src/edgeshard/control/master/profiling_controller.py:1070-1096 | pending are exactly the cases not terminal in the store, each at its own worker, once |
| `ExperimentRun.AnyOrderLeaves` | src/edgeshard/control/master/profiling_controller.py:1100-1107 | however the workers' writes interleave, the store ends as if they had run in turn |
| `ExperimentRun.ReplayFromStore` | src/edgeshard/control/master/profiling_controller.py:2044-2071 | a terminal experiment's report has every case once, in order, with its stored state |
| `ExperimentRun.RunExperiment` | src/edgeshard/control/master/profiling_controller.py:1049-1127 | one terminal report per case id, in order; dispatched is exactly what was not terminal, at a reachable worker, in a prepared session, with known facts and its iperf server; COMPLETED is exactly what was so or was dispatched and persisted; the verdict exists; the store ends so in every order of the workers' writes; a terminal experiment is replayed |
| `TargetLocks.NextKeepsInv` | src/edgeshard/control/master/profiling_admin.py:117-262 | the lock tables and what requests and runs hold agree after every step |
| `TargetLocks.FinishReleasesOwn` | src/edgeshard/control/master/profiling_admin.py:195-201 | what a finishing run releases is exactly what it holds |
| `TargetLocks.ReleasesOwnExactlyOnce` | src/edgeshard/control/master/profiling_admin.py:258-262 | although a release frees whatever is locked, only the actor's own locks are freed, and all of them |
| `TargetLocks.NoLockLeaks` | src/edgeshard/control/master/profiling_admin.py:117-262 | a locked key belongs to a live request or run that lists it |
| `TargetLocks.WaitsUpwards` | src/edgeshard/control/master/profiling_admin.py:229-256 | every waiter waits for a key above all it holds, never its own |
| `TargetLocks.WaitChainsEnd` | src/edgeshard/control/master/profiling_admin.py:229-256 | every wait chain ends in a run or in a request that waits for no lock |
| `TargetLocks.NotWaitingCanMove` | src/edgeshard/control/master/profiling_admin.py:117-169 | whoever waits for no lock has a step of its own |
| `TargetLocks.OneDispatcher` | src/edgeshard/control/master/profiling_admin.py:171-193 | two unfinished runs of one experiment are possible only if it has no physical target |
| `TargetLocks.TwoUntargetedRuns` | src/edgeshard/control/master/profiling_admin.py:297-317 | a concrete run to two unfinished runs of an untargeted experiment |
| `TargetLocks.TrackedIff` | src/edgeshard/control/master/profiling_admin.py:171-201 | the table stops tracking an unfinished run exactly by a cancellation, the shutdown or the late callback of an earlier run of the same experiment |
| `TargetLocks.TwoRunsOnlyIfForgotten` | src/edgeshard/control/master/profiling_admin.py:171-201 | in every run, two unfinished runs of one experiment, targeted or not, only after such a step |
| `TargetLocks.TwoRunsWithoutCancel` | src/edgeshard/control/master/profiling_admin.py:195-201 | a concrete run without cancellation or shutdown to two unfinished runs |
| `TargetLocks.LaunchMeans` | src/edgeshard/control/master/profiling_admin.py:171-193 | a launch either finds a run in flight and gives the request's locks back, or records the new run and hands it all of them |
| `TargetLocks.FinishMeans` | src/edgeshard/control/master/profiling_admin.py:195-201 | the callback of a run takes its experiment off both tables and frees exactly the locks it holds |
| `TargetLocks.AdminTables.ReleaseTargetLocks` | src/edgeshard/control/master/profiling_admin.py:258-262 | none of the given keys is locked afterwards, all others as before |
| `TargetLocks.AdminTables.LaunchRun` | src/edgeshard/control/master/profiling_admin.py:171-193 | the tables follow the launch step |
| `TargetLocks.AdminTables.FinishRun` | src/edgeshard/control/master/profiling_admin.py:195-201 | the tables follow the finish step |
| `Codec.RoundTrip` | src/edgeshard/profiling/codec.py:51-287 | decoding the encoding of a well-typed value gives it back, for every type of the grammar whose unions are told apart by tag or shape |
| `Codec.UnionRoundTrip` | src/edgeshard/profiling/codec.py:179-212 | a union gives back the value of any of its members |
| `Codec.ClassRoundTrip` | src/edgeshard/profiling/codec.py:215-251 | a tagged dataclass is decoded as its own class, field by field |
| `Codec.EncodeInjective` | src/edgeshard/profiling/codec.py:51-79 | values of one type with one payload are equal |
| `Codec.DecodeSound` | src/edgeshard/profiling/codec.py:126-287 | an accepted payload gives a value of the type asked for, its classes' own checks included |
| `Codec.DecodeNormalises` | src/edgeshard/profiling/codec.py:126-287 | re-encoding and decoding an accepted payload changes nothing more |
| `Codec.FloatBeforeIntWidens` | src/edgeshard/profiling/codec.py:201-212 | float declared before int turns integers into floats; int before float does not |
| `Codec.NestedNoneIsRefused` | src/edgeshard/profiling/codec.py:179-184 | None in an aliased member of a union is not decoded |
| `Codec.SameNameIsConfused` | src/edgeshard/profiling/codec.py:189-200 | of two variants of one name the second never comes back |
| `ScalarUnions.ScalarUnionIff` | src/edgeshard/profiling/codec.py:201-212 | a union of distinct scalars gives back all its values if and only if no member takes a later member's payloads, which is the general condition on unions |
| `ScalarUnions.ClashBreaks` | src/edgeshard/profiling/codec.py:201-212 | each clash has a value that comes back as another |
| `Codec.EncodePayload` | src/edgeshard/profiling/codec.py:51-79 | the dict-filling recursion computes the encoding |
| `Codec.DecodeDataclass` | src/edgeshard/profiling/codec.py:215-251 | the field loop decodes exactly the objects of the class: tag, required and defaulted fields, no unknown key, own checks |
| `Sampling.SortedSorts` | src/edgeshard/profiling/benchmark/sampling.py:154-155 | the median is taken of the samples in ascending order |
| `Sampling.MedianIsMiddle` | src/edgeshard/profiling/benchmark/sampling.py:154-155 | the median is the mean of the one or two middle values of the samples in any ascending arrangement |
| `Sampling.WarmupConverged` | src/edgeshard/profiling/benchmark/sampling.py:141-161 | true exactly when enough samples are there and the last comparisons are all stable; every window lies inside the samples |
| `Sampling.ConvergedIff` | src/edgeshard/profiling/benchmark/sampling.py:141-161 | adaptive: converged exactly if there are enough samples and each of the last windows' medians is within the tolerance, relative to its own magnitude, of the one before |
| `Sampling.ReachExact` | src/edgeshard/profiling/benchmark/sampling.py:146-161 | the comparisons' windows lie inside the samples exactly when there are as many as they reach over |
| `Sampling.ShouldContinueWarmup` | src/edgeshard/profiling/benchmark/sampling.py:163-168 | goes on exactly below the minimum, or unconverged below the maximum |
| `Sampling.Warmup` | src/edgeshard/profiling/benchmark/harness.py:216-233 | with windows compared by the relative change of their medians, stops at the first count n >= min that has converged or n = max, or at the first invalid reading before it |
| `Sampling.WarmupVerdict` | src/edgeshard/profiling/benchmark/harness.py:229-233 | ends unconverged exactly when no count from min to max converged |
| `Sampling.CanConvergeIff` | src/edgeshard/profiling/benchmark/sampling.py:146-161 | an adaptive policy can converge if and only if its maximum reaches over its windows |
| `Sampling.Measure` | src/edgeshard/profiling/benchmark/harness.py:235-256 | takes a count in [min_runs, max_runs], the first that reaches the target duration or max_runs |
| `Sampling.MeasureThreshold` | src/edgeshard/profiling/benchmark/sampling.py:170-175 | the count taken is a threshold: exactly the smaller ones are too few |

## Left out

- gRPC, protobuf mapping, HTTP, Docker, subprocess, YAML, CLI, logging: represented by messages, losses and inputs.
- Wire mapper checks (redundant worker ids agree, ids non-empty): taken as already done where requests enter the model.
- Inspections: an agent's inspection is assumed to be consistent with itself and to carry its own revision.
- Time: receive times are inputs; liveness thresholds, heartbeat cadence and back-off delays are not modelled.
- Registration protocol versions and the profiling endpoint beyond storing it.
- torch and Hugging Face numerics, dtype restoration, rotary tables and batch sizes other than 1.
- StageTransport of the local pipeline: the boundary is the identity.
- Session ids reused on the shard data plane after a close, and `RemotePipeline.close_session`.
- Weights: a block template with exactly one index placeholder; file grouping in `load_shard` only decides reading order.
- Profiling RPCs with stale registration tokens: they are refused before anything is read.
- Temporary iperf servers, telemetry, memory probes, fingerprints and the benchmark executors.
- `close_session` in a thread is one atomic step once the thread gets to it.
- Model cleanup of a closing session, which may fail but neither reopens the session nor keeps its lease.
- ProfilingSystem: the Master's tasks are steps on values, since the profile store they write is outside the process; `asyncio` task objects are not modelled.
- ExperimentRun.RunExperiment: a run that is itself cancelled returns no report.
- TargetLocks: that an experiment's cases lie within the keys its request locked is assumed of the strategy; FIFO order among waiters is not, any waiter may be next.
- Codec: `list` is modelled, `dict` and `Any` hints are not, and no domain dataclass uses them; JSON text itself is foreign code.
- Codec.RoundTrip: the union condition is exact for unions of scalars; in general it is sufficient only: fixed tuples of different item types, or enums without common values, share one shape but may still be told apart.
- Sampling: floating-point rounding; the non-adaptive warm-up, which only counts; the harness lifecycle around the loops.
- The SQLite schema, strategies, characterization, operator planning and snapshot formatting.
