# Dirigent: a verified model of its protocols

Dirigent is a cluster manager for functions as a service. A replicated control plane elects a leader,
scales each function and reacts to failures; data planes admit, queue and retry requests; worker nodes
create sandboxes and their networks. This project models the parts whose correctness depends on how
many steps interleave and proves what holds in every run.

Each protocol is a state machine: a state, the steps that are enabled in it and what they do, and
executions of lists of steps. Each critical section, atomic operation or channel operation of the code is one
step, so a theorem about executions is a theorem about every interleaving. Beside the machines stand
classes with the fields and loops of the code, whose methods are proved to perform exactly those steps.

- Leader election: `Consensus.dfy` (one node), `Cluster.dfy` (any number of nodes and messages in flight),
  `ElectionSafety.dfy`, `VoteHistory.dfy`, `StaleReplies.dfy`, `ElectionProgress.dfy`, `Leadership.dfy` (the manager
  that follows), `Managers.dfy` (both together).
- Asynchronous requests with crashes: `AsyncPipeline.dfy`, `AsyncProxy.dfy`.
- Scaling, eviction and node failure: `Endpoints.dfy`, `Scaling.dfy`, `ServiceStorage.dfy`, `NodeFailure.dfy`,
  `ControlPlaneStorage.dfy`.
- Autoscaler: `Windows.dfy` (ring buffer), `Autoscaler.dfy` (decisions), `AutoscalingState.dfy` (in place).
- Admission in the data plane: `Admission.dfy` (the machine), `AdmissionBounds.dfy`, `WakeUps.dfy`, `Draining.dfy`,
  `Reachability.dfy`, `MetadataLock.dfy`, `RequestRuns.dfy`, `DrainBlocking.dfy`, `Completion.dfy`,
  `FunctionMetadata.dfy` (in place).
- Worker networks: `NetworkPool.dfy`, `NetworkManagers.dfy` (in place).

Several properties one would expect are false of the code. Each of them has a run or an input that breaks it,
and the condition under which it holds is proved, as an equivalence unless "Left out" says otherwise:

- Election Safety fails when late replies are acted on (`SourceNeedsTheCheck`, `RuleIsExact`).
- One vote per term fails (`SecondVoteHappens`, `OneVotePerTermExactly`, `SecondVoteOnlyAfterElection`).
- A control plane can lead without a monitoring loop (`LeadsWithoutLoop`, `ManagersFollow`).
- An acknowledged request can be lost if the store refuses its response (`RefusedAnswerIsLost`, `DurableExactly`).
- The scale of a service can drift from its endpoints (`OverlapLosesCount`, `ShortfallExactly`).
- The panic window is not always the most recent samples (`PanicMissesNewest`, `NewestExactly`, `RecentExactly`).
- A waiter can be missed (`WakeUpIsMissed`, `ServedExactly`).
- A drain can keep the metadata lock for ever (`DrainHangs`, `LockFreesExactly`), and a request can block for
  ever on a nil channel or on a full one (`RequestSticks`, `RequestHangs`, `RequestSticksExactly`).
- The loop that reacts to silent nodes can block itself (`CheckWorkerNodes`), and a stopped node can become a
  follower again (`DeadRises`, `DeadRisesExactly`).
- A network given up twice is in the pool twice (`TwiceIsShared`, `SecondGiveUpShares`).

Where comments of the code and the code disagree, the code is followed: the IP manager's comment speaks of
16384 virtual machines, and the code gives out 65024 exposed addresses.

## Model

| member | source | states |
|---|---|---|
| `ElectionSafety.AtMostOneLeader` | internal/control_plane/leader_election/consensus_module.go:131-189 | Election Safety of section 5.2 of the Raft paper: for any cluster size and any delay, loss or reordering, if replies are filtered by a rule that rejects the harmful ones, at most one node is ever elected in a term and two nodes never lead the same term, although a vote can be cleared within a term |
| `ElectionSafety.QuorumKeepsItsVote` | internal/control_plane/leader_election/consensus_module.go:323-334 | in the same runs terms never decrease from any point to any later point, every elected leader has a majority quorum, and each member of the quorum votes for that leader for as long as it stays in the term |
| `ElectionSafety.NotYetWon` | internal/control_plane/leader_election/consensus_module.go:147-152 | the heart of the proof: a candidate that holds a majority of votes of its own term is the first to do so, because the node in both majorities could have voted twice in none of the three ways the code allows |
| `ElectionSafety.CoreAside` | internal/control_plane/leader_election/consensus_module.go:177-180 | stepping aside within a term, which clears the vote, keeps every invariant of the election |
| `ElectionSafety.InvStep` | internal/control_plane/leader_election/consensus_module.go:259-347 | every step of every node (time-out, vote request, vote reply, heartbeat sent, heartbeat received, heartbeat reply, stop) keeps the whole invariant, and no node's term falls |
| `ElectionSafety.InvRun` | internal/control_plane/leader_election/consensus_module.go:131-403 | the invariant over whole runs of any length under any rule that rejects harmful replies |
| `VoteHistory.SecondVoteExactly` | internal/control_plane/leader_election/consensus_module.go:131-158 | a step gives a node a second vote in a term if and only if it is a request of the node's own term to a living former candidate of that term that has no vote or has given it to the asker |
| `VoteHistory.OneVotePerTermExactly` | internal/control_plane/leader_election/consensus_module.go:131-158 | over whole runs some node votes for two candidates in one term if and only if such a request occurs |
| `VoteHistory.SecondVoteOnlyAfterElection` | internal/control_plane/leader_election/consensus_module.go:147-152 | a node gives its vote of one term to two different candidates only if the first was itself and the log already shows an elected leader of that term before the second vote |
| `VoteHistory.OwnTermRaises` | internal/control_plane/leader_election/consensus_module.go:290-306 | acting on a reply only while the current term is the term it was asked in is one of the rules the theorems cover |
| `StaleReplies.RuleIsExact` | internal/control_plane/leader_election/consensus_module.go:290-306 | the exact condition: a rule for acting on replies gives Election Safety in all runs of all clusters if and only if it rejects late votes, refusals that lead back to an earlier term, and heartbeat replies that clear the vote of the current term |
| `StaleReplies.SourceNeedsTheCheck` | internal/control_plane/leader_election/consensus_module.go:392-399 | the code, which acts on every reply, violates Election Safety; comparing the current term with the saved one makes it safe |
| `StaleReplies.LateVoteElects` | internal/control_plane/leader_election/consensus_module.go:299-306 | for every pair of terms, a vote of an earlier term counted in a later one gives two leaders of the same term in a three-node run |
| `StaleReplies.LateRefusalElects` | internal/control_plane/leader_election/consensus_module.go:295-298 | for every triple of terms, a refusal read too late takes a candidate back to a term it has voted in, and the term gets two leaders |
| `StaleReplies.LateBeatElects` | internal/control_plane/leader_election/consensus_module.go:392-399 | for every triple of terms, a heartbeat reply read too late clears a vote given since, and the term gets two leaders |
| `StaleReplies.SecondVoteHappens` | internal/control_plane/leader_election/consensus_module.go:177-180 | one vote per term is false even with the check: a run in which a node votes twice in a term |
| `Consensus.ConsensusModule.constructor` | internal/control_plane/leader_election/consensus_module.go:73-102 | a new node is a follower of term 0 without a vote; one without peers leads at once and announces it |
| `Consensus.ConsensusModule.RequestVote` | internal/control_plane/leader_election/consensus_module.go:131-158 | the handler in place: a living node reaches at least the term of the request, grants its vote exactly if it then is in that term and has given it to nobody else, and reports its term; a dead one answers nothing. It performs exactly the voter's step of the cluster model |
| `Consensus.ConsensusModule.AppendEntries` | internal/control_plane/leader_election/consensus_module.go:160-189 | the handler in place: a heartbeat of the node's own or a later term makes a living node a follower of that term and is accepted; one of an earlier term changes nothing but the known leader and is refused with the node's term; a dead node answers nothing. It performs exactly the heartbeat step of the cluster model |
| `Consensus.ConsensusModule.TimeOut` | internal/control_plane/leader_election/consensus_module.go:216-282 | an election starts exactly in the roles follower and candidate, with a fresh counter of one vote and one request per peer carrying the new term |
| `Consensus.ConsensusModule.HandleVoteReply` | internal/control_plane/leader_election/consensus_module.go:285-312 | a refusal with a later term makes a candidate a follower of it; a vote of the saved term is counted, and makes the candidate leader exactly if it completes a majority of all nodes; anything else changes nothing. The current term is not compared with the saved one |
| `Consensus.ConsensusModule.HandleBeatReply` | internal/control_plane/leader_election/consensus_module.go:387-400 | a later term in a heartbeat reply makes the node a follower of that term whatever its own role and term are |
| `Consensus.ConsensusModule.StepDown` | internal/control_plane/leader_election/consensus_module.go:323-337 | the term, the cleared vote and the announcement of a node that becomes a follower |
| `Consensus.ConsensusModule.Lead` | internal/control_plane/leader_election/consensus_module.go:341-347 | the role and the announcement of a node that becomes leader |
| `Consensus.ConsensusModule.Halt` | internal/control_plane/leader_election/consensus_module.go:115-121 | stopping sets the role and leaves term, vote and announcements alone |
| `StaleReplies.DeadRisesExactly` | internal/control_plane/leader_election/consensus_module.go:392-400 | a stopped node leaves that role in a step if and only if the step reads a reply to one of its own heartbeats that is of a later term than the heartbeat, since that handler does not look at the role |
| `StaleReplies.DeadRises` | internal/control_plane/leader_election/consensus_module.go:392-400 | such a step happens even if replies are acted on only in the term that issued them |
| `ElectionProgress.BeatTeaches` | internal/control_plane/leader_election/consensus_module.go:160-189 | in the cluster, after a heartbeat a living node is in the larger of its own and the heartbeat's term, leads no term up to that of the heartbeat, and the reply says which term it is in |
| `ElectionProgress.BeatReplyTeaches` | internal/control_plane/leader_election/consensus_module.go:387-400 | a heartbeat reply of a later term makes its sender a follower of it without a vote, and any other reply changes nothing |
| `ElectionProgress.RequestTeaches` | internal/control_plane/leader_election/consensus_module.go:131-158 | after a vote request a living node is in the larger of the two terms, and the reply grants the vote exactly if the term was new to the node or it has given its vote to nobody else |
| `ElectionProgress.MajorityElects` | internal/control_plane/leader_election/consensus_module.go:290-306 | reading a reply elects exactly if a candidate reads a vote of the saved term that, counted, is more than half of all nodes; for every cluster size |
| `ElectionProgress.ClusterCanSettle` | internal/control_plane/leader_election/consensus_module.go:259-347 | the protocol never runs into a corner: from every state of every cluster of two or more nodes, whatever is in flight, if a majority lives then any living node that may time out can come to lead a new term that every living node follows |
| `Managers.ManagersFollow` | cmd/master_node/state_management/election_management.go:56-88 | in every interleaving of the election with the control plane of a node, which takes announcements late and asks for the node's role later still, stale replies acted on: leadership is never announced twice in a row; between announcements the control plane leads exactly if the last one it took says so; at most one monitoring loop is live, and one is exactly if the control plane leads and the node led when asked; if the node leads and everything is processed, one is live |
| `Managers.TurnKeeps` | cmd/master_node/state_management/election_management.go:56-88 | every step of the election and of the control plane keeps that relation between a node and its control plane |
| `Managers.LeadsWithoutLoop` | api/control_plane_api_server.go:115-125 | a run in which a node has lost leadership before its announcement is processed: the control plane leads and no monitoring loop is live |
| `Managers.TakesUnlessJammed` | cmd/master_node/state_management/election_management.go:82-85 | a control plane with an announcement waiting takes it in some continuation if and only if its monitoring loop has not stopped listening to the unbuffered stop channel |
| `Managers.JammedForever` | cmd/master_node/state_management/election_management.go:82-85 | with a loop that no longer listens, the control plane keeps its state in every continuation, whatever is announced |
| `Leadership.TracksIffNoRepeat` | cmd/master_node/state_management/election_management.go:66-80 | for any stream of announcements, and whether or not the node still leads when each is processed, the manager follows every one of them if and only if leadership is never announced twice in a row |
| `Leadership.AtMostOneLoop` | cmd/master_node/state_management/election_management.go:56-88 | for any stream at all, at most one monitoring loop is live, it is the one the stop channel belongs to, and one is live exactly while the manager leads and the node led when the manager took the lead |
| `Leadership.AnnouncesRun` | internal/control_plane/leader_election/consensus_module.go:323-347 | over whole runs the last announcement of a node says leader exactly when it leads, or died leading |
| `Leadership.CurrentState.UpdateLeadership` | cmd/master_node/state_management/election_management.go:66-80 | the method in place performs exactly the manager's step, given the answer of the election server; it blocks exactly if it has to stop a loop that no longer listens |
| `Leadership.CurrentState.SetCurrentControlPlaneLeader` | cmd/master_node/state_management/election_management.go:56-64 | becoming leader starts a monitoring loop exactly if the node leads at that moment, and makes the manager leader in any case |
| `Leadership.CurrentState.StartNodeMonitoringLoop` | api/control_plane_api_server.go:115-125 | a new loop with its stop channel if the node leads, and nil without a loop if it does not |
| `Leadership.CurrentState.DestroyStateFromPreviousElectionTerm` | cmd/master_node/state_management/election_management.go:82-88 | the old loop is stopped exactly if there is one; the call blocks, and changes nothing, exactly if that loop no longer listens |
| `Leadership.CurrentState.ConsumeAll` | cmd/master_node/state_management/election_management.go:66-80 | the loop over the announcement channel is the fold of the step over the stream, up to the first announcement that blocks |
| `AsyncPipeline.AcknowledgedIsDurable` | internal/data_plane/proxy/async_proxy_handler.go:180-230 | in every state of every run with crashes between any two operations, each code a client was given is a persisted request or a persisted response, if all response writes succeed; in general if and only if its request was never deleted or one of its response writes succeeded |
| `AsyncPipeline.DurableExactly` | internal/data_plane/proxy/async_proxy_handler.go:216-230 | the same equivalence for every code ever issued, acknowledged or not |
| `AsyncPipeline.CrashAndRecover` | internal/data_plane/proxy/async_proxy_handler.go:148-173 | crashing in any reachable state and recovering leaves every acknowledged code answered in memory, with the response that was stored, or queued again |
| `AsyncPipeline.RecoveryExactly` | internal/data_plane/proxy/async_proxy_handler.go:148-173 | from any state, in any order of the scan: after a crash and recovery the responses in memory are exactly the stored ones with their values, every stored request without one is queued exactly once, and nothing else is queued |
| `AsyncPipeline.ResponsesAreGenuine` | internal/data_plane/proxy/async_proxy_handler.go:202-230 | over every run with crashes, each stored response of a code is one that firing a request of that code returned with status 200 or 400, and each response in memory is such a one or the answer for giving up |
| `AsyncPipeline.NothingIsForgotten` | internal/data_plane/proxy/async_proxy_handler.go:148-238 | once recovery is over, every acknowledged code is answered, collected or in the hands of a goroutine, however retries, new requests and the collector interleave |
| `AsyncPipeline.UnsavedOnlyByRefusal` | internal/data_plane/proxy/async_proxy_handler.go:224-226 | the exceptions above arise only from refused writes |
| `AsyncPipeline.RefusedAnswerIsLost` | internal/data_plane/proxy/async_proxy_handler.go:224-230 | the write the code only logs: if it fails, the request is deleted all the same and after a crash an acknowledged code is nowhere |
| `AsyncPipeline.RetryBudget` | internal/data_plane/proxy/async_proxy_handler.go:202-238 | within one process every queue entry is fired at most max(0, allowed retries) times and written to the responses at most once, exactly once when finished |
| `AsyncPipeline.EntryEnds` | internal/data_plane/proxy/async_proxy_handler.go:202-238 | the retries left bound the steps an entry can still take, whatever else runs, so no entry goes round for ever |
| `AsyncPipeline.EntryNeverStuck` | internal/data_plane/proxy/async_proxy_handler.go:167-238 | once the stored responses are loaded, the next step of an unfinished entry is enabled, at once or, if it writes the responses while recovery holds their lock, after the rest of the replay |
| `AsyncPipeline.CollectorDropsGiveUps` | internal/data_plane/proxy/async_proxy_handler.go:367-379 | the collector compares seconds with nanoseconds: for all clocks up to the year 3871 it drops exactly the responses without a time stamp and keeps all others |
| `AsyncPipeline.InvStep` | internal/data_plane/proxy/async_proxy_handler.go:148-238 | every operation and a crash keep: stored codes are durable, entries within budget, unanswered issued codes pursued |
| `AsyncProxy.AsyncProxyingService.AcceptInvocation` | internal/data_plane/proxy/async_proxy_handler.go:180-193 | the request is stored as it came and queued once, under a new entry, without an answer in between; nothing else changes |
| `AsyncProxy.AsyncProxyingService.HandleRequest` | internal/data_plane/proxy/async_proxy_handler.go:205-236 | one pass of the handler: without tries left the answer is status 500; a reply with status 200 or 400 goes to memory and, if the write succeeds, to the store, and the request is deleted in any case; any other reply queues the entry again with one more try. It waits for the end of a replay only when it writes the responses |
| `AsyncProxy.AsyncProxyingService.LoadResponses` | internal/data_plane/proxy/async_proxy_handler.go:149-158 | memory holds what it held and every stored response, with the stored value |
| `AsyncProxy.AsyncProxyingService.Recover` | internal/data_plane/proxy/async_proxy_handler.go:148-173 | in whatever order the scan lists them: every stored response is in memory with its value, no stored request is left to replay and, in a process that starts empty, every stored request without a response is queued once and nothing else is; a legal run of recovery steps only |
| `AsyncProxy.Answered` | internal/data_plane/proxy/async_proxy_handler.go:216-230 | the state after a successful answer: response in memory and store, request deleted, entry finished with one write |
| `Scaling.ScaleIsConserved` | internal/control_plane/scaling_loop.go:90-116 | in every interleaving of swaps, applications, failures and deregistrations, the scale is the number of endpoints plus what is pending minus the reported eviction shortfall; with nothing pending it equals the number of endpoints exactly when no shortfall was reported |
| `Scaling.ShortfallExactly` | internal/control_plane/scaling_loop.go:220-242 | a service never reports a shortfall, and has as many endpoints as its scale says whenever it is quiet, if and only if at every eviction the scale covers what a deregistration still owes |
| `Scaling.CalmServiceIsExact` | internal/control_plane/scaling_loop.go:220-242 | in particular if no failure or deregistration falls between a swap and its eviction |
| `Scaling.OverlapLosesCount` | internal/control_plane/failure.go:53-75 | a failure between the swap and the lock drives the scale of a service below zero |
| `Scaling.OverlapLeaksSandbox` | internal/control_plane/scaling_loop.go:90-116 | the next scale-up then creates a sandbox too many, for good |
| `Scaling.ConservedStep` | internal/control_plane/scaling_loop.go:127-153 | each single step keeps the balance of scale, endpoints, pending changes and shortfall |
| `Scaling.ListExactly` | internal/control_plane/failure.go:53-75 | a step removes from the list exactly the evicted endpoints, those on the deregistered node, or those with an id that was reported, keeps the others in order, and adds nothing but a created one at the end |
| `Scaling.UnnamedStays` | internal/control_plane/scaling_loop.go:220-242 | over any run an endpoint stays listed unless a step evicts it, reports its id or deregisters its node |
| `Scaling.UncreatedStaysAway` | internal/control_plane/scaling_loop.go:187-189 | over any run nothing is listed that was neither listed at first nor created |
| `ServiceStorage.ServiceInfoStorage.ScalingIteration` | internal/control_plane/scaling_loop.go:72-118 | one iteration in place: scaling up appends exactly the sandboxes that came, in order, scaling down evicts distinct listed endpoints, as many as asked for or all there are, and returns them; from a balanced service it ends with exactly the desired number of endpoints, when scaling up if all creations succeed, and with the scale equal to the number of endpoints in any case |
| `ServiceStorage.ServiceInfoStorage.DoUpscaling` | internal/control_plane/scaling_loop.go:120-202 | exactly the sandboxes whose creation succeeded are appended, in order, and the scale drops by the number of failures; a legal run of single completions |
| `ServiceStorage.ServiceInfoStorage.EvictVictims` | internal/control_plane/scaling_loop.go:220-273 | the endpoints returned are distinct listed ones, min(wanted, listed) of them; exactly they leave the list, the others stay in order, and the rest is reported as shortfall |
| `Endpoints.DoDownscaling` | internal/control_plane/scaling_loop.go:220-242 | for any distinct endpoints, any count and all random draws, exactly min(count, listed) distinct endpoints are evicted, the list keeps the others in order, and the shortfall is exactly what is missing |
| `Endpoints.EvictionPolicy` | internal/control_plane/eviction_policy/eviction_policy.go:32-48 | the victim is the drawn element and the rest is the list without it, in order; an empty list gives none |
| `Endpoints.ExcludeEndpoints` | internal/control_plane/scaling_loop.go:357-367 | the list in order without the excluded set |
| `Endpoints.SearchEndpoint` | internal/control_plane/helpers.go:108-116 | the first endpoint with the id, and none exactly if there is none |
| `Endpoints.ExcludeTwice` | internal/control_plane/scaling_loop.go:357-367 | excluding two sets one after the other is excluding their union |
| `Endpoints.ExcludeCount` | internal/control_plane/scaling_loop.go:357-367 | excluding k of n distinct endpoints leaves n - k |
| `NodeFailure.NodeFailureIsExact` | internal/control_plane/control_plane.go:433-468 | handling the events built for a node removes from every service exactly its endpoints on that node, in order, and lowers each scale by exactly that number, although every event lists all sandboxes on the node and some may be under eviction |
| `NodeFailure.PartlyHandled` | internal/control_plane/failure.go:35-51 | after any prefix of the events exactly the services named so far have lost their endpoints on the node |
| `NodeFailure.OwnEndpointsOnly` | internal/control_plane/failure.go:53-75 | of the sandbox ids of a node a service reacts to exactly its own endpoints there |
| `NodeFailure.RestExactly` | internal/control_plane/failure.go:53-75 | what a service keeps: exactly its endpoints on other nodes, in order, with the distance of scale and list unchanged |
| `NodeFailure.NodeForgetsExactly` | internal/control_plane/failure.go:58-71 | handling the events of a node takes exactly the endpoints that services list there out of the node's own table, leaves those under eviction in it, and touches no other node |
| `ControlPlaneStorage.ControlPlane.HandleNodeFailure` | internal/control_plane/failure.go:35-75 | building and handling the events of a node, by a caller that does not hold the lock of the node storage, has that exact effect on services and on nodes and keeps the storages sound; the monitoring loop is not such a caller |
| `ControlPlaneStorage.ControlPlane.CheckWorkerNodes` | internal/control_plane/control_plane.go:376-405 | the monitoring loop with its lock in place: a round never ends if and only if some silent node and some service are registered, because building the events asks for the lock the loop holds; a round that ends has built no event |
| `ControlPlaneStorage.ControlPlane.CreateWorkerNodeFailureEvents` | internal/control_plane/control_plane.go:433-451 | the events name every service once and all sandbox ids on the node, or there are none if the node has no sandbox; building them blocks exactly if the node storage is locked and there is a service |
| `ControlPlaneStorage.ControlPlane.GetServicesOnWorkerNode` | internal/control_plane/control_plane.go:453-468 | the ids listed are exactly those of the sandboxes on the node; the lookup blocks exactly if the node storage is locked for writing |
| `ControlPlaneStorage.ControlPlane.HandleFailure` | internal/control_plane/failure.go:35-51 | handling reports one by one in place is the fold of the single report, unknown services skipped |
| `ControlPlaneStorage.ControlPlane.RemoveEndpoints` | internal/control_plane/failure.go:53-75 | the loop in place removes exactly the named endpoints of the service and of their nodes, and lowers the scale by their number |
| `ControlPlaneStorage.ControlPlane.RemoveEndpointsAssociatedWithNode` | internal/control_plane/helpers.go:89-106 | walking the services in any order has the same effect as handling a failure of the node |
| `ControlPlaneStorage.ControlPlane.DeregisterNode` | internal/control_plane/control_plane.go:235-259 | deregistering leaves the services as after a failure of the node and forgets the node; an unknown node, or a persisted entry that cannot be deleted, changes nothing |
| `ControlPlaneStorage.ControlPlane.RegisterNode` | internal/control_plane/control_plane.go:191-233 | a new node is added without sandboxes and a known one refused; if its entry cannot be persisted, the call blocks on the lock it holds itself and the node storage stays locked |
| `ControlPlaneStorage.ControlPlane.RegisterService` | internal/control_plane/control_plane.go:283-314 | a new service is added without endpoints and a known one refused; if its entry cannot be persisted, the call blocks on the lock it holds itself and the service storage stays locked |
| `ControlPlaneStorage.ControlPlane.AddSandbox` | internal/control_plane/scaling_loop.go:187-189 | a new sandbox becomes known to its node and its service, and the storages stay sound |
| `ControlPlaneStorage.ControlPlane.FinishEviction` | internal/control_plane/scaling_loop.go:204-218 | removing a victim from its node keeps the storages sound |
| `ControlPlaneStorage.FailuresKeep` | internal/control_plane/failure.go:35-75 | any list of failure reports keeps the storages sound and the distance of each scale from its number of endpoints |
| `Windows.VisitedOnce` | internal/control_plane/autoscaling/autoscaling.go:224-243 | for every head, window and ring length the slots read are in range, each read once, the newest first |
| `Windows.RecentExactly` | internal/control_plane/autoscaling/autoscaling.go:250-268 | the window reads the most recent samples if and only if the head has room below it or the window is the whole ring; otherwise it reads the oldest sample held |
| `Windows.NewestExactly` | internal/control_plane/autoscaling/autoscaling.go:250-280 | after n samples the panic average is that of the newest samples, whatever the samples, if and only if the ring has not wrapped, or has been refilled far enough since, or the window is the whole ring |
| `Windows.PanicMissesNewest` | internal/control_plane/autoscaling/autoscaling.go:265-267 | a history of five samples whose panic average is 2.5 while that of the two newest is 3.5 |
| `Windows.StableIsSuffix` | internal/control_plane/autoscaling/autoscaling.go:216-248 | after any calls the stable window adds up exactly the last min(buckets, calls) samples of the whole history |
| `Windows.PanicIsSamples` | internal/control_plane/autoscaling/autoscaling.go:250-280 | the panic window adds up exactly the described samples of the history, wrapped or not |
| `Windows.PanicWrapped` | internal/control_plane/autoscaling/autoscaling.go:250-268 | after the ring has wrapped the panic window is the newest samples, or those since the wrap together with the oldest ones still held |
| `Windows.StoreWrites` | internal/control_plane/autoscaling/autoscaling.go:216-222 | writing a sample makes the ring hold the suffix of the longer history |
| `Windows.HeadMoves` | internal/control_plane/autoscaling/autoscaling.go:270-273 | moving the head keeps the ring a representation of the history |
| `Windows.SumWindow` | internal/control_plane/autoscaling/autoscaling.go:228-243 | the summing loop computes the sum over the visited slots |
| `Autoscaler.ZeroExactly` | internal/control_plane/autoscaling/autoscaling.go:110-153 | with a positive panic threshold, after any run, a service is scaled to zero if and only if it is not panicking, every sample of its stable window is zero, the scale-down limit allows zero and the lower bound does not forbid it |
| `Autoscaler.ZeroOnlyWhenIdle` | internal/control_plane/autoscaling/autoscaling.go:110-194 | for all configurations, zero is decided, in or out of panic mode, only if every sample of the stable window is zero and floor(max(1, scale) / scale-down rate) is zero |
| `Autoscaler.EpisodeNeverShrinks` | internal/control_plane/autoscaling/autoscaling.go:155-194 | over any run, between two decisions of the same panic episode the count never decreases and equals the largest so far |
| `Autoscaler.PanicCoversBoth` | internal/control_plane/autoscaling/autoscaling.go:155-194 | in panic mode the count covers the stable and the panic demand and everything decided before in the episode |
| `Autoscaler.EpisodeEndsLate` | internal/control_plane/autoscaling/autoscaling.go:155-176 | an episode ends if and only if the load is below the threshold and the stable window has passed since it was last above |
| `Autoscaler.RateLimited` | internal/control_plane/autoscaling/autoscaling.go:134-153 | outside panic mode the count lies between the scale-down and the scale-up limit |
| `Autoscaler.DecideExactly` | internal/control_plane/autoscaling/autoscaling.go:134-194 | one decision with all its arithmetic written out: a service panics afterwards exactly if ceil(panic average / target) / max(1, scale) reaches the threshold, or it panicked and the stable window has not passed since that last happened; the count is ceil(average / target) within the rate limits, and in panic mode the largest of both averages' counts and of the episode so far |
| `Autoscaler.PanicsExactly` | internal/control_plane/autoscaling/autoscaling.go:155-176 | after any run of decisions a new service panics exactly if at some input the load was over the threshold and at no input since the last such one the stable window had passed; it remembers the time of that input |
| `Autoscaler.ClampKeepsOrder` | internal/control_plane/autoscaling/autoscaling.go:110-118 | clamping to the bounds of the service preserves order, so an episode does not shrink after clamping either |
| `Autoscaler.NoPods` | internal/control_plane/autoscaling/autoscaling.go:134-153 | the rate-limited count is zero if and only if the average is zero and the scale-down limit is zero |
| `AutoscalingState.AutoscalingMetadata.WindowAverage` | internal/control_plane/autoscaling/autoscaling.go:204-281 | the ring buffer in place, for the whole history of samples: the stable average is that of the last stable window / period samples, and the panic average that of the panic window / period samples described by PanicSamples |
| `AutoscalingState.AutoscalingMetadata.InternalScaleAlgorithm` | internal/control_plane/autoscaling/autoscaling.go:120-202 | the algorithm in place: the panic flag, its time, the largest count and the count returned as DecideExactly states them, from the averages over the whole history |
| `AutoscalingState.AutoscalingMetadata.KnativeScaling` | internal/control_plane/autoscaling/autoscaling.go:110-118 | scaling from zero asks for one pod and touches nothing; otherwise the clamped decision |
| `AutoscalingState.Wrap32` | internal/control_plane/autoscaling/autoscaling.go:94-108 | a signed 32-bit value that is congruent to its argument modulo 2^32 |
| `AutoscalingState.MetricCache.SetCachedScalingMetric` | internal/control_plane/autoscaling/autoscaling.go:102-108 | a report replaces the previous one of its data plane and the cache stays the 32-bit sum |
| `AutoscalingState.MetricCache.RemoveDataplane` | internal/control_plane/autoscaling/autoscaling.go:94-100 | a removal takes the last report of the data plane out of the 32-bit sum |
| `AutoscalingState.MetricCache.Replay` | internal/control_plane/autoscaling/autoscaling.go:94-108 | after any sequence of reports and removals the cache is the 32-bit sum of the last report of each remaining data plane |
| `AdmissionBounds.ConcurrencyIsBounded` | internal/data_plane/proxy/load_balancing/load_balancing.go:82-110 | in every interleaving with additions, drains and removals, for every endpoint ever created: free tokens plus token holders is the parallelism and 0 <= InFlight <= parallelism; QueueDepth is the number of requests waiting or in the load balancer; the reported metric is the number of unanswered requests |
| `AdmissionBounds.MoveTable` | internal/data_plane/proxy/sync_proxy_handler.go:125-163 | every step of a request changes tokens, InFlight and QueueDepth by exactly what its two places differ in |
| `AdmissionBounds.CountsStep` | internal/data_plane/function_metadata/function_metadata.go:185-303 | every step of every goroutine keeps all four counts |
| `WakeUps.SendIsNeverStuck` | internal/data_plane/function_metadata/function_metadata.go:201-231 | whenever AddEndpoints is sending to a waiter with the lock held, the send can happen, or the owner can receive and the send can happen right after |
| `WakeUps.OneSuccessOneCancel` | internal/data_plane/proxy/utils.go:49-58 | over a whole run each waiter is sent at most one success and one cancel, and receives at most one |
| `WakeUps.WaiterIsToldTruly` | internal/data_plane/proxy/utils.go:49-58 | in every reachable state a waiter that receives is admitted only if AddEndpoints has sent it a success and turned away only if its client has given up; if one of the two has not happened the other decides |
| `WakeUps.FirstComeFirstServed` | internal/data_plane/function_metadata/function_metadata.go:210-231 | over every run the waiters are sent to in the order in which they joined the queue, none passed over: the requests that joined are those sent to, the one being sent to and the queue, in that order |
| `WakeUps.ServedExactly` | internal/data_plane/function_metadata/function_metadata.go:332-353 | nobody is ever left in the queue while endpoints are active if and only if no request joins the queue while an endpoint is active; the code reads the count before it takes the lock |
| `WakeUps.WakeUpIsMissed` | internal/data_plane/function_metadata/function_metadata.go:341-350 | a run in which a waiter is left behind although an endpoint is active |
| `WakeUps.WakeStep` | internal/data_plane/function_metadata/function_metadata.go:201-231 | every step keeps: what was sent is buffered or received, the owner waits exactly until its one receive, nobody is queued twice or after being woken |
| `Draining.DrainIsSignalled` | internal/data_plane/function_metadata/function_metadata.go:305-322 | a drain that waits on an endpoint is never abandoned: its channel is filled, or some request bound to signal it has its next step enabled, and from every reachable state some continuation lets it receive |
| `Draining.PledgesStep` | internal/data_plane/proxy/utils.go:38-47 | the duty to signal a waiting drain passes from request to request in every step |
| `Draining.ShapeStep` | internal/data_plane/function_metadata/function_metadata.go:270-303 | a draining channel exists exactly for the drained endpoints but the one just flagged, and no endpoint is waited for twice |
| `MetadataLock.LockFreesExactly` | internal/data_plane/function_metadata/function_metadata.go:201-303 | in every reachable state, whoever holds the metadata lock, some continuation frees it if and only if no drain is bound to send on a channel that a request has filled: one that found its endpoint idle, or is about to find it so with nobody able to be counted there in time |
| `MetadataLock.DrainUnlocksExactly` | internal/data_plane/function_metadata/function_metadata.go:292-294 | for a drain that found its endpoint idle: if and only if the channel is empty |
| `MetadataLock.DoomedStep` | internal/data_plane/function_metadata/function_metadata.go:288-294 | every step of every goroutine keeps a doomed drain doomed |
| `MetadataLock.WakingUnlocks` | internal/data_plane/function_metadata/function_metadata.go:210-232 | an AddEndpoints call that holds the lock can always finish, however many waiters there are and whatever is in their channels |
| `DrainBlocking.DrainHangs` | internal/data_plane/function_metadata/function_metadata.go:288-294 | such a state is reachable for every parallelism above zero |
| `DrainBlocking.RequestSticksExactly` | internal/data_plane/proxy/utils.go:38-42 | a request that evaluates the draining channel now has no continuation past its signal if and only if its endpoint is flagged and the channel not yet made, or the channel is full, no drain waits for it and none that holds the lock will get to |
| `DrainBlocking.PostingReturnsExactly` | internal/data_plane/proxy/utils.go:39-41 | a request that is sending gets through in some continuation if and only if the channel is empty, or a drain waits for it, or the drain under way has the endpoint among its barriers and is not doomed |
| `Completion.FinishesExactly` | internal/data_plane/proxy/sync_proxy_handler.go:125-163 | for a request at any place of a reachable state: some continuation answers it unless it is hopeless, that is behind a lock that is never freed, on a nil channel, or bound to signal on a full channel nobody will receive from; a hopeless one is never answered |
| `Completion.HopefulFinishes` | internal/data_plane/proxy/load_balancing/load_balancing.go:72-111 | the continuation that answers, place by place, from arrival to the last deferred call |
| `Completion.HopelessNever` | internal/data_plane/proxy/utils.go:38-47 | no continuation answers a hopeless request |
| `DrainBlocking.BlockedIsForever` | internal/data_plane/proxy/utils.go:38-46 | a request blocked in either way stays blocked in every continuation, its token is never returned and the metric never returns to zero |
| `DrainBlocking.RequestHangs` | internal/data_plane/function_metadata/function_metadata.go:305-322 | the full channel happens for every parallelism above zero, with the lock free: two requests picked the endpoint before a drain that has come and gone, and the second one to finish blocks |
| `DrainBlocking.RequestSticks` | internal/data_plane/function_metadata/function_metadata.go:281-289 | such a state is reachable for every parallelism above zero |
| `FunctionMetadata.FunctionMetadata.constructor` | internal/data_plane/function_metadata/function_metadata.go:103-119 | new metadata is the empty state of the admission model |
| `FunctionMetadata.CreateThrottlerChannel` | internal/data_plane/function_metadata/function_metadata.go:165-173 | the filling loop leaves exactly one token per permitted request |
| `FunctionMetadata.FunctionMetadata.AddToEndpointList` | internal/data_plane/function_metadata/function_metadata.go:185-199 | the new endpoints are appended in order, fresh, with all their tokens, and no old one changes |
| `FunctionMetadata.FunctionMetadata.AddEndpoints` | internal/data_plane/function_metadata/function_metadata.go:201-232 | a legal run at whose end the lock is free, the new endpoints are listed behind the old ones, fresh and with all their tokens and, if anything is listed, the queue is empty and exactly the queued waiters have been woken |
| `FunctionMetadata.FunctionMetadata.RemoveEndpoints` | internal/data_plane/function_metadata/function_metadata.go:253-268 | the nested loops remove, for each endpoint named, the first listed one with its URL, which is every one named if URLs are not shared |
| `FunctionMetadata.RemovedExactly` | internal/data_plane/function_metadata/function_metadata.go:253-268 | if no two listed endpoints share a URL, exactly those whose URL is named leave and the others stay in order |
| `FunctionMetadata.FunctionMetadata.RemoveFirst` | internal/data_plane/function_metadata/function_metadata.go:253-268 | the first listed endpoint with the URL leaves, and the list is as before exactly if none has it |
| `FunctionMetadata.FunctionMetadata.MarkEndpointsAsDraining` | internal/data_plane/function_metadata/function_metadata.go:270-303 | exactly the listed endpoints named by id are flagged, the barriers are exactly those not flagged before, once each, and the channel of an idle one is filled |
| `FunctionMetadata.FunctionMetadata.DrainEndpoints` | internal/data_plane/function_metadata/function_metadata.go:234-243 | the whole drain is a legal run that ends with the lock free, the named endpoints off the list and its barriers waited for |
| `FunctionMetadata.FunctionMetadata.RemoveAllEndpoints` | internal/data_plane/function_metadata/function_metadata.go:245-251 | the list is emptied and the endpoints in use keep their tokens and counters |
| `FunctionMetadata.FunctionMetadata.TryWarmStart` | internal/data_plane/function_metadata/function_metadata.go:332-354 | a request is counted and, exactly if no endpoint is active, queued behind the others with a new, empty wait channel |
| `FunctionMetadata.FunctionMetadata.DoLoadBalancing` | internal/data_plane/proxy/load_balancing/load_balancing.go:72-111 | of 60 attempts the first one that gets a token decides the endpoint, which is the one the policy picked for it; without one, or without endpoints, nothing but the request has changed; QueueDepth is as before in all cases |
| `FunctionMetadata.FunctionMetadata.GiveBackCapacity` | internal/data_plane/proxy/utils.go:38-47 | the endpoint gets back exactly what the request took, and the call blocks exactly when it is the last request of a drained endpoint whose channel is nil or full |
| `RequestRuns.Returned` | internal/data_plane/proxy/utils.go:38-47 | on an endpoint that is not drained, giving back undoes taking |
| `RequestRuns.ReturnRun` | internal/data_plane/proxy/utils.go:38-47 | giving back as a run of single atomic steps ends in the described state |
| `RequestRuns.GrantRun` | internal/data_plane/proxy/load_balancing/load_balancing.go:82-100 | a granted attempt as a run of single atomic steps ends with one token less and one request more in flight |
| `RequestRuns.WarmStartRun` | internal/data_plane/function_metadata/function_metadata.go:332-354 | an arrival as a run of single atomic steps ends waiting in the queue or admitted |
| `NetworkPool.NetworksAreApart` | internal/worker_node/sandbox/firecracker/networking.go:96-151 | whatever commands fail and in whatever order networks are taken, given up and created, the pool stays within its maximum and the interface counter below 2^31, because the addresses run out first; if only leased networks are given up, no two networks in the pool or in use share an interface name, subnet or exposed address, none is there twice, and exposed addresses never end in 0 or 255 |
| `NetworkPool.CapacityExactly` | internal/worker_node/sandbox/firecracker/networking.go:210-222 | in every reachable state the k-th network drawn has interface id 2k, subnet (k / 256, k % 256) and exposed address (k / 254, k % 254 + 1), and drawing ends the process if and only if 65024 have been drawn |
| `NetworkPool.ExposedInOrder` | internal/worker_node/managers/ip_manager.go:79-88 | closed form of the search for the next usable exposed address, across the blocks of 256 |
| `NetworkPool.SecondGiveUpShares` | internal/worker_node/sandbox/firecracker/networking.go:96-110 | after any run that gives up only leased networks, giving up one that is in the pool or in use, with room in the pool, keeps the networks apart if and only if it is leased |
| `NetworkPool.TwiceIsShared` | internal/worker_node/sandbox/firecracker/networking.go:96-110 | for every pool size a run that gives up one network twice and has it in the pool twice |
| `NetworkPool.NetsStep` | internal/worker_node/sandbox/firecracker/networking.go:96-151 | each operation, a giving up of a leased network included, keeps the live networks apart |
| `NetworkPool.PoolMax` | internal/worker_node/sandbox/firecracker/networking.go:75-79 | the pool size is the largest multiple of 16 not above the one asked for, at least 16 |
| `NetworkPool.NextHost` | internal/worker_node/managers/ip_manager.go:79-88 | the next usable value is in range, not before the counter, and its address ends in neither 0 nor 255 |
| `NetworkManagers.IPManager.GetUniqueCounterValue` | internal/worker_node/managers/ip_manager.go:45-63 | each call gives the counter and advances it, until the addresses run out |
| `NetworkManagers.IPManager.GenerateRawGatewayIP` | internal/worker_node/managers/ip_manager.go:65-77 | the two fields of the counter value; the answer to an invalid address is never used |
| `NetworkManagers.IPManager.GenerateSingleIP` | internal/worker_node/managers/ip_manager.go:79-88 | the skipping loop finds exactly the next usable address and leaves the counter just behind it |
| `NetworkManagers.VETHNameGenerator.Generate` | internal/worker_node/managers/veth_name_generator.go:37-48 | ids advance by two |
| `NetworkManagers.NetworkPoolManager.constructor` | internal/worker_node/sandbox/firecracker/networking.go:71-89 | an empty pool with fresh counters and the rounded maximum |
| `NetworkManagers.NetworkPoolManager.CreateNetwork` | internal/worker_node/sandbox/firecracker/networking.go:153-222 | identifiers are drawn in the order of the code and not at all when a command fails first |
| `NetworkManagers.NetworkPoolManager.FillPool` | internal/worker_node/sandbox/firecracker/networking.go:112-124 | the loop is a legal run that fills the pool to its maximum, a failed creation leaving a nil entry, unless the process exits |
| `NetworkManagers.NetworkPoolManager.GetOneConfig` | internal/worker_node/sandbox/firecracker/networking.go:126-151 | the oldest entry, or a new network when the pool is empty, becomes a lease |
| `NetworkManagers.NetworkPoolManager.GiveUpNetwork` | internal/worker_node/sandbox/firecracker/networking.go:96-110 | any configuration, nil included, is pooled exactly if there is room; a lease of it ends; a nil one that does not fit ends the process |

## Left out

- Integer widths of terms, votes, tokens and the queue counters: unbounded here. The 32-bit cache of metrics is modelled modulo 2^32 and the 32-bit interface counter is proved not to overflow.
- Election timers and liveness: a time-out may happen at any moment in the roles that allow it. A leader can always be elected (ElectionProgress.ClusterCanSettle); that one is elected in time is not stated.
- ElectionProgress.ClusterCanSettle: for clusters of at least two nodes, because a node without peers leads from the start, and for rules that accept replies of the current term.
- Restart of a control-plane node: the code keeps neither term nor vote, so the model has stopping but no restart.
- The leadership channel is an unbounded queue read in order. In the code it holds one announcement, and a node that waits to announce another one holds the mutex that the question for its role needs; that blocking is not modelled.
- ElectionSafety.QuorumKeepsItsVote: for clusters of at least two nodes, because a node without peers leads term 0 without an election or a vote.
- StaleReplies.RuleIsExact: for rules that accept current replies of their own term, since a rule that rejects those elects nobody and is safe for that reason alone.
- Redis, gRPC, HAProxy, containerd, Firecracker and the HTTP proxy: only success or failure where a step depends on it. Leader forwarding, configuration and tracing are plumbing.
- The response scan and the request scan at recovery are one step each, and recovery gives up the lock of the responses with its last send. Failed request writes refuse the client and leave no trace, so they are not steps.
- VoteHistory.OneVotePerTermExactly: for clusters of at least two nodes and rules that reject harmful replies, as the invariant of the election needs.
- AsyncPipeline.EntryNeverStuck: firing a request is one step that returns. In the code it gives back its capacity in a deferred call (async_proxy_handler.go line 301), which can block for ever as DrainBlocking.RequestSticksExactly states, and a nil endpoint there ends the process, since nothing recovers in that goroutine. A failed deletion of the stored request (lines 228 to 230) is only logged and leaves the request to be replayed; it is not a step.
- AsyncPipeline.CollectorDropsGiveUps: clocks are whole seconds from 1970 on.
- Services that were reconstructed after a leader change (scaling down is disabled there while the scale is still overwritten), and closing of the desired-state channel.
- Each completion of a sandbox creation is one step; the shared append at scaling_loop.go line 189 without a lock of its own is not split.
- ServiceStorage.ServiceInfoStorage.ScalingIteration: one iteration without interference; interference is covered by the machine in `Scaling.dfy`.
- Scaling.CalmServiceIsExact: a sufficient condition on the interleaving; the exact one is in Scaling.ShortfallExactly.
- NodeFailure.NodeFailureIsExact: sandbox ids are unique and every endpoint's node is registered; a report about an endpoint on an unregistered node dereferences nil in the code. Locks are erased here; with them, the monitoring loop at control_plane.go lines 382 to 396, the only caller outside of tests, blocks itself as ControlPlaneStorage.ControlPlane.CheckWorkerNodes states.
- ControlPlaneStorage.ControlPlane.HandleNodeFailure: describes the two calls of the monitoring loop without its lock, because with the lock they do not return.
- Agreement of the endpoint lists of control plane and data planes: the data plane only appends what it is sent again, so it does not hold.
- Autoscaler arithmetic is over the reals with integer seconds; rounding of floating point is not modelled, and neither is exponential averaging, whose coefficients are never set.
- Placement policies and load-balancing policies: the endpoint picked per attempt is arbitrary.
- FunctionMetadata.FunctionMetadata.DoLoadBalancing: one request without interference, with at most the endpoints listed at the start; every interleaving of its atomic steps is covered by the machine in `Admission.dfy`. The same holds for the other methods of that class.
- Completion.FinishesExactly: that a hopeless request is never answered is stated for requests with their token in hand only for the one token per endpoint that the code fixes, since with more tokens a second request may take over the signal; a request that waits for a token behind a doomed lock is not decided. Clients may give up waiting, and timers may fire, at any moment.
- FunctionMetadata.FunctionMetadata.TryWarmStart: the look at the count and the lock without interference; what happens between them is in WakeUps.ServedExactly.
- FunctionMetadata.FunctionMetadata.DrainEndpoints: a drain without interference; what requests can do to it is in MetadataLock.LockFreesExactly.
- FunctionMetadata.FunctionMetadata.MarkEndpointsAsDraining: the retry loop around the compare-and-swap of the drained flag is one step, as are those of the two counters in the worker's managers.
- That no request is in flight when a drain completes, and that the metrics loop runs whenever requests are in flight: both fail at the granularity of the atomics, and the metrics loop is not modelled.
- The closing of a wait channel and time measurements of requests.
- Network commands: each creation fails before its identifiers are drawn, after, or not at all. Namespaces and their random names, deletion of devices and the text form of addresses are not modelled.
- NetworkManagers.NetworkPoolManager.GetOneConfig: the background refill it starts is a separate later call of FillPool.
