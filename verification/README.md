# PBFT replica and key store: a verified model

This project models the replicated key store's consensus layer (`src/pbft`) and the key store fed by it
(`src/distributepki`), and proves properties of every run of the model.

A replica is a single-threaded state machine. One arm of its main loop handles one input: a message from another
node, a client's request, a snapshot of the application, or a timeout. The replica keeps a log of slots keyed by view
and sequence number, a view-change record, pending checkpoints and a few counters.

## Layout

| file | contents |
|---|---|
| `types.dfy` | records, slot order, leader choice, thresholds |
| `quorums.dfy` | counting arguments over sets of node ids |
| `replica.dfy` | the step function of each handler on a node's state |
| `pbft_node.dfy` | the class `PBFTNode`: the handlers as imperative code, each proved to do what its step function says |
| `replica_invariants.dfy` | the invariant of one node's state, kept by every step under arbitrary input |
| `node_runs.dfy` | runs of one node: monotonicity, views entered, allocation of numbers, at-most-once delivery |
| `answers.dfy` | what a node does with requests, pre-prepares, prepares, commits and heartbeats |
| `checkpoint_answers.dfy` | sequence numbers, snapshots, endorsements and adopted checkpoints |
| `view_answers.dfy` | timeouts, votes, joining a view change, becoming leader |
| `entry_answers.dfy` | entering by a new view, answering its set O, and what rests while the view changes |
| `persistence.dfy` | over fresh runs a prepared slot stays prepared until a checkpoint passes it |
| `merge.dfy` | the new-view merge for every way to walk the maps, the set O, the join rule |
| `cluster.dfy` | the cluster: all nodes and the set of all messages ever sent |
| `projection.dfy` | one node's part of a cluster's execution is a run of that node |
| `cluster_invariants.dfy` | what every message and every log in a reachable cluster state means |
| `agreement.dfy` | one pre-prepare per slot, one set O per view |
| `history.dfy` | where messages come from: who issued, entered or accepted what, and in which earlier step |
| `delivery.dfy` | prepared certificates, agreement and backing of deliveries and checkpoints |
| `view_results.dfy` | no view is skipped; the highest view rises only on timeouts |
| `locking.dfy` | what a number keeps across views, and exactly which steps divert it |
| `quorum_locking.dfy` | how many nodes it takes for a number to be kept |
| `keystore.dfy`, `convergence.dfy` | the key store, and its convergence under the deliveries of a cluster |
| `counterexamples.dfy`, `quorum_counterexample.dfy` | concrete executions in which a property fails without its hypothesis |

The project has two tiers. In the node tier, a node's inputs are arbitrary. `PBFTNode` updates its fields in place, and
every handler's postcondition equates its final state and everything it sends, delivers or requests with the step
function of the same name in `Replica`, applied to the old state. In the system tier, any message ever sent may reach
any node any number of times, in any order, or never, and all nodes run the same code; a crashed node takes no
more steps. `PBFTNode.HandleMessages` and `Projection.ProjectsToRun` link them: the inputs of an object take it through
a run of the state machine, and each node's part of a cluster's execution is such a run.

The step functions follow the code's branches. What each kind of input makes a node do is stated apart from them, in the
four modules of answers: on `Step` and the fields before and after, with thresholds written out in the number of nodes.

The number of peers is m = N - 1, and f = m / 3, rounded down.

## Modelling decisions

- A signature is `Forged` or `By(signer)`, and checking it yields the signer if that is a peer. Signing does not fail.
  In the system tier, authenticity comes from delivering only messages that were sent.
- The SHA-256 digest of a request and the hash behind the leader choice are parameters. No result needs digests to be
  injective. The view is cut to 32 bits before it is hashed.
- Where the order in which a Go map is walked can matter, the step function takes the outcome as a parameter (`Choice`),
  under a relation that every order satisfies, so results about all choices cover all orders. The relation for the
  merge, `IsMerge`, also admits mixtures no single order produces; what an order does produce is `WalkMerge`. The
  methods return the choice they made, and `MergeProofs` the walk, as ghost results.
- Node ids are distinct. Every `PBFTNode` belongs to its own cluster.
- Pre-prepares inside a new-view message count as sent, because leaders' heartbeats send them on one by one.
- A leader signs its last new view afresh for every heartbeat to a peer that has not acknowledged it, over the live map
  of collected messages. So a resent new view may show other votes than the first, and the model sends it that way.
- A peer's reply to a heartbeat is an input of the leader, at any time. In the system tier it is at least 1, because it
  is a sequence number or the acknowledgement of a new view.
- A *fresh leader entry* is one in which a leader enters a view above the one it is in. The guard in
  `src/pbft/view_change.go:63` does not ensure it. Where a result needs it, it is a hypothesis on the whole run
  (`FreshRun`, `FreshExecution`). `Counterexamples` shows what fails without it. Exact conditions that do without it are
  proved too: `ViewGoesBackIff` and `SpentIsKeptIff` for one step, `MessagesAgreeIff` and `LockedIff` for a whole
  execution.

Where the code and its comments differ, the model follows the code:

- A digest mismatch in a prepare or commit is only logged, and the message counts.
- Prepares and commits are handled whatever view they are for.
- A checkpoint deletes from the log only the slots whose numbers were pending checkpoints, because the second loop of
  the flush runs over `stable` and not over `stableLog`.
- The new-view merge reads only peers' messages, not the leader's own log, and its range starts at `minS` inclusive.
- Requests are delivered in the order in which slots commit, and what is delivered for a slot may be nil.
- New-view messages are not authenticated.
- The pre-prepares of a new view are passed on by the address of the loop variable. The model treats each as its own
  value.

## Model

| member | source | states |
|---|---|---|
| Types.Config.LeaderFor | src/pbft/common.go:31-35 | the leader of any view, negative or large, is one of the configured nodes |
| Quorums.PeerCount | src/pbft/node.go:297-305 | a node's peers number N - 1, so the thresholds computed from `len(peermap)` are those of the cluster |
| Quorums.NewViewQuorumExact | src/pbft/view_change.go:72 | (2m)/3 is one above 2(m/3) exactly when m mod 3 = 2 and equal to it otherwise |
| Quorums.CheckpointQuorumsOverlap | src/pbft/checkpoint.go:41-45 | two sets of 2f + 1 ids share at least 4f + 2 - N; that is f + 1 exactly when N = 3f + 1, and then some shared id is sound if at most f are faulty |
| PBFT.PBFTNode.constructor | src/pbft/node.go:182-227 | a new node is in the initial state, all its peers caught up to 1, and satisfies the invariant |
| PBFT.PBFTNode.ResetCaughtUp | src/pbft/view_change.go:81-83 | puts exactly the node's peers in the table, all at the same number |
| PBFT.PBFTNode.EnsureMapping | src/pbft/node.go:266-281 | returns the slot under that number, an empty one if there was none, and files it; no other slot changes |
| PBFT.PBFTNode.HandleClientRequest | src/pbft/node.go:345-399 | refines the step: a new digest is recorded, and a leader numbers, logs and sends the request while others forward it |
| PBFT.PBFTNode.Admit | src/pbft/node.go:402-446 | the checks before a pre-prepare is considered, all of them and no others |
| PBFT.PBFTNode.HandlePrePrepare | src/pbft/node.go:401-482 | refines the step: an acceptable pre-prepare fills an empty slot, raises the issue counter, and is answered by a prepare |
| PBFT.PBFTNode.HandlePrepare | src/pbft/node.go:484-524 | refines the step: the prepare is filed, and each one that finds the slot prepared makes the node commit |
| PBFT.PBFTNode.HandleCommit | src/pbft/node.go:526-574 | refines the step: the commit that first completes a quorum delivers the slot's request and may ask for a snapshot |
| PBFT.PBFTNode.StableSlots | src/pbft/checkpoint.go:15-20 | finds exactly the pending checkpoints up to the given one, in whatever order the map is walked |
| PBFT.PBFTNode.FlushLog | src/pbft/checkpoint.go:30-32 | removes exactly those numbers from the log |
| PBFT.PBFTNode.Checkpointed | src/pbft/checkpoint.go:8-39 | refines the step: an older checkpoint changes nothing; otherwise it is adopted, pending ones and their log slots go, and a node that is behind takes the snapshot |
| PBFT.PBFTNode.HandleCheckpointNoValidation | src/pbft/checkpoint.go:76-93 | refines the step: the endorsement is filed unless the number is stable already, and the one that completes a quorum makes it stable |
| PBFT.PBFTNode.HandleCheckpoint | src/pbft/checkpoint.go:62-73 | the same, for a checkpoint signed by the peer it names; any other changes nothing |
| PBFT.PBFTNode.HandleCheckpointProof | src/pbft/checkpoint.go:47-60 | refines the step: a proof from the peer it names is adopted as it stands, without counting signatures in it |
| PBFT.PBFTNode.HandleRecvSnapshot | src/pbft/checkpoint.go:95-110 | refines the step: the node endorses its own snapshot and sends the endorsement |
| PBFT.PBFTNode.GenerateProofsSinceCheckpoint | src/pbft/view_change.go:136-150 | the proofs are exactly the prepared slots after the last checkpoint, for any map order; no slot is read that has no request |
| PBFT.PBFTNode.StartViewChange | src/pbft/view_change.go:159-188 | refines the step, with the guards on a node that is down, on lower views, and on the view already asked for |
| PBFT.PBFTNode.EnterNewView | src/pbft/view_change.go:190-199 | sets the view and restarts the sequence number from the last checkpoint |
| PBFT.PBFTNode.CountAbove | src/pbft/view_change.go:40-49 | for any map order, counts exactly the peers asking for a view above the current one, and finds the least such view |
| PBFT.PBFTNode.CountVotes | src/pbft/view_change.go:65-70 | for any map order, counts exactly the peers whose latest message is for that view |
| PBFT.PBFTNode.MergeProofs | src/pbft/view_change.go:238-269 | the loops follow some walk of the two levels of maps, report which, and compute what that walk computes, which is a merge |
| PBFT.PBFTNode.MergeOne | src/pbft/view_change.go:246-268 | the inner loop goes through all of one message's proofs in some order, each replacing the choice for its number only if its view is higher |
| PBFT.PBFTNode.GeneratePrePreparesForNewView | src/pbft/view_change.go:234-330 | returns the set O of some merge, logs a fresh slot for each of its numbers and no other, and raises the issue counter to maxS |
| PBFT.PBFTNode.EnterAsLeader | src/pbft/view_change.go:73-86 | refines the step: the new view is built from the messages collected and stored, every peer is put back to 0, the view is entered, and a first round of heartbeats sends the new view to all |
| PBFT.PBFTNode.HandleViewChange | src/pbft/view_change.go:12-89 | refines the step: record, then join the least view asked for by f + 1 peers, else become leader with (2m)/3 votes |
| PBFT.PBFTNode.HandleNewView | src/pbft/view_change.go:91-134 | refines the step: enter the view changed to, or any higher one, and work through the set O in some order |
| PBFT.PBFTNode.HeartbeatTo | src/pbft/node.go:610-642 | a sign of life, the last checkpoint, or the next pre-prepare, by how far the peer is; nothing exactly where the source faults on a missing slot |
| PBFT.PBFTNode.SendHeartbeats | src/pbft/node.go:644-697 | every peer at 0 is sent the new view with the votes of the moment, every other one its heartbeat, and a fault is reported iff some peer's slot is missing |
| PBFT.PBFTNode.HandleReply | src/pbft/node.go:667-689 | a peer's reply moves that peer's entry in the table and nothing else |
| PBFT.PBFTNode.HandleHeartbeatTimeout | src/pbft/node.go:595-607 | refines the step: a backup starts a view change, a leader sends heartbeats, and neither during a view change or when down |
| PBFT.PBFTNode.HandleInput | src/pbft/node.go:309-341 | one arm of the main loop refines one step and keeps the invariant, for any input |
| PBFT.PBFTNode.HandleMessages | src/pbft/node.go:309-341 | after any number of inputs the object has gone through a run of the state machine and is in its last state |
| ReplicaInvariants.StepValid | src/pbft/node.go:309-341 | every step, on any input, keeps the invariant: slots hold a request iff a pre-prepare, which is for the slot; votes are filed under their senders; prepared and committed flags imply their quorums; pending checkpoints lie after the last one with 1 to 2f endorsements; a view change under way is for a higher view; the sequence number is at least 1 and the checkpoint's; the issue counter bounds every request held |
| ReplicaInvariants.CommitValid | src/pbft/node.go:526-574 | the part of that for commits |
| ReplicaInvariants.AddCheckpointValid | src/pbft/checkpoint.go:76-93 | the part of that for endorsements: an incomplete record stays below 2f + 1, a complete one is flushed |
| ReplicaInvariants.BecomeLeaderValid | src/pbft/view_change.go:63-88 | the part of that for a leader's entry, fresh or not |
| ReplicaInvariants.AssembledCheckpoint | src/pbft/checkpoint.go:76-93 | a checkpoint that becomes stable here is later than the last one and has exactly 2f + 1 distinct signers, all for its number |
| Answers.SlotOrder | src/pbft/common.go:72-84 | slots are totally ordered, by view first, and before-or-equal is that order with equality |
| Answers.LeaderIsHashed | src/pbft/common.go:31-35 | a view's leader is the node its hash points to, and views that agree in the low 32 bits have the same leader |
| Answers.RequestAnswer | src/pbft/node.go:345-399 | a request is ignored during a view change or if seen; else a leader gives it the next number and logs it, and any other node forwards it |
| Answers.SeenWasAnswered | src/pbft/node.go:349-398 | over any run, every request a node has seen it has numbered or forwarded |
| Answers.AnsweredOnce | src/pbft/node.go:350-354 | and does nothing about it when it comes again |
| Answers.ForgeriesAreIgnored | src/pbft/node.go:489-496 | a prepare, commit, checkpoint, checkpoint proof or vote not signed by the peer it names changes nothing |
| Answers.PrePrepareAnswer | src/pbft/node.go:401-482 | a pre-prepare is answered iff it is from the leader of the node's view, for another node, with the right digest, in the window of 300 above the checkpoint and first for its slot; else nothing changes |
| Answers.PrepareAnswer | src/pbft/node.go:484-524 | an authentic prepare is filed under its sender, and the node commits what it says iff a pre-prepare and 2(m/3) prepares are there |
| Answers.CommitAnswer | src/pbft/node.go:526-573 | an authentic commit the checkpoint has not passed is filed, and the slot's request delivered iff it is the first to find 2(m/3) |
| Answers.HeartbeatAnswer | src/pbft/node.go:610-697 | a leader's timer sends exactly, for each peer by what it has reported, the new view, a sign of life, the checkpoint, or the pre-prepare after that number |
| Answers.TimerRests | src/pbft/node.go:595-601 | the timer does nothing during a view change or at a node that is down |
| Answers.ReplyAnswer | src/pbft/node.go:667-689 | a peer's reply is remembered for that peer alone |
| CheckpointAnswers.StepMoves | src/pbft/checkpoint.go:33-38 | for every input: entering a view restarts the sequence number at the larger of 1 and the checkpoint's, a delivery or snapshot raises it, nothing else moves it; a snapshot is asked for exactly on a delivery at a multiple of 100, for that number; one is handed over exactly if the checkpoint is ahead of the node, and it is that checkpoint's |
| CheckpointAnswers.EndorsementAnswer | src/pbft/checkpoint.go:76-93 | an endorsement is passed over if its number is stable, else filed; the one that completes 2(m/3) + 1 is adopted, dropping exactly the pending records up to it and their log slots; a node sends its own |
| CheckpointAnswers.ProofAnswer | src/pbft/checkpoint.go:47-60 | a peer's authentic proof is adopted as it stands, with the same drops, unless the node's checkpoint is after it |
| CheckpointAnswers.OthersAdoptNothing | src/pbft/checkpoint.go:8-22 | no other input touches the checkpoint or the pending records |
| CheckpointAnswers.PendingWasEndorsed | src/pbft/checkpoint.go:82-89 | over any run, a pending record's snapshot is that of the first endorsement filed for its number |
| CheckpointAnswers.CompletedSnapshot | src/pbft/checkpoint.go:90-92 | and so is the snapshot of a checkpoint the node completes itself |
| ViewAnswers.TimeoutAnswer | src/pbft/view_change.go:159-188 | a timeout makes a node that is up vote for the view after its own, unless it waits for that or has asked for a later one; the vote shows its checkpoint with its proof and exactly what it has prepared since |
| ViewAnswers.JoinAnswer | src/pbft/view_change.go:39-56 | an authentic vote above the current view that brings the peers asking for such views to m/3 + 1 makes the node vote for the least of those views, if it is up and has not asked for a later one |
| ViewAnswers.VoteIsJoined | src/pbft/view_change.go:39-56 | conversely every vote cast on receiving one is for that least view, with that many peers asking, and becomes the view changed to |
| ViewAnswers.VoteHasSoundBacker | src/pbft/view_change.go:36-55 | if at most m/3 ids are faulty, a sound peer's latest message asks for the view of every such vote or a higher one |
| ViewAnswers.LeadAnswer | src/pbft/view_change.go:63-88 | otherwise a vote makes the node leader iff it is changing view, leads the view voted for and has (2m)/3 votes; it then logs and stores the set O, puts every peer back to 0 and sends the new view; else the vote is only recorded |
| ViewAnswers.DownAsksForNothing | src/pbft/view_change.go:160-162 | over any run, a node told it is down asks for no view until told otherwise |
| EntryAnswers.NewViewAnswer | src/pbft/view_change.go:91-134 | a new view is entered iff it is the one waited for or above the current one, and restarts the sequence number; any other changes nothing |
| EntryAnswers.BackupAnswersO | src/pbft/view_change.go:112-117 | a backup that enters prepares every pre-prepare of O that is signed, digested, above the restarted number, in the window and first for its slot, in any order |
| EntryAnswers.BackupPreparesOnlyO | src/pbft/view_change.go:128-132 | and prepares nothing but members of O above that number |
| EntryAnswers.ChangingIgnores | src/pbft/node.go:485-487 | a node that is changing view does nothing about requests, pre-prepares, prepares and commits |
| EntryAnswers.ChangingSendsNoVotes | src/pbft/view_change.go:152-158 | it sends no commits, and no prepares but those with which it enters a view |
| EntryAnswers.LogWaits | src/pbft/view_change.go:152-158 | over any run, from asking for a view until entering one, the log changes only by losing slots the checkpoint has reached |
| NodeRuns.StepAdvances | src/pbft/node.go:309-341 | in every step the issue counter, the requests seen, the checkpoint number and the view asked for never go back, the view changes only by entering one, and the sequence number falls only then |
| NodeRuns.ViewGoesBackIff | src/pbft/view_change.go:63-87 | a step lowers the view exactly when a leader enters a lower view; every other entry raises it |
| NodeRuns.RunMonotone | src/pbft/view_change.go:29-34 | the same over whole runs; with fresh entries the view never falls |
| NodeRuns.EntersEachViewOnce | src/pbft/view_change.go:190-199 | with fresh entries a node enters views in strictly increasing order |
| NodeRuns.AllocationIsFresh | src/pbft/node.go:349-368 | a new number is above that of every slot holding a request in any view, so no such slot is overwritten, and its digest is new |
| NodeRuns.AllocationIsInjective | src/pbft/node.go:349-368 | over any run, the numbers a node assigns strictly increase, and no digest gets two |
| NodeRuns.SpentIsKeptIff | src/pbft/view_change.go:315-323 | a slot that can deliver nothing any more stays so, except exactly when a leader's entry issues its number over again |
| NodeRuns.DeliverySpends | src/pbft/node.go:551-573 | a delivery happens only from a slot that is not spent, and spends it |
| NodeRuns.RedeliveryNeedsReissue | src/pbft/node.go:541-573 | in any run, fresh or not, two deliveries for one slot have such a re-issue between them, despite flushed and rebuilt slots |
| NodeRuns.DeliveredAtMostOnce | src/pbft/node.go:541-573 | with fresh entries, under any messages, a request is delivered at most once per slot |
| MergeResults.MergeExists | src/pbft/view_change.go:238-269 | every collection of messages has a merge |
| MergeResults.ChosenIsTop | src/pbft/view_change.go:246-264 | a number has a choice iff some proof is for it, and the choice is a proof of maximal view for it |
| MergeResults.WalkIsMerge | src/pbft/view_change.go:238-269 | every walk of the maps computes a merge |
| MergeResults.StartWins | src/pbft/view_change.go:256-264 | of proofs with the highest view for a number, the first the walk comes to is kept |
| MergeResults.WalksAgreeIff | src/pbft/view_change.go:238-269 | all walks compute the same merge exactly when proofs of equal number and maximal view carry the same request and digest |
| MergeResults.SetO | src/pbft/view_change.go:273-325 | O has exactly the numbers minS to maxS of the view if minS < maxS and none otherwise; each repeats a proof of maximal view, or is the no-op when there is none |
| MergeResults.TakenOverIff | src/pbft/view_change.go:246-264 | a number's choice is from view v or later exactly when some proof shown is |
| MergeResults.JoinHasSoundBacker | src/pbft/view_change.go:36-55 | if at most f ids are faulty, some sound peer asked for the view that is joined or a higher one |
| MergeResults.LeaderEntryIsBounded | src/pbft/view_change.go:39-63 | a leader never enters a view above the one it is changing to, since so many votes would have made it join that view |
| ClusterInvariants.StepKept | src/pbft/node.go:309-341 | in a cluster every step keeps: messages carry their sender's signature and mean what they should, logs hold only requests that leaders announced and votes that were sent, digests match requests, views are reached one by one |
| ClusterInvariants.ReissuedOk | src/pbft/view_change.go:302-323 | what a new leader issues again has the digest of its request, though it comes from proofs it did not check |
| ClusterInvariants.ProofDigest | src/pbft/view_change.go:136-149 | every proof in a view-change message has the digest of its request |
| Agreement.StepIssues | src/pbft/node.go:364-394 | whatever pre-prepare is new in the network was issued in that step by the leader of its view, and whatever new view is new was built in it or repeats one sent before |
| Agreement.ReachableOk | src/pbft/node.go:309-341 | every reachable state of a cluster satisfies both invariants at every node |
| Agreement.ReachableOneEach | src/pbft/view_change.go:63-88 | with fresh entries there is one pre-prepare per slot, and all new views for one view, resent ones included, carry one set O |
| Histories.WasIssued | src/pbft/node.go:364-394 | every pre-prepare in the network was issued in an earlier step by the leader of its view, for a request or on entering the view |
| Histories.NewViewBacked | src/pbft/view_change.go:63-88 | every new view, first sent or resent, is signed by the leader of its view, which entered it in an earlier step holding signed votes for it from at least (2m)/3 distinct peers, never none, and built this set O then |
| Histories.PrepareWasAccepted | src/pbft/node.go:450-481 | whoever sent a prepare accepted, in that very step, a pre-prepare for its slot with its digest, as a backup of the view it was in and inside its window |
| Histories.NoVotesWhileChanging | src/pbft/node.go:485-487 | in a cluster no node sends a prepare or commit while it is changing view, but for the prepares with which it enters one |
| Projection.ProjectsToRun | src/pbft/node.go:309-341 | one node's part of an execution is a run with its states and inputs, and a fresh one if the execution is |

| Agreement.OneDigestIff | src/pbft/view_change.go:287-323 | in any execution, slots have one digest each exactly when no leader entry gave a number a second one |
| DeliveryResults.MessagesAgree | src/pbft/node.go:448-466 | with fresh entries all pre-prepares, prepares and commits for one slot carry one digest |
| DeliveryResults.MessagesAgreeIff | src/pbft/node.go:500-514 | in any execution they do exactly when no leader entry contradicted a digest given before |
| DeliveryResults.LogsAgree | src/pbft/node.go:546-548 | with fresh entries every log agrees with every message about the slot, so the mismatch branches are never taken |
| DeliveryResults.PreparedCertificate | src/pbft/node.go:297-300 | a prepared slot's leader and preparers are at least 2f + 1 distinct nodes; the leader, no preparer itself, issued a pre-prepare with the slot's digest, and each other accepted one for the slot before it sent its signed prepare |
| DeliveryResults.CertificateAgrees | src/pbft/node.go:498-506 | with fresh entries each of those prepares is for the slot's own digest |
| DeliveryResults.CommitHadCertificate | src/pbft/node.go:505-523 | a commit in the network was sent in an earlier step by its sender, which had the slot prepared then and was not changing view |
| DeliveryResults.DeliveryBacked | src/pbft/node.go:549-571 | every delivery is backed by at least 2f distinct nodes, each of which held a certificate of 2f + 1 when it sent its commit |
| DeliveryResults.DeliveryAgreement | src/pbft/node.go:565-573 | with fresh entries any two requests delivered for one slot, at any nodes, are the same |
| DeliveryResults.DeliveredOncePerNode | src/pbft/node.go:541-573 | in a cluster with fresh entries no node delivers twice for one slot |
| DeliveryResults.CheckpointBacked | src/pbft/checkpoint.go:8-22 | in a cluster every checkpoint adopted, own or received, has 2f + 1 distinct signers who sent their endorsement, or is the initial one |
| ViewResults.NoViewIsSkipped | src/pbft/view_change.go:110-127 | if a node is in a view or changing to it, the leader of every lower view from 1 on entered that view in an earlier step with signed votes from at least (2m)/3 peers |
| ViewResults.TopViewRisesByOne | src/pbft/node.go:335-338 | the highest view in the cluster rises only on a timeout, and by at most one |
| Locking.LockedAcrossViews | src/pbft/view_change.go:240-329 | with fresh entries, if every leader of a view after v merges a proof for n from v or later, every later pre-prepare for n repeats v's digest |
| Locking.LockedIff | src/pbft/view_change.go:287-323 | in any execution, fresh or not, number n has one digest in view v and all later ones exactly as long as no leader diverts it, by entering a view with n in its range or by numbering a request n |
| Locking.DivertingEntryIsBlind | src/pbft/view_change.go:246-300 | an entry that diverts n has collected no proof for n from view v on: it uses an older proof or the no-op |
| Locking.ReachableMergeIsUnique | src/pbft/view_change.go:241-269 | with fresh entries, map order never influences a merge in a reachable state |
| Persistence.SecuredIsKept | src/pbft/node.go:297-300 | a fresh step takes a slot's preparation back only by moving the checkpoint up to it |
| Persistence.StaysPrepared | src/pbft/checkpoint.go:8-39 | over a fresh run a prepared slot is prepared for as long as the checkpoint is before it |
| QuorumLocking.VotersMeetIff | src/pbft/view_change.go:72 | any q nodes include one of the (2m)/3 voters of a leader exactly when (2m)/3 + q - 1 > m, for every cluster size |
| QuorumLocking.CheckpointQuorumMeetsIff | src/pbft/view_change.go:72 | for q = 2f + 1 that is so exactly with four nodes, or with f at least 2 |
| QuorumLocking.QuorumIsVisible | src/pbft/view_change.go:63-72 | a proof shown by the votes of q such nodes is among those a leader merges |
| QuorumLocking.LockedByQuorums | src/pbft/view_change.go:240-329 | with fresh entries a digest shown by q such nodes' votes in every later view is kept |
| QuorumLocking.VoteWasCast | src/pbft/view_change.go:170-187 | every vote was cast in an earlier step by its sender, and shows that node's checkpoint with its proof and exactly what it had prepared since |
| QuorumLocking.RangeStartsAtVoters | src/pbft/view_change.go:238-245 | no number in a set O is below the checkpoint any collected vote's sender had when it voted |
| QuorumLocking.PreparedByQuorumIsKept | src/pbft/view_change.go:136-149 | a number that q such nodes had prepared when they voted for each later view keeps its digest in all of them |
| QuorumLocking.CommittedStaysPrepared | src/pbft/view_change.go:136-149 | a node that has committed a slot has a proof for it whenever it votes later, unless its checkpoint has come that far |
| QuorumLocking.CommittedByQuorumIsKept | src/pbft/node.go:505-523 | a number that q such nodes commit in view v, before they first vote for a later view and with their checkpoints before it, keeps its digest in all later views |
| Counterexamples.AgreementNeedsFreshness | src/pbft/view_change.go:63-87 | a whole-cluster execution whose last step alone is not fresh, after which one slot has two digests |
| Counterexamples.DeliveryNeedsFreshness | src/pbft/view_change.go:315-323 | a run in which a node delivers twice for one slot, because it re-entered a view as leader |
| QuorumCounterexample.TooFewPrepared | src/pbft/view_change.go:241-300 | a fresh execution of four nodes in which, at every entry, whichever of two (2f) given nodes has voted shows a number, and yet the request delivered for it is replaced by the no-op in the next view |
| KeyStores.Keystore.CreateKey | src/distributepki/keystore/keystore.go:61-67 | binds the alias, replacing any binding, and changes no other |
| KeyStores.Keystore.UpdateKey | src/distributepki/keystore/keystore.go:69-75 | likewise, whether or not the alias exists |
| KeyStores.Keystore.LookupKey | src/distributepki/keystore/keystore.go:77-100 | finds an alias iff it is bound, and returns its key, or the empty key |
| KeyStores.Keystore.GetSnapshot | src/distributepki/keystore/keystore.go:102-106 | with a codec that round-trips, the snapshot restores to the current keys |
| KeyStores.Keystore.ApplySnapshot | src/distributepki/keystore/keystore.go:108-119 | replaces the keys, or leaves them if the snapshot does not parse |
| KeyStores.KeyNode.HandleCommit | src/distributepki/keynode.go:260-298 | a request that decodes to code 1 with a create, or code 2 with an update, binds that alias to that key and changes nothing else; every other request changes nothing |
| KeyStores.CommitThenLookup | src/distributepki/keynode.go:273-295 | the next lookup of the alias finds that key |
| KeyStores.KeyNode.HandleSnapshotRequest | src/distributepki/keynode.go:218-224 | replies with the snapshot of the current keys |
| KeyStores.KeyNode.HandleSnapshot | src/distributepki/keynode.go:226-227 | adopts the snapshot's keys |
| KeyStores.KeyNode.HandleUpdates | src/distributepki/keynode.go:205-216 | deliveries, snapshot requests and snapshots, in any interleaving, have their combined effect on the keys, and each request is answered with the snapshot of its moment |
| KeyStores.AppliedAllAt | src/distributepki/keynode.go:273-295 | after any deliveries an alias is bound by one of them if one writes it, and as before otherwise |
| KeyStores.AliasAfter | src/distributepki/keynode.go:273-295 | after any deliveries an alias is bound to a key some decoded create or update of it asks for, and to its old key only if there is none |
| KeyStores.LastAskWins | src/distributepki/keynode.go:273-295 | and that key is the one the last of them asks for |
| KeyStores.ConvergesIff | src/distributepki/keynode.go:260-298 | the final keys are the same for every order and repetition of the operations exactly when they give each alias one key |
| KeyStores.OnlyLastSnapshotCounts | src/distributepki/keynode.go:205-227 | the keys after any updates are those of the last snapshot adopted with the deliveries after it applied |
| KeyStores.CatchesUp | src/distributepki/keynode.go:218-227 | adopting the reply another node gave, whatever was handled before, and then its deliveries yields its keys, if the codec round-trips |
| Convergence.SameSlotsSameKeys | src/distributepki/keynode.go:260-298 | in a cluster with fresh entries, two nodes that delivered requests for the same slots, in whatever orders, hold the same keys, if each alias is given one key and no snapshot was adopted |

## Left out

- Byzantine nodes: in the system tier all nodes run this code. The node tier takes arbitrary messages.
- An unconditional guarantee across views: `TooFewPrepared` shows that the thresholds do not give one.
- Liveness, timers and durations: a timeout may happen at any moment. Whether a timer is running is not modelled.
- The same order of execution at all replicas: the code delivers in commit order.
- OpenPGP, SHA-256, JSON and gob encodings, including the JSON codecs of slot-keyed maps: values are exchanged as they
  are.
- RPC, HTTP, broadcasting, goroutines, locks and blocking channels: a message sent is in the network at once, and a
  delivery, snapshot request or applied snapshot is an output of the step.
- Aliasing: slots, collected messages and proofs are values. A view-change message that shares the map of prepares with
  a slot still being filled is modelled as sent once as it was. The map that a leader's new view shares with the
  collected messages is modelled.
- PBFT.PBFTNode.SendHeartbeats: after the fault on a missing slot the source stops, and which peers it has served by
  then depends on map order; the model serves all the others and goes on.
- PBFT.PBFTNode.HandleClientRequest: takes a string, so the nil request, on which computing the digest would fault, has
  no counterpart.
- Overflow of Go integers: views and sequence numbers are unbounded, except where a view is cut to 32 bits.
- The debug interface, except that a node may be told it is down; a node that is down still handles what its channels
  hold, as in the code, and refuses nothing.
- The `stableLog` list of the flush, which is computed and never used, and the `requestInfo` records, of which only the
  set of digests is read.
- PBFT.PBFTNode.HandleMessages: the loop is cut off after any number of inputs, and sends no outputs anywhere.
- KeyStores.KeyNode.HandleCommit: replies to waiting clients are not modelled.
- `kvstore.go`, the mock authority, the client, configuration and process start-up.
