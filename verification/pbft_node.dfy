/**
 The replica as the source has it: an object whose handlers update its fields in place. Every handler is proved to
 do exactly what the corresponding step function of module Replica says; ghost results record how it resolved
 the iteration order of a map where that matters.
 */
module PBFT {
  import opened Types
  import opened Replica
  import opened ReplicaInvariants
  import opened MergeResults
  import opened NodeRuns

  class PBFTNode {
    const cfg: Config
    const id: NodeId

    var log: map<SlotId, Slot>
    var viewNumber: int
    var sequenceNumber: int
    var issuedSequenceNumber: int
    var requests: set<Digest>
    var viewChange: ViewChangeInfo
    var lastCheckpoint: CheckpointProof
    var pendingCheckpoints: map<SlotId, CheckpointProof>
    var newView: Option<StoredNewView>
    var caughtUp: map<NodeId, int>
    var down: bool

    ghost function State(): NodeState
      reads this
    {
      NodeState(viewNumber, sequenceNumber, issuedSequenceNumber, log, requests, viewChange, lastCheckpoint,
                pendingCheckpoints, newView, caughtUp, down)
    }

    ghost predicate Ok()
      reads this
    {
      cfg.Valid() && id in cfg.nodes && Valid(cfg, State())
    }

    // Part of the invariant, needed wherever the request of a prepared slot is read.
    ghost predicate RequestsHeld()
      reads this
    {
      forall k :: k in log && log[k].preprepare.Some? ==> log[k].request.Some?
    }

    constructor (cfg: Config, id: NodeId)
      requires cfg.Valid() && id in cfg.nodes
      ensures this.cfg == cfg && this.id == id && State() == Initial(cfg, id) && Ok()
      ensures viewNumber == 0 && sequenceNumber == issuedSequenceNumber == 1 && !viewChange.inProgress && !down
      ensures log == map[] && requests == {} && pendingCheckpoints == map[] && viewChange.messages == map[]
      ensures lastCheckpoint == CheckpointProof(SlotId(0, 0), [], map[])
      ensures forall p :: p in cfg.nodes && p != id ==> p in caughtUp && caughtUp[p] == 1
    {
      this.cfg, this.id := cfg, id;
      log, requests, pendingCheckpoints := map[], {}, map[];
      viewNumber, sequenceNumber, issuedSequenceNumber := 0, 1, 1;
      viewChange := INITIAL_CHANGE;
      lastCheckpoint := INITIAL_CHECKPOINT;
      newView, caughtUp, down := None, map[], false;
      new;
      ResetCaughtUp(1);
      InitialValid(cfg, id);
    }

    // The loop over the peers that starts the table, and starts it over when a new view is built.
    method ResetCaughtUp(number: int)
      modifies this`caughtUp
      requires caughtUp.Keys <= AllPeersAt(cfg, id, number).Keys
      ensures caughtUp == AllPeersAt(cfg, id, number)
    {
      for i := 0 to |cfg.nodes|
        invariant caughtUp.Keys <= AllPeersAt(cfg, id, number).Keys
        invariant forall p :: p in cfg.nodes[..i] && cfg.IsPeer(id, p) ==> p in caughtUp && caughtUp[p] == number
      {
        if cfg.nodes[i] != id {
          caughtUp := caughtUp[cfg.nodes[i] := number];
        }
      }
      assert cfg.nodes[..|cfg.nodes|] == cfg.nodes;
    }

    method EnsureMapping(number: SlotId) returns (slot: Slot)
      modifies this`log
      ensures slot == SlotAt(old(log), number)
      ensures log == old(log)[number := slot]
    {
      if number !in log {
        log := log[number := EMPTY_SLOT];
      }
      slot := log[number];
      assert log == log[number := slot];
    }

    // Normal case

    method HandleClientRequest(request: string) returns (sent: set<Msg>)
      requires cfg.Valid()
      modifies this`log, this`requests, this`issuedSequenceNumber
      ensures Outcome(State(), sent, None, None, None) == Replica.HandleClientRequest(cfg, id, old(State()), request)
    {
      sent := {};
      if viewChange.inProgress { return; }
      var requestDigest := cfg.digest(request);
      if requestDigest in requests { return; }
      requests := requests + {requestDigest};
      if cfg.LeaderFor(viewNumber) == id {
        issuedSequenceNumber := issuedSequenceNumber + 1;
        var number := SlotId(viewNumber, issuedSequenceNumber);
        var signed := SignedPrePrepare(PrePrepare(number, requestDigest), By(id));
        log := log[number := Slot(Some(request), requestDigest, Some(signed), map[], map[], false, false)];
        sent := {MPrePrepare(FullPrePrepare(signed, request))};
      } else {
        sent := {MClientRequest(request)};
      }
    }

    // The checks a backup makes before it looks at its log.
    method Admit(preprepare: FullPrePrepare) returns (ok: bool)
      requires |cfg.nodes| >= 1
      ensures ok == Admissible(cfg, id, State(), preprepare)
    {
      if viewChange.inProgress || cfg.LeaderFor(viewNumber) == id { return false; }
      var message := preprepare.signed.message;
      var sender := cfg.Signer(id, preprepare.signed.signature);
      if sender.None? { return false; }
      var sameView := message.number.view == viewNumber;
      if sameView && sender.value != cfg.LeaderFor(viewNumber) { return false; }
      if message == HEARTBEAT { return false; }
      if message.number.view != viewNumber { return false; }
      if message.number.seqNo > lastCheckpoint.number.seqNo + CHECKPOINT * 3
         || message.number.seqNo <= lastCheckpoint.number.seqNo { return false; }
      return message.digest == cfg.digest(preprepare.request);
    }

    method HandlePrePrepare(preprepare: FullPrePrepare) returns (sent: set<Msg>)
      requires cfg.Valid()
      modifies this`log, this`issuedSequenceNumber
      ensures Outcome(State(), sent, None, None, None) == Replica.HandlePrePrepare(cfg, id, old(State()), preprepare)
    {
      sent := {};
      var admitted := Admit(preprepare);
      if !admitted { return; }
      var number := preprepare.signed.message.number;
      ghost var before := log;
      var slot := EnsureMapping(number);
      if slot.request.Some? {
        assert log == before;
        return;
      }
      if number.seqNo > issuedSequenceNumber {
        issuedSequenceNumber := number.seqNo;
      }
      var prepare := SignedPrepare(Prepare(number, preprepare.signed.message.digest, id), By(id));
      slot := slot.(request := Some(preprepare.request), digest := preprepare.signed.message.digest,
                    preprepare := Some(preprepare.signed), prepares := slot.prepares[id := prepare]);
      log := log[number := slot];
      assert log == before[number := slot];
      sent := {MPrepare(prepare)};
    }

    method HandlePrepare(message: SignedPrepare) returns (sent: set<Msg>)
      requires cfg.Valid()
      modifies this`log
      ensures Outcome(State(), sent, None, None, None) == Replica.HandlePrepare(cfg, id, old(State()), message)
    {
      sent := {};
      if viewChange.inProgress { return; }
      if cfg.Signer(id, message.signature) != Some(message.message.node) { return; }
      var prepare := message.message;
      ghost var before := log;
      var slot := EnsureMapping(prepare.number);
      slot := slot.(prepares := slot.prepares[prepare.node := message]);
      log := log[prepare.number := slot];
      assert log == before[prepare.number := slot];
      if IsPrepared(cfg, slot) {
        var commit := SignedCommit(Commit(prepare.number, prepare.digest, id), By(id));
        slot := slot.(prepared := true, commits := slot.commits[id := commit]);
        log := log[prepare.number := slot];
        assert log == before[prepare.number := slot];
        sent := {MCommit(commit)};
      }
    }

    method HandleCommit(message: SignedCommit)
      returns (delivered: Option<Delivery>, snapshotRequest: Option<SlotId>)
      requires cfg.Valid()
      modifies this`log, this`sequenceNumber
      ensures Outcome(State(), {}, delivered, snapshotRequest, None) ==
              Replica.HandleCommit(cfg, id, old(State()), message)
    {
      delivered, snapshotRequest := None, None;
      if viewChange.inProgress { return; }
      if cfg.Signer(id, message.signature) != Some(message.message.node) { return; }
      var commit := message.message;
      if commit.number.Before(lastCheckpoint.number) { return; }
      ghost var before := log;
      var slot := EnsureMapping(commit.number);
      slot := slot.(commits := slot.commits[commit.node := message]);
      var nowCommitted := !slot.committed && IsCommitted(cfg, slot);
      if nowCommitted {
        slot := slot.(committed := true);
        if commit.number.seqNo > sequenceNumber {
          sequenceNumber := commit.number.seqNo;
        }
      }
      log := log[commit.number := slot];
      assert log == before[commit.number := slot];
      if nowCommitted {
        delivered := Some(Delivery(commit.number, slot.request));
        if sequenceNumber % CHECKPOINT == 0 {
          snapshotRequest := Some(SlotId(viewNumber, sequenceNumber));
        }
      }
    }

    // Checkpoints

    method StableSlots(number: SlotId) returns (stable: seq<SlotId>)
      ensures forall k :: k in stable <==> k in Flushed(pendingCheckpoints, number)
    {
      stable := [];
      var rest := pendingCheckpoints.Keys;
      while rest != {}
        invariant rest <= pendingCheckpoints.Keys
        invariant forall k :: k in stable <==> k in pendingCheckpoints.Keys - rest && k.BeforeOrEqual(number)
        decreases |rest|
      {
        var slot :| slot in rest;
        rest := rest - {slot};
        if slot.BeforeOrEqual(number) {
          stable := stable + [slot];
        }
      }
    }

    method FlushPending(stable: seq<SlotId>)
      modifies this`pendingCheckpoints
      ensures pendingCheckpoints == old(pendingCheckpoints) - set k | k in stable
    {
      for i := 0 to |stable|
        invariant pendingCheckpoints == old(pendingCheckpoints) - set k | k in stable[..i]
      {
        pendingCheckpoints := pendingCheckpoints - {stable[i]};
      }
      assert stable[..|stable|] == stable;
    }

    method FlushLog(stable: seq<SlotId>)
      modifies this`log
      ensures log == old(log) - set k | k in stable
    {
      for i := 0 to |stable|
        invariant log == old(log) - set k | k in stable[..i]
      {
        log := log - {stable[i]};
      }
      assert stable[..|stable|] == stable;
    }

    // The source also lists the log slots up to the checkpoint, but what it deletes from the log is `stable`.
    method Checkpointed(checkpoint: CheckpointProof) returns (applied: Option<Snapshot>)
      modifies this`log, this`sequenceNumber, this`lastCheckpoint, this`pendingCheckpoints
      ensures Outcome(State(), {}, None, None, applied) == Replica.Checkpointed(old(State()), checkpoint)
    {
      applied := None;
      if checkpoint.number.Before(lastCheckpoint.number) { return; }
      lastCheckpoint := checkpoint;
      var stable := StableSlots(checkpoint.number);
      assert (set k | k in stable) == Flushed(pendingCheckpoints, checkpoint.number);
      FlushPending(stable);
      FlushLog(stable);
      if sequenceNumber < checkpoint.number.seqNo {
        applied := Some(checkpoint.snapshot);
        sequenceNumber := checkpoint.number.seqNo;
      }
    }

    predicate IsStable(number: SlotId)
      reads this
      ensures IsStable(number) == Replica.IsStable(cfg, State(), number)
    {
      || number.BeforeOrEqual(lastCheckpoint.number)
      || (number in pendingCheckpoints && |pendingCheckpoints[number].proof| >= cfg.CheckpointQuorum())
    }

    method HandleCheckpointNoValidation(message: SignedCheckpoint) returns (applied: Option<Snapshot>)
      requires cfg.Valid()
      modifies this`log, this`sequenceNumber, this`lastCheckpoint, this`pendingCheckpoints
      ensures Outcome(State(), {}, None, None, applied) == AddCheckpoint(cfg, old(State()), message)
    {
      applied := None;
      var checkpoint := message.message;
      if IsStable(checkpoint.number) { return; }
      if checkpoint.number !in pendingCheckpoints {
        pendingCheckpoints :=
          pendingCheckpoints[checkpoint.number := CheckpointProof(checkpoint.number, checkpoint.snapshot, map[])];
      }
      var record := pendingCheckpoints[checkpoint.number];
      record := record.(proof := record.proof[checkpoint.node := message]);
      pendingCheckpoints := pendingCheckpoints[checkpoint.number := record];
      assert pendingCheckpoints == old(pendingCheckpoints)[checkpoint.number := record];
      if IsStable(checkpoint.number) {
        applied := Checkpointed(record);
      }
    }

    method HandleCheckpoint(message: SignedCheckpoint) returns (applied: Option<Snapshot>)
      requires cfg.Valid()
      modifies this`log, this`sequenceNumber, this`lastCheckpoint, this`pendingCheckpoints
      ensures Outcome(State(), {}, None, None, applied) == Replica.HandleCheckpoint(cfg, id, old(State()), message)
    {
      applied := None;
      if cfg.Signer(id, message.signature) != Some(message.message.node) { return; }
      applied := HandleCheckpointNoValidation(message);
    }

    method HandleCheckpointProof(proof: SignedCheckpointProof) returns (applied: Option<Snapshot>)
      requires cfg.Valid()
      modifies this`log, this`sequenceNumber, this`lastCheckpoint, this`pendingCheckpoints
      ensures Outcome(State(), {}, None, None, applied) == Replica.HandleCheckpointProof(cfg, id, old(State()), proof)
    {
      applied := None;
      if cfg.Signer(id, proof.signature) != Some(proof.message.node) { return; }
      applied := Checkpointed(proof.message.proof);
    }

    method HandleRecvSnapshot(number: SlotId, state: Snapshot)
      returns (sent: set<Msg>, applied: Option<Snapshot>)
      requires cfg.Valid()
      modifies this`log, this`sequenceNumber, this`lastCheckpoint, this`pendingCheckpoints
      ensures Outcome(State(), sent, None, None, applied) ==
              Replica.HandleRecvSnapshot(cfg, id, old(State()), number, state)
    {
      var signed := SignedCheckpoint(Checkpoint(number, state, id), By(id));
      applied := HandleCheckpointNoValidation(signed);
      sent := {MCheckpoint(signed)};
    }

    // View changes

    method GenerateProofsSinceCheckpoint() returns (proofs: map<SlotId, PreparedProof>)
      requires RequestsHeld()
      ensures proofs == ProofsSinceCheckpoint(cfg, State())
    {
      proofs := map[];
      var rest := log.Keys;
      while rest != {}
        invariant rest <= log.Keys
        invariant forall k :: k in proofs <==> k in log.Keys - rest && HasProof(cfg, State(), k)
        invariant forall k :: k in proofs ==> log[k].request.Some? && proofs[k] == ProofOf(k, log[k])
        decreases |rest|
      {
        var number :| number in rest;
        rest := rest - {number};
        var slot := log[number];
        if lastCheckpoint.number.Before(number) && IsPrepared(cfg, slot) {
          proofs := proofs[number := PreparedProof(
            number, slot.request.value, slot.preprepare.value, slot.digest, slot.prepares)];
        }
      }
    }

    method StartViewChange(view: int) returns (sent: set<Msg>)
      requires RequestsHeld()
      modifies this`viewChange
      ensures Outcome(State(), sent, None, None, None) == Replica.StartViewChange(cfg, id, old(State()), view)
    {
      sent := {};
      if down { return; }
      if viewChange.view > view || (viewChange.inProgress && viewChange.view == view) { return; }
      viewChange := viewChange.(inProgress := true, view := view);
      var proofs := GenerateProofsSinceCheckpoint();
      assert proofs == ProofsSinceCheckpoint(cfg, old(State()));
      var message := ViewChange(view, lastCheckpoint.number, lastCheckpoint.proof, proofs, id);
      sent := {MViewChange(SignedViewChange(message, By(id)))};
    }

    method EnterNewView(view: int)
      modifies this`viewChange, this`viewNumber, this`sequenceNumber
      ensures State() == Replica.EnterNewView(old(State()), view)
    {
      viewChange := viewChange.(inProgress := false);
      viewNumber := view;
      sequenceNumber := 1;
      if lastCheckpoint.number.seqNo > sequenceNumber {
        sequenceNumber := lastCheckpoint.number.seqNo;
      }
    }

    // How many peers ask for a view above this one, and the least such view.
    method CountAbove(current: int, view: int) returns (higher: nat, lowest: int)
      requires exists j :: j in viewChange.messages && viewChange.messages[j].message.view == view && view > current
      ensures higher == |Above(viewChange.messages, current)|
      ensures IsLowestAbove(viewChange.messages, current, lowest)
    {
      higher, lowest := 0, view;
      var rest := viewChange.messages.Keys;
      ghost var seen: set<NodeId> := {};
      while rest != {}
        invariant rest <= viewChange.messages.Keys
        invariant seen == set j | j in Above(viewChange.messages, current) && j !in rest
        invariant higher == |seen|
        invariant current < lowest <= view
        invariant lowest == view || exists j :: j in seen && viewChange.messages[j].message.view == lowest
        invariant forall j :: j in seen ==> lowest <= viewChange.messages[j].message.view
        decreases |rest|
      {
        var node :| node in rest;
        var asked := viewChange.messages[node].message.view;
        rest := rest - {node};
        if asked > current {
          higher := higher + 1;
          seen := seen + {node};
          if asked < lowest {
            lowest := asked;
          }
        }
      }
      assert seen == Above(viewChange.messages, current);
    }

    method CountVotes(view: int) returns (votes: nat)
      ensures votes == |Voters(viewChange.messages, view)|
    {
      votes := 0;
      var rest := viewChange.messages.Keys;
      ghost var seen: set<NodeId> := {};
      while rest != {}
        invariant rest <= viewChange.messages.Keys
        invariant seen == set j | j in Voters(viewChange.messages, view) && j !in rest
        invariant votes == |seen|
        decreases |rest|
      {
        var node :| node in rest;
        rest := rest - {node};
        if viewChange.messages[node].message.view == view {
          votes := votes + 1;
          seen := seen + {node};
        }
      }
      assert seen == Voters(viewChange.messages, view);
    }

    // The merge of the collected proofs. Its loops take the two levels of maps in any order, and report which.
    method MergeProofs() returns (merge: Merge, ghost walk: Walk)
      ensures IsWalk(viewChange.messages, walk)
      ensures merge == WalkMerge(lastCheckpoint.number.seqNo, viewChange.messages, walk)
      ensures IsMerge(lastCheckpoint.number.seqNo, viewChange.messages, merge)
    {
      var low := lastCheckpoint.number.seqNo;
      var messages := viewChange.messages;
      var minS, maxS := low, low;
      var seqNums: map<int, RequestView> := map[];
      walk := Walk([], map[]);
      var rest := messages.Keys;
      while rest != {}
        invariant rest <= messages.Keys
        invariant WalkedSoFar(messages, walk, messages.Keys - rest)
        invariant Holds(low, messages, walk, Merge(seqNums, minS, maxS))
        decreases |rest|
      {
        hide IsWalk, WalkMerge, IsMerge, ChosenAlong, MaxAlong, Enumerates;
        var node :| node in rest;
        ghost var before, walked := walk, messages.Keys - rest;
        rest := rest - {node};
        if messages[node].message.checkpoint.seqNo > minS {
          minS := messages[node].message.checkpoint.seqNo;
        }
        ghost var proofs;
        seqNums, maxS, proofs := MergeOne(messages, node, seqNums, low, maxS, Along(before.order, before.proofs));
        walk := Walk(before.order + [node], before.proofs[node := proofs]);
        OneMoreMessage(low, messages, before, walked, node, proofs);
        assert messages.Keys - rest == walked + {node};
      }
      assert messages.Keys - rest == messages.Keys;
      merge := Merge(seqNums, minS, maxS);
      WalkIsMerge(low, messages, walk);
    }

    // The inner loop, over the proofs in one view-change message.
    static method MergeOne(
      messages: map<NodeId, SignedViewChange>, node: NodeId, chosen: map<int, RequestView>, low: int, top: int,
      ghost before: seq<Entry>)
      returns (seqNums: map<int, RequestView>, maxS: int, ghost order: seq<SlotId>)
      requires node in messages && forall e :: e in before ==> ProofIn(messages, e.0, e.1)
      requires chosen == ChosenAlong(messages, before) && top == MaxAlong(low, before)
      ensures Enumerates(order, messages[node].message.proofs.Keys)
      ensures forall e :: e in before + Pairs(node, order) ==> ProofIn(messages, e.0, e.1)
      ensures seqNums == ChosenAlong(messages, before + Pairs(node, order))
      ensures maxS == MaxAlong(low, before + Pairs(node, order))
    {
      seqNums, maxS, order := chosen, top, [];
      var proofs := messages[node].message.proofs;
      var rest := proofs.Keys;
      assert before + Pairs(node, []) == before;
      while rest != {}
        invariant rest <= proofs.Keys
        invariant Enumerates(order, proofs.Keys - rest)
        invariant forall e :: e in before + Pairs(node, order) ==> ProofIn(messages, e.0, e.1)
        invariant seqNums == ChosenAlong(messages, before + Pairs(node, order))
        invariant maxS == MaxAlong(low, before + Pairs(node, order))
        decreases |rest|
      {
        hide ChosenAlong, MaxAlong, Pairs;
        var num :| num in rest;
        OneMoreProof(low, messages, before, node, order, num);
        EnumerateOne(order, proofs.Keys - rest, num);
        rest := rest - {num};
        order := order + [num];
        var reqInfo := RequestView(proofs[num].request, proofs[num].digest, num.view);
        if num.seqNo in seqNums {
          if reqInfo.view > seqNums[num.seqNo].view {
            seqNums := seqNums[num.seqNo := reqInfo];
          }
        } else {
          seqNums := seqNums[num.seqNo := reqInfo];
        }
        if maxS < num.seqNo {
          maxS := num.seqNo;
        }
        hide Enumerates;
      }
      assert proofs.Keys - rest == proofs.Keys;
    }

    method GeneratePrePreparesForNewView(view: int)
      returns (preprepares: map<SlotId, FullPrePrepare>, ghost merge: Merge)
      requires cfg.Valid()
      modifies this`log, this`issuedSequenceNumber
      ensures IsMerge(lastCheckpoint.number.seqNo, viewChange.messages, merge)
      ensures preprepares == NewViewPrePrepares(cfg, id, view, merge)
      ensures log == old(log) + IssuedSlots(preprepares)
      ensures issuedSequenceNumber ==
        if merge.maxS > old(issuedSequenceNumber) then merge.maxS else old(issuedSequenceNumber)
    {
      var m;
      ghost var walk;
      m, walk := MergeProofs();
      merge := m;
      preprepares := map[];
      if m.minS < m.maxS {
        preprepares := ReissueRange(view, m);
      }
      RangeIsSetO(cfg, id, view, m);
      if m.maxS > issuedSequenceNumber {
        issuedSequenceNumber := m.maxS;
      }
    }

    // The second part of the source's function: a pre-prepare and a log slot for each number in the range.
    method ReissueRange(view: int, m: Merge) returns (preprepares: map<SlotId, FullPrePrepare>)
      requires cfg.Valid() && m.minS < m.maxS
      modifies this`log
      ensures preprepares == ReissuedBelow(cfg, id, view, m, m.maxS + 1)
      ensures log == old(log) + IssuedSlots(preprepares)
    {
      preprepares := map[];
      for s := m.minS to m.maxS + 1
        invariant preprepares == ReissuedBelow(cfg, id, view, m, s)
        invariant log == old(log) + IssuedSlots(preprepares)
      {
        var slotId := SlotId(view, s);
        var request, requestDigest := "", cfg.digest("");
        if s in m.chosen {
          request, requestDigest := m.chosen[s].request, m.chosen[s].digest;
        }
        var signed := SignedPrePrepare(PrePrepare(slotId, requestDigest), By(id));
        var full := FullPrePrepare(signed, request);
        IssueOne(old(log), preprepares, slotId, full);
        ReissueOne(cfg, id, view, m, s);
        preprepares := preprepares[slotId := full];
        log := log[slotId := Slot(Some(request), requestDigest, Some(signed), map[], map[], false, false)];
      }
    }

    // Building the new view, entering it, and a first round of heartbeats, which sends it to every peer.
    method EnterAsLeader(view: int) returns (sent: set<Msg>, ghost merge: Merge)
      requires cfg.Valid() && cfg.LeaderFor(view) == id && exists p :: p in cfg.nodes && cfg.IsPeer(id, p)
      modifies this`log, this`issuedSequenceNumber, this`viewChange, this`viewNumber, this`sequenceNumber,
               this`newView, this`caughtUp
      ensures IsMerge(old(lastCheckpoint.number.seqNo), old(viewChange.messages), merge)
      ensures Outcome(State(), sent, None, None, None) == BecomeLeader(cfg, id, old(State()), view, merge)
    {
      hide SendHeartbeat, HeartbeatFor, NewViewPrePrepares, IsMerge, AllPeersAt;
      var preprepares;
      preprepares, merge := GeneratePrePreparesForNewView(view);
      newView := Some(StoredNewView(view, preprepares));
      caughtUp := map[];
      ResetCaughtUp(0);
      EnterNewView(view);
      var faulted;
      sent, faulted := SendHeartbeats();
      FirstRound(cfg, id, State());
    }

    method HandleViewChange(message: SignedViewChange) returns (sent: set<Msg>, ghost merge: Merge)
      requires cfg.Valid() && RequestsHeld()
      modifies this`log, this`issuedSequenceNumber, this`viewChange, this`viewNumber, this`sequenceNumber,
               this`newView, this`caughtUp
      ensures IsMerge(
        old(lastCheckpoint.number.seqNo), Record(old(State()), message).change.messages, merge)
      ensures Outcome(State(), sent, None, None, None) ==
              Replica.HandleViewChange(cfg, id, old(State()), message, merge)
    {
      hide IsMerge, BecomeLeader, ProofsSinceCheckpoint, IsLowestAbove, Above;
      sent := {};
      merge := MergeExists(lastCheckpoint.number.seqNo, Record(State(), message).change.messages);
      if cfg.Signer(id, message.signature) != Some(message.message.node) { return; }
      var view := message.message.view;
      var currentView := if viewChange.inProgress then viewChange.view else viewNumber;
      viewChange := viewChange.(messages := viewChange.messages[message.message.node := message]);
      if view > currentView {
        assert viewChange.messages[message.message.node].message.view == view;
        var higher, lowest := CountAbove(currentView, view);
        if higher >= cfg.JoinQuorum() {
          LowestIsUnique(viewChange.messages, currentView, lowest);
          sent := StartViewChange(lowest);
          return;
        }
      }
      if viewChange.inProgress && cfg.LeaderFor(view) == id {
        var votes := CountVotes(view);
        if votes >= cfg.NewViewQuorum() {
          sent, merge := EnterAsLeader(view);
        }
      }
    }

    method HandleNewView(message: SignedNewView) returns (sent: set<Msg>, ghost order: seq<SlotId>)
      requires cfg.Valid()
      modifies this`log, this`issuedSequenceNumber, this`viewChange, this`viewNumber, this`sequenceNumber
      ensures Enumerates(order, message.message.prePrepares.Keys)
      ensures Outcome(State(), sent, None, None, None) ==
              Replica.HandleNewView(cfg, id, old(State()), message, order)
    {
      var view := message.message.view;
      if viewChange.inProgress && view == viewChange.view {
        EnterNewView(view);
        sent, order := AcceptPrePrepares(message.message.prePrepares);
        return;
      }
      var currentView := if viewChange.inProgress then viewChange.view else viewNumber;
      if view > currentView {
        EnterNewView(view);
        sent, order := AcceptPrePrepares(message.message.prePrepares);
      } else {
        sent := {};
        order := SomeOrder(message.message.prePrepares.Keys);
      }
    }

    // Each pre-prepare is handled as a value of its own.
    method AcceptPrePrepares(pps: map<SlotId, FullPrePrepare>) returns (sent: set<Msg>, ghost order: seq<SlotId>)
      requires cfg.Valid()
      modifies this`log, this`issuedSequenceNumber
      ensures Enumerates(order, pps.Keys)
      ensures Outcome(State(), sent, None, None, None) == AcceptAll(cfg, id, old(State()), pps, order)
    {
      sent, order := {}, [];
      var rest := pps.Keys;
      while rest != {}
        invariant rest <= pps.Keys
        invariant Enumerates(order, pps.Keys - rest)
        invariant Outcome(State(), sent, None, None, None) == AcceptAll(cfg, id, old(State()), pps, order)
        decreases |rest|
      {
        var k :| k in rest;
        rest := rest - {k};
        ghost var longer := order + [k];
        EnumerateOne(order, pps.Keys - (rest + {k}), k);
        assert pps.Keys - rest == pps.Keys - (rest + {k}) + {k};
        assert forall n :: n in longer ==> n in pps;
        hide Enumerates;
        AcceptOne(cfg, id, old(State()), pps, order, k);
        hide AcceptAll, Replica.HandlePrePrepare;
        if pps[k].signed.message.number.seqNo > sequenceNumber {
          var more := HandlePrePrepare(pps[k]);
          sent := sent + more;
        }
        order := longer;
      }
    }

    // Timers and the main loop

    // None for the fault the source runs into when the log has nothing to resend to this peer.
    method HeartbeatTo(peerSequence: int) returns (msg: Option<Msg>)
      requires cfg.Valid()
      ensures msg == HeartbeatMessage(cfg, id, State(), peerSequence)
    {
      if sequenceNumber == peerSequence {
        return Some(MPrePrepare(FullPrePrepare(SignedPrePrepare(HEARTBEAT, By(id)), "")));
      }
      if peerSequence < lastCheckpoint.number.seqNo {
        return Some(MCheckpointProof(SignedCheckpointProof(CheckpointProofMessage(lastCheckpoint, id), By(id))));
      }
      var slot := SlotAt(log, SlotId(viewNumber, peerSequence + 1));
      if slot.preprepare.None? || slot.request.None? { return None; }
      return Some(MPrePrepare(FullPrePrepare(slot.preprepare.value, slot.request.value)));
    }

    // The new view is signed afresh each time, with the votes collected by then.
    method SendHeartbeats() returns (sent: set<Msg>, faulted: bool)
      requires cfg.Valid() && cfg.LeaderFor(viewNumber) == id
      ensures sent == SendHeartbeat(cfg, id, State())
      ensures faulted <==> exists p :: p in cfg.nodes && cfg.IsPeer(id, p) && HeartbeatFor(cfg, id, State(), p).None?
    {
      sent, faulted := {}, false;
      ghost var s := State();
      for i := 0 to |cfg.nodes|
        invariant sent == set p | p in cfg.nodes[..i] && cfg.IsPeer(id, p) && HeartbeatFor(cfg, id, s, p).Some? ::
          HeartbeatFor(cfg, id, s, p).value
        invariant faulted <==>
          exists p :: p in cfg.nodes[..i] && cfg.IsPeer(id, p) && HeartbeatFor(cfg, id, s, p).None?
      {
        var p := cfg.nodes[i];
        var reached := if p in caughtUp then caughtUp[p] else 0;
        var msg: Option<Msg>;
        if reached == 0 {
          var resent := match newView
            case Some(v) => NewView(v.view, viewChange.messages, v.prePrepares, id)
            case None => NewView(0, map[], map[], id);
          msg := Some(MNewView(SignedNewView(resent, By(id))));
        } else {
          msg := HeartbeatTo(reached);
        }
        assert msg == HeartbeatFor(cfg, id, s, p);
        hide HeartbeatFor;
        assert cfg.nodes[..i + 1] == cfg.nodes[..i] + [p];
        if p != id {
          if msg.Some? {
            sent := sent + {msg.value};
          } else {
            faulted := true;
          }
        }
      }
      assert cfg.nodes[..|cfg.nodes|] == cfg.nodes;
    }

    method HandleHeartbeatTimeout() returns (sent: set<Msg>)
      requires cfg.Valid() && RequestsHeld()
      modifies this`viewChange
      ensures Outcome(State(), sent, None, None, None) == Replica.HandleHeartbeatTimeout(cfg, id, old(State()))
    {
      sent := {};
      if viewChange.inProgress || down { return; }
      if cfg.LeaderFor(viewNumber) != id {
        sent := StartViewChange(viewNumber + 1);
      } else {
        var faulted;
        sent, faulted := SendHeartbeats();
      }
    }

    method HandleReply(peer: NodeId, reached: int)
      modifies this`caughtUp
      ensures State() == Replica.HandleReply(cfg, id, old(State()), peer, reached)
    {
      if cfg.IsPeer(id, peer) {
        caughtUp := caughtUp[peer := reached];
      }
    }

    // One arm of the main loop for a message from another node.
    method HandleMessage(msg: Msg)
      returns (sent: set<Msg>, delivered: Option<Delivery>, snapshotRequest: Option<SlotId>,
               applied: Option<Snapshot>, ghost choice: Choice)
      requires cfg.Valid() && RequestsHeld()
      modifies this
      ensures ChoiceOk(cfg, id, old(State()), Receive(msg), choice)
      ensures Outcome(State(), sent, delivered, snapshotRequest, applied) ==
              Replica.HandleMessage(cfg, id, old(State()), msg, choice)
    {
      sent, delivered, snapshotRequest, applied := {}, None, None, None;
      choice := Choice(Merge(map[], 0, 0), []);
      match msg {
        case MClientRequest(r) => sent := HandleClientRequest(r);
        case MPrePrepare(full) => sent := HandlePrePrepare(full);
        case MPrepare(p) => sent := HandlePrepare(p);
        case MCommit(c) => delivered, snapshotRequest := HandleCommit(c);
        case MCheckpoint(c) => applied := HandleCheckpoint(c);
        case MCheckpointProof(p) => applied := HandleCheckpointProof(p);
        case MViewChange(m) =>
          ghost var merge;
          sent, merge := HandleViewChange(m);
          choice := choice.(merge := merge);
        case MNewView(m) =>
          ghost var order;
          sent, order := HandleNewView(m);
          choice := choice.(order := order);
      }
    }

    // One arm of the main loop. All of them keep the invariant, because the steps they implement do.
    method HandleInput(input: Input)
      returns (sent: set<Msg>, delivered: Option<Delivery>, snapshotRequest: Option<SlotId>,
               applied: Option<Snapshot>, ghost choice: Choice)
      requires Ok()
      modifies this
      ensures Ok()
      ensures ChoiceOk(cfg, id, old(State()), input, choice)
      ensures Outcome(State(), sent, delivered, snapshotRequest, applied) ==
              Step(cfg, id, old(State()), input, choice)
    {
      ghost var before := State();
      ValidHoldsRequests(cfg, before);
      sent, delivered, snapshotRequest, applied := {}, None, None, None;
      choice := Choice(Merge(map[], 0, 0), []);
      match input {
        case Receive(msg) => sent, delivered, snapshotRequest, applied, choice := HandleMessage(msg);
        case Propose(r) => sent := HandleClientRequest(r);
        case SnapshotReply(number, state) => sent, applied := HandleRecvSnapshot(number, state);
        case RequestTimeout => sent := StartViewChange(viewNumber + 1);
        case HeartbeatTimeout => sent := HandleHeartbeatTimeout();
        case HeartbeatReply(peer, reached) => HandleReply(peer, reached);
        case SetDown(isDown) => down := isDown;
      }
      assert Outcome(State(), sent, delivered, snapshotRequest, applied) == Step(cfg, id, before, input, choice);
      hide Step, ChoiceOk;
      StepValid(cfg, id, before, input, choice);
    }

    // The endless main loop, cut off after any number of inputs: it goes through a run of the state machine.
    method HandleMessages(inputs: seq<Input>) returns (ghost states: seq<NodeState>, ghost stimuli: seq<Stimulus>)
      requires Ok() && State() == Initial(cfg, id)
      modifies this
      ensures Ok()
      ensures Run(cfg, id, states, stimuli) && |stimuli| == |inputs| && states[|inputs|] == State()
      ensures forall i :: 0 <= i < |inputs| ==> stimuli[i].input == inputs[i]
    {
      hide Run, Valid, Step, ChoiceOk;
      EmptyRun(cfg, id);
      states, stimuli := [State()], [];
      for n := 0 to |inputs|
        invariant Ok() && |stimuli| == n && |states| == n + 1 && states[n] == State()
        invariant forall i :: 0 <= i < n ==> stimuli[i].input == inputs[i]
        invariant Run(cfg, id, states, stimuli)
      {
        ghost var before := State();
        ghost var choice;
        var sent, delivered, snapshotRequest, applied;
        sent, delivered, snapshotRequest, applied, choice := HandleInput(inputs[n]);
        RunExtends(cfg, id, states, stimuli, Stimulus(inputs[n], choice));
        states, stimuli := states + [State()], stimuli + [Stimulus(inputs[n], choice)];
      }
    }
  }

  lemma ValidHoldsRequests(cfg: Config, s: NodeState)
    requires Valid(cfg, s)
    ensures forall k :: k in s.log && s.log[k].preprepare.Some? ==> s.log[k].request.Some?
  {
  }

  lemma IssueOne(log: map<SlotId, Slot>, pps: map<SlotId, FullPrePrepare>, k: SlotId, full: FullPrePrepare)
    ensures (log + IssuedSlots(pps))[k := IssuedSlot(full)] == log + IssuedSlots(pps[k := full])
  {
  }

  // The part of the set O below number s.
  function ReissuedBelow(cfg: Config, id: NodeId, view: int, m: Merge, s: int): map<SlotId, FullPrePrepare> {
    map k | k in (set n | m.minS <= n < s :: SlotId(view, n)) :: Reissued(cfg, id, view, m, k.seqNo)
  }

  lemma ReissueOne(cfg: Config, id: NodeId, view: int, m: Merge, s: int)
    requires m.minS <= s
    ensures ReissuedBelow(cfg, id, view, m, s + 1) ==
      ReissuedBelow(cfg, id, view, m, s)[SlotId(view, s) := Reissued(cfg, id, view, m, s)]
  {
  }

  lemma RangeIsSetO(cfg: Config, id: NodeId, view: int, m: Merge)
    ensures NewViewPrePrepares(cfg, id, view, m) ==
      if m.minS < m.maxS then ReissuedBelow(cfg, id, view, m, m.maxS + 1) else map[]
    ensures m.minS >= m.maxS ==> IssuedSlots(NewViewPrePrepares(cfg, id, view, m)) == map[]
  {
  }

  lemma AcceptOne(
    cfg: Config, id: NodeId, s: NodeState, pps: map<SlotId, FullPrePrepare>, order: seq<SlotId>, k: SlotId)
    requires |cfg.nodes| >= 1 && k in pps && forall n :: n in order ==> n in pps
    ensures var before := AcceptAll(cfg, id, s, pps, order);
      AcceptAll(cfg, id, s, pps, order + [k]) ==
        if pps[k].Number().seqNo > before.state.sequenceNumber then
          var o := HandlePrePrepare(cfg, id, before.state, pps[k]);
          Send(o.state, before.sent + o.sent)
        else before
  {
    assert (order + [k])[..|order|] == order;
  }

  lemma EnumerateOne<T(!new)>(order: seq<T>, keys: set<T>, k: T)
    requires Enumerates(order, keys) && k !in keys
    ensures Enumerates(order + [k], keys + {k})
  {
  }

  lemma LowestIsUnique(messages: map<NodeId, SignedViewChange>, current: int, low: int)
    requires IsLowestAbove(messages, current, low)
    ensures Above(messages, current) != {} && low == LowestAbove(messages, current)
  {
    var other := LowestAbove(messages, current);
    assert IsLowestAbove(messages, current, other);
  }

  // What a walk has done when it has been through some of the messages.
  ghost predicate WalkedSoFar(messages: map<NodeId, SignedViewChange>, walk: Walk, walked: set<NodeId>) {
    && walked <= messages.Keys
    && Enumerates(walk.order, walked)
    && (forall j :: j in walked ==> j in walk.proofs && Enumerates(walk.proofs[j], messages[j].message.proofs.Keys))
    && (forall e :: e in Along(walk.order, walk.proofs) ==> ProofIn(messages, e.0, e.1))
  }

  ghost predicate Holds(low: int, messages: map<NodeId, SignedViewChange>, walk: Walk, merge: Merge)
    requires forall j :: j in walk.order ==> j in walk.proofs && j in messages
    requires forall e :: e in Along(walk.order, walk.proofs) ==> ProofIn(messages, e.0, e.1)
  {
    var entries := Along(walk.order, walk.proofs);
    merge ==
      Merge(ChosenAlong(messages, entries), MinAlong(low, messages, walk.order), MaxAlong(low, entries))
  }

  lemma {:induction false} AlongFrame(
    order: seq<NodeId>, proofs: map<NodeId, seq<SlotId>>, node: NodeId, more: seq<SlotId>)
    requires node !in order && forall j :: j in order ==> j in proofs
    ensures Along(order, proofs[node := more]) == Along(order, proofs)
  {
    if order != [] {
      var last := |order| - 1;
      AlongFrame(order[..last], proofs, node, more);
    }
  }

  lemma OneMoreMessage(
    low: int, messages: map<NodeId, SignedViewChange>, walk: Walk, walked: set<NodeId>, node: NodeId,
    proofs: seq<SlotId>)
    requires WalkedSoFar(messages, walk, walked) && node in messages && node !in walked
    requires Enumerates(proofs, messages[node].message.proofs.Keys)
    requires forall e :: e in Along(walk.order, walk.proofs) + Pairs(node, proofs) ==> ProofIn(messages, e.0, e.1)
    ensures var next := Walk(walk.order + [node], walk.proofs[node := proofs]);
      && WalkedSoFar(messages, next, walked + {node})
      && Along(next.order, next.proofs) == Along(walk.order, walk.proofs) + Pairs(node, proofs)
      && var min, n := MinAlong(low, messages, walk.order), messages[node].message.checkpoint.seqNo;
         MinAlong(low, messages, next.order) == if n > min then n else min
  {
    AlongFrame(walk.order, walk.proofs, node, proofs);
    EnumerateOne(walk.order, walked, node);
    assert (walk.order + [node])[..|walk.order|] == walk.order;
  }

  lemma OneMoreProof(
    low: int, messages: map<NodeId, SignedViewChange>, before: seq<Entry>, node: NodeId, order: seq<SlotId>,
    num: SlotId)
    requires ProofIn(messages, node, num)
    requires forall e :: e in before + Pairs(node, order) ==> ProofIn(messages, e.0, e.1)
    ensures var entries, more := before + Pairs(node, order), before + Pairs(node, order + [num]);
      && (forall e :: e in more ==> ProofIn(messages, e.0, e.1))
      && ChosenAlong(messages, more) ==
           Choose(ChosenAlong(messages, entries), num.seqNo, RequestViewOf(messages, node, num))
      && MaxAlong(low, more) == if MaxAlong(low, entries) < num.seqNo then num.seqNo else MaxAlong(low, entries)
  {
    var entries := before + Pairs(node, order);
    assert before + Pairs(node, order + [num]) == entries + [(node, num)];
    assert (entries + [(node, num)])[..|entries|] == entries;
  }

  // After a reset the first round of heartbeats is the new view, to every peer.
  lemma FirstRound(cfg: Config, id: NodeId, s: NodeState)
    requires s.caughtUp == AllPeersAt(cfg, id, 0) && exists p :: p in cfg.nodes && cfg.IsPeer(id, p)
    ensures SendHeartbeat(cfg, id, s) == {MNewView(ResentNewView(id, s))}
  {
    assert forall p :: p in cfg.nodes && cfg.IsPeer(id, p) ==>
      HeartbeatFor(cfg, id, s, p) == Some(MNewView(ResentNewView(id, s)));
  }
}
