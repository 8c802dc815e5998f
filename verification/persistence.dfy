/** A prepared slot stays prepared at a node until a checkpoint passes it, as long as its leader entries are fresh. */
module Persistence {
  import opened Types
  import opened Replica
  import opened ReplicaInvariants
  import opened NodeRuns

  // The slot is prepared, or the node's checkpoint is no longer before it.
  predicate Secured(cfg: Config, s: NodeState, k: SlotId) {
    (k in s.log && IsPrepared(cfg, s.log[k])) || !s.lastCheckpoint.number.Before(k)
  }

  lemma PrePrepareSecured(cfg: Config, id: NodeId, s: NodeState, full: FullPrePrepare, k: SlotId)
    requires cfg.Valid() && Secured(cfg, s, k)
    ensures Secured(cfg, HandlePrePrepare(cfg, id, s, full).state, k)
  {
    hide Accepts;
    if k in s.log {
      MapCardinality(s.log[k].prepares, id, PrepareFor(id, full));
    }
  }

  lemma ClientRequestSecured(cfg: Config, id: NodeId, s: NodeState, request: string, k: SlotId)
    requires cfg.Valid() && LogValid(cfg, s.log, s.issued) && Secured(cfg, s, k)
    ensures Secured(cfg, HandleClientRequest(cfg, id, s, request).state, k)
  {
    assert k in s.log && IsPrepared(cfg, s.log[k]) ==> SlotValid(cfg, k, s.log[k]) && k.seqNo <= s.issued;
    hide LogValid, IsPrepared;
  }

  lemma PrepareSecured(cfg: Config, id: NodeId, s: NodeState, p: SignedPrepare, k: SlotId)
    requires cfg.Valid() && Secured(cfg, s, k)
    ensures Secured(cfg, HandlePrepare(cfg, id, s, p).state, k)
  {
    hide Config.Signer;
    if k in s.log {
      MapCardinality(s.log[k].prepares, p.message.node, p);
    }
  }

  lemma CommitSecured(cfg: Config, id: NodeId, s: NodeState, c: SignedCommit, k: SlotId)
    requires cfg.Valid() && Secured(cfg, s, k)
    ensures Secured(cfg, HandleCommit(cfg, id, s, c).state, k)
  {
    hide Config.Signer, IsCommitted;
  }

  lemma CheckpointedSecured(cfg: Config, s: NodeState, c: CheckpointProof, k: SlotId)
    requires Secured(cfg, s, k)
    ensures Secured(cfg, Checkpointed(s, c).state, k)
  {
    hide IsPrepared;
    var log := s.log - Flushed(s.pending, c.number);
    assert k in s.log && k !in log ==> k.BeforeOrEqual(c.number);
    assert k in log ==> k in s.log && log[k] == s.log[k];
  }

  lemma AddCheckpointSecured(cfg: Config, s: NodeState, message: SignedCheckpoint, k: SlotId)
    requires Secured(cfg, s, k)
    ensures Secured(cfg, AddCheckpoint(cfg, s, message).state, k)
  {
    hide IsPrepared, Checkpointed, IsStable;
    var s1 := Endorse(s, message);
    CheckpointedSecured(cfg, s1, s1.pending[message.message.number], k);
  }

  lemma {:induction false} AcceptAllSecured(
    cfg: Config, id: NodeId, s: NodeState, pps: map<SlotId, FullPrePrepare>, order: seq<SlotId>, k: SlotId)
    requires cfg.Valid() && Secured(cfg, s, k)
    requires forall n :: n in order ==> n in pps
    ensures Secured(cfg, AcceptAll(cfg, id, s, pps, order).state, k)
  {
    hide Secured, HandlePrePrepare;
    if order != [] {
      var front := order[..|order| - 1];
      AcceptAllSecured(cfg, id, s, pps, front, k);
      PrePrepareSecured(cfg, id, AcceptAll(cfg, id, s, pps, front).state, pps[order[|order| - 1]], k);
    }
  }

  // A fresh entry reissues numbers of a view above any the node holds requests for.
  lemma BecomeLeaderSecured(cfg: Config, id: NodeId, s: NodeState, view: int, merge: Merge, k: SlotId)
    requires cfg.Valid() && LogValid(cfg, s.log, s.issued) && Held(s) && view > s.view && Secured(cfg, s, k)
    ensures Secured(cfg, BecomeLeader(cfg, id, s, view, merge).state, k)
  {
    assert k in s.log && IsPrepared(cfg, s.log[k]) ==> SlotValid(cfg, k, s.log[k]) && k.view <= s.view;
    hide LogValid, IsPrepared, Held;
    var pps := NewViewPrePrepares(cfg, id, view, merge);
    assert forall n :: n in pps ==> n.view == view;
    hide NewViewPrePrepares;
    assert k in s.log && k !in pps ==> (s.log + IssuedSlots(pps))[k] == s.log[k];
  }

  lemma NewViewSecured(
    cfg: Config, id: NodeId, s: NodeState, m: SignedNewView, order: seq<SlotId>, k: SlotId)
    requires cfg.Valid() && Secured(cfg, s, k)
    requires forall n :: n in order ==> n in m.message.prePrepares
    ensures Secured(cfg, HandleNewView(cfg, id, s, m, order).state, k)
  {
    hide IsPrepared, AcceptAll;
    if EntersByNewView(s, m) {
      AcceptAllSecured(cfg, id, EnterNewView(s, m.message.view), m.message.prePrepares, order, k);
    }
  }

  lemma ViewChangeSecured(cfg: Config, id: NodeId, s: NodeState, m: SignedViewChange, merge: Merge, k: SlotId)
    requires cfg.Valid() && LogValid(cfg, s.log, s.issued) && Held(s) && Secured(cfg, s, k)
    requires LeaderEntry(cfg, id, s, m) ==> m.message.view > s.view
    ensures Secured(cfg, HandleViewChange(cfg, id, s, m, merge).state, k)
  {
    hide IsPrepared, BecomeLeader, LogValid;
    if LeaderEntry(cfg, id, s, m) {
      BecomeLeaderSecured(cfg, id, Record(s, m), m.message.view, merge, k);
    }
  }

  lemma MessageSecured(cfg: Config, id: NodeId, s: NodeState, msg: Msg, choice: Choice, k: SlotId)
    requires cfg.Valid() && Valid(cfg, s) && Held(s) && ChoiceOk(cfg, id, s, Receive(msg), choice)
    requires Fresh(cfg, id, s, Receive(msg)) && Secured(cfg, s, k)
    ensures Secured(cfg, HandleMessage(cfg, id, s, msg, choice).state, k)
  {
    hide Secured, HandleClientRequest, HandlePrePrepare, HandlePrepare, HandleCommit, AddCheckpoint, Checkpointed,
         HandleViewChange, HandleNewView, LogValid, PendingValid, Held, LeaderEntry, IsMerge;
    match msg
    case MClientRequest(r) => ClientRequestSecured(cfg, id, s, r, k);
    case MPrePrepare(full) => PrePrepareSecured(cfg, id, s, full, k);
    case MPrepare(p) => PrepareSecured(cfg, id, s, p, k);
    case MCommit(c) => CommitSecured(cfg, id, s, c, k);
    case MCheckpoint(c) => AddCheckpointSecured(cfg, s, c, k);
    case MCheckpointProof(p) => CheckpointedSecured(cfg, s, p.message.proof, k);
    case MViewChange(m) => ViewChangeSecured(cfg, id, s, m, choice.merge, k);
    case MNewView(m) => NewViewSecured(cfg, id, s, m, choice.order, k);
  }

  /** No step takes a slot's preparation back, except one that moves the checkpoint up to it. */
  lemma SecuredIsKept(cfg: Config, id: NodeId, s: NodeState, input: Input, choice: Choice, k: SlotId)
    requires cfg.Valid() && Valid(cfg, s) && Held(s) && ChoiceOk(cfg, id, s, input, choice)
    requires Fresh(cfg, id, s, input) && Secured(cfg, s, k)
    ensures Secured(cfg, Step(cfg, id, s, input, choice).state, k)
  {
    hide HandleMessage, HandleClientRequest, AddCheckpoint, LogValid, PendingValid, Held, IsPrepared, ChoiceOk, Fresh;
    match input
    case Receive(msg) => MessageSecured(cfg, id, s, msg, choice, k);
    case Propose(r) => ClientRequestSecured(cfg, id, s, r, k);
    case SnapshotReply(number, state) =>
      AddCheckpointSecured(cfg, s, SignedCheckpoint(Checkpoint(number, state, id), By(id)), k);
    case _ =>
  }

  /** Over a fresh run, a prepared slot stays prepared for as long as the node's checkpoint is before it. */
  lemma {:induction false} StaysPrepared(
    cfg: Config, id: NodeId, states: seq<NodeState>, stimuli: seq<Stimulus>, i: nat, j: nat, k: SlotId)
    requires cfg.Valid() && FreshRun(cfg, id, states, stimuli) && i <= j < |states|
    requires k in states[i].log && IsPrepared(cfg, states[i].log[k]) && states[j].lastCheckpoint.number.Before(k)
    ensures k in states[j].log && IsPrepared(cfg, states[j].log[k])
  {
    RunSecured(cfg, id, states, stimuli, i, j, k);
  }

  lemma {:induction false} RunSecured(
    cfg: Config, id: NodeId, states: seq<NodeState>, stimuli: seq<Stimulus>, i: nat, j: nat, k: SlotId)
    requires cfg.Valid() && FreshRun(cfg, id, states, stimuli) && i <= j < |states| && Secured(cfg, states[i], k)
    ensures Secured(cfg, states[j], k)
    decreases j - i
  {
    hide Step, ChoiceOk, Valid, Held, Secured, Enters, Fresh;
    if i < j {
      RunSecured(cfg, id, states, stimuli, i, j - 1, k);
      RunValid(cfg, id, states, stimuli, j - 1);
      RunHeld(cfg, id, states, stimuli, j - 1);
      SecuredIsKept(cfg, id, states[j - 1], stimuli[j - 1].input, stimuli[j - 1].choice, k);
    }
  }
}
