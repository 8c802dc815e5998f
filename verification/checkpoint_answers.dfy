/**
 How the sequence number moves, when the application is asked for a snapshot or handed one, which checkpoint a node
 adopts and what it drops then, and where the snapshot it hands over comes from. For every input, stated on Step.
 */
module CheckpointAnswers {
  import opened Types
  import opened Replica
  import opened ReplicaInvariants
  import opened NodeRuns
  import opened Answers

  function Max(a: int, b: int): int { if a < b then b else a }

  // Sequence numbers and snapshots

  // Entering a view restarts the number from the checkpoint; a delivery or a snapshot raises it to its own.
  ghost predicate Moves(s: NodeState, o: Outcome, entered: Option<int>) {
    var t := o.state;
    && t.sequenceNumber == (
         if entered.Some? then Max(1, t.lastCheckpoint.number.seqNo)
         else if o.delivered.Some? then Max(s.sequenceNumber, o.delivered.value.number.seqNo)
         else if o.appliedSnapshot.Some? then t.lastCheckpoint.number.seqNo
         else s.sequenceNumber)
    && (entered.Some? ==> o.delivered.None? && o.appliedSnapshot.None?)
    && (o.delivered.Some? ==> o.appliedSnapshot.None?)
  }

  // A snapshot is asked for on a delivery that brings the number to a multiple of 100, for that number.
  ghost predicate AsksForSnapshot(o: Outcome) {
    o.snapshotRequest ==
      if o.delivered.Some? && o.state.sequenceNumber % 100 == 0 then Some(SlotId(o.state.view, o.state.sequenceNumber))
      else None
  }

  // A snapshot is handed over iff the checkpoint is ahead of the node, and it is that checkpoint's.
  ghost predicate HandsOver(s: NodeState, o: Outcome) {
    o.appliedSnapshot ==
      if o.state.lastCheckpoint.number.seqNo > s.sequenceNumber then Some(o.state.lastCheckpoint.snapshot) else None
  }

  ghost predicate Steps(s: NodeState, o: Outcome, entered: Option<int>) {
    && Moves(s, o, entered) && AsksForSnapshot(o)
    && (s.lastCheckpoint.number.seqNo <= s.sequenceNumber ==> HandsOver(s, o))
  }

  lemma NormalSteps(cfg: Config, id: NodeId, s: NodeState)
    requires cfg.Valid()
    ensures forall r :: Steps(s, HandleClientRequest(cfg, id, s, r), None)
    ensures forall f :: Steps(s, HandlePrePrepare(cfg, id, s, f), None)
  {
    hide NextFull, Accepts, IsPrimary;
  }

  lemma PrepareSteps(cfg: Config, id: NodeId, s: NodeState, p: SignedPrepare)
    requires cfg.Valid()
    ensures Steps(s, HandlePrepare(cfg, id, s, p), None)
  {
    hide HandlePrepare, IsPrepared;
    PrepareShape(cfg, id, s, p);
  }

  lemma CommitSteps(cfg: Config, id: NodeId, s: NodeState, c: SignedCommit)
    requires cfg.Valid()
    ensures Steps(s, HandleCommit(cfg, id, s, c), None)
  {
    hide IsCommitted, SlotAt, Config.Signer;
  }

  lemma CheckpointedSteps(s: NodeState, c: CheckpointProof)
    ensures Steps(s, Checkpointed(s, c), None)
  {
    hide Flushed;
  }

  lemma AddCheckpointSteps(cfg: Config, s: NodeState, c: SignedCheckpoint)
    ensures Steps(s, AddCheckpoint(cfg, s, c), None)
  {
    hide Checkpointed, IsStable;
    var s1 := Endorse(s, c);
    CheckpointedSteps(s1, s1.pending[c.message.number]);
  }

  lemma ViewChangeSteps(cfg: Config, id: NodeId, s: NodeState, m: SignedViewChange, merge: Merge)
    requires cfg.Valid()
    ensures Steps(s, HandleViewChange(cfg, id, s, m, merge),
      if LeaderEntry(cfg, id, s, m) then Some(m.message.view) else None)
  {
    hide NewViewPrePrepares, ViewChangeFor, NewViewFor;
  }

  lemma NewViewSteps(cfg: Config, id: NodeId, s: NodeState, m: SignedNewView, order: seq<SlotId>)
    requires cfg.Valid() && forall k :: k in order ==> k in m.message.prePrepares
    ensures Steps(s, HandleNewView(cfg, id, s, m, order), if EntersByNewView(s, m) then Some(m.message.view) else None)
  {
    hide AcceptAll;
    if EntersByNewView(s, m) {
      AcceptAllFrame(cfg, id, EnterNewView(s, m.message.view), m.message.prePrepares, order);
    }
  }

  lemma MessageSteps(cfg: Config, id: NodeId, s: NodeState, msg: Msg, choice: Choice)
    requires cfg.Valid() && ChoiceOk(cfg, id, s, Receive(msg), choice)
    ensures Steps(s, HandleMessage(cfg, id, s, msg, choice), Enters(cfg, id, s, Receive(msg)))
  {
    hide HandleClientRequest, HandlePrePrepare, HandlePrepare, HandleCommit, AddCheckpoint, Checkpointed,
         HandleViewChange, HandleNewView, LeaderEntry, EntersByNewView, IsMerge, Steps;
    match msg
    case MClientRequest(r) => NormalSteps(cfg, id, s);
    case MPrePrepare(full) => NormalSteps(cfg, id, s);
    case MPrepare(p) => PrepareSteps(cfg, id, s, p);
    case MCommit(c) => CommitSteps(cfg, id, s, c);
    case MCheckpoint(c) =>
      AddCheckpointSteps(cfg, s, c);
      QuietSteps(s, s);
    case MCheckpointProof(p) =>
      CheckpointedSteps(s, p.message.proof);
      QuietSteps(s, s);
    case MViewChange(m) => ViewChangeSteps(cfg, id, s, m, choice.merge);
    case MNewView(m) => NewViewSteps(cfg, id, s, m, choice.order);
  }

  lemma QuietSteps(s: NodeState, t: NodeState)
    requires t.sequenceNumber == s.sequenceNumber && t.lastCheckpoint == s.lastCheckpoint
    ensures forall sent :: Steps(s, Send(t, sent), None)
    ensures Steps(s, Quiet(t), None)
  {
  }

  /**
   For every input: how the sequence number moves, when a snapshot is asked for, and when one is handed over and which.
   */
  lemma StepMoves(cfg: Config, id: NodeId, s: NodeState, input: Input, choice: Choice)
    requires cfg.Valid() && Valid(cfg, s) && ChoiceOk(cfg, id, s, input, choice)
    ensures var o := Step(cfg, id, s, input, choice);
      Moves(s, o, Enters(cfg, id, s, input)) && AsksForSnapshot(o) && HandsOver(s, o)
  {
    assert s.lastCheckpoint.number.seqNo <= s.sequenceNumber;
    var o := Step(cfg, id, s, input, choice);
    assert Steps(s, o, Enters(cfg, id, s, input)) by {
      hide Valid, HandleMessage, HandleClientRequest, AddCheckpoint, StartViewChange, SendHeartbeat, Steps, LeaderEntry,
           ChoiceOk;
      match input
      case Receive(msg) => MessageSteps(cfg, id, s, msg, choice);
      case Propose(r) => NormalSteps(cfg, id, s);
      case SnapshotReply(number, state) =>
        var own := SignedCheckpoint(Checkpoint(number, state, id), By(id));
        AddCheckpointSteps(cfg, s, own);
        SentIsFree(s, AddCheckpoint(cfg, s, own), {MCheckpoint(own)});
      case RequestTimeout =>
        StartFrame(cfg, id, s, s.view + 1);
        QuietSteps(s, o.state);
      case HeartbeatTimeout =>
        StartFrame(cfg, id, s, s.view + 1);
        QuietSteps(s, o.state);
      case _ => QuietSteps(s, o.state);
    }
  }

  lemma SentIsFree(s: NodeState, o: Outcome, sent: set<Msg>)
    requires Steps(s, o, None)
    ensures Steps(s, o.(sent := sent), None)
  {
  }

  // Endorsements and adoption

  // The authentic endorsement this input brings, from a peer or, with the application's snapshot, from the node itself.
  function EndorsementIn(cfg: Config, id: NodeId, input: Input): Option<SignedCheckpoint> {
    match input
    case Receive(MCheckpoint(c)) => if Authentic(cfg, id, c.signature, c.message.node) then Some(c) else None
    case SnapshotReply(number, state) => Some(SignedCheckpoint(Checkpoint(number, state, id), By(id)))
    case _ => None
  }

  // Adopting a checkpoint at n drops the pending ones up to n, and the log's slots with the same numbers as those.
  ghost predicate Drops(
    log: map<SlotId, Slot>, pending: map<SlotId, CheckpointProof>, t: NodeState, n: SlotId)
  {
    && (forall k :: k in t.pending <==> k in pending && n.Before(k))
    && (forall k :: k in t.pending ==> t.pending[k] == pending[k])
    && (forall k :: k in t.log <==> k in log && !(k in pending && !n.Before(k)))
    && (forall k :: k in t.log ==> t.log[k] == log[k])
  }

  lemma CheckpointedDrops(s: NodeState, c: CheckpointProof)
    ensures var t := Checkpointed(s, c).state;
      if c.number.Before(s.lastCheckpoint.number) then t == s
      else t.lastCheckpoint == c && Drops(s.log, s.pending, t, c.number)
  {
    assert forall k :: k in Flushed(s.pending, c.number) <==> k in s.pending && !c.number.Before(k);
    hide Flushed;
  }

  // The record for a number with this endorsement filed: its snapshot stays that of the first one.
  function WithEndorsement(pending: map<SlotId, CheckpointProof>, c: SignedCheckpoint): CheckpointProof {
    var n := c.message.number;
    if n in pending then CheckpointProof(n, pending[n].snapshot, pending[n].proof[c.message.node := c])
    else CheckpointProof(n, c.message.snapshot, map[c.message.node := c])
  }

  // An endorsement is filed unless its number is passed; the one that completes 2f + 1 makes the node adopt the record.
  ghost predicate Endorses(cfg: Config, s: NodeState, t: NodeState, c: SignedCheckpoint) {
    var n, filed := c.message.number, WithEndorsement(s.pending, c);
    if !s.lastCheckpoint.number.Before(n) then t == s
    else if |filed.proof| >= 2 * ((|cfg.nodes| - 1) / 3) + 1 then
      t.lastCheckpoint == filed && Drops(s.log, s.pending[n := filed], t, n)
    else t == s.(pending := s.pending[n := filed])
  }

  lemma AddCheckpointEndorses(cfg: Config, s: NodeState, c: SignedCheckpoint)
    requires cfg.Valid() && Valid(cfg, s)
    ensures Endorses(cfg, s, AddCheckpoint(cfg, s, c).state, c)
  {
    hide Drops, Checkpointed, WithEndorsement, Endorse, IsStable, LogValid, PendingValid, Filed, SlotId.Before;
    var n, s1, filed := c.message.number, Endorse(s, c), WithEndorsement(s.pending, c);
    EndorsedAsFiled(cfg, s, c);
    assert s1.pending[n] == filed;
    CheckpointedDrops(s1, filed);
    Passed(n, s.lastCheckpoint.number);
  }

  lemma Passed(a: SlotId, b: SlotId)
    ensures b.Before(a) ==> !a.Before(b)
  {
  }

  lemma EndorsedAsFiled(cfg: Config, s: NodeState, c: SignedCheckpoint)
    requires PendingValid(cfg, s.lastCheckpoint.number, s.pending)
    ensures var n, s1, filed := c.message.number, Endorse(s, c), WithEndorsement(s.pending, c);
      && s1 == s.(pending := s.pending[n := filed]) && filed.number == n
      && (IsStable(cfg, s, n) <==> !s.lastCheckpoint.number.Before(n))
      && (IsStable(cfg, s1, n) <==>
          !s.lastCheckpoint.number.Before(n) || |filed.proof| >= 2 * ((|cfg.nodes| - 1) / 3) + 1)
  {
    var n := c.message.number;
    assert n in s.pending ==> RecordValid(n, s.pending[n]) && |s.pending[n].proof| <= 2 * cfg.Faults();
    hide PendingValid, RecordValid;
  }

  /** Every authentic endorsement is filed, completes its record or is passed over; a node sends its own. */
  lemma EndorsementAnswer(cfg: Config, id: NodeId, s: NodeState, input: Input, choice: Choice)
    requires cfg.Valid() && Valid(cfg, s) && ChoiceOk(cfg, id, s, input, choice)
    requires EndorsementIn(cfg, id, input).Some?
    ensures var c, o := EndorsementIn(cfg, id, input).value, Step(cfg, id, s, input, choice);
      Endorses(cfg, s, o.state, c) && o.sent == if input.SnapshotReply? then {MCheckpoint(c)} else {}
  {
    var c := EndorsementIn(cfg, id, input).value;
    AddCheckpointEndorses(cfg, s, c);
    AddCheckpointSends(cfg, s, c);
    hide AddCheckpoint, Valid, Endorses;
  }

  lemma AddCheckpointSends(cfg: Config, s: NodeState, c: SignedCheckpoint)
    ensures AddCheckpoint(cfg, s, c).sent == {}
  {
  }

  /** A checkpoint a peer vouches for is adopted as it stands, unless the node's own is after it. */
  lemma ProofAnswer(cfg: Config, id: NodeId, s: NodeState, p: SignedCheckpointProof, choice: Choice)
    requires cfg.Valid() && ChoiceOk(cfg, id, s, Receive(MCheckpointProof(p)), choice)
    requires Authentic(cfg, id, p.signature, p.message.node)
    ensures var c, o := p.message.proof, Step(cfg, id, s, Receive(MCheckpointProof(p)), choice);
      if c.number.Before(s.lastCheckpoint.number) then Ignores(s, o)
      else o.state.lastCheckpoint == c && Drops(s.log, s.pending, o.state, c.number) && o.sent == {}
  {
    hide Drops;
    CheckpointedDrops(s, p.message.proof);
  }

  /** Nothing else touches the checkpoint or the pending ones. */
  lemma OthersAdoptNothing(cfg: Config, id: NodeId, s: NodeState, input: Input, choice: Choice)
    requires cfg.Valid() && ChoiceOk(cfg, id, s, input, choice)
    requires EndorsementIn(cfg, id, input).None? && !(input.Receive? && input.msg.MCheckpointProof?)
    ensures var t := Step(cfg, id, s, input, choice).state;
      t.lastCheckpoint == s.lastCheckpoint && t.pending == s.pending
  {
    hide HandlePrePrepare, HandlePrepare, HandleCommit, AddCheckpoint, HandleViewChange, HandleNewView,
         StartViewChange, SendHeartbeat, IsMerge;
    match input
    case Receive(msg) =>
      match msg {
        case MPrePrepare(full) => PrePrepareFrame(cfg, id, s, full);
        case MPrepare(p) => PrepareShape(cfg, id, s, p);
        case MCommit(c) => CommitShape(cfg, id, s, c);
        case MViewChange(m) => ViewChangeFrame(cfg, id, s, m, choice.merge);
        case MNewView(m) => NewViewFrame(cfg, id, s, m, choice.order);
        case _ =>
      }
    case RequestTimeout => StartFrame(cfg, id, s, s.view + 1);
    case HeartbeatTimeout => StartFrame(cfg, id, s, s.view + 1);
    case _ =>
  }

  // Where a snapshot comes from

  // In step i the first endorsement for k is filed, with this snapshot, and the record is there from then to step j.
  ghost predicate FirstEndorsed(
    cfg: Config, id: NodeId, states: seq<NodeState>, stimuli: seq<Stimulus>, i: nat, j: nat, k: SlotId,
    snapshot: Snapshot)
    requires i < |stimuli| && j < |states| && |states| == |stimuli| + 1
  {
    var c := EndorsementIn(cfg, id, stimuli[i].input);
    && c.Some? && c.value.message.number == k && c.value.message.snapshot == snapshot
    && k !in states[i].pending && forall t :: i < t <= j ==> k in states[t].pending
  }

  lemma PendingStep(cfg: Config, id: NodeId, s: NodeState, input: Input, choice: Choice, k: SlotId)
    requires cfg.Valid() && Valid(cfg, s) && ChoiceOk(cfg, id, s, input, choice)
    requires k in Step(cfg, id, s, input, choice).state.pending
    ensures var t, c := Step(cfg, id, s, input, choice).state, EndorsementIn(cfg, id, input);
      if k in s.pending then t.pending[k].snapshot == s.pending[k].snapshot
      else c.Some? && c.value.message.number == k && c.value.message.snapshot == t.pending[k].snapshot
  {
    hide Step, Valid, ChoiceOk, Authentic;
    if EndorsementIn(cfg, id, input).Some? {
      EndorsementAnswer(cfg, id, s, input, choice);
    } else if input.Receive? && input.msg.MCheckpointProof? {
      ProofPending(cfg, id, s, input.msg.proof, choice);
    } else {
      OthersAdoptNothing(cfg, id, s, input, choice);
    }
  }

  lemma ProofPending(cfg: Config, id: NodeId, s: NodeState, p: SignedCheckpointProof, choice: Choice)
    requires cfg.Valid() && ChoiceOk(cfg, id, s, Receive(MCheckpointProof(p)), choice)
    ensures var t := Step(cfg, id, s, Receive(MCheckpointProof(p)), choice).state;
      forall k :: k in t.pending ==> k in s.pending && t.pending[k] == s.pending[k]
  {
    if Authentic(cfg, id, p.signature, p.message.node) {
      ProofAnswer(cfg, id, s, p, choice);
      hide Step;
    } else {
      ForgeriesAreIgnored(cfg, id, s, MCheckpointProof(p), choice);
      hide Step;
    }
  }

  /** The snapshot in a pending record is that of the first endorsement filed for its number. */
  lemma {:induction false} PendingWasEndorsed(
    cfg: Config, id: NodeId, states: seq<NodeState>, stimuli: seq<Stimulus>, j: nat, k: SlotId) returns (i: nat)
    requires cfg.Valid() && Run(cfg, id, states, stimuli) && j < |states| && k in states[j].pending
    ensures i < j && FirstEndorsed(cfg, id, states, stimuli, i, j, k, states[j].pending[k].snapshot)
  {
    hide Step, ChoiceOk, Valid, EndorsementIn;
    assert j > 0;
    i := j - 1;
    RunValid(cfg, id, states, stimuli, i);
    PendingStep(cfg, id, states[i], stimuli[i].input, stimuli[i].choice, k);
    if k in states[i].pending {
      i := PendingWasEndorsed(cfg, id, states, stimuli, i, k);
    }
  }

  /** So is the snapshot of a checkpoint the node completes itself. */
  lemma CompletedSnapshot(
    cfg: Config, id: NodeId, states: seq<NodeState>, stimuli: seq<Stimulus>, j: nat) returns (i: nat)
    requires cfg.Valid() && Run(cfg, id, states, stimuli) && j < |stimuli|
    requires EndorsementIn(cfg, id, stimuli[j].input).Some? && states[j + 1].lastCheckpoint != states[j].lastCheckpoint
    ensures var c := states[j + 1].lastCheckpoint;
      i <= j && FirstEndorsed(cfg, id, states, stimuli, i, j, c.number, c.snapshot)
  {
    hide Step, ChoiceOk, Valid, EndorsementIn, Drops;
    RunValid(cfg, id, states, stimuli, j);
    EndorsementAnswer(cfg, id, states[j], stimuli[j].input, stimuli[j].choice);
    var k := states[j + 1].lastCheckpoint.number;
    i := j;
    if k in states[j].pending {
      i := PendingWasEndorsed(cfg, id, states, stimuli, j, k);
    }
  }
}
