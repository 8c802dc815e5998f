/** What one replica keeps under every input, valid, repeated, stale or forged. */
module ReplicaInvariants {
  import opened Types
  import opened Replica

  ghost predicate SlotValid(cfg: Config, k: SlotId, slot: Slot) {
    && (slot.request.Some? <==> slot.preprepare.Some?)
    && (slot.preprepare.Some? ==> slot.preprepare.value.message == PrePrepare(k, slot.digest))
    && (forall j :: j in slot.prepares ==>
          slot.prepares[j].message.node == j && slot.prepares[j].message.number == k)
    && (forall j :: j in slot.commits ==>
          slot.commits[j].message.node == j && slot.commits[j].message.number == k)
    && (slot.prepared ==> IsPrepared(cfg, slot))
    && (slot.committed ==> IsCommitted(cfg, slot))
  }

  // issued bounds the number of every slot that holds a request, whatever its view.
  ghost predicate LogValid(cfg: Config, log: map<SlotId, Slot>, issued: int) {
    forall k :: k in log ==> SlotValid(cfg, k, log[k]) && (log[k].request.Some? ==> k.seqNo <= issued)
  }

  ghost predicate Filed(messages: map<NodeId, SignedViewChange>) {
    forall j :: j in messages ==> messages[j].message.node == j
  }

  ghost predicate RecordValid(k: SlotId, record: CheckpointProof) {
    && record.number == k
    && (forall j :: j in record.proof ==>
          record.proof[j].message.node == j && record.proof[j].message.number == k)
  }

  ghost predicate PendingValid(cfg: Config, last: SlotId, pending: map<SlotId, CheckpointProof>) {
    forall k :: k in pending ==>
      && last.Before(k)
      && RecordValid(k, pending[k])
      && 1 <= |pending[k].proof| <= 2 * cfg.Faults()
  }

  ghost predicate Valid(cfg: Config, s: NodeState) {
    && LogValid(cfg, s.log, s.issued)
    && 1 <= s.issued
    && Filed(s.change.messages)
    && PendingValid(cfg, s.lastCheckpoint.number, s.pending)
    && (s.change.inProgress ==> s.change.view > s.view)
    && 1 <= s.sequenceNumber
    && s.lastCheckpoint.number.seqNo <= s.sequenceNumber
  }

  // Parts of the log

  lemma MapCardinality<K, V>(m: map<K, V>, k: K, v: V)
    ensures |m[k := v]| == if k in m then |m| else |m| + 1
  {
    assert m[k := v].Keys == m.Keys + {k};
    assert |m| == |m.Keys| && |m[k := v]| == |m[k := v].Keys|;
  }

  lemma AcceptedSlotValid(cfg: Config, id: NodeId, k: SlotId, slot: Slot, full: FullPrePrepare)
    requires SlotValid(cfg, k, slot) && full.Number() == k
    ensures SlotValid(cfg, k, AcceptInto(id, slot, full))
  {
    MapCardinality(slot.prepares, id, PrepareFor(id, full));
  }

  lemma PreparedSlotValid(cfg: Config, id: NodeId, k: SlotId, slot: Slot, message: SignedPrepare)
    requires SlotValid(cfg, k, slot) && message.message.number == k
    ensures SlotValid(cfg, k, PrepareInto(slot, message))
    ensures var next := PrepareInto(slot, message);
      IsPrepared(cfg, next) ==>
        SlotValid(cfg, k, next.(prepared := true, commits := next.commits[id := CommitFor(id, message.message)]))
  {
    MapCardinality(slot.prepares, message.message.node, message);
    MapCardinality(slot.commits, id, CommitFor(id, message.message));
  }

  lemma CommittedSlotValid(cfg: Config, k: SlotId, slot: Slot, message: SignedCommit)
    requires SlotValid(cfg, k, slot) && message.message.number == k
    ensures SlotValid(cfg, k, CommitInto(slot, message))
    ensures var next := CommitInto(slot, message);
      IsCommitted(cfg, next) ==> SlotValid(cfg, k, next.(committed := true))
  {
    MapCardinality(slot.commits, message.message.node, message);
  }

  // What handling a prepare or a commit can come to

  lemma PrepareShape(cfg: Config, id: NodeId, s: NodeState, p: SignedPrepare)
    ensures var k, o := p.message.number, HandlePrepare(cfg, id, s, p);
      var slot, commit := PrepareInto(SlotAt(s.log, k), p), CommitFor(id, p.message);
      || o == Quiet(s)
      || o == Quiet(s.(log := s.log[k := slot]))
      || (IsPrepared(cfg, slot)
          && o == Send(s.(log := s.log[k := slot.(prepared := true, commits := slot.commits[id := commit])]),
                       {MCommit(commit)}))
  {
    hide IsPrepared, SlotAt, PrepareInto;
  }

  lemma CommitShape(cfg: Config, id: NodeId, s: NodeState, c: SignedCommit)
    ensures var k, o := c.message.number, HandleCommit(cfg, id, s, c);
      var slot := CommitInto(SlotAt(s.log, k), c);
      && o.sent == {} && s.sequenceNumber <= o.state.sequenceNumber
      && o.state == s.(log := o.state.log, sequenceNumber := o.state.sequenceNumber)
      && (|| o.state.log == s.log
          || o.state.log == s.log[k := slot]
          || (IsCommitted(cfg, slot) && o.state.log == s.log[k := slot.(committed := true)]))
  {
    hide IsCommitted, SlotAt, CommitInto;
  }

  lemma UpdatedLogValid(cfg: Config, log: map<SlotId, Slot>, issued: int, k: SlotId, slot: Slot)
    requires LogValid(cfg, log, issued) && SlotValid(cfg, k, slot)
    requires slot.request.Some? ==> k.seqNo <= issued
    ensures LogValid(cfg, log[k := slot], issued)
  {
    hide SlotValid;
  }

  lemma SlotAtValid(cfg: Config, log: map<SlotId, Slot>, issued: int, k: SlotId)
    requires LogValid(cfg, log, issued) && cfg.Valid()
    ensures SlotValid(cfg, k, SlotAt(log, k)) && (SlotAt(log, k).request.Some? ==> k.seqNo <= issued)
  {
    if k !in log {
      assert SlotValid(cfg, k, EMPTY_SLOT);
    }
  }

  // The handlers, one by one

  lemma ClientRequestValid(cfg: Config, id: NodeId, s: NodeState, request: string)
    requires cfg.Valid() && Valid(cfg, s)
    ensures Valid(cfg, HandleClientRequest(cfg, id, s, request).state)
  {
    var full := NextFull(cfg, id, s, request);
    assert SlotValid(cfg, full.Number(), IssuedSlot(full));
    assert LogValid(cfg, s.log, s.issued + 1);
    UpdatedLogValid(cfg, s.log, s.issued + 1, full.Number(), IssuedSlot(full));
    hide LogValid, PendingValid, Filed, SlotValid;
  }

  lemma PrePrepareValid(cfg: Config, id: NodeId, s: NodeState, full: FullPrePrepare)
    requires cfg.Valid() && Valid(cfg, s)
    ensures Valid(cfg, HandlePrePrepare(cfg, id, s, full).state)
  {
    var k, issued := full.Number(), if full.Number().seqNo > s.issued then full.Number().seqNo else s.issued;
    SlotAtValid(cfg, s.log, s.issued, k);
    AcceptedSlotValid(cfg, id, k, SlotAt(s.log, k), full);
    assert LogValid(cfg, s.log, issued);
    UpdatedLogValid(cfg, s.log, issued, k, AcceptInto(id, SlotAt(s.log, k), full));
    hide LogValid, PendingValid, Filed, SlotValid, Accepts, SlotAt;
  }

  lemma PrepareValid(cfg: Config, id: NodeId, s: NodeState, message: SignedPrepare)
    requires cfg.Valid() && Valid(cfg, s)
    ensures Valid(cfg, HandlePrepare(cfg, id, s, message).state)
  {
    hide HandlePrepare, LogValid, PendingValid, Filed, SlotValid, IsPrepared, SlotAt;
    var k := message.message.number;
    var slot, commit := PrepareInto(SlotAt(s.log, k), message), CommitFor(id, message.message);
    PrepareShape(cfg, id, s, message);
    SlotAtValid(cfg, s.log, s.issued, k);
    PreparedSlotValid(cfg, id, k, SlotAt(s.log, k), message);
    UpdatedLogValid(cfg, s.log, s.issued, k, slot);
    if IsPrepared(cfg, slot) {
      UpdatedLogValid(cfg, s.log, s.issued, k, slot.(prepared := true, commits := slot.commits[id := commit]));
    }
  }

  lemma CommitValid(cfg: Config, id: NodeId, s: NodeState, message: SignedCommit)
    requires cfg.Valid() && Valid(cfg, s)
    ensures Valid(cfg, HandleCommit(cfg, id, s, message).state)
  {
    hide HandleCommit, LogValid, PendingValid, Filed, SlotValid, IsCommitted, SlotAt;
    var k := message.message.number;
    var slot := CommitInto(SlotAt(s.log, k), message);
    CommitShape(cfg, id, s, message);
    SlotAtValid(cfg, s.log, s.issued, k);
    CommittedSlotValid(cfg, k, SlotAt(s.log, k), message);
    UpdatedLogValid(cfg, s.log, s.issued, k, slot);
    if IsCommitted(cfg, slot) {
      UpdatedLogValid(cfg, s.log, s.issued, k, slot.(committed := true));
    }
  }

  // Flushing up to n leaves only records after n; the record for n itself may be complete.
  lemma FlushValid(cfg: Config, last: SlotId, pending: map<SlotId, CheckpointProof>, n: SlotId)
    requires forall k :: k in pending ==> RecordValid(k, pending[k])
    requires forall k :: k in pending && k != n ==> last.Before(k) && 1 <= |pending[k].proof| <= 2 * cfg.Faults()
    ensures PendingValid(cfg, n, pending - Flushed(pending, n))
  {
    var rest := pending - Flushed(pending, n);
    forall k | k in rest
      ensures n.Before(k) && RecordValid(k, rest[k]) && 1 <= |rest[k].proof| <= 2 * cfg.Faults()
    {
      assert k in pending && rest[k] == pending[k] && !k.BeforeOrEqual(n);
    }
  }

  lemma CheckpointedValid(cfg: Config, s: NodeState, c: CheckpointProof)
    requires LogValid(cfg, s.log, s.issued) && 1 <= s.issued
    requires Filed(s.change.messages) && (s.change.inProgress ==> s.change.view > s.view)
    requires 1 <= s.sequenceNumber
    requires !c.number.Before(s.lastCheckpoint.number)
    requires PendingValid(cfg, c.number, s.pending - Flushed(s.pending, c.number))
    ensures Valid(cfg, Checkpointed(s, c).state)
  {
    FlushedLogValid(cfg, s.log, s.issued, Flushed(s.pending, c.number));
    hide LogValid, PendingValid, Flushed;
  }

  lemma FlushedLogValid(cfg: Config, log: map<SlotId, Slot>, issued: int, flushed: set<SlotId>)
    requires LogValid(cfg, log, issued)
    ensures LogValid(cfg, log - flushed, issued)
  {
    hide SlotValid;
    var rest := log - flushed;
    assert forall k :: k in rest ==> k in log && rest[k] == log[k];
  }

  lemma EndorseValid(
    cfg: Config, last: SlotId, pending: map<SlotId, CheckpointProof>, message: SignedCheckpoint,
    record: CheckpointProof)
    requires PendingValid(cfg, last, pending)
    requires var n := message.message.number;
      && (n in pending ==> record == pending[n])
      && (n !in pending ==> record == CheckpointProof(n, message.message.snapshot, map[]))
    ensures var n, next := message.message.number, record.(proof := record.proof[message.message.node := message]);
      && RecordValid(n, next)
      && 1 <= |next.proof| <= |record.proof| + 1
  {
    MapCardinality(record.proof, message.message.node, message);
  }

  lemma EndorsedRecord(cfg: Config, s: NodeState, message: SignedCheckpoint)
    requires PendingValid(cfg, s.lastCheckpoint.number, s.pending) && !IsStable(cfg, s, message.message.number)
    requires cfg.Faults() >= 0
    ensures var n, node := message.message.number, message.message.node;
      var record := Endorse(s, message).pending[n];
      && RecordValid(n, record) && 1 <= |record.proof| <= cfg.CheckpointQuorum()
      && node in record.proof && record.proof[node] == message
      && s.lastCheckpoint.number.Before(n)
  {
    var n := message.message.number;
    var record := if n in s.pending then s.pending[n] else CheckpointProof(n, message.message.snapshot, map[]);
    EndorseValid(cfg, s.lastCheckpoint.number, s.pending, message, record);
    assert |record.proof| <= 2 * cfg.Faults();
  }

  lemma AddCheckpointValid(cfg: Config, s: NodeState, message: SignedCheckpoint)
    requires cfg.Valid() && Valid(cfg, s)
    ensures Valid(cfg, AddCheckpoint(cfg, s, message).state)
  {
    hide LogValid, Filed, Flushed, Checkpointed, RecordValid, PendingValid;
    var n, last, s1 := message.message.number, s.lastCheckpoint.number, Endorse(s, message);
    if !IsStable(cfg, s, n) {
      EndorsedRecord(cfg, s, message);
      EndorsedPending(cfg, s, message);
      if IsStable(cfg, s1, n) {
        FlushValid(cfg, last, s1.pending, n);
        CheckpointedValid(cfg, s1, s1.pending[n]);
      }
    }
  }

  // All records but the one just endorsed are as they were; that one may be complete now.
  lemma EndorsedPending(cfg: Config, s: NodeState, message: SignedCheckpoint)
    requires PendingValid(cfg, s.lastCheckpoint.number, s.pending) && !IsStable(cfg, s, message.message.number)
    requires cfg.Faults() >= 0
    ensures var n, last, s1 := message.message.number, s.lastCheckpoint.number, Endorse(s, message);
      && (forall k :: k in s1.pending ==> RecordValid(k, s1.pending[k]))
      && (forall k :: k in s1.pending && k != n ==> last.Before(k) && 1 <= |s1.pending[k].proof| <= 2 * cfg.Faults())
      && (!IsStable(cfg, s1, n) ==> PendingValid(cfg, last, s1.pending))
  {
    EndorsedRecord(cfg, s, message);
    hide RecordValid;
  }

  lemma AssembledIsEndorsed(cfg: Config, s: NodeState, message: SignedCheckpoint)
    requires AddCheckpoint(cfg, s, message).state.lastCheckpoint != s.lastCheckpoint
    ensures var n, s1 := message.message.number, Endorse(s, message);
      && !IsStable(cfg, s, n) && IsStable(cfg, s1, n)
      && AddCheckpoint(cfg, s, message).state.lastCheckpoint == s1.pending[n]
  {
    hide Flushed;
  }

  /** A checkpoint a node completes itself is new to it and signed by 2f + 1 distinct nodes. */
  lemma AssembledCheckpoint(cfg: Config, s: NodeState, message: SignedCheckpoint)
    requires cfg.Valid() && PendingValid(cfg, s.lastCheckpoint.number, s.pending)
    requires AddCheckpoint(cfg, s, message).state.lastCheckpoint != s.lastCheckpoint
    ensures var c := AddCheckpoint(cfg, s, message).state.lastCheckpoint;
      && c.number == message.message.number && s.lastCheckpoint.number.Before(c.number)
      && RecordValid(c.number, c) && |c.proof.Keys| == cfg.CheckpointQuorum()
      && message.message.node in c.proof && c.proof[message.message.node] == message
  {
    hide PendingValid, AddCheckpoint;
    AssembledIsEndorsed(cfg, s, message);
    EndorsedRecord(cfg, s, message);
  }

  lemma CheckpointProofValid(cfg: Config, id: NodeId, s: NodeState, message: SignedCheckpointProof)
    requires cfg.Valid() && Valid(cfg, s)
    ensures Valid(cfg, HandleCheckpointProof(cfg, id, s, message).state)
  {
    var c := message.message.proof;
    if !c.number.Before(s.lastCheckpoint.number) {
      FlushValid(cfg, s.lastCheckpoint.number, s.pending, c.number);
      CheckpointedValid(cfg, s, c);
    }
  }

  lemma StartViewChangeValid(cfg: Config, id: NodeId, s: NodeState, view: int)
    requires Valid(cfg, s) && (view > s.view || !StartsViewChange(s, view))
    ensures Valid(cfg, StartViewChange(cfg, id, s, view).state)
  {
  }

  lemma BecomeLeaderValid(cfg: Config, id: NodeId, s: NodeState, view: int, merge: Merge)
    requires cfg.Valid() && Valid(cfg, s) && merge.minS >= s.lastCheckpoint.number.seqNo
    ensures Valid(cfg, BecomeLeader(cfg, id, s, view, merge).state)
  {
    var pps := NewViewPrePrepares(cfg, id, view, merge);
    var s1 := BecomeLeader(cfg, id, s, view, merge).state;
    forall k | k in s1.log
      ensures SlotValid(cfg, k, s1.log[k]) && (s1.log[k].request.Some? ==> k.seqNo <= s1.issued)
    {
      if k in pps {
        assert s1.log[k] == IssuedSlot(pps[k]);
      } else {
        assert s1.log[k] == s.log[k];
      }
    }
  }

  lemma ViewChangeValid(cfg: Config, id: NodeId, s: NodeState, message: SignedViewChange, merge: Merge)
    requires cfg.Valid() && Valid(cfg, s)
    requires IsMerge(s.lastCheckpoint.number.seqNo, Record(s, message).change.messages, merge)
    ensures Valid(cfg, HandleViewChange(cfg, id, s, message, merge).state)
  {
    var s1, view := Record(s, message), message.message.view;
    assert Valid(cfg, s1);
    if ValidSender(cfg, id, message) {
      if Joins(cfg, s1, view) {
        assert message.message.node in Above(s1.change.messages, CurrentView(s1));
        StartViewChangeValid(cfg, id, s1, LowestAbove(s1.change.messages, CurrentView(s1)));
      } else if Elected(cfg, id, s1, view) {
        BecomeLeaderValid(cfg, id, s1, view, merge);
      }
    }
  }

  lemma {:induction false} AcceptAllValid(
    cfg: Config, id: NodeId, s: NodeState, pps: map<SlotId, FullPrePrepare>, order: seq<SlotId>)
    requires cfg.Valid() && Valid(cfg, s)
    requires forall k :: k in order ==> k in pps
    ensures Valid(cfg, AcceptAll(cfg, id, s, pps, order).state)
  {
    if order != [] {
      var before := order[..|order| - 1];
      AcceptAllValid(cfg, id, s, pps, before);
      PrePrepareValid(cfg, id, AcceptAll(cfg, id, s, pps, before).state, pps[order[|order| - 1]]);
    }
  }

  lemma NewViewValid(cfg: Config, id: NodeId, s: NodeState, message: SignedNewView, order: seq<SlotId>)
    requires cfg.Valid() && Valid(cfg, s)
    requires forall k :: k in order ==> k in message.message.prePrepares
    ensures Valid(cfg, HandleNewView(cfg, id, s, message, order).state)
  {
    if EntersByNewView(s, message) {
      AcceptAllValid(cfg, id, EnterNewView(s, message.message.view), message.message.prePrepares, order);
    }
  }

  lemma InitialValid(cfg: Config, id: NodeId)
    ensures Valid(cfg, Initial(cfg, id))
  {
  }

  lemma MessageValid(cfg: Config, id: NodeId, s: NodeState, msg: Msg, choice: Choice)
    requires cfg.Valid() && Valid(cfg, s) && ChoiceOk(cfg, id, s, Receive(msg), choice)
    ensures Valid(cfg, HandleMessage(cfg, id, s, msg, choice).state)
  {
    hide Valid, HandleClientRequest, HandlePrePrepare, HandlePrepare, HandleCommit, AddCheckpoint,
         HandleCheckpointProof, HandleViewChange, HandleNewView, IsMerge;
    match msg
    case MClientRequest(r) => ClientRequestValid(cfg, id, s, r);
    case MPrePrepare(full) => PrePrepareValid(cfg, id, s, full);
    case MPrepare(p) => PrepareValid(cfg, id, s, p);
    case MCommit(c) => CommitValid(cfg, id, s, c);
    case MCheckpoint(c) => AddCheckpointValid(cfg, s, c);
    case MCheckpointProof(p) => CheckpointProofValid(cfg, id, s, p);
    case MViewChange(m) => ViewChangeValid(cfg, id, s, m, choice.merge);
    case MNewView(m) => NewViewValid(cfg, id, s, m, choice.order);
  }

  /** Every input keeps the replica invariant. */
  lemma StepValid(cfg: Config, id: NodeId, s: NodeState, input: Input, choice: Choice)
    requires cfg.Valid() && Valid(cfg, s) && ChoiceOk(cfg, id, s, input, choice)
    ensures Valid(cfg, Step(cfg, id, s, input, choice).state)
  {
    hide LogValid, PendingValid, Filed, HandleMessage, HandleClientRequest, AddCheckpoint, ChoiceOk, StartViewChange,
         SendHeartbeat;
    match input
    case Receive(msg) => MessageValid(cfg, id, s, msg, choice);
    case Propose(r) => ClientRequestValid(cfg, id, s, r);
    case SnapshotReply(number, state) =>
      AddCheckpointValid(cfg, s, SignedCheckpoint(Checkpoint(number, state, id), By(id)));
    case RequestTimeout => StartViewChangeValid(cfg, id, s, s.view + 1);
    case HeartbeatTimeout => StartViewChangeValid(cfg, id, s, s.view + 1);
    case _ =>
  }
}
