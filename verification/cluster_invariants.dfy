/** What every reachable state of a cluster of such replicas satisfies, whether or not leader entries are fresh. */
module ClusterInvariants {
  import opened Types
  import opened Replica
  import opened ReplicaInvariants
  import opened Cluster

  // Messages

  predicate Issued(sent: set<Msg>, full: FullPrePrepare) {
    MPrePrepare(full) in sent && !full.IsHeartbeat()
  }

  ghost predicate Announced(sent: set<Msg>, number: SlotId, digest: Digest) {
    exists full :: Issued(sent, full) && full.signed.message == PrePrepare(number, digest)
  }

  ghost predicate Built(sent: set<Msg>, view: int) {
    exists nv :: MNewView(nv) in sent && nv.message.view == view
  }

  // A view some node may ask for: the first, or one whose predecessor was entered by its leader.
  ghost predicate Reachable(sent: set<Msg>, view: int) {
    view >= 1 && (view >= 2 ==> Built(sent, view - 1))
  }

  predicate PrePrepareOk(cfg: Config, full: FullPrePrepare)
    requires |cfg.nodes| >= 1
  {
    full.IsHeartbeat() ||
    (full.signed.signature == By(cfg.LeaderFor(full.Number().view)) && cfg.digest(full.request) == full.Digest())
  }

  // Signed by a backup of the slot's view, for a digest its leader announced. That the backup has accepted the
  // pre-prepare is a matter of history.
  ghost predicate PrepareOk(cfg: Config, sent: set<Msg>, p: SignedPrepare)
    requires |cfg.nodes| >= 1
  {
    && p.signature == By(p.message.node)
    && p.message.node in cfg.nodes
    && p.message.node != cfg.LeaderFor(p.message.number.view)
    && Announced(sent, p.message.number, p.message.digest)
  }

  ghost predicate CommitOk(cfg: Config, sent: set<Msg>, c: SignedCommit) {
    && c.signature == By(c.message.node)
    && c.message.node in cfg.nodes
    && Announced(sent, c.message.number, c.message.digest)
  }

  ghost predicate CertificateOk(cfg: Config, sent: set<Msg>, c: CheckpointProof) {
    || c == INITIAL_CHECKPOINT
    || (&& |c.proof| >= cfg.CheckpointQuorum()
        && RecordValid(c.number, c)
        && forall j :: j in c.proof ==> MCheckpoint(c.proof[j]) in sent)
  }

  ghost predicate ProofOk(cfg: Config, sent: set<Msg>, k: SlotId, p: PreparedProof) {
    && Issued(sent, FullPrePrepare(p.preprepare, p.request))
    && p.preprepare.message == PrePrepare(k, p.digest)
    && |p.prepares| >= cfg.PreparedQuorum()
    && forall j :: j in p.prepares ==>
         MPrepare(p.prepares[j]) in sent && p.prepares[j].message.node == j && p.prepares[j].message.number == k
  }

  ghost predicate ViewChangeOk(cfg: Config, sent: set<Msg>, vc: SignedViewChange) {
    && vc.signature == By(vc.message.node)
    && vc.message.node in cfg.nodes
    && Reachable(sent, vc.message.view)
    && forall k :: k in vc.message.proofs ==> ProofOk(cfg, sent, k, vc.message.proofs[k])
  }

  // Sent by the leader of its view, carrying what peers sent and what it issued. The votes it was built from are a
  // matter of history: a resent new view shows later ones.
  ghost predicate NewViewOk(cfg: Config, sent: set<Msg>, nv: SignedNewView)
    requires |cfg.nodes| >= 1
  {
    var m := nv.message;
    && nv.signature == By(m.node)
    && m.node == cfg.LeaderFor(m.view)
    && Reachable(sent, m.view)
    && Filed(m.viewChanges)
    && (forall j :: j in m.viewChanges ==> j != m.node && MViewChange(m.viewChanges[j]) in sent)
    && (forall k :: k in m.prePrepares ==> k.view == m.view && m.prePrepares[k].Number() == k)
    && (forall k :: k in m.prePrepares ==> Issued(sent, m.prePrepares[k]))
  }

  ghost predicate MsgOk(cfg: Config, sent: set<Msg>, msg: Msg)
    requires |cfg.nodes| >= 1
  {
    match msg
    case MClientRequest(r) => true
    case MPrePrepare(full) => PrePrepareOk(cfg, full)
    case MPrepare(p) => PrepareOk(cfg, sent, p)
    case MCommit(c) => CommitOk(cfg, sent, c)
    case MCheckpoint(c) => c.signature == By(c.message.node) && c.message.node in cfg.nodes
    case MCheckpointProof(p) => p.signature == By(p.message.node) && CertificateOk(cfg, sent, p.message.proof)
    case MViewChange(vc) => ViewChangeOk(cfg, sent, vc)
    case MNewView(nv) => NewViewOk(cfg, sent, nv)
  }

  ghost predicate MessagesOk(cfg: Config, sent: set<Msg>)
    requires |cfg.nodes| >= 1
  {
    forall m :: m in sent ==> MsgOk(cfg, sent, m)
  }

  // Node states

  ghost predicate SlotOk(sent: set<Msg>, slot: Slot) {
    && (slot.request.Some? && slot.preprepare.Some? ==>
          Issued(sent, FullPrePrepare(slot.preprepare.value, slot.request.value)))
    && (forall j :: j in slot.prepares ==> MPrepare(slot.prepares[j]) in sent)
    && (forall j :: j in slot.commits ==> MCommit(slot.commits[j]) in sent)
  }

  ghost predicate LogOk(sent: set<Msg>, log: map<SlotId, Slot>) {
    forall k :: k in log ==> SlotOk(sent, log[k])
  }

  ghost predicate CollectedOk(id: NodeId, sent: set<Msg>, messages: map<NodeId, SignedViewChange>) {
    forall j :: j in messages ==> j != id && MViewChange(messages[j]) in sent
  }

  ghost predicate CheckpointsOk(
    cfg: Config, sent: set<Msg>, last: CheckpointProof, pending: map<SlotId, CheckpointProof>)
  {
    && CertificateOk(cfg, sent, last)
    && forall k, j :: k in pending && j in pending[k].proof ==> MCheckpoint(pending[k].proof[j]) in sent
  }

  ghost predicate ViewsOk(sent: set<Msg>, view: int, changing: int) {
    && view >= 0
    && (view >= 1 ==> Built(sent, view))
    && changing >= 0
    && (changing >= 1 ==> Reachable(sent, changing))
  }

  // A leader's issue counter covers everything it has issued.
  ghost predicate IssueOk(cfg: Config, id: NodeId, sent: set<Msg>, issued: int)
    requires |cfg.nodes| >= 1
  {
    forall full :: Issued(sent, full) && cfg.LeaderFor(full.Number().view) == id ==> full.Number().seqNo <= issued
  }

  ghost predicate NewViewSent(sent: set<Msg>, id: NodeId, view: int, prePrepares: map<SlotId, FullPrePrepare>) {
    exists nv :: MNewView(nv) in sent && nv.message.node == id && nv.message.view == view &&
      nv.message.prePrepares == prePrepares
  }

  // The new view kept for resending has been sent before; while there is none, no peer is waiting for it.
  ghost predicate StoredOk(
    cfg: Config, id: NodeId, sent: set<Msg>, newView: Option<StoredNewView>, caughtUp: map<NodeId, int>)
  {
    match newView
    case Some(v) => NewViewSent(sent, id, v.view, v.prePrepares)
    case None => forall p :: p in cfg.nodes && cfg.IsPeer(id, p) ==> p in caughtUp && caughtUp[p] != 0
  }

  ghost predicate NodeOk(cfg: Config, id: NodeId, sent: set<Msg>, s: NodeState)
    requires |cfg.nodes| >= 1
  {
    && LogOk(sent, s.log)
    && CollectedOk(id, sent, s.change.messages)
    && CheckpointsOk(cfg, sent, s.lastCheckpoint, s.pending)
    && ViewsOk(sent, s.view, s.change.view)
    && IssueOk(cfg, id, sent, s.issued)
    && StoredOk(cfg, id, sent, s.newView, s.caughtUp)
  }

  // Growing the network keeps everything but, for the leader that issued something new, IssueOk.

  ghost predicate IssuesNothing(cfg: Config, id: NodeId, sent: set<Msg>, more: set<Msg>)
    requires |cfg.nodes| >= 1
  {
    forall full :: Issued(more, full) && cfg.LeaderFor(full.Number().view) == id ==> Issued(sent, full)
  }

  lemma AnnouncedGrows(sent: set<Msg>, more: set<Msg>, number: SlotId, digest: Digest)
    requires sent <= more && Announced(sent, number, digest)
    ensures Announced(more, number, digest)
  {
    var full :| Issued(sent, full) && full.signed.message == PrePrepare(number, digest);
    assert Issued(more, full);
  }

  lemma ReachableGrows(sent: set<Msg>, more: set<Msg>, view: int)
    requires sent <= more
    ensures Built(sent, view) ==> Built(more, view)
    ensures Reachable(sent, view) ==> Reachable(more, view)
  {
    if Built(sent, view) {
      var nv :| MNewView(nv) in sent && nv.message.view == view;
      assert MNewView(nv) in more;
    }
    if Built(sent, view - 1) {
      var nv :| MNewView(nv) in sent && nv.message.view == view - 1;
      assert MNewView(nv) in more;
    }
  }

  lemma StoredGrows(
    cfg: Config, id: NodeId, sent: set<Msg>, more: set<Msg>, newView: Option<StoredNewView>,
    caughtUp: map<NodeId, int>)
    requires sent <= more && StoredOk(cfg, id, sent, newView, caughtUp)
    ensures StoredOk(cfg, id, more, newView, caughtUp)
  {
    if newView.Some? {
      var nv :| MNewView(nv) in sent && nv.message.node == id && nv.message.view == newView.value.view &&
        nv.message.prePrepares == newView.value.prePrepares;
      assert MNewView(nv) in more;
    }
  }

  lemma NodeOkGrows(cfg: Config, id: NodeId, sent: set<Msg>, more: set<Msg>, s: NodeState)
    requires |cfg.nodes| >= 1
    requires sent <= more && NodeOk(cfg, id, sent, s)
    ensures LogOk(more, s.log)
    ensures CollectedOk(id, more, s.change.messages)
    ensures CheckpointsOk(cfg, more, s.lastCheckpoint, s.pending)
    ensures ViewsOk(more, s.view, s.change.view)
    ensures StoredOk(cfg, id, more, s.newView, s.caughtUp)
    ensures IssuesNothing(cfg, id, sent, more) ==> NodeOk(cfg, id, more, s)
  {
    ReachableGrows(sent, more, s.view);
    ReachableGrows(sent, more, s.change.view);
    assert StoredOk(cfg, id, more, s.newView, s.caughtUp) by {
      StoredGrows(cfg, id, sent, more, s.newView, s.caughtUp);
    }
    assert LogOk(more, s.log) by {
      forall k | k in s.log ensures SlotOk(more, s.log[k]) { assert SlotOk(sent, s.log[k]); }
    }
    if IssuesNothing(cfg, id, sent, more) {
      forall full | Issued(more, full) && cfg.LeaderFor(full.Number().view) == id
        ensures full.Number().seqNo <= s.issued
      {
        assert Issued(sent, full);
      }
    }
  }

  lemma MsgOkGrows(cfg: Config, sent: set<Msg>, more: set<Msg>, msg: Msg)
    requires |cfg.nodes| >= 1
    requires sent <= more && MsgOk(cfg, sent, msg)
    ensures MsgOk(cfg, more, msg)
  {
    match msg
    case MPrepare(p) => AnnouncedGrows(sent, more, p.message.number, p.message.digest);
    case MCommit(c) => AnnouncedGrows(sent, more, c.message.number, c.message.digest);
    case MViewChange(vc) =>
      ReachableGrows(sent, more, vc.message.view);
      forall k | k in vc.message.proofs
        ensures ProofOk(cfg, more, k, vc.message.proofs[k])
      {
        assert ProofOk(cfg, sent, k, vc.message.proofs[k]);
      }
    case MNewView(nv) => ReachableGrows(sent, more, nv.message.view);
    case _ =>
  }

  lemma MessagesGrow(cfg: Config, sent: set<Msg>, more: set<Msg>)
    requires |cfg.nodes| >= 1
    requires sent <= more && MessagesOk(cfg, sent)
    requires forall m :: m in more && m !in sent ==> MsgOk(cfg, more, m)
    ensures MessagesOk(cfg, more)
  {
    hide MsgOk;
    forall m | m in more
      ensures MsgOk(cfg, more, m)
    {
      if m in sent {
        MsgOkGrows(cfg, sent, more, m);
      }
    }
  }

  // A handler that sends nothing that issues: what it must show of the rest.
  lemma PlainSend(cfg: Config, id: NodeId, sent: set<Msg>, out: set<Msg>)
    requires |cfg.nodes| >= 1
    requires forall m :: m in out ==> !m.MNewView?
    ensures After(sent, out) == sent + out
    ensures (forall m :: m in out ==> !m.MPrePrepare?) ==> IssuesNothing(cfg, id, sent, After(sent, out))
  {
    assert Embedded(out) == {};
  }

  // The handlers, one by one

  ghost predicate Kept(cfg: Config, id: NodeId, sent: set<Msg>, o: Outcome)
    requires |cfg.nodes| >= 1
  {
    NodeOk(cfg, id, After(sent, o.sent), o.state) && MessagesOk(cfg, After(sent, o.sent))
  }

  ghost predicate Ready(cfg: Config, id: NodeId, sent: set<Msg>, s: NodeState) {
    && cfg.Valid()
    && id in cfg.nodes
    && Valid(cfg, s)
    && NodeOk(cfg, id, sent, s)
    && MessagesOk(cfg, sent)
  }

  lemma QuietKept(cfg: Config, id: NodeId, sent: set<Msg>, s: NodeState)
    requires |cfg.nodes| >= 1 && NodeOk(cfg, id, sent, s) && MessagesOk(cfg, sent)
    ensures Kept(cfg, id, sent, Quiet(s))
  {
    PlainSend(cfg, id, sent, {});
    assert After(sent, {}) == sent;
  }

  lemma ClientRequestKept(cfg: Config, id: NodeId, sent: set<Msg>, s: NodeState, request: string)
    requires Ready(cfg, id, sent, s)
    ensures Kept(cfg, id, sent, HandleClientRequest(cfg, id, s, request))
  {
    assert s.issued >= 1;
    hide Valid, LogOk, CollectedOk, CheckpointsOk, ViewsOk, StoredOk, MessagesOk;
    var o := HandleClientRequest(cfg, id, s, request);
    var more := After(sent, o.sent);
    PlainSend(cfg, id, sent, o.sent);
    NodeOkGrows(cfg, id, sent, more, s);
    MessagesGrow(cfg, sent, more);
    if Allocates(cfg, id, s, request) {
      var full := NextFull(cfg, id, s, request);
      assert forall f :: Issued(more, f) ==> Issued(sent, f) || f == full;
      assert Issued(more, full);
      SlotUpdateOk(more, s.log, full.Number(), IssuedSlot(full));
    }
  }

  lemma PrePrepareKept(cfg: Config, id: NodeId, sent: set<Msg>, s: NodeState, full: FullPrePrepare)
    requires Ready(cfg, id, sent, s) && MPrePrepare(full) in sent
    ensures Kept(cfg, id, sent, HandlePrePrepare(cfg, id, s, full))
  {
    hide MessagesOk, Valid, CollectedOk, CheckpointsOk, ViewsOk, StoredOk;
    var o := HandlePrePrepare(cfg, id, s, full);
    var more := After(sent, o.sent);
    PlainSend(cfg, id, sent, o.sent);
    NodeOkGrows(cfg, id, sent, more, s);
    if Accepts(cfg, id, s, full) {
      PrepareForOk(cfg, id, sent, more, s, full);
      var slot := AcceptInto(id, SlotAt(s.log, full.Number()), full);
      assert SlotOk(more, slot);
      SlotUpdateOk(more, s.log, full.Number(), slot);
    }
    hide LogOk, IssueOk;
    MessagesGrow(cfg, sent, more);
  }

  lemma PrepareForOk(cfg: Config, id: NodeId, sent: set<Msg>, more: set<Msg>, s: NodeState, full: FullPrePrepare)
    requires cfg.Valid() && id in cfg.nodes && Accepts(cfg, id, s, full) && MPrePrepare(full) in sent && sent <= more
    ensures Issued(more, full) && MsgOk(cfg, more, MPrepare(PrepareFor(id, full)))
  {
    assert Issued(more, full) && full.signed.message == PrePrepare(full.Number(), full.Digest());
  }

  lemma SlotUpdateOk(sent: set<Msg>, log: map<SlotId, Slot>, k: SlotId, slot: Slot)
    requires LogOk(sent, log) && SlotOk(sent, slot)
    ensures LogOk(sent, log[k := slot])
  {
  }

  lemma PrepareLogOk(cfg: Config, id: NodeId, more: set<Msg>, s: NodeState, p: SignedPrepare)
    requires LogOk(more, s.log) && MPrepare(p) in more
    requires HandlePrepare(cfg, id, s, p).sent <= more
    ensures LogOk(more, HandlePrepare(cfg, id, s, p).state.log)
  {
    hide HandlePrepare, IsPrepared;
    PrepareShape(cfg, id, s, p);
    var k := p.message.number;
    var slot := PrepareInto(SlotAt(s.log, k), p);
    assert SlotOk(more, slot);
    var commit := CommitFor(id, p.message);
    if MCommit(commit) in more {
      assert SlotOk(more, slot.(prepared := true, commits := slot.commits[id := commit]));
    }
  }

  lemma PrepareMessagesOk(cfg: Config, id: NodeId, sent: set<Msg>, s: NodeState, p: SignedPrepare)
    requires cfg.Valid() && id in cfg.nodes && MessagesOk(cfg, sent) && MPrepare(p) in sent
    ensures MessagesOk(cfg, sent + HandlePrepare(cfg, id, s, p).sent)
    ensures HandlePrepare(cfg, id, s, p).sent <= {MCommit(CommitFor(id, p.message))}
  {
    assert MsgOk(cfg, sent, MPrepare(p));
    hide HandlePrepare, MessagesOk, IsPrepared;
    PrepareShape(cfg, id, s, p);
    var more := sent + HandlePrepare(cfg, id, s, p).sent;
    AnnouncedGrows(sent, more, p.message.number, p.message.digest);
    assert MsgOk(cfg, more, MCommit(CommitFor(id, p.message)));
    MessagesGrow(cfg, sent, more);
  }

  // A step that leaves everything but the log and the flags of the main loop alone.
  lemma LogStepKept(cfg: Config, id: NodeId, sent: set<Msg>, s: NodeState, o: Outcome)
    requires |cfg.nodes| >= 1 && NodeOk(cfg, id, sent, s)
    requires o.state == s.(log := o.state.log, sequenceNumber := o.state.sequenceNumber)
    requires forall m :: m in o.sent ==> m.MCommit?
    requires MessagesOk(cfg, sent + o.sent) && LogOk(sent + o.sent, o.state.log)
    ensures Kept(cfg, id, sent, o)
  {
    PlainSend(cfg, id, sent, o.sent);
    hide LogOk, MessagesOk, CollectedOk, CheckpointsOk, ViewsOk, IssueOk;
    NodeOkGrows(cfg, id, sent, After(sent, o.sent), s);
  }

  lemma PrepareKept(cfg: Config, id: NodeId, sent: set<Msg>, s: NodeState, p: SignedPrepare)
    requires Ready(cfg, id, sent, s) && MPrepare(p) in sent
    ensures Kept(cfg, id, sent, HandlePrepare(cfg, id, s, p))
  {
    hide HandlePrepare, LogOk, MessagesOk, Valid, NodeOk, IsPrepared;
    var o := HandlePrepare(cfg, id, s, p);
    PrepareShape(cfg, id, s, p);
    PrepareMessagesOk(cfg, id, sent, s, p);
    NodeOkGrows(cfg, id, sent, sent + o.sent, s);
    PrepareLogOk(cfg, id, sent + o.sent, s, p);
    LogStepKept(cfg, id, sent, s, o);
  }

  lemma CommitLogOk(cfg: Config, id: NodeId, sent: set<Msg>, s: NodeState, c: SignedCommit)
    requires LogOk(sent, s.log) && MCommit(c) in sent
    ensures LogOk(sent, HandleCommit(cfg, id, s, c).state.log)
  {
    hide HandleCommit, IsCommitted;
    CommitShape(cfg, id, s, c);
    var slot := CommitInto(SlotAt(s.log, c.message.number), c);
    assert SlotOk(sent, slot) && SlotOk(sent, slot.(committed := true));
  }

  lemma CommitKept(cfg: Config, id: NodeId, sent: set<Msg>, s: NodeState, c: SignedCommit)
    requires Ready(cfg, id, sent, s) && MCommit(c) in sent
    ensures Kept(cfg, id, sent, HandleCommit(cfg, id, s, c))
  {
    assert LogOk(sent, s.log);
    hide HandleCommit, LogOk, MessagesOk, Valid, NodeOk, IsCommitted;
    var o := HandleCommit(cfg, id, s, c);
    CommitShape(cfg, id, s, c);
    CommitLogOk(cfg, id, sent, s, c);
    assert sent + o.sent == sent;
    LogStepKept(cfg, id, sent, s, o);
  }

  lemma FlushedLogOk(sent: set<Msg>, log: map<SlotId, Slot>, flushed: set<SlotId>)
    requires LogOk(sent, log)
    ensures LogOk(sent, log - flushed)
  {
    var rest := log - flushed;
    forall k | k in rest ensures SlotOk(sent, rest[k]) { assert k in log && rest[k] == log[k]; }
  }

  lemma CheckpointedKept(cfg: Config, id: NodeId, sent: set<Msg>, s: NodeState, c: CheckpointProof)
    requires |cfg.nodes| >= 1 && NodeOk(cfg, id, sent, s) && CertificateOk(cfg, sent, c)
    ensures NodeOk(cfg, id, sent, Checkpointed(s, c).state)
    ensures Checkpointed(s, c).sent == {}
  {
    hide LogOk, CertificateOk, CollectedOk, ViewsOk, IssueOk;
    FlushedLogOk(sent, s.log, Flushed(s.pending, c.number));
    assert CheckpointsOk(cfg, sent, c, s.pending - Flushed(s.pending, c.number));
  }

  lemma EndorseKept(cfg: Config, id: NodeId, sent: set<Msg>, s: NodeState, c: SignedCheckpoint)
    requires PendingValid(cfg, s.lastCheckpoint.number, s.pending) && MCheckpoint(c) in sent
    requires CheckpointsOk(cfg, sent, s.lastCheckpoint, s.pending)
    ensures var pending, n := Endorse(s, c).pending, c.message.number;
      && CheckpointsOk(cfg, sent, s.lastCheckpoint, pending)
      && (|pending[n].proof| >= cfg.CheckpointQuorum() ==> CertificateOk(cfg, sent, pending[n]))
  {
    var n := c.message.number;
    var record := if n in s.pending then s.pending[n] else CheckpointProof(n, c.message.snapshot, map[]);
    EndorseValid(cfg, s.lastCheckpoint.number, s.pending, c, record);
  }

  lemma AddCheckpointKept(cfg: Config, id: NodeId, sent: set<Msg>, s: NodeState, c: SignedCheckpoint)
    requires cfg.Valid() && Valid(cfg, s) && NodeOk(cfg, id, sent, s) && MCheckpoint(c) in sent
    ensures NodeOk(cfg, id, sent, AddCheckpoint(cfg, s, c).state)
    ensures AddCheckpoint(cfg, s, c).sent == {}
  {
    hide LogOk, CheckpointsOk, CertificateOk, CollectedOk, ViewsOk, IssueOk, LogValid, PendingValid, Filed;
    var n := c.message.number;
    var s1 := Endorse(s, c);
    EndorseKept(cfg, id, sent, s, c);
    if !IsStable(cfg, s, n) && IsStable(cfg, s1, n) {
      CheckpointedKept(cfg, id, sent, s1, s1.pending[n]);
    }
  }

  lemma CheckpointKept(cfg: Config, id: NodeId, sent: set<Msg>, s: NodeState, c: SignedCheckpoint)
    requires Ready(cfg, id, sent, s) && MCheckpoint(c) in sent
    ensures Kept(cfg, id, sent, HandleCheckpoint(cfg, id, s, c))
  {
    hide AddCheckpoint, NodeOk, MessagesOk, Valid, After;
    AddCheckpointKept(cfg, id, sent, s, c);
    PlainSend(cfg, id, sent, {});
    assert sent + {} == sent;
  }

  lemma CheckpointProofKept(cfg: Config, id: NodeId, sent: set<Msg>, s: NodeState, p: SignedCheckpointProof)
    requires Ready(cfg, id, sent, s) && MCheckpointProof(p) in sent
    ensures Kept(cfg, id, sent, HandleCheckpointProof(cfg, id, s, p))
  {
    assert MsgOk(cfg, sent, MCheckpointProof(p));
    hide Checkpointed, NodeOk, MessagesOk, Valid, CertificateOk;
    CheckpointedKept(cfg, id, sent, s, p.message.proof);
    PlainSend(cfg, id, sent, {});
  }

  lemma RecvSnapshotKept(cfg: Config, id: NodeId, sent: set<Msg>, s: NodeState, number: SlotId, state: Snapshot)
    requires Ready(cfg, id, sent, s)
    ensures Kept(cfg, id, sent, HandleRecvSnapshot(cfg, id, s, number, state))
  {
    var own := SignedCheckpoint(Checkpoint(number, state, id), By(id));
    var more := After(sent, {MCheckpoint(own)});
    PlainSend(cfg, id, sent, {MCheckpoint(own)});
    NodeOkGrows(cfg, id, sent, more, s);
    AddCheckpointKept(cfg, id, more, s, own);
    MessagesGrow(cfg, sent, more);
  }

  lemma StartViewChangeKept(cfg: Config, id: NodeId, sent: set<Msg>, s: NodeState, view: int)
    requires Ready(cfg, id, sent, s) && Reachable(sent, view)
    ensures Kept(cfg, id, sent, StartViewChange(cfg, id, s, view))
  {
    var o := StartViewChange(cfg, id, s, view);
    var more := After(sent, o.sent);
    PlainSend(cfg, id, sent, o.sent);
    NodeOkGrows(cfg, id, sent, more, s);
    ReachableGrows(sent, more, view);
    forall k | k in ProofsSinceCheckpoint(cfg, s)
      ensures ProofOk(cfg, more, k, ProofsSinceCheckpoint(cfg, s)[k])
    {
      assert SlotOk(more, s.log[k]) && SlotValid(cfg, k, s.log[k]);
    }
    assert ViewChangeOk(cfg, more, ViewChangeFor(cfg, id, s, view));
    MessagesGrow(cfg, sent, more);
  }

  lemma HeartbeatOk(cfg: Config, id: NodeId, sent: set<Msg>, s: NodeState, p: NodeId)
    requires Ready(cfg, id, sent, s) && p in cfg.nodes && cfg.IsPeer(id, p) && CaughtUpTo(s, p) != 0
    requires HeartbeatFor(cfg, id, s, p).Some?
    ensures var m := HeartbeatFor(cfg, id, s, p).value;
      && !m.MNewView? && !m.MViewChange?
      && (m in sent || (MsgOk(cfg, sent, m) && (m.MPrePrepare? ==> m.full.IsHeartbeat())))
  {
  }

  lemma ResentOk(cfg: Config, id: NodeId, sent: set<Msg>, s: NodeState)
    requires Ready(cfg, id, sent, s) && s.newView.Some?
    ensures var nv := ResentNewView(id, s);
      NewViewOk(cfg, sent, nv) && NewViewSent(sent, id, nv.message.view, nv.message.prePrepares)
  {
    var v := s.newView.value;
    var first :| MNewView(first) in sent && first.message.node == id && first.message.view == v.view &&
      first.message.prePrepares == v.prePrepares;
    assert MsgOk(cfg, sent, MNewView(first));
  }

  lemma HeartbeatsOk(cfg: Config, id: NodeId, sent: set<Msg>, s: NodeState)
    requires Ready(cfg, id, sent, s)
    ensures forall m :: m in SendHeartbeat(cfg, id, s) ==> !m.MViewChange?
    ensures forall m :: m in SendHeartbeat(cfg, id, s) ==>
      || m in sent
      || (MsgOk(cfg, sent, m) && (m.MPrePrepare? ==> m.full.IsHeartbeat())
          && (m.MNewView? ==> m == MNewView(ResentNewView(id, s)) && s.newView.Some?))
  {
    hide MsgOk, MessagesOk, Valid, LogOk, CollectedOk, CheckpointsOk, ViewsOk, IssueOk;
    forall m | m in SendHeartbeat(cfg, id, s)
      ensures !m.MViewChange?
      ensures || m in sent
              || (MsgOk(cfg, sent, m) && (m.MPrePrepare? ==> m.full.IsHeartbeat())
                  && (m.MNewView? ==> m == MNewView(ResentNewView(id, s)) && s.newView.Some?))
    {
      var p :| p in cfg.nodes && cfg.IsPeer(id, p) && HeartbeatFor(cfg, id, s, p) == Some(m);
      if CaughtUpTo(s, p) != 0 {
        HeartbeatOk(cfg, id, sent, s, p);
      } else {
        ResentOk(cfg, id, sent, s);
        assert MsgOk(cfg, sent, MNewView(ResentNewView(id, s))) by {
          assert NewViewOk(cfg, sent, ResentNewView(id, s));
          NewViewMsgOk(cfg, sent, ResentNewView(id, s));
        }
      }
    }
  }

  lemma NewViewMsgOk(cfg: Config, sent: set<Msg>, nv: SignedNewView)
    requires |cfg.nodes| >= 1 && NewViewOk(cfg, sent, nv)
    ensures MsgOk(cfg, sent, MNewView(nv))
  {
  }

  // Heartbeats bring no pre-prepare into the network that is not a sign of life or there already.
  lemma HeartbeatsAddNothing(cfg: Config, id: NodeId, sent: set<Msg>, s: NodeState)
    requires Ready(cfg, id, sent, s)
    ensures After(sent, SendHeartbeat(cfg, id, s)) == sent + SendHeartbeat(cfg, id, s)
    ensures IssuesNothing(cfg, id, sent, After(sent, SendHeartbeat(cfg, id, s)))
  {
    HeartbeatsOk(cfg, id, sent, s);
    hide SendHeartbeat, Valid, NodeOk;
    var out := SendHeartbeat(cfg, id, s);
    forall m, k | m in out && m.MNewView? && k in m.newView.message.prePrepares
      ensures MPrePrepare(m.newView.message.prePrepares[k]) in sent
    {
      assert MsgOk(cfg, sent, m);
      assert Issued(sent, m.newView.message.prePrepares[k]);
    }
    assert Embedded(out) <= sent;
  }

  lemma HeartbeatKept(cfg: Config, id: NodeId, sent: set<Msg>, s: NodeState)
    requires Ready(cfg, id, sent, s)
    ensures Kept(cfg, id, sent, Send(s, SendHeartbeat(cfg, id, s)))
  {
    HeartbeatsOk(cfg, id, sent, s);
    HeartbeatsAddNothing(cfg, id, sent, s);
    hide SendHeartbeat, MsgOk, MessagesOk, IssuesNothing, Valid, NodeOk, ResentNewView, After;
    var more := After(sent, SendHeartbeat(cfg, id, s));
    NodeOkGrows(cfg, id, sent, more, s);
    forall m | m in more && m !in sent
      ensures MsgOk(cfg, more, m)
    {
      MsgOkGrows(cfg, sent, more, m);
    }
    MessagesGrow(cfg, sent, more);
  }

  // A reply is never 0, so it cannot make a peer wait for a new view that was never built.
  lemma ReplyKept(cfg: Config, id: NodeId, sent: set<Msg>, s: NodeState, peer: NodeId, reached: int)
    requires Ready(cfg, id, sent, s) && reached >= 1
    ensures Kept(cfg, id, sent, Quiet(HandleReply(cfg, id, s, peer, reached)))
  {
    hide LogOk, CollectedOk, CheckpointsOk, ViewsOk, IssueOk, MessagesOk, Valid, NewViewSent;
    QuietKept(cfg, id, sent, HandleReply(cfg, id, s, peer, reached));
  }

  lemma HeartbeatTimeoutKept(cfg: Config, id: NodeId, sent: set<Msg>, s: NodeState)
    requires Ready(cfg, id, sent, s)
    ensures Kept(cfg, id, sent, HandleHeartbeatTimeout(cfg, id, s))
  {
    hide SendHeartbeat, StartViewChange, Kept, NodeOk, MessagesOk, Valid;
    if s.change.inProgress || s.down {
      QuietKept(cfg, id, sent, s);
    } else if IsPrimary(cfg, id, s) {
      HeartbeatKept(cfg, id, sent, s);
    } else {
      NextViewReachable(cfg, id, sent, s);
      StartViewChangeKept(cfg, id, sent, s, s.view + 1);
    }
  }

  lemma NextViewReachable(cfg: Config, id: NodeId, sent: set<Msg>, s: NodeState)
    requires |cfg.nodes| >= 1 && NodeOk(cfg, id, sent, s)
    ensures Reachable(sent, s.view + 1)
  {
  }

  // The leader branch

  /** Whatever the merge picks carries the digest of its own request. */
  lemma ReissuedOk(
    cfg: Config, id: NodeId, sent: set<Msg>, s: NodeState, view: int, merge: Merge, n: int)
    requires cfg.Valid() && cfg.LeaderFor(view) == id && view >= 1
    requires MessagesOk(cfg, sent) && CollectedOk(id, sent, s.change.messages)
    requires Selects(s.change.messages, merge.chosen)
    ensures var full := Reissued(cfg, id, view, merge, n);
      PrePrepareOk(cfg, full) && !full.IsHeartbeat() && full.Number() == SlotId(view, n)
  {
    if n in merge.chosen {
      var j, k :| ProofIn(s.change.messages, j, k) && k.seqNo == n &&
        merge.chosen[n] == RequestViewOf(s.change.messages, j, k);
      var vc := s.change.messages[j];
      ProofDigest(cfg, sent, vc, k);
    }
  }

  lemma ProofDigest(cfg: Config, sent: set<Msg>, vc: SignedViewChange, k: SlotId)
    requires |cfg.nodes| >= 1 && MessagesOk(cfg, sent) && MViewChange(vc) in sent && k in vc.message.proofs
    ensures ProofOk(cfg, sent, k, vc.message.proofs[k])
    ensures cfg.digest(vc.message.proofs[k].request) == vc.message.proofs[k].digest
  {
    assert MsgOk(cfg, sent, MViewChange(vc));
    var p := vc.message.proofs[k];
    assert ProofOk(cfg, sent, k, p);
    assert MsgOk(cfg, sent, MPrePrepare(FullPrePrepare(p.preprepare, p.request)));
  }

  lemma BecomeLeaderSends(
    cfg: Config, id: NodeId, sent: set<Msg>, s: NodeState, view: int, merge: Merge)
    requires cfg.Valid()
    ensures var nv := NewViewFor(cfg, id, s, view, merge);
      var more := After(sent, {MNewView(nv)});
      && (forall k :: k in nv.message.prePrepares ==> MPrePrepare(nv.message.prePrepares[k]) in more)
      && (forall m :: m in more && m !in sent && m != MNewView(nv) ==>
            exists k :: k in nv.message.prePrepares && m == MPrePrepare(nv.message.prePrepares[k]))
  {
    var nv := NewViewFor(cfg, id, s, view, merge);
    forall k | k in nv.message.prePrepares
      ensures MPrePrepare(nv.message.prePrepares[k]) in After(sent, {MNewView(nv)})
    {
      var m := MNewView(nv);
      assert m in {MNewView(nv)} && m.MNewView? && k in m.newView.message.prePrepares;
    }
  }

  lemma BecomeLeaderIssues(
    cfg: Config, id: NodeId, sent: set<Msg>, s: NodeState, view: int, merge: Merge)
    requires Ready(cfg, id, sent, s) && view >= 1 && Elected(cfg, id, s, view)
    requires IsMerge(s.lastCheckpoint.number.seqNo, s.change.messages, merge)
    ensures var nv := NewViewFor(cfg, id, s, view, merge);
      var more := After(sent, {MNewView(nv)});
      && (forall k :: k in nv.message.prePrepares ==>
            var full := nv.message.prePrepares[k];
            && Issued(more, full) && PrePrepareOk(cfg, full)
            && full.Number() == k && k.view == view && k.seqNo <= merge.maxS)
      && (forall full :: Issued(more, full) && !Issued(sent, full) ==>
            full.Number() in nv.message.prePrepares && nv.message.prePrepares[full.Number()] == full)
  {
    var nv := NewViewFor(cfg, id, s, view, merge);
    var more := After(sent, {MNewView(nv)});
    BecomeLeaderSends(cfg, id, sent, s, view, merge);
    forall k | k in nv.message.prePrepares
      ensures var full := nv.message.prePrepares[k];
        && Issued(more, full) && PrePrepareOk(cfg, full)
        && full.Number() == k && k.view == view && k.seqNo <= merge.maxS
    {
      ReissuedOk(cfg, id, sent, s, view, merge, k.seqNo);
    }
  }

  lemma BecomeLeaderMessages(
    cfg: Config, id: NodeId, sent: set<Msg>, s: NodeState, view: int, merge: Merge)
    requires Ready(cfg, id, sent, s) && Elected(cfg, id, s, view) && Reachable(sent, view)
    requires IsMerge(s.lastCheckpoint.number.seqNo, s.change.messages, merge)
    ensures var nv := NewViewFor(cfg, id, s, view, merge);
      NewViewOk(cfg, After(sent, {MNewView(nv)}), nv) && MessagesOk(cfg, After(sent, {MNewView(nv)}))
  {
    hide MessagesOk, IsMerge, NewViewPrePrepares, LogOk, CheckpointsOk, IssueOk, LogValid, PendingValid;
    var nv := NewViewFor(cfg, id, s, view, merge);
    var more := After(sent, {MNewView(nv)});
    BecomeLeaderSends(cfg, id, sent, s, view, merge);
    BecomeLeaderIssues(cfg, id, sent, s, view, merge);
    ReachableGrows(sent, more, view);
    assert CollectedOk(id, sent, s.change.messages) && Filed(s.change.messages);
    hide MessagesOk, NodeOk, Valid, IsMerge, NewViewPrePrepares, Reachable, After, Issued;
    assert sent <= more;
    assert NewViewOk(cfg, more, nv);
    hide NewViewOk;
    MessagesGrow(cfg, sent, more);
  }

  lemma BecomeLeaderIssueOk(
    cfg: Config, id: NodeId, sent: set<Msg>, s: NodeState, view: int, merge: Merge)
    requires Ready(cfg, id, sent, s) && view >= 1 && Elected(cfg, id, s, view)
    requires IsMerge(s.lastCheckpoint.number.seqNo, s.change.messages, merge)
    ensures IssueOk(cfg, id, After(sent, {MNewView(NewViewFor(cfg, id, s, view, merge))}),
      BecomeLeader(cfg, id, s, view, merge).state.issued)
  {
    assert IssueOk(cfg, id, sent, s.issued);
    hide Ready, IsMerge, NewViewFor, After, Elected;
    var nv := NewViewFor(cfg, id, s, view, merge);
    var more := After(sent, {MNewView(nv)});
    BecomeLeaderIssues(cfg, id, sent, s, view, merge);
    assert BecomeLeader(cfg, id, s, view, merge).state.issued == if merge.maxS > s.issued then merge.maxS else s.issued;
    hide BecomeLeader, FullPrePrepare.IsHeartbeat;
    forall full | Issued(more, full) && cfg.LeaderFor(full.Number().view) == id
      ensures full.Number().seqNo <= BecomeLeader(cfg, id, s, view, merge).state.issued
    {
      if !Issued(sent, full) {
        assert full.Number() in nv.message.prePrepares;
      }
    }
  }

  lemma BecomeLeaderKept(
    cfg: Config, id: NodeId, sent: set<Msg>, s: NodeState, view: int, merge: Merge)
    requires Ready(cfg, id, sent, s) && Elected(cfg, id, s, view) && Reachable(sent, view)
    requires IsMerge(s.lastCheckpoint.number.seqNo, s.change.messages, merge)
    ensures Kept(cfg, id, sent, BecomeLeader(cfg, id, s, view, merge))
  {
    hide LogOk, CheckpointsOk, Valid, IsMerge, NewViewPrePrepares, NewViewOk, CollectedOk, IssueOk, MessagesOk;
    var nv := NewViewFor(cfg, id, s, view, merge);
    var more := After(sent, {MNewView(nv)});
    BecomeLeaderMessages(cfg, id, sent, s, view, merge);
    BecomeLeaderIssues(cfg, id, sent, s, view, merge);
    BecomeLeaderIssueOk(cfg, id, sent, s, view, merge);
    NodeOkGrows(cfg, id, sent, more, s);
    BecomeLeaderLogOk(cfg, id, more, s, view, merge);
    assert MNewView(nv) in more;
  }

  lemma BecomeLeaderLogOk(
    cfg: Config, id: NodeId, more: set<Msg>, s: NodeState, view: int, merge: Merge)
    requires cfg.Valid() && LogOk(more, s.log)
    requires var pps := NewViewPrePrepares(cfg, id, view, merge); forall k :: k in pps ==> Issued(more, pps[k])
    ensures LogOk(more, BecomeLeader(cfg, id, s, view, merge).state.log)
  {
    var pps := NewViewPrePrepares(cfg, id, view, merge);
    var t := BecomeLeader(cfg, id, s, view, merge).state;
    forall k | k in t.log
      ensures SlotOk(more, t.log[k])
    {
      if k in pps {
        assert FullPrePrepare(pps[k].signed, pps[k].request) == pps[k];
        assert t.log[k] == IssuedSlot(pps[k]);
      } else {
        assert t.log[k] == s.log[k];
      }
    }
  }

  lemma RecordKept(cfg: Config, id: NodeId, sent: set<Msg>, s: NodeState, m: SignedViewChange)
    requires Ready(cfg, id, sent, s) && MViewChange(m) in sent && ValidSender(cfg, id, m)
    ensures Ready(cfg, id, sent, Record(s, m))
    ensures forall j :: j in Record(s, m).change.messages ==>
      Reachable(sent, Record(s, m).change.messages[j].message.view)
  {
    var s1 := Record(s, m);
    assert CollectedOk(id, sent, s1.change.messages);
    forall j | j in s1.change.messages
      ensures Reachable(sent, s1.change.messages[j].message.view)
    {
      assert MsgOk(cfg, sent, MViewChange(s1.change.messages[j]));
    }
  }

  lemma ViewChangeKept(
    cfg: Config, id: NodeId, sent: set<Msg>, s: NodeState, m: SignedViewChange, merge: Merge)
    requires Ready(cfg, id, sent, s) && MViewChange(m) in sent
    requires IsMerge(s.lastCheckpoint.number.seqNo, Record(s, m).change.messages, merge)
    ensures Kept(cfg, id, sent, HandleViewChange(cfg, id, s, m, merge))
  {
    hide Kept, NodeOk, MessagesOk, Valid, StartViewChange, BecomeLeader, IsMerge;
    if !ValidSender(cfg, id, m) {
      QuietKept(cfg, id, sent, s);
    } else {
      RecordKept(cfg, id, sent, s, m);
      var s1, view := Record(s, m), m.message.view;
      assert s1.change.messages[m.message.node] == m;
      if Joins(cfg, s1, view) {
        assert m.message.node in Above(s1.change.messages, CurrentView(s1));
        StartViewChangeKept(cfg, id, sent, s1, LowestAbove(s1.change.messages, CurrentView(s1)));
      } else if Elected(cfg, id, s1, view) {
        BecomeLeaderKept(cfg, id, sent, s1, view, merge);
      } else {
        QuietKept(cfg, id, sent, s1);
      }
    }
  }

  lemma EnterKept(cfg: Config, id: NodeId, sent: set<Msg>, s: NodeState, nv: SignedNewView)
    requires Ready(cfg, id, sent, s) && MNewView(nv) in sent
    ensures Ready(cfg, id, sent, EnterNewView(s, nv.message.view))
  {
    assert MsgOk(cfg, sent, MNewView(nv));
    assert Built(sent, nv.message.view);
  }

  lemma {:induction false} AcceptAllKept(
    cfg: Config, id: NodeId, sent: set<Msg>, s: NodeState, pps: map<SlotId, FullPrePrepare>, order: seq<SlotId>)
    requires Ready(cfg, id, sent, s)
    requires forall k :: k in order ==> k in pps
    requires forall k :: k in pps ==> MPrePrepare(pps[k]) in sent
    ensures Kept(cfg, id, sent, AcceptAll(cfg, id, s, pps, order))
  {
    hide Kept, NodeOk, MessagesOk, Valid, HandlePrePrepare;
    if order == [] {
      QuietKept(cfg, id, sent, s);
    } else {
      var before := AcceptAll(cfg, id, s, pps, order[..|order| - 1]);
      var full := pps[order[|order| - 1]];
      AcceptAllKept(cfg, id, sent, s, pps, order[..|order| - 1]);
      AcceptAllValid(cfg, id, s, pps, order[..|order| - 1]);
      KeptReady(cfg, id, sent, before);
      PrePrepareKept(cfg, id, After(sent, before.sent), before.state, full);
      AfterTwice(sent, before.sent, HandlePrePrepare(cfg, id, before.state, full).sent);
      SentEq(cfg, id, sent, before, HandlePrePrepare(cfg, id, before.state, full));
    }
  }

  lemma AfterTwice(sent: set<Msg>, a: set<Msg>, b: set<Msg>)
    ensures After(After(sent, a), b) == After(sent, a + b)
  {
    assert Embedded(a + b) == Embedded(a) + Embedded(b);
  }

  lemma KeptReady(cfg: Config, id: NodeId, sent: set<Msg>, o: Outcome)
    requires cfg.Valid() && id in cfg.nodes && Valid(cfg, o.state) && Kept(cfg, id, sent, o)
    ensures Ready(cfg, id, After(sent, o.sent), o.state)
  {
  }

  lemma SentEq(cfg: Config, id: NodeId, sent: set<Msg>, before: Outcome, o: Outcome)
    requires cfg.Valid() && Kept(cfg, id, After(sent, before.sent), o)
    ensures Kept(cfg, id, sent, Send(o.state, before.sent + o.sent))
  {
    AfterTwice(sent, before.sent, o.sent);
  }

  lemma NewViewKept(
    cfg: Config, id: NodeId, sent: set<Msg>, s: NodeState, nv: SignedNewView, order: seq<SlotId>)
    requires Ready(cfg, id, sent, s) && MNewView(nv) in sent
    requires forall k :: k in order ==> k in nv.message.prePrepares
    ensures Kept(cfg, id, sent, HandleNewView(cfg, id, s, nv, order))
  {
    if EntersByNewView(s, nv) {
      EnterKept(cfg, id, sent, s, nv);
      assert MsgOk(cfg, sent, MNewView(nv));
      AcceptAllKept(cfg, id, sent, EnterNewView(s, nv.message.view), nv.message.prePrepares, order);
    } else {
      QuietKept(cfg, id, sent, s);
    }
  }

  lemma MessageKept(cfg: Config, id: NodeId, sent: set<Msg>, s: NodeState, msg: Msg, choice: Choice)
    requires Ready(cfg, id, sent, s) && msg in sent && ChoiceOk(cfg, id, s, Receive(msg), choice)
    ensures Kept(cfg, id, sent, HandleMessage(cfg, id, s, msg, choice))
  {
    hide Kept, NodeOk, MessagesOk, Valid, HandleClientRequest, HandlePrePrepare, HandlePrepare, HandleCommit,
         HandleCheckpoint, HandleCheckpointProof, HandleViewChange, HandleNewView;
    match msg
    case MClientRequest(r) => ClientRequestKept(cfg, id, sent, s, r);
    case MPrePrepare(full) => PrePrepareKept(cfg, id, sent, s, full);
    case MPrepare(p) => PrepareKept(cfg, id, sent, s, p);
    case MCommit(c) => CommitKept(cfg, id, sent, s, c);
    case MCheckpoint(c) => CheckpointKept(cfg, id, sent, s, c);
    case MCheckpointProof(p) => CheckpointProofKept(cfg, id, sent, s, p);
    case MViewChange(m) => ViewChangeKept(cfg, id, sent, s, m, choice.merge);
    case MNewView(m) => NewViewKept(cfg, id, sent, s, m, choice.order);
  }

  lemma StepKept(cfg: Config, id: NodeId, sent: set<Msg>, s: NodeState, input: Input, choice: Choice)
    requires Ready(cfg, id, sent, s) && ChoiceOk(cfg, id, s, input, choice)
    requires (input.Receive? ==> input.msg in sent) && (input.HeartbeatReply? ==> input.reached >= 1)
    ensures Kept(cfg, id, sent, Step(cfg, id, s, input, choice))
  {
    hide Kept, MessagesOk, Valid, HandleMessage, HandleClientRequest, HandleRecvSnapshot, StartViewChange,
         HandleHeartbeatTimeout, HandleReply;
    match input
    case Receive(msg) => MessageKept(cfg, id, sent, s, msg, choice);
    case Propose(r) => ClientRequestKept(cfg, id, sent, s, r);
    case SnapshotReply(number, state) => RecvSnapshotKept(cfg, id, sent, s, number, state);
    case RequestTimeout =>
      NextViewReachable(cfg, id, sent, s);
      StartViewChangeKept(cfg, id, sent, s, s.view + 1);
    case HeartbeatTimeout => HeartbeatTimeoutKept(cfg, id, sent, s);
    case HeartbeatReply(peer, reached) => ReplyKept(cfg, id, sent, s, peer, reached);
    case SetDown(down) => QuietKept(cfg, id, sent, s.(down := down));
  }
}
