/** Agreement within a view, prepared certificates, and what stands behind a new view, a checkpoint or a delivery. */
module DeliveryResults {
  import opened Types
  import opened Quorums
  import opened Replica
  import opened ReplicaInvariants
  import opened NodeRuns
  import opened Cluster
  import opened ClusterInvariants
  import opened Agreement
  import opened Histories
  import opened Projection

  // Agreement within a view

  // The slot and digest a protocol message is about; heartbeats are about none.
  function Mentions(msg: Msg): Option<PrePrepare> {
    match msg
    case MPrePrepare(full) => if full.IsHeartbeat() then None else Some(full.signed.message)
    case MPrepare(p) => Some(PrePrepare(p.message.number, p.message.digest))
    case MCommit(c) => Some(PrePrepare(c.message.number, c.message.digest))
    case _ => None
  }

  lemma SystemMessagesOk(cfg: Config, sys: System)
    requires cfg.Valid() && SystemOk(cfg, sys)
    ensures MessagesOk(cfg, sys.sent)
  {
    assert Ready(cfg, cfg.nodes[0], sys.sent, sys.nodes[cfg.nodes[0]]);
  }

  lemma MentionIsAnnounced(cfg: Config, sent: set<Msg>, msg: Msg)
    requires |cfg.nodes| >= 1 && MessagesOk(cfg, sent) && msg in sent && Mentions(msg).Some?
    ensures Announced(sent, Mentions(msg).value.number, Mentions(msg).value.digest)
  {
    assert MsgOk(cfg, sent, msg);
    if msg.MPrePrepare? {
      assert Issued(sent, msg.full) && msg.full.signed.message == PrePrepare(msg.full.Number(), msg.full.Digest());
    }
  }

  /** All pre-prepares, prepares and commits for one slot carry one digest. */
  lemma MessagesAgree(cfg: Config, states: seq<System>, events: seq<Event>, i: nat, a: Msg, b: Msg)
    requires cfg.Valid() && FreshExecution(cfg, states, events) && i < |states|
    requires a in states[i].sent && b in states[i].sent
    requires Mentions(a).Some? && Mentions(b).Some? && Mentions(a).value.number == Mentions(b).value.number
    ensures Mentions(a) == Mentions(b)
  {
    hide FreshExecution, Ready;
    ReachableOneEach(cfg, states, events, i);
    SystemMessagesOk(cfg, states[i]);
    hide MessagesOk;
    MentionIsAnnounced(cfg, states[i].sent, a);
    MentionIsAnnounced(cfg, states[i].sent, b);
  }

  ghost predicate AllAgree(sent: set<Msg>) {
    forall a, b ::
      (a in sent && b in sent && Mentions(a).Some? && Mentions(b).Some?
       && Mentions(a).value.number == Mentions(b).value.number) ==> Mentions(a) == Mentions(b)
  }

  lemma AllAgreeIff(cfg: Config, sent: set<Msg>)
    requires |cfg.nodes| >= 1 && MessagesOk(cfg, sent)
    ensures AllAgree(sent) <==> OneDigest(sent)
  {
    hide MessagesOk;
    if OneDigest(sent) {
      forall a, b | a in sent && b in sent && Mentions(a).Some? && Mentions(b).Some? &&
                    Mentions(a).value.number == Mentions(b).value.number
        ensures Mentions(a) == Mentions(b)
      {
        MentionIsAnnounced(cfg, sent, a);
        MentionIsAnnounced(cfg, sent, b);
      }
    } else {
      var f, g :| Issued(sent, f) && Issued(sent, g) && f.Number() == g.Number() && f.Digest() != g.Digest();
      assert Mentions(MPrePrepare(f)) != Mentions(MPrePrepare(g));
    }
  }

  /** Without the freshness hypothesis: exactly as long as no leader's entry contradicts a digest given before. */
  lemma MessagesAgreeIff(cfg: Config, states: seq<System>, events: seq<Event>, i: nat)
    requires cfg.Valid() && Execution(cfg, states, events) && i < |states|
    ensures AllAgree(states[i].sent) <==> forall t :: 0 <= t < i ==> !Contradicts(cfg, states[t], events[t])
  {
    hide Contradicts, AllAgree, OneDigest, Ready, MessagesOk;
    ReachableOk(cfg, states, events, i);
    SystemMessagesOk(cfg, states[i]);
    OneDigestIff(cfg, states, events, i);
    AllAgreeIff(cfg, states[i].sent);
  }

  /** What a log holds for a slot is what every message about it says, so a digest never mismatches. */
  lemma LogsAgree(
    cfg: Config, states: seq<System>, events: seq<Event>, i: nat, id: NodeId, k: SlotId, msg: Msg)
    requires cfg.Valid() && FreshExecution(cfg, states, events) && i < |states| && id in states[i].nodes
    requires k in states[i].nodes[id].log && states[i].nodes[id].log[k].request.Some?
    requires msg in states[i].sent && Mentions(msg).Some? && Mentions(msg).value.number == k
    ensures Mentions(msg).value.digest == states[i].nodes[id].log[k].digest
    ensures cfg.digest(states[i].nodes[id].log[k].request.value) == states[i].nodes[id].log[k].digest
  {
    ReachableOk(cfg, states, events, i);
    hide FreshExecution, Execution;
    var full := SlotIsIssued(cfg, states[i], id, k);
    hide SystemOk, Ready;
    MessagesAgree(cfg, states, events, i, msg, MPrePrepare(full));
  }

  // The pre-prepare behind a slot that holds a request.
  lemma SlotIsIssued(cfg: Config, sys: System, id: NodeId, k: SlotId) returns (full: FullPrePrepare)
    requires cfg.Valid() && SystemOk(cfg, sys) && id in sys.nodes
    requires k in sys.nodes[id].log && sys.nodes[id].log[k].request.Some?
    ensures Issued(sys.sent, full)
    ensures full.signed.message == PrePrepare(k, sys.nodes[id].log[k].digest)
    ensures full.request == sys.nodes[id].log[k].request.value
    ensures cfg.digest(full.request) == full.Digest() && full.signed.signature == By(cfg.LeaderFor(k.view))
  {
    var s := sys.nodes[id];
    assert Ready(cfg, id, sys.sent, s);
    hide IssueOk, CheckpointsOk, CollectedOk, ViewsOk, PendingValid, Filed;
    var slot := s.log[k];
    assert SlotValid(cfg, k, slot) && SlotOk(sys.sent, slot);
    full := FullPrePrepare(slot.preprepare.value, slot.request.value);
    assert MsgOk(cfg, sys.sent, MPrePrepare(full));
  }

  // Prepared certificates

  function Certificate(cfg: Config, k: SlotId, slot: Slot): set<NodeId>
    requires |cfg.nodes| >= 1
  {
    {cfg.LeaderFor(k.view)} + slot.prepares.Keys
  }

  // Each prepare was sent and signed by the backup it is filed under.
  ghost predicate PreparesSent(cfg: Config, sent: set<Msg>, k: SlotId, prepares: map<NodeId, SignedPrepare>)
    requires |cfg.nodes| >= 1
  {
    forall j :: j in prepares ==>
      && j != cfg.LeaderFor(k.view)
      && MPrepare(prepares[j]) in sent && prepares[j].signature == By(j)
      && prepares[j].message.node == j && prepares[j].message.number == k
  }

  lemma SlotCertificate(cfg: Config, sys: System, id: NodeId, k: SlotId)
    requires cfg.Valid() && SystemOk(cfg, sys) && id in sys.nodes
    requires k in sys.nodes[id].log && IsPrepared(cfg, sys.nodes[id].log[k])
    ensures var slot := sys.nodes[id].log[k];
      && Certificate(cfg, k, slot) <= Members(cfg)
      && |Certificate(cfg, k, slot)| >= cfg.CheckpointQuorum()
      && Announced(sys.sent, k, slot.digest)
      && PreparesSent(cfg, sys.sent, k, slot.prepares)
  {
    SlotFacts(cfg, sys, id, k);
    PreparedHasRequest(cfg, sys, id, k);
    var full := SlotIsIssued(cfg, sys, id, k);
    hide SystemOk, SlotValid, SlotOk, MessagesOk, IsPrepared, Certificate;
    CertificateOfSlot(cfg, sys.sent, k, sys.nodes[id].log[k]);
  }

  ghost predicate LeaderIssued(cfg: Config, states: seq<System>, events: seq<Event>, i: nat, p: PrePrepare)
    requires |cfg.nodes| >= 1 && i <= |events| < |states|
  {
    exists t: nat, full | t < i && IssuesIn(cfg, states, events, t, full) :: full.signed.message == p
  }

  ghost predicate Accepted(cfg: Config, states: seq<System>, events: seq<Event>, i: nat, p: Prepare)
    requires |cfg.nodes| >= 1 && i <= |events| < |states|
  {
    exists t: nat | t < i :: AcceptsIn(cfg, states, events, t, p)
  }

  // Each prepare is signed by the backup it is filed under, which accepted a pre-prepare for k before sending it.
  ghost predicate BackupsAccepted(
    cfg: Config, states: seq<System>, events: seq<Event>, i: nat, k: SlotId, prepares: map<NodeId, SignedPrepare>)
    requires |cfg.nodes| >= 1 && i <= |events| < |states|
  {
    forall j :: j in prepares ==>
      && j != cfg.LeaderFor(k.view) && prepares[j].signature == By(j)
      && prepares[j].message.node == j && prepares[j].message.number == k
      && Accepted(cfg, states, events, i, prepares[j].message)
  }

  // After i steps this slot is prepared, by 2f + 1 distinct nodes: its leader, who issued a pre-prepare with the
  // slot's digest, and others who accepted one for the slot and sent the prepares filed under their names.
  ghost predicate Certified(cfg: Config, states: seq<System>, events: seq<Event>, i: nat, k: SlotId, slot: Slot)
    requires |cfg.nodes| >= 1 && i <= |events| < |states|
  {
    && IsPrepared(cfg, slot)
    && Certificate(cfg, k, slot) <= Members(cfg) && |Certificate(cfg, k, slot)| >= cfg.CheckpointQuorum()
    && LeaderIssued(cfg, states, events, i, PrePrepare(k, slot.digest))
    && BackupsAccepted(cfg, states, events, i, k, slot.prepares)
  }

  lemma AnnouncedWasIssued(cfg: Config, states: seq<System>, events: seq<Event>, i: nat, k: SlotId, digest: Digest)
    requires cfg.Valid() && Execution(cfg, states, events) && i <= |events| && Announced(states[i].sent, k, digest)
    ensures LeaderIssued(cfg, states, events, i, PrePrepare(k, digest))
  {
    assert |states| == |events| + 1;
    hide Execution, IssuesIn;
    var full :| Issued(states[i].sent, full) && full.signed.message == PrePrepare(k, digest);
    var t := WasIssued(cfg, states, events, i, full);
  }

  lemma SentWasAccepted(cfg: Config, states: seq<System>, events: seq<Event>, i: nat, p: SignedPrepare)
    requires cfg.Valid() && Execution(cfg, states, events) && i <= |events| && MPrepare(p) in states[i].sent
    ensures Accepted(cfg, states, events, i, p.message)
  {
    assert |states| == |events| + 1;
    hide Execution, AcceptsIn;
    var t := PrepareWasAccepted(cfg, states, events, i, p);
  }

  /** Behind a prepared slot stand 2f + 1 distinct nodes that issued or accepted a pre-prepare for it. */
  lemma PreparedCertificate(
    cfg: Config, states: seq<System>, events: seq<Event>, i: nat, id: NodeId, k: SlotId)
    requires cfg.Valid() && Execution(cfg, states, events) && i <= |events| && id in states[i].nodes
    requires k in states[i].nodes[id].log && IsPrepared(cfg, states[i].nodes[id].log[k])
    ensures Certified(cfg, states, events, i, k, states[i].nodes[id].log[k])
  {
    assert |states| == |events| + 1;
    hide Execution, SystemOk, Announced, LeaderIssued, Accepted, Certificate, IsPrepared;
    ReachableOk(cfg, states, events, i);
    SlotCertificate(cfg, states[i], id, k);
    SlotIsCertified(cfg, states, events, i, k, states[i].nodes[id].log[k]);
  }

  lemma SlotIsCertified(cfg: Config, states: seq<System>, events: seq<Event>, i: nat, k: SlotId, slot: Slot)
    requires cfg.Valid() && Execution(cfg, states, events) && i <= |events| && IsPrepared(cfg, slot)
    requires Certificate(cfg, k, slot) <= Members(cfg) && |Certificate(cfg, k, slot)| >= cfg.CheckpointQuorum()
    requires Announced(states[i].sent, k, slot.digest)
    requires PreparesSent(cfg, states[i].sent, k, slot.prepares)
    ensures Certified(cfg, states, events, i, k, slot)
  {
    assert |states| == |events| + 1;
    hide Execution, Announced, LeaderIssued, BackupsAccepted, PreparesSent, Certificate, IsPrepared, Members;
    AnnouncedWasIssued(cfg, states, events, i, k, slot.digest);
    AllAccepted(cfg, states, events, i, k, slot.prepares);
  }

  lemma AllAccepted(
    cfg: Config, states: seq<System>, events: seq<Event>, i: nat, k: SlotId, prepares: map<NodeId, SignedPrepare>)
    requires cfg.Valid() && Execution(cfg, states, events) && i <= |events|
    requires PreparesSent(cfg, states[i].sent, k, prepares)
    ensures BackupsAccepted(cfg, states, events, i, k, prepares)
  {
    assert |states| == |events| + 1;
    hide Execution, Accepted;
    forall j | j in prepares
      ensures Accepted(cfg, states, events, i, prepares[j].message)
    {
      SentWasAccepted(cfg, states, events, i, prepares[j]);
    }
  }

  lemma CertificateOfSlot(cfg: Config, sent: set<Msg>, k: SlotId, slot: Slot)
    requires |cfg.nodes| >= 1 && MessagesOk(cfg, sent) && SlotValid(cfg, k, slot) && SlotOk(sent, slot)
    requires IsPrepared(cfg, slot)
    ensures Certificate(cfg, k, slot) <= Members(cfg)
    ensures |Certificate(cfg, k, slot)| >= cfg.CheckpointQuorum()
    ensures PreparesSent(cfg, sent, k, slot.prepares)
  {
    hide SlotValid, SlotOk, MessagesOk;
    forall j | j in slot.prepares
      ensures j in cfg.nodes && j != cfg.LeaderFor(k.view)
      ensures MPrepare(slot.prepares[j]) in sent && slot.prepares[j].signature == By(j)
      ensures slot.prepares[j].message.node == j && slot.prepares[j].message.number == k
    {
      PreparedBy(cfg, sent, k, slot, j);
    }
    assert |Certificate(cfg, k, slot)| == |slot.prepares.Keys| + 1;
  }

  lemma SlotFacts(cfg: Config, sys: System, id: NodeId, k: SlotId)
    requires cfg.Valid() && SystemOk(cfg, sys) && id in sys.nodes && k in sys.nodes[id].log
    ensures SlotValid(cfg, k, sys.nodes[id].log[k]) && SlotOk(sys.sent, sys.nodes[id].log[k])
    ensures MessagesOk(cfg, sys.sent)
  {
    assert Ready(cfg, id, sys.sent, sys.nodes[id]);
  }

  lemma PreparedHasRequest(cfg: Config, sys: System, id: NodeId, k: SlotId)
    requires cfg.Valid() && SystemOk(cfg, sys) && id in sys.nodes
    requires k in sys.nodes[id].log && IsPrepared(cfg, sys.nodes[id].log[k])
    ensures sys.nodes[id].log[k].request.Some?
  {
    assert Ready(cfg, id, sys.sent, sys.nodes[id]);
  }

  /** With fresh leader entries, all of a certificate's nodes prepared the digest the slot holds. */
  lemma CertificateAgrees(
    cfg: Config, states: seq<System>, events: seq<Event>, i: nat, id: NodeId, k: SlotId, j: NodeId)
    requires cfg.Valid() && FreshExecution(cfg, states, events) && i < |states| && id in states[i].nodes
    requires k in states[i].nodes[id].log && IsPrepared(cfg, states[i].nodes[id].log[k])
    requires j in states[i].nodes[id].log[k].prepares
    ensures states[i].nodes[id].log[k].prepares[j].message == Prepare(k, states[i].nodes[id].log[k].digest, j)
  {
    var p := states[i].nodes[id].log[k].prepares[j];
    assert MPrepare(p) in states[i].sent && p.message.node == j && p.message.number == k
           && states[i].nodes[id].log[k].request.Some? by {
      ReachableOk(cfg, states, events, i);
      hide Execution, SystemOk;
      SlotCertificate(cfg, states[i], id, k);
      PreparedHasRequest(cfg, states[i], id, k);
    }
    hide IsPrepared, Execution, FreshExecution;
    LogsAgree(cfg, states, events, i, id, k, MPrepare(p));
  }

  lemma PreparedBy(cfg: Config, sent: set<Msg>, k: SlotId, slot: Slot, j: NodeId)
    requires |cfg.nodes| >= 1 && MessagesOk(cfg, sent)
    requires SlotValid(cfg, k, slot) && SlotOk(sent, slot) && j in slot.prepares
    ensures MPrepare(slot.prepares[j]) in sent && slot.prepares[j].message.node == j
    ensures slot.prepares[j].message.number == k && slot.prepares[j].signature == By(j)
    ensures j in cfg.nodes && j != cfg.LeaderFor(k.view)
  {
    assert MsgOk(cfg, sent, MPrepare(slot.prepares[j]));
  }

  // Checkpoints

  /** Every checkpoint a node has adopted, its own or one it was told of, is the initial one or has a full quorum. */
  lemma CheckpointBacked(cfg: Config, states: seq<System>, events: seq<Event>, i: nat, id: NodeId)
    requires cfg.Valid() && Execution(cfg, states, events) && i < |states| && id in states[i].nodes
    ensures var c := states[i].nodes[id].lastCheckpoint;
      c == INITIAL_CHECKPOINT ||
      (&& c.proof.Keys <= Members(cfg) && |c.proof.Keys| >= cfg.CheckpointQuorum()
       && forall j :: j in c.proof ==>
            MCheckpoint(c.proof[j]) in states[i].sent && c.proof[j].signature == By(j)
            && c.proof[j].message.number == c.number)
  {
    hide Execution, MessagesOk, RecordValid;
    ReachableOk(cfg, states, events, i);
    SystemMessagesOk(cfg, states[i]);
    AdoptedOk(cfg, states[i], id);
    hide SystemOk;
    if states[i].nodes[id].lastCheckpoint != INITIAL_CHECKPOINT {
      CertificateSigned(cfg, states[i].sent, states[i].nodes[id].lastCheckpoint);
    }
  }

  lemma AdoptedOk(cfg: Config, sys: System, id: NodeId)
    requires cfg.Valid() && SystemOk(cfg, sys) && id in sys.nodes
    ensures CertificateOk(cfg, sys.sent, sys.nodes[id].lastCheckpoint)
  {
    assert Ready(cfg, id, sys.sent, sys.nodes[id]);
    hide Valid, MessagesOk, LogOk, CollectedOk, ViewsOk, IssueOk, StoredOk;
  }

  lemma CertificateSigned(cfg: Config, sent: set<Msg>, c: CheckpointProof)
    requires |cfg.nodes| >= 1 && MessagesOk(cfg, sent) && CertificateOk(cfg, sent, c) && c != INITIAL_CHECKPOINT
    ensures c.proof.Keys <= Members(cfg)
    ensures forall j :: j in c.proof ==> c.proof[j].signature == By(j) && c.proof[j].message.number == c.number
  {
    forall j | j in c.proof
      ensures c.proof[j].signature == By(j) && j in cfg.nodes && c.proof[j].message.number == c.number
    {
      assert MsgOk(cfg, sent, MCheckpoint(c.proof[j]));
    }
  }

  // Deliveries

  ghost predicate DeliversIn(cfg: Config, states: seq<System>, events: seq<Event>, i: nat, k: SlotId)
    requires |cfg.nodes| >= 1 && Execution(cfg, states, events) && i < |events|
  {
    Delivers(Perform(cfg, states[i], events[i]), k)
  }

  lemma DeliveredIsIssued(cfg: Config, states: seq<System>, events: seq<Event>, i: nat, k: SlotId)
    returns (full: FullPrePrepare)
    requires cfg.Valid() && Execution(cfg, states, events) && i < |events| && DeliversIn(cfg, states, events, i, k)
    ensures Issued(states[i].sent, full) && full.Number() == k
    ensures Some(full.request) == Perform(cfg, states[i], events[i]).delivered.value.request
  {
    var id, e := events[i].node, events[i];
    ReachableOk(cfg, states, events, i);
    OnlyCommitsDeliver(cfg, id, states[i].nodes[id], e.input, e.choice, k);
    hide Step, SystemOk;
    full := SlotIsIssued(cfg, states[i], id, k);
  }

  /** Any two requests delivered for one slot, anywhere and at any time, are the same request. */
  lemma DeliveryAgreement(
    cfg: Config, states: seq<System>, events: seq<Event>, i: nat, j: nat, k: SlotId)
    requires cfg.Valid() && FreshExecution(cfg, states, events) && i <= j < |events|
    requires DeliversIn(cfg, states, events, i, k) && DeliversIn(cfg, states, events, j, k)
    ensures Perform(cfg, states[i], events[i]).delivered.value.request ==
            Perform(cfg, states[j], events[j]).delivered.value.request
  {
    var f := DeliveredIsIssued(cfg, states, events, i, k);
    var g := DeliveredIsIssued(cfg, states, events, j, k);
    SentGrows(cfg, states, events, i, j);
    ReachableOneEach(cfg, states, events, j);
    hide Perform, FreshExecution, SystemOk;
    assert Issued(states[j].sent, f) && Issued(states[j].sent, g);
  }

  // A step that sends a commit leaves its slot prepared at the sender, which is not changing view.
  ghost predicate CommitsIn(cfg: Config, states: seq<System>, events: seq<Event>, t: nat, c: SignedCommit)
    requires |cfg.nodes| >= 1 && Execution(cfg, states, events) && t < |events|
  {
    var s := states[t + 1].nodes;
    && events[t].node == c.message.node
    && MCommit(c) in Perform(cfg, states[t], events[t]).sent
    && !states[t].nodes[events[t].node].change.inProgress
    && c.message.node in s && c.message.number in s[c.message.node].log
    && IsPrepared(cfg, s[c.message.node].log[c.message.number])
  }

  lemma MessageCommits(cfg: Config, id: NodeId, s: NodeState, msg: Msg, choice: Choice, c: SignedCommit)
    requires cfg.Valid() && ChoiceOk(cfg, id, s, Receive(msg), choice)
    requires MCommit(c) in HandleMessage(cfg, id, s, msg, choice).sent
    ensures c.message.node == id && !s.change.inProgress
    ensures var t := HandleMessage(cfg, id, s, msg, choice).state;
      c.message.number in t.log && IsPrepared(cfg, t.log[c.message.number])
  {
    hide HandlePrePrepare, HandleCommit, HandleCheckpoint, HandleCheckpointProof, Allocates, HandleNewView,
         HandleViewChange, IsMerge;
    match msg
    case MClientRequest(r) =>
    case MPrepare(p) =>
    case MViewChange(m) =>
      ViewChangeSends(cfg, id, s, m, choice.merge);
      ViewChangeNoCommits(cfg, id, s, m, choice.merge);
    case MNewView(m) =>
      if EntersByNewView(s, m) {
        AcceptAllFrame(cfg, id, EnterNewView(s, m.message.view), m.message.prePrepares, choice.order);
      }
      NewViewNoCommits(cfg, id, s, m, choice.order);
    case _ => NormalCaseSends(cfg, id, s); PrePrepareNoCommits(cfg, id, s);
  }

  lemma ViewChangeNoCommits(cfg: Config, id: NodeId, s: NodeState, m: SignedViewChange, merge: Merge)
    requires cfg.Valid()
    ensures forall x :: x in HandleViewChange(cfg, id, s, m, merge).sent ==> !x.MCommit?
  {
  }

  lemma NewViewNoCommits(cfg: Config, id: NodeId, s: NodeState, m: SignedNewView, order: seq<SlotId>)
    requires cfg.Valid()
    requires forall k :: k in order ==> k in m.message.prePrepares
    ensures forall x :: x in HandleNewView(cfg, id, s, m, order).sent ==> !x.MCommit?
  {
    if EntersByNewView(s, m) {
      AcceptAllFrame(cfg, id, EnterNewView(s, m.message.view), m.message.prePrepares, order);
    }
  }

  lemma PrePrepareNoCommits(cfg: Config, id: NodeId, s: NodeState)
    requires cfg.Valid()
    ensures forall f, x :: x in HandlePrePrepare(cfg, id, s, f).sent ==> !x.MCommit?
  {
  }

  lemma StepCommits(cfg: Config, id: NodeId, s: NodeState, input: Input, choice: Choice, c: SignedCommit)
    requires cfg.Valid() && ChoiceOk(cfg, id, s, input, choice)
    requires MCommit(c) in Step(cfg, id, s, input, choice).sent
    ensures c.message.node == id && !s.change.inProgress
    ensures var t := Step(cfg, id, s, input, choice).state;
      c.message.number in t.log && IsPrepared(cfg, t.log[c.message.number])
  {
    hide HandleMessage, AddCheckpoint, Allocates;
    match input
    case Receive(msg) => MessageCommits(cfg, id, s, msg, choice, c);
    case _ =>
  }

  /** Whoever sent a commit held the slot's prepared certificate when it did. */
  lemma CommitHadCertificate(
    cfg: Config, states: seq<System>, events: seq<Event>, i: nat, c: SignedCommit) returns (t: nat)
    requires cfg.Valid() && Execution(cfg, states, events) && i < |states| && MCommit(c) in states[i].sent
    ensures t < i && CommitsIn(cfg, states, events, t, c)
  {
    t := SentAt(cfg, states, events, i, MCommit(c));
    hide Execution, Step, ChoiceOk, IsPrepared;
    var e := events[t];
    StepCommits(cfg, e.node, states[t].nodes[e.node], e.input, e.choice, c);
  }

  // In step t, q sends this commit for k, with the slot's certificate of 2f + 1 nodes in hand.
  ghost predicate CommitsCertified(
    cfg: Config, states: seq<System>, events: seq<Event>, t: nat, k: SlotId, q: NodeId, c: SignedCommit)
    requires |cfg.nodes| >= 1 && Execution(cfg, states, events) && t < |events|
  {
    && CommitsIn(cfg, states, events, t, c) && c.message.node == q && c.message.number == k
    && Certified(cfg, states, events, t + 1, k, states[t + 1].nodes[q].log[k])
  }

  // By step i, q has sent a commit for k, and had the slot's certificate of 2f + 1 nodes in hand when it did.
  ghost predicate Backs(cfg: Config, states: seq<System>, events: seq<Event>, i: nat, k: SlotId, q: NodeId)
    requires |cfg.nodes| >= 1 && Execution(cfg, states, events) && i < |events|
  {
    exists t: nat, c: SignedCommit :: t <= i && CommitsCertified(cfg, states, events, t, k, q, c)
  }

  /** Behind a delivery stand commits from 2f distinct nodes, each sent with a prepared certificate in hand. */
  lemma DeliveryBacked(cfg: Config, states: seq<System>, events: seq<Event>, i: nat, k: SlotId)
    returns (backers: set<NodeId>)
    requires cfg.Valid() && Execution(cfg, states, events) && i < |events| && DeliversIn(cfg, states, events, i, k)
    ensures |backers| >= cfg.PreparedQuorum() && backers <= Members(cfg)
    ensures forall q :: q in backers ==> Backs(cfg, states, events, i, k, q)
  {
    var id := events[i].node;
    assert |states| == |events| + 1;
    assert k in states[i + 1].nodes[id].log && IsCommitted(cfg, states[i + 1].nodes[id].log[k]) by {
      assert Enabled(cfg, states[i], events[i]) && states[i + 1] == Next(cfg, states[i], events[i]);
      hide Step, ChoiceOk;
      DeliveredIsCommitted(cfg, id, states[i].nodes[id], events[i].input, events[i].choice, k);
    }
    ReachableOk(cfg, states, events, i + 1);
    assert id in states[i + 1].nodes;
    hide Execution, SystemOk, DeliversIn, Backs;
    backers := states[i + 1].nodes[id].log[k].commits.Keys;
    forall q | q in backers
      ensures q in cfg.nodes && Backs(cfg, states, events, i, k, q)
    {
      var c := CommitInSlot(cfg, states[i + 1], id, k, q);
      CommitBacks(cfg, states, events, i, k, c);
    }
  }

  lemma CommitBacks(cfg: Config, states: seq<System>, events: seq<Event>, i: nat, k: SlotId, c: SignedCommit)
    requires cfg.Valid() && Execution(cfg, states, events) && i < |events|
    requires MCommit(c) in states[i + 1].sent && c.message.number == k
    ensures Backs(cfg, states, events, i, k, c.message.node)
  {
    assert |states| == |events| + 1;
    hide Execution, CommitsCertified, CommitsIn;
    var t := CommitHadCertificate(cfg, states, events, i + 1, c);
    CommitIsCertified(cfg, states, events, t, c);
  }

  lemma CommitIsCertified(cfg: Config, states: seq<System>, events: seq<Event>, t: nat, c: SignedCommit)
    requires cfg.Valid() && Execution(cfg, states, events) && t < |events| && CommitsIn(cfg, states, events, t, c)
    ensures CommitsCertified(cfg, states, events, t, c.message.number, c.message.node, c)
  {
    assert |states| == |events| + 1;
    hide Execution, CommitsIn, Certified, IsPrepared;
    CommitsAt(cfg, states, events, t, c);
    PreparedCertificate(cfg, states, events, t + 1, c.message.node, c.message.number);
  }

  lemma CommitsAt(cfg: Config, states: seq<System>, events: seq<Event>, t: nat, c: SignedCommit)
    requires cfg.Valid() && Execution(cfg, states, events) && t < |events| && CommitsIn(cfg, states, events, t, c)
    ensures var s := states[t + 1].nodes;
      && c.message.node in s && c.message.number in s[c.message.node].log
      && IsPrepared(cfg, s[c.message.node].log[c.message.number])
  {
  }

  lemma DeliveredIsCommitted(cfg: Config, id: NodeId, s: NodeState, input: Input, choice: Choice, k: SlotId)
    requires cfg.Valid() && ChoiceOk(cfg, id, s, input, choice)
    requires Delivers(Step(cfg, id, s, input, choice), k)
    ensures var t := Step(cfg, id, s, input, choice).state; k in t.log && IsCommitted(cfg, t.log[k])
  {
    OnlyCommitsDeliver(cfg, id, s, input, choice, k);
  }

  lemma CommitInSlot(cfg: Config, sys: System, id: NodeId, k: SlotId, q: NodeId) returns (c: SignedCommit)
    requires cfg.Valid() && SystemOk(cfg, sys) && id in sys.nodes
    requires k in sys.nodes[id].log && q in sys.nodes[id].log[k].commits
    ensures MCommit(c) in sys.sent && c.message.node == q && c.message.number == k && q in cfg.nodes
  {
    var s := sys.nodes[id];
    assert Ready(cfg, id, sys.sent, s);
    c := s.log[k].commits[q];
    assert SlotValid(cfg, k, s.log[k]) && SlotOk(sys.sent, s.log[k]);
    assert MsgOk(cfg, sys.sent, MCommit(c));
  }

  // At one node, a slot delivers a request at most once

  /** In a cluster with fresh leader entries, no node delivers two requests for one slot, nor one request twice. */
  lemma DeliveredOncePerNode(cfg: Config, states: seq<System>, events: seq<Event>, i: nat, j: nat, k: SlotId)
    requires cfg.Valid() && FreshExecution(cfg, states, events) && i < j < |events|
    requires events[i].node == events[j].node && DeliversIn(cfg, states, events, i, k)
    ensures !DeliversIn(cfg, states, events, j, k)
  {
    var id := events[i].node;
    assert Enabled(cfg, states[i], events[i]);
    ReachableOk(cfg, states, events, i);
    hide Step, ChoiceOk, Ready, Delivers, Run, FreshRun, OwnSteps;
    var local, stimuli := ProjectsToRun(cfg, states, events, j + 1, id);
    OwnStepsGrow(events, i, j, id);
    var a, b := OwnSteps(events, i, id), OwnSteps(events, j, id);
    assert stimuli[a] == Stimulus(events[i].input, events[i].choice) && local[a] == states[i].nodes[id];
    assert stimuli[b] == Stimulus(events[j].input, events[j].choice) && local[b] == states[j].nodes[id];
    DeliveredAtMostOnce(cfg, id, local, stimuli, a, b, k);
  }
}
