/**
 What a replica does with each kind of input in the normal case, with checkpoints and with heartbeats. Every statement
 is about Step and the fields before and after; thresholds are written out in the number of nodes.
 */
module Answers {
  import opened Types
  import opened Replica
  import opened ReplicaInvariants
  import opened NodeRuns

  ghost predicate Ignores(s: NodeState, o: Outcome) {
    o == Outcome(s, {}, None, None, None)
  }

  // The slots of these logs differ at this number only.
  ghost predicate OnlyAt(k: SlotId, log: map<SlotId, Slot>, next: map<SlotId, Slot>) {
    k in next && forall n :: n != k ==> (n in log <==> n in next) && (n in log ==> next[n] == log[n])
  }

  // The slot order and the leaders

  /** Slots are totally ordered, first by view and then by sequence number. */
  lemma SlotOrder(a: SlotId, b: SlotId)
    ensures a.Before(b) || a == b || b.Before(a)
    ensures a.view < b.view ==> a.Before(b)
    ensures a.view == b.view && a.seqNo < b.seqNo ==> a.Before(b)
    ensures a.Before(b) ==> a != b && !b.Before(a)
    ensures a.BeforeOrEqual(b) <==> a == b || a.Before(b)
  {
  }

  /** A view's leader is the node its hash points to, and depends on the view's low 32 bits only. */
  lemma LeaderIsHashed(cfg: Config, view: int, i: nat)
    requires i < |cfg.nodes|
    ensures cfg.hash32(view % 0x1_0000_0000) % |cfg.nodes| == i ==> cfg.LeaderFor(view) == cfg.nodes[i]
    ensures cfg.LeaderFor(view + 0x1_0000_0000) == cfg.LeaderFor(view)
  {
    assert (view + 0x1_0000_0000) % 0x1_0000_0000 == view % 0x1_0000_0000;
  }

  // Client requests

  // A node answers a request by numbering it as the leader, or else by forwarding it to its peers.
  ghost predicate Answers(cfg: Config, id: NodeId, s: NodeState, r: string, o: Outcome)
    requires |cfg.nodes| >= 1
  {
    if cfg.LeaderFor(s.view) == id then
      exists full ::
        && o.sent == {MPrePrepare(full)} && full.request == r && full.Digest() == cfg.digest(r)
        && full.Number() == SlotId(s.view, s.issued + 1) && full.signed.signature == By(id)
        && o.state.issued == s.issued + 1 && OnlyAt(full.Number(), s.log, o.state.log)
        && o.state.log[full.Number()] ==
             Slot(Some(r), full.Digest(), Some(full.signed), map[], map[], false, false)
    else o.sent == {MClientRequest(r)} && o.state == s.(requests := o.state.requests)
  }

  lemma RequestAnswer(cfg: Config, id: NodeId, s: NodeState, input: Input, choice: Choice)
    requires cfg.Valid() && ChoiceOk(cfg, id, s, input, choice) && RequestIn(input).Some?
    ensures var r, o := RequestIn(input).value, Step(cfg, id, s, input, choice);
      if s.change.inProgress || cfg.digest(r) in s.requests then Ignores(s, o)
      else Answers(cfg, id, s, r, o) && o.state.requests == s.requests + {cfg.digest(r)}
  {
    var r, o := RequestIn(input).value, Step(cfg, id, s, input, choice);
    if !s.change.inProgress && cfg.digest(r) !in s.requests && cfg.LeaderFor(s.view) == id {
      var full := NextFull(cfg, id, s, r);
      UpdateIsOnlyAt(full.Number(), s.log, IssuedSlot(full));
      assert o.sent == {MPrePrepare(full)};
    }
  }

  // Nothing but a request adds to the requests seen.
  lemma OnlyRequestsAreSeen(cfg: Config, id: NodeId, s: NodeState, input: Input, choice: Choice)
    requires cfg.Valid() && ChoiceOk(cfg, id, s, input, choice) && RequestIn(input).None?
    ensures Step(cfg, id, s, input, choice).state.requests == s.requests
  {
    hide HandlePrePrepare, HandlePrepare, HandleCommit, AddCheckpoint, Checkpointed, HandleViewChange, HandleNewView,
         StartViewChange, SendHeartbeat, IsMerge;
    match input
    case Receive(msg) => MessageSeesNothing(cfg, id, s, msg, choice);
    case SnapshotReply(number, state) =>
      AddCheckpointFrame(cfg, s, SignedCheckpoint(Checkpoint(number, state, id), By(id)));
    case RequestTimeout => StartFrame(cfg, id, s, s.view + 1);
    case HeartbeatTimeout => StartFrame(cfg, id, s, s.view + 1);
    case _ =>
  }

  lemma MessageSeesNothing(cfg: Config, id: NodeId, s: NodeState, msg: Msg, choice: Choice)
    requires cfg.Valid() && ChoiceOk(cfg, id, s, Receive(msg), choice) && !msg.MClientRequest?
    ensures HandleMessage(cfg, id, s, msg, choice).state.requests == s.requests
  {
    hide HandlePrePrepare, HandlePrepare, HandleCommit, AddCheckpoint, Checkpointed, HandleViewChange, HandleNewView,
         IsMerge;
    match msg
    case MPrePrepare(full) => PrePrepareFrame(cfg, id, s, full);
    case MPrepare(p) => PrepareShape(cfg, id, s, p);
    case MCommit(c) => CommitShape(cfg, id, s, c);
    case MCheckpoint(c) => AddCheckpointFrame(cfg, s, c);
    case MCheckpointProof(p) => CheckpointedFrame(s, p.message.proof);
    case MViewChange(m) => ViewChangeFrame(cfg, id, s, m, choice.merge);
    case MNewView(m) => NewViewFrame(cfg, id, s, m, choice.order);
  }

  // What the handlers leave alone

  lemma PrePrepareFrame(cfg: Config, id: NodeId, s: NodeState, full: FullPrePrepare)
    requires cfg.Valid()
    ensures var o := HandlePrePrepare(cfg, id, s, full);
      && o.state == s.(log := o.state.log, issued := o.state.issued)
      && o == Send(o.state, o.sent) && forall m :: m in o.sent ==> m.MPrepare?
  {
    hide Accepts;
  }

  lemma CheckpointedFrame(s: NodeState, c: CheckpointProof)
    ensures var t := Checkpointed(s, c).state;
      t == s.(log := t.log, pending := t.pending, lastCheckpoint := t.lastCheckpoint,
              sequenceNumber := t.sequenceNumber)
  {
    hide Flushed;
  }

  lemma AddCheckpointFrame(cfg: Config, s: NodeState, c: SignedCheckpoint)
    ensures var t := AddCheckpoint(cfg, s, c).state;
      t == s.(log := t.log, pending := t.pending, lastCheckpoint := t.lastCheckpoint,
              sequenceNumber := t.sequenceNumber)
  {
    hide Checkpointed, IsStable;
    var s1 := Endorse(s, c);
    CheckpointedFrame(s1, s1.pending[c.message.number]);
  }

  lemma StartFrame(cfg: Config, id: NodeId, s: NodeState, view: int)
    ensures var o := StartViewChange(cfg, id, s, view);
      o == Send(s.(change := o.state.change), o.sent) && forall m :: m in o.sent ==> m.MViewChange?
  {
    hide ViewChangeFor;
  }

  lemma ViewChangeFrame(cfg: Config, id: NodeId, s: NodeState, m: SignedViewChange, merge: Merge)
    requires cfg.Valid()
    ensures var o := HandleViewChange(cfg, id, s, m, merge);
      && o == Send(o.state, o.sent) && o.state.requests == s.requests
      && o.state.lastCheckpoint == s.lastCheckpoint && o.state.pending == s.pending && o.state.down == s.down
  {
    hide NewViewPrePrepares, ViewChangeFor, Elected, Joins;
  }

  lemma NewViewFrame(cfg: Config, id: NodeId, s: NodeState, m: SignedNewView, order: seq<SlotId>)
    requires cfg.Valid() && forall k :: k in order ==> k in m.message.prePrepares
    ensures var o := HandleNewView(cfg, id, s, m, order);
      && o == Send(o.state, o.sent) && o.state.requests == s.requests
      && o.state.lastCheckpoint == s.lastCheckpoint && o.state.pending == s.pending && o.state.down == s.down
      && o.state.newView == s.newView && o.state.caughtUp == s.caughtUp
  {
    hide AcceptAll;
    if EntersByNewView(s, m) {
      AcceptAllFrame(cfg, id, EnterNewView(s, m.message.view), m.message.prePrepares, order);
    }
  }

  // In step i of a run, the request with this digest is answered.
  ghost predicate AnsweredIn(
    cfg: Config, id: NodeId, states: seq<NodeState>, stimuli: seq<Stimulus>, i: nat, digest: Digest)
    requires |cfg.nodes| >= 1 && Run(cfg, id, states, stimuli) && i < |stimuli|
  {
    var input := stimuli[i].input;
    && RequestIn(input).Some? && cfg.digest(RequestIn(input).value) == digest
    && Answers(cfg, id, states[i], RequestIn(input).value, Step(cfg, id, states[i], input, stimuli[i].choice))
  }

  /** Every request a node has seen it has answered, as the leader by numbering it, else by forwarding it. */
  lemma {:induction false} SeenWasAnswered(
    cfg: Config, id: NodeId, states: seq<NodeState>, stimuli: seq<Stimulus>, j: nat, digest: Digest) returns (i: nat)
    requires cfg.Valid() && Run(cfg, id, states, stimuli) && j < |states| && digest in states[j].requests
    ensures i < j && AnsweredIn(cfg, id, states, stimuli, i, digest)
  {
    hide Step, ChoiceOk, Answers;
    assert j > 0;
    i := j - 1;
    if digest in states[i].requests {
      i := SeenWasAnswered(cfg, id, states, stimuli, i, digest);
    } else {
      var input := stimuli[i].input;
      if RequestIn(input).None? {
        OnlyRequestsAreSeen(cfg, id, states[i], input, stimuli[i].choice);
      } else {
        RequestAnswer(cfg, id, states[i], input, stimuli[i].choice);
      }
    }
  }

  /** Once a request is answered, the node does nothing at all about it when it comes again. */
  lemma AnsweredOnce(
    cfg: Config, id: NodeId, states: seq<NodeState>, stimuli: seq<Stimulus>, i: nat, j: nat, digest: Digest)
    requires cfg.Valid() && Run(cfg, id, states, stimuli) && i < j < |stimuli|
    requires AnsweredIn(cfg, id, states, stimuli, i, digest)
    requires RequestIn(stimuli[j].input).Some? && cfg.digest(RequestIn(stimuli[j].input).value) == digest
    ensures Ignores(states[j], Step(cfg, id, states[j], stimuli[j].input, stimuli[j].choice))
  {
    RequestAnswer(cfg, id, states[i], stimuli[i].input, stimuli[i].choice);
    AnswersSomething(cfg, id, states[i], RequestIn(stimuli[i].input).value,
      Step(cfg, id, states[i], stimuli[i].input, stimuli[i].choice));
    hide Step, ChoiceOk, Answers;
    RunMonotone(cfg, id, states, stimuli, i + 1, j);
    RequestAnswer(cfg, id, states[j], stimuli[j].input, stimuli[j].choice);
  }

  lemma AnswersSomething(cfg: Config, id: NodeId, s: NodeState, r: string, o: Outcome)
    requires |cfg.nodes| >= 1 && Answers(cfg, id, s, r, o)
    ensures o.sent != {}
  {
  }

  // Forged messages

  // The signature on a message that names its sender, and that sender.
  function Claim(msg: Msg): Option<(Signature, NodeId)> {
    match msg
    case MPrepare(p) => Some((p.signature, p.message.node))
    case MCommit(c) => Some((c.signature, c.message.node))
    case MCheckpoint(c) => Some((c.signature, c.message.node))
    case MCheckpointProof(p) => Some((p.signature, p.message.node))
    case MViewChange(m) => Some((m.signature, m.message.node))
    case _ => None
  }

  predicate Authentic(cfg: Config, id: NodeId, signature: Signature, node: NodeId) {
    signature == By(node) && node in cfg.nodes && node != id
  }

  /** A message that names its sender and was not signed by it, or comes from no peer, changes nothing. */
  lemma ForgeriesAreIgnored(cfg: Config, id: NodeId, s: NodeState, msg: Msg, choice: Choice)
    requires cfg.Valid() && ChoiceOk(cfg, id, s, Receive(msg), choice)
    requires Claim(msg).Some? && !Authentic(cfg, id, Claim(msg).value.0, Claim(msg).value.1)
    ensures Ignores(s, Step(cfg, id, s, Receive(msg), choice))
  {
    hide AddCheckpoint, Checkpointed, IsMerge, BecomeLeader, StartViewChange;
  }

  // Pre-prepares

  // From the leader of the node's view, which is another node, with the request's digest, inside the window of 300
  // above the checkpoint, and the first for its slot.
  ghost predicate Acceptable(cfg: Config, id: NodeId, s: NodeState, full: FullPrePrepare)
    requires |cfg.nodes| >= 1
  {
    var k, low := full.Number(), s.lastCheckpoint.number.seqNo;
    && !s.change.inProgress && k.view == s.view && cfg.LeaderFor(s.view) != id
    && full.signed.signature == By(cfg.LeaderFor(s.view)) && full.Digest() == cfg.digest(full.request)
    && low < k.seqNo <= low + 300 && full.signed.message != PrePrepare(SlotId(0, 0), 0)
    && (k !in s.log || s.log[k].request.None?)
  }

  // The slot takes the pre-prepare over, keeps the votes it has, and gets the node's own prepare, which is sent.
  ghost predicate AcceptsIt(id: NodeId, s: NodeState, o: Outcome, full: FullPrePrepare) {
    var k, was := full.Number(), Was(s.log, full.Number());
    var own := SignedPrepare(Prepare(k, full.Digest(), id), By(id));
    && OnlyAt(k, s.log, o.state.log)
    && o.state.log[k] == was.(request := Some(full.request), digest := full.Digest(),
                              preprepare := Some(full.signed), prepares := was.prepares[id := own])
    && o == Send(s.(log := o.state.log, issued := if k.seqNo > s.issued then k.seqNo else s.issued), {MPrepare(own)})
  }

  /** A pre-prepare is answered by a prepare iff it is acceptable, and otherwise changes nothing. */
  lemma PrePrepareAnswer(cfg: Config, id: NodeId, s: NodeState, full: FullPrePrepare, choice: Choice)
    requires cfg.Valid() && ChoiceOk(cfg, id, s, Receive(MPrePrepare(full)), choice)
    ensures var o := Step(cfg, id, s, Receive(MPrePrepare(full)), choice);
      if Acceptable(cfg, id, s, full) then AcceptsIt(id, s, o, full) else Ignores(s, o)
  {
    AcceptableIff(cfg, id, s, full);
    hide Accepts, Acceptable;
    UpdateIsOnlyAt(full.Number(), s.log, AcceptInto(id, SlotAt(s.log, full.Number()), full));
  }

  lemma AcceptableIff(cfg: Config, id: NodeId, s: NodeState, full: FullPrePrepare)
    requires cfg.Valid()
    ensures Accepts(cfg, id, s, full) <==> Acceptable(cfg, id, s, full)
  {
    hide Config.LeaderFor;
  }

  // A prepare, on whatever input: for the node's own view, which it does not lead, inside the window.
  ghost predicate InWindow(cfg: Config, id: NodeId, t: NodeState, p: Prepare)
    requires |cfg.nodes| >= 1
  {
    && p.node == id && !t.change.inProgress && p.number.view == t.view && cfg.LeaderFor(t.view) != id
    && t.lastCheckpoint.number.seqNo < p.number.seqNo <= t.lastCheckpoint.number.seqNo + 300
  }

  lemma {:induction false} AcceptAllInWindow(
    cfg: Config, id: NodeId, s: NodeState, pps: map<SlotId, FullPrePrepare>, order: seq<SlotId>, p: SignedPrepare)
    requires cfg.Valid() && forall k :: k in order ==> k in pps
    requires MPrepare(p) in AcceptAll(cfg, id, s, pps, order).sent
    ensures InWindow(cfg, id, AcceptAll(cfg, id, s, pps, order).state, p.message)
  {
    var front := order[..|order| - 1];
    var before, full := AcceptAll(cfg, id, s, pps, front), pps[order[|order| - 1]];
    PrePrepareFrame(cfg, id, before.state, full);
    if MPrepare(p) in before.sent {
      hide HandlePrePrepare;
      AcceptAllInWindow(cfg, id, s, pps, front, p);
    }
  }

  // Prepares and commits

  // What a slot holds, or an empty one in its place.
  function Was(log: map<SlotId, Slot>, k: SlotId): Slot {
    if k in log then log[k] else Slot(None, ZERO_DIGEST, None, map[], map[], false, false)
  }

  // The prepare is filed under its sender; with 2f prepares and a pre-prepare the node commits what it says.
  ghost predicate Prepares(cfg: Config, id: NodeId, was: Slot, now: Slot, p: SignedPrepare, sent: set<Msg>) {
    && now.prepares == was.prepares[p.message.node := p]
    && now.request == was.request && now.digest == was.digest && now.preprepare == was.preprepare
    && now.committed == was.committed
    && if was.preprepare.Some? && |now.prepares| >= 2 * ((|cfg.nodes| - 1) / 3) then
         var own := SignedCommit(Commit(p.message.number, p.message.digest, id), By(id));
         sent == {MCommit(own)} && now.commits == was.commits[id := own] && now.prepared
       else sent == {} && now.commits == was.commits && now.prepared == was.prepared
  }

  /** Every authentic prepare is filed, and each one that finds 2f of them makes the node commit. */
  lemma PrepareAnswer(cfg: Config, id: NodeId, s: NodeState, p: SignedPrepare, choice: Choice)
    requires cfg.Valid() && ChoiceOk(cfg, id, s, Receive(MPrepare(p)), choice)
    requires !s.change.inProgress && Authentic(cfg, id, p.signature, p.message.node)
    ensures var k, o := p.message.number, Step(cfg, id, s, Receive(MPrepare(p)), choice);
      && OnlyAt(k, s.log, o.state.log) && o == Send(s.(log := o.state.log), o.sent)
      && Prepares(cfg, id, Was(s.log, k), o.state.log[k], p, o.sent)
  {
    hide HandlePrepare, PrepareInto, Prepares, IsPrepared, Was, Authentic, OnlyAt;
    var k, was := p.message.number, Was(s.log, p.message.number);
    var slot, commit := PrepareInto(was, p), CommitFor(id, p.message);
    PrepareFiled(cfg, id, s, p, slot);
    PrepareCounts(cfg, id, was, p);
    UpdateIsOnlyAt(k, s.log, slot);
    UpdateIsOnlyAt(k, s.log, slot.(prepared := true, commits := slot.commits[id := commit]));
  }

  lemma UpdateIsOnlyAt(k: SlotId, log: map<SlotId, Slot>, slot: Slot)
    ensures OnlyAt(k, log, log[k := slot]) && k in log[k := slot] && log[k := slot][k] == slot
  {
  }

  lemma PrepareFiled(cfg: Config, id: NodeId, s: NodeState, p: SignedPrepare, slot: Slot)
    requires !s.change.inProgress && Authentic(cfg, id, p.signature, p.message.node)
    requires slot == PrepareInto(Was(s.log, p.message.number), p)
    ensures var k, commit := p.message.number, CommitFor(id, p.message);
      HandlePrepare(cfg, id, s, p) ==
        if IsPrepared(cfg, slot) then
          Send(s.(log := s.log[k := slot.(prepared := true, commits := slot.commits[id := commit])]), {MCommit(commit)})
        else Quiet(s.(log := s.log[k := slot]))
  {
    assert Was(s.log, p.message.number) == SlotAt(s.log, p.message.number);
    hide IsPrepared, SlotAt, PrepareInto, Was;
  }

  lemma PrepareCounts(cfg: Config, id: NodeId, was: Slot, p: SignedPrepare)
    ensures var slot, commit := PrepareInto(was, p), CommitFor(id, p.message);
      if IsPrepared(cfg, slot) then
        Prepares(cfg, id, was, slot.(prepared := true, commits := slot.commits[id := commit]), p, {MCommit(commit)})
      else Prepares(cfg, id, was, slot, p, {})
  {
  }

  // The commit is filed under its sender; the first to find 2f of them delivers the slot's request.
  ghost predicate Commits(
    cfg: Config, was: Slot, now: Slot, c: SignedCommit, delivered: Option<Delivery>)
  {
    var first := !was.committed && |now.commits| >= 2 * ((|cfg.nodes| - 1) / 3);
    && now == was.(commits := was.commits[c.message.node := c], committed := was.committed || first)
    && delivered == if first then Some(Delivery(c.message.number, was.request)) else None
  }

  /** Every authentic commit the checkpoint has not passed is filed, and delivers iff it is the first to find 2f. */
  lemma CommitAnswer(cfg: Config, id: NodeId, s: NodeState, c: SignedCommit, choice: Choice)
    requires cfg.Valid() && ChoiceOk(cfg, id, s, Receive(MCommit(c)), choice)
    requires !s.change.inProgress && Authentic(cfg, id, c.signature, c.message.node)
    ensures var k, o := c.message.number, Step(cfg, id, s, Receive(MCommit(c)), choice);
      if k.Before(s.lastCheckpoint.number) then Ignores(s, o)
      else
        && OnlyAt(k, s.log, o.state.log) && o.sent == {}
        && o.state == s.(log := o.state.log, sequenceNumber := o.state.sequenceNumber)
        && Commits(cfg, Was(s.log, k), o.state.log[k], c, o.delivered)
  {
    hide HandleCommit, CommitInto, Commits, IsCommitted, Was, Authentic, OnlyAt;
    var k, was := c.message.number, Was(s.log, c.message.number);
    var slot := CommitInto(was, c);
    CommitFiled(cfg, id, s, c, slot);
    CommitCounts(cfg, was, c);
    UpdateIsOnlyAt(k, s.log, slot);
    UpdateIsOnlyAt(k, s.log, slot.(committed := true));
  }

  lemma CommitFiled(cfg: Config, id: NodeId, s: NodeState, c: SignedCommit, slot: Slot)
    requires !s.change.inProgress && Authentic(cfg, id, c.signature, c.message.node)
    requires slot == CommitInto(Was(s.log, c.message.number), c)
    ensures var k, o := c.message.number, HandleCommit(cfg, id, s, c);
      if k.Before(s.lastCheckpoint.number) then o == Quiet(s)
      else
        && o.sent == {} && slot.request == Was(s.log, k).request
        && o.state == s.(log := o.state.log, sequenceNumber := o.state.sequenceNumber)
        && if !slot.committed && IsCommitted(cfg, slot) then
             o.state.log == s.log[k := slot.(committed := true)] && o.delivered == Some(Delivery(k, slot.request))
           else o.state.log == s.log[k := slot] && o.delivered == None
  {
    assert Was(s.log, c.message.number) == SlotAt(s.log, c.message.number);
    hide IsCommitted, SlotAt, Was;
  }

  lemma CommitCounts(cfg: Config, was: Slot, c: SignedCommit)
    ensures var slot := CommitInto(was, c);
      if !slot.committed && IsCommitted(cfg, slot) then
        Commits(cfg, was, slot.(committed := true), c, Some(Delivery(c.message.number, slot.request)))
      else Commits(cfg, was, slot, c, None)
  {
  }

  // Heartbeats

  // What a leader sends a peer that has reported this number: the new view, a sign of life, the checkpoint, or the
  // pre-prepare after that number.
  ghost predicate Serves(cfg: Config, id: NodeId, s: NodeState, reached: int, m: Msg) {
    if reached == 0 then
      m == MNewView(SignedNewView(
        if s.newView.Some? then NewView(s.newView.value.view, s.change.messages, s.newView.value.prePrepares, id)
        else NewView(0, map[], map[], id), By(id)))
    else if reached == s.sequenceNumber then
      m == MPrePrepare(FullPrePrepare(SignedPrePrepare(PrePrepare(SlotId(0, 0), 0), By(id)), ""))
    else if reached < s.lastCheckpoint.number.seqNo then
      m == MCheckpointProof(SignedCheckpointProof(CheckpointProofMessage(s.lastCheckpoint, id), By(id)))
    else
      var slot := Was(s.log, SlotId(s.view, reached + 1));
      && slot.preprepare.Some? && slot.request.Some?
      && m == MPrePrepare(FullPrePrepare(slot.preprepare.value, slot.request.value))
  }

  function Reached(s: NodeState, p: NodeId): int { if p in s.caughtUp then s.caughtUp[p] else 0 }

  lemma HeartbeatServes(cfg: Config, id: NodeId, s: NodeState, p: NodeId, m: Msg)
    ensures Serves(cfg, id, s, Reached(s, p), m) <==> HeartbeatFor(cfg, id, s, p) == Some(m)
  {
  }

  /** A leader's timer sends exactly what serves its peers, by what each has reported, and changes nothing. */
  lemma HeartbeatAnswer(cfg: Config, id: NodeId, s: NodeState, choice: Choice, m: Msg)
    requires cfg.Valid() && ChoiceOk(cfg, id, s, HeartbeatTimeout, choice)
    requires !s.change.inProgress && !s.down && cfg.LeaderFor(s.view) == id
    ensures var o := Step(cfg, id, s, HeartbeatTimeout, choice);
      && Ignores(s, o.(sent := {}))
      && (m in o.sent <==> exists p :: p in cfg.nodes && p != id && Serves(cfg, id, s, Reached(s, p), m))
  {
    forall p
      ensures Serves(cfg, id, s, Reached(s, p), m) <==> HeartbeatFor(cfg, id, s, p) == Some(m)
    {
      HeartbeatServes(cfg, id, s, p, m);
    }
    hide Serves, HeartbeatFor, Reached;
    SentIff(cfg, id, s, m);
    hide SendHeartbeat;
  }

  lemma SentIff(cfg: Config, id: NodeId, s: NodeState, m: Msg)
    ensures m in SendHeartbeat(cfg, id, s) <==>
      exists p :: p in cfg.nodes && p != id && HeartbeatFor(cfg, id, s, p) == Some(m)
  {
    hide HeartbeatFor;
    if p :| p in cfg.nodes && p != id && HeartbeatFor(cfg, id, s, p) == Some(m) {
      assert cfg.IsPeer(id, p);
    }
  }

  /** The timer does nothing while a view change is under way, or when the node is down. */
  lemma TimerRests(cfg: Config, id: NodeId, s: NodeState, choice: Choice)
    requires cfg.Valid() && ChoiceOk(cfg, id, s, HeartbeatTimeout, choice) && (s.change.inProgress || s.down)
    ensures Ignores(s, Step(cfg, id, s, HeartbeatTimeout, choice))
  {
    hide SendHeartbeat, StartViewChange;
  }

  /** A peer's reply is remembered for that peer and for no other. */
  lemma ReplyAnswer(cfg: Config, id: NodeId, s: NodeState, peer: NodeId, reached: int, choice: Choice, p: NodeId)
    requires cfg.Valid() && ChoiceOk(cfg, id, s, HeartbeatReply(peer, reached), choice)
    requires peer in cfg.nodes && peer != id
    ensures var o := Step(cfg, id, s, HeartbeatReply(peer, reached), choice);
      && Reached(o.state, p) == (if p == peer then reached else Reached(s, p))
      && Ignores(s.(caughtUp := o.state.caughtUp), o)
  {
  }
}
