/** Where messages come from: every message in the network was sent in some earlier step, by the node it names. */
module Histories {
  import opened Types
  import opened Quorums
  import opened Replica
  import opened ReplicaInvariants
  import opened NodeRuns
  import opened Answers
  import opened EntryAnswers
  import opened Cluster
  import opened ClusterInvariants
  import opened Agreement

  // The step at which a message first appears.
  lemma {:induction false} SentAt(cfg: Config, states: seq<System>, events: seq<Event>, i: nat, m: Msg)
    returns (t: nat)
    requires cfg.Valid() && Execution(cfg, states, events) && i < |states| && m in states[i].sent
    ensures t < i && Enabled(cfg, states[t], events[t]) && states[t + 1] == Next(cfg, states[t], events[t])
    ensures m !in states[t].sent && m in states[t + 1].sent
    ensures !m.MPrePrepare? ==> m in Perform(cfg, states[t], events[t]).sent
  {
    hide Step, ChoiceOk;
    assert i > 0;
    t := i - 1;
    if m in states[t].sent {
      t := SentAt(cfg, states, events, t, m);
    }
  }

  // Pre-prepares and new views

  ghost predicate IssuesIn(cfg: Config, states: seq<System>, events: seq<Event>, t: nat, full: FullPrePrepare)
    requires |cfg.nodes| >= 1 && t < |events| < |states|
  {
    var e := events[t];
    && e.node == cfg.LeaderFor(full.Number().view) && e.node in states[t].nodes
    && IssuedBy(cfg, e.node, states[t].nodes[e.node], e.input, e.choice.merge, full)
  }

  /** Every pre-prepare in the network was issued by the leader of its view, for a request or when it entered. */
  lemma WasIssued(cfg: Config, states: seq<System>, events: seq<Event>, i: nat, full: FullPrePrepare)
    returns (t: nat)
    requires cfg.Valid() && Execution(cfg, states, events) && i < |states| && Issued(states[i].sent, full)
    ensures t < i && IssuesIn(cfg, states, events, t, full)
  {
    t := SentAt(cfg, states, events, i, MPrePrepare(full));
    ReachableOk(cfg, states, events, t);
    assert events[t].node in states[t].nodes;
    hide Execution, SystemOk, Enabled, Next, IssuedBy;
    NewIsIssued(cfg, states[t], events[t]);
  }

  // In step t the leader of this view enters it, with votes for it from enough of its peers, and builds this set O.
  ghost predicate EntersIn(
    cfg: Config, states: seq<System>, events: seq<Event>, t: nat, view: int, prePrepares: map<SlotId, FullPrePrepare>)
    requires |cfg.nodes| >= 1 && t < |events| < |states|
  {
    var id, sys := events[t].node, states[t];
    && id == cfg.LeaderFor(view) && id in sys.nodes
    && EntersAsLeader(cfg, id, sys.nodes[id], events[t].input)
    && events[t].input.msg.viewChange.message.view == view
    && prePrepares == NewViewPrePrepares(cfg, id, view, events[t].choice.merge)
    && var messages := Record(sys.nodes[id], events[t].input.msg.viewChange).change.messages;
       && |Voters(messages, view)| >= cfg.NewViewQuorum() && Voters(messages, view) != {}
       && Voters(messages, view) <= Peers(cfg, id)
       && forall j :: j in Voters(messages, view) ==>
            MViewChange(messages[j]) in sys.sent && messages[j].signature == By(j) && messages[j].message.view == view
  }

  lemma VoteSigned(cfg: Config, sent: set<Msg>, vc: SignedViewChange)
    requires |cfg.nodes| >= 1 && MessagesOk(cfg, sent) && MViewChange(vc) in sent
    ensures vc.signature == By(vc.message.node) && vc.message.node in cfg.nodes
  {
    assert MsgOk(cfg, sent, MViewChange(vc));
  }

  lemma EntryIsBacked(cfg: Config, sys: System, e: Event)
    requires cfg.Valid() && SystemOk(cfg, sys) && Enabled(cfg, sys, e)
    requires EntersAsLeader(cfg, e.node, sys.nodes[e.node], e.input)
    ensures var id, m := e.node, e.input.msg.viewChange;
      var messages, view := Record(sys.nodes[id], m).change.messages, m.message.view;
      && |Voters(messages, view)| >= cfg.NewViewQuorum() && Voters(messages, view) != {}
      && Voters(messages, view) <= Peers(cfg, id)
      && forall j :: j in Voters(messages, view) ==>
           MViewChange(messages[j]) in sys.sent && messages[j].signature == By(j) && messages[j].message.view == view
  {
    var id, s, m := e.node, sys.nodes[e.node], e.input.msg.viewChange;
    assert Ready(cfg, id, sys.sent, s);
    RecordKept(cfg, id, sys.sent, s, m);
    var messages := Record(s, m).change.messages;
    assert messages[m.message.node] == m && m.message.node in Voters(messages, m.message.view);
    assert CollectedOk(id, sys.sent, messages) && Filed(messages) && MessagesOk(cfg, sys.sent);
    hide SystemOk, Ready, MessagesOk, Enabled;
    forall j | j in messages
      ensures messages[j].signature == By(j) && j in Peers(cfg, id)
    {
      VoteSigned(cfg, sys.sent, messages[j]);
    }
  }

  /** Every new view, first sent or resent, goes back to its leader's entry into the view, and carries its set O. */
  lemma {:induction false} NewViewBacked(
    cfg: Config, states: seq<System>, events: seq<Event>, i: nat, nv: SignedNewView) returns (t: nat)
    requires cfg.Valid() && Execution(cfg, states, events) && i < |states| && MNewView(nv) in states[i].sent
    ensures nv.message.node == cfg.LeaderFor(nv.message.view) && nv.signature == By(nv.message.node)
    ensures t < i && EntersIn(cfg, states, events, t, nv.message.view, nv.message.prePrepares)
    decreases i
  {
    ReachableOk(cfg, states, events, i);
    NewViewSigned(cfg, states[i], nv);
    t := SentAt(cfg, states, events, i, MNewView(nv));
    ReachableOk(cfg, states, events, t);
    var e := events[t];
    assert Ready(cfg, e.node, states[t].sent, states[t].nodes[e.node]);
    hide Execution, SystemOk, Ready, Step, ChoiceOk, IssuedBy, After, EntersIn;
    StepIssues(cfg, e.node, states[t].sent, states[t].nodes[e.node], e.input, e.choice);
    if Resends(states[t].sent, nv) {
      var first :| MNewView(first) in states[t].sent && first.message.node == nv.message.node &&
        first.message.view == nv.message.view && first.message.prePrepares == nv.message.prePrepares;
      t := NewViewBacked(cfg, states, events, t, first);
    } else {
      BuiltIsEntry(cfg, states, events, t, nv);
    }
  }

  lemma BuiltIsEntry(cfg: Config, states: seq<System>, events: seq<Event>, t: nat, nv: SignedNewView)
    requires cfg.Valid() && t < |events| < |states| && SystemOk(cfg, states[t]) && Enabled(cfg, states[t], events[t])
    requires var e := events[t]; BuiltBy(cfg, e.node, states[t].nodes[e.node], e.input, e.choice.merge, nv)
    ensures EntersIn(cfg, states, events, t, nv.message.view, nv.message.prePrepares)
  {
    hide SystemOk, ChoiceOk, NewViewPrePrepares, Joins, Voters;
    EntryIsBacked(cfg, states[t], events[t]);
  }

  lemma NewViewSigned(cfg: Config, sys: System, nv: SignedNewView)
    requires cfg.Valid() && SystemOk(cfg, sys) && MNewView(nv) in sys.sent
    ensures nv.message.node == cfg.LeaderFor(nv.message.view) && nv.signature == By(nv.message.node)
  {
    var id := cfg.nodes[0];
    assert Ready(cfg, id, sys.sent, sys.nodes[id]);
    assert MsgOk(cfg, sys.sent, MNewView(nv));
  }

  // Prepares: whoever sent one had accepted the pre-prepare it is for

  ghost predicate HoldsDigest(s: NodeState, k: SlotId, digest: Digest) {
    k in s.log && s.log[k].request.Some? && s.log[k].digest == digest
  }

  // In step t the sender of this prepare accepts the pre-prepare for its slot, with its digest, as a backup of the view
  // it is in then and inside its window.
  ghost predicate AcceptsIn(cfg: Config, states: seq<System>, events: seq<Event>, t: nat, p: Prepare)
    requires |cfg.nodes| >= 1 && t < |events| && t + 1 < |states|
  {
    && events[t].node == p.node && p.node in states[t].nodes && p.node in states[t + 1].nodes
    && !HoldsDigest(states[t].nodes[p.node], p.number, p.digest)
    && HoldsDigest(states[t + 1].nodes[p.node], p.number, p.digest)
    && InWindow(cfg, p.node, states[t + 1].nodes[p.node], p)
  }

  // What handling one pre-prepare, or all of a new view's, says about the prepares that go out.
  ghost predicate PreparesAccepted(id: NodeId, s: NodeState, o: Outcome) {
    && (forall k, d :: HoldsDigest(s, k, d) ==> HoldsDigest(o.state, k, d))
    && (forall k :: k in s.log && s.log[k].request.Some? ==> k in o.state.log && o.state.log[k].request.Some?)
    && forall m :: m in o.sent && m.MPrepare? ==>
         var p := m.prepare.message;
         p.node == id && HoldsDigest(o.state, p.number, p.digest) && SlotAt(s.log, p.number).request.None?
  }

  lemma PrePrepareAccepts(cfg: Config, id: NodeId, s: NodeState, full: FullPrePrepare)
    requires |cfg.nodes| >= 1
    ensures PreparesAccepted(id, s, HandlePrePrepare(cfg, id, s, full))
  {
  }

  lemma {:induction false} AllAccept(
    cfg: Config, id: NodeId, s: NodeState, pps: map<SlotId, FullPrePrepare>, order: seq<SlotId>)
    requires |cfg.nodes| >= 1
    requires forall k :: k in order ==> k in pps
    ensures PreparesAccepted(id, s, AcceptAll(cfg, id, s, pps, order))
  {
    if order != [] {
      var front, full := order[..|order| - 1], pps[order[|order| - 1]];
      AllAccept(cfg, id, s, pps, front);
      PrePrepareAccepts(cfg, id, AcceptAll(cfg, id, s, pps, front).state, full);
      hide HandlePrePrepare;
    }
  }

  predicate NoPrepares(out: set<Msg>) { forall m :: m in out ==> !m.MPrepare? }

  lemma RequestPreparesNothing(cfg: Config, id: NodeId, s: NodeState, r: string)
    requires cfg.Valid()
    ensures NoPrepares(HandleClientRequest(cfg, id, s, r).sent)
  {
  }

  lemma PreparePreparesNothing(cfg: Config, id: NodeId, s: NodeState, p: SignedPrepare)
    requires cfg.Valid()
    ensures NoPrepares(HandlePrepare(cfg, id, s, p).sent)
  {
  }

  lemma ViewChangePreparesNothing(cfg: Config, id: NodeId, s: NodeState, m: SignedViewChange, merge: Merge)
    requires cfg.Valid()
    ensures NoPrepares(HandleViewChange(cfg, id, s, m, merge).sent)
  {
    hide NewViewFor, ViewChangeFor, Elected, Joins;
  }

  lemma HeartbeatsPrepareNothing(cfg: Config, id: NodeId, s: NodeState)
    requires cfg.Valid()
    ensures NoPrepares(HandleHeartbeatTimeout(cfg, id, s).sent)
  {
    hide ViewChangeFor;
    forall m | m in SendHeartbeat(cfg, id, s)
      ensures !m.MPrepare?
    {
      var p :| p in cfg.nodes && cfg.IsPeer(id, p) && HeartbeatFor(cfg, id, s, p) == Some(m);
    }
  }

  lemma NewViewAccepts(
    cfg: Config, id: NodeId, s: NodeState, m: SignedNewView, order: seq<SlotId>)
    requires |cfg.nodes| >= 1 && forall k :: k in order ==> k in m.message.prePrepares
    ensures PreparesAccepted(id, s, HandleNewView(cfg, id, s, m, order))
  {
    hide AcceptAll;
    if EntersByNewView(s, m) {
      AllAccept(cfg, id, EnterNewView(s, m.message.view), m.message.prePrepares, order);
    }
  }

  lemma PreparesInWindow(cfg: Config, id: NodeId, s: NodeState, full: FullPrePrepare, p: SignedPrepare)
    requires cfg.Valid() && MPrepare(p) in HandlePrePrepare(cfg, id, s, full).sent
    ensures InWindow(cfg, id, HandlePrePrepare(cfg, id, s, full).state, p.message)
  {
  }

  lemma NewViewInWindow(
    cfg: Config, id: NodeId, s: NodeState, m: SignedNewView, order: seq<SlotId>, p: SignedPrepare)
    requires cfg.Valid() && forall k :: k in order ==> k in m.message.prePrepares
    requires MPrepare(p) in HandleNewView(cfg, id, s, m, order).sent
    ensures InWindow(cfg, id, HandleNewView(cfg, id, s, m, order).state, p.message)
  {
    hide AcceptAll, InWindow;
    AcceptAllInWindow(cfg, id, EnterNewView(s, m.message.view), m.message.prePrepares, order, p);
  }

  lemma MessageAccepts(cfg: Config, id: NodeId, s: NodeState, msg: Msg, choice: Choice, p: SignedPrepare)
    requires cfg.Valid() && ChoiceOk(cfg, id, s, Receive(msg), choice)
    requires MPrepare(p) in HandleMessage(cfg, id, s, msg, choice).sent
    ensures p.message.node == id && !HoldsDigest(s, p.message.number, p.message.digest)
    ensures HoldsDigest(HandleMessage(cfg, id, s, msg, choice).state, p.message.number, p.message.digest)
    ensures InWindow(cfg, id, HandleMessage(cfg, id, s, msg, choice).state, p.message)
  {
    hide HandleClientRequest, HandlePrePrepare, HandlePrepare, HandleCommit, HandleCheckpoint, HandleCheckpointProof,
         HandleViewChange, HandleNewView, IsMerge;
    match msg
    case MPrePrepare(full) =>
      PrePrepareAccepts(cfg, id, s, full);
      PreparesInWindow(cfg, id, s, full, p);
    case MNewView(m) =>
      NewViewAccepts(cfg, id, s, m, choice.order);
      NewViewInWindow(cfg, id, s, m, choice.order, p);
    case MClientRequest(r) => RequestPreparesNothing(cfg, id, s, r);
    case MPrepare(q) => PreparePreparesNothing(cfg, id, s, q);
    case MViewChange(m) => ViewChangePreparesNothing(cfg, id, s, m, choice.merge);
    case _ => NormalCaseSends(cfg, id, s);
  }

  lemma StepAccepts(cfg: Config, id: NodeId, s: NodeState, input: Input, choice: Choice, p: SignedPrepare)
    requires cfg.Valid() && ChoiceOk(cfg, id, s, input, choice) && MPrepare(p) in Step(cfg, id, s, input, choice).sent
    ensures p.message.node == id && !HoldsDigest(s, p.message.number, p.message.digest)
    ensures HoldsDigest(Step(cfg, id, s, input, choice).state, p.message.number, p.message.digest)
    ensures InWindow(cfg, id, Step(cfg, id, s, input, choice).state, p.message)
  {
    hide HandleMessage, HandleClientRequest, HandleHeartbeatTimeout, AddCheckpoint, ProofsSinceCheckpoint, HoldsDigest,
         InWindow;
    match input
    case Receive(msg) => MessageAccepts(cfg, id, s, msg, choice, p);
    case Propose(r) => RequestPreparesNothing(cfg, id, s, r);
    case HeartbeatTimeout => HeartbeatsPrepareNothing(cfg, id, s);
    case _ =>
  }

  /** Whoever sent a prepare had just accepted the slot's pre-prepare, with that digest. */
  lemma PrepareWasAccepted(cfg: Config, states: seq<System>, events: seq<Event>, i: nat, p: SignedPrepare)
    returns (t: nat)
    requires cfg.Valid() && Execution(cfg, states, events) && i < |states| && MPrepare(p) in states[i].sent
    ensures t < i && AcceptsIn(cfg, states, events, t, p.message)
  {
    t := SentAt(cfg, states, events, i, MPrepare(p));
    hide Execution, Step, ChoiceOk, HoldsDigest, InWindow;
    var e := events[t];
    StepAccepts(cfg, e.node, states[t].nodes[e.node], e.input, e.choice, p);
  }

  /** No node sends a prepare or a commit while it is changing view, but for the prepares with which it enters one. */
  lemma NoVotesWhileChanging(cfg: Config, states: seq<System>, events: seq<Event>, t: nat, m: Msg)
    requires cfg.Valid() && Execution(cfg, states, events) && t < |events|
    requires var s := states[t].nodes; events[t].node in s && s[events[t].node].change.inProgress
    requires Enabled(cfg, states[t], events[t]) && m in Perform(cfg, states[t], events[t]).sent
    ensures !m.MCommit?
    ensures m.MPrepare? ==>
      Enters(cfg, events[t].node, states[t].nodes[events[t].node], events[t].input).Some?
  {
    var e, s := events[t], states[t].nodes[events[t].node];
    ReachableOk(cfg, states, events, t);
    assert Ready(cfg, e.node, states[t].sent, s);
    hide Execution, SystemOk, Step, ChoiceOk, Enters, NodeOk, MessagesOk;
    ChangingSendsNoVotes(cfg, e.node, s, e.input, e.choice);
  }
}
