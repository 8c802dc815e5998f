/** How views advance across the cluster: none is skipped, and the highest rises by one at a time. */
module ViewResults {
  import opened Types
  import opened Replica
  import opened ReplicaInvariants
  import opened NodeRuns
  import opened Cluster
  import opened ClusterInvariants
  import opened Agreement
  import opened Histories

  // No view is skipped

  // Some leader has announced this view; NewViewBacked says when it entered it, and with whose votes.
  lemma {:induction false} BuiltDown(cfg: Config, sent: set<Msg>, low: int, high: int)
    requires |cfg.nodes| >= 1 && MessagesOk(cfg, sent) && 1 <= low <= high && Built(sent, high)
    ensures Built(sent, low)
    decreases high - low
  {
    if low < high {
      var nv :| MNewView(nv) in sent && nv.message.view == high;
      assert MsgOk(cfg, sent, MNewView(nv));
      BuiltDown(cfg, sent, low, high - 1);
    }
  }

  lemma ViewIsBuilt(cfg: Config, sys: System, id: NodeId, view: int, low: int)
    requires cfg.Valid() && SystemOk(cfg, sys) && id in sys.nodes && 1 <= low < view
    requires view == sys.nodes[id].view || view == sys.nodes[id].change.view
    ensures Built(sys.sent, low)
  {
    var s := sys.nodes[id];
    assert Ready(cfg, id, sys.sent, s);
    assert ViewsOk(sys.sent, s.view, s.change.view);
    hide SystemOk, Ready, MessagesOk;
    BuiltDown(cfg, sys.sent, low, if view == s.view then view else view - 1);
  }

  /**
   Before a node is in a view, or changing to one, the leader of every view from 1 to the one before has entered that
   view, in an earlier step and with enough of its peers' votes for it.
   */
  lemma NoViewIsSkipped(
    cfg: Config, states: seq<System>, events: seq<Event>, i: nat, id: NodeId, view: int, low: int)
    returns (t: nat, prePrepares: map<SlotId, FullPrePrepare>)
    requires cfg.Valid() && Execution(cfg, states, events) && i < |states| && id in states[i].nodes
    requires view == states[i].nodes[id].view || view == states[i].nodes[id].change.view
    requires 1 <= low < view
    ensures t < i && EntersIn(cfg, states, events, t, low, prePrepares)
  {
    assert |states| == |events| + 1;
    hide Execution, SystemOk, EntersIn;
    ReachableOk(cfg, states, events, i);
    ViewIsBuilt(cfg, states[i], id, view, low);
    var nv :| MNewView(nv) in states[i].sent && nv.message.view == low;
    t := NewViewBacked(cfg, states, events, i, nv);
    prePrepares := nv.message.prePrepares;
  }

  // No node is in, changing to, asking for or announcing a view above this one.
  ghost predicate ViewsAtMost(sys: System, top: int) {
    && (forall id :: id in sys.nodes ==> sys.nodes[id].view <= top && sys.nodes[id].change.view <= top)
    && (forall vc :: MViewChange(vc) in sys.sent ==> vc.message.view <= top)
    && (forall nv :: MNewView(nv) in sys.sent ==> nv.message.view <= top)
  }

  predicate IsTimeout(input: Input) { input.RequestTimeout? || input.HeartbeatTimeout? }

  // What one step may do to the views, given a bound on those it can see.
  ghost predicate StepAtMost(o: Outcome, top: int) {
    && o.state.view <= top && o.state.change.view <= top
    && forall m :: m in o.sent ==>
         (m.MViewChange? ==> m.viewChange.message.view <= top) && (m.MNewView? ==> m.newView.message.view <= top)
  }

  lemma ViewChangeAtMost(
    cfg: Config, id: NodeId, sent: set<Msg>, s: NodeState, m: SignedViewChange, merge: Merge, top: int)
    requires cfg.Valid() && s.view <= top && s.change.view <= top && m.message.view <= top
    requires CollectedOk(id, sent, s.change.messages)
    requires forall vc :: MViewChange(vc) in sent ==> vc.message.view <= top
    ensures StepAtMost(HandleViewChange(cfg, id, s, m, merge), top)
  {
    hide NewViewPrePrepares, ProofsSinceCheckpoint;
    var s1 := Record(s, m);
    assert forall j :: j in s1.change.messages ==> s1.change.messages[j].message.view <= top;
    if ValidSender(cfg, id, m) && Joins(cfg, s1, m.message.view) {
      assert m.message.node in Above(s1.change.messages, CurrentView(s1));
      assert IsLowestAbove(
        s1.change.messages, CurrentView(s1), LowestAbove(s1.change.messages, CurrentView(s1)));
    }
  }

  lemma NewViewAtMost(cfg: Config, id: NodeId, s: NodeState, m: SignedNewView, order: seq<SlotId>, top: int)
    requires cfg.Valid() && s.view <= top && s.change.view <= top && m.message.view <= top
    requires forall k :: k in order ==> k in m.message.prePrepares
    ensures StepAtMost(HandleNewView(cfg, id, s, m, order), top)
  {
    if EntersByNewView(s, m) {
      AcceptAllFrame(cfg, id, EnterNewView(s, m.message.view), m.message.prePrepares, order);
    }
  }

  lemma NormalCaseAtMost(cfg: Config, id: NodeId, s: NodeState, top: int)
    requires cfg.Valid() && s.view <= top && s.change.view <= top
    ensures forall r :: StepAtMost(HandleClientRequest(cfg, id, s, r), top)
    ensures forall f :: StepAtMost(HandlePrePrepare(cfg, id, s, f), top)
    ensures forall p :: StepAtMost(HandlePrepare(cfg, id, s, p), top)
    ensures forall c :: StepAtMost(HandleCommit(cfg, id, s, c), top)
  {
    hide Allocates, NextFull, Accepts, IsPrepared, IsCommitted, SlotAt;
  }

  lemma CheckpointsAtMost(cfg: Config, id: NodeId, s: NodeState, top: int)
    requires cfg.Valid() && s.view <= top && s.change.view <= top
    ensures forall c :: StepAtMost(HandleCheckpoint(cfg, id, s, c), top)
    ensures forall p :: StepAtMost(HandleCheckpointProof(cfg, id, s, p), top)
  {
    hide IsStable, Flushed;
  }

  lemma MessageAtMost(cfg: Config, id: NodeId, sent: set<Msg>, s: NodeState, msg: Msg, choice: Choice, top: int)
    requires cfg.Valid() && ChoiceOk(cfg, id, s, Receive(msg), choice) && msg in sent
    requires s.view <= top && s.change.view <= top && CollectedOk(id, sent, s.change.messages)
    requires forall vc :: MViewChange(vc) in sent ==> vc.message.view <= top
    requires forall nv :: MNewView(nv) in sent ==> nv.message.view <= top
    ensures StepAtMost(HandleMessage(cfg, id, s, msg, choice), top)
  {
    hide HandleNewView, HandleViewChange, IsMerge, HandleClientRequest, HandlePrePrepare, HandlePrepare, HandleCommit,
         HandleCheckpoint, HandleCheckpointProof;
    match msg
    case MCheckpoint(c) => CheckpointsAtMost(cfg, id, s, top);
    case MCheckpointProof(p) => CheckpointsAtMost(cfg, id, s, top);
    case MViewChange(m) => ViewChangeAtMost(cfg, id, sent, s, m, choice.merge, top);
    case MNewView(m) => NewViewAtMost(cfg, id, s, m, choice.order, top);
    case _ => NormalCaseAtMost(cfg, id, s, top);
  }

  lemma HeartbeatsAtMost(cfg: Config, id: NodeId, sent: set<Msg>, s: NodeState, top: int)
    requires Ready(cfg, id, sent, s)
    requires forall nv :: MNewView(nv) in sent ==> nv.message.view <= top
    ensures forall m :: m in SendHeartbeat(cfg, id, s) ==>
      !m.MViewChange? && (m.MNewView? ==> m.newView.message.view <= top)
  {
    hide SendHeartbeat, Ready, ResentNewView;
    HeartbeatsOk(cfg, id, sent, s);
    forall m | m in SendHeartbeat(cfg, id, s)
      ensures !m.MViewChange?
      ensures m.MNewView? ==> m.newView.message.view <= top
    {
      if m.MNewView? {
        ResendIsKnown(cfg, id, sent, s, m.newView);
      }
    }
  }

  lemma StepViewsAtMost(
    cfg: Config, id: NodeId, sent: set<Msg>, s: NodeState, input: Input, choice: Choice, top: int)
    requires Ready(cfg, id, sent, s) && ChoiceOk(cfg, id, s, input, choice)
    requires (input.Receive? ==> input.msg in sent) && s.view <= top && s.change.view <= top
    requires forall vc :: MViewChange(vc) in sent ==> vc.message.view <= top
    requires forall nv :: MNewView(nv) in sent ==> nv.message.view <= top
    ensures StepAtMost(Step(cfg, id, s, input, choice), if IsTimeout(input) then top + 1 else top)
  {
    hide HandleMessage, Allocates, NextFull, AddCheckpoint, ProofsSinceCheckpoint, SendHeartbeat, Valid, MessagesOk,
         LogOk, CheckpointsOk, ViewsOk, IssueOk, StoredOk;
    match input
    case Receive(msg) => MessageAtMost(cfg, id, sent, s, msg, choice, top);
    case HeartbeatTimeout => HeartbeatsAtMost(cfg, id, sent, s, top);
    case SnapshotReply(number, state) =>
      AddCheckpointAdvances(cfg, s, SignedCheckpoint(Checkpoint(number, state, id), By(id)));
      AddCheckpointChange(cfg, s, SignedCheckpoint(Checkpoint(number, state, id), By(id)));
    case _ =>
  }

  lemma AddCheckpointChange(cfg: Config, s: NodeState, c: SignedCheckpoint)
    ensures AddCheckpoint(cfg, s, c).state.change == s.change
  {
  }

  /** The highest view in the cluster rises only on a timeout, and then by one at most. */
  lemma TopViewRisesByOne(cfg: Config, states: seq<System>, events: seq<Event>, i: nat, top: int)
    requires cfg.Valid() && Execution(cfg, states, events) && i < |events| && ViewsAtMost(states[i], top)
    ensures ViewsAtMost(states[i + 1], if IsTimeout(events[i].input) then top + 1 else top)
  {
    ReachableOk(cfg, states, events, i);
    assert Enabled(cfg, states[i], events[i]) && states[i + 1] == Next(cfg, states[i], events[i]);
    hide Execution, SystemOk, Enabled, Next, ViewsAtMost;
    NextViewsAtMost(cfg, states[i], events[i], top);
  }

  lemma NextViewsAtMost(cfg: Config, sys: System, e: Event, top: int)
    requires cfg.Valid() && SystemOk(cfg, sys) && Enabled(cfg, sys, e) && ViewsAtMost(sys, top)
    ensures ViewsAtMost(Next(cfg, sys, e), if IsTimeout(e.input) then top + 1 else top)
  {
    hide Ready, Step, ChoiceOk;
    StepViewsAtMost(cfg, e.node, sys.sent, sys.nodes[e.node], e.input, e.choice, top);
  }
}
