/**
 What the leaders of a cluster issue: with fresh entries, one pre-prepare per slot and one new view per view; in any
 execution, one digest per slot exactly as long as no entry contradicts an earlier one.
 */
module Agreement {
  import opened Types
  import opened Replica
  import opened ReplicaInvariants
  import opened NodeRuns
  import opened Cluster
  import opened ClusterInvariants

  ghost predicate SystemOk(cfg: Config, sys: System) {
    && (forall id :: id in sys.nodes <==> id in cfg.nodes)
    && (forall id :: id in sys.nodes ==> Ready(cfg, id, sys.sent, sys.nodes[id]))
  }

  // What one step can issue or build

  predicate IssuedBy(cfg: Config, id: NodeId, s: NodeState, input: Input, merge: Merge, full: FullPrePrepare)
    requires |cfg.nodes| >= 1
  {
    var r := RequestIn(input);
    || (r.Some? && Allocates(cfg, id, s, r.value) && full == NextFull(cfg, id, s, r.value))
    || (EntersAsLeader(cfg, id, s, input)
        && var view := input.msg.viewChange.message.view;
           full.Number() in ReissuedNumbers(view, merge) && full == Reissued(cfg, id, view, merge, full.Number().seqNo))
  }

  predicate BuiltBy(cfg: Config, id: NodeId, s: NodeState, input: Input, merge: Merge, nv: SignedNewView)
    requires |cfg.nodes| >= 1
  {
    && EntersAsLeader(cfg, id, s, input)
    && nv == NewViewFor(cfg, id, Record(s, input.msg.viewChange), input.msg.viewChange.message.view, merge)
  }

  // A new-view message for the same view and with the same set O has been sent before.
  ghost predicate Resends(sent: set<Msg>, nv: SignedNewView) {
    NewViewSent(sent, nv.message.node, nv.message.view, nv.message.prePrepares)
  }

  // Every new-view message is built in this step or sent again, every pre-prepare issued in it or sent before.
  ghost predicate SendsOnly(
    cfg: Config, id: NodeId, sent: set<Msg>, s: NodeState, input: Input, merge: Merge, out: set<Msg>)
    requires |cfg.nodes| >= 1
  {
    && (forall full :: MPrePrepare(full) in out && !full.IsHeartbeat() && MPrePrepare(full) !in sent ==>
          IssuedBy(cfg, id, s, input, merge, full))
    && (forall nv :: MNewView(nv) in out ==> BuiltBy(cfg, id, s, input, merge, nv) || Resends(sent, nv))
    && (forall nv, k :: MNewView(nv) in out && k in nv.message.prePrepares ==>
          || IssuedBy(cfg, id, s, input, merge, nv.message.prePrepares[k])
          || MPrePrepare(nv.message.prePrepares[k]) in sent)
  }

  predicate Silent(out: set<Msg>) {
    forall m :: m in out ==> !m.MPrePrepare? && !m.MNewView?
  }

  lemma ClientRequestSends(cfg: Config, id: NodeId, s: NodeState, request: string)
    requires cfg.Valid()
    ensures var out := HandleClientRequest(cfg, id, s, request).sent;
      if Allocates(cfg, id, s, request) then out == {MPrePrepare(NextFull(cfg, id, s, request))} else Silent(out)
  {
  }

  lemma ViewChangeSends(cfg: Config, id: NodeId, s: NodeState, m: SignedViewChange, merge: Merge)
    requires cfg.Valid()
    ensures var out := HandleViewChange(cfg, id, s, m, merge).sent;
      if LeaderEntry(cfg, id, s, m) then out == {MNewView(NewViewFor(cfg, id, Record(s, m), m.message.view, merge))}
      else Silent(out)
  {
  }

  lemma NormalCaseSends(cfg: Config, id: NodeId, s: NodeState)
    requires cfg.Valid()
    ensures forall f :: Silent(HandlePrePrepare(cfg, id, s, f).sent)
    ensures forall p :: Silent(HandlePrepare(cfg, id, s, p).sent)
    ensures forall c :: HandleCommit(cfg, id, s, c).sent == {}
    ensures forall c :: HandleCheckpoint(cfg, id, s, c).sent == {}
    ensures forall p :: HandleCheckpointProof(cfg, id, s, p).sent == {}
  {
  }

  lemma NewViewSends(cfg: Config, id: NodeId, s: NodeState, m: SignedNewView, order: seq<SlotId>)
    requires cfg.Valid()
    requires forall k :: k in order ==> k in m.message.prePrepares
    ensures Silent(HandleNewView(cfg, id, s, m, order).sent)
  {
    if EntersByNewView(s, m) {
      AcceptAllFrame(cfg, id, EnterNewView(s, m.message.view), m.message.prePrepares, order);
    }
  }

  lemma MessageSends(cfg: Config, id: NodeId, sent: set<Msg>, s: NodeState, msg: Msg, choice: Choice)
    requires cfg.Valid() && ChoiceOk(cfg, id, s, Receive(msg), choice)
    ensures SendsOnly(cfg, id, sent, s, Receive(msg), choice.merge, HandleMessage(cfg, id, s, msg, choice).sent)
  {
    hide HandleClientRequest, HandlePrePrepare, HandlePrepare, HandleCommit, HandleCheckpoint, HandleCheckpointProof,
         HandleViewChange, HandleNewView, NextFull, NewViewFor, IsMerge, LeaderEntry, Allocates;
    match msg
    case MClientRequest(r) => ClientRequestSends(cfg, id, s, r);
    case MViewChange(m) =>
      ViewChangeSends(cfg, id, s, m, choice.merge);
      if LeaderEntry(cfg, id, s, m) {
        BuiltEmbedsIssued(
          cfg, id, s, Receive(msg), choice.merge, NewViewFor(cfg, id, Record(s, m), m.message.view, choice.merge));
      }
    case MNewView(m) => NewViewSends(cfg, id, s, m, choice.order);
    case _ => NormalCaseSends(cfg, id, s);
  }

  lemma HeartbeatSends(cfg: Config, id: NodeId, sent: set<Msg>, s: NodeState)
    requires Ready(cfg, id, sent, s)
    ensures var out := HandleHeartbeatTimeout(cfg, id, s).sent;
      && (forall m :: m in out && m.MPrePrepare? && !m.full.IsHeartbeat() ==> m in sent)
      && (forall nv :: MNewView(nv) in out ==> Resends(sent, nv))
      && (forall nv, k :: MNewView(nv) in out && k in nv.message.prePrepares ==>
            MPrePrepare(nv.message.prePrepares[k]) in sent)
  {
    HeartbeatsOk(cfg, id, sent, s);
    var out := HandleHeartbeatTimeout(cfg, id, s).sent;
    assert out <= SendHeartbeat(cfg, id, s) || forall m :: m in out ==> m.MViewChange?;
    hide SendHeartbeat, Valid, NodeOk, HandleHeartbeatTimeout, FullPrePrepare.IsHeartbeat, ResentNewView;
    forall nv | MNewView(nv) in out
      ensures Resends(sent, nv)
      ensures forall k :: k in nv.message.prePrepares ==> MPrePrepare(nv.message.prePrepares[k]) in sent
    {
      ResendIsKnown(cfg, id, sent, s, nv);
    }
  }

  lemma ResendIsKnown(cfg: Config, id: NodeId, sent: set<Msg>, s: NodeState, nv: SignedNewView)
    requires Ready(cfg, id, sent, s)
    requires MNewView(nv) in sent || (s.newView.Some? && nv == ResentNewView(id, s))
    ensures Resends(sent, nv)
    ensures forall k :: k in nv.message.prePrepares ==> MPrePrepare(nv.message.prePrepares[k]) in sent
  {
    if MNewView(nv) in sent {
      assert MsgOk(cfg, sent, MNewView(nv));
    } else {
      ResentOk(cfg, id, sent, s);
    }
    assert NewViewOk(cfg, sent, nv);
    hide Ready;
    forall k | k in nv.message.prePrepares
      ensures MPrePrepare(nv.message.prePrepares[k]) in sent
    {
      assert Issued(sent, nv.message.prePrepares[k]);
    }
  }

  lemma StepSends(cfg: Config, id: NodeId, sent: set<Msg>, s: NodeState, input: Input, choice: Choice)
    requires Ready(cfg, id, sent, s) && ChoiceOk(cfg, id, s, input, choice)
    ensures SendsOnly(cfg, id, sent, s, input, choice.merge, Step(cfg, id, s, input, choice).sent)
  {
    hide HandleMessage, HandleClientRequest, HandleHeartbeatTimeout, NodeOk, Allocates, NextFull, AddCheckpoint;
    match input
    case Receive(msg) => MessageSends(cfg, id, sent, s, msg, choice);
    case Propose(r) => ClientRequestSends(cfg, id, s, r);
    case HeartbeatTimeout => HeartbeatSends(cfg, id, sent, s);
    case _ =>
  }

  lemma IssuedByLeader(
    cfg: Config, id: NodeId, s: NodeState, input: Input, merge: Merge, full: FullPrePrepare)
    requires cfg.Valid() && IssuedBy(cfg, id, s, input, merge, full)
    ensures cfg.LeaderFor(full.Number().view) == id
  {
  }

  lemma BuiltEmbedsIssued(
    cfg: Config, id: NodeId, s: NodeState, input: Input, merge: Merge, nv: SignedNewView)
    requires cfg.Valid() && BuiltBy(cfg, id, s, input, merge, nv)
    ensures forall k :: k in nv.message.prePrepares ==>
      IssuedBy(cfg, id, s, input, merge, nv.message.prePrepares[k])
  {
  }

  /** What is new in the network after a step was issued or built in that step, by the leader of its view. */
  lemma StepIssues(cfg: Config, id: NodeId, sent: set<Msg>, s: NodeState, input: Input, choice: Choice)
    requires Ready(cfg, id, sent, s) && ChoiceOk(cfg, id, s, input, choice)
    ensures var more := After(sent, Step(cfg, id, s, input, choice).sent);
      && (forall full :: Issued(more, full) && !Issued(sent, full) ==>
            IssuedBy(cfg, id, s, input, choice.merge, full) && cfg.LeaderFor(full.Number().view) == id)
      && (forall nv :: MNewView(nv) in more && MNewView(nv) !in sent ==>
            BuiltBy(cfg, id, s, input, choice.merge, nv) || Resends(sent, nv))
  {
    StepSends(cfg, id, sent, s, input, choice);
    hide Step, Ready, ChoiceOk, IssuedBy, BuiltBy, Resends, FullPrePrepare.IsHeartbeat;
    var out := Step(cfg, id, s, input, choice).sent;
    forall full | Issued(After(sent, out), full) && !Issued(sent, full)
      ensures IssuedBy(cfg, id, s, input, choice.merge, full) && cfg.LeaderFor(full.Number().view) == id
    {
      if MPrePrepare(full) in Embedded(out) {
        var m, k :| m in out && m.MNewView? && k in m.newView.message.prePrepares &&
          MPrePrepare(full) == MPrePrepare(m.newView.message.prePrepares[k]);
        assert MNewView(m.newView) in out;
      }
      IssuedByLeader(cfg, id, s, input, choice.merge, full);
    }
  }

  lemma NewIsIssued(cfg: Config, sys: System, e: Event)
    requires cfg.Valid() && SystemOk(cfg, sys) && Enabled(cfg, sys, e)
    ensures forall f :: Issued(Next(cfg, sys, e).sent, f) && !Issued(sys.sent, f) ==>
      && IssuedBy(cfg, e.node, sys.nodes[e.node], e.input, e.choice.merge, f)
      && cfg.LeaderFor(f.Number().view) == e.node
  {
    assert Ready(cfg, e.node, sys.sent, sys.nodes[e.node]);
    hide SystemOk, Ready, ChoiceOk, Step, After, IssuedBy, BuiltBy, Issued;
    StepIssues(cfg, e.node, sys.sent, sys.nodes[e.node], e.input, e.choice);
  }

  // Every reachable state is in order

  // The node that takes the step, and the others, which only see the network grow.

  lemma MoverReady(cfg: Config, sys: System, e: Event)
    requires cfg.Valid() && SystemOk(cfg, sys) && Enabled(cfg, sys, e)
    ensures Ready(cfg, e.node, Next(cfg, sys, e).sent, Perform(cfg, sys, e).state)
    ensures MessagesOk(cfg, Next(cfg, sys, e).sent)
  {
    var id, s := e.node, sys.nodes[e.node];
    assert Ready(cfg, id, sys.sent, s);
    hide Step, ChoiceOk, Valid, MessagesOk, NodeOk, After;
    StepValid(cfg, id, s, e.input, e.choice);
    StepKept(cfg, id, sys.sent, s, e.input, e.choice);
  }

  lemma BystanderReady(cfg: Config, sys: System, e: Event, j: NodeId)
    requires cfg.Valid() && SystemOk(cfg, sys) && Enabled(cfg, sys, e) && j in sys.nodes && j != e.node
    requires MessagesOk(cfg, Next(cfg, sys, e).sent)
    ensures Ready(cfg, j, Next(cfg, sys, e).sent, sys.nodes[j])
  {
    var more := Next(cfg, sys, e).sent;
    assert Ready(cfg, e.node, sys.sent, sys.nodes[e.node]) && Ready(cfg, j, sys.sent, sys.nodes[j]);
    hide Step, ChoiceOk, Valid, MessagesOk, NodeOk, After, IssuedBy, BuiltBy;
    StepIssues(cfg, e.node, sys.sent, sys.nodes[e.node], e.input, e.choice);
    AfterGrows(sys.sent, Perform(cfg, sys, e).sent);
    NodeOkGrows(cfg, j, sys.sent, more, sys.nodes[j]);
  }

  lemma NextOk(cfg: Config, sys: System, e: Event)
    requires cfg.Valid() && SystemOk(cfg, sys) && Enabled(cfg, sys, e)
    ensures SystemOk(cfg, Next(cfg, sys, e))
  {
    hide Step, ChoiceOk, Perform, Ready, MessagesOk, After;
    MoverReady(cfg, sys, e);
    var next := Next(cfg, sys, e);
    forall j | j in next.nodes
      ensures Ready(cfg, j, next.sent, next.nodes[j])
    {
      if j != e.node {
        BystanderReady(cfg, sys, e, j);
      }
    }
  }

  lemma AfterGrows(sent: set<Msg>, out: set<Msg>)
    ensures sent <= After(sent, out)
  {
  }

  lemma InitialReady(cfg: Config, sys: System)
    requires cfg.Valid() && Init(cfg, sys)
    ensures SystemOk(cfg, sys)
  {
    forall id | id in sys.nodes
      ensures Ready(cfg, id, sys.sent, sys.nodes[id])
    {
      InitialValid(cfg, id);
    }
  }

  lemma {:induction false} ReachableOk(cfg: Config, states: seq<System>, events: seq<Event>, i: nat)
    requires cfg.Valid() && Execution(cfg, states, events) && i < |states|
    ensures SystemOk(cfg, states[i])
  {
    hide Step, ChoiceOk, Next, Enabled;
    if i == 0 {
      InitialReady(cfg, states[0]);
    } else {
      ReachableOk(cfg, states, events, i - 1);
      NextOk(cfg, states[i - 1], events[i - 1]);
    }
  }

  // One pre-prepare per slot

  // Every leader has reached the views it issued or built for, and there is one of each.

  ghost predicate OnePrePrepare(cfg: Config, sys: System)
    requires |cfg.nodes| >= 1
    requires forall id :: id in cfg.nodes ==> id in sys.nodes
  {
    && (forall f :: Issued(sys.sent, f) ==> f.Number().view <= sys.nodes[cfg.LeaderFor(f.Number().view)].view)
    && (forall f, g :: Issued(sys.sent, f) && Issued(sys.sent, g) && f.Number() == g.Number() ==> f == g)
  }

  ghost predicate OneNewView(cfg: Config, sys: System)
    requires |cfg.nodes| >= 1
    requires forall id :: id in cfg.nodes ==> id in sys.nodes
  {
    && (forall nv :: MNewView(nv) in sys.sent ==> nv.message.view <= sys.nodes[cfg.LeaderFor(nv.message.view)].view)
    && (forall a, b :: MNewView(a) in sys.sent && MNewView(b) in sys.sent && a.message.view == b.message.view ==>
          a.message.prePrepares == b.message.prePrepares)
  }

  lemma ViewGrows(cfg: Config, id: NodeId, s: NodeState, input: Input, choice: Choice)
    requires cfg.Valid() && Valid(cfg, s) && ChoiceOk(cfg, id, s, input, choice) && Fresh(cfg, id, s, input)
    ensures s.view <= Step(cfg, id, s, input, choice).state.view
    ensures EntersAsLeader(cfg, id, s, input) ==>
      Step(cfg, id, s, input, choice).state.view == input.msg.viewChange.message.view > s.view
    ensures RequestIn(input).Some? ==> Step(cfg, id, s, input, choice).state.view == s.view
  {
    StepAdvances(cfg, id, s, input, choice);
    ViewGoesBackIff(cfg, id, s, input, choice);
  }

  // Where a newly issued pre-prepare lies: in the leader's view, above all it has issued there so far.
  lemma IssuedAbove(
    cfg: Config, sys: System, e: Event, f: FullPrePrepare, g: FullPrePrepare)
    requires cfg.Valid() && SystemOk(cfg, sys) && OnePrePrepare(cfg, sys) && Enabled(cfg, sys, e)
    requires FreshEvent(cfg, sys, e)
    requires IssuedBy(cfg, e.node, sys.nodes[e.node], e.input, e.choice.merge, f)
    requires cfg.LeaderFor(f.Number().view) == e.node
    ensures f.Number().view <= Perform(cfg, sys, e).state.view
    ensures Issued(sys.sent, g) ==> f.Number() != g.Number()
    ensures IssuedBy(cfg, e.node, sys.nodes[e.node], e.input, e.choice.merge, g) && f.Number() == g.Number() ==> f == g
  {
    var id, s := e.node, sys.nodes[e.node];
    assert Ready(cfg, id, sys.sent, s);
    ViewGrows(cfg, id, s, e.input, e.choice);
    hide Step, ChoiceOk, Valid, MessagesOk, LogOk, CollectedOk, CheckpointsOk, ViewsOk;
    assert Issued(sys.sent, g) && cfg.LeaderFor(g.Number().view) == id ==> g.Number().seqNo <= s.issued;
  }

  lemma NextOnePrePrepare(cfg: Config, sys: System, e: Event)
    requires cfg.Valid() && SystemOk(cfg, sys) && OnePrePrepare(cfg, sys) && Enabled(cfg, sys, e)
    requires FreshEvent(cfg, sys, e)
    ensures OnePrePrepare(cfg, Next(cfg, sys, e))
  {
    var id, s, next := e.node, sys.nodes[e.node], Next(cfg, sys, e);
    assert Ready(cfg, id, sys.sent, s);
    hide Ready, Step, ChoiceOk, After, IssuedBy, BuiltBy, Issued, Fresh, EntersAsLeader;
    ViewGrows(cfg, id, s, e.input, e.choice);
    NewIsIssued(cfg, sys, e);
    hide SystemOk;
    forall f | Issued(next.sent, f)
      ensures f.Number().view <= next.nodes[cfg.LeaderFor(f.Number().view)].view
    {
      if !Issued(sys.sent, f) { IssuedAbove(cfg, sys, e, f, f); }
    }
    forall f, g | Issued(next.sent, f) && Issued(next.sent, g) && f.Number() == g.Number()
      ensures f == g
    {
      if !Issued(sys.sent, f) {
        IssuedAbove(cfg, sys, e, f, g);
      } else if !Issued(sys.sent, g) {
        IssuedAbove(cfg, sys, e, g, f);
      }
    }
  }

  lemma BuiltAbove(cfg: Config, id: NodeId, s: NodeState, input: Input, choice: Choice, nv: SignedNewView)
    requires cfg.Valid() && Valid(cfg, s) && ChoiceOk(cfg, id, s, input, choice) && Fresh(cfg, id, s, input)
    requires BuiltBy(cfg, id, s, input, choice.merge, nv)
    ensures nv.message.view == Step(cfg, id, s, input, choice).state.view > s.view
    ensures cfg.LeaderFor(nv.message.view) == id
  {
    ViewGrows(cfg, id, s, input, choice);
    hide Step, ChoiceOk, Valid, Joins, NewViewPrePrepares;
  }

  lemma NextOneNewView(cfg: Config, sys: System, e: Event)
    requires cfg.Valid() && SystemOk(cfg, sys) && OneNewView(cfg, sys) && Enabled(cfg, sys, e)
    requires FreshEvent(cfg, sys, e)
    ensures OneNewView(cfg, Next(cfg, sys, e))
  {
    hide Step, ChoiceOk, Valid, MessagesOk, NodeOk, After, Fresh, BuiltBy, EntersAsLeader, IssuedBy, Resends;
    var id, s, next := e.node, sys.nodes[e.node], Next(cfg, sys, e);
    assert Ready(cfg, id, sys.sent, s);
    ViewGrows(cfg, id, s, e.input, e.choice);
    StepIssues(cfg, id, sys.sent, s, e.input, e.choice);
    forall nv | MNewView(nv) in next.sent
      ensures || Resends(sys.sent, nv)
              || (BuiltBy(cfg, id, s, e.input, e.choice.merge, nv)
                  && nv.message.view == next.nodes[id].view > s.view && cfg.LeaderFor(nv.message.view) == id)
      ensures nv.message.view <= next.nodes[cfg.LeaderFor(nv.message.view)].view
    {
      if MNewView(nv) in sys.sent || Resends(sys.sent, nv) {
        ResendsIsOld(cfg, sys, nv);
      } else {
        BuiltAbove(cfg, id, s, e.input, e.choice, nv);
      }
    }
    forall a, b | MNewView(a) in next.sent && MNewView(b) in next.sent && a.message.view == b.message.view
      ensures a.message.prePrepares == b.message.prePrepares
    {
      if Resends(sys.sent, a) && Resends(sys.sent, b) {
        ResendsAgree(cfg, sys, a, b);
      } else if Resends(sys.sent, a) {
        ResendsIsOld(cfg, sys, a);
      } else if Resends(sys.sent, b) {
        ResendsIsOld(cfg, sys, b);
      } else {
        OneBuilt(cfg, id, s, e.input, e.choice.merge);
      }
    }
  }

  lemma ResendsIsOld(cfg: Config, sys: System, nv: SignedNewView)
    requires cfg.Valid() && (forall id :: id in cfg.nodes ==> id in sys.nodes) && OneNewView(cfg, sys)
    requires MNewView(nv) in sys.sent || Resends(sys.sent, nv)
    ensures Resends(sys.sent, nv)
    ensures nv.message.view <= sys.nodes[cfg.LeaderFor(nv.message.view)].view
  {
  }

  lemma ResendsAgree(cfg: Config, sys: System, a: SignedNewView, b: SignedNewView)
    requires cfg.Valid() && (forall id :: id in cfg.nodes ==> id in sys.nodes) && OneNewView(cfg, sys)
    requires Resends(sys.sent, a) && Resends(sys.sent, b) && a.message.view == b.message.view
    ensures a.message.prePrepares == b.message.prePrepares
  {
  }

  lemma OneBuilt(cfg: Config, id: NodeId, s: NodeState, input: Input, merge: Merge)
    requires cfg.Valid()
    ensures forall a, b :: BuiltBy(cfg, id, s, input, merge, a) && BuiltBy(cfg, id, s, input, merge, b) ==> a == b
  {
  }

  /** With fresh leader entries there is one pre-prepare per slot and one new view, with one set O, per view. */
  lemma {:induction false} ReachableOneEach(cfg: Config, states: seq<System>, events: seq<Event>, i: nat)
    requires cfg.Valid() && FreshExecution(cfg, states, events) && i < |states|
    ensures SystemOk(cfg, states[i]) && OnePrePrepare(cfg, states[i]) && OneNewView(cfg, states[i])
  {
    hide Step, ChoiceOk, Next, Enabled, FreshEvent, Ready;
    ReachableOk(cfg, states, events, i);
    hide SystemOk;
    if i > 0 {
      ReachableOneEach(cfg, states, events, i - 1);
      NextOnePrePrepare(cfg, states[i - 1], events[i - 1]);
      NextOneNewView(cfg, states[i - 1], events[i - 1]);
    }
  }

  // Agreement without the freshness hypothesis: when exactly it holds

  ghost predicate OneDigest(sent: set<Msg>) {
    forall f, g :: Issued(sent, f) && Issued(sent, g) && f.Number() == g.Number() ==> f.Digest() == g.Digest()
  }

  // A leader enters a view in which a number of its range has been given a digest already, other than its merge's.
  ghost predicate Contradicts(cfg: Config, sys: System, e: Event)
    requires |cfg.nodes| >= 1
  {
    && e.node in sys.nodes && EntersAsLeader(cfg, e.node, sys.nodes[e.node], e.input)
    && var view := e.input.msg.viewChange.message.view;
       exists g :: Issued(sys.sent, g) && g.Number() in ReissuedNumbers(view, e.choice.merge) &&
         g.Digest() != Reissued(cfg, e.node, view, e.choice.merge, g.Number().seqNo).Digest()
  }

  lemma EntrySends(cfg: Config, id: NodeId, s: NodeState, input: Input, choice: Choice)
    requires cfg.Valid() && ChoiceOk(cfg, id, s, input, choice) && EntersAsLeader(cfg, id, s, input)
    ensures var m := input.msg.viewChange;
      && Step(cfg, id, s, input, choice).sent ==
           {MNewView(NewViewFor(cfg, id, Record(s, m), m.message.view, choice.merge))}
      && ValidSender(cfg, id, m) && Elected(cfg, id, Record(s, m), m.message.view)
      && IsMerge(s.lastCheckpoint.number.seqNo, Record(s, m).change.messages, choice.merge)
  {
    ViewChangeSends(cfg, id, s, input.msg.viewChange, choice.merge);
    hide HandleViewChange, IsMerge, NewViewFor;
  }

  lemma EntryIssuesItsRange(cfg: Config, sys: System, e: Event, k: SlotId)
    requires cfg.Valid() && SystemOk(cfg, sys) && Enabled(cfg, sys, e)
    requires EntersAsLeader(cfg, e.node, sys.nodes[e.node], e.input)
    requires k in ReissuedNumbers(e.input.msg.viewChange.message.view, e.choice.merge)
    ensures var full := Reissued(cfg, e.node, e.input.msg.viewChange.message.view, e.choice.merge, k.seqNo);
      Issued(Next(cfg, sys, e).sent, full) && full.Number() == k
  {
    hide Ready, IsMerge, Step, ChoiceOk, Issued, Elected, LeaderEntry, ValidSender, After, Reissued, ReissuedNumbers;
    var id, s, m, merge := e.node, sys.nodes[e.node], e.input.msg.viewChange, e.choice.merge;
    var view, s1 := m.message.view, Record(s, m);
    EntrySends(cfg, id, s, e.input, e.choice);
    RecordKept(cfg, id, sys.sent, s, m);
    assert s1.change.messages[m.message.node] == m;
    BecomeLeaderIssues(cfg, id, sys.sent, s1, view, merge);
    assert k in NewViewFor(cfg, id, s1, view, merge).message.prePrepares;
  }

  // A client's request never gets a number its leader has issued before; only a merge can give one twice.
  lemma IssuedTwice(cfg: Config, sys: System, e: Event, f: FullPrePrepare, g: FullPrePrepare)
    requires cfg.Valid() && SystemOk(cfg, sys) && Enabled(cfg, sys, e) && !Contradicts(cfg, sys, e)
    requires IssuedBy(cfg, e.node, sys.nodes[e.node], e.input, e.choice.merge, f)
    requires cfg.LeaderFor(f.Number().view) == e.node && f.Number() == g.Number()
    requires Issued(sys.sent, g) || IssuedBy(cfg, e.node, sys.nodes[e.node], e.input, e.choice.merge, g)
    ensures f.Digest() == g.Digest()
  {
    var id, s := e.node, sys.nodes[e.node];
    assert Ready(cfg, id, sys.sent, s);
    hide ChoiceOk, Valid, MessagesOk, LogOk, CollectedOk, CheckpointsOk, ViewsOk;
    assert Issued(sys.sent, g) && cfg.LeaderFor(g.Number().view) == id ==> g.Number().seqNo <= s.issued;
  }

  lemma OneDigestIsKeptIff(cfg: Config, sys: System, e: Event)
    requires cfg.Valid() && SystemOk(cfg, sys) && Enabled(cfg, sys, e) && OneDigest(sys.sent)
    ensures OneDigest(Next(cfg, sys, e).sent) <==> !Contradicts(cfg, sys, e)
  {
    var id, s, next := e.node, sys.nodes[e.node], Next(cfg, sys, e);
    assert Ready(cfg, id, sys.sent, s);
    StepIssues(cfg, id, sys.sent, s, e.input, e.choice);
    AfterGrows(sys.sent, Perform(cfg, sys, e).sent);
    hide Step, ChoiceOk, Ready, After, IssuedBy, BuiltBy, EntersAsLeader, ReissuedNumbers;
    if Contradicts(cfg, sys, e) {
      var view := e.input.msg.viewChange.message.view;
      var g :| Issued(sys.sent, g) && g.Number() in ReissuedNumbers(view, e.choice.merge) &&
        g.Digest() != Reissued(cfg, id, view, e.choice.merge, g.Number().seqNo).Digest();
      EntryIssuesItsRange(cfg, sys, e, g.Number());
      assert Issued(next.sent, g);
    } else {
      hide Contradicts, SystemOk, Issued;
      forall f, g | Issued(next.sent, f) && Issued(next.sent, g) && f.Number() == g.Number()
        ensures f.Digest() == g.Digest()
      {
        if !Issued(sys.sent, f) {
          IssuedTwice(cfg, sys, e, f, g);
        } else if !Issued(sys.sent, g) {
          IssuedTwice(cfg, sys, e, g, f);
        }
      }
    }
  }

  /** In any execution, each slot has one digest exactly when no entry so far contradicted one given before. */
  lemma {:induction false} OneDigestIff(cfg: Config, states: seq<System>, events: seq<Event>, i: nat)
    requires cfg.Valid() && Execution(cfg, states, events) && i < |states|
    ensures OneDigest(states[i].sent) <==> forall t :: 0 <= t < i ==> !Contradicts(cfg, states[t], events[t])
  {
    hide Step, ChoiceOk, Next, Enabled, Contradicts, SystemOk;
    if i > 0 {
      OneDigestIff(cfg, states, events, i - 1);
      ReachableOk(cfg, states, events, i - 1);
      SentGrows(cfg, states, events, i - 1, i);
      if OneDigest(states[i - 1].sent) {
        OneDigestIsKeptIff(cfg, states[i - 1], events[i - 1]);
      }
    }
  }
}
