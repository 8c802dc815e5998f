/**
 Three nodes, none of which misbehaves, in executions that show why the results about agreement and delivery need
 leader entries to be fresh. With three nodes the fault bound is 0: a pre-prepare accepted is a request prepared.
 Node 1 leads view 0, node 2 leads every other view.
 */
module Counterexamples {
  import opened Types
  import opened Replica
  import opened NodeRuns
  import opened Cluster
  import opened ClusterInvariants
  import opened MergeResults

  const CFG := Config([1, 2, 3], v => if v == 0 then 0 else 1, s => |s| + 1)

  function Start(id: NodeId): NodeState { Initial(CFG, id) }

  const NO_MERGE := Merge(map[], 0, 0)
  const NO_CHOICE := Choice(NO_MERGE, [])

  // Building executions

  lemma Extend(states: seq<System>, events: seq<Event>, e: Event)
    requires Execution(CFG, states, events) && Enabled(CFG, states[|events|], e)
    ensures Execution(CFG, states + [Next(CFG, states[|events|], e)], events + [e])
    ensures FreshExecution(CFG, states, events) && FreshEvent(CFG, states[|events|], e) ==>
      FreshExecution(CFG, states + [Next(CFG, states[|events|], e)], events + [e])
  {
    hide Step, ChoiceOk, Fresh;
  }

  // What a script needs to know of a state: what the nodes hold, and some of what has been sent.
  ghost predicate Shows(sys: System, nodes: map<NodeId, NodeState>, sent: set<Msg>) {
    sys.nodes == nodes && sent <= sys.sent
  }

  lemma Take(
    states: seq<System>, events: seq<Event>, e: Event, nodes: map<NodeId, NodeState>, sent: set<Msg>)
    returns (states': seq<System>, events': seq<Event>)
    requires Execution(CFG, states, events) && Shows(states[|events|], nodes, sent)
    requires e.node in nodes && (e.input.Receive? ==> e.input.msg in sent) && !e.input.HeartbeatReply?
    requires ChoiceOk(CFG, e.node, nodes[e.node], e.input, e.choice)
    ensures Execution(CFG, states', events')
    ensures events' == events + [e] && states' == states + [states'[|events'|]]
    ensures var o := Step(CFG, e.node, nodes[e.node], e.input, e.choice);
      Shows(states'[|events'|], nodes[e.node := o.state], After(sent, o.sent))
    ensures FreshExecution(CFG, states, events) && Fresh(CFG, e.node, nodes[e.node], e.input) ==>
      FreshExecution(CFG, states', events')
  {
    assert |states| == |events| + 1;
    hide Step, ChoiceOk, Fresh, Execution, FreshExecution;
    var sys := states[|events|];
    assert Enabled(CFG, sys, e);
    Extend(states, events, e);
    states', events' := states + [Next(CFG, sys, e)], events + [e];
    assert After(sent, Perform(CFG, sys, e).sent) <= Next(CFG, sys, e).sent;
  }

  lemma NoProofsMerge(messages: map<NodeId, SignedViewChange>)
    requires forall j :: j in messages ==> messages[j].message.proofs == map[]
    requires forall j :: j in messages ==> messages[j].message.checkpoint.seqNo == 0
    ensures IsMerge(0, messages, NO_MERGE)
  {
  }

  // The pieces both scripts share

  const VC1 := SignedViewChange(ViewChange(1, SlotId(0, 0), map[], map[], 3), By(3))

  function Asking(s: NodeState, messages: map<NodeId, SignedViewChange>, view: int): NodeState {
    s.(change := ViewChangeInfo(messages, true, view))
  }

  // A node whose log has nothing prepared asks for the next view.
  lemma TimesOut(id: NodeId, s: NodeState, view: int)
    requires !s.change.inProgress && !s.down && CFG.LeaderFor(s.view) != id && s.change.view <= s.view + 1 == view
    ensures Step(CFG, id, s, HeartbeatTimeout, NO_CHOICE) ==
      Send(Asking(s, s.change.messages, view), {MViewChange(ViewChangeFor(CFG, id, s, view))})
  {
  }

  lemma VC1IsEmpty()
    ensures ViewChangeFor(CFG, 3, Start(3), 1) == VC1
  {
    assert ProofsSinceCheckpoint(CFG, Start(3)) == map[];
  }

  // Node 2 joins a view change for the view one peer asks for.
  lemma JoinsAlone(s: NodeState, m: SignedViewChange, merge: Merge)
    requires m.message.view > CurrentView(s) && s.change.view < m.message.view && !s.down
    requires m.signature == By(m.message.node) && (m.message.node == 1 || m.message.node == 3)
    requires forall j :: j in s.change.messages && j != m.message.node ==>
      s.change.messages[j].message.view <= CurrentView(s)
    ensures HandleViewChange(CFG, 2, s, m, merge).state ==
      Asking(s, s.change.messages[m.message.node := m], m.message.view)
  {
    var s1 := Record(s, m);
    assert Above(s1.change.messages, CurrentView(s1)) == {m.message.node};
    var low := LowestAbove(s1.change.messages, CurrentView(s1));
    assert IsLowestAbove(s1.change.messages, CurrentView(s1), low);
  }

  // Node 2 enters a view as its leader when handed again a vote it has counted already.
  lemma LeadsAlone(s: NodeState, m: SignedViewChange, merge: Merge)
    requires s.change.inProgress && 1 <= m.message.view <= s.change.view && m.message.view < 0x1_0000_0000
    requires m.signature == By(m.message.node) && (m.message.node == 1 || m.message.node == 3)
    ensures LeaderEntry(CFG, 2, s, m)
    ensures HandleViewChange(CFG, 2, s, m, merge) == BecomeLeader(CFG, 2, Record(s, m), m.message.view, merge)
  {
    var s1 := Record(s, m);
    var voters := Voters(s1.change.messages, m.message.view);
    assert m.message.node in voters;
    assert |voters| >= 1;
  }

  // Steps on known states

  lemma ProposeStep(id: NodeId, s: NodeState, r: string)
    requires Allocates(CFG, id, s, r)
    ensures Step(CFG, id, s, Propose(r), NO_CHOICE) ==
      Send(Numbered(id, s, r), {MPrePrepare(NextFull(CFG, id, s, r))})
  {
  }

  function Numbered(id: NodeId, s: NodeState, r: string): NodeState {
    var full := NextFull(CFG, id, s, r);
    s.(requests := s.requests + {CFG.digest(r)}, issued := s.issued + 1,
       log := s.log[full.Number() := IssuedSlot(full)])
  }

  function Accepted(id: NodeId, s: NodeState, full: FullPrePrepare): NodeState {
    s.(issued := full.Number().seqNo, log := s.log[full.Number() := AcceptInto(id, EMPTY_SLOT, full)])
  }

  lemma AcceptStep(id: NodeId, s: NodeState, full: FullPrePrepare)
    requires Admissible(CFG, id, s, full) && full.Number() !in s.log && full.Number().seqNo > s.issued
    ensures Step(CFG, id, s, Receive(MPrePrepare(full)), NO_CHOICE) ==
      Send(Accepted(id, s, full), {MPrepare(PrepareFor(id, full))})
  {
  }

  function Led(s: NodeState, view: int): NodeState {
    EnterNewView(s, view).(newView := Some(StoredNewView(view, map[])), caughtUp := AllPeersAt(CFG, 2, 0))
  }

  // Entering with nothing to reissue.
  lemma LeadStep(s: NodeState, view: int)
    requires s.issued >= 0
    ensures BecomeLeader(CFG, 2, s, view, NO_MERGE) ==
      Send(Led(s, view), {MNewView(NewViewFor(CFG, 2, s, view, NO_MERGE))})
    ensures NewViewFor(CFG, 2, s, view, NO_MERGE).message.prePrepares == map[]
  {
    assert NewViewPrePrepares(CFG, 2, view, NO_MERGE) == map[];
    assert s.log + IssuedSlots(map[]) == s.log;
  }

  lemma FollowStep(id: NodeId, s: NodeState, nv: SignedNewView)
    requires nv.message.prePrepares == map[] && EntersByNewView(s, nv)
    ensures Step(CFG, id, s, Receive(MNewView(nv)), NO_CHOICE) == Quiet(EnterNewView(s, nv.message.view))
  {
  }

  // A log whose one slot holds an accepted pre-prepare gives one proof.
  lemma OneProof(id: NodeId, s: NodeState, full: FullPrePrepare, view: int)
    requires s.log == map[full.Number() := AcceptInto(id, EMPTY_SLOT, full)]
    requires s.lastCheckpoint == INITIAL_CHECKPOINT && SlotId(0, 0).Before(full.Number())
    ensures var vc := ViewChangeFor(CFG, id, s, view);
      && vc.message.proofs.Keys == {full.Number()}
      && vc.message.proofs[full.Number()].request == full.request
      && vc.message.proofs[full.Number()].digest == full.Digest()
      && vc.message.checkpoint == SlotId(0, 0) && vc.signature == By(id) && vc.message.node == id
      && vc.message.view == view
  {
    assert HasProof(CFG, s, full.Number());
  }

  // The merge of messages of which just one carries a proof, for number 3.
  lemma OneProofMerge(messages: map<NodeId, SignedViewChange>, j: NodeId, full: FullPrePrepare)
    requires j in messages && messages[j].message.proofs.Keys == {full.Number()} && full.Number().seqNo == 3
    requires messages[j].message.proofs[full.Number()].request == full.request
    requires messages[j].message.proofs[full.Number()].digest == full.Digest()
    requires forall i :: i in messages && i != j ==> messages[i].message.proofs == map[]
    requires forall i :: i in messages ==> messages[i].message.checkpoint.seqNo == 0
    ensures IsMerge(0, messages, MergeOf(full))
  {
    var merge := MergeOf(full);
    assert ProofIn(messages, j, full.Number());
    assert merge.chosen[3] == RequestViewOf(messages, j, full.Number());
  }

  function MergeOf(full: FullPrePrepare): Merge {
    Merge(map[3 := RequestView(full.request, full.Digest(), full.Number().view)], 0, 3)
  }

  // Reissuing around the proof for number 3 fills number 2 with the no-op.
  lemma FillsGap(s: NodeState, view: int, full: FullPrePrepare)
    ensures var nv := NewViewFor(CFG, 2, s, view, MergeOf(full));
      && SlotId(view, 2) in nv.message.prePrepares
      && nv.message.prePrepares[SlotId(view, 2)] == Reissued(CFG, 2, view, MergeOf(full), 2)
      && MPrePrepare(Reissued(CFG, 2, view, MergeOf(full), 2)) in Embedded({MNewView(nv)})
    ensures Reissued(CFG, 2, view, MergeOf(full), 2).Digest() == 1
    ensures Reissued(CFG, 2, view, MergeOf(full), 2).Number() == SlotId(view, 2)
  {
    var nv := NewViewFor(CFG, 2, s, view, MergeOf(full));
    assert SlotId(view, 2) in ReissuedNumbers(view, MergeOf(full));
    assert MNewView(nv) in {MNewView(nv)};
  }

  // The same as moves of an execution

  ghost predicate Goes(states: seq<System>, events: seq<Event>, nodes: map<NodeId, NodeState>, sent: set<Msg>) {
    FreshExecution(CFG, states, events) && Shows(states[|events|], nodes, sent)
  }

  lemma Move(states: seq<System>, events: seq<Event>, e: Event, nodes: map<NodeId, NodeState>, sent: set<Msg>)
    returns (states': seq<System>, events': seq<Event>)
    requires Goes(states, events, nodes, sent)
    requires e.node in nodes && (e.input.Receive? ==> e.input.msg in sent) && !e.input.HeartbeatReply?
    requires ChoiceOk(CFG, e.node, nodes[e.node], e.input, e.choice) && Fresh(CFG, e.node, nodes[e.node], e.input)
    ensures states <= states' && events' == events + [e]
    ensures var o := Step(CFG, e.node, nodes[e.node], e.input, e.choice);
      Goes(states', events', nodes[e.node := o.state], After(sent, o.sent))
  {
    hide Step, ChoiceOk, Fresh, Shows, After;
    states', events' := Take(states, events, e, nodes, sent);
  }

  lemma MoveTimeout(
    states: seq<System>, events: seq<Event>, nodes: map<NodeId, NodeState>, sent: set<Msg>, id: NodeId, view: int)
    returns (states': seq<System>, events': seq<Event>, sent': set<Msg>)
    requires Goes(states, events, nodes, sent) && id in nodes
    requires var s := nodes[id];
      !s.change.inProgress && !s.down && CFG.LeaderFor(s.view) != id && s.change.view <= s.view + 1 == view
    ensures states <= states' && events <= events' && sent <= sent'
    ensures Goes(states', events', nodes[id := Asking(nodes[id], nodes[id].change.messages, view)], sent')
    ensures MViewChange(ViewChangeFor(CFG, id, nodes[id], view)) in sent'
  {
    TimesOut(id, nodes[id], view);
    hide Step, ViewChangeFor, Goes, Embedded;
    states', events' := Move(states, events, Event(id, HeartbeatTimeout, NO_CHOICE), nodes, sent);
    sent' := After(sent, {MViewChange(ViewChangeFor(CFG, id, nodes[id], view))});
  }

  lemma MoveJoin(
    states: seq<System>, events: seq<Event>, nodes: map<NodeId, NodeState>, sent: set<Msg>, m: SignedViewChange,
    merge: Merge)
    returns (states': seq<System>, events': seq<Event>, sent': set<Msg>)
    requires Goes(states, events, nodes, sent) && 2 in nodes && MViewChange(m) in sent
    requires var s := nodes[2];
      && m.message.view > CurrentView(s) && s.change.view < m.message.view && !s.down
      && m.signature == By(m.message.node) && (m.message.node == 1 || m.message.node == 3)
      && (forall j :: j in s.change.messages && j != m.message.node ==>
            s.change.messages[j].message.view <= CurrentView(s))
      && IsMerge(s.lastCheckpoint.number.seqNo, Record(s, m).change.messages, merge)
    ensures states <= states' && events <= events' && sent <= sent'
    ensures Goes(states', events',
      nodes[2 := Asking(nodes[2], nodes[2].change.messages[m.message.node := m], m.message.view)], sent')
  {
    var e := Event(2, Receive(MViewChange(m)), Choice(merge, []));
    hide Goes, Embedded, IsMerge, Step, ChoiceOk, Fresh, Asking, Record, CurrentView;
    JoinStep(nodes[2], m, merge);
    states', events' := Move(states, events, e, nodes, sent);
    sent' := After(sent, Step(CFG, 2, nodes[2], e.input, e.choice).sent);
  }

  lemma JoinStep(s: NodeState, m: SignedViewChange, merge: Merge)
    requires m.message.view > CurrentView(s) && s.change.view < m.message.view && !s.down
    requires m.signature == By(m.message.node) && (m.message.node == 1 || m.message.node == 3)
    requires forall j :: j in s.change.messages && j != m.message.node ==>
      s.change.messages[j].message.view <= CurrentView(s)
    requires IsMerge(s.lastCheckpoint.number.seqNo, Record(s, m).change.messages, merge)
    ensures var input, choice := Receive(MViewChange(m)), Choice(merge, []);
      && ChoiceOk(CFG, 2, s, input, choice) && Fresh(CFG, 2, s, input)
      && Step(CFG, 2, s, input, choice).state == Asking(s, s.change.messages[m.message.node := m], m.message.view)
  {
    hide IsMerge, HandleViewChange, LeaderEntry;
    JoinsAlone(s, m, merge);
    JoinIsNoEntry(s, m);
  }

  lemma JoinIsNoEntry(s: NodeState, m: SignedViewChange)
    requires m.message.view > CurrentView(s)
    ensures !LeaderEntry(CFG, 2, s, m)
  {
    var above := Above(Record(s, m).change.messages, CurrentView(s));
    assert m.message.node in above;
    assert |above| >= 1;
  }

  lemma LeadsStep(s: NodeState, m: SignedViewChange, merge: Merge)
    requires s.change.inProgress && 1 <= m.message.view <= s.change.view && m.message.view < 0x1_0000_0000
    requires m.signature == By(m.message.node) && (m.message.node == 1 || m.message.node == 3)
    requires Record(s, m) == s && m.message.view > s.view
    requires IsMerge(s.lastCheckpoint.number.seqNo, s.change.messages, merge)
    ensures var input, choice := Receive(MViewChange(m)), Choice(merge, []);
      && ChoiceOk(CFG, 2, s, input, choice) && Fresh(CFG, 2, s, input)
      && Step(CFG, 2, s, input, choice) == BecomeLeader(CFG, 2, s, m.message.view, merge)
  {
    hide IsMerge, HandleViewChange, LeaderEntry, BecomeLeader;
    LeadsAlone(s, m, merge);
  }

  lemma MoveLead(
    states: seq<System>, events: seq<Event>, nodes: map<NodeId, NodeState>, sent: set<Msg>, m: SignedViewChange,
    merge: Merge)
    returns (states': seq<System>, events': seq<Event>, sent': set<Msg>)
    requires Goes(states, events, nodes, sent) && 2 in nodes && MViewChange(m) in sent
    requires var s := nodes[2];
      && s.change.inProgress && 1 <= m.message.view <= s.change.view && m.message.view < 0x1_0000_0000
      && m.signature == By(m.message.node) && (m.message.node == 1 || m.message.node == 3)
      && Record(s, m) == s && m.message.view > s.view
      && IsMerge(s.lastCheckpoint.number.seqNo, s.change.messages, merge)
    ensures states <= states' && events <= events'
    ensures var o := BecomeLeader(CFG, 2, nodes[2], m.message.view, merge);
      && Goes(states', events', nodes[2 := o.state], sent')
      && sent' == After(sent, o.sent)
  {
    var e := Event(2, Receive(MViewChange(m)), Choice(merge, []));
    hide Goes, Embedded, IsMerge, Step, ChoiceOk, Fresh, BecomeLeader;
    LeadsStep(nodes[2], m, merge);
    states', events' := Move(states, events, e, nodes, sent);
    sent' := After(sent, BecomeLeader(CFG, 2, nodes[2], m.message.view, merge).sent);
  }

  lemma MovePropose(
    states: seq<System>, events: seq<Event>, nodes: map<NodeId, NodeState>, sent: set<Msg>, id: NodeId, r: string)
    returns (states': seq<System>, events': seq<Event>, sent': set<Msg>)
    requires Goes(states, events, nodes, sent) && id in nodes && Allocates(CFG, id, nodes[id], r)
    ensures states <= states' && events <= events' && sent <= sent'
    ensures Goes(states', events', nodes[id := Numbered(id, nodes[id], r)], sent')
    ensures MPrePrepare(NextFull(CFG, id, nodes[id], r)) in sent'
  {
    ProposeStep(id, nodes[id], r);
    hide Step, NextFull, Goes, Embedded;
    states', events' := Move(states, events, Event(id, Propose(r), NO_CHOICE), nodes, sent);
    sent' := After(sent, {MPrePrepare(NextFull(CFG, id, nodes[id], r))});
  }

  lemma MoveAccept(
    states: seq<System>, events: seq<Event>, nodes: map<NodeId, NodeState>, sent: set<Msg>, id: NodeId,
    full: FullPrePrepare)
    returns (states': seq<System>, events': seq<Event>, sent': set<Msg>)
    requires Goes(states, events, nodes, sent) && id in nodes && MPrePrepare(full) in sent
    requires var s := nodes[id];
      Admissible(CFG, id, s, full) && full.Number() !in s.log && full.Number().seqNo > s.issued
    ensures states <= states' && events <= events' && sent <= sent'
    ensures Goes(states', events', nodes[id := Accepted(id, nodes[id], full)], sent')
    ensures MPrepare(PrepareFor(id, full)) in sent'
  {
    AcceptStep(id, nodes[id], full);
    hide Step, Goes, Embedded, Admissible, PrepareFor, Accepted;
    states', events' := Move(states, events, Event(id, Receive(MPrePrepare(full)), NO_CHOICE), nodes, sent);
    sent' := After(sent, {MPrepare(PrepareFor(id, full))});
  }

  lemma MoveFollow(
    states: seq<System>, events: seq<Event>, nodes: map<NodeId, NodeState>, sent: set<Msg>, id: NodeId,
    nv: SignedNewView)
    returns (states': seq<System>, events': seq<Event>)
    requires Goes(states, events, nodes, sent) && id in nodes && MNewView(nv) in sent
    requires nv.message.prePrepares == map[] && EntersByNewView(nodes[id], nv)
    ensures states <= states' && events <= events'
    ensures Goes(states', events', nodes[id := EnterNewView(nodes[id], nv.message.view)], sent)
  {
    FollowStep(id, nodes[id], nv);
    hide Step, Goes, EntersByNewView, EnterNewView;
    states', events' := Move(states, events, Event(id, Receive(MNewView(nv)), NO_CHOICE), nodes, sent);
    assert After(sent, {}) == sent;
  }

  // Two stretches both scripts go through

  // Node 2 before any view change: still in view 0, nothing checkpointed.
  predicate Early(b: NodeState) {
    b.view == 0 && b.change == INITIAL_CHANGE && !b.down && b.issued >= 1 && b.lastCheckpoint == INITIAL_CHECKPOINT
  }

  function Joined(b: NodeState): NodeState { Asking(b, map[3 := VC1], 1) }
  function FirstNewView(b: NodeState): SignedNewView { NewViewFor(CFG, 2, Joined(b), 1, NO_MERGE) }

  // Node 3 times out; node 2 joins and, when handed the vote again, enters view 1 with an empty set O.
  lemma ReachViewOne(
    states: seq<System>, events: seq<Event>, nodes: map<NodeId, NodeState>, sent: set<Msg>)
    returns (states': seq<System>, events': seq<Event>, sent': set<Msg>)
    requires Goes(states, events, nodes, sent)
    requires 2 in nodes && Early(nodes[2]) && 3 in nodes && nodes[3] == Start(3)
    ensures states <= states' && events <= events' && sent <= sent'
    ensures Goes(states', events',
      nodes[2 := Led(Joined(nodes[2]), 1)][3 := Asking(Start(3), map[], 1)], sent')
    ensures MViewChange(VC1) in sent' && MNewView(FirstNewView(nodes[2])) in sent'
    ensures FirstNewView(nodes[2]).message.prePrepares == map[]
  {
    hide Goes, IsMerge, BecomeLeader, NewViewFor, Led, Joined, Embedded;
    var joined := nodes[3 := Asking(Start(3), map[], 1)][2 := Joined(nodes[2])];
    states', events', sent' := ReachJoined(states, events, nodes, sent);
    JoinedLeads(nodes[2]);
    states', events', sent' := MoveLead(states', events', joined, sent', VC1, NO_MERGE);
    assert joined[2 := Led(Joined(nodes[2]), 1)] ==
      nodes[2 := Led(Joined(nodes[2]), 1)][3 := Asking(Start(3), map[], 1)];
  }

  lemma JoinedLeads(b: NodeState)
    requires Early(b)
    ensures var s := Joined(b);
      && s.change.inProgress && s.change.view == 1 && Record(s, VC1) == s && s.view == 0
      && s.lastCheckpoint == INITIAL_CHECKPOINT && IsMerge(0, s.change.messages, NO_MERGE)
      && BecomeLeader(CFG, 2, s, 1, NO_MERGE) == Send(Led(s, 1), {MNewView(FirstNewView(b))})
      && FirstNewView(b).message.prePrepares == map[]
  {
    assert Joined(b).change.messages[3 := VC1] == Joined(b).change.messages;
    hide IsMerge, BecomeLeader, NewViewFor, Led;
    NoProofsMerge(map[3 := VC1]);
    LeadStep(Joined(b), 1);
  }

  lemma ReachJoined(
    states: seq<System>, events: seq<Event>, nodes: map<NodeId, NodeState>, sent: set<Msg>)
    returns (states': seq<System>, events': seq<Event>, sent': set<Msg>)
    requires Goes(states, events, nodes, sent)
    requires 2 in nodes && Early(nodes[2]) && 3 in nodes && nodes[3] == Start(3)
    ensures states <= states' && events <= events' && sent <= sent'
    ensures Goes(states', events', nodes[3 := Asking(Start(3), map[], 1)][2 := Joined(nodes[2])], sent')
    ensures MViewChange(VC1) in sent'
  {
    hide Goes, IsMerge, ViewChangeFor, Asking;
    VC1IsEmpty();
    NoProofsMerge(map[3 := VC1]);
    states', events', sent' := MoveTimeout(states, events, nodes, sent, 3, 1);
    states', events', sent' :=
      MoveJoin(states', events', nodes[3 := Asking(Start(3), map[], 1)], sent', VC1, NO_MERGE);
  }

  // Node 2 in view 1, about to give number 3 to a request.
  predicate Leading(b: NodeState) {
    && b.view == 1 && b.issued == 2 && !b.down && !b.change.inProgress && b.change.view == 1
    && 3 !in b.requests && b.lastCheckpoint == INITIAL_CHECKPOINT
  }

  // A node with an empty log that has yet to enter view 1.
  predicate Waiting(c: NodeState) {
    && c.view == 0 && c.issued == 1 && c.log == map[] && !c.down && c.lastCheckpoint == INITIAL_CHECKPOINT
    && (c.change.inProgress ==> c.change.view == 1) && c.change.view <= 1
  }

  const THIRD := FullPrePrepare(SignedPrePrepare(PrePrepare(SlotId(1, 3), 3), By(2)), "bb")

  predicate ProvesThird(vc: SignedViewChange, h: NodeId) {
    && vc.signature == By(h) && vc.message.node == h && vc.message.view == 2
    && vc.message.checkpoint == SlotId(0, 0)
    && vc.message.proofs.Keys == {SlotId(1, 3)}
    && vc.message.proofs[SlotId(1, 3)].request == "bb" && vc.message.proofs[SlotId(1, 3)].digest == 3
  }

  lemma HelperAdmits(h: NodeId, c: NodeState)
    requires (h == 1 || h == 3) && Waiting(c)
    ensures Admissible(CFG, h, EnterNewView(c, 1), THIRD)
  {
  }

  // Node h enters view 1, prepares number 3, and times out.
  lemma HelperAsks(
    states: seq<System>, events: seq<Event>, nodes: map<NodeId, NodeState>, sent: set<Msg>, h: NodeId,
    nv: SignedNewView)
    returns (states': seq<System>, events': seq<Event>, sent': set<Msg>, c: NodeState, vc: SignedViewChange)
    requires Goes(states, events, nodes, sent) && (h == 1 || h == 3) && h in nodes
    requires Waiting(nodes[h]) && MNewView(nv) in sent && MPrePrepare(THIRD) in sent
    requires nv.message.view == 1 && nv.message.prePrepares == map[]
    ensures states <= states' && events <= events' && sent <= sent'
    ensures ProvesThird(vc, h) && MViewChange(vc) in sent'
    ensures Goes(states', events', nodes[h := c], sent')
  {
    hide Goes;
    var c1 := EnterNewView(nodes[h], 1);
    var c2 := Accepted(h, c1, THIRD);
    HelperAdmits(h, nodes[h]);
    OneProof(h, c2, THIRD, 2);
    vc := ViewChangeFor(CFG, h, c2, 2);
    hide ViewChangeFor, Admissible;
    states', events' := MoveFollow(states, events, nodes, sent, h, nv);
    states', events', sent' := MoveAccept(states', events', nodes[h := c1], sent, h, THIRD);
    assert nodes[h := c1][h := c2] == nodes[h := c2];
    states', events', sent' := MoveTimeout(states', events', nodes[h := c2], sent', h, 2);
    c := Asking(c2, c2.change.messages, 2);
    assert nodes[h := c2][h := c] == nodes[h := c];
  }

  // Node 2 numbers a request; node h prepares it and times out; node 2 joins its view change.
  lemma HelperPrepares(
    states: seq<System>, events: seq<Event>, nodes: map<NodeId, NodeState>, sent: set<Msg>, h: NodeId,
    nv: SignedNewView)
    returns (states': seq<System>, events': seq<Event>, sent': set<Msg>, c: NodeState, vc: SignedViewChange)
    requires Goes(states, events, nodes, sent) && (h == 1 || h == 3) && 2 in nodes && h in nodes
    requires Leading(nodes[2]) && Waiting(nodes[h]) && MNewView(nv) in sent
    requires nv.message.view == 1 && nv.message.prePrepares == map[]
    requires forall j :: j in nodes[2].change.messages && j != h ==> nodes[2].change.messages[j].message.view <= 1
    ensures states <= states' && events <= events' && sent <= sent'
    ensures ProvesThird(vc, h) && MViewChange(vc) in sent'
    ensures var b := Numbered(2, nodes[2], "bb");
      Goes(states', events', nodes[h := c][2 := Asking(b, nodes[2].change.messages[h := vc], 2)], sent')
  {
    hide Goes, Waiting;
    var b := Numbered(2, nodes[2], "bb");
    assert NextFull(CFG, 2, nodes[2], "bb") == THIRD;
    states', events', sent' := MovePropose(states, events, nodes, sent, 2, "bb");
    hide Leading;
    states', events', sent', c, vc := HelperAsks(states', events', nodes[2 := b], sent', h, nv);
    var merge := MergeExists(b.lastCheckpoint.number.seqNo, Record(b, vc).change.messages);
    hide IsMerge;
    states', events', sent' := MoveJoin(states', events', nodes[2 := b][h := c], sent', vc, merge);
    var last := Asking(b, nodes[2].change.messages[h := vc], 2);
    assert nodes[2 := b][h := c][2 := last] == nodes[h := c][2 := last];
  }

  const START: map<NodeId, NodeState> := map[1 := Start(1), 2 := Start(2), 3 := Start(3)]

  lemma Begin() returns (states: seq<System>)
    ensures |states| == 1 && Goes(states, [], START, {})
  {
    hide START, FreshExecution;
    InitialNodes();
    states := [System(START, {})];
    EmptyExecution(CFG, System(START, {}));
  }

  lemma InitialNodes()
    ensures forall id :: id in START <==> id in CFG.nodes
    ensures forall id :: id in START ==> START[id] == Initial(CFG, id)
  {
    hide Initial;
  }

  // Node 2, changing to view 2, is handed a vote and enters the vote's view with the gap at number 2 filled.
  lemma EntersOverGap(s: NodeState, m: SignedViewChange, j: NodeId)
    requires s.change.inProgress && s.change.view == 2 && s.lastCheckpoint == INITIAL_CHECKPOINT
    requires 1 <= m.message.view <= 2 && m.signature == By(m.message.node) && m.message.node == 3
    requires Record(s, m) == s && j in s.change.messages && ProvesThird(s.change.messages[j], j)
    requires forall i :: i in s.change.messages && i != j ==> s.change.messages[i] == VC1
    ensures IsMerge(0, s.change.messages, MergeOf(THIRD))
    ensures LeaderEntry(CFG, 2, s, m)
    ensures var o := BecomeLeader(CFG, 2, s, m.message.view, MergeOf(THIRD));
      && HandleViewChange(CFG, 2, s, m, MergeOf(THIRD)) == o
      && MPrePrepare(Reissued(CFG, 2, m.message.view, MergeOf(THIRD), 2)) in Embedded(o.sent)
    ensures var full := Reissued(CFG, 2, m.message.view, MergeOf(THIRD), 2);
      full.Number() == SlotId(m.message.view, 2) && full.Digest() == 1 && !full.IsHeartbeat()
  {
    OneProofMerge(s.change.messages, j, THIRD);
    LeadsAlone(s, m, MergeOf(THIRD));
    FillsGap(s, m.message.view, THIRD);
  }

  /**
   A leader that is handed an old vote again may re-enter the view it is in, and then issues a second pre-prepare for
   a slot of that view, with another digest. All entries before that last one are fresh.
   */
  lemma AgreementNeedsFreshness()
    returns (states: seq<System>, events: seq<Event>, f: FullPrePrepare, g: FullPrePrepare)
    ensures Execution(CFG, states, events) && |events| > 0
    ensures FreshExecution(CFG, states[..|events|], events[..|events| - 1])
    ensures !FreshEvent(CFG, states[|events| - 1], events[|events| - 1])
    ensures Issued(states[|events|].sent, f) && Issued(states[|events|].sent, g)
    ensures f.Number() == g.Number() && f.Digest() != g.Digest()
  {
    hide Goes, Execution, FreshExecution, ProvesThird;
    var nodes, sent;
    states, events, nodes, sent, f := BeforeReentry();
    EntersOverGap(nodes[2], VC1, 1);
    g := Reissued(CFG, 2, 1, MergeOf(THIRD), 2);
    states, events := Reenter(states, events, nodes, sent);
  }

  // Up to the point where node 2 has given number 2 of view 1 to a request, and is changing to view 2.
  lemma BeforeReentry() returns (
    states: seq<System>, events: seq<Event>, nodes: map<NodeId, NodeState>, sent: set<Msg>, f: FullPrePrepare)
    ensures Goes(states, events, nodes, sent) && 2 in nodes && MViewChange(VC1) in sent
    ensures MPrePrepare(f) in sent && f.Number() == SlotId(1, 2) && f.Digest() == 2
    ensures var s := nodes[2];
      && s.view == 1 && s.change.inProgress && s.change.view == 2 && s.lastCheckpoint == INITIAL_CHECKPOINT
      && Record(s, VC1) == s && 1 in s.change.messages && ProvesThird(s.change.messages[1], 1)
      && (forall i :: i in s.change.messages && i != 1 ==> s.change.messages[i] == VC1)
  {
    hide Goes, ProvesThird, Led, Joined, Waiting, NewViewFor;
    var vc, c;
    states, events, nodes, sent, f := FirstRequest();
    var b := nodes[2];
    states, events, sent, c, vc := HelperPrepares(states, events, nodes, sent, 1, FirstNewView(Start(2)));
    nodes := nodes[1 := c][2 := Asking(Numbered(2, b, "bb"), b.change.messages[1 := vc], 2)];
    assert b.change.messages[1 := vc][3 := VC1] == b.change.messages[1 := vc];
  }

  lemma FirstRequest() returns (
    states: seq<System>, events: seq<Event>, nodes: map<NodeId, NodeState>, sent: set<Msg>, f: FullPrePrepare)
    ensures Goes(states, events, nodes, sent) && 1 in nodes && 2 in nodes
    ensures MViewChange(VC1) in sent && MNewView(FirstNewView(Start(2))) in sent
    ensures FirstNewView(Start(2)).message.prePrepares == map[] && FirstNewView(Start(2)).message.view == 1
    ensures MPrePrepare(f) in sent && f.Number() == SlotId(1, 2) && f.Digest() == 2
    ensures Leading(nodes[2]) && Waiting(nodes[1]) && nodes[2].change.messages == map[3 := VC1]
  {
    hide Goes;
    states := Begin();
    states, events, sent := ReachViewOne(states, [], START, {});
    var b := Led(Joined(Start(2)), 1);
    nodes := START[2 := b][3 := Asking(Start(3), map[], 1)];
    f := NextFull(CFG, 2, b, "a");
    states, events, sent := MovePropose(states, events, nodes, sent, 2, "a");
    nodes := nodes[2 := Numbered(2, b, "a")];
  }

  lemma Reenter(states: seq<System>, events: seq<Event>, nodes: map<NodeId, NodeState>, sent: set<Msg>)
    returns (states': seq<System>, events': seq<Event>)
    requires Goes(states, events, nodes, sent) && 2 in nodes && MViewChange(VC1) in sent && nodes[2].view == 1
    requires LeaderEntry(CFG, 2, nodes[2], VC1) && nodes[2].lastCheckpoint == INITIAL_CHECKPOINT
    requires Record(nodes[2], VC1) == nodes[2] && IsMerge(0, nodes[2].change.messages, MergeOf(THIRD))
    ensures Execution(CFG, states', events') && |events'| > 0
    ensures FreshExecution(CFG, states'[..|events'|], events'[..|events'| - 1])
    ensures !FreshEvent(CFG, states'[|events'| - 1], events'[|events'| - 1])
    ensures var o := BecomeLeader(CFG, 2, nodes[2], 1, MergeOf(THIRD));
      sent + Embedded(o.sent) <= states'[|events'|].sent
  {
    var e := Event(2, Receive(MViewChange(VC1)), Choice(MergeOf(THIRD), []));
    hide IsMerge, LeaderEntry, Step, ChoiceOk, BecomeLeader, Fresh;
    ReenterStep(nodes[2]);
    states', events' := Take(states, events, e, nodes, sent);
    assert states'[..|events'|] == states && events'[..|events'| - 1] == events;
  }

  lemma ReenterStep(s: NodeState)
    requires LeaderEntry(CFG, 2, s, VC1) && s.lastCheckpoint == INITIAL_CHECKPOINT && s.view == 1
    requires Record(s, VC1) == s && IsMerge(0, s.change.messages, MergeOf(THIRD))
    ensures var input, choice := Receive(MViewChange(VC1)), Choice(MergeOf(THIRD), []);
      && ChoiceOk(CFG, 2, s, input, choice) && !Fresh(CFG, 2, s, input)
      && Step(CFG, 2, s, input, choice) == BecomeLeader(CFG, 2, s, 1, MergeOf(THIRD))
  {
    hide IsMerge, LeaderEntry, HandleViewChange, BecomeLeader;
    LeaderEntryOutcome(s, VC1, MergeOf(THIRD));
  }

  lemma LeaderEntryOutcome(s: NodeState, m: SignedViewChange, merge: Merge)
    requires LeaderEntry(CFG, 2, s, m)
    ensures HandleViewChange(CFG, 2, s, m, merge) == BecomeLeader(CFG, 2, Record(s, m), m.message.view, merge)
  {
  }

  // One node, handed an old vote again: the same request is delivered twice for one slot.

  const FIRST := FullPrePrepare(SignedPrePrepare(PrePrepare(SlotId(0, 2), 2), By(1)), "a")

  const PROOF := PreparedProof(SlotId(0, 2), "a", FIRST.signed, 2, map[])
  const VOTE1 := SignedViewChange(ViewChange(1, SlotId(0, 0), map[], map[SlotId(0, 2) := PROOF], 3), By(3))
  const VOTE2 := SignedViewChange(ViewChange(2, SlotId(0, 0), map[], map[], 1), By(1))
  const COMMIT3 := SignedCommit(Commit(SlotId(1, 2), 2, 3), By(3))
  const MERGE := Merge(map[2 := RequestView("a", 2, 0)], 0, 2)

  lemma VoteMerge(messages: map<NodeId, SignedViewChange>)
    requires 3 in messages && messages[3] == VOTE1
    requires forall j :: j in messages && j != 3 ==> messages[j] == VOTE2
    ensures IsMerge(0, messages, MERGE)
  {
    assert ProofIn(messages, 3, SlotId(0, 2));
    assert MERGE.chosen[2] == RequestViewOf(messages, 3, SlotId(0, 2));
  }

  // Changing views, with the old vote still on record.
  predicate Holding(s: NodeState) {
    && s.change.inProgress && s.change.view >= 1 && s.lastCheckpoint == INITIAL_CHECKPOINT && !s.down
    && 3 in s.change.messages && s.change.messages[3] == VOTE1
    && forall j :: j in s.change.messages && j != 3 ==> s.change.messages[j] == VOTE2
  }

  lemma Reissues(s: NodeState)
    ensures var t := BecomeLeader(CFG, 2, s, 1, MERGE).state;
      && t == EnterNewView(s, 1).(log := t.log, issued := t.issued, newView := t.newView, caughtUp := t.caughtUp)
      && SlotId(1, 2) in t.log && t.log[SlotId(1, 2)] == IssuedSlot(Reissued(CFG, 2, 1, MERGE, 2))
  {
    var pps := NewViewPrePrepares(CFG, 2, 1, MERGE);
    assert SlotId(1, 2) in ReissuedNumbers(1, MERGE);
    assert SlotId(1, 2) in pps;
  }

  lemma Commits(t: NodeState)
    requires t.view == 1 && !t.change.inProgress && t.lastCheckpoint == INITIAL_CHECKPOINT
    requires SlotId(1, 2) in t.log && t.log[SlotId(1, 2)] == IssuedSlot(Reissued(CFG, 2, 1, MERGE, 2))
    ensures var o := HandleCommit(CFG, 2, t, COMMIT3);
      && o.state == t.(log := o.state.log, sequenceNumber := o.state.sequenceNumber)
      && Delivers(o, SlotId(1, 2))
  {
  }

  const AGAIN := Receive(MViewChange(VOTE1))
  const COMMITTED := Receive(MCommit(COMMIT3))
  const REISSUE := Choice(MERGE, [])

  lemma RoundEnters(s: NodeState)
    requires Holding(s)
    ensures ChoiceOk(CFG, 2, s, AGAIN, REISSUE) && (s.view >= 1 ==> !Fresh(CFG, 2, s, AGAIN))
    ensures Step(CFG, 2, s, AGAIN, REISSUE).state == BecomeLeader(CFG, 2, s, 1, MERGE).state
  {
    VoteMerge(s.change.messages);
    assert s.change.messages[3 := VOTE1] == s.change.messages;
    LeadsAlone(s, VOTE1, MERGE);
    hide IsMerge, HandleViewChange, BecomeLeader, LeaderEntry;
  }

  // The vote makes the node enter view 1, and a commit makes it deliver.
  lemma RoundDelivers(s: NodeState)
    requires Holding(s)
    ensures var t := BecomeLeader(CFG, 2, s, 1, MERGE).state;
      && ChoiceOk(CFG, 2, t, COMMITTED, REISSUE)
      && var o := Step(CFG, 2, t, COMMITTED, REISSUE);
         && Delivers(o, SlotId(1, 2))
         && o.state.change == s.change.(inProgress := false) && o.state.view == 1
         && o.state.lastCheckpoint == INITIAL_CHECKPOINT && !o.state.down
  {
    Reissues(s);
    var t := BecomeLeader(CFG, 2, s, 1, MERGE).state;
    Commits(t);
    CommitStep(t);
    hide BecomeLeader, HandleCommit, Delivers, Step, ChoiceOk;
  }

  lemma CommitStep(t: NodeState)
    ensures ChoiceOk(CFG, 2, t, COMMITTED, REISSUE)
    ensures Step(CFG, 2, t, COMMITTED, REISSUE) == HandleCommit(CFG, 2, t, COMMIT3)
  {
  }

  lemma Round(states: seq<NodeState>, stimuli: seq<Stimulus>)
    returns (states': seq<NodeState>, stimuli': seq<Stimulus>)
    requires Run(CFG, 2, states, stimuli) && Holding(states[|stimuli|])
    ensures var n, s := |stimuli|, states[|stimuli|];
      && Run(CFG, 2, states', stimuli') && |stimuli'| == n + 2 && states <= states' && stimuli <= stimuli'
      && (s.view >= 1 ==> !Fresh(CFG, 2, s, stimuli'[n].input))
      && Delivers(Step(CFG, 2, states'[n + 1], stimuli'[n + 1].input, stimuli'[n + 1].choice), SlotId(1, 2))
      && states'[n + 2].change == s.change.(inProgress := false) && states'[n + 2].view == 1
      && states'[n + 2].lastCheckpoint == INITIAL_CHECKPOINT && !states'[n + 2].down
  {
    RoundEnters(states[|stimuli|]);
    RoundDelivers(states[|stimuli|]);
    hide Step, ChoiceOk, Fresh, Delivers, BecomeLeader, Holding;
    states', stimuli' := StepRun(2, states, stimuli, AGAIN, MERGE);
    states', stimuli' := StepRun(2, states', stimuli', COMMITTED, MERGE);
  }

  lemma StepRun(id: NodeId, states: seq<NodeState>, stimuli: seq<Stimulus>, input: Input, merge: Merge)
    returns (states': seq<NodeState>, stimuli': seq<Stimulus>)
    requires Run(CFG, id, states, stimuli)
    requires ChoiceOk(CFG, id, states[|stimuli|], input, Choice(merge, []))
    ensures Run(CFG, id, states', stimuli')
    ensures stimuli' == stimuli + [Stimulus(input, Choice(merge, []))]
    ensures states' == states + [Step(CFG, id, states[|stimuli|], input, Choice(merge, [])).state]
  {
    hide Step, ChoiceOk;
    var next := Stimulus(input, Choice(merge, []));
    stimuli' := stimuli + [next];
    states' := states + [Step(CFG, id, states[|stimuli|], input, next.choice).state];
  }

  lemma JoinMerge(s: NodeState, m: SignedViewChange)
    requires s.lastCheckpoint == INITIAL_CHECKPOINT && (m == VOTE1 || m == VOTE2)
    requires forall j :: j in s.change.messages ==> j == 3 && s.change.messages[j] == VOTE1
    requires m == VOTE2 ==> 3 in s.change.messages
    ensures IsMerge(0, Record(s, m).change.messages, MERGE)
  {
    VoteMerge(Record(s, m).change.messages);
  }

  /** Without fresh leader entries a request may be delivered twice for one slot. */
  lemma DeliveryNeedsFreshness() returns (states: seq<NodeState>, stimuli: seq<Stimulus>)
    ensures Run(CFG, 2, states, stimuli) && |stimuli| == 6
    ensures !Fresh(CFG, 2, states[4], stimuli[4].input)
    ensures Delivers(Step(CFG, 2, states[2], stimuli[2].input, stimuli[2].choice), SlotId(1, 2))
    ensures Delivers(Step(CFG, 2, states[5], stimuli[5].input, stimuli[5].choice), SlotId(1, 2))
  {
    EmptyRun(CFG, 2);
    JoinMerge(Start(2), VOTE1);
    JoinsAlone(Start(2), VOTE1, MERGE);
    hide IsMerge, HandleViewChange, Run, Fresh, Delivers;
    states, stimuli := StepRun(2, [Start(2)], [], Receive(MViewChange(VOTE1)), MERGE);
    hide HandleMessage;
    states, stimuli := Round(states, stimuli);
    states, stimuli := JoinAgain(states, stimuli);
    states, stimuli := Round(states, stimuli);
  }

  lemma JoinAgain(states: seq<NodeState>, stimuli: seq<Stimulus>)
    returns (states': seq<NodeState>, stimuli': seq<Stimulus>)
    requires Run(CFG, 2, states, stimuli)
    requires var s := states[|stimuli|];
      && s.change == ViewChangeInfo(map[3 := VOTE1], false, 1) && s.view == 1 && !s.down
      && s.lastCheckpoint == INITIAL_CHECKPOINT
    ensures Run(CFG, 2, states', stimuli') && |stimuli'| == |stimuli| + 1
    ensures states <= states' && stimuli <= stimuli'
    ensures Holding(states'[|stimuli'|]) && states'[|stimuli'|].view == 1
  {
    var s := states[|stimuli|];
    JoinMerge(s, VOTE2);
    JoinsAlone(s, VOTE2, MERGE);
    hide IsMerge, HandleViewChange, Run;
    states', stimuli' := StepRun(2, states, stimuli, Receive(MViewChange(VOTE2)), MERGE);
  }
}
