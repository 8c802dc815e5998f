/**
 Four nodes, none of which misbehaves, with every leader entry fresh. Two of them, one short of 2f + 1, have a request
 prepared and one delivers it; the next leader hears from the other two, and gives the number to the no-op.
 Node 1 leads view 0, node 2 leads every other view.
 */
module QuorumCounterexample {
  import opened Types
  import opened Replica
  import opened NodeRuns
  import opened Cluster
  import opened ClusterInvariants
  import opened MergeResults
  import opened Quorums
  import opened QuorumLocking

  const FOUR := Config([1, 2, 3, 4], v => if v == 0 then 0 else 1, s => |s| + 1)

  const K2 := SlotId(0, 2)
  const K3 := SlotId(0, 3)
  const FIRST := FullPrePrepare(SignedPrePrepare(PrePrepare(K2, 2), By(1)), "a")
  const SECOND := FullPrePrepare(SignedPrePrepare(PrePrepare(K3, 3), By(1)), "bb")
  const COMMIT1 := CommitFor(1, PrepareFor(3, FIRST).message)
  const COMMIT2 := CommitFor(2, PrepareFor(3, FIRST).message)
  const COMMIT3 := CommitFor(3, PrepareFor(4, SECOND).message)

  const NO_CHOICE := Choice(Merge(map[], 0, 0), [])

  // The states the nodes go through

  function Start(id: NodeId): NodeState { Initial(FOUR, id) }

  function One(slot: Slot): NodeState {
    Start(1).(requests := {2, 3}, issued := 3, log := map[K2 := slot, K3 := IssuedSlot(SECOND)])
  }
  const ONE_ISSUED := Start(1).(requests := {2}, issued := 2, log := map[K2 := IssuedSlot(FIRST)])
  const ONE_WAITING := PrepareInto(IssuedSlot(FIRST), PrepareFor(2, FIRST))
  const ONE_PREPARED :=
    PrepareInto(ONE_WAITING, PrepareFor(3, FIRST)).(prepared := true, commits := map[1 := COMMIT1])
  const ONE_COMMITTED := CommitInto(ONE_PREPARED, COMMIT2).(committed := true)

  function Two(slot: Slot): NodeState { Start(2).(issued := 2, log := map[K2 := slot]) }
  const TWO_ACCEPTED := AcceptInto(2, EMPTY_SLOT, FIRST)
  const TWO_PREPARED :=
    PrepareInto(TWO_ACCEPTED, PrepareFor(3, FIRST)).(prepared := true, commits := map[2 := COMMIT2])

  const THREE_FIRST := Start(3).(issued := 2, log := map[K2 := AcceptInto(3, EMPTY_SLOT, FIRST)])
  function Three(slot: Slot): NodeState {
    Start(3).(issued := 3, log := map[K2 := AcceptInto(3, EMPTY_SLOT, FIRST), K3 := slot])
  }
  const THREE_ACCEPTED := AcceptInto(3, EMPTY_SLOT, SECOND)
  const THREE_PREPARED :=
    PrepareInto(THREE_ACCEPTED, PrepareFor(4, SECOND)).(prepared := true, commits := map[3 := COMMIT3])

  const FOUR_ACCEPTED := Start(4).(issued := 3, log := map[K3 := AcceptInto(4, EMPTY_SLOT, SECOND)])

  function Asking(s: NodeState, messages: map<NodeId, SignedViewChange>): NodeState {
    s.(change := ViewChangeInfo(messages, true, 1))
  }

  // What they do

  lemma Proposals()
    ensures ChoiceOk(FOUR, 1, Start(1), Propose("a"), NO_CHOICE)
    ensures ChoiceOk(FOUR, 1, ONE_ISSUED, Propose("bb"), NO_CHOICE)
    ensures Step(FOUR, 1, Start(1), Propose("a"), NO_CHOICE) == Send(ONE_ISSUED, {MPrePrepare(FIRST)})
    ensures Step(FOUR, 1, ONE_ISSUED, Propose("bb"), NO_CHOICE) ==
      Send(One(IssuedSlot(FIRST)), {MPrePrepare(SECOND)})
  {
    assert NextFull(FOUR, 1, Start(1), "a") == FIRST;
    assert NextFull(FOUR, 1, ONE_ISSUED, "bb") == SECOND;
  }

  lemma Accepts(id: NodeId, s: NodeState, full: FullPrePrepare)
    requires id == 2 || id == 3 || id == 4
    requires s.view == 0 && !s.change.inProgress && s.lastCheckpoint == INITIAL_CHECKPOINT
    requires (full == FIRST || full == SECOND) && full.Number() !in s.log && full.Number().seqNo > s.issued
    ensures Step(FOUR, id, s, Receive(MPrePrepare(full)), NO_CHOICE) ==
      Send(s.(issued := full.Number().seqNo, log := s.log[full.Number() := AcceptInto(id, EMPTY_SLOT, full)]),
           {MPrepare(PrepareFor(id, full))})
  {
    assert Admissible(FOUR, id, s, full);
  }

  lemma TwoPrepares()
    ensures Step(FOUR, 2, Two(TWO_ACCEPTED), Receive(MPrepare(PrepareFor(3, FIRST))), NO_CHOICE) ==
      Send(Two(TWO_PREPARED), {MCommit(COMMIT2)})
  {
    assert |map[2 := PrepareFor(2, FIRST)][3 := PrepareFor(3, FIRST)]| == 2;
  }

  lemma ThreePrepares()
    ensures Step(FOUR, 3, Three(THREE_ACCEPTED), Receive(MPrepare(PrepareFor(4, SECOND))), NO_CHOICE) ==
      Send(Three(THREE_PREPARED), {MCommit(COMMIT3)})
  {
    ThreeCounts();
    hide IsPrepared;
    assert Three(THREE_ACCEPTED).log[K3 := THREE_PREPARED] == Three(THREE_PREPARED).log;
  }

  lemma ThreeCounts()
    ensures IsPrepared(FOUR, PrepareInto(THREE_ACCEPTED, PrepareFor(4, SECOND)))
  {
    assert |map[3 := PrepareFor(3, SECOND)][4 := PrepareFor(4, SECOND)]| == 2;
  }

  lemma OneCounts()
    ensures !IsPrepared(FOUR, ONE_WAITING)
    ensures IsPrepared(FOUR, PrepareInto(ONE_WAITING, PrepareFor(3, FIRST)))
  {
    assert |map[2 := PrepareFor(2, FIRST)]| == 1;
    assert |map[2 := PrepareFor(2, FIRST)][3 := PrepareFor(3, FIRST)]| == 2;
  }

  lemma OnePrepares()
    ensures Step(FOUR, 1, One(IssuedSlot(FIRST)), Receive(MPrepare(PrepareFor(2, FIRST))), NO_CHOICE) ==
      Send(One(ONE_WAITING), {})
  {
    OneCounts();
    hide IsPrepared;
    assert One(IssuedSlot(FIRST)).log[K2 := ONE_WAITING] == One(ONE_WAITING).log;
  }

  lemma OnePreparesAgain()
    ensures Step(FOUR, 1, One(ONE_WAITING), Receive(MPrepare(PrepareFor(3, FIRST))), NO_CHOICE) ==
      Send(One(ONE_PREPARED), {MCommit(COMMIT1)})
  {
    OneCounts();
    hide IsPrepared;
    assert One(ONE_WAITING).log[K2 := ONE_PREPARED] == One(ONE_PREPARED).log;
  }

  lemma OneDelivers()
    ensures Step(FOUR, 1, One(ONE_PREPARED), Receive(MCommit(COMMIT2)), NO_CHOICE) ==
      Outcome(One(ONE_COMMITTED).(sequenceNumber := 2), {}, Some(Delivery(K2, Some("a"))), None, None)
  {
    TwoCommits();
    hide IsCommitted;
    assert One(ONE_PREPARED).log[K2 := ONE_COMMITTED] == One(ONE_COMMITTED).log;
  }

  lemma TwoCommits()
    ensures IsCommitted(FOUR, CommitInto(ONE_PREPARED, COMMIT2))
  {
    assert |map[1 := COMMIT1][2 := COMMIT2]| == 2;
  }

  lemma TimesOut(id: NodeId, s: NodeState)
    requires id != 1 && s.view == 0 && s.change == INITIAL_CHANGE && !s.down
    ensures Step(FOUR, id, s, HeartbeatTimeout, NO_CHOICE) ==
      Send(Asking(s, map[]), {MViewChange(ViewChangeFor(FOUR, id, s, 1))})
  {
  }

  // The votes

  function Vote2(): SignedViewChange { ViewChangeFor(FOUR, 2, Two(TWO_PREPARED), 1) }
  function Vote3(): SignedViewChange { ViewChangeFor(FOUR, 3, Three(THREE_PREPARED), 1) }
  function Vote4(): SignedViewChange { ViewChangeFor(FOUR, 4, FOUR_ACCEPTED, 1) }

  lemma VotesSay()
    ensures Vote2().message.node == 2 && K2 in Vote2().message.proofs
    ensures Vote3().message.node == 3 && Vote3().message.view == 1 && Vote3().signature == By(3)
    ensures Vote3().message.checkpoint == SlotId(0, 0) && Vote3().message.proofs.Keys == {K3}
    ensures Vote3().message.proofs[K3].request == "bb" && Vote3().message.proofs[K3].digest == 3
    ensures Vote4().message.node == 4 && Vote4().message.view == 1 && Vote4().signature == By(4)
    ensures Vote4().message.checkpoint == SlotId(0, 0) && Vote4().message.proofs == map[]
  {
    TwoShows();
    ThreeShows();
    FourShows();
  }

  lemma TwoShows()
    ensures HasProof(FOUR, Two(TWO_PREPARED), K2)
  {
    assert |map[2 := PrepareFor(2, FIRST)][3 := PrepareFor(3, FIRST)]| == 2;
  }

  lemma ThreeShows()
    ensures forall k :: HasProof(FOUR, Three(THREE_PREPARED), k) <==> k == K3
  {
    assert |map[3 := PrepareFor(3, FIRST)]| == 1;
    assert |map[3 := PrepareFor(3, SECOND)][4 := PrepareFor(4, SECOND)]| == 2;
  }

  lemma FourShows()
    ensures forall k :: !HasProof(FOUR, FOUR_ACCEPTED, k)
  {
    assert |map[4 := PrepareFor(4, SECOND)]| == 1;
  }

  function Votes(): map<NodeId, SignedViewChange> { map[3 := Vote3(), 4 := Vote4()] }
  const MERGE := Merge(map[3 := RequestView("bb", 3, 0)], 0, 3)

  lemma VotesMerge()
    ensures IsMerge(0, Votes(), MERGE)
  {
    VotesSay();
    hide Vote2, Vote3, Vote4;
    var votes := Votes();
    assert ProofIn(votes, 3, K3);
    assert MERGE.chosen[3] == RequestViewOf(votes, 3, K3);
    assert forall j, k :: ProofIn(votes, j, k) ==> j == 3 && k == K3;
  }

  const UNDECIDED := Asking(Two(TWO_PREPARED), map[])
  function OneVote(): NodeState { Asking(Two(TWO_PREPARED), map[3 := Vote3()]) }
  function Entry(): Input { Receive(MViewChange(Vote4())) }
  const FILLER := Reissued(FOUR, 2, 1, MERGE, 2)

  lemma OneVoteIsNotEnough(merge: Merge)
    ensures !EntersAsLeader(FOUR, 2, UNDECIDED, Receive(MViewChange(Vote3())))
    ensures HandleViewChange(FOUR, 2, UNDECIDED, Vote3(), merge) == Quiet(OneVote())
  {
    VotesSay();
    hide Vote2, Vote3, Vote4;
    assert Record(UNDECIDED, Vote3()) == OneVote();
    assert Voters(map[3 := Vote3()], 1) == {3};
  }

  lemma OneVoteStep() returns (merge: Merge)
    ensures var input, choice := Receive(MViewChange(Vote3())), Choice(merge, []);
      && ChoiceOk(FOUR, 2, UNDECIDED, input, choice) && !EntersAsLeader(FOUR, 2, UNDECIDED, input)
      && Step(FOUR, 2, UNDECIDED, input, choice) == Quiet(OneVote())
  {
    merge := MergeExists(0, Record(UNDECIDED, Vote3()).change.messages);
    hide HandleViewChange, EntersAsLeader, Vote3, OneVote, IsMerge, Record;
    OneVoteIsNotEnough(merge);
  }

  lemma TwoVotesAre()
    ensures Record(OneVote(), Vote4()).change.messages == Votes()
    ensures EntersAsLeader(FOUR, 2, OneVote(), Entry()) && Fresh(FOUR, 2, OneVote(), Entry())
    ensures HandleViewChange(FOUR, 2, OneVote(), Vote4(), MERGE) ==
      BecomeLeader(FOUR, 2, Record(OneVote(), Vote4()), 1, MERGE)
  {
    VotesSay();
    hide Vote2, Vote3, Vote4, BecomeLeader;
    assert Record(OneVote(), Vote4()).change.messages == Votes();
    assert Voters(Votes(), 1) == {3, 4};
  }

  lemma EntryFills()
    ensures var o := BecomeLeader(FOUR, 2, Record(OneVote(), Vote4()), 1, MERGE);
      MPrePrepare(FILLER) in Embedded(o.sent)
    ensures FILLER.Number() == SlotId(1, 2) && FILLER.Digest() == 1 && !FILLER.IsHeartbeat()
  {
    hide Vote2, Vote3, Vote4;
    var nv := NewViewFor(FOUR, 2, Record(OneVote(), Vote4()), 1, MERGE);
    assert SlotId(1, 2) in ReissuedNumbers(1, MERGE);
    assert SlotId(1, 2) in nv.message.prePrepares && nv.message.prePrepares[SlotId(1, 2)] == FILLER;
    assert MNewView(nv) in {MNewView(nv)};
  }

  // The same as an execution

  // So far no leader has entered a view, and these are the votes cast.
  ghost predicate Goes(
    states: seq<System>, events: seq<Event>, nodes: map<NodeId, NodeState>, sent: set<Msg>,
    votes: set<SignedViewChange>)
  {
    && Execution(FOUR, states, events) && states[|events|] == System(nodes, sent)
    && (forall t :: 0 <= t < |events| ==>
          !EntersAsLeader(FOUR, events[t].node, states[t].nodes[events[t].node], events[t].input))
    && (forall vc :: MViewChange(vc) in sent <==> vc in votes)
  }

  lemma ExecutionGrows(states: seq<System>, events: seq<Event>, e: Event)
    requires Execution(FOUR, states, events) && Enabled(FOUR, states[|events|], e)
    ensures Execution(FOUR, states + [Next(FOUR, states[|events|], e)], events + [e])
  {
    hide Step, ChoiceOk;
  }

  lemma Go(
    states: seq<System>, events: seq<Event>, nodes: map<NodeId, NodeState>, sent: set<Msg>,
    votes: set<SignedViewChange>, e: Event, o: Outcome, more: set<SignedViewChange>)
    returns (states': seq<System>, events': seq<Event>)
    requires Goes(states, events, nodes, sent, votes) && e.node in nodes
    requires (e.input.Receive? ==> e.input.msg in sent) && !e.input.HeartbeatReply?
    requires ChoiceOk(FOUR, e.node, nodes[e.node], e.input, e.choice)
    requires !EntersAsLeader(FOUR, e.node, nodes[e.node], e.input)
    requires Step(FOUR, e.node, nodes[e.node], e.input, e.choice) == o
    requires forall m :: m in o.sent ==> !m.MNewView?
    requires forall vc :: MViewChange(vc) in o.sent <==> vc in more
    ensures states <= states' && events' == events + [e]
    ensures Goes(states', events', nodes[e.node := o.state], sent + o.sent, votes + more)
  {
    assert |states| == |events| + 1;
    hide Execution, Step, ChoiceOk, EntersAsLeader;
    var sys := states[|events|];
    ExecutionGrows(states, events, e);
    states', events' := states + [Next(FOUR, sys, e)], events + [e];
    assert Embedded(o.sent) == {};
  }

  function Nodes(a: NodeState, b: NodeState, c: NodeState, d: NodeState): map<NodeId, NodeState> {
    map[1 := a, 2 := b, 3 := c, 4 := d]
  }

  lemma Moved(a: NodeState, b: NodeState, c: NodeState, d: NodeState)
    ensures forall s :: Nodes(a, b, c, d)[1 := s] == Nodes(s, b, c, d)
    ensures forall s :: Nodes(a, b, c, d)[2 := s] == Nodes(a, s, c, d)
    ensures forall s :: Nodes(a, b, c, d)[3 := s] == Nodes(a, b, s, d)
    ensures forall s :: Nodes(a, b, c, d)[4 := s] == Nodes(a, b, c, s)
  {
  }

  lemma Begin() returns (states: seq<System>)
    ensures Goes(states, [], Nodes(Start(1), Start(2), Start(3), Start(4)), {}, {})
  {
    hide Nodes, Start, Execution;
    var nodes := Nodes(Start(1), Start(2), Start(3), Start(4));
    InitialNodes();
    states := [System(nodes, {})];
    EmptyExecution(FOUR, System(nodes, {}));
  }

  lemma InitialNodes()
    ensures var nodes := Nodes(Start(1), Start(2), Start(3), Start(4));
      && (forall id :: id in nodes <==> id in FOUR.nodes)
      && (forall id :: id in nodes ==> nodes[id] == Initial(FOUR, id))
  {
    hide Initial;
  }

  // A step of the normal case that is not a vote.
  lemma Normal(
    states: seq<System>, events: seq<Event>, a: NodeState, b: NodeState, c: NodeState, d: NodeState, sent: set<Msg>,
    id: NodeId, input: Input, o: Outcome)
    returns (states': seq<System>, events': seq<Event>, sent': set<Msg>)
    requires Goes(states, events, Nodes(a, b, c, d), sent, {}) && 1 <= id <= 4
    requires var s := if id == 1 then a else if id == 2 then b else if id == 3 then c else d;
      && (input.Receive? ==> input.msg in sent && !input.msg.MViewChange? && !input.msg.MNewView?)
      && !input.HeartbeatReply?
      && ChoiceOk(FOUR, id, s, input, NO_CHOICE) && Step(FOUR, id, s, input, NO_CHOICE) == o
    requires forall m :: m in o.sent ==> !m.MNewView? && !m.MViewChange?
    ensures states <= states' && events' == events + [Event(id, input, NO_CHOICE)] && sent' == sent + o.sent
    ensures var s := o.state;
      Goes(states', events', if id == 1 then Nodes(s, b, c, d) else if id == 2 then Nodes(a, s, c, d)
        else if id == 3 then Nodes(a, b, s, d) else Nodes(a, b, c, s), sent', {})
  {
    var nodes := Nodes(a, b, c, d);
    assert id in nodes && nodes[id] == if id == 1 then a else if id == 2 then b else if id == 3 then c else d;
    Moved(a, b, c, d);
    hide Goes, Step, ChoiceOk, Nodes;
    sent' := sent + o.sent;
    states', events' := Go(states, events, nodes, sent, {}, Event(id, input, NO_CHOICE), o, {});
  }

  // Node 1 numbers two requests.
  lemma BothIssued() returns (states: seq<System>, events: seq<Event>, sent: set<Msg>)
    ensures Goes(states, events, Nodes(One(IssuedSlot(FIRST)), Start(2), Start(3), Start(4)), sent, {})
    ensures MPrePrepare(FIRST) in sent && MPrePrepare(SECOND) in sent
  {
    hide Goes, Step, ChoiceOk, Nodes, Start, One, IssuedSlot;
    Proposals();
    var b, c, d := Start(2), Start(3), Start(4);
    states := Begin();
    states, events, sent :=
      Normal(states, [], Start(1), b, c, d, {}, 1, Propose("a"), Send(ONE_ISSUED, {MPrePrepare(FIRST)}));
    states, events, sent := Normal(states, events, ONE_ISSUED, b, c, d, sent, 1, Propose("bb"),
      Send(One(IssuedSlot(FIRST)), {MPrePrepare(SECOND)}));
  }

  // Nodes 2 and 3 accept the first, nodes 3 and 4 the second.
  lemma AllAccept() returns (states: seq<System>, events: seq<Event>, sent: set<Msg>)
    ensures Goes(states, events,
      Nodes(One(IssuedSlot(FIRST)), Two(TWO_ACCEPTED), Three(THREE_ACCEPTED), FOUR_ACCEPTED), sent, {})
    ensures MPrepare(PrepareFor(2, FIRST)) in sent && MPrepare(PrepareFor(3, FIRST)) in sent
    ensures MPrepare(PrepareFor(4, SECOND)) in sent
  {
    Accepts(2, Start(2), FIRST);
    Accepts(3, Start(3), FIRST);
    Accepts(3, THREE_FIRST, SECOND);
    Accepts(4, Start(4), SECOND);
    AcceptStates();
    hide Goes, Step, Nodes, Start, One, Two, Three, PrepareFor, AcceptInto;
    var first, second := Receive(MPrePrepare(FIRST)), Receive(MPrePrepare(SECOND));
    var a, b, c, d := One(IssuedSlot(FIRST)), Two(TWO_ACCEPTED), Three(THREE_ACCEPTED), FOUR_ACCEPTED;
    states, events, sent := BothIssued();
    states, events, sent := Normal(
      states, events, a, Start(2), Start(3), Start(4), sent, 2, first, Send(b, {MPrepare(PrepareFor(2, FIRST))}));
    states, events, sent := Normal(
      states, events, a, b, Start(3), Start(4), sent, 3, first, Send(THREE_FIRST, {MPrepare(PrepareFor(3, FIRST))}));
    states, events, sent := Normal(
      states, events, a, b, THREE_FIRST, Start(4), sent, 3, second, Send(c, {MPrepare(PrepareFor(3, SECOND))}));
    states, events, sent := Normal(
      states, events, a, b, c, Start(4), sent, 4, second, Send(d, {MPrepare(PrepareFor(4, SECOND))}));
  }

  // The states these steps lead to, written out.
  lemma AcceptStates()
    ensures Two(TWO_ACCEPTED) == Start(2).(issued := 2, log := Start(2).log[K2 := TWO_ACCEPTED])
    ensures THREE_FIRST == Start(3).(issued := 2, log := Start(3).log[K2 := AcceptInto(3, EMPTY_SLOT, FIRST)])
    ensures Three(THREE_ACCEPTED) == THREE_FIRST.(issued := 3, log := THREE_FIRST.log[K3 := THREE_ACCEPTED])
    ensures FOUR_ACCEPTED == Start(4).(issued := 3, log := Start(4).log[K3 := AcceptInto(4, EMPTY_SLOT, SECOND)])
  {
  }

  ghost predicate Delivered(states: seq<System>, events: seq<Event>, t: nat) {
    && t < |states| && t < |events| && Enabled(FOUR, states[t], events[t])
    && Perform(FOUR, states[t], events[t]).delivered == Some(Delivery(K2, Some("a")))
  }

  // Nodes 2, 1 and 3 prepare, and node 1, with its own commit and node 2's, delivers the first request.
  lemma OneDeliversFirst() returns (states: seq<System>, events: seq<Event>, sent: set<Msg>, t: nat)
    ensures Goes(states, events, Nodes(One(ONE_COMMITTED).(sequenceNumber := 2), Two(TWO_PREPARED),
      Three(THREE_PREPARED), FOUR_ACCEPTED), sent, {})
    ensures Delivered(states, events, t)
  {
    TwoPrepares();
    OnePrepares();
    OnePreparesAgain();
    ThreePrepares();
    hide Goes, Step, Nodes, Start, One, Two, Three, PrepareFor, AcceptInto, Delivered;
    var a, b, c, d := One(IssuedSlot(FIRST)), Two(TWO_ACCEPTED), Three(THREE_ACCEPTED), FOUR_ACCEPTED;
    var second, third, fourth := PrepareFor(2, FIRST), PrepareFor(3, FIRST), PrepareFor(4, SECOND);
    states, events, sent := AllAccept();
    states, events, sent := Normal(
      states, events, a, b, c, d, sent, 2, Receive(MPrepare(third)), Send(Two(TWO_PREPARED), {MCommit(COMMIT2)}));
    b := Two(TWO_PREPARED);
    states, events, sent :=
      Normal(states, events, a, b, c, d, sent, 1, Receive(MPrepare(second)), Send(One(ONE_WAITING), {}));
    states, events, sent := Normal(states, events, One(ONE_WAITING), b, c, d, sent, 1, Receive(MPrepare(third)),
      Send(One(ONE_PREPARED), {MCommit(COMMIT1)}));
    states, events, sent := Normal(states, events, One(ONE_PREPARED), b, c, d, sent, 3, Receive(MPrepare(fourth)),
      Send(Three(THREE_PREPARED), {MCommit(COMMIT3)}));
    states, events, sent, t := DeliverLast(states, events, b, Three(THREE_PREPARED), d, sent);
  }

  lemma DeliverLast(
    states: seq<System>, events: seq<Event>, b: NodeState, c: NodeState, d: NodeState, sent: set<Msg>)
    returns (states': seq<System>, events': seq<Event>, sent': set<Msg>, t: nat)
    requires Goes(states, events, Nodes(One(ONE_PREPARED), b, c, d), sent, {}) && MCommit(COMMIT2) in sent
    ensures Goes(states', events', Nodes(One(ONE_COMMITTED).(sequenceNumber := 2), b, c, d), sent', {})
    ensures Delivered(states', events', t)
  {
    OneDelivers();
    t := |events|;
    var input := Receive(MCommit(COMMIT2));
    var o := Outcome(One(ONE_COMMITTED).(sequenceNumber := 2), {}, Some(Delivery(K2, Some("a"))), None, None);
    PerformsStep(states, events, Nodes(One(ONE_PREPARED), b, c, d), sent, Event(1, input, NO_CHOICE), o);
    assert ChoiceOk(FOUR, 1, One(ONE_PREPARED), input, NO_CHOICE);
    hide Goes, Step, ChoiceOk, Nodes, One, Perform, Enabled;
    states', events', sent' := Normal(states, events, One(ONE_PREPARED), b, c, d, sent, 1, input, o);
    assert states'[t] == states[t];
  }

  lemma PerformsStep(
    states: seq<System>, events: seq<Event>, nodes: map<NodeId, NodeState>, sent: set<Msg>, e: Event, o: Outcome)
    requires Goes(states, events, nodes, sent, {}) && e.node in nodes
    requires e.input.Receive? && e.input.msg in sent && ChoiceOk(FOUR, e.node, nodes[e.node], e.input, e.choice)
    requires Step(FOUR, e.node, nodes[e.node], e.input, e.choice) == o
    ensures |states| == |events| + 1 && Enabled(FOUR, states[|events|], e)
    ensures Perform(FOUR, states[|events|], e) == o
  {
    hide Step, ChoiceOk;
  }

  lemma Ask(
    states: seq<System>, events: seq<Event>, nodes: map<NodeId, NodeState>, sent: set<Msg>,
    votes: set<SignedViewChange>, id: NodeId)
    returns (states': seq<System>, events': seq<Event>, sent': set<Msg>)
    requires Goes(states, events, nodes, sent, votes) && id in nodes && id != 1
    requires nodes[id].view == 0 && nodes[id].change == INITIAL_CHANGE && !nodes[id].down
    ensures var vc := ViewChangeFor(FOUR, id, nodes[id], 1);
      && sent' == sent + {MViewChange(vc)}
      && Goes(states', events', nodes[id := Asking(nodes[id], map[])], sent', votes + {vc})
    ensures states <= states' && events <= events'
  {
    TimesOut(id, nodes[id]);
    var o := Send(Asking(nodes[id], map[]), {MViewChange(ViewChangeFor(FOUR, id, nodes[id], 1))});
    hide Goes, Step, ViewChangeFor, Asking;
    sent' := sent + o.sent;
    states', events' := Go(states, events, nodes, sent, votes, Event(id, HeartbeatTimeout, NO_CHOICE), o,
      {ViewChangeFor(FOUR, id, nodes[id], 1)});
  }

  // Nodes 3, 4 and 2 ask for view 1, and node 2 is handed node 3's vote.
  lemma VotesAreCast() returns (
    states: seq<System>, events: seq<Event>, nodes: map<NodeId, NodeState>, sent: set<Msg>, t: nat)
    ensures Goes(states, events, nodes, sent, {Vote2(), Vote3(), Vote4()}) && MViewChange(Vote4()) in sent
    ensures 2 in nodes && nodes[2] == OneVote() && Delivered(states, events, t)
  {
    hide Goes, Nodes, One, Two, Three, Asking, Vote2, Vote3, Vote4, Delivered;
    var states0, events0;
    states0, events0, nodes, sent, t := VotesAreSent();
    states, events := HearOne(states0, events0, nodes, sent, {Vote2(), Vote3(), Vote4()});
    nodes := nodes[2 := OneVote()];
    StillDelivered(states0, events0, states, events, t);
  }

  lemma VotesAreSent() returns (
    states: seq<System>, events: seq<Event>, nodes: map<NodeId, NodeState>, sent: set<Msg>, t: nat)
    ensures Goes(states, events, nodes, sent, {Vote2(), Vote3(), Vote4()})
    ensures MViewChange(Vote3()) in sent && MViewChange(Vote4()) in sent
    ensures 2 in nodes && nodes[2] == UNDECIDED && Delivered(states, events, t)
  {
    hide Goes, One, Two, Three, Asking, ViewChangeFor, Delivered;
    Unasked();
    var states0, events0;
    states0, events0, sent, t := OneDeliversFirst();
    nodes := Nodes(One(ONE_COMMITTED).(sequenceNumber := 2), Two(TWO_PREPARED), Three(THREE_PREPARED), FOUR_ACCEPTED);
    states, events, sent := Ask(states0, events0, nodes, sent, {}, 3);
    nodes := nodes[3 := Asking(nodes[3], map[])];
    states, events, sent := Ask(states, events, nodes, sent, {} + {Vote3()}, 4);
    nodes := nodes[4 := Asking(nodes[4], map[])];
    states, events, sent := Ask(states, events, nodes, sent, {} + {Vote3()} + {Vote4()}, 2);
    nodes := nodes[2 := Asking(nodes[2], map[])];
    assert {} + {Vote3()} + {Vote4()} + {Vote2()} == {Vote2(), Vote3(), Vote4()};
    StillDelivered(states0, events0, states, events, t);
  }

  lemma Unasked()
    ensures Two(TWO_PREPARED).change == Three(THREE_PREPARED).change == FOUR_ACCEPTED.change == INITIAL_CHANGE
    ensures Two(TWO_PREPARED).view == Three(THREE_PREPARED).view == FOUR_ACCEPTED.view == 0
    ensures !Two(TWO_PREPARED).down && !Three(THREE_PREPARED).down && !FOUR_ACCEPTED.down
  {
  }

  lemma StillDelivered(
    states: seq<System>, events: seq<Event>, states': seq<System>, events': seq<Event>, t: nat)
    requires Delivered(states, events, t) && states <= states' && events <= events'
    ensures Delivered(states', events', t)
  {
    hide Enabled, Perform;
    assert states'[t] == states[t] && events'[t] == events[t];
  }

  lemma HearOne(
    states: seq<System>, events: seq<Event>, nodes: map<NodeId, NodeState>, sent: set<Msg>,
    votes: set<SignedViewChange>)
    returns (states': seq<System>, events': seq<Event>)
    requires Goes(states, events, nodes, sent, votes) && 2 in nodes && nodes[2] == UNDECIDED
    requires MViewChange(Vote3()) in sent
    ensures Goes(states', events', nodes[2 := OneVote()], sent, votes) && states <= states' && events <= events'
  {
    hide Goes, EntersAsLeader, Vote3, OneVote, Step, ChoiceOk;
    var merge := OneVoteStep();
    var e := Event(2, Receive(MViewChange(Vote3())), Choice(merge, []));
    states', events' := Go(states, events, nodes, sent, votes, e, Quiet(OneVote()), {});
    assert sent + {} == sent && votes + {} == votes;
  }

  // The entry

  // Of the two nodes that had the number prepared, whichever voted for view 1 showed it.
  lemma PreparedNodesShow(sent: set<Msg>)
    requires forall vc :: MViewChange(vc) in sent <==> vc in {Vote2(), Vote3(), Vote4()}
    ensures VotesShow(sent, {1, 2}, 1, 0, 2)
  {
    VotesSay();
    hide Vote2, Vote3, Vote4;
    assert K2 in Vote2().message.proofs && K2.seqNo == 2 && K2.view >= 0;
  }

  lemma EntryShows(sys: System, e: Event)
    requires e.node == 2 && e.input == Entry()
    requires forall vc :: MViewChange(vc) in sys.sent <==> vc in {Vote2(), Vote3(), Vote4()}
    ensures QuorumShows(FOUR, sys, e, 2, 0, 2)
  {
    hide Vote2, Vote3, Vote4, VotesShow, EntersAsLeader, Members;
    TwoMembers();
    PreparedNodesShow(sys.sent);
    VotesSay();
    assert e.input.msg.viewChange.message.view == 1;
  }

  lemma TwoMembers()
    ensures {1, 2} <= Members(FOUR) && |{1, 2}| == 2
  {
    assert 1 in FOUR.nodes && 2 in FOUR.nodes;
  }

  lemma SoFarShown(
    states: seq<System>, events: seq<Event>, nodes: map<NodeId, NodeState>, sent: set<Msg>,
    votes: set<SignedViewChange>)
    requires Goes(states, events, nodes, sent, votes)
    ensures |states| == |events| + 1 && states[|events|].sent == sent
    ensures forall t :: 0 <= t < |events| ==> QuorumShows(FOUR, states[t], events[t], 2, 0, 2)
    ensures forall vc :: MViewChange(vc) in sent <==> vc in votes
  {
    hide EntersAsLeader, VotesShow;
  }

  lemma QuorumsHeld(
    states: seq<System>, events: seq<Event>, nodes: map<NodeId, NodeState>, sent: set<Msg>, states': seq<System>,
    events': seq<Event>, e: Event)
    requires Goes(states, events, nodes, sent, {Vote2(), Vote3(), Vote4()})
    requires states <= states' && events' == events + [e] && |states'| == |events'| + 1
    requires e.node == 2 && e.input == Entry()
    ensures forall t :: 0 <= t < |events'| ==> QuorumShows(FOUR, states'[t], events'[t], 2, 0, 2)
  {
    hide Goes, QuorumShows, Vote2, Vote3, Vote4, Entry;
    SoFarShown(states, events, nodes, sent, {Vote2(), Vote3(), Vote4()});
    EntryShows(states[|events|], e);
    forall t | 0 <= t < |events'|
      ensures QuorumShows(FOUR, states'[t], events'[t], 2, 0, 2)
    {
      assert states'[t] == states[t];
      assert t < |events| ==> events'[t] == events[t];
    }
  }

  /**
   2f nodes are not enough: with four nodes, none misbehaving, every entry fresh, and at every entry the votes of two
   nodes showing a number, the request delivered for that number is still replaced by the no-op in a later view.
   */
  lemma TooFewPrepared() returns (states: seq<System>, events: seq<Event>, t: nat, f: FullPrePrepare)
    ensures FOUR.PreparedQuorum() == 2 && !QuorumsMeet(FOUR, 2) && QuorumsMeet(FOUR, 3)
    ensures FreshExecution(FOUR, states, events) && Delivered(states, events, t)
    ensures forall u :: 0 <= u < |events| ==> QuorumShows(FOUR, states[u], events[u], 2, 0, 2)
    ensures Issued(states[|events|].sent, f) && f.Number() == SlotId(1, 2) && f.Digest() != FOUR.digest("a")
  {
    hide Goes, Delivered, FreshExecution, QuorumShows, Vote2, Vote3, Vote4;
    var states0, events0, nodes, sent;
    states0, events0, nodes, sent, t := VotesAreCast();
    var e := Event(2, Entry(), Choice(MERGE, []));
    states, events := Enter(states0, events0, nodes, sent, e);
    QuorumsHeld(states0, events0, nodes, sent, states, events, e);
    StillDelivered(states0, events0, states, events, t);
    EntryFills();
    f := FILLER;
  }

  lemma SoFarFresh(
    states: seq<System>, events: seq<Event>, nodes: map<NodeId, NodeState>, sent: set<Msg>,
    votes: set<SignedViewChange>)
    requires Goes(states, events, nodes, sent, votes)
    ensures |states| == |events| + 1 && states[|events|] == System(nodes, sent) && FreshExecution(FOUR, states, events)
  {
    hide EntersAsLeader, Enabled, Next;
  }

  lemma FreshGrows(states: seq<System>, events: seq<Event>, e: Event)
    requires FreshExecution(FOUR, states, events) && Enabled(FOUR, states[|events|], e)
    requires FreshEvent(FOUR, states[|events|], e)
    ensures FreshExecution(FOUR, states + [Next(FOUR, states[|events|], e)], events + [e])
  {
    hide Step, ChoiceOk, Fresh;
  }

  lemma Enter(states: seq<System>, events: seq<Event>, nodes: map<NodeId, NodeState>, sent: set<Msg>, e: Event)
    returns (states': seq<System>, events': seq<Event>)
    requires Goes(states, events, nodes, sent, {Vote2(), Vote3(), Vote4()}) && MViewChange(Vote4()) in sent
    requires 2 in nodes && nodes[2] == OneVote() && e == Event(2, Entry(), Choice(MERGE, []))
    ensures states <= states' && events' == events + [e] && |states'| == |events'| + 1
    ensures FreshExecution(FOUR, states', events') && MPrePrepare(FILLER) in states'[|events'|].sent
  {
    hide Goes, FreshExecution, Fresh, Step, ChoiceOk, OneVote, Vote2, Vote3, Vote4;
    SoFarFresh(states, events, nodes, sent, {Vote2(), Vote3(), Vote4()});
    var sys := states[|events|];
    EntryStep();
    EntryFills();
    FreshGrows(states, events, e);
    states', events' := states + [Next(FOUR, sys, e)], events + [e];
    hide BecomeLeader, Embedded;
    assert MPrePrepare(FILLER) in Embedded(Perform(FOUR, sys, e).sent);
  }

  lemma EntryStep()
    ensures ChoiceOk(FOUR, 2, OneVote(), Entry(), Choice(MERGE, [])) && Fresh(FOUR, 2, OneVote(), Entry())
    ensures Step(FOUR, 2, OneVote(), Entry(), Choice(MERGE, [])) ==
      BecomeLeader(FOUR, 2, Record(OneVote(), Vote4()), 1, MERGE)
  {
    TwoVotesAre();
    VotesMerge();
    hide HandleViewChange, BecomeLeader, IsMerge, EntersAsLeader, Votes, Fresh;
    assert OneVote().lastCheckpoint.number.seqNo == 0;
  }
}
