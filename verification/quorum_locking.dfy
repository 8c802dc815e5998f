/**
 When the thresholds do bring a proof to a new leader: q nodes are enough if any q nodes and the voters a leader
 needs have a node in common. With q = 2f + 1 that is so in a cluster of four nodes and wherever f is at least 2.
 */
module QuorumLocking {
  import opened Types
  import opened Quorums
  import opened Replica
  import opened ReplicaInvariants
  import opened NodeRuns
  import opened Persistence
  import opened Cluster
  import opened Projection
  import opened ClusterInvariants
  import opened Agreement
  import opened Histories
  import opened DeliveryResults
  import opened Locking

  // How many nodes it takes

  // Any q nodes include one of the voters a leader needs, itself not being one of those.
  predicate QuorumsMeet(cfg: Config, q: int) {
    cfg.NewViewQuorum() + q - 1 > cfg.NumPeers()
  }

  /** 2f + 1 nodes are enough exactly in clusters of four nodes, and wherever f is at least 2. */
  lemma CheckpointQuorumMeetsIff(cfg: Config)
    requires |cfg.nodes| >= 1
    ensures QuorumsMeet(cfg, cfg.CheckpointQuorum()) <==> cfg.Faults() >= 2 || |cfg.nodes| == 4
  {
    NewViewQuorumExact(cfg);
  }

  lemma VotersMeet(cfg: Config, id: NodeId, voters: set<NodeId>, nodes: set<NodeId>, q: nat) returns (j: NodeId)
    requires cfg.Valid() && id in cfg.nodes && voters <= Peers(cfg, id) && nodes <= Members(cfg)
    requires QuorumsMeet(cfg, q) && |voters| >= cfg.NewViewQuorum() && |nodes| >= q
    ensures j in voters && j in nodes
  {
    PeerCount(cfg, id);
    var others := nodes - {id};
    assert |others| >= q - 1;
    SubsetCardinality(voters + others, Peers(cfg, id));
    assert |voters + others| == |voters| + |others| - |voters * others|;
    j :| j in voters * others;
  }

  lemma {:induction false} SubsetOfSize(s: set<NodeId>, size: nat) returns (part: set<NodeId>)
    requires size <= |s|
    ensures part <= s && |part| == size
  {
    if size == |s| {
      part := s;
    } else {
      var x :| x in s;
      part := SubsetOfSize(s - {x}, size);
    }
  }

  /** The condition is exact: where it fails, some q nodes and some voters a leader could have do not meet. */
  lemma VotersMeetIff(cfg: Config, id: NodeId, q: nat)
    requires cfg.Valid() && id in cfg.nodes
    ensures QuorumsMeet(cfg, q) <==>
      forall voters, nodes ::
        (voters <= Peers(cfg, id) && nodes <= Members(cfg) && |voters| == cfg.NewViewQuorum() && |nodes| == q) ==>
          voters * nodes != {}
  {
    if QuorumsMeet(cfg, q) {
      hide QuorumsMeet, Peers, Members;
      forall voters, nodes | voters <= Peers(cfg, id) && nodes <= Members(cfg) &&
        |voters| == cfg.NewViewQuorum() && |nodes| == q
        ensures voters * nodes != {}
      {
        var j := VotersMeet(cfg, id, voters, nodes, q);
        assert j in voters * nodes;
      }
    } else {
      var voters, nodes := Disjoint(cfg, id, q);
    }
  }

  lemma Disjoint(cfg: Config, id: NodeId, q: nat) returns (voters: set<NodeId>, nodes: set<NodeId>)
    requires cfg.Valid() && id in cfg.nodes && !QuorumsMeet(cfg, q)
    ensures voters <= Peers(cfg, id) && nodes <= Members(cfg) && |voters| == cfg.NewViewQuorum() && |nodes| == q
    ensures voters * nodes == {}
  {
    PeerCount(cfg, id);
    assert id !in Peers(cfg, id) && Peers(cfg, id) + {id} <= Members(cfg);
    hide Peers, Members;
    voters := SubsetOfSize(Peers(cfg, id), cfg.NewViewQuorum());
    nodes := {};
    if q > 0 {
      var rest := SubsetOfSize(Peers(cfg, id) - voters, q - 1);
      nodes := rest + {id};
    }
  }

  // What the voters show

  // Whoever of these nodes votes for this view shows a proof for n prepared in v or later.
  ghost predicate VotesShow(sent: set<Msg>, nodes: set<NodeId>, view: int, v: int, n: int) {
    forall vc :: MViewChange(vc) in sent && vc.message.view == view && vc.message.node in nodes ==>
      exists k :: k in vc.message.proofs && k.seqNo == n && k.view >= v
  }

  /** If the votes of enough nodes show such a proof, the leader merges one. */
  lemma QuorumIsVisible(cfg: Config, sys: System, e: Event, nodes: set<NodeId>, q: nat, v: int, n: int)
    requires cfg.Valid() && SystemOk(cfg, sys) && Enabled(cfg, sys, e)
    requires EntersAsLeader(cfg, e.node, sys.nodes[e.node], e.input)
    requires QuorumsMeet(cfg, q) && nodes <= Members(cfg) && |nodes| >= q
    requires VotesShow(sys.sent, nodes, e.input.msg.viewChange.message.view, v, n)
    ensures Visible(Record(sys.nodes[e.node], e.input.msg.viewChange).change.messages, v, n)
  {
    var id, s, m := e.node, sys.nodes[e.node], e.input.msg.viewChange;
    assert Ready(cfg, id, sys.sent, s);
    RecordKept(cfg, id, sys.sent, s, m);
    var messages, view := Record(s, m).change.messages, m.message.view;
    var voters := Voters(messages, view);
    assert CollectedOk(id, sys.sent, messages) && Filed(messages) && MessagesOk(cfg, sys.sent);
    hide SystemOk, Ready, Enabled, MessagesOk, NodeOk, Joins;
    forall j | j in voters
      ensures j in Peers(cfg, id)
    {
      VoterIsPeer(cfg, id, sys.sent, messages, j);
    }
    var j := VotersMeet(cfg, id, voters, nodes, q);
    assert MViewChange(messages[j]) in sys.sent && messages[j].message.node == j;
    var k :| k in messages[j].message.proofs && k.seqNo == n && k.view >= v;
    assert ProofIn(messages, j, k);
  }

  lemma VoterIsPeer(cfg: Config, id: NodeId, sent: set<Msg>, messages: map<NodeId, SignedViewChange>, j: NodeId)
    requires |cfg.nodes| >= 1 && MessagesOk(cfg, sent) && CollectedOk(id, sent, messages) && Filed(messages)
    requires j in messages
    ensures j in Peers(cfg, id)
  {
    assert MsgOk(cfg, sent, MViewChange(messages[j]));
  }

  // A leader that enters a view after v does so when the votes for it of q nodes show a proof.
  ghost predicate QuorumShows(cfg: Config, sys: System, e: Event, q: nat, v: int, n: int)
    requires |cfg.nodes| >= 1
  {
    e.node in sys.nodes && EntersAsLeader(cfg, e.node, sys.nodes[e.node], e.input) &&
    e.input.msg.viewChange.message.view > v ==>
      exists nodes :: nodes <= Members(cfg) && |nodes| >= q &&
        VotesShow(sys.sent, nodes, e.input.msg.viewChange.message.view, v, n)
  }

  /** A digest shown by enough nodes' votes in every later view is kept. */
  lemma LockedByQuorums(
    cfg: Config, states: seq<System>, events: seq<Event>, q: nat, v: int, n: int, i: nat,
    later: FullPrePrepare)
    requires cfg.Valid() && FreshExecution(cfg, states, events) && v >= 0 && i < |states|
    requires QuorumsMeet(cfg, q)
    requires forall t :: 0 <= t < |events| ==> QuorumShows(cfg, states[t], events[t], q, v, n)
    requires Issued(states[i].sent, later) && later.Number().seqNo == n && later.Number().view > v
    ensures Announced(states[i].sent, SlotId(v, n), later.Digest())
  {
    forall t | 0 <= t < |events|
      ensures MergesProof(cfg, states[t], events[t], v, n)
    {
      ReachableOk(cfg, states, events, t);
      assert Enabled(cfg, states[t], events[t]);
      assert QuorumShows(cfg, states[t], events[t], q, v, n);
      hide SystemOk, Execution, Enabled, EntersAsLeader, Visible, VotesShow;
      if EntersAsLeader(cfg, events[t].node, states[t].nodes[events[t].node], events[t].input) &&
        events[t].input.msg.viewChange.message.view > v
      {
        var nodes :| nodes <= Members(cfg) && |nodes| >= q &&
          VotesShow(states[t].sent, nodes, events[t].input.msg.viewChange.message.view, v, n);
        QuorumIsVisible(cfg, states[t], events[t], nodes, q, v, n);
      }
    }
    hide MergesProof, FreshExecution, QuorumShows;
    LockedAcrossViews(cfg, states, events, v, n, i, later);
  }

  // What a vote shows is what its sender had prepared when it cast it

  // For number n, a slot of view v or later is prepared after the node's checkpoint.
  ghost predicate HasPrepared(cfg: Config, s: NodeState, v: int, n: int) {
    exists k :: HasProof(cfg, s, k) && k.seqNo == n && k.view >= v
  }

  // The vote shows this node's checkpoint, with its proof, and what it has prepared since.
  ghost predicate Shown(cfg: Config, s: NodeState, vc: SignedViewChange) {
    && vc.message.checkpoint == s.lastCheckpoint.number && vc.message.checkpointProof == s.lastCheckpoint.proof
    && vc.message.proofs == ProofsSinceCheckpoint(cfg, s)
  }

  ghost predicate VotesAt(
    cfg: Config, states: seq<System>, events: seq<Event>, t: nat, vc: SignedViewChange)
    requires |cfg.nodes| >= 1 && Execution(cfg, states, events) && t < |events|
  {
    && events[t].node == vc.message.node
    && MViewChange(vc) in Perform(cfg, states[t], events[t]).sent
    && Shown(cfg, states[t].nodes[vc.message.node], vc)
  }

  lemma RecordKeepsProofs(cfg: Config, s: NodeState, m: SignedViewChange)
    ensures ProofsSinceCheckpoint(cfg, Record(s, m)) == ProofsSinceCheckpoint(cfg, s)
  {
    assert forall k :: HasProof(cfg, Record(s, m), k) <==> HasProof(cfg, s, k);
  }

  lemma ViewChangeVotes(
    cfg: Config, id: NodeId, s: NodeState, m: SignedViewChange, merge: Merge, vc: SignedViewChange)
    requires cfg.Valid() && MViewChange(vc) in HandleViewChange(cfg, id, s, m, merge).sent
    ensures vc.message.node == id && Shown(cfg, s, vc)
  {
    RecordKeepsProofs(cfg, s, m);
    hide ProofsSinceCheckpoint, NewViewFor, Elected;
  }

  lemma NormalCaseVotesNothing(cfg: Config, id: NodeId, s: NodeState)
    requires cfg.Valid()
    ensures forall r, m :: m in HandleClientRequest(cfg, id, s, r).sent ==> !m.MViewChange?
    ensures forall f, m :: m in HandlePrePrepare(cfg, id, s, f).sent ==> !m.MViewChange?
    ensures forall p, m :: m in HandlePrepare(cfg, id, s, p).sent ==> !m.MViewChange?
  {
  }

  lemma MessageVotes(cfg: Config, id: NodeId, s: NodeState, msg: Msg, choice: Choice, vc: SignedViewChange)
    requires cfg.Valid() && ChoiceOk(cfg, id, s, Receive(msg), choice)
    requires MViewChange(vc) in HandleMessage(cfg, id, s, msg, choice).sent
    ensures vc.message.node == id && Shown(cfg, s, vc)
  {
    NormalCaseVotesNothing(cfg, id, s);
    NormalCaseSends(cfg, id, s);
    hide HandleClientRequest, HandlePrePrepare, HandlePrepare, HandleCommit, HandleCheckpoint, HandleCheckpointProof,
         HandleViewChange, IsMerge, ProofsSinceCheckpoint;
    match msg
    case MViewChange(m) => ViewChangeVotes(cfg, id, s, m, choice.merge, vc);
    case MNewView(m) =>
      if EntersByNewView(s, m) {
        AcceptAllFrame(cfg, id, EnterNewView(s, m.message.view), m.message.prePrepares, choice.order);
      }
    case _ =>
  }

  lemma StepVotes(cfg: Config, id: NodeId, s: NodeState, input: Input, choice: Choice, vc: SignedViewChange)
    requires cfg.Valid() && ChoiceOk(cfg, id, s, input, choice)
    requires MViewChange(vc) in Step(cfg, id, s, input, choice).sent
    ensures vc.message.node == id && Shown(cfg, s, vc)
  {
    NormalCaseVotesNothing(cfg, id, s);
    hide HandleMessage, HandleClientRequest, AddCheckpoint, ProofsSinceCheckpoint;
    match input
    case Receive(msg) => MessageVotes(cfg, id, s, msg, choice, vc);
    case _ =>
  }

  /** Every vote was cast by its sender, and shows exactly what that had prepared since its checkpoint. */
  lemma VoteWasCast(
    cfg: Config, states: seq<System>, events: seq<Event>, i: nat, vc: SignedViewChange) returns (t: nat)
    requires cfg.Valid() && Execution(cfg, states, events) && i < |states| && MViewChange(vc) in states[i].sent
    ensures t < i && VotesAt(cfg, states, events, t, vc)
  {
    t := SentAt(cfg, states, events, i, MViewChange(vc));
    hide Execution, Step, ChoiceOk, ProofsSinceCheckpoint;
    var e := events[t];
    StepVotes(cfg, e.node, states[t].nodes[e.node], e.input, e.choice, vc);
  }

  // Whoever of these nodes cast a vote for this view before step i had the number prepared when it did.
  ghost predicate VotedPrepared(
    cfg: Config, states: seq<System>, events: seq<Event>, i: nat, nodes: set<NodeId>, view: int, v: int, n: int)
    requires |cfg.nodes| >= 1 && Execution(cfg, states, events) && i <= |events|
  {
    forall t: nat, vc | t < i && VotesAt(cfg, states, events, t, vc) ::
      vc.message.view == view && vc.message.node in nodes ==>
        HasPrepared(cfg, states[t].nodes[vc.message.node], v, n)
  }

  lemma PreparedVotesShow(
    cfg: Config, states: seq<System>, events: seq<Event>, i: nat, nodes: set<NodeId>, view: int, v: int, n: int)
    requires cfg.Valid() && Execution(cfg, states, events) && i <= |events|
    requires VotedPrepared(cfg, states, events, i, nodes, view, v, n)
    ensures VotesShow(states[i].sent, nodes, view, v, n)
  {
    hide Perform;
    forall vc | MViewChange(vc) in states[i].sent && vc.message.view == view && vc.message.node in nodes
      ensures exists k :: k in vc.message.proofs && k.seqNo == n && k.view >= v
    {
      var t := VoteWasCast(cfg, states, events, i, vc);
      var s := states[t].nodes[vc.message.node];
      assert HasPrepared(cfg, s, v, n);
      ReachableOk(cfg, states, events, t);
      hide Execution, VotedPrepared;
      ProofIsShown(cfg, states[t], vc.message.node, v, n);
    }
  }

  lemma ProofIsShown(cfg: Config, sys: System, id: NodeId, v: int, n: int)
    requires cfg.Valid() && SystemOk(cfg, sys) && id in sys.nodes && HasPrepared(cfg, sys.nodes[id], v, n)
    ensures exists k :: k in ProofsSinceCheckpoint(cfg, sys.nodes[id]) && k.seqNo == n && k.view >= v
  {
    var s := sys.nodes[id];
    var k :| HasProof(cfg, s, k) && k.seqNo == n && k.view >= v;
    assert Ready(cfg, id, sys.sent, s);
    assert SlotValid(cfg, k, s.log[k]);
    assert k in ProofsSinceCheckpoint(cfg, s);
  }

  // The nodes a leader's entry at step t relies on: q of them had the number prepared when they voted for it.
  ghost predicate QuorumPrepared(cfg: Config, states: seq<System>, events: seq<Event>, t: nat, q: nat, v: int, n: int)
    requires |cfg.nodes| >= 1 && Execution(cfg, states, events) && t < |events|
  {
    var e := events[t];
    EntersAsLeader(cfg, e.node, states[t].nodes[e.node], e.input) && e.input.msg.viewChange.message.view > v ==>
      exists nodes :: nodes <= Members(cfg) && |nodes| >= q &&
        VotedPrepared(cfg, states, events, t, nodes, e.input.msg.viewChange.message.view, v, n)
  }

  /**
   If for every view entered after v there are enough nodes that had number n prepared, in v or later and after
   their checkpoint, when they voted for it, then no later view gives n to anything but what v gave it to.
   */
  lemma PreparedByQuorumIsKept(
    cfg: Config, states: seq<System>, events: seq<Event>, q: nat, v: int, n: int, i: nat,
    later: FullPrePrepare)
    requires cfg.Valid() && FreshExecution(cfg, states, events) && v >= 0 && i < |states|
    requires QuorumsMeet(cfg, q)
    requires forall t :: 0 <= t < |events| ==> QuorumPrepared(cfg, states, events, t, q, v, n)
    requires Issued(states[i].sent, later) && later.Number().seqNo == n && later.Number().view > v
    ensures Announced(states[i].sent, SlotId(v, n), later.Digest())
    ensures forall first :: Issued(states[i].sent, first) && first.Number() == SlotId(v, n) ==>
      first.Digest() == later.Digest()
  {
    forall t | 0 <= t < |events|
      ensures QuorumShows(cfg, states[t], events[t], q, v, n)
    {
      QuorumPreparedShows(cfg, states, events, t, q, v, n);
    }
    hide QuorumShows, FreshExecution, QuorumPrepared, SystemOk, OneNewView;
    LockedByQuorums(cfg, states, events, q, v, n, i, later);
    ReachableOneEach(cfg, states, events, i);
  }

  lemma QuorumPreparedShows(cfg: Config, states: seq<System>, events: seq<Event>, t: nat, q: nat, v: int, n: int)
    requires cfg.Valid() && Execution(cfg, states, events) && t < |events|
    requires QuorumPrepared(cfg, states, events, t, q, v, n)
    ensures QuorumShows(cfg, states[t], events[t], q, v, n)
  {
    hide LeaderEntry, VotedPrepared, VotesShow, Perform;
    var e := events[t];
    assert Enabled(cfg, states[t], e);
    if EntersAsLeader(cfg, e.node, states[t].nodes[e.node], e.input) && e.input.msg.viewChange.message.view > v {
      var nodes :| nodes <= Members(cfg) && |nodes| >= q &&
        VotedPrepared(cfg, states, events, t, nodes, e.input.msg.viewChange.message.view, v, n);
      PreparedVotesShow(cfg, states, events, t, nodes, e.input.msg.viewChange.message.view, v, n);
    }
  }

  // Commits sent before voting

  // Before step u, this node has sent a commit for slot k, and at step u its checkpoint is still before k.
  ghost predicate CommittedBefore(
    cfg: Config, states: seq<System>, events: seq<Event>, u: nat, id: NodeId, k: SlotId)
    requires |cfg.nodes| >= 1 && Execution(cfg, states, events) && u < |events|
  {
    && id in states[u].nodes && states[u].nodes[id].lastCheckpoint.number.Before(k)
    && exists t: nat, c ::
         t < u && CommitsIn(cfg, states, events, t, c) && c.message.node == id && c.message.number == k
  }

  // Every node here commits slot k before it first votes for a view after the slot's.
  ghost predicate CommitsBeforeVoting(
    cfg: Config, states: seq<System>, events: seq<Event>, nodes: set<NodeId>, k: SlotId)
    requires |cfg.nodes| >= 1 && Execution(cfg, states, events)
  {
    forall u: nat, vc | u < |events| && VotesAt(cfg, states, events, u, vc) ::
      vc.message.view > k.view && vc.message.node in nodes ==>
        CommittedBefore(cfg, states, events, u, vc.message.node, k)
  }

  /** What a node has committed it still has prepared when it votes, unless its checkpoint has come that far. */
  lemma CommittedStaysPrepared(
    cfg: Config, states: seq<System>, events: seq<Event>, u: nat, id: NodeId, k: SlotId)
    requires cfg.Valid() && FreshExecution(cfg, states, events) && u < |events|
    requires CommittedBefore(cfg, states, events, u, id, k)
    ensures id in states[u].nodes && HasProof(cfg, states[u].nodes[id], k)
  {
    var t: nat, c :| t < u && CommitsIn(cfg, states, events, t, c) && c.message.node == id && c.message.number == k;
    CommitsAt(cfg, states, events, t, c);
    CommitterIsNode(cfg, states, events, t, c);
    assert events[t].node == id;
    hide Execution, FreshExecution, Run, FreshRun, CommitsIn, IsPrepared, OwnSteps, Step, ChoiceOk;
    var local, stimuli := ProjectsToRun(cfg, states, events, u, id);
    OwnStepsGrow(events, t + 1, u, id);
    var a, b := OwnSteps(events, t + 1, id), OwnSteps(events, u, id);
    assert local[a] == states[t + 1].nodes[id] && local[b] == states[u].nodes[id];
    StaysPrepared(cfg, id, local, stimuli, a, b, k);
  }

  lemma CommitterIsNode(cfg: Config, states: seq<System>, events: seq<Event>, t: nat, c: SignedCommit)
    requires cfg.Valid() && Execution(cfg, states, events) && t < |events| && CommitsIn(cfg, states, events, t, c)
    ensures c.message.node in cfg.nodes
  {
    ReachableOk(cfg, states, events, t + 1);
    hide Ready, Perform, Enabled, Next;
  }

  lemma CommittersPrepared(
    cfg: Config, states: seq<System>, events: seq<Event>, t: nat, nodes: set<NodeId>, q: nat, k: SlotId)
    requires cfg.Valid() && FreshExecution(cfg, states, events) && t < |events|
    requires nodes <= Members(cfg) && |nodes| >= q && CommitsBeforeVoting(cfg, states, events, nodes, k)
    ensures QuorumPrepared(cfg, states, events, t, q, k.view, k.seqNo)
  {
    assert Enabled(cfg, states[t], events[t]);
    var e := events[t];
    hide LeaderEntry, VotesAt, CommittedBefore, Perform;
    if EntersAsLeader(cfg, e.node, states[t].nodes[e.node], e.input) && e.input.msg.viewChange.message.view > k.view {
      forall u: nat, vc | u < t && VotesAt(cfg, states, events, u, vc) && vc.message.node in nodes &&
        vc.message.view == e.input.msg.viewChange.message.view
        ensures HasPrepared(cfg, states[u].nodes[vc.message.node], k.view, k.seqNo)
      {
        CommittedStaysPrepared(cfg, states, events, u, vc.message.node, k);
      }
      assert VotedPrepared(
        cfg, states, events, t, nodes, e.input.msg.viewChange.message.view, k.view, k.seqNo);
    }
  }

  /**
   With fresh leader entries: if enough nodes commit slot (v, n) before they first vote for a view after v, and their
   checkpoints are still before it when they do, then every later view gives n what v gave it to.
   */
  lemma CommittedByQuorumIsKept(
    cfg: Config, states: seq<System>, events: seq<Event>, nodes: set<NodeId>, q: nat, v: int, n: int, i: nat,
    later: FullPrePrepare)
    requires cfg.Valid() && FreshExecution(cfg, states, events) && v >= 0 && i < |states|
    requires QuorumsMeet(cfg, q) && nodes <= Members(cfg) && |nodes| >= q
    requires CommitsBeforeVoting(cfg, states, events, nodes, SlotId(v, n))
    requires Issued(states[i].sent, later) && later.Number().seqNo == n && later.Number().view > v
    ensures Announced(states[i].sent, SlotId(v, n), later.Digest())
    ensures forall first :: Issued(states[i].sent, first) && first.Number() == SlotId(v, n) ==>
      first.Digest() == later.Digest()
  {
    forall t | 0 <= t < |events|
      ensures QuorumPrepared(cfg, states, events, t, q, v, n)
    {
      CommittersPrepared(cfg, states, events, t, nodes, q, SlotId(v, n));
    }
    hide FreshExecution, QuorumPrepared, CommitsBeforeVoting, Announced, Issued;
    PreparedByQuorumIsKept(cfg, states, events, q, v, n, i, later);
  }

  // Where a new view's range starts

  /** The numbers in a set O are not below the checkpoint that any of the votes collected showed when it was cast. */
  lemma RangeStartsAtVoters(cfg: Config, states: seq<System>, events: seq<Event>, t: nat, j: NodeId) returns (u: nat)
    requires cfg.Valid() && Execution(cfg, states, events) && t < |events| && Enabled(cfg, states[t], events[t])
    requires var e := events[t];
      && EntersAsLeader(cfg, e.node, states[t].nodes[e.node], e.input)
      && j in Record(states[t].nodes[e.node], e.input.msg.viewChange).change.messages
    ensures var e := events[t];
      var vc := Record(states[t].nodes[e.node], e.input.msg.viewChange).change.messages[j];
      && u < t && VotesAt(cfg, states, events, u, vc) && vc.message.node == j
      && forall k :: k in NewViewPrePrepares(cfg, e.node, e.input.msg.viewChange.message.view, e.choice.merge) ==>
           k.seqNo >= states[u].nodes[j].lastCheckpoint.number.seqNo
  {
    assert events[t].node in states[t].nodes;
    hide Execution, SystemOk, Enabled, LeaderEntry, MessagesOk, Selects, IsMerge, Record, VotesAt;
    var e := events[t];
    var s, m := states[t].nodes[e.node], e.input.msg.viewChange;
    var vc := Record(s, m).change.messages[j];
    ReachableOk(cfg, states, events, t);
    EntryMerges(cfg, states[t], e);
    RecordFiles(cfg, states[t], e.node, m, j);
    u := VoteWasCast(cfg, states, events, t, vc);
    MinCovers(s.lastCheckpoint.number.seqNo, Record(s, m).change.messages, e.choice.merge, j);
    VoteShows(cfg, states, events, u, vc);
  }

  lemma RecordFiles(cfg: Config, sys: System, id: NodeId, m: SignedViewChange, j: NodeId)
    requires cfg.Valid() && SystemOk(cfg, sys) && id in sys.nodes && j in Record(sys.nodes[id], m).change.messages
    ensures Record(sys.nodes[id], m).change.messages[j].message.node == j
  {
    assert Ready(cfg, id, sys.sent, sys.nodes[id]);
    hide NodeOk, MessagesOk, LogValid, PendingValid;
  }

  lemma MinCovers(low: int, messages: map<NodeId, SignedViewChange>, merge: Merge, j: NodeId)
    requires IsMerge(low, messages, merge) && j in messages
    ensures messages[j].message.checkpoint.seqNo <= merge.minS
  {
    hide Selects, IsMaxProof;
  }

  lemma VoteShows(cfg: Config, states: seq<System>, events: seq<Event>, u: nat, vc: SignedViewChange)
    requires cfg.Valid() && Execution(cfg, states, events) && u < |events| && VotesAt(cfg, states, events, u, vc)
    ensures vc.message.checkpoint == states[u].nodes[vc.message.node].lastCheckpoint.number
  {
  }
}
