/**
 What a replica does with timeouts, votes and new views, and what it leaves alone while it changes view. Every
 statement is about Step and the fields before and after; thresholds are written out in the number of nodes.
 */
module ViewAnswers {
  import opened Types
  import opened Quorums
  import opened Replica
  import opened ReplicaInvariants
  import opened NodeRuns
  import opened Answers
  import opened CheckpointAnswers

  // What a vote shows

  // Slot k is prepared and after the checkpoint.
  predicate Provable(cfg: Config, s: NodeState, k: SlotId) {
    && k in s.log && s.lastCheckpoint.number.Before(k)
    && s.log[k].preprepare.Some? && |s.log[k].prepares| >= 2 * ((|cfg.nodes| - 1) / 3)
  }

  // The vote shows the node's checkpoint with its proof, and exactly the slots it has prepared after it.
  ghost predicate Shows(cfg: Config, id: NodeId, s: NodeState, vc: SignedViewChange) {
    var v := vc.message;
    && vc.signature == By(id) && v.node == id
    && v.checkpoint == s.lastCheckpoint.number && v.checkpointProof == s.lastCheckpoint.proof
    && (forall k :: k in v.proofs <==> Provable(cfg, s, k))
    && (forall k :: k in v.proofs ==>
          && v.proofs[k].number == k && s.log[k].request == Some(v.proofs[k].request)
          && s.log[k].preprepare == Some(v.proofs[k].preprepare)
          && s.log[k].digest == v.proofs[k].digest && s.log[k].prepares == v.proofs[k].prepares)
  }

  // The node asks for this view: that is all it does, and all that changes.
  ghost predicate AsksFor(cfg: Config, id: NodeId, s: NodeState, o: Outcome, view: int) {
    && (exists vc :: o.sent == {MViewChange(vc)} && vc.message.view == view && Shows(cfg, id, s, vc))
    && o == Send(s.(change := s.change.(messages := o.state.change.messages, inProgress := true, view := view)), o.sent)
  }

  lemma ProofsAreShown(cfg: Config, id: NodeId, s: NodeState, view: int)
    requires LogValid(cfg, s.log, s.issued)
    ensures Shows(cfg, id, s, ViewChangeFor(cfg, id, s, view))
  {
    forall k | k in s.log
      ensures Provable(cfg, s, k) <==> HasProof(cfg, s, k)
      ensures HasProof(cfg, s, k) ==> s.log[k].request.Some?
    {
      assert SlotValid(cfg, k, s.log[k]);
    }
    hide LogValid, Provable, HasProof;
  }

  lemma StartAsks(cfg: Config, id: NodeId, s: NodeState, view: int)
    requires LogValid(cfg, s.log, s.issued)
    ensures var o := StartViewChange(cfg, id, s, view);
      if !s.down && s.change.view <= view && !(s.change.inProgress && s.change.view == view)
      then AsksFor(cfg, id, s, o, view)
      else o == Quiet(s)
  {
    ProofsAreShown(cfg, id, s, view);
    hide LogValid, Shows, ViewChangeFor;
    assert ViewChangeFor(cfg, id, s, view).message.view == view by { VoteView(cfg, id, s, view); }
  }

  lemma VoteView(cfg: Config, id: NodeId, s: NodeState, view: int)
    ensures ViewChangeFor(cfg, id, s, view).message.view == view
  {
  }

  /**
   A timed-out request, or a backup's timer outside a view change, makes a node that is up ask for the view after its
   own, unless it has asked for that one and is still waiting, or for a later one.
   */
  lemma TimeoutAnswer(cfg: Config, id: NodeId, s: NodeState, input: Input, choice: Choice)
    requires cfg.Valid() && Valid(cfg, s) && ChoiceOk(cfg, id, s, input, choice)
    requires input.RequestTimeout? ||
      (input.HeartbeatTimeout? && !s.change.inProgress && cfg.LeaderFor(s.view) != id)
    ensures var o, view := Step(cfg, id, s, input, choice), s.view + 1;
      if !s.down && s.change.view <= view && !(s.change.inProgress && s.change.view == view)
      then AsksFor(cfg, id, s, o, view)
      else Ignores(s, o)
  {
    StartAsks(cfg, id, s, s.view + 1);
    hide Valid, StartViewChange, AsksFor, SendHeartbeat;
  }

  // Votes received

  // The latest messages once this one is recorded, and the view they are compared with.
  function Latest(s: NodeState, m: SignedViewChange): map<NodeId, SignedViewChange> {
    s.change.messages[m.message.node := m]
  }

  function Current(s: NodeState): int { if s.change.inProgress then s.change.view else s.view }

  // The peers whose latest message is for a view above this one.
  function Askers(messages: map<NodeId, SignedViewChange>, current: int): set<NodeId> {
    set j | j in messages && messages[j].message.view > current
  }

  ghost predicate Least(messages: map<NodeId, SignedViewChange>, current: int, low: int) {
    && (exists j :: j in Askers(messages, current) && messages[j].message.view == low)
    && (forall j :: j in Askers(messages, current) ==> low <= messages[j].message.view)
  }

  // The message is for a view above the current one, and with it f + 1 peers ask for such a view.
  ghost predicate BringsEnough(cfg: Config, s: NodeState, m: SignedViewChange) {
    m.message.view > Current(s) && |Askers(Latest(s, m), Current(s))| >= (|cfg.nodes| - 1) / 3 + 1
  }

  // The node leads the view voted for, is changing view, and has (2m)/3 votes for it.
  ghost predicate MakesLeader(cfg: Config, id: NodeId, s: NodeState, m: SignedViewChange)
    requires |cfg.nodes| >= 1
  {
    var voters := set j | j in Latest(s, m) && Latest(s, m)[j].message.view == m.message.view;
    s.change.inProgress && cfg.LeaderFor(m.message.view) == id && |voters| >= (2 * (|cfg.nodes| - 1)) / 3
  }

  // Of these numbers the log holds what was just issued, with no votes yet, and of all others what it held before.
  ghost predicate Issues(log: map<SlotId, Slot>, next: map<SlotId, Slot>, prePrepares: map<SlotId, FullPrePrepare>) {
    && (forall k :: k in prePrepares ==>
          var full := prePrepares[k];
          k in next &&
          next[k] == Slot(Some(full.request), full.Digest(), Some(full.signed), map[], map[], false, false))
    && (forall k :: k !in prePrepares ==> (k in next <==> k in log) && (k in log ==> next[k] == log[k]))
  }

  // The view is entered: the view change is over, and the new view, with the votes collected, is stored and sent.
  ghost predicate Leads(cfg: Config, id: NodeId, s: NodeState, m: SignedViewChange, o: Outcome) {
    var t, view := o.state, m.message.view;
    && t.view == view && t.change == ViewChangeInfo(Latest(s, m), false, s.change.view)
    && t.newView.Some? && t.newView.value.view == view && Issues(s.log, t.log, t.newView.value.prePrepares)
    && o.sent == {MNewView(SignedNewView(NewView(view, Latest(s, m), t.newView.value.prePrepares, id), By(id)))}
    && forall p :: p in cfg.nodes && p != id ==> p in t.caughtUp && t.caughtUp[p] == 0
  }

  lemma LatestIsRecord(s: NodeState, m: SignedViewChange)
    ensures Record(s, m) == s.(change := s.change.(messages := Latest(s, m)))
    ensures Above(Record(s, m).change.messages, CurrentView(Record(s, m))) == Askers(Latest(s, m), Current(s))
  {
  }

  lemma LeastIsLowest(messages: map<NodeId, SignedViewChange>, current: int, low: int)
    requires Least(messages, current, low)
    ensures Above(messages, current) != {} && LowestAbove(messages, current) == low
  {
    assert Above(messages, current) == Askers(messages, current);
    assert IsLowestAbove(messages, current, LowestAbove(messages, current));
  }

  lemma LeastExists(messages: map<NodeId, SignedViewChange>, current: int) returns (low: int)
    requires Askers(messages, current) != {}
    ensures Least(messages, current, low)
  {
    assert Above(messages, current) == Askers(messages, current);
    low := LowestAbove(messages, current);
    assert IsLowestAbove(messages, current, low);
  }

  lemma BecomesLeader(cfg: Config, id: NodeId, s: NodeState, m: SignedViewChange, merge: Merge)
    requires cfg.Valid()
    ensures var o := BecomeLeader(cfg, id, Record(s, m), m.message.view, merge);
      && Leads(cfg, id, s, m, o) && o.state.issued == Max(s.issued, merge.maxS)
      && o.state.newView.value.prePrepares == NewViewPrePrepares(cfg, id, m.message.view, merge)
  {
    hide NewViewPrePrepares;
  }

  // Whether the vote is joined, makes the node leader, or is only kept.
  lemma VoteCases(cfg: Config, id: NodeId, s: NodeState, m: SignedViewChange, merge: Merge)
    requires cfg.Valid() && Authentic(cfg, id, m.signature, m.message.node)
    ensures var o, s1 := HandleViewChange(cfg, id, s, m, merge), Record(s, m);
      if BringsEnough(cfg, s, m) then
        Askers(Latest(s, m), Current(s)) != {}
        && o == StartViewChange(cfg, id, s1, LowestAbove(Latest(s, m), Current(s)))
      else if MakesLeader(cfg, id, s, m) then o == BecomeLeader(cfg, id, s1, m.message.view, merge)
      else o == Quiet(s1)
  {
    var s1 := Record(s, m);
    LatestIsRecord(s, m);
    assert m.message.view > Current(s) ==> m.message.node in Askers(Latest(s, m), Current(s));
    assert Voters(Latest(s, m), m.message.view) ==
      set j | j in Latest(s, m) && Latest(s, m)[j].message.view == m.message.view;
    hide StartViewChange, BecomeLeader, LowestAbove, Config.LeaderFor;
  }

  /**
   An authentic vote above the current view that brings the count to f + 1 makes the node ask for the least view among
   those asked for, if it is up and has not asked for a later one; nothing else makes it ask for a view here.
   */
  lemma JoinAnswer(cfg: Config, id: NodeId, s: NodeState, m: SignedViewChange, choice: Choice, low: int)
    requires cfg.Valid() && Valid(cfg, s) && ChoiceOk(cfg, id, s, Receive(MViewChange(m)), choice)
    requires Authentic(cfg, id, m.signature, m.message.node) && BringsEnough(cfg, s, m)
    requires Least(Latest(s, m), Current(s), low)
    ensures var o := Step(cfg, id, s, Receive(MViewChange(m)), choice);
      && o.state.change.messages == Latest(s, m)
      && if !s.down && s.change.view <= low then AsksFor(cfg, id, s, o, low)
         else o == Quiet(s.(change := s.change.(messages := Latest(s, m))))
  {
    VoteCases(cfg, id, s, m, choice.merge);
    LatestIsRecord(s, m);
    LeastIsLowest(Latest(s, m), Current(s), low);
    var s1 := Record(s, m);
    StartAsks(cfg, id, s1, low);
    RecordShowsSame(cfg, id, s, m);
    assert s.change.inProgress ==> low > s.change.view by { LeastIsAbove(Latest(s, m), Current(s), low); }
    hide Valid, HandleViewChange, StartViewChange, LowestAbove, Shows, IsMerge, Record, BringsEnough, Least, Authentic;
  }

  lemma LeastIsAbove(messages: map<NodeId, SignedViewChange>, current: int, low: int)
    requires Least(messages, current, low)
    ensures low > current
  {
  }

  lemma RecordShowsSame(cfg: Config, id: NodeId, s: NodeState, m: SignedViewChange)
    ensures forall vc :: Shows(cfg, id, Record(s, m), vc) <==> Shows(cfg, id, s, vc)
  {
    assert forall k :: Provable(cfg, Record(s, m), k) <==> Provable(cfg, s, k);
    hide Provable;
  }

  /** Otherwise the vote makes the node enter its view as leader iff it completes (2m)/3, or is only recorded. */
  lemma LeadAnswer(cfg: Config, id: NodeId, s: NodeState, m: SignedViewChange, choice: Choice)
    requires cfg.Valid() && ChoiceOk(cfg, id, s, Receive(MViewChange(m)), choice)
    requires Authentic(cfg, id, m.signature, m.message.node) && !BringsEnough(cfg, s, m)
    ensures var o, merge := Step(cfg, id, s, Receive(MViewChange(m)), choice), choice.merge;
      if MakesLeader(cfg, id, s, m) then
        && Leads(cfg, id, s, m, o) && o.state.issued == Max(s.issued, merge.maxS)
        && o.state.newView.value.prePrepares == NewViewPrePrepares(cfg, id, m.message.view, merge)
      else o == Quiet(s.(change := s.change.(messages := Latest(s, m))))
  {
    VoteCases(cfg, id, s, m, choice.merge);
    LatestIsRecord(s, m);
    BecomesLeader(cfg, id, s, m, choice.merge);
    hide HandleViewChange, BecomeLeader, IsMerge, Leads, MakesLeader, BringsEnough, Authentic;
  }

  /** A vote cast on receiving one is for the least view that f + 1 peers, with the sender among them, ask for. */
  lemma VoteIsJoined(
    cfg: Config, id: NodeId, s: NodeState, m: SignedViewChange, choice: Choice, vc: SignedViewChange)
    requires cfg.Valid() && Valid(cfg, s) && ChoiceOk(cfg, id, s, Receive(MViewChange(m)), choice)
    requires var o := Step(cfg, id, s, Receive(MViewChange(m)), choice); MViewChange(vc) in o.sent
    ensures Authentic(cfg, id, m.signature, m.message.node) && BringsEnough(cfg, s, m)
    ensures Least(Latest(s, m), Current(s), vc.message.view)
    ensures var t := Step(cfg, id, s, Receive(MViewChange(m)), choice).state;
      t.change.inProgress && t.change.view == vc.message.view && Shows(cfg, id, s, vc)
  {
    hide Step, Valid, ChoiceOk, Shows, BringsEnough, MakesLeader, Authentic, Askers;
    if !Authentic(cfg, id, m.signature, m.message.node) {
      ForgeriesAreIgnored(cfg, id, s, MViewChange(m), choice);
    } else if !BringsEnough(cfg, s, m) {
      LeadAnswer(cfg, id, s, m, choice);
    } else {
      EnoughIsSome(cfg, s, m);
      var low := LeastExists(Latest(s, m), Current(s));
      JoinAnswer(cfg, id, s, m, choice, low);
    }
  }

  lemma EnoughIsSome(cfg: Config, s: NodeState, m: SignedViewChange)
    requires BringsEnough(cfg, s, m)
    ensures Askers(Latest(s, m), Current(s)) != {}
  {
    assert m.message.node in Askers(Latest(s, m), Current(s));
  }

  /** So if at most f ids are faulty, some sound peer has asked for the view of that vote or a higher one. */
  lemma VoteHasSoundBacker(
    cfg: Config, id: NodeId, s: NodeState, m: SignedViewChange, choice: Choice, vc: SignedViewChange,
    faulty: set<NodeId>) returns (j: NodeId)
    requires cfg.Valid() && Valid(cfg, s) && ChoiceOk(cfg, id, s, Receive(MViewChange(m)), choice)
    requires MViewChange(vc) in Step(cfg, id, s, Receive(MViewChange(m)), choice).sent
    requires |faulty| <= (|cfg.nodes| - 1) / 3
    ensures j !in faulty && j in Latest(s, m) && Latest(s, m)[j].message.view >= vc.message.view
  {
    hide Step, Valid, ChoiceOk;
    VoteIsJoined(cfg, id, s, m, choice, vc);
    var askers := Askers(Latest(s, m), Current(s));
    if askers <= faulty {
      SubsetCardinality(askers, faulty);
    }
    j :| j in askers && j !in faulty;
  }

  // Nodes that are down

  lemma StepDown(cfg: Config, id: NodeId, s: NodeState, input: Input, choice: Choice)
    requires cfg.Valid() && ChoiceOk(cfg, id, s, input, choice)
    ensures var o := Step(cfg, id, s, input, choice);
      && o.state.down == (if input.SetDown? then input.down else s.down)
      && (s.down ==> forall m :: m in o.sent ==> !m.MViewChange?)
      && (input.SetDown? ==> Ignores(s.(down := input.down), o))
  {
    hide HandlePrePrepare, HandlePrepare, HandleCommit, AddCheckpoint, Checkpointed, HandleViewChange, HandleNewView,
         StartViewChange, SendHeartbeat, IsMerge;
    match input
    case Receive(msg) => MessageDown(cfg, id, s, msg, choice);
    case SnapshotReply(number, state) =>
      AddCheckpointFrame(cfg, s, SignedCheckpoint(Checkpoint(number, state, id), By(id)));
    case RequestTimeout => StartDown(cfg, id, s, s.view + 1);
    case HeartbeatTimeout => StartDown(cfg, id, s, s.view + 1);
    case _ =>
  }

  lemma MessageDown(cfg: Config, id: NodeId, s: NodeState, msg: Msg, choice: Choice)
    requires cfg.Valid() && ChoiceOk(cfg, id, s, Receive(msg), choice)
    ensures var o := HandleMessage(cfg, id, s, msg, choice);
      o.state.down == s.down && (s.down ==> forall m :: m in o.sent ==> !m.MViewChange?)
  {
    hide HandlePrePrepare, HandlePrepare, HandleCommit, AddCheckpoint, Checkpointed, HandleViewChange, HandleNewView,
         IsMerge;
    match msg
    case MClientRequest(_) =>
    case MPrePrepare(full) => PrePrepareFrame(cfg, id, s, full);
    case MPrepare(p) => PrepareShape(cfg, id, s, p);
    case MCommit(c) => CommitShape(cfg, id, s, c);
    case MCheckpoint(c) =>
      AddCheckpointFrame(cfg, s, c);
      AddCheckpointSends(cfg, s, c);
    case MCheckpointProof(p) =>
      CheckpointedFrame(s, p.message.proof);
      CheckpointedSends(s, p.message.proof);
    case MViewChange(m) =>
      ViewChangeFrame(cfg, id, s, m, choice.merge);
      if s.down { VoteDown(cfg, id, s, m, choice.merge); }
    case MNewView(m) =>
      NewViewFrame(cfg, id, s, m, choice.order);
      NewViewDown(cfg, id, s, m, choice.order);
  }

  lemma CheckpointedSends(s: NodeState, c: CheckpointProof)
    ensures Checkpointed(s, c).sent == {}
  {
  }

  lemma StartDown(cfg: Config, id: NodeId, s: NodeState, view: int)
    ensures var o := StartViewChange(cfg, id, s, view); o.state.down == s.down && (s.down ==> o.sent == {})
  {
    hide ViewChangeFor;
  }

  lemma VoteDown(cfg: Config, id: NodeId, s: NodeState, m: SignedViewChange, merge: Merge)
    requires cfg.Valid() && s.down
    ensures forall x :: x in HandleViewChange(cfg, id, s, m, merge).sent ==> !x.MViewChange?
  {
    hide NewViewFor, Elected, Joins, ViewChangeFor;
  }

  lemma NewViewDown(cfg: Config, id: NodeId, s: NodeState, m: SignedNewView, order: seq<SlotId>)
    requires cfg.Valid() && forall k :: k in order ==> k in m.message.prePrepares
    ensures forall x :: x in HandleNewView(cfg, id, s, m, order).sent ==> !x.MViewChange?
  {
    hide AcceptAll;
    if EntersByNewView(s, m) {
      AcceptAllFrame(cfg, id, EnterNewView(s, m.message.view), m.message.prePrepares, order);
    }
  }

  /** From the time a node is told it is down until it is told otherwise, it asks for no view. */
  lemma {:induction false} DownAsksForNothing(
    cfg: Config, id: NodeId, states: seq<NodeState>, stimuli: seq<Stimulus>, i: nat, j: nat)
    requires cfg.Valid() && Run(cfg, id, states, stimuli) && i < j < |stimuli|
    requires stimuli[i].input == SetDown(true) && forall t :: i < t < j ==> !stimuli[t].input.SetDown?
    ensures states[j].down
    ensures forall m :: m in Step(cfg, id, states[j], stimuli[j].input, stimuli[j].choice).sent ==> !m.MViewChange?
    decreases j - i
  {
    hide Step, ChoiceOk;
    if i + 1 < j {
      DownAsksForNothing(cfg, id, states, stimuli, i, j - 1);
    }
    StepDown(cfg, id, states[j - 1], stimuli[j - 1].input, stimuli[j - 1].choice);
    StepDown(cfg, id, states[j], stimuli[j].input, stimuli[j].choice);
  }
}
