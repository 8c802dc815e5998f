/**
 What holds over a whole run of one replica, whatever the rest of the world sends it. Results that need every
 leader entry to go to a higher view say so with Fresh; the guard in the source does not ensure it.
 */
module NodeRuns {
  import opened Types
  import opened Replica
  import opened ReplicaInvariants

  datatype Stimulus = Stimulus(input: Input, choice: Choice)

  // The view this input makes the node enter, if any.
  function Enters(cfg: Config, id: NodeId, s: NodeState, input: Input): Option<int>
    requires |cfg.nodes| >= 1
  {
    if input.Receive? && input.msg.MViewChange? && LeaderEntry(cfg, id, s, input.msg.viewChange) then
      Some(input.msg.viewChange.message.view)
    else if input.Receive? && input.msg.MNewView? && EntersByNewView(s, input.msg.newView) then
      Some(input.msg.newView.message.view)
    else None
  }

  predicate EntersAsLeader(cfg: Config, id: NodeId, s: NodeState, input: Input)
    requires |cfg.nodes| >= 1
  {
    input.Receive? && input.msg.MViewChange? && LeaderEntry(cfg, id, s, input.msg.viewChange)
  }

  predicate Fresh(cfg: Config, id: NodeId, s: NodeState, input: Input)
    requires |cfg.nodes| >= 1
  {
    EntersAsLeader(cfg, id, s, input) ==> input.msg.viewChange.message.view > s.view
  }

  ghost predicate Run(cfg: Config, id: NodeId, states: seq<NodeState>, stimuli: seq<Stimulus>)
    requires |cfg.nodes| >= 1
  {
    && |states| == |stimuli| + 1
    && states[0] == Initial(cfg, id)
    && forall i :: 0 <= i < |stimuli| ==>
         && ChoiceOk(cfg, id, states[i], stimuli[i].input, stimuli[i].choice)
         && states[i + 1] == Step(cfg, id, states[i], stimuli[i].input, stimuli[i].choice).state
  }

  ghost predicate FreshRun(cfg: Config, id: NodeId, states: seq<NodeState>, stimuli: seq<Stimulus>)
    requires |cfg.nodes| >= 1
  {
    && Run(cfg, id, states, stimuli)
    && forall i :: 0 <= i < |stimuli| ==> Fresh(cfg, id, states[i], stimuli[i].input)
  }

  lemma EmptyRun(cfg: Config, id: NodeId)
    requires |cfg.nodes| >= 1
    ensures Run(cfg, id, [Initial(cfg, id)], []) && FreshRun(cfg, id, [Initial(cfg, id)], [])
  {
  }

  lemma RunExtends(cfg: Config, id: NodeId, states: seq<NodeState>, stimuli: seq<Stimulus>, next: Stimulus)
    requires |cfg.nodes| >= 1 && Run(cfg, id, states, stimuli)
    requires ChoiceOk(cfg, id, states[|stimuli|], next.input, next.choice)
    ensures var longer := states + [Step(cfg, id, states[|stimuli|], next.input, next.choice).state];
      && Run(cfg, id, longer, stimuli + [next])
      && (FreshRun(cfg, id, states, stimuli) && Fresh(cfg, id, states[|stimuli|], next.input) ==>
          FreshRun(cfg, id, longer, stimuli + [next]))
  {
    hide ChoiceOk, Step, Fresh;
  }

  lemma {:induction false} RunValid(
    cfg: Config, id: NodeId, states: seq<NodeState>, stimuli: seq<Stimulus>, i: nat)
    requires cfg.Valid() && Run(cfg, id, states, stimuli) && i < |states|
    ensures Valid(cfg, states[i])
  {
    if i == 0 {
      InitialValid(cfg, id);
    } else {
      RunValid(cfg, id, states, stimuli, i - 1);
      StepValid(cfg, id, states[i - 1], stimuli[i - 1].input, stimuli[i - 1].choice);
    }
  }

  // Working through a set O touches the log and the issue counter only, and issues nothing.
  lemma {:induction false} AcceptAllFrame(
    cfg: Config, id: NodeId, s: NodeState, pps: map<SlotId, FullPrePrepare>, order: seq<SlotId>)
    requires |cfg.nodes| >= 1
    requires forall k :: k in order ==> k in pps
    ensures var t := AcceptAll(cfg, id, s, pps, order).state;
      && t == s.(log := t.log, issued := t.issued)
      && s.issued <= t.issued
      && forall m :: m in AcceptAll(cfg, id, s, pps, order).sent ==> m.MPrepare?
  {
    if order != [] {
      AcceptAllFrame(cfg, id, s, pps, order[..|order| - 1]);
    }
  }

  // One step moves every counter forward and is in the view it entered, or else in the one it was in.
  predicate Advances(s: NodeState, t: NodeState, entered: Option<int>) {
    && s.issued <= t.issued
    && s.requests <= t.requests
    && s.lastCheckpoint.number.BeforeOrEqual(t.lastCheckpoint.number)
    && s.change.view <= t.change.view
    && t.view == (if entered.Some? then entered.value else s.view)
    && (entered.None? ==> s.sequenceNumber <= t.sequenceNumber)
  }

  lemma ViewChangeAdvances(cfg: Config, id: NodeId, s: NodeState, m: SignedViewChange, merge: Merge)
    requires cfg.Valid()
    ensures Advances(s, HandleViewChange(cfg, id, s, m, merge).state,
      if LeaderEntry(cfg, id, s, m) then Some(m.message.view) else None)
  {
  }

  lemma NewViewAdvances(cfg: Config, id: NodeId, s: NodeState, m: SignedNewView, order: seq<SlotId>)
    requires cfg.Valid()
    requires forall k :: k in order ==> k in m.message.prePrepares
    ensures Advances(s, HandleNewView(cfg, id, s, m, order).state,
      if EntersByNewView(s, m) then Some(m.message.view) else None)
  {
    if EntersByNewView(s, m) {
      AcceptAllFrame(cfg, id, EnterNewView(s, m.message.view), m.message.prePrepares, order);
    }
  }

  lemma AddCheckpointAdvances(cfg: Config, s: NodeState, m: SignedCheckpoint)
    ensures Advances(s, AddCheckpoint(cfg, s, m).state, None)
  {
  }

  lemma IssuingAdvances(cfg: Config, id: NodeId, s: NodeState)
    requires cfg.Valid()
    ensures forall r :: Advances(s, HandleClientRequest(cfg, id, s, r).state, None)
    ensures forall f :: Advances(s, HandlePrePrepare(cfg, id, s, f).state, None)
  {
    hide NextFull, IsPrimary, Accepts, SlotAt, AcceptInto;
  }

  lemma VotingAdvances(cfg: Config, id: NodeId, s: NodeState)
    requires cfg.Valid()
    ensures forall p :: Advances(s, HandlePrepare(cfg, id, s, p).state, None)
    ensures forall c :: Advances(s, HandleCommit(cfg, id, s, c).state, None)
  {
    hide IsPrepared, IsCommitted, SlotAt, PrepareInto, CommitInto, Config.Signer;
  }

  lemma NormalCaseAdvances(cfg: Config, id: NodeId, s: NodeState)
    requires cfg.Valid()
    ensures forall r :: Advances(s, HandleClientRequest(cfg, id, s, r).state, None)
    ensures forall f :: Advances(s, HandlePrePrepare(cfg, id, s, f).state, None)
    ensures forall p :: Advances(s, HandlePrepare(cfg, id, s, p).state, None)
    ensures forall c :: Advances(s, HandleCommit(cfg, id, s, c).state, None)
  {
    hide Advances, HandleClientRequest, HandlePrePrepare, HandlePrepare, HandleCommit;
    IssuingAdvances(cfg, id, s);
    VotingAdvances(cfg, id, s);
  }

  lemma MessageAdvances(cfg: Config, id: NodeId, s: NodeState, msg: Msg, choice: Choice)
    requires cfg.Valid() && ChoiceOk(cfg, id, s, Receive(msg), choice)
    ensures Advances(s, HandleMessage(cfg, id, s, msg, choice).state, Enters(cfg, id, s, Receive(msg)))
  {
    hide HandleClientRequest, HandlePrePrepare, HandlePrepare, HandleCommit, AddCheckpoint, HandleViewChange,
         HandleNewView, LeaderEntry, EntersByNewView;
    match msg
    case MCheckpoint(c) => AddCheckpointAdvances(cfg, s, c);
    case MCheckpointProof(p) =>
    case MViewChange(m) => ViewChangeAdvances(cfg, id, s, m, choice.merge);
    case MNewView(m) => NewViewAdvances(cfg, id, s, m, choice.order);
    case _ => NormalCaseAdvances(cfg, id, s);
  }

  /** Counters, the checkpoint and the request table only move forward, the sequence number unless a view is entered. */
  lemma StepAdvances(cfg: Config, id: NodeId, s: NodeState, input: Input, choice: Choice)
    requires cfg.Valid() && ChoiceOk(cfg, id, s, input, choice)
    ensures Advances(s, Step(cfg, id, s, input, choice).state, Enters(cfg, id, s, input))
  {
    hide HandleMessage, AddCheckpoint, HandleClientRequest;
    match input
    case Receive(msg) => MessageAdvances(cfg, id, s, msg, choice);
    case Propose(r) => NormalCaseAdvances(cfg, id, s);
    case SnapshotReply(number, state) =>
      AddCheckpointAdvances(cfg, s, SignedCheckpoint(Checkpoint(number, state, id), By(id)));
    case _ =>
  }

  /** The view goes back exactly when the node enters a lower view as its leader. */
  lemma ViewGoesBackIff(cfg: Config, id: NodeId, s: NodeState, input: Input, choice: Choice)
    requires cfg.Valid() && Valid(cfg, s) && ChoiceOk(cfg, id, s, input, choice)
    ensures Step(cfg, id, s, input, choice).state.view < s.view <==>
      EntersAsLeader(cfg, id, s, input) && input.msg.viewChange.message.view < s.view
    ensures Enters(cfg, id, s, input).Some? && !EntersAsLeader(cfg, id, s, input) ==>
      Step(cfg, id, s, input, choice).state.view > s.view
  {
    StepAdvances(cfg, id, s, input, choice);
    hide Step;
  }

  lemma {:induction false} RunMonotone(
    cfg: Config, id: NodeId, states: seq<NodeState>, stimuli: seq<Stimulus>, i: nat, j: nat)
    requires cfg.Valid() && Run(cfg, id, states, stimuli) && i <= j < |states|
    ensures states[i].issued <= states[j].issued
    ensures states[i].requests <= states[j].requests
    ensures states[i].lastCheckpoint.number.BeforeOrEqual(states[j].lastCheckpoint.number)
    ensures states[i].change.view <= states[j].change.view
    ensures FreshRun(cfg, id, states, stimuli) ==> states[i].view <= states[j].view
    decreases j - i
  {
    hide Step, Enters, ChoiceOk, Valid;
    if i < j {
      RunMonotone(cfg, id, states, stimuli, i, j - 1);
      RunValid(cfg, id, states, stimuli, j - 1);
      StepAdvances(cfg, id, states[j - 1], stimuli[j - 1].input, stimuli[j - 1].choice);
      ViewGoesBackIff(cfg, id, states[j - 1], stimuli[j - 1].input, stimuli[j - 1].choice);
    }
  }

  /** With fresh leader entries, no view is entered twice. */
  lemma EntersEachViewOnce(
    cfg: Config, id: NodeId, states: seq<NodeState>, stimuli: seq<Stimulus>, i: nat, j: nat)
    requires cfg.Valid() && FreshRun(cfg, id, states, stimuli) && i < j < |stimuli|
    requires Enters(cfg, id, states[i], stimuli[i].input).Some? && Enters(cfg, id, states[j], stimuli[j].input).Some?
    ensures Enters(cfg, id, states[i], stimuli[i].input).value < Enters(cfg, id, states[j], stimuli[j].input).value
  {
    StepAdvances(cfg, id, states[i], stimuli[i].input, stimuli[i].choice);
    RunMonotone(cfg, id, states, stimuli, i + 1, j);
    RunValid(cfg, id, states, stimuli, j);
    StepAdvances(cfg, id, states[j], stimuli[j].input, stimuli[j].choice);
    ViewGoesBackIff(cfg, id, states[j], stimuli[j].input, stimuli[j].choice);
  }

  // Allocation

  function RequestIn(input: Input): Option<string> {
    match input
    case Propose(r) => Some(r)
    case Receive(MClientRequest(r)) => Some(r)
    case _ => None
  }

  // The number this input makes the node give to a client request, if any, and to which digest.
  function Allocated(cfg: Config, id: NodeId, s: NodeState, input: Input): Option<PrePrepare>
    requires |cfg.nodes| >= 1
  {
    var r := RequestIn(input);
    if r.Some? && Allocates(cfg, id, s, r.value) then Some(NextFull(cfg, id, s, r.value).signed.message) else None
  }

  /** A client request never lands on a slot that holds a request already, and afterwards it is the one there. */
  lemma AllocationIsFresh(cfg: Config, id: NodeId, s: NodeState, input: Input, choice: Choice)
    requires cfg.Valid() && Valid(cfg, s) && ChoiceOk(cfg, id, s, input, choice)
    requires Allocated(cfg, id, s, input).Some?
    ensures var p := Allocated(cfg, id, s, input).value;
      var t := Step(cfg, id, s, input, choice).state;
      && (forall k :: k in s.log && s.log[k].request.Some? ==> k.seqNo < p.number.seqNo)
      && p.digest !in s.requests && p.digest in t.requests
      && p.number.seqNo == t.issued == s.issued + 1
      && p.number in t.log && t.log[p.number].preprepare.Some? && t.log[p.number].preprepare.value.message == p
  {
  }

  /** Over a run the numbers given to client requests strictly increase and no digest is given two of them. */
  lemma AllocationIsInjective(
    cfg: Config, id: NodeId, states: seq<NodeState>, stimuli: seq<Stimulus>, i: nat, j: nat)
    requires cfg.Valid() && Run(cfg, id, states, stimuli) && i < j < |stimuli|
    requires Allocated(cfg, id, states[i], stimuli[i].input).Some?
    requires Allocated(cfg, id, states[j], stimuli[j].input).Some?
    ensures var p := Allocated(cfg, id, states[i], stimuli[i].input).value;
      var q := Allocated(cfg, id, states[j], stimuli[j].input).value;
      p.number.seqNo < q.number.seqNo && p.digest != q.digest
  {
    RunValid(cfg, id, states, stimuli, i);
    RunValid(cfg, id, states, stimuli, j);
    AllocationIsFresh(cfg, id, states[i], stimuli[i].input, stimuli[i].choice);
    AllocationIsFresh(cfg, id, states[j], stimuli[j].input, stimuli[j].choice);
    RunMonotone(cfg, id, states, stimuli, i + 1, j);
  }

  // Delivery

  predicate Delivers(o: Outcome, k: SlotId) {
    o.delivered.Some? && o.delivered.value.number == k && o.delivered.value.request.Some?
  }

  // Requests are held only for views the node has reached.
  ghost predicate Held(s: NodeState) {
    forall k :: k in s.log && s.log[k].request.Some? ==> k.view <= s.view
  }

  // No request can be delivered for k any more: the slot says committed, or the checkpoint has passed it, or the
  // checkpoint is at it and whatever late messages rebuild there will not get a request.
  predicate Spent(s: NodeState, k: SlotId) {
    && k.seqNo <= s.issued
    && (|| SlotAt(s.log, k).committed
        || k.Before(s.lastCheckpoint.number)
        || (k == s.lastCheckpoint.number && SlotAt(s.log, k).request.None?))
  }

  // The node enters a view as its leader and issues number k of that view over again.
  ghost predicate Reopens(cfg: Config, id: NodeId, s: NodeState, input: Input, choice: Choice, k: SlotId)
    requires |cfg.nodes| >= 1
  {
    && EntersAsLeader(cfg, id, s, input)
    && k in ReissuedNumbers(input.msg.viewChange.message.view, choice.merge)
    && !k.Before(s.lastCheckpoint.number)
  }

  lemma PrePrepareSpent(cfg: Config, id: NodeId, s: NodeState, full: FullPrePrepare, k: SlotId)
    requires cfg.Valid()
    ensures Held(s) ==> Held(HandlePrePrepare(cfg, id, s, full).state)
    ensures Spent(s, k) ==> Spent(HandlePrePrepare(cfg, id, s, full).state, k)
  {
  }

  lemma ClientRequestSpent(cfg: Config, id: NodeId, s: NodeState, request: string, k: SlotId)
    requires cfg.Valid()
    ensures Held(s) ==> Held(HandleClientRequest(cfg, id, s, request).state)
    ensures Spent(s, k) ==> Spent(HandleClientRequest(cfg, id, s, request).state, k)
  {
  }

  lemma PrepareSpent(cfg: Config, id: NodeId, s: NodeState, message: SignedPrepare, k: SlotId)
    requires cfg.Valid()
    ensures Held(s) ==> Held(HandlePrepare(cfg, id, s, message).state)
    ensures Spent(s, k) ==> Spent(HandlePrepare(cfg, id, s, message).state, k)
  {
    hide HandlePrepare, IsPrepared;
    PrepareShape(cfg, id, s, message);
  }

  lemma CommitSpent(cfg: Config, id: NodeId, s: NodeState, message: SignedCommit, k: SlotId)
    requires cfg.Valid()
    ensures Held(s) ==> Held(HandleCommit(cfg, id, s, message).state)
    ensures Spent(s, k) ==> Spent(HandleCommit(cfg, id, s, message).state, k)
  {
    hide HandleCommit, IsCommitted;
    CommitShape(cfg, id, s, message);
  }

  lemma {:induction false} AcceptAllSpent(
    cfg: Config, id: NodeId, s: NodeState, pps: map<SlotId, FullPrePrepare>, order: seq<SlotId>, k: SlotId)
    requires cfg.Valid()
    requires forall n :: n in order ==> n in pps
    ensures Held(s) ==> Held(AcceptAll(cfg, id, s, pps, order).state)
    ensures Spent(s, k) ==> Spent(AcceptAll(cfg, id, s, pps, order).state, k)
  {
    if order != [] {
      var before := order[..|order| - 1];
      AcceptAllSpent(cfg, id, s, pps, before, k);
      PrePrepareSpent(cfg, id, AcceptAll(cfg, id, s, pps, before).state, pps[order[|order| - 1]], k);
    }
  }

  lemma FlushedSlots(log: map<SlotId, Slot>, flushed: set<SlotId>, k: SlotId)
    ensures SlotAt(log - flushed, k) == if k in flushed then EMPTY_SLOT else SlotAt(log, k)
    ensures forall n :: n in log - flushed ==> n in log && (log - flushed)[n] == log[n]
  {
  }

  lemma CheckpointedSpent(s: NodeState, c: CheckpointProof, k: SlotId)
    ensures Held(s) ==> Held(Checkpointed(s, c).state)
    ensures Spent(s, k) ==> Spent(Checkpointed(s, c).state, k)
  {
    var flushed := Flushed(s.pending, c.number);
    assert k in flushed ==> k.BeforeOrEqual(c.number);
    FlushedSlots(s.log, flushed, k);
    hide Flushed, SlotAt;
  }

  lemma AddCheckpointSpent(cfg: Config, s: NodeState, message: SignedCheckpoint, k: SlotId)
    ensures Held(s) ==> Held(AddCheckpoint(cfg, s, message).state)
    ensures Spent(s, k) ==> Spent(AddCheckpoint(cfg, s, message).state, k)
  {
    var s1 := Endorse(s, message);
    CheckpointedSpent(s1, s1.pending[message.message.number], k);
  }

  lemma BecomeLeaderSpent(cfg: Config, id: NodeId, s: NodeState, view: int, merge: Merge, k: SlotId)
    ensures view > s.view && Held(s) ==> Held(BecomeLeader(cfg, id, s, view, merge).state)
    ensures Spent(s, k) ==>
      (Spent(BecomeLeader(cfg, id, s, view, merge).state, k) <==>
       k in ReissuedNumbers(view, merge) ==> k.Before(s.lastCheckpoint.number))
  {
    var t := BecomeLeader(cfg, id, s, view, merge).state;
    var pps := NewViewPrePrepares(cfg, id, view, merge);
    assert forall n :: n in pps ==> n.view == view;
    assert forall n :: n in t.log && n !in pps ==> n in s.log && t.log[n] == s.log[n];
    assert k in s.log && k !in pps ==> k in t.log && t.log[k] == s.log[k];
  }

  lemma NewViewSpent(
    cfg: Config, id: NodeId, s: NodeState, message: SignedNewView, order: seq<SlotId>, k: SlotId)
    requires cfg.Valid() && (s.change.inProgress ==> s.change.view > s.view)
    requires forall n :: n in order ==> n in message.message.prePrepares
    ensures Held(s) ==> Held(HandleNewView(cfg, id, s, message, order).state)
    ensures Spent(s, k) ==> Spent(HandleNewView(cfg, id, s, message, order).state, k)
  {
    if EntersByNewView(s, message) {
      AcceptAllSpent(cfg, id, EnterNewView(s, message.message.view), message.message.prePrepares, order, k);
    }
  }

  lemma ViewChangeSpent(cfg: Config, id: NodeId, s: NodeState, m: SignedViewChange, merge: Merge, k: SlotId)
    requires cfg.Valid()
    ensures var t, view := HandleViewChange(cfg, id, s, m, merge).state, m.message.view;
      && (Held(s) && (LeaderEntry(cfg, id, s, m) ==> view > s.view) ==> Held(t))
      && (Spent(s, k) ==>
          (Spent(t, k) <==>
           !(LeaderEntry(cfg, id, s, m) && k in ReissuedNumbers(view, merge)
             && !k.Before(s.lastCheckpoint.number))))
  {
    NoEntryFrame(cfg, id, s, m, merge);
    hide HandleViewChange, BecomeLeader, ReissuedNumbers, LeaderEntry;
    if LeaderEntry(cfg, id, s, m) {
      BecomeLeaderSpent(cfg, id, Record(s, m), m.message.view, merge, k);
    }
  }

  lemma NoEntryFrame(cfg: Config, id: NodeId, s: NodeState, m: SignedViewChange, merge: Merge)
    requires cfg.Valid()
    ensures var o := HandleViewChange(cfg, id, s, m, merge);
      if LeaderEntry(cfg, id, s, m) then o == BecomeLeader(cfg, id, Record(s, m), m.message.view, merge)
      else o.state == s.(change := o.state.change)
  {
    hide BecomeLeader, ProofsSinceCheckpoint, Elected;
  }

  lemma MessageSpent(cfg: Config, id: NodeId, s: NodeState, msg: Msg, choice: Choice, k: SlotId)
    requires cfg.Valid() && Valid(cfg, s) && ChoiceOk(cfg, id, s, Receive(msg), choice)
    ensures Held(s) && Fresh(cfg, id, s, Receive(msg)) ==> Held(HandleMessage(cfg, id, s, msg, choice).state)
    ensures Spent(s, k) ==>
      (Spent(HandleMessage(cfg, id, s, msg, choice).state, k) <==>
       !Reopens(cfg, id, s, Receive(msg), choice, k))
  {
    hide HandleClientRequest, HandlePrePrepare, HandlePrepare, HandleCommit, AddCheckpoint, Checkpointed,
         HandleViewChange, HandleNewView, LeaderEntry, Spent, Held, IsMerge, LogValid, PendingValid, Filed;
    match msg
    case MClientRequest(r) => ClientRequestSpent(cfg, id, s, r, k);
    case MPrePrepare(full) => PrePrepareSpent(cfg, id, s, full, k);
    case MPrepare(p) => PrepareSpent(cfg, id, s, p, k);
    case MCommit(c) => CommitSpent(cfg, id, s, c, k);
    case MCheckpoint(c) => AddCheckpointSpent(cfg, s, c, k);
    case MCheckpointProof(p) => CheckpointedSpent(s, p.message.proof, k);
    case MViewChange(m) => ViewChangeSpent(cfg, id, s, m, choice.merge, k);
    case MNewView(m) => NewViewSpent(cfg, id, s, m, choice.order, k);
  }

  /** A spent slot stays spent in every step but one kind: an entry as leader that issues its number over again. */
  lemma SpentIsKeptIff(cfg: Config, id: NodeId, s: NodeState, input: Input, choice: Choice, k: SlotId)
    requires cfg.Valid() && Valid(cfg, s) && ChoiceOk(cfg, id, s, input, choice)
    ensures Held(s) && Fresh(cfg, id, s, input) ==> Held(Step(cfg, id, s, input, choice).state)
    ensures Spent(s, k) ==>
      (Spent(Step(cfg, id, s, input, choice).state, k) <==> !Reopens(cfg, id, s, input, choice, k))
  {
    hide HandleMessage, HandleClientRequest, AddCheckpoint, Valid;
    match input
    case Receive(msg) => MessageSpent(cfg, id, s, msg, choice, k);
    case Propose(r) => ClientRequestSpent(cfg, id, s, r, k);
    case SnapshotReply(number, state) =>
      AddCheckpointSpent(cfg, s, SignedCheckpoint(Checkpoint(number, state, id), By(id)), k);
    case _ =>
  }

  lemma OnlyCommitsDeliver(cfg: Config, id: NodeId, s: NodeState, input: Input, choice: Choice, k: SlotId)
    requires cfg.Valid() && ChoiceOk(cfg, id, s, input, choice)
    requires Delivers(Step(cfg, id, s, input, choice), k)
    ensures input.Receive? && input.msg.MCommit? && input.msg.commit.message.number == k
    ensures k in s.log && s.log[k].request == Step(cfg, id, s, input, choice).delivered.value.request
  {
    hide HandleClientRequest, HandlePrePrepare, HandlePrepare, AddCheckpoint, Checkpointed, HandleViewChange,
         HandleNewView, ProofsSinceCheckpoint, SendHeartbeat, IsMerge, IsCommitted;
    DeliverNothing(cfg, id, s);
    match input
    case Receive(msg) =>
      match msg {
        case MNewView(m) => NewViewDelivers(cfg, id, s, m, choice.order);
        case MViewChange(m) => ViewChangeDelivers(cfg, id, s, m, choice.merge);
        case _ =>
      }
    case _ =>
  }

  lemma NewViewDelivers(cfg: Config, id: NodeId, s: NodeState, m: SignedNewView, order: seq<SlotId>)
    requires cfg.Valid() && forall k :: k in order ==> k in m.message.prePrepares
    ensures HandleNewView(cfg, id, s, m, order).delivered == None
  {
    hide AcceptAll;
  }

  lemma ViewChangeDelivers(cfg: Config, id: NodeId, s: NodeState, m: SignedViewChange, merge: Merge)
    requires cfg.Valid()
    ensures HandleViewChange(cfg, id, s, m, merge).delivered == None
  {
    hide NewViewFor, ViewChangeFor, Elected, Joins;
  }

  lemma DeliverNothing(cfg: Config, id: NodeId, s: NodeState)
    requires cfg.Valid()
    ensures forall r :: HandleClientRequest(cfg, id, s, r).delivered == None
    ensures forall f :: HandlePrePrepare(cfg, id, s, f).delivered == None
    ensures forall p :: HandlePrepare(cfg, id, s, p).delivered == None
    ensures forall c :: AddCheckpoint(cfg, s, c).delivered == None
    ensures forall p :: Checkpointed(s, p).delivered == None
  {
  }

  // A slot spent in a view the node has reached is beyond the reach of its fresh entries.
  predicate Past(s: NodeState, k: SlotId) { Spent(s, k) && k.view <= s.view }

  lemma PastIsKept(cfg: Config, id: NodeId, s: NodeState, input: Input, choice: Choice, k: SlotId)
    requires cfg.Valid() && Valid(cfg, s) && ChoiceOk(cfg, id, s, input, choice) && Fresh(cfg, id, s, input)
    ensures Held(s) ==> Held(Step(cfg, id, s, input, choice).state)
    ensures Past(s, k) ==> !Reopens(cfg, id, s, input, choice, k) && Past(Step(cfg, id, s, input, choice).state, k)
  {
    hide Step, Valid, Spent, ChoiceOk;
    SpentIsKeptIff(cfg, id, s, input, choice, k);
    ViewGoesBackIff(cfg, id, s, input, choice);
  }

  /** A delivery spends its slot, and a spent slot delivers nothing. */
  lemma DeliverySpends(cfg: Config, id: NodeId, s: NodeState, input: Input, choice: Choice, k: SlotId)
    requires cfg.Valid() && Valid(cfg, s) && ChoiceOk(cfg, id, s, input, choice)
    requires Delivers(Step(cfg, id, s, input, choice), k)
    ensures !Spent(s, k) && Spent(Step(cfg, id, s, input, choice).state, k)
    ensures Held(s) ==> Past(Step(cfg, id, s, input, choice).state, k)
  {
    OnlyCommitsDeliver(cfg, id, s, input, choice, k);
  }

  lemma {:induction false} RunHeld(
    cfg: Config, id: NodeId, states: seq<NodeState>, stimuli: seq<Stimulus>, i: nat)
    requires cfg.Valid() && FreshRun(cfg, id, states, stimuli) && i < |states|
    ensures Held(states[i])
  {
    if i > 0 {
      RunHeld(cfg, id, states, stimuli, i - 1);
      RunValid(cfg, id, states, stimuli, i - 1);
      SpentIsKeptIff(cfg, id, states[i - 1], stimuli[i - 1].input, stimuli[i - 1].choice, SlotId(0, 0));
    }
  }

  // Between steps i and j, no entry as leader issues number k over again.
  ghost predicate NotReopened(
    cfg: Config, id: NodeId, states: seq<NodeState>, stimuli: seq<Stimulus>, i: nat, j: nat, k: SlotId)
    requires |cfg.nodes| >= 1 && i <= j < |states| && |states| == |stimuli| + 1
  {
    forall t :: i <= t < j ==> !Reopens(cfg, id, states[t], stimuli[t].input, stimuli[t].choice, k)
  }

  lemma {:induction false} RunSpent(
    cfg: Config, id: NodeId, states: seq<NodeState>, stimuli: seq<Stimulus>, i: nat, j: nat, k: SlotId)
    requires cfg.Valid() && Run(cfg, id, states, stimuli) && i <= j < |states| && Spent(states[i], k)
    requires NotReopened(cfg, id, states, stimuli, i, j, k)
    ensures Spent(states[j], k)
    decreases j - i
  {
    hide Step, ChoiceOk, Valid, Spent, Reopens;
    if i < j {
      RunSpent(cfg, id, states, stimuli, i, j - 1, k);
      RunValid(cfg, id, states, stimuli, j - 1);
      SpentIsKeptIff(cfg, id, states[j - 1], stimuli[j - 1].input, stimuli[j - 1].choice, k);
    }
  }

  lemma {:induction false} FreshRunsReopenNothing(
    cfg: Config, id: NodeId, states: seq<NodeState>, stimuli: seq<Stimulus>, i: nat, j: nat, k: SlotId)
    requires cfg.Valid() && FreshRun(cfg, id, states, stimuli) && i <= j < |states| && Past(states[i], k)
    ensures NotReopened(cfg, id, states, stimuli, i, j, k) && Past(states[j], k)
    decreases j - i
  {
    hide Step, ChoiceOk, Valid, Past, Reopens, Enters;
    if i < j {
      FreshRunsReopenNothing(cfg, id, states, stimuli, i, j - 1, k);
      RunValid(cfg, id, states, stimuli, j - 1);
      PastIsKept(cfg, id, states[j - 1], stimuli[j - 1].input, stimuli[j - 1].choice, k);
    }
  }

  /** In any run, a slot delivers a second request only after an entry as leader has issued its number over again. */
  lemma RedeliveryNeedsReissue(
    cfg: Config, id: NodeId, states: seq<NodeState>, stimuli: seq<Stimulus>, i: nat, j: nat, k: SlotId)
    requires cfg.Valid() && Run(cfg, id, states, stimuli) && i < j < |stimuli|
    requires Delivers(Step(cfg, id, states[i], stimuli[i].input, stimuli[i].choice), k)
    requires Delivers(Step(cfg, id, states[j], stimuli[j].input, stimuli[j].choice), k)
    ensures !NotReopened(cfg, id, states, stimuli, i + 1, j, k)
  {
    hide Step, ChoiceOk, Valid, Spent, NotReopened, Past, Delivers;
    RunValid(cfg, id, states, stimuli, i);
    RunValid(cfg, id, states, stimuli, j);
    DeliverySpends(cfg, id, states[i], stimuli[i].input, stimuli[i].choice, k);
    DeliverySpends(cfg, id, states[j], stimuli[j].input, stimuli[j].choice, k);
    if NotReopened(cfg, id, states, stimuli, i + 1, j, k) {
      RunSpent(cfg, id, states, stimuli, i + 1, j, k);
    }
  }

  /** With fresh leader entries, a request is delivered at most once per slot, whatever messages arrive. */
  lemma DeliveredAtMostOnce(
    cfg: Config, id: NodeId, states: seq<NodeState>, stimuli: seq<Stimulus>, i: nat, j: nat, k: SlotId)
    requires cfg.Valid() && FreshRun(cfg, id, states, stimuli) && i < j < |stimuli|
    requires Delivers(Step(cfg, id, states[i], stimuli[i].input, stimuli[i].choice), k)
    ensures !Delivers(Step(cfg, id, states[j], stimuli[j].input, stimuli[j].choice), k)
  {
    hide Step, ChoiceOk, Valid, Held, NotReopened, Past, Delivers;
    RunValid(cfg, id, states, stimuli, i);
    RunHeld(cfg, id, states, stimuli, i);
    DeliverySpends(cfg, id, states[i], stimuli[i].input, stimuli[i].choice, k);
    FreshRunsReopenNothing(cfg, id, states, stimuli, i + 1, j, k);
    if Delivers(Step(cfg, id, states[j], stimuli[j].input, stimuli[j].choice), k) {
      RedeliveryNeedsReissue(cfg, id, states, stimuli, i, j, k);
    }
  }
}
