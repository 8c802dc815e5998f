/**
 Entering a view by its leader's new view: when a node does, how it answers the set O; and what it leaves alone, in
 one step and over a run, for as long as it is changing view.
 */
module EntryAnswers {
  import opened Types
  import opened Replica
  import opened ReplicaInvariants
  import opened NodeRuns
  import opened Answers
  import opened CheckpointAnswers
  import opened ViewAnswers

  // When a new view is entered

  // The node is waiting for this view, or the view is above the one it is in or waiting for.
  predicate Wanted(s: NodeState, m: SignedNewView) {
    (s.change.inProgress && m.message.view == s.change.view) || m.message.view > Current(s)
  }

  /** A new view that is wanted is entered: the change is over and the number restarts; any other changes nothing. */
  lemma NewViewAnswer(cfg: Config, id: NodeId, s: NodeState, m: SignedNewView, choice: Choice)
    requires cfg.Valid() && ChoiceOk(cfg, id, s, Receive(MNewView(m)), choice)
    ensures var o := Step(cfg, id, s, Receive(MNewView(m)), choice);
      if Wanted(s, m) then
        && o.state.view == m.message.view && o.state.change == s.change.(inProgress := false)
        && o.state.sequenceNumber == Max(1, s.lastCheckpoint.number.seqNo)
        && o.state.lastCheckpoint == s.lastCheckpoint
      else Ignores(s, o)
  {
    hide AcceptAll;
    if Wanted(s, m) {
      AcceptAllFrame(cfg, id, EnterNewView(s, m.message.view), m.message.prePrepares, choice.order);
    }
  }

  // How the set O is answered

  // A backup of this view would accept the pre-prepare: signed by the leader, with the request's digest, above the
  // sequence number, in the window, and the first for its slot.
  ghost predicate Sound(cfg: Config, id: NodeId, s: NodeState, view: int, full: FullPrePrepare)
    requires |cfg.nodes| >= 1
  {
    var n, low := full.Number(), s.lastCheckpoint.number.seqNo;
    && cfg.LeaderFor(view) != id && full.signed.signature == By(cfg.LeaderFor(view))
    && full.Digest() == cfg.digest(full.request) && full.signed.message != PrePrepare(SlotId(0, 0), 0)
    && n.view == view && Max(1, low) < n.seqNo <= low + 300
    && (n !in s.log || s.log[n].request.None?)
  }

  // It is the only one for its slot among these.
  ghost predicate Alone(pps: map<SlotId, FullPrePrepare>, k: SlotId) {
    k in pps && forall j :: j in pps && pps[j].Number() == pps[k].Number() ==> j == k
  }

  ghost predicate Answered(id: NodeId, o: Outcome, full: FullPrePrepare) {
    var n := full.Number();
    && MPrepare(SignedPrepare(Prepare(n, full.Digest(), id), By(id))) in o.sent
    && n in o.state.log && o.state.log[n].request == Some(full.request) && o.state.log[n].digest == full.Digest()
  }

  lemma {:induction false} SlotWaits(
    cfg: Config, id: NodeId, s: NodeState, pps: map<SlotId, FullPrePrepare>, order: seq<SlotId>, n: SlotId)
    requires cfg.Valid() && (forall k :: k in order ==> k in pps)
    requires forall k :: k in order ==> pps[k].Number() != n
    ensures var t := AcceptAll(cfg, id, s, pps, order).state;
      (n in t.log <==> n in s.log) && (n in s.log ==> t.log[n] == s.log[n])
  {
    if order != [] {
      var front, full := order[..|order| - 1], pps[order[|order| - 1]];
      SlotWaits(cfg, id, s, pps, front, n);
      OtherSlotWaits(cfg, id, AcceptAll(cfg, id, s, pps, front).state, full, n);
      hide HandlePrePrepare;
    }
  }

  lemma OtherSlotWaits(cfg: Config, id: NodeId, s: NodeState, full: FullPrePrepare, n: SlotId)
    requires cfg.Valid() && full.Number() != n
    ensures var t := HandlePrePrepare(cfg, id, s, full).state;
      (n in t.log <==> n in s.log) && (n in s.log ==> t.log[n] == s.log[n])
  {
    hide Accepts;
  }

  // The node has entered the view, and has yet to handle this pre-prepare.
  ghost predicate Entered(cfg: Config, id: NodeId, s: NodeState, view: int, full: FullPrePrepare)
    requires |cfg.nodes| >= 1
  {
    !s.change.inProgress && s.view == view && s.sequenceNumber == Max(1, s.lastCheckpoint.number.seqNo)
    && Sound(cfg, id, s, view, full)
  }

  lemma EnteredAccepts(cfg: Config, id: NodeId, s: NodeState, full: FullPrePrepare)
    requires cfg.Valid() && Entered(cfg, id, s, s.view, full)
    ensures full.Number().seqNo > s.sequenceNumber && Answered(id, HandlePrePrepare(cfg, id, s, full), full)
  {
  }

  lemma AnsweredIsKept(cfg: Config, id: NodeId, s: NodeState, o: Outcome, full: FullPrePrepare, other: FullPrePrepare)
    requires cfg.Valid() && Answered(id, o, full) && other.Number() != full.Number()
    ensures var next := HandlePrePrepare(cfg, id, o.state, other);
      Answered(id, Send(next.state, o.sent + next.sent), full)
  {
    OtherSlotWaits(cfg, id, o.state, other, full.Number());
    hide HandlePrePrepare;
  }

  lemma {:induction false} AllAnswered(
    cfg: Config, id: NodeId, s: NodeState, pps: map<SlotId, FullPrePrepare>, order: seq<SlotId>, k: SlotId)
    requires cfg.Valid() && (forall n :: n in order ==> n in pps) && k in order && Alone(pps, k)
    requires forall i, j :: 0 <= i < j < |order| ==> order[i] != order[j]
    requires Entered(cfg, id, s, s.view, pps[k])
    ensures Answered(id, AcceptAll(cfg, id, s, pps, order), pps[k])
  {
    hide HandlePrePrepare, Answered, Sound;
    var front, last := order[..|order| - 1], order[|order| - 1];
    var before := AcceptAll(cfg, id, s, pps, front);
    AcceptAllFrame(cfg, id, s, pps, front);
    if last == k {
      SlotWaits(cfg, id, s, pps, front, pps[k].Number());
      StillEntered(cfg, id, s, before.state, pps[k]);
      EnteredAccepts(cfg, id, before.state, pps[k]);
      AnsweredTogether(id, before.sent, HandlePrePrepare(cfg, id, before.state, pps[k]), pps[k]);
    } else {
      AllAnswered(cfg, id, s, pps, front, k);
      AnsweredIsKept(cfg, id, s, before, pps[k], pps[last]);
    }
  }

  lemma StillEntered(cfg: Config, id: NodeId, s: NodeState, t: NodeState, full: FullPrePrepare)
    requires cfg.Valid() && Entered(cfg, id, s, s.view, full) && t == s.(log := t.log, issued := t.issued)
    requires var n := full.Number(); (n in t.log <==> n in s.log) && (n in s.log ==> t.log[n] == s.log[n])
    ensures Entered(cfg, id, t, t.view, full)
  {
  }

  lemma AnsweredTogether(id: NodeId, sent: set<Msg>, o: Outcome, full: FullPrePrepare)
    requires Answered(id, o, full)
    ensures Answered(id, Send(o.state, sent + o.sent), full)
  {
  }

  /**
   A backup that enters a view by its leader's new view answers every sound pre-prepare in the set O, in whatever order
   it takes them, if no other in the set is for the same slot.
   */
  lemma BackupAnswersO(cfg: Config, id: NodeId, s: NodeState, m: SignedNewView, choice: Choice, k: SlotId)
    requires cfg.Valid() && ChoiceOk(cfg, id, s, Receive(MNewView(m)), choice) && Wanted(s, m)
    requires Alone(m.message.prePrepares, k) && Sound(cfg, id, s, m.message.view, m.message.prePrepares[k])
    ensures Answered(id, Step(cfg, id, s, Receive(MNewView(m)), choice), m.message.prePrepares[k])
  {
    var pps, s1 := m.message.prePrepares, EnterNewView(s, m.message.view);
    assert Entered(cfg, id, s1, s1.view, pps[k]);
    hide AcceptAll, Answered, Sound, Entered, EnterNewView;
    AllAnswered(cfg, id, s1, pps, choice.order, k);
  }

  lemma {:induction false} AcceptAllAbove(
    cfg: Config, id: NodeId, s: NodeState, pps: map<SlotId, FullPrePrepare>, order: seq<SlotId>, p: SignedPrepare)
    requires cfg.Valid() && forall k :: k in order ==> k in pps
    requires MPrepare(p) in AcceptAll(cfg, id, s, pps, order).sent
    ensures p.message.number.seqNo > s.sequenceNumber
    ensures exists k :: k in pps && pps[k].Number() == p.message.number && pps[k].Digest() == p.message.digest
  {
    var front := order[..|order| - 1];
    var before, full := AcceptAll(cfg, id, s, pps, front), pps[order[|order| - 1]];
    AcceptAllFrame(cfg, id, s, pps, front);
    if MPrepare(p) in before.sent {
      hide HandlePrePrepare;
      AcceptAllAbove(cfg, id, s, pps, front, p);
    } else {
      assert order[|order| - 1] in order;
    }
  }

  /** It prepares nothing else: every prepare on entering is for one in the set, above the sequence number. */
  lemma BackupPreparesOnlyO(
    cfg: Config, id: NodeId, s: NodeState, m: SignedNewView, choice: Choice, p: SignedPrepare)
    requires cfg.Valid() && ChoiceOk(cfg, id, s, Receive(MNewView(m)), choice)
    requires MPrepare(p) in Step(cfg, id, s, Receive(MNewView(m)), choice).sent
    ensures Wanted(s, m) && p.message.number.seqNo > Max(1, s.lastCheckpoint.number.seqNo)
    ensures var pps := m.message.prePrepares;
      exists k :: k in pps && pps[k].Number() == p.message.number && pps[k].Digest() == p.message.digest
    ensures InWindow(cfg, id, Step(cfg, id, s, Receive(MNewView(m)), choice).state, p.message)
  {
    hide AcceptAll, InWindow;
    var s1 := EnterNewView(s, m.message.view);
    AcceptAllAbove(cfg, id, s1, m.message.prePrepares, choice.order, p);
    AcceptAllInWindow(cfg, id, s1, m.message.prePrepares, choice.order, p);
  }

  // While a node is changing view

  predicate NormalCase(input: Input) {
    || input.Propose?
    || (input.Receive? &&
        (input.msg.MClientRequest? || input.msg.MPrePrepare? || input.msg.MPrepare? || input.msg.MCommit?))
  }

  /** A node that is changing view takes no part in the normal case. */
  lemma ChangingIgnores(cfg: Config, id: NodeId, s: NodeState, input: Input, choice: Choice)
    requires cfg.Valid() && ChoiceOk(cfg, id, s, input, choice) && s.change.inProgress && NormalCase(input)
    ensures Ignores(s, Step(cfg, id, s, input, choice))
  {
    hide IsPrepared, IsCommitted, SlotAt, NextFull;
  }

  // The log is what is left of this one after checkpoints up to this number.
  ghost predicate OnlyDropped(log: map<SlotId, Slot>, t: NodeState) {
    && (forall k :: k in t.log ==> k in log && t.log[k] == log[k])
    && (forall k :: k in log && k !in t.log ==> !t.lastCheckpoint.number.Before(k))
  }

  lemma ChangingStep(cfg: Config, id: NodeId, s: NodeState, input: Input, choice: Choice)
    requires cfg.Valid() && Valid(cfg, s) && ChoiceOk(cfg, id, s, input, choice) && s.change.inProgress
    requires Enters(cfg, id, s, input).None?
    ensures var o := Step(cfg, id, s, input, choice);
      && o.state.change.inProgress && OnlyDropped(s.log, o.state)
      && forall m :: m in o.sent ==> !m.MPrepare? && !m.MCommit?
  {
    hide Step, Valid, ChoiceOk, OnlyDropped, LeaderEntry;
    if NormalCase(input) {
      ChangingIgnores(cfg, id, s, input, choice);
      SameLog(s);
    } else if EndorsementIn(cfg, id, input).Some? {
      ChangingEndorses(cfg, id, s, input, choice);
    } else {
      ChangingOther(cfg, id, s, input, choice);
    }
  }

  lemma SameLog(s: NodeState)
    ensures forall t: NodeState :: t.log == s.log ==> OnlyDropped(s.log, t)
  {
  }

  lemma ChangingEndorses(cfg: Config, id: NodeId, s: NodeState, input: Input, choice: Choice)
    requires cfg.Valid() && Valid(cfg, s) && ChoiceOk(cfg, id, s, input, choice) && s.change.inProgress
    requires EndorsementIn(cfg, id, input).Some?
    ensures var o := Step(cfg, id, s, input, choice);
      && o.state.change.inProgress && OnlyDropped(s.log, o.state)
      && forall m :: m in o.sent ==> !m.MPrepare? && !m.MCommit?
  {
    hide Valid, Step, ChoiceOk, Endorses, OnlyDropped, EndorsementIn;
    EndorsementAnswer(cfg, id, s, input, choice);
    EndorsesDrops(cfg, s, Step(cfg, id, s, input, choice).state, EndorsementIn(cfg, id, input).value);
    EndorsingFrame(cfg, id, s, input, choice);
  }

  lemma EndorsesDrops(cfg: Config, s: NodeState, t: NodeState, c: SignedCheckpoint)
    requires Endorses(cfg, s, t, c)
    ensures OnlyDropped(s.log, t)
  {
  }

  lemma EndorsingFrame(cfg: Config, id: NodeId, s: NodeState, input: Input, choice: Choice)
    requires ChoiceOk(cfg, id, s, input, choice) && cfg.Valid() && EndorsementIn(cfg, id, input).Some?
    ensures Step(cfg, id, s, input, choice).state.change == s.change
  {
    hide AddCheckpoint;
    AddCheckpointFrame(cfg, s, EndorsementIn(cfg, id, input).value);
  }

  lemma ChangingOther(cfg: Config, id: NodeId, s: NodeState, input: Input, choice: Choice)
    requires cfg.Valid() && Valid(cfg, s) && ChoiceOk(cfg, id, s, input, choice) && s.change.inProgress
    requires Enters(cfg, id, s, input).None? && !NormalCase(input) && EndorsementIn(cfg, id, input).None?
    ensures var o := Step(cfg, id, s, input, choice);
      && o.state.change.inProgress && OnlyDropped(s.log, o.state)
      && forall m :: m in o.sent ==> !m.MPrepare? && !m.MCommit?
  {
    hide AddCheckpoint, Checkpointed, HandleViewChange, HandleNewView, StartViewChange, LeaderEntry, EntersByNewView,
         Valid, IsMerge, OnlyDropped;
    SameLog(s);
    match input
    case Receive(MCheckpoint(c)) => ForgeriesAreIgnored(cfg, id, s, MCheckpoint(c), choice);
    case Receive(MCheckpointProof(p)) => ChangingAdopts(s, p.message.proof);
    case Receive(MViewChange(m)) => ChangingVotes(cfg, id, s, m, choice.merge);
    case Receive(MNewView(m)) => NotEntered(cfg, id, s, m, choice.order);
    case RequestTimeout => ChangingAsks(cfg, id, s, s.view + 1);
    case _ =>
  }

  lemma ChangingAdopts(s: NodeState, c: CheckpointProof)
    requires s.change.inProgress
    ensures var o := Checkpointed(s, c);
      o.state.change.inProgress && o.sent == {} && OnlyDropped(s.log, o.state)
  {
    CheckpointedDrops(s, c);
    CheckpointedFrame(s, c);
  }

  lemma ChangingAsks(cfg: Config, id: NodeId, s: NodeState, view: int)
    requires s.change.inProgress
    ensures var o := StartViewChange(cfg, id, s, view);
      o.state.change.inProgress && o.state.log == s.log && forall m :: m in o.sent ==> m.MViewChange?
  {
    hide ViewChangeFor;
  }

  lemma ChangingVotes(cfg: Config, id: NodeId, s: NodeState, m: SignedViewChange, merge: Merge)
    requires cfg.Valid() && s.change.inProgress && !LeaderEntry(cfg, id, s, m)
    ensures var o := HandleViewChange(cfg, id, s, m, merge);
      o.state.change.inProgress && o.state.log == s.log && forall m :: m in o.sent ==> m.MViewChange?
  {
    hide ViewChangeFor, BecomeLeader, Elected;
  }

  lemma NotEntered(cfg: Config, id: NodeId, s: NodeState, m: SignedNewView, order: seq<SlotId>)
    requires cfg.Valid() && (forall k :: k in order ==> k in m.message.prePrepares) && !EntersByNewView(s, m)
    ensures HandleNewView(cfg, id, s, m, order) == Quiet(s)
  {
  }

  /** A node that is changing view sends no commits, and no prepares but those with which it enters a view. */
  lemma ChangingSendsNoVotes(cfg: Config, id: NodeId, s: NodeState, input: Input, choice: Choice)
    requires cfg.Valid() && Valid(cfg, s) && ChoiceOk(cfg, id, s, input, choice) && s.change.inProgress
    ensures forall m :: m in Step(cfg, id, s, input, choice).sent ==>
      !m.MCommit? && (m.MPrepare? ==> Enters(cfg, id, s, input).Some?)
  {
    hide Valid, ChoiceOk, LeaderEntry, EntersByNewView;
    if Enters(cfg, id, s, input).Some? {
      EntrySendsNoCommits(cfg, id, s, input, choice);
    } else {
      ChangingStep(cfg, id, s, input, choice);
    }
    hide Step;
  }

  lemma EntrySendsNoCommits(cfg: Config, id: NodeId, s: NodeState, input: Input, choice: Choice)
    requires cfg.Valid() && ChoiceOk(cfg, id, s, input, choice) && Enters(cfg, id, s, input).Some?
    ensures forall m :: m in Step(cfg, id, s, input, choice).sent ==> !m.MCommit?
  {
    match input
    case Receive(MNewView(m)) =>
      AcceptAllFrame(cfg, id, EnterNewView(s, m.message.view), m.message.prePrepares, choice.order);
      hide AcceptAll;
    case Receive(MViewChange(m)) => hide NewViewFor, ViewChangeFor;
  }

  /**
   From the time a node asks for a view until it next enters one, its log changes only by losing slots its checkpoint
   has reached.
   */
  lemma {:induction false} LogWaits(
    cfg: Config, id: NodeId, states: seq<NodeState>, stimuli: seq<Stimulus>, i: nat, j: nat)
    requires cfg.Valid() && Run(cfg, id, states, stimuli) && i <= j < |states| && states[i].change.inProgress
    requires forall t :: i <= t < j ==> Enters(cfg, id, states[t], stimuli[t].input).None?
    ensures states[j].change.inProgress && OnlyDropped(states[i].log, states[j])
    decreases j - i
  {
    hide Step, ChoiceOk, Valid, Enters, OnlyDropped, SlotId.BeforeOrEqual;
    if i == j {
      SameLog(states[i]);
    } else {
      LogWaits(cfg, id, states, stimuli, i, j - 1);
      RunValid(cfg, id, states, stimuli, j - 1);
      ChangingStep(cfg, id, states[j - 1], stimuli[j - 1].input, stimuli[j - 1].choice);
      RunMonotone(cfg, id, states, stimuli, j - 1, j);
      DroppedTwice(states[i].log, states[j - 1], states[j]);
    }
  }

  lemma DroppedTwice(log: map<SlotId, Slot>, s: NodeState, t: NodeState)
    requires OnlyDropped(log, s) && OnlyDropped(s.log, t)
    requires s.lastCheckpoint.number.BeforeOrEqual(t.lastCheckpoint.number)
    ensures OnlyDropped(log, t)
  {
  }
}
