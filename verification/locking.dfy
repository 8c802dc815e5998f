/**
 What a number keeps across views. A new view takes over its request if some proof for it is among the messages the
 leader merges. The thresholds alone do not bring one there, so that is a hypothesis on the run; or else the exact
 steps that give the number something else are named.
 */
module Locking {
  import opened Types
  import opened Replica
  import opened ReplicaInvariants
  import opened NodeRuns
  import opened Cluster
  import opened ClusterInvariants
  import opened Agreement
  import opened MergeResults

  // Among these view-change messages is a proof for number n prepared in view v or later.
  ghost predicate Visible(messages: map<NodeId, SignedViewChange>, v: int, n: int) {
    exists j, k :: ProofIn(messages, j, k) && k.seqNo == n && k.view >= v
  }

  ghost predicate MergesProof(cfg: Config, sys: System, e: Event, v: int, n: int)
    requires |cfg.nodes| >= 1
  {
    e.node in sys.nodes && EntersAsLeader(cfg, e.node, sys.nodes[e.node], e.input) &&
    e.input.msg.viewChange.message.view > v ==>
      Visible(Record(sys.nodes[e.node], e.input.msg.viewChange).change.messages, v, n)
  }

  // Every pre-prepare for n in a view after v repeats one for n in v, and no leader of a later view is below n.
  ghost predicate Locked(cfg: Config, sys: System, v: int, n: int)
    requires |cfg.nodes| >= 1
  {
    && (forall f :: Issued(sys.sent, f) && f.Number().seqNo == n && f.Number().view > v ==>
          Announced(sys.sent, SlotId(v, n), f.Digest()))
    && (forall id :: id in sys.nodes && sys.nodes[id].view > v && cfg.LeaderFor(sys.nodes[id].view) == id ==>
          sys.nodes[id].issued >= n)
  }

  lemma {:induction false} ChosenIsLocked(
    cfg: Config, id: NodeId, sent: set<Msg>, messages: map<NodeId, SignedViewChange>, chosen: map<int, RequestView>,
    v: int, n: int)
    requires |cfg.nodes| >= 1 && MessagesOk(cfg, sent) && CollectedOk(id, sent, messages)
    requires Selects(messages, chosen) && Visible(messages, v, n)
    requires forall f :: Issued(sent, f) && f.Number().seqNo == n && f.Number().view > v ==>
      Announced(sent, SlotId(v, n), f.Digest())
    ensures n in chosen && Announced(sent, SlotId(v, n), chosen[n].digest)
  {
    var i, h :| ProofIn(messages, i, h) && h.seqNo == n && h.view >= v;
    assert n in chosen && chosen[n].view >= v;
    var j, k :| ProofIn(messages, j, k) && k.seqNo == n && chosen[n] == RequestViewOf(messages, j, k);
    ProofDigest(cfg, sent, messages[j], k);
    var p := messages[j].message.proofs[k];
    var f := FullPrePrepare(p.preprepare, p.request);
    assert Issued(sent, f) && f.signed.message == PrePrepare(k, chosen[n].digest);
    if k.view == v {
      assert k == SlotId(v, n);
    }
  }

  lemma EntryIssues(cfg: Config, id: NodeId, s: NodeState, input: Input, choice: Choice)
    requires cfg.Valid() && ChoiceOk(cfg, id, s, input, choice) && EntersAsLeader(cfg, id, s, input)
    ensures choice.merge.maxS <= Step(cfg, id, s, input, choice).state.issued
  {
  }

  lemma IssuedIsLocked(cfg: Config, sys: System, e: Event, f: FullPrePrepare, v: int, n: int)
    requires cfg.Valid() && SystemOk(cfg, sys) && Enabled(cfg, sys, e) && Locked(cfg, sys, v, n)
    requires MergesProof(cfg, sys, e, v, n)
    requires IssuedBy(cfg, e.node, sys.nodes[e.node], e.input, e.choice.merge, f)
    requires f.Number().seqNo == n && f.Number().view > v
    ensures Announced(sys.sent, SlotId(v, n), f.Digest())
  {
    var id, s := e.node, sys.nodes[e.node];
    assert Ready(cfg, id, sys.sent, s);
    if EntersAsLeader(cfg, id, s, e.input) {
      var m := e.input.msg.viewChange;
      RecordKept(cfg, id, sys.sent, s, m);
      var s1 := Record(s, m);
      assert CollectedOk(id, sys.sent, s1.change.messages);
      assert Selects(s1.change.messages, e.choice.merge.chosen);
      assert Visible(s1.change.messages, v, n);
      hide SystemOk, Ready, Enabled, MessagesOk, Selects, CollectedOk;
      ChosenIsLocked(cfg, id, sys.sent, s1.change.messages, e.choice.merge.chosen, v, n);
    }
  }

  lemma LeaderCovers(cfg: Config, sys: System, e: Event, v: int, n: int)
    requires cfg.Valid() && SystemOk(cfg, sys) && OneNewView(cfg, sys) && Enabled(cfg, sys, e)
    requires FreshEvent(cfg, sys, e) && MergesProof(cfg, sys, e, v, n) && Locked(cfg, sys, v, n)
    ensures var t := Perform(cfg, sys, e).state;
      t.view > v && cfg.LeaderFor(t.view) == e.node ==> t.issued >= n
  {
    var id, s := e.node, sys.nodes[e.node];
    assert Ready(cfg, id, sys.sent, s);
    StepAdvances(cfg, id, s, e.input, e.choice);
    ViewGoesBackIff(cfg, id, s, e.input, e.choice);
    if EntersAsLeader(cfg, id, s, e.input) {
      EntryIssues(cfg, id, s, e.input, e.choice);
    }
    hide Step, Ready, SystemOk, LeaderEntry;
  }

  lemma NextLocked(cfg: Config, sys: System, e: Event, v: int, n: int)
    requires cfg.Valid() && SystemOk(cfg, sys) && OneNewView(cfg, sys) && Enabled(cfg, sys, e)
    requires FreshEvent(cfg, sys, e) && MergesProof(cfg, sys, e, v, n) && Locked(cfg, sys, v, n)
    ensures Locked(cfg, Next(cfg, sys, e), v, n)
  {
    hide Step, ChoiceOk, NodeOk, Valid, MessagesOk, IssuedBy, BuiltBy, MergesProof, FreshEvent, OneNewView;
    var id, s, next := e.node, sys.nodes[e.node], Next(cfg, sys, e);
    assert Ready(cfg, id, sys.sent, s);
    LeaderCovers(cfg, sys, e, v, n);
    StepIssues(cfg, id, sys.sent, s, e.input, e.choice);
    hide Ready, SystemOk;
    AfterGrows(sys.sent, Perform(cfg, sys, e).sent);
    hide After;
    forall f | Issued(next.sent, f) && f.Number().seqNo == n && f.Number().view > v
      ensures Announced(next.sent, SlotId(v, n), f.Digest())
    {
      if !Issued(sys.sent, f) {
        IssuedIsLocked(cfg, sys, e, f, v, n);
      }
      AnnouncedGrows(sys.sent, next.sent, SlotId(v, n), f.Digest());
    }
  }

  lemma InitLocked(cfg: Config, sys: System, v: int, n: int)
    requires cfg.Valid() && Init(cfg, sys) && v >= 0
    ensures Locked(cfg, sys, v, n)
  {
  }

  lemma {:induction false} RunLocked(
    cfg: Config, states: seq<System>, events: seq<Event>, v: int, n: int, i: nat)
    requires cfg.Valid() && FreshExecution(cfg, states, events) && v >= 0 && i < |states|
    requires forall t :: 0 <= t < |events| ==> MergesProof(cfg, states[t], events[t], v, n)
    ensures Locked(cfg, states[i], v, n)
  {
    hide Next, Enabled, FreshEvent, MergesProof, Locked, SystemOk, OnePrePrepare, OneNewView;
    if i > 0 {
      RunLocked(cfg, states, events, v, n, i - 1);
      ReachableOneEach(cfg, states, events, i - 1);
      NextLocked(cfg, states[i - 1], events[i - 1], v, n);
    } else {
      InitLocked(cfg, states[0], v, n);
    }
  }

  /**
   With fresh leader entries, if every leader of a view after v merges some proof for n prepared in v or later, then
   whatever is pre-prepared for n after v is what was pre-prepared for n in v, issued before or after it.
   */
  lemma LockedAcrossViews(
    cfg: Config, states: seq<System>, events: seq<Event>, v: int, n: int, i: nat, later: FullPrePrepare)
    requires cfg.Valid() && FreshExecution(cfg, states, events) && v >= 0 && i < |states|
    requires forall t :: 0 <= t < |events| ==> MergesProof(cfg, states[t], events[t], v, n)
    requires Issued(states[i].sent, later) && later.Number().seqNo == n && later.Number().view > v
    ensures Announced(states[i].sent, SlotId(v, n), later.Digest())
    ensures forall first :: Issued(states[i].sent, first) && first.Number() == SlotId(v, n) ==>
      first.Digest() == later.Digest()
  {
    hide FreshExecution, MergesProof, SystemOk, OneNewView;
    RunLocked(cfg, states, events, v, n, i);
    ReachableOneEach(cfg, states, events, i);
  }

  // When exactly a number keeps its digest from a view on, in any execution

  // This pre-prepare gives number n a request in view v or later.
  predicate Given(sent: set<Msg>, f: FullPrePrepare, v: int, n: int) {
    Issued(sent, f) && f.Number().seqNo == n && f.Number().view >= v
  }

  ghost predicate OneDigestFrom(sent: set<Msg>, v: int, n: int) {
    forall f, g :: Given(sent, f, v, n) && Given(sent, g, v, n) ==> f.Digest() == g.Digest()
  }

  // Number n has been given another digest than this one in view v or later.
  ghost predicate GivenOther(sent: set<Msg>, v: int, n: int, digest: Digest) {
    exists g :: Given(sent, g, v, n) && g.Digest() != digest
  }

  // A leader enters view v or later, and its set O gives n another digest than it has.
  ghost predicate EntryDiverts(cfg: Config, sys: System, e: Event, v: int, n: int)
    requires |cfg.nodes| >= 1
  {
    && e.node in sys.nodes && EntersAsLeader(cfg, e.node, sys.nodes[e.node], e.input)
    && var view := e.input.msg.viewChange.message.view;
       && view >= v && SlotId(view, n) in ReissuedNumbers(view, e.choice.merge)
       && GivenOther(sys.sent, v, n, Reissued(cfg, e.node, view, e.choice.merge, n).Digest())
  }

  // A leader of view v or later, whose counter is just below n, gives n to a request of another digest than n has.
  ghost predicate RequestDiverts(cfg: Config, sys: System, e: Event, v: int, n: int)
    requires |cfg.nodes| >= 1
  {
    && e.node in sys.nodes
    && var s, r := sys.nodes[e.node], RequestIn(e.input);
       && r.Some? && Allocates(cfg, e.node, s, r.value) && s.view >= v && s.issued + 1 == n
       && GivenOther(sys.sent, v, n, cfg.digest(r.value))
  }

  ghost predicate Diverts(cfg: Config, sys: System, e: Event, v: int, n: int)
    requires |cfg.nodes| >= 1
  {
    EntryDiverts(cfg, sys, e, v, n) || RequestDiverts(cfg, sys, e, v, n)
  }

  // What a step that does not divert n issues for it has the digest n has.
  lemma IssuedKeeps(cfg: Config, sys: System, e: Event, v: int, n: int, f: FullPrePrepare, g: FullPrePrepare)
    requires cfg.Valid() && e.node in sys.nodes && !Diverts(cfg, sys, e, v, n)
    requires IssuedBy(cfg, e.node, sys.nodes[e.node], e.input, e.choice.merge, f)
    requires f.Number().seqNo == n && f.Number().view >= v
    requires Given(sys.sent, g, v, n) || IssuedBy(cfg, e.node, sys.nodes[e.node], e.input, e.choice.merge, g)
    requires g.Number().seqNo == n
    ensures f.Digest() == g.Digest()
  {
    hide LeaderEntry, Allocates;
  }

  lemma DivertingIssues(cfg: Config, sys: System, e: Event, v: int, n: int) returns (f: FullPrePrepare)
    requires cfg.Valid() && SystemOk(cfg, sys) && Enabled(cfg, sys, e) && Diverts(cfg, sys, e, v, n)
    ensures Given(Next(cfg, sys, e).sent, f, v, n) && GivenOther(sys.sent, v, n, f.Digest())
  {
    var id, s := e.node, sys.nodes[e.node];
    hide SystemOk, Ready, ChoiceOk, Step, Reissued, GivenOther, LeaderEntry;
    if EntryDiverts(cfg, sys, e, v, n) {
      var view := e.input.msg.viewChange.message.view;
      f := Reissued(cfg, id, view, e.choice.merge, n);
      EntryIssuesItsRange(cfg, sys, e, SlotId(view, n));
    } else {
      f := NextFull(cfg, id, s, RequestIn(e.input).value);
      RequestIsIssued(cfg, sys, e);
    }
  }

  lemma RequestIsIssued(cfg: Config, sys: System, e: Event)
    requires cfg.Valid() && SystemOk(cfg, sys) && Enabled(cfg, sys, e)
    requires RequestIn(e.input).Some? && Allocates(cfg, e.node, sys.nodes[e.node], RequestIn(e.input).value)
    ensures Issued(Next(cfg, sys, e).sent, NextFull(cfg, e.node, sys.nodes[e.node], RequestIn(e.input).value))
  {
    var id, s, r := e.node, sys.nodes[e.node], RequestIn(e.input).value;
    assert s.issued >= 1 by { assert Ready(cfg, id, sys.sent, s); }
    hide SystemOk, Ready, ChoiceOk, After;
    ClientRequestSends(cfg, id, s, r);
    AfterHolds(sys.sent, Perform(cfg, sys, e).sent, MPrePrepare(NextFull(cfg, id, s, r)));
  }

  lemma AfterHolds(sent: set<Msg>, out: set<Msg>, m: Msg)
    ensures m in out ==> m in After(sent, out)
  {
  }

  lemma OneDigestFromIsKeptIff(cfg: Config, sys: System, e: Event, v: int, n: int)
    requires cfg.Valid() && SystemOk(cfg, sys) && Enabled(cfg, sys, e) && OneDigestFrom(sys.sent, v, n)
    ensures OneDigestFrom(Next(cfg, sys, e).sent, v, n) <==> !Diverts(cfg, sys, e, v, n)
  {
    hide SystemOk, Enabled, Next, OneDigestFrom, Diverts;
    if Diverts(cfg, sys, e, v, n) {
      DivertedIsLost(cfg, sys, e, v, n);
    } else {
      UndivertedIsKept(cfg, sys, e, v, n);
    }
  }

  lemma DivertedIsLost(cfg: Config, sys: System, e: Event, v: int, n: int)
    requires cfg.Valid() && SystemOk(cfg, sys) && Enabled(cfg, sys, e) && Diverts(cfg, sys, e, v, n)
    ensures !OneDigestFrom(Next(cfg, sys, e).sent, v, n)
  {
    hide SystemOk, ChoiceOk, Step, After, Diverts, FullPrePrepare.IsHeartbeat;
    AfterGrows(sys.sent, Perform(cfg, sys, e).sent);
    var f := DivertingIssues(cfg, sys, e, v, n);
    var g :| Given(sys.sent, g, v, n) && g.Digest() != f.Digest();
    assert Given(Next(cfg, sys, e).sent, g, v, n);
  }

  lemma UndivertedIsKept(cfg: Config, sys: System, e: Event, v: int, n: int)
    requires cfg.Valid() && SystemOk(cfg, sys) && Enabled(cfg, sys, e) && OneDigestFrom(sys.sent, v, n)
    requires !Diverts(cfg, sys, e, v, n)
    ensures OneDigestFrom(Next(cfg, sys, e).sent, v, n)
  {
    var next := Next(cfg, sys, e);
    NewIsIssued(cfg, sys, e);
    assert e.node in sys.nodes;
    hide SystemOk, Enabled, Next, IssuedBy, Diverts, FullPrePrepare.IsHeartbeat;
    forall f, g | Given(next.sent, f, v, n) && Given(next.sent, g, v, n)
      ensures f.Digest() == g.Digest()
    {
      if !Issued(sys.sent, f) {
        IssuedKeeps(cfg, sys, e, v, n, f, g);
      } else if !Issued(sys.sent, g) {
        IssuedKeeps(cfg, sys, e, v, n, g, f);
      }
    }
  }

  /**
   In any execution, fresh or not, number n has one digest in view v and all later ones exactly as long as no step
   has diverted it, and only a leader can: by entering a view, or by numbering a request.
   */
  lemma {:induction false} LockedIff(cfg: Config, states: seq<System>, events: seq<Event>, v: int, n: int, i: nat)
    requires cfg.Valid() && Execution(cfg, states, events) && i < |states|
    ensures OneDigestFrom(states[i].sent, v, n) <==>
      forall t :: 0 <= t < i ==> !Diverts(cfg, states[t], events[t], v, n)
  {
    hide Step, ChoiceOk, Next, Enabled, Diverts, SystemOk, OneDigestFrom;
    if i == 0 {
      NothingGiven(v, n);
    } else {
      LockedIff(cfg, states, events, v, n, i - 1);
      ReachableOk(cfg, states, events, i - 1);
      SentGrows(cfg, states, events, i - 1, i);
      FewerDigests(states[i - 1].sent, states[i].sent, v, n);
      if OneDigestFrom(states[i - 1].sent, v, n) {
        OneDigestFromIsKeptIff(cfg, states[i - 1], events[i - 1], v, n);
      }
    }
  }

  lemma NothingGiven(v: int, n: int)
    ensures OneDigestFrom({}, v, n)
  {
  }

  lemma FewerDigests(sent: set<Msg>, more: set<Msg>, v: int, n: int)
    requires sent <= more
    ensures OneDigestFrom(more, v, n) ==> OneDigestFrom(sent, v, n)
  {
    hide FullPrePrepare.IsHeartbeat;
    assert forall f :: Given(sent, f, v, n) ==> Given(more, f, v, n);
  }

  /**
   As long as n has one digest from view v on, an entry diverts it only if its leader has collected no proof for n
   from view v or later: what it gives n instead comes from an older proof, or is the no-op.
   */
  lemma DivertingEntryIsBlind(cfg: Config, sys: System, e: Event, v: int, n: int)
    requires cfg.Valid() && SystemOk(cfg, sys) && Enabled(cfg, sys, e)
    requires OneDigestFrom(sys.sent, v, n) && EntryDiverts(cfg, sys, e, v, n)
    ensures !Visible(Record(sys.nodes[e.node], e.input.msg.viewChange).change.messages, v, n)
    ensures n !in e.choice.merge.chosen || e.choice.merge.chosen[n].view < v
  {
    var messages, merge := Record(sys.nodes[e.node], e.input.msg.viewChange).change.messages, e.choice.merge;
    EntryMerges(cfg, sys, e);
    TakenOverIff(sys.nodes[e.node].lastCheckpoint.number.seqNo, messages, merge, v, n);
    hide SystemOk, Enabled, MessagesOk, IsMerge, LeaderEntry, Record, ReissuedNumbers;
    if n in merge.chosen && merge.chosen[n].view >= v {
      ChosenIsGiven(cfg, e.node, sys.sent, messages, merge.chosen, v, n);
    }
  }

  lemma EntryMerges(cfg: Config, sys: System, e: Event)
    requires cfg.Valid() && SystemOk(cfg, sys) && Enabled(cfg, sys, e)
    requires EntersAsLeader(cfg, e.node, sys.nodes[e.node], e.input)
    ensures var s := sys.nodes[e.node];
      var messages := Record(s, e.input.msg.viewChange).change.messages;
      && CollectedOk(e.node, sys.sent, messages) && MessagesOk(cfg, sys.sent)
      && IsMerge(s.lastCheckpoint.number.seqNo, messages, e.choice.merge)
      && Selects(messages, e.choice.merge.chosen)
  {
    var id, s, m := e.node, sys.nodes[e.node], e.input.msg.viewChange;
    assert Ready(cfg, id, sys.sent, s);
    hide SystemOk, MessagesOk, Valid, Selects, Joins, Elected;
    RecordKept(cfg, id, sys.sent, s, m);
  }

  lemma ChosenIsGiven(
    cfg: Config, id: NodeId, sent: set<Msg>, messages: map<NodeId, SignedViewChange>, chosen: map<int, RequestView>,
    v: int, n: int)
    requires |cfg.nodes| >= 1 && MessagesOk(cfg, sent) && CollectedOk(id, sent, messages)
    requires Selects(messages, chosen) && n in chosen && chosen[n].view >= v
    ensures exists f :: Given(sent, f, v, n) && f.Digest() == chosen[n].digest
  {
    var j, k :| ProofIn(messages, j, k) && k.seqNo == n && chosen[n] == RequestViewOf(messages, j, k);
    ProofDigest(cfg, sent, messages[j], k);
    var p := messages[j].message.proofs[k];
    assert Given(sent, FullPrePrepare(p.preprepare, p.request), v, n);
  }

  // The merge in a cluster

  lemma ProofsAgree(cfg: Config, sys: System, x: SignedViewChange, y: SignedViewChange, k: SlotId)
    requires cfg.Valid() && (forall id :: id in cfg.nodes ==> id in sys.nodes)
    requires OnePrePrepare(cfg, sys) && MessagesOk(cfg, sys.sent)
    requires MViewChange(x) in sys.sent && MViewChange(y) in sys.sent
    requires k in x.message.proofs && k in y.message.proofs
    ensures x.message.proofs[k].request == y.message.proofs[k].request
    ensures x.message.proofs[k].digest == y.message.proofs[k].digest
  {
    ProofDigest(cfg, sys.sent, x, k);
    ProofDigest(cfg, sys.sent, y, k);
    var p, q := x.message.proofs[k], y.message.proofs[k];
    hide MessagesOk;
    assert Issued(sys.sent, FullPrePrepare(p.preprepare, p.request));
    assert Issued(sys.sent, FullPrePrepare(q.preprepare, q.request));
  }

  lemma CollectedProofsAgree(cfg: Config, sys: System, id: NodeId)
    requires cfg.Valid() && SystemOk(cfg, sys) && OnePrePrepare(cfg, sys) && id in sys.nodes
    ensures TopProofsAgree(sys.nodes[id].change.messages)
  {
    var messages := sys.nodes[id].change.messages;
    assert Ready(cfg, id, sys.sent, sys.nodes[id]);
    assert CollectedOk(id, sys.sent, messages) && MessagesOk(cfg, sys.sent);
    hide SystemOk, Ready, MessagesOk, OnePrePrepare, NodeOk, Valid, IsTop;
    forall p: NodeId, h, q: NodeId, k | IsTop(messages, p, h) && IsTop(messages, q, k) && h.seqNo == k.seqNo
      ensures RequestViewOf(messages, p, h) == RequestViewOf(messages, q, k)
    {
      SameTop(messages, p, h, q, k);
      ProofsAgree(cfg, sys, messages[p], messages[q], h);
    }
  }

  lemma SameTop(messages: map<NodeId, SignedViewChange>, p: NodeId, h: SlotId, q: NodeId, k: SlotId)
    requires IsTop(messages, p, h) && IsTop(messages, q, k) && h.seqNo == k.seqNo
    ensures h == k && ProofIn(messages, p, h) && ProofIn(messages, q, h)
  {
  }

  /** With fresh leader entries the proofs a node has collected never disagree, so every order gives the same merge. */
  lemma ReachableMergeIsUnique(
    cfg: Config, states: seq<System>, events: seq<Event>, i: nat, id: NodeId, low: int, a: Merge, b: Merge)
    requires cfg.Valid() && FreshExecution(cfg, states, events) && i < |states| && id in states[i].nodes
    requires IsMerge(low, states[i].nodes[id].change.messages, a)
    requires IsMerge(low, states[i].nodes[id].change.messages, b)
    ensures a == b
  {
    hide FreshExecution, SystemOk, OnePrePrepare, OneNewView, IsMerge, TopProofsAgree;
    ReachableOneEach(cfg, states, events, i);
    CollectedProofsAgree(cfg, states[i], id);
    AgreeingMergesEqual(low, states[i].nodes[id].change.messages, a, b);
  }
}
