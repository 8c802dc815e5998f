/**
 The new-view merge and the join rule. A Walk is an order in which the source's nested loops may go through the two
 levels of maps. Every walk computes a merge, and all compute the same one exactly when the best proofs agree.
 */
module MergeResults {
  import opened Types
  import opened Quorums
  import opened Replica

  type Entry = (NodeId, SlotId)

  function Entries(messages: map<NodeId, SignedViewChange>): set<Entry> {
    set j, k | j in messages && k in messages[j].message.proofs :: (j, k)
  }

  ghost predicate SelectsFrom(
    messages: map<NodeId, SignedViewChange>, seen: set<Entry>, chosen: map<int, RequestView>)
    requires seen <= Entries(messages)
  {
    && (forall e :: e in seen ==> e.1.seqNo in chosen && e.1.view <= chosen[e.1.seqNo].view)
    && (forall n :: n in chosen ==>
          exists e :: e in seen && e.1.seqNo == n && chosen[n] == RequestViewOf(messages, e.0, e.1))
  }

  // One proof is looked at: it replaces what was chosen for its number only if its view is higher.
  function Choose(chosen: map<int, RequestView>, n: int, r: RequestView): map<int, RequestView> {
    if n in chosen && r.view <= chosen[n].view then chosen else chosen[n := r]
  }

  lemma ChooseSelects(
    messages: map<NodeId, SignedViewChange>, seen: set<Entry>, chosen: map<int, RequestView>, e: Entry)
    requires seen <= Entries(messages) && e in Entries(messages) && SelectsFrom(messages, seen, chosen)
    ensures SelectsFrom(messages, seen + {e}, Choose(chosen, e.1.seqNo, RequestViewOf(messages, e.0, e.1)))
  {
    var n := e.1.seqNo;
    var next := Choose(chosen, n, RequestViewOf(messages, e.0, e.1));
    forall i | i in next
      ensures exists d :: d in seen + {e} && d.1.seqNo == i && next[i] == RequestViewOf(messages, d.0, d.1)
    {
      if i in chosen && next[i] == chosen[i] {
        var d :| d in seen && d.1.seqNo == i && chosen[i] == RequestViewOf(messages, d.0, d.1);
        assert d in seen + {e};
      } else {
        assert e in seen + {e};
      }
    }
  }

  lemma ChooseIsMax(low: int, chosen: map<int, RequestView>, top: int, n: int, r: RequestView)
    requires IsMaxProof(low, chosen, top)
    ensures IsMaxProof(low, Choose(chosen, n, r), if top < n then n else top)
  {
  }

  lemma WholeWalkSelects(messages: map<NodeId, SignedViewChange>, chosen: map<int, RequestView>)
    requires SelectsFrom(messages, Entries(messages), chosen)
    ensures Selects(messages, chosen)
  {
    forall j: NodeId, k | ProofIn(messages, j, k)
      ensures k.seqNo in chosen && k.view <= chosen[k.seqNo].view
    {
      assert (j, k) in Entries(messages);
    }
    forall n | n in chosen
      ensures exists j, k :: ProofIn(messages, j, k) && k.seqNo == n && chosen[n] == RequestViewOf(messages, j, k)
    {
      var e :| e in Entries(messages) && e.1.seqNo == n && chosen[n] == RequestViewOf(messages, e.0, e.1);
      assert ProofIn(messages, e.0, e.1);
    }
  }

  // Walks

  // An order of the messages, and for each an order of the proofs in it.
  datatype Walk = Walk(order: seq<NodeId>, proofs: map<NodeId, seq<SlotId>>)

  ghost predicate IsWalk(messages: map<NodeId, SignedViewChange>, walk: Walk) {
    && Enumerates(walk.order, messages.Keys)
    && forall j :: j in messages ==> j in walk.proofs && Enumerates(walk.proofs[j], messages[j].message.proofs.Keys)
  }

  function Pairs(j: NodeId, proofs: seq<SlotId>): seq<Entry> {
    seq(|proofs|, i requires 0 <= i < |proofs| => (j, proofs[i]))
  }

  // The proofs in the order in which the two nested loops come to them.
  function Along(order: seq<NodeId>, proofs: map<NodeId, seq<SlotId>>): seq<Entry>
    requires forall j :: j in order ==> j in proofs
  {
    if order == [] then []
    else
      var last := |order| - 1;
      Along(order[..last], proofs) + Pairs(order[last], proofs[order[last]])
  }

  function ChosenAlong(messages: map<NodeId, SignedViewChange>, entries: seq<Entry>): map<int, RequestView>
    requires forall e :: e in entries ==> ProofIn(messages, e.0, e.1)
  {
    if entries == [] then map[]
    else
      var last := |entries| - 1;
      var e := entries[last];
      Choose(ChosenAlong(messages, entries[..last]), e.1.seqNo, RequestViewOf(messages, e.0, e.1))
  }

  function MaxAlong(low: int, entries: seq<Entry>): int {
    if entries == [] then low
    else
      var last := |entries| - 1;
      var top := MaxAlong(low, entries[..last]);
      if top < entries[last].1.seqNo then entries[last].1.seqNo else top
  }

  function MinAlong(low: int, messages: map<NodeId, SignedViewChange>, order: seq<NodeId>): int
    requires forall j :: j in order ==> j in messages
  {
    if order == [] then low
    else
      var last := |order| - 1;
      var min := MinAlong(low, messages, order[..last]);
      var n := messages[order[last]].message.checkpoint.seqNo;
      if n > min then n else min
  }

  lemma {:induction false} AlongEntries(
    messages: map<NodeId, SignedViewChange>, walk: Walk, order: seq<NodeId>, e: Entry)
    requires IsWalk(messages, walk) && forall j :: j in order ==> j in messages
    ensures e in Along(order, walk.proofs) <==> e.0 in order && ProofIn(messages, e.0, e.1)
  {
    if order != [] {
      var last := |order| - 1;
      AlongEntries(messages, walk, order[..last], e);
      assert order == order[..last] + [order[last]];
      PairsEntries(order[last], walk.proofs[order[last]], e);
    }
  }

  lemma PairsEntries(j: NodeId, proofs: seq<SlotId>, e: Entry)
    ensures e in Pairs(j, proofs) <==> e.0 == j && e.1 in proofs
  {
    if e.0 == j && e.1 in proofs {
      var i :| 0 <= i < |proofs| && proofs[i] == e.1;
      assert Pairs(j, proofs)[i] == e;
    }
  }

  lemma AllEntries(messages: map<NodeId, SignedViewChange>, walk: Walk)
    requires IsWalk(messages, walk)
    ensures forall e :: e in Along(walk.order, walk.proofs) <==> ProofIn(messages, e.0, e.1)
  {
    forall e: Entry
      ensures e in Along(walk.order, walk.proofs) <==> ProofIn(messages, e.0, e.1)
    {
      AlongEntries(messages, walk, walk.order, e);
    }
  }

  /** What the source computes when it walks the maps this way. */
  ghost function WalkMerge(low: int, messages: map<NodeId, SignedViewChange>, walk: Walk): Merge
    requires IsWalk(messages, walk)
  {
    AllEntries(messages, walk);
    var entries := Along(walk.order, walk.proofs);
    Merge(ChosenAlong(messages, entries), MinAlong(low, messages, walk.order), MaxAlong(low, entries))
  }

  // What a walk has chosen so far is a choice among the proofs it has come to.
  lemma {:induction false} AlongSelects(messages: map<NodeId, SignedViewChange>, entries: seq<Entry>)
    requires forall e :: e in entries ==> ProofIn(messages, e.0, e.1)
    ensures (set e | e in entries) <= Entries(messages)
    ensures SelectsFrom(messages, (set e | e in entries), ChosenAlong(messages, entries))
  {
    if entries != [] {
      var last := |entries| - 1;
      AlongSelects(messages, entries[..last]);
      assert entries == entries[..last] + [entries[last]];
      var before := set e | e in entries[..last];
      assert (set e | e in entries) == before + {entries[last]};
      ChooseSelects(messages, before, ChosenAlong(messages, entries[..last]), entries[last]);
    }
  }

  lemma {:induction false} MaxAlongIsMax(
    low: int, messages: map<NodeId, SignedViewChange>, entries: seq<Entry>)
    requires forall e :: e in entries ==> ProofIn(messages, e.0, e.1)
    ensures IsMaxProof(low, ChosenAlong(messages, entries), MaxAlong(low, entries))
  {
    if entries != [] {
      var last := |entries| - 1;
      var e := entries[last];
      MaxAlongIsMax(low, messages, entries[..last]);
      ChooseIsMax(low, ChosenAlong(messages, entries[..last]), MaxAlong(low, entries[..last]), e.1.seqNo,
                  RequestViewOf(messages, e.0, e.1));
    }
  }

  lemma {:induction false} MinAlongIsMax(low: int, messages: map<NodeId, SignedViewChange>, order: seq<NodeId>)
    requires forall j :: j in order ==> j in messages
    ensures var min := MinAlong(low, messages, order);
      && low <= min
      && (forall j :: j in order ==> messages[j].message.checkpoint.seqNo <= min)
      && (min == low || exists j :: j in order && messages[j].message.checkpoint.seqNo == min)
  {
    if order != [] {
      var last := |order| - 1;
      MinAlongIsMax(low, messages, order[..last]);
      assert order == order[..last] + [order[last]];
      assert order[last] in order;
    }
  }

  /** Every walk computes a merge: choices of highest view, the highest checkpoint, and the highest number. */
  lemma WalkIsMerge(low: int, messages: map<NodeId, SignedViewChange>, walk: Walk)
    requires IsWalk(messages, walk)
    ensures IsMerge(low, messages, WalkMerge(low, messages, walk))
  {
    var entries := Along(walk.order, walk.proofs);
    AllEntries(messages, walk);
    AlongSelects(messages, entries);
    assert (set e | e in entries) == Entries(messages) by {
      forall e: Entry
        ensures e in entries <==> e in Entries(messages)
      {
      }
    }
    WholeWalkSelects(messages, ChosenAlong(messages, entries));
    MaxAlongIsMax(low, messages, entries);
    MinAlongIsMax(low, messages, walk.order);
    hide Selects, IsMaxProof, ChosenAlong, MinAlong, MaxAlong;
  }

  // Any collection of messages has a walk, and one that starts with any of them

  ghost function SomeOrder<T(!new)>(keys: set<T>): (order: seq<T>)
    ensures Enumerates(order, keys)
    decreases |keys|
  {
    if keys == {} then []
    else
      var k :| k in keys;
      SomeOrder(keys - {k}) + [k]
  }

  ghost function WalkFrom(messages: map<NodeId, SignedViewChange>, order: seq<NodeId>): (walk: Walk)
    requires Enumerates(order, messages.Keys)
    ensures IsWalk(messages, walk) && walk.order == order
  {
    Walk(order, map j | j in messages :: SomeOrder(messages[j].message.proofs.Keys))
  }

  ghost function WalkStarting(messages: map<NodeId, SignedViewChange>, j: NodeId): (walk: Walk)
    requires j in messages
    ensures IsWalk(messages, walk) && walk.order != [] && walk.order[0] == j
  {
    WalkFrom(messages, [j] + SomeOrder(messages.Keys - {j}))
  }

  lemma MergeExists(low: int, messages: map<NodeId, SignedViewChange>) returns (merge: Merge)
    ensures IsMerge(low, messages, merge)
  {
    var walk := WalkFrom(messages, SomeOrder(messages.Keys));
    WalkIsMerge(low, messages, walk);
    merge := WalkMerge(low, messages, walk);
  }

  // The proof has the highest view of those for its number.
  ghost predicate IsTop(messages: map<NodeId, SignedViewChange>, j: NodeId, k: SlotId) {
    ProofIn(messages, j, k) &&
    forall i, h :: ProofIn(messages, i, h) && h.seqNo == k.seqNo ==> h.view <= k.view
  }

  // Proofs for one number that share the highest view also share request and digest.
  ghost predicate TopProofsAgree(messages: map<NodeId, SignedViewChange>) {
    forall i, h, j, k :: IsTop(messages, i, h) && IsTop(messages, j, k) && h.seqNo == k.seqNo ==>
      RequestViewOf(messages, i, h) == RequestViewOf(messages, j, k)
  }

  /** What every order chooses for a number is a proof of the highest view there is for it; other numbers get none. */
  lemma ChosenIsTop(messages: map<NodeId, SignedViewChange>, chosen: map<int, RequestView>, n: int)
    requires Selects(messages, chosen)
    ensures n in chosen <==> exists j, k :: ProofIn(messages, j, k) && k.seqNo == n
    ensures n in chosen ==>
      exists j, k :: IsTop(messages, j, k) && k.seqNo == n && chosen[n] == RequestViewOf(messages, j, k)
  {
    if n in chosen {
      var j, k :| ProofIn(messages, j, k) && k.seqNo == n && chosen[n] == RequestViewOf(messages, j, k);
      assert IsTop(messages, j, k);
    }
  }

  lemma AgreeingMergesEqual(low: int, messages: map<NodeId, SignedViewChange>, a: Merge, b: Merge)
    requires TopProofsAgree(messages) && IsMerge(low, messages, a) && IsMerge(low, messages, b)
    ensures a == b
  {
    forall n
      ensures n in a.chosen <==> n in b.chosen
      ensures n in a.chosen ==> a.chosen[n] == b.chosen[n]
    {
      ChosenIsTop(messages, a.chosen, n);
      ChosenIsTop(messages, b.chosen, n);
    }
    assert a.chosen == b.chosen;
  }

  // Before a walk comes to a proof of this highest view it has chosen something lower; the first such proof it comes
  // to, at index p, it keeps.
  lemma {:induction false} FirstTopWins(
    messages: map<NodeId, SignedViewChange>, entries: seq<Entry>, j: NodeId, h: SlotId, p: nat)
    requires forall e :: e in entries ==> ProofIn(messages, e.0, e.1)
    requires IsTop(messages, j, h) && p <= |entries| && forall q :: 0 <= q < p ==> entries[q].1 != h
    requires p < |entries| ==> entries[p] == (j, h)
    ensures var chosen := ChosenAlong(messages, entries);
      if p < |entries| then h.seqNo in chosen && chosen[h.seqNo] == RequestViewOf(messages, j, h)
      else h.seqNo in chosen ==> chosen[h.seqNo].view < h.view
  {
    if entries != [] {
      var last := |entries| - 1;
      var e := entries[last];
      assert e in entries && ProofIn(messages, e.0, e.1);
      assert e.1.seqNo == h.seqNo ==> e.1.view <= h.view;
      FirstTopWins(messages, entries[..last], j, h, if p <= last then p else last);
      assert p > last ==> e.1 != h;
    }
  }

  lemma {:induction false} AlongStarts(order: seq<NodeId>, proofs: map<NodeId, seq<SlotId>>)
    requires order != [] && forall j :: j in order ==> j in proofs
    ensures Pairs(order[0], proofs[order[0]]) <= Along(order, proofs)
  {
    var last := |order| - 1;
    var front := order[..last];
    assert Along(order, proofs) == Along(front, proofs) + Pairs(order[last], proofs[order[last]]);
    if last == 0 {
      assert front == [] && Along(front, proofs) == [];
    } else {
      AlongStarts(front, proofs);
      assert front[0] == order[0];
    }
    hide Along, Pairs;
  }

  // A walk that starts with this message takes over its proof of highest view.
  lemma StartWins(low: int, messages: map<NodeId, SignedViewChange>, walk: Walk, j: NodeId, h: SlotId)
    requires IsWalk(messages, walk) && IsTop(messages, j, h) && walk.order != [] && walk.order[0] == j
    ensures var chosen := WalkMerge(low, messages, walk).chosen;
      h.seqNo in chosen && chosen[h.seqNo] == RequestViewOf(messages, j, h)
  {
    var proofs, entries := walk.proofs[j], Along(walk.order, walk.proofs);
    AllEntries(messages, walk);
    AlongStarts(walk.order, walk.proofs);
    assert h in messages[j].message.proofs.Keys;
    var p :| 0 <= p < |proofs| && proofs[p] == h;
    forall q | 0 <= q <= p
      ensures entries[q] == (j, proofs[q])
    {
      assert Pairs(j, proofs)[q] == (j, proofs[q]);
    }
    FirstTopWins(messages, entries, j, h, p);
  }

  lemma DisagreeingWalksDiffer(
    low: int, messages: map<NodeId, SignedViewChange>, i: NodeId, h: SlotId, j: NodeId, k: SlotId)
    requires IsTop(messages, i, h) && IsTop(messages, j, k) && h.seqNo == k.seqNo
    requires RequestViewOf(messages, i, h) != RequestViewOf(messages, j, k)
    ensures WalkMerge(low, messages, WalkStarting(messages, i)) != WalkMerge(low, messages, WalkStarting(messages, j))
  {
    StartWins(low, messages, WalkStarting(messages, i), i, h);
    StartWins(low, messages, WalkStarting(messages, j), j, k);
  }

  /** The merge comes out the same for every way to walk the maps exactly when the proofs of highest view agree. */
  lemma WalksAgreeIff(low: int, messages: map<NodeId, SignedViewChange>)
    ensures TopProofsAgree(messages) <==>
      forall a, b :: IsWalk(messages, a) && IsWalk(messages, b) ==>
        WalkMerge(low, messages, a) == WalkMerge(low, messages, b)
  {
    hide IsMerge, IsWalk, WalkMerge, WalkStarting;
    if TopProofsAgree(messages) {
      forall a, b | IsWalk(messages, a) && IsWalk(messages, b)
        ensures WalkMerge(low, messages, a) == WalkMerge(low, messages, b)
      {
        hide TopProofsAgree;
        WalkIsMerge(low, messages, a);
        WalkIsMerge(low, messages, b);
        AgreeingMergesEqual(low, messages, WalkMerge(low, messages, a), WalkMerge(low, messages, b));
      }
    } else {
      var i, h, j, k :| IsTop(messages, i, h) && IsTop(messages, j, k) && h.seqNo == k.seqNo &&
        RequestViewOf(messages, i, h) != RequestViewOf(messages, j, k);
      DisagreeingWalksDiffer(low, messages, i, h, j, k);
    }
  }

  // This pre-prepare repeats the request of a proof of highest view for its number.
  ghost predicate Repeats(messages: map<NodeId, SignedViewChange>, full: FullPrePrepare) {
    exists j, h :: IsTop(messages, j, h) && h.seqNo == full.Number().seqNo &&
      RequestView(full.request, full.Digest(), h.view) == RequestViewOf(messages, j, h)
  }

  predicate IsNoOp(cfg: Config, full: FullPrePrepare) { full.request == "" && full.Digest() == cfg.digest("") }

  ghost predicate HasProofFor(messages: map<NodeId, SignedViewChange>, n: int) {
    exists j, k :: ProofIn(messages, j, k) && k.seqNo == n
  }

  /**
   The set O: one pre-prepare for each number from minS, inclusive, to maxS, none at all unless minS < maxS; each
   repeats the request of a proof of highest view for its number, or is the no-op if there is no proof for it.
   */
  lemma SetO(cfg: Config, id: NodeId, view: int, low: int, messages: map<NodeId, SignedViewChange>, merge: Merge)
    requires IsMerge(low, messages, merge)
    ensures var o := NewViewPrePrepares(cfg, id, view, merge);
      && (forall k :: k in o <==> k.view == view && merge.minS < merge.maxS && merge.minS <= k.seqNo <= merge.maxS)
      && (forall k :: k in o ==> o[k].Number() == k && o[k].signed.signature == By(id))
      && (forall k :: k in o && HasProofFor(messages, k.seqNo) ==> Repeats(messages, o[k]))
      && (forall k :: k in o && !HasProofFor(messages, k.seqNo) ==> IsNoOp(cfg, o[k]))
    ensures merge.maxS > low ==> HasProofFor(messages, merge.maxS)
    ensures forall n :: HasProofFor(messages, n) ==> n <= merge.maxS
  {
    var o := NewViewPrePrepares(cfg, id, view, merge);
    assert forall k :: k in ReissuedNumbers(view, merge) <==>
      k.view == view && merge.minS < merge.maxS && merge.minS <= k.seqNo <= merge.maxS;
    forall k | k in o
      ensures HasProofFor(messages, k.seqNo) ==> Repeats(messages, o[k])
      ensures !HasProofFor(messages, k.seqNo) ==> IsNoOp(cfg, o[k])
    {
      ChosenIsTop(messages, merge.chosen, k.seqNo);
    }
    if merge.maxS > low {
      ChosenIsTop(messages, merge.chosen, merge.maxS);
    }
  }

  /** A number is taken over from view v or later exactly when a proof for it from view v or later was collected. */
  lemma TakenOverIff(low: int, messages: map<NodeId, SignedViewChange>, merge: Merge, v: int, n: int)
    requires IsMerge(low, messages, merge)
    ensures n in merge.chosen && merge.chosen[n].view >= v <==>
      exists j, k :: ProofIn(messages, j, k) && k.seqNo == n && k.view >= v
  {
    ChosenIsTop(messages, merge.chosen, n);
  }

  // The join rule and the leader branch

  /** A view change is joined only with f + 1 peers asking for the chosen view or a higher one, some of them sound. */
  lemma JoinHasSoundBacker(cfg: Config, s: NodeState, view: int, faulty: set<NodeId>)
    requires cfg.Valid() && Joins(cfg, s, view) && |faulty| <= cfg.Faults()
    ensures Above(s.change.messages, CurrentView(s)) != {}
    ensures var low := LowestAbove(s.change.messages, CurrentView(s));
      && CurrentView(s) < low
      && exists j :: j in s.change.messages && j !in faulty && s.change.messages[j].message.view >= low
  {
    var above := Above(s.change.messages, CurrentView(s));
    assert above != {};
    var low := LowestAbove(s.change.messages, CurrentView(s));
    if above <= faulty {
      SubsetCardinality(above, faulty);
    }
    var j :| j in above && j !in faulty;
    assert s.change.messages[j].message.view >= low;
  }

  /** A leader never enters a view above the one it is changing to: that many votes for it make it join instead. */
  lemma LeaderEntryIsBounded(cfg: Config, id: NodeId, s: NodeState, message: SignedViewChange)
    requires cfg.Valid() && id in cfg.nodes && LeaderEntry(cfg, id, s, message)
    ensures message.message.view <= s.change.view
  {
    var s1, view := Record(s, message), message.message.view;
    var voters, above := Voters(s1.change.messages, view), Above(s1.change.messages, CurrentView(s1));
    if view > CurrentView(s1) {
      assert message.message.node in voters;
      assert voters <= above;
      SubsetCardinality(voters, above);
      TwoNodes(cfg, id, message.message.node);
      NewViewQuorumExact(cfg);
    }
  }

  lemma TwoNodes(cfg: Config, a: NodeId, b: NodeId)
    requires cfg.Valid() && a in cfg.nodes && b in cfg.nodes && a != b
    ensures cfg.NumPeers() >= 1
  {
    DistinctCardinality(cfg.nodes);
    SubsetCardinality({a, b}, Members(cfg));
  }
}
