/** From consensus to the key store: what nodes that delivered the same slots have in their stores. */
module Convergence {
  import opened Types
  import opened Replica
  import opened Cluster
  import opened DeliveryResults
  import opened KeyStores

  // What one step hands to the key node: nothing, or the slot's request, which may be missing.
  ghost function HandedOver(cfg: Config, sys: System, e: Event, id: NodeId): seq<Option<string>>
    requires |cfg.nodes| >= 1 && Enabled(cfg, sys, e)
  {
    var o := Perform(cfg, sys, e);
    if e.node == id && o.delivered.Some? then [o.delivered.value.request] else []
  }

  ghost function DeliveredTo(
    cfg: Config, states: seq<System>, events: seq<Event>, i: nat, id: NodeId): seq<Option<string>>
    requires |cfg.nodes| >= 1 && Execution(cfg, states, events) && i <= |events|
  {
    if i == 0 then []
    else DeliveredTo(cfg, states, events, i - 1, id) + HandedOver(cfg, states[i - 1], events[i - 1], id)
  }

  // Before step i, this node delivered a request for slot k.
  ghost predicate Got(cfg: Config, states: seq<System>, events: seq<Event>, i: nat, id: NodeId, k: SlotId)
    requires |cfg.nodes| >= 1 && Execution(cfg, states, events) && i <= |events|
  {
    exists t: nat | t < i && events[t].node == id :: DeliversIn(cfg, states, events, t, k)
  }

  lemma {:induction false} RequestComesFromSlot(
    cfg: Config, states: seq<System>, events: seq<Event>, i: nat, id: NodeId, r: string) returns (t: nat, k: SlotId)
    requires cfg.Valid() && Execution(cfg, states, events) && i <= |events|
    requires Some(r) in DeliveredTo(cfg, states, events, i, id)
    ensures t < i && events[t].node == id && DeliversIn(cfg, states, events, t, k)
    ensures Perform(cfg, states[t], events[t]).delivered.value.request == Some(r)
  {
    hide Step, ChoiceOk;
    t := i - 1;
    if Some(r) in DeliveredTo(cfg, states, events, t, id) {
      t, k := RequestComesFromSlot(cfg, states, events, t, id, r);
    } else {
      k := Perform(cfg, states[t], events[t]).delivered.value.number;
    }
  }

  lemma {:induction false} SlotGivesRequest(
    cfg: Config, states: seq<System>, events: seq<Event>, i: nat, id: NodeId, t: nat, k: SlotId)
    requires cfg.Valid() && Execution(cfg, states, events) && t < i <= |events|
    requires events[t].node == id && DeliversIn(cfg, states, events, t, k)
    ensures Perform(cfg, states[t], events[t]).delivered.value.request in DeliveredTo(cfg, states, events, i, id)
    decreases i
  {
    hide Step, ChoiceOk;
    if t < i - 1 {
      SlotGivesRequest(cfg, states, events, i - 1, id, t, k);
    }
  }

  lemma OneWay(
    cfg: Config, states: seq<System>, events: seq<Event>, i: nat, a: NodeId, b: NodeId, r: string)
    requires cfg.Valid() && FreshExecution(cfg, states, events) && i <= |events|
    requires forall k :: Got(cfg, states, events, i, a, k) ==> Got(cfg, states, events, i, b, k)
    requires Some(r) in DeliveredTo(cfg, states, events, i, a)
    ensures Some(r) in DeliveredTo(cfg, states, events, i, b)
  {
    hide Step, ChoiceOk, Perform;
    var t, k := RequestComesFromSlot(cfg, states, events, i, a, r);
    assert Got(cfg, states, events, i, a, k);
    assert Got(cfg, states, events, i, b, k);
    var u: nat :| u < i && events[u].node == b && DeliversIn(cfg, states, events, u, k);
    if t <= u {
      DeliveryAgreement(cfg, states, events, t, u, k);
    } else {
      DeliveryAgreement(cfg, states, events, u, t, k);
    }
    SlotGivesRequest(cfg, states, events, i, b, u, k);
  }

  /**
   With fresh leader entries, two nodes that have delivered requests for the same slots hold the same keys, whatever
   the order in which they delivered them, provided no alias is given two keys among them and neither node has
   adopted a snapshot.
   */
  lemma SameSlotsSameKeys(
    cfg: Config, states: seq<System>, events: seq<Event>, i: nat, a: NodeId, b: NodeId, decode: Decoder, keys: Keys)
    requires cfg.Valid() && FreshExecution(cfg, states, events) && i <= |events|
    requires forall k :: Got(cfg, states, events, i, a, k) <==> Got(cfg, states, events, i, b, k)
    requires OneKeyPerAlias(decode, DeliveredTo(cfg, states, events, i, a))
    ensures AppliedAll(decode, keys, DeliveredTo(cfg, states, events, i, a)) ==
            AppliedAll(decode, keys, DeliveredTo(cfg, states, events, i, b))
  {
    hide Step, ChoiceOk, Perform, Got, DeliveredTo, OneKeyPerAlias;
    var p, q := DeliveredTo(cfg, states, events, i, a), DeliveredTo(cfg, states, events, i, b);
    forall r: string
      ensures Some(r) in p <==> Some(r) in q
    {
      if Some(r) in p { OneWay(cfg, states, events, i, a, b, r); }
      if Some(r) in q { OneWay(cfg, states, events, i, b, a, r); }
    }
    Converges(decode, keys, p, q);
  }
}
