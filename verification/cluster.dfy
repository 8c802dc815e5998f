/**
 The replicas and the network between them. Every message ever sent stays in the network, and may reach any node
 any number of times, in any order, or never. A crashed node is one that takes no further step.
 */
module Cluster {
  import opened Types
  import opened Replica
  import opened NodeRuns

  datatype System = System(nodes: map<NodeId, NodeState>, sent: set<Msg>)
  datatype Event = Event(node: NodeId, input: Input, choice: Choice)

  // The pre-prepares inside new-view messages count as sent: leader heartbeats send them on one by one.
  function Embedded(out: set<Msg>): set<Msg> {
    set m, k | m in out && m.MNewView? && k in m.newView.message.prePrepares
      :: MPrePrepare(m.newView.message.prePrepares[k])
  }

  function After(sent: set<Msg>, out: set<Msg>): set<Msg> { sent + out + Embedded(out) }

  ghost predicate Init(cfg: Config, sys: System) {
    && sys.sent == {}
    && (forall id :: id in sys.nodes <==> id in cfg.nodes)
    && (forall id :: id in sys.nodes ==> sys.nodes[id] == Initial(cfg, id))
  }

  // A reply to a heartbeat carries a sequence number, which is never below 1, or acknowledges a new view as 1.
  ghost predicate Enabled(cfg: Config, sys: System, e: Event) {
    && e.node in sys.nodes
    && ChoiceOk(cfg, e.node, sys.nodes[e.node], e.input, e.choice)
    && (e.input.Receive? ==> e.input.msg in sys.sent)
    && (e.input.HeartbeatReply? ==> e.input.reached >= 1)
  }

  ghost function Perform(cfg: Config, sys: System, e: Event): Outcome
    requires |cfg.nodes| >= 1 && Enabled(cfg, sys, e)
  {
    Step(cfg, e.node, sys.nodes[e.node], e.input, e.choice)
  }

  ghost function Next(cfg: Config, sys: System, e: Event): System
    requires |cfg.nodes| >= 1 && Enabled(cfg, sys, e)
  {
    var o := Perform(cfg, sys, e);
    System(sys.nodes[e.node := o.state], After(sys.sent, o.sent))
  }

  ghost predicate FreshEvent(cfg: Config, sys: System, e: Event)
    requires |cfg.nodes| >= 1
  {
    e.node in sys.nodes ==> Fresh(cfg, e.node, sys.nodes[e.node], e.input)
  }

  ghost predicate Execution(cfg: Config, states: seq<System>, events: seq<Event>)
    requires |cfg.nodes| >= 1
  {
    && |states| == |events| + 1
    && Init(cfg, states[0])
    && forall i :: 0 <= i < |events| ==>
         Enabled(cfg, states[i], events[i]) && states[i + 1] == Next(cfg, states[i], events[i])
  }

  ghost predicate FreshExecution(cfg: Config, states: seq<System>, events: seq<Event>)
    requires |cfg.nodes| >= 1
  {
    && Execution(cfg, states, events)
    && forall i :: 0 <= i < |events| ==> FreshEvent(cfg, states[i], events[i])
  }

  lemma EmptyExecution(cfg: Config, sys: System)
    requires cfg.Valid() && Init(cfg, sys)
    ensures Execution(cfg, [sys], []) && FreshExecution(cfg, [sys], [])
  {
  }

  lemma {:induction false} SentGrows(cfg: Config, states: seq<System>, events: seq<Event>, i: nat, j: nat)
    requires cfg.Valid() && Execution(cfg, states, events) && i <= j < |states|
    ensures states[i].sent <= states[j].sent
    decreases j - i
  {
    hide Step, ChoiceOk;
    if i < j {
      SentGrows(cfg, states, events, i, j - 1);
    }
  }
}
