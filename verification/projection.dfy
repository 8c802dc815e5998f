/** One node's part of a cluster's execution is a run of that node, so whatever holds of runs holds in a cluster. */
module Projection {
  import opened Types
  import opened Replica
  import opened NodeRuns
  import opened Cluster

  // How many of the first t steps are this node's.
  function OwnSteps(events: seq<Event>, t: nat, id: NodeId): (own: nat)
    requires t <= |events|
    ensures own <= t
  {
    if t == 0 then 0 else OwnSteps(events, t - 1, id) + if events[t - 1].node == id then 1 else 0
  }

  lemma {:induction false} OwnStepsGrow(events: seq<Event>, t: nat, u: nat, id: NodeId)
    requires t <= u <= |events|
    ensures OwnSteps(events, t, id) <= OwnSteps(events, u, id)
    ensures t < u && events[t].node == id ==> OwnSteps(events, t, id) < OwnSteps(events, u, id)
    decreases u - t
  {
    if t < u {
      OwnStepsGrow(events, t + 1, u, id);
    }
  }

  // The states and inputs of a run are those the node has and takes in the first i steps.
  ghost predicate Follows(
    states: seq<System>, events: seq<Event>, i: nat, id: NodeId, local: seq<NodeState>, stimuli: seq<Stimulus>)
    requires i <= |events| < |states|
  {
    && |local| == |stimuli| + 1 == OwnSteps(events, i, id) + 1
    && (forall t: nat :: t <= i ==>
          && OwnSteps(events, t, id) <= |stimuli|
          && id in states[t].nodes && local[OwnSteps(events, t, id)] == states[t].nodes[id])
    && (forall t: nat :: t < i && events[t].node == id ==>
          && OwnSteps(events, t, id) < |stimuli|
          && stimuli[OwnSteps(events, t, id)] == Stimulus(events[t].input, events[t].choice))
  }

  // What a step of the cluster does to this node: a step of its own, or nothing.
  lemma StepHere(cfg: Config, states: seq<System>, events: seq<Event>, t: nat, id: NodeId)
    requires cfg.Valid() && Execution(cfg, states, events) && t < |events| && id in states[t].nodes
    ensures id in states[t + 1].nodes
    ensures var e, s := events[t], states[t].nodes[id];
      if e.node == id then
        && ChoiceOk(cfg, id, s, e.input, e.choice)
        && states[t + 1].nodes[id] == Step(cfg, id, s, e.input, e.choice).state
        && (FreshExecution(cfg, states, events) ==> Fresh(cfg, id, s, e.input))
      else states[t + 1].nodes[id] == s
  {
    hide Step, ChoiceOk, Fresh;
    assert Enabled(cfg, states[t], events[t]) && states[t + 1] == Next(cfg, states[t], events[t]);
    assert FreshExecution(cfg, states, events) ==> FreshEvent(cfg, states[t], events[t]);
  }

  lemma NothingYet(cfg: Config, states: seq<System>, events: seq<Event>, id: NodeId)
    requires cfg.Valid() && Execution(cfg, states, events) && id in cfg.nodes
    ensures id in states[0].nodes && FreshRun(cfg, id, [states[0].nodes[id]], [])
    ensures Follows(states, events, 0, id, [states[0].nodes[id]], [])
  {
  }

  lemma OneMoreStep(events: seq<Event>, t: nat, id: NodeId)
    requires t < |events|
    ensures OwnSteps(events, t + 1, id) == OwnSteps(events, t, id) + if events[t].node == id then 1 else 0
  {
  }

  lemma FollowsOwnStep(
    states: seq<System>, events: seq<Event>, i: nat, id: NodeId, local: seq<NodeState>, stimuli: seq<Stimulus>)
    requires i < |events| < |states| && Follows(states, events, i, id, local, stimuli)
    requires id in states[i + 1].nodes && events[i].node == id
    ensures Follows(states, events, i + 1, id, local + [states[i + 1].nodes[id]],
              stimuli + [Stimulus(events[i].input, events[i].choice)])
  {
    var last := states[i + 1].nodes[id];
    OneMoreStep(events, i, id);
    hide OwnSteps;
    forall t: nat | t <= i + 1
      ensures OwnSteps(events, t, id) <= |stimuli| + 1
      ensures id in states[t].nodes && (local + [last])[OwnSteps(events, t, id)] == states[t].nodes[id]
    {
      if t <= i {
        assert OwnSteps(events, t, id) <= |stimuli|;
      }
    }
  }

  lemma FollowsOtherStep(
    states: seq<System>, events: seq<Event>, i: nat, id: NodeId, local: seq<NodeState>, stimuli: seq<Stimulus>)
    requires i < |events| < |states| && Follows(states, events, i, id, local, stimuli)
    requires id in states[i].nodes && id in states[i + 1].nodes && events[i].node != id
    requires states[i + 1].nodes[id] == states[i].nodes[id]
    ensures Follows(states, events, i + 1, id, local, stimuli)
  {
    OneMoreStep(events, i, id);
    hide OwnSteps;
  }

  /** A node's part of an execution is a run, and a fresh one if the execution is. */
  lemma {:induction false} ProjectsToRun(
    cfg: Config, states: seq<System>, events: seq<Event>, i: nat, id: NodeId)
    returns (local: seq<NodeState>, stimuli: seq<Stimulus>)
    requires cfg.Valid() && Execution(cfg, states, events) && i <= |events| && id in cfg.nodes
    ensures Follows(states, events, i, id, local, stimuli)
    ensures Run(cfg, id, local, stimuli)
    ensures FreshExecution(cfg, states, events) ==> FreshRun(cfg, id, local, stimuli)
  {
    assert |states| == |events| + 1;
    hide Step, ChoiceOk, Fresh, Execution, FreshExecution, Run, FreshRun, Enabled, Next, Follows;
    if i == 0 {
      NothingYet(cfg, states, events, id);
      local, stimuli := [states[0].nodes[id]], [];
    } else {
      var t := i - 1;
      local, stimuli := ProjectsToRun(cfg, states, events, t, id);
      NodeStays(states, events, t, id, local, stimuli);
      StepHere(cfg, states, events, t, id);
      if events[t].node == id {
        FollowsOwnStep(states, events, t, id, local, stimuli);
        var next := Stimulus(events[t].input, events[t].choice);
        RunExtends(cfg, id, local, stimuli, next);
        local, stimuli := local + [states[i].nodes[id]], stimuli + [next];
      } else {
        FollowsOtherStep(states, events, t, id, local, stimuli);
      }
    }
  }

  lemma NodeStays(
    states: seq<System>, events: seq<Event>, i: nat, id: NodeId, local: seq<NodeState>, stimuli: seq<Stimulus>)
    requires i <= |events| < |states| && Follows(states, events, i, id, local, stimuli)
    ensures id in states[i].nodes && |local| == |stimuli| + 1 && local[|stimuli|] == states[i].nodes[id]
  {
  }
}
