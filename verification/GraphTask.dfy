/** The task's graph and the scheduler's advance over it, changed in place. */
module GraphTask {
  import opened Basics
  import opened WorkGraph
  import opened GraphRuns
  import opened GraphRules

  class GraphRuntime {
    var graph: Option<Graph>
    var children: set<string>
    var used: set<string>
    var terminated: bool

    constructor ()
      ensures Value() == NO_PLAN && Valid()
    {
      graph, children, used, terminated := None, {}, {}, false;
    }

    function Value(): Plan
      reads this
    {
      Plan(graph, children, used, terminated)
    }

    ghost predicate Valid()
      reads this
    {
      Inv(Value())
    }

    method ReplaceWorkGraph(p: Proposal) returns (ok: bool)
      requires Valid() && !terminated
      modifies this`graph
      ensures Valid() && Value() == Step(old(Value()), Replace(p))
      ensures ok == (PlanMode(old(graph)) && Accepted(p))
    {
      StepKeeps(Value(), Replace(p));
      ok := InstallGraph(p);
    }

    method InstallGraph(p: Proposal) returns (ok: bool)
      modifies this`graph
      ensures graph == Replaced(old(graph), p) && ok == (PlanMode(old(graph)) && Accepted(p))
    {
      if graph.Some? && graph.value.phase.Executing? {
        return false;
      }
      var error := ValidateProposal(p);
      if error.Some? {
        return false;
      }
      graph := Some(Graph(if graph.Some? then graph.value.revision + 1 else 1, Executing, Fresh(p), None));
      return true;
    }

    method ActivateSelfNode(alias: string)
      requires graph.Some?
      modifies this`graph
      ensures graph == Some(Activated(old(graph).value, alias))
    {
      var g := graph.value;
      var i := Find(g.nodes, alias);
      if g.current.Some? || i.None? || g.nodes[i.value].spec.assignee.Character? {
        return;
      }
      var node := g.nodes[i.value];
      if !Startable(g.nodes, node) {
        return;
      }
      g := g.(current := Some(alias));
      g := g.(nodes := g.nodes[i.value := node.(status := Ready)]);
      graph := Some(g);
    }

    method BindDelegatedNode(alias: string, child: string)
      requires graph.Some?
      modifies this`graph
      ensures graph == Some(Bound(old(graph).value, alias, child))
    {
      var g := graph.value;
      var i := Find(g.nodes, alias);
      if i.None? || g.nodes[i.value].spec.assignee.Self? || !Startable(g.nodes, g.nodes[i.value]) {
        return;
      }
      graph := Some(g.(nodes := g.nodes[i.value := g.nodes[i.value].(status := Blocked, child := Some(child))]));
    }

    method FailWorkGraphNode(alias: string)
      requires graph.Some?
      modifies this`graph
      ensures graph == Some(NodeFails(old(graph).value, alias))
    {
      var g := graph.value;
      var i := Find(g.nodes, alias);
      if i.None? {
        return;
      }
      var status := g.nodes[i.value].status;
      if status.Completed? || status.Abandoned? || status.Failed? {
        return;
      }
      g := SetStatus(g, i.value, Failed);
      if g.current == Some(alias) {
        g := g.(current := None);
      }
      graph := Some(g);
    }

    method CompleteCurrentNode()
      requires Valid() && !terminated && graph.Some? && graph.value.current.Some?
      modifies this`graph
      ensures Valid() && Value() == Step(old(Value()), FinishNode)
    {
      StepKeeps(Value(), FinishNode);
      var i := Find(graph.value.nodes, graph.value.current.value).value;
      graph := Some(SetStatus(graph.value, i, Completed));
      graph := Some(graph.value.(current := None));
    }

    method RequestCurrentReplan()
      requires Valid() && !terminated && graph.Some? && graph.value.current.Some?
      modifies this`graph
      ensures Valid() && Value() == Step(old(Value()), RequestReplan)
    {
      StepKeeps(Value(), RequestReplan);
      var i := Find(graph.value.nodes, graph.value.current.value).value;
      graph := Some(SetStatus(graph.value, i, Failed));
      graph := Some(graph.value.(current := None, phase := Planning));
    }

    /** A subagent has ended: its work is over and its node ends with it. */
    method CompleteDelegatedNode(child: string, ok: bool)
      requires Valid() && !terminated
      modifies this`graph, this`children
      ensures Valid() && Value() == Step(old(Value()), ChildDone(child, ok))
    {
      StepKeeps(Value(), ChildDone(child, ok));
      children := children - {child};
      if graph.None? {
        return;
      }
      var i := FindChild(graph.value.nodes, child);
      if i.None? || !graph.value.nodes[i.value].status.Blocked? {
        return;
      }
      graph := Some(SetStatus(graph.value, i.value, if ok then Completed else Failed));
    }

    /** The scheduler's step for a ready task: delegate, work, wait, or give the graph back to planning. */
    method AdvanceReady(otherWork: bool, undecided: bool, ids: Option<seq<string>>) returns (next: Next)
      requires Valid() && !terminated
      modifies this
      ensures Valid() && Value() == Step(old(Value()), Advance(otherWork, undecided, ids))
      ensures next == NextFor(old(Value()), otherWork, undecided)
    {
      StepKeeps(Value(), Advance(otherWork, undecided, ids));
      next := AdvanceGraph(otherWork, undecided, ids);
    }

    method AdvanceGraph(otherWork: bool, undecided: bool, ids: Option<seq<string>>) returns (next: Next)
      modifies this
      ensures Value() == Advanced(old(Value()), otherWork, undecided, ids)
      ensures next == NextFor(old(Value()), otherWork, undecided)
    {
      if graph.None? || graph.value.phase.Planning? || graph.value.current.Some? {
        return RunModel;
      }
      var delegated, self := Startables(graph.value.nodes);
      if |delegated| > 0 {
        if ids.Some? && |ids.value| == |delegated| && FreshIds(Value(), ids.value) {
          BindNodes(delegated, ids.value);
          children := children + IdSet(ids.value);
          used := used + IdSet(ids.value);
        } else {
          FailNodes(delegated);
        }
        return Delegate;
      }
      if self.Some? {
        ActivateSelfNode(self.value);
        return Work;
      }
      if children != {} || otherWork {
        return if undecided then RunModel else Await;
      }
      graph := Some(graph.value.(phase := Planning));
      return EnterPlan;
    }

    method BindNodes(aliases: seq<string>, ids: seq<string>)
      requires graph.Some? && |aliases| == |ids|
      modifies this`graph
      ensures graph == Some(BindAll(old(graph).value, aliases, ids))
    {
      for i := 0 to |aliases|
        invariant graph.Some?
        invariant BindAll(graph.value, aliases[i..], ids[i..]) == BindAll(old(graph).value, aliases, ids)
      {
        assert aliases[i..][0] == aliases[i] && aliases[i..][1..] == aliases[i + 1..];
        assert ids[i..][0] == ids[i] && ids[i..][1..] == ids[i + 1..];
        BindDelegatedNode(aliases[i], ids[i]);
      }
    }

    method FailNodes(aliases: seq<string>)
      requires graph.Some?
      modifies this`graph
      ensures graph == Some(FailAll(old(graph).value, aliases))
    {
      for i := 0 to |aliases|
        invariant graph.Some? && FailAll(graph.value, aliases[i..]) == FailAll(old(graph).value, aliases)
      {
        assert aliases[i..][0] == aliases[i] && aliases[i..][1..] == aliases[i + 1..];
        FailWorkGraphNode(aliases[i]);
      }
    }
  }

  /** One pass over the nodes: those to delegate, and the first to work on. */
  method Startables(nodes: seq<Node>) returns (delegated: seq<string>, self: Option<string>)
    ensures delegated == Delegates(nodes, nodes) && self == FirstSelf(nodes, nodes)
  {
    delegated, self := [], None;
    for i := 0 to |nodes|
      invariant Delegates(nodes, nodes) == delegated + Delegates(nodes, nodes[i..])
      invariant FirstSelf(nodes, nodes) == if self.Some? then self else FirstSelf(nodes, nodes[i..])
    {
      assert nodes[i..][0] == nodes[i] && nodes[i..][1..] == nodes[i + 1..];
      if Startable(nodes, nodes[i]) {
        if nodes[i].spec.assignee.Character? {
          delegated := delegated + [nodes[i].spec.alias];
        } else if self.None? {
          self := Some(nodes[i].spec.alias);
        }
      }
    }
  }
}
