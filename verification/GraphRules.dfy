/** What holds of a work graph over any run: order of work, and when planning returns. */
module GraphRules {
  import opened Basics
  import opened WorkGraph
  import opened GraphRuns

  /** Finished nodes stay finished from one list to the other. */
  predicate Keeps(nodes: seq<Node>, after: seq<Node>) {
    && |nodes| == |after|
    && forall i :: 0 <= i < |nodes| ==>
         after[i].spec == nodes[i].spec && (DoneStatus(nodes[i].status) ==> DoneStatus(after[i].status))
  }

  lemma KeepsDependencies(nodes: seq<Node>, after: seq<Node>, n: Node, m: Node)
    requires Keeps(nodes, after) && DependenciesDone(nodes, n) && m.spec == n.spec
    ensures DependenciesDone(after, m)
  {
    forall k | 0 <= k < |m.spec.dependsOn| ensures AliasDone(after, m.spec.dependsOn[k]) {
      assert AliasDone(nodes, n.spec.dependsOn[k]);
      var i :| 0 <= i < |nodes| && nodes[i].spec.alias == n.spec.dependsOn[k] && DoneStatus(nodes[i].status);
      assert after[i].spec.alias == n.spec.dependsOn[k];
    }
  }

  lemma SameSpecs(nodes: seq<Node>, after: seq<Node>)
    requires Keeps(nodes, after) && ShapeOk(nodes)
    ensures ShapeOk(after)
  {
    assert Specs(nodes) == Specs(after);
  }

  lemma SetNodes(p: Plan, g: Graph, i: nat, n: Node, current: Option<string>, children: set<string>)
    requires NodesOk(g.nodes, g.current, p.children) && i < |g.nodes| && n.spec == g.nodes[i].spec
    requires DoneStatus(g.nodes[i].status) ==> DoneStatus(n.status)
    requires NodeOk(g.nodes[i := n], current, children, n)
    requires forall j :: 0 <= j < |g.nodes| && j != i ==> OtherOk(g, j, current, children)
    ensures NodesOk(g.nodes[i := n], current, children)
  {
    var after := g.nodes[i := n];
    forall j | 0 <= j < |after| ensures NodeOk(after, current, children, after[j]) {
      if j != i {
        assert NodeOk(g.nodes, g.current, p.children, g.nodes[j]) && OtherOk(g, j, current, children);
        if Begun(g.nodes[j].status) {
          KeepsDependencies(g.nodes, after, g.nodes[j], g.nodes[j]);
        }
      }
    }
  }

  /** One node changes; it may only move on, and every other node is as before. */
  lemma SetKeeps(p: Plan, g: Graph, i: nat, n: Node, current: Option<string>, children: set<string>, used: set<string>)
    requires GraphOk(p, g) && i < |g.nodes| && n.spec == g.nodes[i].spec
    requires DoneStatus(g.nodes[i].status) ==> DoneStatus(n.status)
    requires p.used <= used && (n.child == g.nodes[i].child || (n.child.Some? && n.child.value in used - p.used))
    requires NodeOk(g.nodes[i := n], current, children, n)
    requires forall j :: 0 <= j < |g.nodes| && j != i ==> OtherOk(g, j, current, children)
    requires current.Some? ==> current == g.current || current == Some(n.spec.alias)
    ensures ShapeOk(g.nodes[i := n]) && ChildrenOk(g.nodes[i := n], used) && NodesOk(g.nodes[i := n], current, children)
    ensures current.Some? ==> Find(g.nodes[i := n], current.value).Some?
  {
    var after := g.nodes[i := n];
    SameSpecs(g.nodes, after);
    SetNodes(p, g, i, n, current, children);
    SetChildren(g.nodes, i, n, p.used, used);
    if current.Some? {
      SetFinds(g.nodes, i, n, if current == g.current then Find(g.nodes, current.value).value else i);
    }
  }

  lemma SetChildren(nodes: seq<Node>, i: nat, n: Node, used: set<string>, more: set<string>)
    requires ChildrenOk(nodes, used) && i < |nodes| && used <= more
    requires n.child == nodes[i].child || (n.child.Some? && n.child.value in more - used)
    ensures ChildrenOk(nodes[i := n], more)
  {
  }

  lemma SetFinds(nodes: seq<Node>, i: nat, n: Node, k: nat)
    requires i < |nodes| && k < |nodes| && n.spec == nodes[i].spec
    ensures Find(nodes[i := n], nodes[k].spec.alias).Some?
  {
    assert nodes[i := n][k].spec.alias == nodes[k].spec.alias;
  }

  /** What an unchanged node needs of a new current node and new live children. */
  predicate OtherOk(g: Graph, j: nat, current: Option<string>, children: set<string>)
    requires j < |g.nodes|
  {
    var n := g.nodes[j];
    && (n.status.Ready? || n.status.Running? ==> current == Some(n.spec.alias))
    && (n.status.Blocked? ==> current == Some(n.spec.alias) || (n.child.Some? && n.child.value in children))
    && (current == Some(n.spec.alias) ==> g.current == Some(n.spec.alias))
  }

  lemma OneAlias(g: Graph, i: nat, j: nat)
    requires ShapeOk(g.nodes) && i < |g.nodes| && j < |g.nodes|
    ensures i != j ==> g.nodes[i].spec.alias != g.nodes[j].spec.alias
  {
    if i < j {
      assert Specs(g.nodes)[i].alias != Specs(g.nodes)[j].alias;
    } else if j < i {
      assert Specs(g.nodes)[j].alias != Specs(g.nodes)[i].alias;
    }
  }

  lemma OthersOk(p: Plan, g: Graph, i: nat, current: Option<string>)
    requires GraphOk(p, g) && i < |g.nodes|
    requires current == g.current || current == Some(g.nodes[i].spec.alias) || g.current == Some(g.nodes[i].spec.alias)
    requires current.None? || current == g.current || (current == Some(g.nodes[i].spec.alias) && g.current.None?)
    ensures forall j :: 0 <= j < |g.nodes| && j != i ==> OtherOk(g, j, current, p.children)
  {
    forall j | 0 <= j < |g.nodes| && j != i ensures OtherOk(g, j, current, p.children) {
      assert NodeOk(g.nodes, g.current, p.children, g.nodes[j]);
      OneAlias(g, i, j);
    }
  }

  lemma ActivatedKeeps(p: Plan, g: Graph, alias: string)
    requires GraphOk(p, g) && g.phase.Executing?
    ensures GraphOk(p, Activated(g, alias))
  {
    var found := Find(g.nodes, alias);
    if Activated(g, alias) != g {
      var i := found.value;
      var n := g.nodes[i].(status := Ready);
      assert NodeOk(g.nodes, g.current, p.children, g.nodes[i]);
      KeepsDependencies(g.nodes, g.nodes[i := n], g.nodes[i], n);
      OthersOk(p, g, i, Some(alias));
      SetKeeps(p, g, i, n, Some(alias), p.children, p.used);
    }
  }

  /** Ends or updates the node the task works on. */
  lemma CurrentKeeps(p: Plan, g: Graph, status: NodeStatus, ends: bool)
    requires GraphOk(p, g) && g.current.Some?
    requires if ends then status.Completed? || status.Failed? else status.Ready? || status.Running? || status.Blocked?
    ensures var i := Find(g.nodes, g.current.value).value;
            GraphOk(p, SetStatus(g, i, status).(current := if ends then None else g.current))
  {
    var i := Find(g.nodes, g.current.value).value;
    var n := g.nodes[i].(status := status);
    var current := if ends then None else g.current;
    assert NodeOk(g.nodes, g.current, p.children, g.nodes[i]);
    KeepsDependencies(g.nodes, g.nodes[i := n], g.nodes[i], n);
    OthersOk(p, g, i, current);
    SetKeeps(p, g, i, n, current, p.children, p.used);
  }

  lemma PhaseKeeps(p: Plan, g: Graph)
    requires GraphOk(p, g) && g.current.None?
    ensures GraphOk(p, g.(phase := Planning))
  {
  }

  lemma FailsKeeps(p: Plan, g: Graph, alias: string)
    requires GraphOk(p, g)
    ensures GraphOk(p, NodeFails(g, alias))
    ensures g.current.None? ==> NodeFails(g, alias).current.None?
  {
    var found := Find(g.nodes, alias);
    if NodeFails(g, alias) != g {
      var i := found.value;
      var n := g.nodes[i].(status := Failed);
      var current := if g.current == Some(alias) then None else g.current;
      assert NodeOk(g.nodes, g.current, p.children, g.nodes[i]);
      OthersOk(p, g, i, current);
      SetKeeps(p, g, i, n, current, p.children, p.used);
    }
  }

  lemma {:induction false} FailAllKeeps(p: Plan, g: Graph, aliases: seq<string>)
    requires GraphOk(p, g)
    ensures GraphOk(p, FailAll(g, aliases))
    decreases |aliases|
  {
    if |aliases| > 0 {
      FailsKeeps(p, g, aliases[0]);
      FailAllKeeps(p, NodeFails(g, aliases[0]), aliases[1..]);
    }
  }

  // ---- children ----

  /** More children may be live, and a node waits for a new one. */
  lemma BoundKeeps(p: Plan, g: Graph, alias: string, child: string)
    requires GraphOk(p, g) && child !in p.used && p.children <= p.used
    ensures var q := p.(children := p.children + {child}, used := p.used + {child}); GraphOk(q, Bound(g, alias, child))
  {
    var q := p.(children := p.children + {child}, used := p.used + {child});
    var found := Find(g.nodes, alias);
    if Bound(g, alias, child) != g {
      var i := found.value;
      var n := g.nodes[i].(status := Blocked, child := Some(child));
      assert NodeOk(g.nodes, g.current, p.children, g.nodes[i]);
      KeepsDependencies(g.nodes, g.nodes[i := n], g.nodes[i], n);
      OthersOk(p, g, i, g.current);
      assert forall j :: 0 <= j < |g.nodes| && j != i && OtherOk(g, j, g.current, p.children) ==>
        OtherOk(g, j, g.current, q.children);
      SetKeeps(p, g, i, n, g.current, q.children, q.used);
    } else {
      MoreChildren(p, q, g);
    }
  }

  lemma MoreChildren(p: Plan, q: Plan, g: Graph)
    requires GraphOk(p, g) && p.children <= q.children && p.used <= q.used
    ensures GraphOk(q, g)
  {
    forall i | 0 <= i < |g.nodes| ensures NodeOk(g.nodes, g.current, q.children, g.nodes[i]) {
      assert NodeOk(g.nodes, g.current, p.children, g.nodes[i]);
    }
  }

  lemma {:induction false} BindAllKeeps(p: Plan, g: Graph, aliases: seq<string>, ids: seq<string>)
    requires GraphOk(p, g) && |aliases| == |ids| && FreshIds(p, ids) && p.children <= p.used
    ensures GraphOk(p.(children := p.children + IdSet(ids), used := p.used + IdSet(ids)), BindAll(g, aliases, ids))
    decreases |ids|
  {
    if |ids| == 0 {
      assert p.(children := p.children + IdSet(ids), used := p.used + IdSet(ids)) == p;
    } else {
      BoundKeeps(p, g, aliases[0], ids[0]);
      var q := p.(children := p.children + {ids[0]}, used := p.used + {ids[0]});
      BindAllKeeps(q, Bound(g, aliases[0], ids[0]), aliases[1..], ids[1..]);
      IdSetSplit(p, q, ids);
    }
  }

  lemma IdSetSplit(p: Plan, q: Plan, ids: seq<string>)
    requires |ids| > 0 && q == p.(children := p.children + {ids[0]}, used := p.used + {ids[0]})
    ensures p.(children := p.children + IdSet(ids), used := p.used + IdSet(ids))
            == q.(children := q.children + IdSet(ids[1..]), used := q.used + IdSet(ids[1..]))
  {
    assert IdSet(ids) == {ids[0]} + IdSet(ids[1..]) by {
      forall id | id in IdSet(ids) ensures id in {ids[0]} + IdSet(ids[1..]) {
        var i :| 0 <= i < |ids| && ids[i] == id;
        if i > 0 {
          assert ids[1..][i - 1] == id;
        }
      }
    }
  }

  lemma ChildEndsKeeps(p: Plan, g: Graph, child: string, ok: bool)
    requires GraphOk(p, g)
    ensures GraphOk(p.(children := p.children - {child}), ChildEnds(g, child, ok))
  {
    var children := p.children - {child};
    var found := FindChild(g.nodes, child);
    if ChildEnds(g, child, ok) != g {
      var i := found.value;
      var n := g.nodes[i].(status := if ok then Completed else Failed);
      assert NodeOk(g.nodes, g.current, p.children, g.nodes[i]);
      KeepsDependencies(g.nodes, g.nodes[i := n], g.nodes[i], n);
      OthersOk(p, g, i, g.current);
      forall j | 0 <= j < |g.nodes| && j != i ensures OtherOk(g, j, g.current, children) {
        assert OtherOk(g, j, g.current, p.children);
        assert g.nodes[j].child != Some(child);
      }
      SetKeeps(p, g, i, n, g.current, children, p.used);
    } else {
      forall i | 0 <= i < |g.nodes| ensures NodeOk(g.nodes, g.current, children, g.nodes[i]) {
        assert NodeOk(g.nodes, g.current, p.children, g.nodes[i]);
        if g.nodes[i].child == Some(child) && found.value != i {
          assert g.nodes[found.value].child == g.nodes[i].child;
        }
      }
    }
  }

  // ---- steps ----

  lemma ReplacedKeeps(p: Plan, proposal: Proposal)
    requires Inv(p) && !p.terminated
    ensures Inv(p.(graph := Replaced(p.graph, proposal)))
  {
    if PlanMode(p.graph) && Accepted(proposal) {
      AcceptedExactly(proposal);
      assert Specs(Fresh(proposal)) == proposal.nodes;
    }
  }

  lemma AdvancedKeeps(p: Plan, otherWork: bool, undecided: bool, ids: Option<seq<string>>)
    requires Inv(p) && !p.terminated
    ensures Inv(Advanced(p, otherWork, undecided, ids))
  {
    match NextFor(p, otherWork, undecided)
    case Delegate =>
      var g := p.graph.value;
      var aliases := Delegates(g.nodes, g.nodes);
      if ids.Some? && |ids.value| == |aliases| && FreshIds(p, ids.value) {
        BindAllKeeps(p, g, aliases, ids.value);
      } else {
        FailAllKeeps(p, g, aliases);
      }
    case Work => ActivatedKeeps(p, p.graph.value, FirstSelf(p.graph.value.nodes, p.graph.value.nodes).value);
    case EnterPlan => PhaseKeeps(p, p.graph.value);
    case _ =>
  }

  lemma ReplanKeeps(p: Plan, g: Graph)
    requires GraphOk(p, g) && g.current.Some?
    ensures GraphOk(p, ReplanRequested(g))
  {
    CurrentKeeps(p, g, Failed, true);
    PhaseKeeps(p, CurrentEnds(g, Failed));
  }

  lemma SyncKeeps(p: Plan, g: Graph, status: NodeStatus)
    requires GraphOk(p, g) && g.current.Some?
    requires status.Ready? || status.Running? || status.Blocked?
    ensures GraphOk(p, Synced(g, status))
  {
    CurrentKeeps(p, g, status, false);
    var i := Find(g.nodes, g.current.value).value;
    assert SetStatus(g, i, status).(current := g.current) == SetStatus(g, i, status);
  }

  /** The invariant of the graph looks at the plan's children only. */
  lemma GraphKept(p: Plan, g: Graph)
    requires Inv(p) && GraphOk(p, g)
    ensures Inv(p.(graph := Some(g)))
  {
  }

  lemma OwnReplanKeeps(p: Plan)
    requires Inv(p) && !p.terminated && p.graph.Some? && p.graph.value.current.Some?
    ensures Inv(Step(p, RequestReplan))
  {
    ReplanKeeps(p, p.graph.value);
    GraphKept(p, ReplanRequested(p.graph.value));
  }

  lemma OwnSyncKeeps(p: Plan, status: NodeStatus)
    requires Inv(p) && !p.terminated && p.graph.Some? && p.graph.value.current.Some?
    ensures Inv(Step(p, Sync(status)))
  {
    SyncStep(p, status);
    if status.Ready? || status.Running? || status.Blocked? {
      SyncKeeps(p, p.graph.value, status);
      GraphKept(p, Synced(p.graph.value, status));
    }
  }

  lemma SyncStep(p: Plan, status: NodeStatus)
    requires !p.terminated && p.graph.Some?
    ensures Step(p, Sync(status)) ==
              if status.Ready? || status.Running?
                || status.Blocked? then p.(graph := Some(Synced(p.graph.value, status)))
              else p
  {
  }

  lemma OwnFinishKeeps(p: Plan)
    requires Inv(p) && !p.terminated && p.graph.Some? && p.graph.value.current.Some?
    ensures Inv(Step(p, FinishNode))
  {
    CurrentKeeps(p, p.graph.value, Completed, true);
    GraphKept(p, CurrentEnds(p.graph.value, Completed));
  }

  /** The task's own node ends, or shows the task's state. */
  lemma OwnStepKeeps(p: Plan, e: Event)
    requires Inv(p) && !p.terminated && p.graph.Some? && p.graph.value.current.Some?
    requires e.FinishNode? || e.RequestReplan? || e.Sync?
    ensures Inv(Step(p, e))
  {
    match e
    case FinishNode => OwnFinishKeeps(p);
    case RequestReplan => OwnReplanKeeps(p);
    case Sync(status) => OwnSyncKeeps(p, status);
  }

  lemma StepKeeps(p: Plan, e: Event)
    requires Inv(p)
    ensures Inv(Step(p, e))
  {
    if !p.terminated {
      match e
      case Replace(proposal) => ReplacedKeeps(p, proposal);
      case Advance(otherWork, undecided, ids) => AdvancedKeeps(p, otherWork, undecided, ids);
      case ChildDone(child, ok) => if p.graph.Some? { ChildEndsKeeps(p, p.graph.value, child, ok); }
      case FailNode(alias) => if p.graph.Some? { FailsKeeps(p, p.graph.value, alias); }
      case Terminate =>
      case _ => if p.graph.Some? && p.graph.value.current.Some? { OwnStepKeeps(p, e); }
    }
  }

  lemma {:induction false} RunKeeps(p: Plan, es: seq<Event>)
    requires Inv(p)
    ensures Inv(Run(p, es))
    decreases |es|
  {
    if |es| > 0 {
      StepKeeps(p, es[0]);
      RunKeeps(Step(p, es[0]), es[1..]);
    }
  }

  /** Over any run, a node is ready, running, blocked or completed only after all its dependencies are done. */
  lemma WorksInOrder(es: seq<Event>, i: nat)
    ensures var p := Run(NO_PLAN, es);
            !p.terminated && p.graph.Some? && i < |p.graph.value.nodes| && Begun(p.graph.value.nodes[i].status) ==>
              DependenciesDone(p.graph.value.nodes, p.graph.value.nodes[i])
  {
    RunKeeps(NO_PLAN, es);
    var p := Run(NO_PLAN, es);
    if !p.terminated && p.graph.Some? && i < |p.graph.value.nodes| {
      assert NodeOk(p.graph.value.nodes, p.graph.value.current, p.children, p.graph.value.nodes[i]);
    }
  }

  // ---- back to planning ----

  predicate AnyFailed(nodes: seq<Node>) {
    exists i :: 0 <= i < |nodes| && nodes[i].status.Failed?
  }

  predicate AnyStartable(nodes: seq<Node>) {
    exists i :: 0 <= i < |nodes| && Startable(nodes, nodes[i])
  }

  /** Ranks that grow along the dependencies. */
  predicate Ranked(nodes: seq<Node>, rank: map<string, nat>) {
    forall i, k :: 0 <= i < |nodes| && 0 <= k < |nodes[i].spec.dependsOn| ==>
      && nodes[i].spec.alias in rank && nodes[i].spec.dependsOn[k] in rank
      && rank[nodes[i].spec.dependsOn[k]] < rank[nodes[i].spec.alias]
  }

  lemma RanksOf(nodes: seq<Node>) returns (rank: map<string, nat>)
    requires ShapeOk(nodes)
    ensures Ranked(nodes, rank)
  {
    var specs := Specs(nodes);
    var deps := DependencyMap(specs);
    var order :| TopologicalOrder(deps, order);
    rank := map a | a in order :: Rank(order, a);
    forall i, k | 0 <= i < |nodes| && 0 <= k < |nodes[i].spec.dependsOn|
      ensures nodes[i].spec.alias in order && nodes[i].spec.dependsOn[k] in order
      ensures Rank(order, nodes[i].spec.dependsOn[k]) < Rank(order, nodes[i].spec.alias)
    {
      assert Aliases(specs)[i] == specs[i].alias && deps[specs[i].alias] == specs[i].dependsOn;
      RankEarlier(deps, order, specs[i].alias, specs[i].dependsOn[k]);
    }
  }

  lemma FindDependency(nodes: seq<Node>, i: nat, k: nat) returns (j: nat)
    requires KnownDependencies(Specs(nodes)) && i < |nodes| && k < |nodes[i].spec.dependsOn|
    ensures j < |nodes| && nodes[j].spec.alias == nodes[i].spec.dependsOn[k]
  {
    var specs := Specs(nodes);
    assert specs[i].dependsOn[k] in Aliases(specs);
    j :| 0 <= j < |specs| && Aliases(specs)[j] == specs[i].dependsOn[k];
  }

  /** When nothing is startable and nothing has failed or is active, every node is done, by its rank. */
  lemma {:induction false} RankedDone(nodes: seq<Node>, rank: map<string, nat>, i: nat)
    requires Ranked(nodes, rank) && KnownDependencies(Specs(nodes)) && i < |nodes|
    requires !AnyStartable(nodes) && forall j :: 0 <= j < |nodes| ==>
               nodes[j].status.Pending? || DoneStatus(nodes[j].status)
    ensures DoneStatus(nodes[i].status)
    decreases if nodes[i].spec.alias in rank then rank[nodes[i].spec.alias] + 1 else 0
  {
    forall k | 0 <= k < |nodes[i].spec.dependsOn| ensures AliasDone(nodes, nodes[i].spec.dependsOn[k]) {
      var j := FindDependency(nodes, i, k);
      RankedDone(nodes, rank, j);
    }
    assert DependenciesDone(nodes, nodes[i]);
  }

  /** With nothing active and nothing startable, an unfinished graph has a failed node. */
  lemma StallsOnlyOnFailure(p: Plan, g: Graph)
    requires GraphOk(p, g) && g.current.None? && p.children == {} && !AnyStartable(g.nodes)
    ensures Complete(g.nodes) || AnyFailed(g.nodes)
  {
    if !AnyFailed(g.nodes) {
      forall i | 0 <= i < |g.nodes| ensures g.nodes[i].status.Pending? || DoneStatus(g.nodes[i].status) {
        assert NodeOk(g.nodes, g.current, p.children, g.nodes[i]);
      }
      var rank := RanksOf(g.nodes);
      forall i | 0 <= i < |g.nodes| ensures DoneStatus(g.nodes[i].status) {
        RankedDone(g.nodes, rank, i);
      }
    }
  }

  lemma {:induction false} NoneStartable(nodes: seq<Node>, among: seq<Node>)
    requires |Delegates(nodes, among)| == 0 && FirstSelf(nodes, among).None?
    ensures forall i :: 0 <= i < |among| ==> !Startable(nodes, among[i])
    decreases |among|
  {
    if |among| > 0 {
      NoneStartable(nodes, among[1..]);
      forall i | 0 <= i < |among| ensures !Startable(nodes, among[i]) {
        if i > 0 {
          assert among[i] == among[1..][i - 1];
        }
      }
    }
  }

  /**
   * Over any run, the scheduler hands a graph back to planning only when all its work is done or some node has
   * failed; a graph that can still make progress is never given up.
   */
  lemma PlansOnlyWhenQuiet(es: seq<Event>, otherWork: bool, undecided: bool)
    ensures var p := Run(NO_PLAN, es);
            !p.terminated && NextFor(p, otherWork, undecided).EnterPlan? ==>
              Complete(p.graph.value.nodes) || AnyFailed(p.graph.value.nodes)
  {
    RunKeeps(NO_PLAN, es);
    var p := Run(NO_PLAN, es);
    if !p.terminated && NextFor(p, otherWork, undecided).EnterPlan? {
      NoneStartable(p.graph.value.nodes, p.graph.value.nodes);
      StallsOnlyOnFailure(p, p.graph.value);
    }
  }
}
