/** The life of an installed work graph: its nodes are activated, delegated, completed and failed. */
module GraphRuns {
  // `children` are the subagents whose work has not ended.

  import opened Basics
  import opened WorkGraph

  datatype NodeStatus = Pending | Ready | Running | Blocked | Completed | Failed | Abandoned

  datatype Node = Node(spec: NodeProposal, status: NodeStatus, child: Option<string>)

  datatype Phase = Executing | Planning

  datatype Graph = Graph(revision: nat, phase: Phase, nodes: seq<Node>, current: Option<string>)

  datatype Plan = Plan(graph: Option<Graph>, children: set<string>, used: set<string>, terminated: bool)

  const NO_PLAN := Plan(None, {}, {}, false)

  predicate DoneStatus(s: NodeStatus) {
    s.Completed? || s.Abandoned?
  }

  function Specs(nodes: seq<Node>): (r: seq<NodeProposal>)
    ensures |r| == |nodes| && forall i :: 0 <= i < |nodes| ==> r[i] == nodes[i].spec
  {
    seq(|nodes|, i requires 0 <= i < |nodes| => nodes[i].spec)
  }

  predicate AliasDone(nodes: seq<Node>, alias: string) {
    exists i :: 0 <= i < |nodes| && nodes[i].spec.alias == alias && DoneStatus(nodes[i].status)
  }

  predicate DependenciesDone(nodes: seq<Node>, n: Node) {
    forall k :: 0 <= k < |n.spec.dependsOn| ==> AliasDone(nodes, n.spec.dependsOn[k])
  }

  /** A node the scheduler may start. */
  predicate Startable(nodes: seq<Node>, n: Node) {
    (n.status.Pending? || n.status.Ready?) && DependenciesDone(nodes, n)
  }

  predicate Complete(nodes: seq<Node>) {
    forall i :: 0 <= i < |nodes| ==> DoneStatus(nodes[i].status)
  }

  function Find(nodes: seq<Node>, alias: string): (r: Option<nat>)
    ensures r.Some? ==> r.value < |nodes| && nodes[r.value].spec.alias == alias
    ensures r.None? ==> forall i :: 0 <= i < |nodes| ==> nodes[i].spec.alias != alias
  {
    if |nodes| == 0 then None
    else
      var front := Find(nodes[..|nodes| - 1], alias);
      if front.Some? then front else if nodes[|nodes| - 1].spec.alias == alias then Some(|nodes| - 1) else None
  }

  function FindChild(nodes: seq<Node>, child: string): (r: Option<nat>)
    ensures r.Some? ==> r.value < |nodes| && nodes[r.value].child == Some(child)
    ensures r.None? ==> forall i :: 0 <= i < |nodes| ==> nodes[i].child != Some(child)
  {
    if |nodes| == 0 then None
    else
      var front := FindChild(nodes[..|nodes| - 1], child);
      if front.Some? then front else if nodes[|nodes| - 1].child == Some(child) then Some(|nodes| - 1) else None
  }

  // ---- the task's operations ----

  predicate PlanMode(g: Option<Graph>) {
    g.None? || g.value.phase.Planning?
  }

  function Fresh(p: Proposal): (nodes: seq<Node>)
    ensures |nodes| == |p.nodes| && forall i :: 0 <= i < |nodes| ==> nodes[i] == Node(p.nodes[i], Pending, None)
  {
    seq(|p.nodes|, i requires 0 <= i < |p.nodes| => Node(p.nodes[i], Pending, None))
  }

  function Replaced(g: Option<Graph>, p: Proposal): Option<Graph> {
    if !PlanMode(g) || !Accepted(p) then g
    else Some(Graph(if g.Some? then g.value.revision + 1 else 1, Executing, Fresh(p), None))
  }

  function SetStatus(g: Graph, i: nat, status: NodeStatus): Graph
    requires i < |g.nodes|
  {
    g.(nodes := g.nodes[i := g.nodes[i].(status := status)])
  }

  function Activated(g: Graph, alias: string): Graph {
    var i := Find(g.nodes, alias);
    if g.current.Some? || i.None? || !g.nodes[i.value].spec.assignee.Self?
      || !Startable(g.nodes, g.nodes[i.value]) then g
    else SetStatus(g, i.value, Ready).(current := Some(alias))
  }

  function Bound(g: Graph, alias: string, child: string): Graph {
    var i := Find(g.nodes, alias);
    if i.None? || !g.nodes[i.value].spec.assignee.Character? || !Startable(g.nodes, g.nodes[i.value]) then g
    else g.(nodes := g.nodes[i.value := g.nodes[i.value].(status := Blocked, child := Some(child))])
  }

  function CurrentEnds(g: Graph, status: NodeStatus): Graph {
    if g.current.None? then g
    else
      var i := Find(g.nodes, g.current.value);
      if i.None? then g else SetStatus(g, i.value, status).(current := None)
  }

  function ReplanRequested(g: Graph): Graph {
    if g.current.None? then g else CurrentEnds(g, Failed).(phase := Planning)
  }

  function ChildEnds(g: Graph, child: string, ok: bool): Graph {
    var i := FindChild(g.nodes, child);
    if i.None? || !g.nodes[i.value].status.Blocked? then g else SetStatus(g, i.value, if ok then Completed else Failed)
  }

  function NodeFails(g: Graph, alias: string): Graph {
    var i := Find(g.nodes, alias);
    if i.None? || DoneStatus(g.nodes[i.value].status) || g.nodes[i.value].status.Failed? then g
    else SetStatus(g, i.value, Failed).(current := if g.current == Some(alias) then None else g.current)
  }

  /** The task's own state shows on the node it is working on. */
  function Synced(g: Graph, status: NodeStatus): Graph {
    if g.current.None? then g
    else
      var i := Find(g.nodes, g.current.value);
      if i.None? || (status.Failed? && g.nodes[i.value].status.Completed?) then g else SetStatus(g, i.value, status)
  }

  // ---- the scheduler's advance ----

  /** The startable nodes of other characters, in order. */
  function Delegates(nodes: seq<Node>, among: seq<Node>): seq<string> {
    if |among| == 0 then []
    else
      (if Startable(nodes, among[0]) && among[0].spec.assignee.Character? then [among[0].spec.alias] else [])
      + Delegates(nodes, among[1..])
  }

  function FirstSelf(nodes: seq<Node>, among: seq<Node>): Option<string> {
    if |among| == 0 then None
    else if Startable(nodes, among[0]) && among[0].spec.assignee.Self? then Some(among[0].spec.alias)
    else FirstSelf(nodes, among[1..])
  }

  function BindAll(g: Graph, aliases: seq<string>, ids: seq<string>): Graph
    requires |aliases| == |ids|
    decreases |aliases|
  {
    if |aliases| == 0 then g else BindAll(Bound(g, aliases[0], ids[0]), aliases[1..], ids[1..])
  }

  function FailAll(g: Graph, aliases: seq<string>): Graph
    decreases |aliases|
  {
    if |aliases| == 0 then g else FailAll(NodeFails(g, aliases[0]), aliases[1..])
  }

  datatype Next = RunModel | Delegate | Work | Await | EnterPlan

  /** What the scheduler does with a ready task that has a graph, before any model is asked. */
  function NextFor(p: Plan, otherWork: bool, undecided: bool): Next {
    if p.graph.None? || p.graph.value.phase.Planning? || p.graph.value.current.Some? then RunModel
    else
      var nodes := p.graph.value.nodes;
      if |Delegates(nodes, nodes)| > 0 then Delegate
      else if FirstSelf(nodes, nodes).Some? then Work
      else if p.children != {} || otherWork then (if undecided then RunModel else Await)
      else EnterPlan
  }

  predicate FreshIds(p: Plan, ids: seq<string>) {
    && (forall i :: 0 <= i < |ids| ==> ids[i] !in p.used)
    && (forall i, j :: 0 <= i < j < |ids| ==> ids[i] != ids[j])
  }

  function IdSet(ids: seq<string>): set<string> {
    set i | 0 <= i < |ids| :: ids[i]
  }

  /** `ids` are the new subagents of a delegation, or `None` when it could not be sent. */
  function Advanced(p: Plan, otherWork: bool, undecided: bool, ids: Option<seq<string>>): Plan {
    match NextFor(p, otherWork, undecided)
    case Delegate =>
      var g := p.graph.value;
      var aliases := Delegates(g.nodes, g.nodes);
      if ids.Some? && |ids.value| == |aliases| && FreshIds(p, ids.value) then
        var more := IdSet(ids.value);
        p.(graph := Some(BindAll(g, aliases, ids.value)), children := p.children + more, used := p.used + more)
      else p.(graph := Some(FailAll(g, aliases)))
    case Work => p.(graph := Some(Activated(p.graph.value, FirstSelf(p.graph.value.nodes, p.graph.value.nodes).value)))
    case EnterPlan => p.(graph := Some(p.graph.value.(phase := Planning)))
    case _ => p
  }

  datatype Event =
    | Replace(proposal: Proposal)
    | Advance(otherWork: bool, undecided: bool, ids: Option<seq<string>>)
    | FinishNode
    | RequestReplan
    | ChildDone(child: string, ok: bool)
    | FailNode(alias: string)
    | Sync(status: NodeStatus)
    | Terminate

  function Step(p: Plan, e: Event): Plan {
    if p.terminated then p
    else match e
      case Replace(proposal) => p.(graph := Replaced(p.graph, proposal))
      case Advance(otherWork, undecided, ids) => Advanced(p, otherWork, undecided, ids)
      case FinishNode => if p.graph.Some? then p.(graph := Some(CurrentEnds(p.graph.value, Completed))) else p
      case RequestReplan => if p.graph.Some? then p.(graph := Some(ReplanRequested(p.graph.value))) else p
      case ChildDone(child, ok) =>
        var q := p.(children := p.children - {child});
        if p.graph.Some? then q.(graph := Some(ChildEnds(p.graph.value, child, ok))) else q
      case FailNode(alias) => if p.graph.Some? then p.(graph := Some(NodeFails(p.graph.value, alias))) else p
      case Sync(status) =>
        if p.graph.Some? && (status.Ready? || status.Running? || status.Blocked?) then
          p.(graph := Some(Synced(p.graph.value, status)))
        else p
      case Terminate =>
        if p.graph.Some? then p.(graph := Some(Synced(p.graph.value, Failed)), terminated := true)
        else p.(terminated := true)
  }

  function Run(p: Plan, es: seq<Event>): Plan
    decreases |es|
  {
    if |es| == 0 then p else Run(Step(p, es[0]), es[1..])
  }

  // ---- the invariant ----

  predicate Begun(s: NodeStatus) {
    s.Ready? || s.Running? || s.Blocked? || s.Completed?
  }

  /**
   * A node has begun only after its dependencies are done; an active one is the task's own or waits for a live child.
   */
  predicate NodeOk(nodes: seq<Node>, current: Option<string>, children: set<string>, n: Node) {
    && (Begun(n.status) ==> DependenciesDone(nodes, n))
    && (n.status.Ready? || n.status.Running? ==> current == Some(n.spec.alias))
    && (n.status.Blocked? ==> current == Some(n.spec.alias) || (n.child.Some? && n.child.value in children))
    && (n.child.Some? ==> n.spec.assignee.Character?)
    && (current == Some(n.spec.alias) ==>
          n.spec.assignee.Self? && (n.status.Ready? || n.status.Running? || n.status.Blocked?))
  }

  predicate NodesOk(nodes: seq<Node>, current: Option<string>, children: set<string>) {
    forall i :: 0 <= i < |nodes| ==> NodeOk(nodes, current, children, nodes[i])
  }

  predicate ChildrenOk(nodes: seq<Node>, used: set<string>) {
    && (forall i :: 0 <= i < |nodes| && nodes[i].child.Some? ==> nodes[i].child.value in used)
    && (forall i, j :: 0 <= i < j < |nodes| && nodes[i].child.Some? ==> nodes[i].child != nodes[j].child)
  }

  ghost predicate ShapeOk(nodes: seq<Node>) {
    DistinctAliases(Specs(nodes)) && KnownDependencies(Specs(nodes)) && Orderable(DependencyMap(Specs(nodes)))
  }

  ghost predicate GraphOk(p: Plan, g: Graph) {
    && ShapeOk(g.nodes)
    && ChildrenOk(g.nodes, p.used)
    && NodesOk(g.nodes, g.current, p.children)
    && (g.current.Some? ==> g.phase.Executing? && Find(g.nodes, g.current.value).Some?)
  }

  ghost predicate Inv(p: Plan) {
    p.children <= p.used && (!p.terminated && p.graph.Some? ==> GraphOk(p, p.graph.value))
  }
}
