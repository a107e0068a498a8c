/** Work graphs are accepted exactly when they can be ordered. */
module WorkGraph {
  import opened Basics

  datatype Assignee = Self | Character(name: string)

  datatype NodeProposal = NodeProposal(
    alias: string, objective: string, dependsOn: seq<string>, assignee: Assignee, criteria: seq<string>)

  datatype Proposal = Proposal(goal: string, criteria: seq<string>, nodes: seq<NodeProposal>)

  datatype GraphError =
    | BadGoal | BadCriteria | BadNodeCount | BadAlias | DuplicateAlias | BadNode
    | UnknownDependency | SelfDependency | Cycle

  const MAX_NODES: nat := 64

  type Dependencies = map<string, seq<string>>

  // ---- depth-first search ----

  /** Visits one node below the ones being visited; `None` reports a cycle, otherwise the finished nodes in order. */
  function Visit(deps: Dependencies, visiting: set<string>, visited: seq<string>, alias: string): Option<seq<string>>
    decreases deps.Keys - visiting, 1, 0
  {
    if alias in visiting then None
    else if alias in visited then Some(visited)
    else if alias !in deps then Some(visited + [alias])
    else
      var below := VisitAll(deps, visiting + {alias}, visited, deps[alias]);
      if below.None? then None else Some(below.value + [alias])
  }

  function VisitAll(deps: Dependencies, visiting: set<string>, visited: seq<string>, aliases: seq<string>)
    : Option<seq<string>>
    decreases deps.Keys - visiting, 2, |aliases|
  {
    if |aliases| == 0 then Some(visited)
    else
      var first := Visit(deps, visiting, visited, aliases[0]);
      if first.None? then None else VisitAll(deps, visiting, first.value, aliases[1..])
  }

  /** Every node stands behind all that it depends on, and none stands twice. */
  predicate Ordered(deps: Dependencies, order: seq<string>) {
    && (forall i, j :: 0 <= i < j < |order| ==> order[i] != order[j])
    && (forall i :: 0 <= i < |order| && order[i] in deps ==> forall d :: d in deps[order[i]] ==> d in order[..i])
  }

  predicate TopologicalOrder(deps: Dependencies, order: seq<string>) {
    Ordered(deps, order) && forall alias :: alias in deps ==> alias in order
  }

  ghost predicate Orderable(deps: Dependencies) {
    exists order: seq<string> :: TopologicalOrder(deps, order)
  }

  lemma OrderedAppend(deps: Dependencies, order: seq<string>, alias: string)
    requires Ordered(deps, order) && alias !in order
    requires alias in deps ==> forall d :: d in deps[alias] ==> d in order
    ensures Ordered(deps, order + [alias])
  {
    var more := order + [alias];
    forall i | 0 <= i < |more| && more[i] in deps ensures forall d :: d in deps[more[i]] ==> d in more[..i] {
      assert more[..i] == if i < |order| then order[..i] else order;
    }
  }

  lemma {:induction false} VisitOrders(deps: Dependencies, visiting: set<string>, visited: seq<string>, alias: string)
    requires Ordered(deps, visited) && forall v :: v in visiting ==> v !in visited
    ensures var r := Visit(deps, visiting, visited, alias);
            r.Some? ==>
              && Ordered(deps, r.value) && visited <= r.value && alias in r.value
              && (forall v :: v in visiting ==> v !in r.value)
    decreases deps.Keys - visiting, 1, 0
  {
    if alias !in visiting && alias !in visited {
      if alias in deps {
        VisitAllOrders(deps, visiting + {alias}, visited, deps[alias]);
        var below := VisitAll(deps, visiting + {alias}, visited, deps[alias]);
        if below.Some? {
          OrderedAppend(deps, below.value, alias);
        }
      } else {
        OrderedAppend(deps, visited, alias);
      }
    }
  }

  lemma {:induction false} VisitAllOrders(deps: Dependencies, visiting: set<string>, visited: seq<string>,
                                          aliases: seq<string>)
    requires Ordered(deps, visited) && forall v :: v in visiting ==> v !in visited
    ensures var r := VisitAll(deps, visiting, visited, aliases);
            r.Some? ==>
              && Ordered(deps, r.value) && visited <= r.value
              && (forall a :: a in aliases ==> a in r.value)
              && (forall v :: v in visiting ==> v !in r.value)
    decreases deps.Keys - visiting, 2, |aliases|
  {
    if |aliases| > 0 {
      VisitOrders(deps, visiting, visited, aliases[0]);
      var first := Visit(deps, visiting, visited, aliases[0]);
      if first.Some? {
        VisitAllOrders(deps, visiting, first.value, aliases[1..]);
      }
    }
  }

  /** The place of a node in an order. */
  function Rank(order: seq<string>, alias: string): (r: nat)
    requires alias in order
    ensures r < |order| && order[r] == alias
  {
    if order[|order| - 1] == alias then |order| - 1 else Rank(order[..|order| - 1], alias)
  }

  lemma RankEarlier(deps: Dependencies, order: seq<string>, alias: string, d: string)
    requires TopologicalOrder(deps, order) && alias in deps && d in deps[alias]
    ensures d in order && Rank(order, d) < Rank(order, alias)
  {
    var i := Rank(order, alias);
    assert d in order[..i];
    var j :| 0 <= j < i && order[..i][j] == d;
    assert order[j] == d;
    var k := Rank(order, d);
    assert k == j;
  }

  /** With an order at hand, everything being visited ranks above the node visited next, so it is never met again. */
  lemma {:induction false} OrderedVisits(deps: Dependencies, order: seq<string>, visiting: set<string>,
                                         visited: seq<string>, alias: string)
    requires TopologicalOrder(deps, order) && alias in order
    requires forall v :: v in visiting ==> v in order && Rank(order, v) > Rank(order, alias)
    ensures Visit(deps, visiting, visited, alias).Some?
    decreases deps.Keys - visiting, 1, 0
  {
    if alias !in visited && alias in deps {
      forall d | d in deps[alias] ensures d in order && Rank(order, d) < Rank(order, alias) {
        RankEarlier(deps, order, alias, d);
      }
      OrderedVisitsAll(deps, order, visiting + {alias}, visited, deps[alias]);
    }
  }

  lemma {:induction false} OrderedVisitsAll(deps: Dependencies, order: seq<string>, visiting: set<string>,
                                            visited: seq<string>, aliases: seq<string>)
    requires TopologicalOrder(deps, order)
    requires forall a :: a in aliases ==> a in order
    requires forall v, a :: v in visiting && a in aliases ==> v in order && Rank(order, v) > Rank(order, a)
    ensures VisitAll(deps, visiting, visited, aliases).Some?
    decreases deps.Keys - visiting, 2, |aliases|
  {
    if |aliases| > 0 {
      OrderedVisits(deps, order, visiting, visited, aliases[0]);
      OrderedVisitsAll(deps, order, visiting, Visit(deps, visiting, visited, aliases[0]).value, aliases[1..]);
    }
  }

  /** The search over all nodes, in the order of the proposal. */
  predicate Acyclic(deps: Dependencies, aliases: seq<string>) {
    VisitAll(deps, {}, [], aliases).Some?
  }

  /** The cycle check accepts exactly the dependencies that have a topological order. */
  lemma AcyclicExactly(deps: Dependencies, aliases: seq<string>)
    requires forall a :: a in deps <==> a in aliases
    requires forall a, d :: a in deps && d in deps[a] ==> d in deps
    ensures Acyclic(deps, aliases) <==> Orderable(deps)
  {
    if Acyclic(deps, aliases) {
      VisitAllOrders(deps, {}, [], aliases);
      assert TopologicalOrder(deps, VisitAll(deps, {}, [], aliases).value);
    }
    if Orderable(deps) {
      var order :| TopologicalOrder(deps, order);
      OrderedVisitsAll(deps, order, {}, [], aliases);
    }
  }

  // ---- proposals ----

  predicate LowerLetter(c: char) { 'a' <= c <= 'z' }

  predicate AliasShape(s: string) {
    && 1 <= |s| <= 64
    && LowerLetter(s[0])
    && forall i :: 0 <= i < |s| ==> LowerLetter(s[i]) || '0' <= s[i] <= '9' || s[i] == '_'
  }

  predicate TextsShape(ss: seq<string>) {
    |ss| > 0 && forall i :: 0 <= i < |ss| ==> Text(ss[i])
  }

  predicate NodeShape(n: NodeProposal) {
    Text(n.objective) && TextsShape(n.criteria) && (n.assignee.Character? ==> Text(n.assignee.name))
  }

  function Aliases(nodes: seq<NodeProposal>): (r: seq<string>)
    ensures |r| == |nodes| && forall i :: 0 <= i < |nodes| ==> r[i] == nodes[i].alias
  {
    seq(|nodes|, i requires 0 <= i < |nodes| => nodes[i].alias)
  }

  /** Later nodes of one alias would win, but aliases are distinct when this is asked. */
  function DependencyMap(nodes: seq<NodeProposal>): (deps: Dependencies)
    ensures forall a :: a in deps <==> a in Aliases(nodes)
    ensures DistinctAliases(nodes) ==> forall i :: 0 <= i < |nodes| ==> deps[nodes[i].alias] == nodes[i].dependsOn
  {
    if |nodes| == 0 then map[]
    else
      var front := DependencyMap(nodes[..|nodes| - 1]);
      assert Aliases(nodes) == Aliases(nodes[..|nodes| - 1]) + [nodes[|nodes| - 1].alias];
      front[nodes[|nodes| - 1].alias := nodes[|nodes| - 1].dependsOn]
  }

  predicate DistinctAliases(nodes: seq<NodeProposal>) {
    forall i, j :: 0 <= i < j < |nodes| ==> nodes[i].alias != nodes[j].alias
  }

  predicate NodesShape(nodes: seq<NodeProposal>) {
    && DistinctAliases(nodes)
    && forall i :: 0 <= i < |nodes| ==> AliasShape(nodes[i].alias) && NodeShape(nodes[i])
  }

  predicate KnownDependencies(nodes: seq<NodeProposal>) {
    forall i, k :: 0 <= i < |nodes| && 0 <= k < |nodes[i].dependsOn| ==>
      nodes[i].dependsOn[k] in Aliases(nodes) && nodes[i].dependsOn[k] != nodes[i].alias
  }

  predicate ProposalShape(p: Proposal) {
    && Text(p.goal) && TextsShape(p.criteria)
    && 0 < |p.nodes| <= MAX_NODES
    && NodesShape(p.nodes) && KnownDependencies(p.nodes)
  }

  predicate Accepted(p: Proposal) {
    ProposalShape(p) && Acyclic(DependencyMap(p.nodes), Aliases(p.nodes))
  }

  /** The class form of the search: two sets that the visits change. */
  class CycleCheck {
    const deps: Dependencies
    var visiting: set<string>
    var visited: set<string>
    ghost var order: seq<string>

    constructor (deps: Dependencies)
      ensures this.deps == deps && visiting == {} && order == [] && Valid()
    {
      this.deps, visiting, visited, order := deps, {}, {}, [];
    }

    ghost predicate Valid()
      reads this
    {
      visited == set a | a in order
    }

    method VisitNode(alias: string) returns (ok: bool)
      requires Valid()
      modifies this
      ensures Valid() && (ok ==> visiting == old(visiting))
      ensures var r := Visit(deps, old(visiting), old(order), alias);
              ok == r.Some? && (ok ==> order == r.value)
      decreases deps.Keys - visiting, 1, 0
    {
      if alias in visiting {
        return false;
      }
      if alias in visited {
        return true;
      }
      visiting := visiting + {alias};
      if alias in deps {
        ok := VisitNodes(deps[alias]);
        if !ok {
          return;
        }
      }
      assert visiting - {alias} == old(visiting);
      visiting := visiting - {alias};
      visited := visited + {alias};
      order := order + [alias];
      ok := true;
    }

    method VisitNodes(aliases: seq<string>) returns (ok: bool)
      requires Valid()
      modifies this
      ensures Valid() && (ok ==> visiting == old(visiting))
      ensures var r := VisitAll(deps, old(visiting), old(order), aliases);
              ok == r.Some? && (ok ==> order == r.value)
      decreases deps.Keys - visiting, 2, |aliases|
    {
      for i := 0 to |aliases|
        invariant Valid() && visiting == old(visiting)
        invariant VisitAll(deps, visiting, order, aliases[i..]) == VisitAll(deps, old(visiting), old(order), aliases)
      {
        assert aliases[i..][0] == aliases[i] && aliases[i..][1..] == aliases[i + 1..];
        ok := VisitNode(aliases[i]);
        if !ok {
          return;
        }
      }
      ok := true;
    }
  }

  /** Checks a proposal node by node, then its dependencies, then for cycles. */
  method ValidateProposal(p: Proposal) returns (error: Option<GraphError>)
    ensures error.None? <==> Accepted(p)
  {
    if !Text(p.goal) {
      return Some(BadGoal);
    }
    if !TextsShape(p.criteria) {
      return Some(BadCriteria);
    }
    if |p.nodes| == 0 || |p.nodes| > MAX_NODES {
      return Some(BadNodeCount);
    }
    error := CheckNodes(p.nodes);
    if error.Some? {
      return;
    }
    error := CheckDependencies(p.nodes);
    if error.Some? {
      return;
    }
    var check := new CycleCheck(DependencyMap(p.nodes));
    var ok := check.VisitNodes(Aliases(p.nodes));
    error := if ok then None else Some(Cycle);
  }

  method CheckNodes(nodes: seq<NodeProposal>) returns (error: Option<GraphError>)
    ensures error.None? <==> NodesShape(nodes)
  {
    var aliases := {};
    for i := 0 to |nodes|
      invariant aliases == set k | 0 <= k < i :: nodes[k].alias
      invariant NodesShape(nodes[..i])
    {
      var n := nodes[i];
      if !AliasShape(n.alias) {
        return Some(BadAlias);
      }
      if n.alias in aliases {
        return Some(DuplicateAlias);
      }
      aliases := aliases + {n.alias};
      if !NodeShape(n) {
        return Some(BadNode);
      }
    }
    assert nodes[..|nodes|] == nodes;
    return None;
  }

  method CheckDependencies(nodes: seq<NodeProposal>) returns (error: Option<GraphError>)
    ensures error.None? <==> KnownDependencies(nodes)
  {
    var aliases := Aliases(nodes);
    for i := 0 to |nodes|
      invariant forall j, k :: 0 <= j < i && 0 <= k < |nodes[j].dependsOn| ==>
                  nodes[j].dependsOn[k] in aliases && nodes[j].dependsOn[k] != nodes[j].alias
    {
      for k := 0 to |nodes[i].dependsOn|
        invariant forall m :: 0 <= m < k ==> nodes[i].dependsOn[m] in aliases && nodes[i].dependsOn[m] != nodes[i].alias
      {
        if nodes[i].dependsOn[k] !in aliases {
          return Some(UnknownDependency);
        }
        if nodes[i].dependsOn[k] == nodes[i].alias {
          return Some(SelfDependency);
        }
      }
    }
    return None;
  }

  lemma DependenciesKnown(nodes: seq<NodeProposal>, a: string, d: string)
    requires DistinctAliases(nodes) && KnownDependencies(nodes)
    requires a in DependencyMap(nodes) && d in DependencyMap(nodes)[a]
    ensures d in DependencyMap(nodes)
  {
    var i :| 0 <= i < |nodes| && Aliases(nodes)[i] == a;
    assert DependencyMap(nodes)[nodes[i].alias] == nodes[i].dependsOn;
    var k :| 0 <= k < |nodes[i].dependsOn| && nodes[i].dependsOn[k] == d;
  }

  /** A proposal is accepted exactly when it is well formed and its nodes can be put in an order of work. */
  lemma AcceptedExactly(p: Proposal)
    ensures Accepted(p) <==> ProposalShape(p) && Orderable(DependencyMap(p.nodes))
  {
    if ProposalShape(p) {
      var deps := DependencyMap(p.nodes);
      forall a, d | a in deps && d in deps[a] ensures d in deps {
        DependenciesKnown(p.nodes, a, d);
      }
      AcyclicExactly(deps, Aliases(p.nodes));
    }
  }
}
