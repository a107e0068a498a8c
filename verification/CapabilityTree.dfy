/** Grants in a tree of tasks: whatever happens, they stay inside the root's authority. */
module CapabilityTree {
  import opened Basics
  import opened Capability

  /** A task is known by its place in the list, and its parent was created before it. */
  datatype Task = Task(parent: Option<nat>, grants: seq<Grant>, live: bool)

  datatype Approval = ByHuman | ByParents(path: seq<nat>, hop: nat)

  /** A pending request for more; `path` leads from the holder down to the requester. */
  datatype Pending = Pending(task: nat, requests: seq<Request>, approval: Approval)

  datatype Tree = Tree(tasks: seq<Task>, pending: map<nat, Pending>, next: nat)

  const NO_TASKS := Tree([], map[], 0)

  predicate ParentsOk(tasks: seq<Task>) {
    forall i :: 0 <= i < |tasks| && tasks[i].parent.Some? ==> tasks[i].parent.value < i
  }

  /** The root of the tree that a task belongs to. */
  function RootOf(tasks: seq<Task>, i: nat): (r: nat)
    requires ParentsOk(tasks) && i < |tasks|
    ensures r < |tasks| && tasks[r].parent.None?
    decreases i
  {
    if tasks[i].parent.None? then i else RootOf(tasks, tasks[i].parent.value)
  }

  /** The live ancestors of a task, nearest first; a terminated one ends the chain. */
  function Ancestors(tasks: seq<Task>, i: nat): (r: seq<nat>)
    requires ParentsOk(tasks) && i < |tasks|
    ensures forall k :: 0 <= k < |r| ==> r[k] < |tasks| && RootOf(tasks, r[k]) == RootOf(tasks, i)
    decreases i
  {
    if tasks[i].parent.None? || !tasks[tasks[i].parent.value].live then []
    else [tasks[i].parent.value] + Ancestors(tasks, tasks[i].parent.value)
  }

  /** Who decides on a request: the ancestors, or a root for itself. */
  function Authorities(tasks: seq<Task>, i: nat): (r: seq<nat>)
    requires ParentsOk(tasks) && i < |tasks|
    ensures forall k :: 0 <= k < |r| ==> r[k] < |tasks| && RootOf(tasks, r[k]) == RootOf(tasks, i)
  {
    if tasks[i].parent.None? then [i] else Ancestors(tasks, i)
  }

  function GrantsOf(tasks: seq<Task>, ids: seq<nat>): (r: seq<seq<Grant>>)
    requires forall k :: 0 <= k < |ids| ==> ids[k] < |tasks|
    ensures |r| == |ids| && forall k :: 0 <= k < |ids| ==> r[k] == tasks[ids[k]].grants
  {
    seq(|ids|, k requires 0 <= k < |ids| => tasks[ids[k]].grants)
  }

  function AddGrants(tasks: seq<Task>, i: nat, grants: seq<Grant>): (r: seq<Task>)
    requires i < |tasks|
    ensures |r| == |tasks|
  {
    tasks[i := tasks[i].(grants := tasks[i].grants + grants)]
  }

  datatype Event =
    | CreateRoot(requests: seq<Request>)
    | AdoptRoot(grants: seq<Grant>)
    | Spawn(parent: nat, requests: seq<Request>, at: int)
    | Ask(task: nat, requests: seq<Request>, id: nat, at: int)
    | ApproveHop(id: nat, at: int)
    | HumanApproves(id: nat)
    | Deny(id: nat)
    | Use(task: nat, index: nat, operation: string)
    | Terminate(task: nat)

  /** From the holder down to the requester, as indices of tasks. */
  function PathOf(chain: seq<nat>, holder: nat, requester: nat): seq<nat>
    requires holder < |chain|
  {
    if holder == 0 then [chain[0], requester] else [chain[holder]] + PathOf(chain, holder - 1, requester)
  }

  function Asked(rules: seq<Rule>, t: Tree, task: nat, requests: seq<Request>, id: nat, at: int): Tree
    requires ParentsOk(t.tasks) && task < |t.tasks|
  {
    var missing := Missing(t.tasks[task].grants, Distinct(requests), at, None);
    var chain := Authorities(t.tasks, task);
    match Plan(rules, GrantsOf(t.tasks, chain), missing, at)
    case Refused => t
    case Human => t.(pending := t.pending[id := Pending(task, missing, ByHuman)])
    case Path(holder) =>
      if holder < |chain| then t.(pending := t.pending[id :=
                                                         Pending(task, missing,
                                                                 ByParents(PathOf(chain, holder, task), 0))])
      else t
  }

  function HopApproved(rules: seq<Rule>, t: Tree, id: nat, at: int): Tree
    requires id in t.pending && t.pending[id].approval.ByParents?
  {
    var p := t.pending[id];
    var path, hop := p.approval.path, p.approval.hop;
    if hop + 1 >= |path| || path[hop] >= |t.tasks| || path[hop + 1] >= |t.tasks| then t
    else
      var more := Delegate(rules, path[hop], t.tasks[path[hop]].grants, path[hop + 1], p.requests, at, t.next);
      if more.None? then t.(pending := t.pending - {id})
      else
        Tree(AddGrants(t.tasks, path[hop + 1], more.value),
             if hop + 2 < |path| then t.pending[id := p.(approval := ByParents(path, hop + 1))] else t.pending - {id},
             t.next + |more.value|)
  }

  /** What a root brings along from a snapshot: its own grants, some of which may expire or be limited. */
  predicate FromRoot(grants: seq<Grant>) {
    forall k :: 0 <= k < |grants| ==> grants[k].source.RootSource?
  }

  /** A task that ends has its own requests denied. */
  function Others(pending: map<nat, Pending>, task: nat): map<nat, Pending> {
    map id | id in pending && pending[id].task != task :: pending[id]
  }

  function Step(rules: seq<Rule>, t: Tree, e: Event): (r: Tree)
    requires ParentsOk(t.tasks)
    ensures ParentsOk(r.tasks)
  {
    match e
    case CreateRoot(requests) =>
      var grants := IssueRoot(rules, |t.tasks|, requests, t.next);
      t.(tasks := t.tasks + [Task(None, grants, true)], next := t.next + |grants|)
    case AdoptRoot(grants) => if FromRoot(grants) then t.(tasks := t.tasks + [Task(None, grants, true)]) else t
    case Spawn(parent, requests, at) =>
      if parent >= |t.tasks| || !t.tasks[parent].live then t
      else
        var grants := Delegate(rules, parent, t.tasks[parent].grants, |t.tasks|, requests, at, t.next);
        if grants.None? then t
        else t.(tasks := t.tasks + [Task(Some(parent), grants.value, true)], next := t.next + |grants.value|)
    case Ask(task, requests, id, at) =>
      if task < |t.tasks| && id !in t.pending then Asked(rules, t, task, requests, id, at) else t
    case ApproveHop(id, at) =>
      if id in t.pending && t.pending[id].approval.ByParents? then HopApproved(rules, t, id, at) else t
    case HumanApproves(id) =>
      if id !in t.pending || !t.pending[id].approval.ByHuman? || t.pending[id].task >= |t.tasks| then t
      else
        var p := t.pending[id];
        var grants := IssueHuman(rules, p.task, id, p.requests, t.next);
        Tree(AddGrants(t.tasks, p.task, grants), t.pending - {id}, t.next + |grants|)
    case Deny(id) => t.(pending := t.pending - {id})
    case Use(task, index, operation) =>
      if task >= |t.tasks| || index >= |t.tasks[task].grants| then t
      else
        var used := Consumed(t.tasks[task].grants[index], operation);
        if used.None? then t
        else t.(tasks := t.tasks[task := t.tasks[task].(grants := t.tasks[task].grants[index := used.value])])
    case Terminate(task) =>
      if task < |t.tasks| then
        Tree(t.tasks[task := t.tasks[task].(live := false)], Others(t.pending, task), t.next)
      else t
  }

  // ---- the invariant ----

  /** Something that lasts until `b`, or for good, is over no later than what lasts until `a`. */
  predicate Lasts(a: Option<int>, b: Option<int>) {
    a.None? || (b.Some? && b.value <= a.value)
  }

  /** A grant reaches at least as far as what is asked of it and, if time counts, lasts at least as long. */
  predicate Covers(g: Grant, capability: string, scope: Scope, expiresAt: Option<int>, timed: bool) {
    g.capability == capability && ScopeContains(g.scope, scope) && (timed ==> Lasts(g.expiresAt, expiresAt))
  }

  /** One of the grants the root was created with covers this. */
  predicate RootAllows(grants: seq<Grant>, capability: string, scope: Scope, expiresAt: Option<int>, timed: bool) {
    exists k :: 0 <= k < |grants| && grants[k].source.RootSource?
      && Covers(grants[k], capability, scope, expiresAt, timed)
  }

  predicate GrantOk(tasks: seq<Task>, root: nat, g: Grant, timed: bool)
    requires root < |tasks|
  {
    RootAllows(tasks[root].grants, g.capability, g.scope, g.expiresAt, timed)
  }

  predicate TaskOk(tasks: seq<Task>, i: nat, timed: bool)
    requires ParentsOk(tasks) && i < |tasks|
  {
    forall k :: 0 <= k < |tasks[i].grants| ==> GrantOk(tasks, RootOf(tasks, i), tasks[i].grants[k], timed)
  }

  predicate TasksOk(tasks: seq<Task>, timed: bool) {
    ParentsOk(tasks) && forall i :: 0 <= i < |tasks| ==> TaskOk(tasks, i, timed)
  }

  /** A pending human request stays inside the root's authority, and a path inside one tree. */
  predicate PendingOk(tasks: seq<Task>, p: Pending)
    requires ParentsOk(tasks)
  {
    && p.task < |tasks|
    && match p.approval
       case ByHuman =>
         forall k :: 0 <= k < |p.requests| ==>
           RootAllows(tasks[RootOf(tasks, p.task)].grants, p.requests[k].capability, p.requests[k].scope, None, false)
       case ByParents(path, _) =>
         forall k :: 0 <= k < |path| ==> path[k] < |tasks| && RootOf(tasks, path[k]) == RootOf(tasks, p.task)
  }

  /** Every grant of every task is covered by its root: in scope, and in time as well if `timed` says so. */
  predicate Inv(t: Tree, timed: bool) {
    TasksOk(t.tasks, timed) && forall id :: id in t.pending ==> PendingOk(t.tasks, t.pending[id])
  }

  // ---- growing trees ----

  /** The tasks of a tree keep their parents, and a root keeps covering what it covered. */
  predicate Extends(tasks: seq<Task>, after: seq<Task>) {
    && |tasks| <= |after|
    && (forall i :: 0 <= i < |tasks| ==> after[i].parent == tasks[i].parent)
    && (forall i :: 0 <= i < |tasks| ==> Outlasts(tasks[i].grants, after[i].grants))
  }

  /** Every grant is still there, up to its uses. */
  predicate Outlasts(grants: seq<Grant>, after: seq<Grant>) {
    && |grants| <= |after|
    && forall k :: 0 <= k < |grants| ==> SameReach(grants[k], after[k])
  }

  predicate SameReach(g: Grant, h: Grant) {
    h == g.(uses := h.uses, consumedBy := h.consumedBy)
  }

  lemma {:induction false} SameRoot(tasks: seq<Task>, after: seq<Task>, i: nat)
    requires ParentsOk(tasks) && ParentsOk(after) && Extends(tasks, after) && i < |tasks|
    ensures RootOf(after, i) == RootOf(tasks, i)
    decreases i
  {
    if tasks[i].parent.Some? {
      SameRoot(tasks, after, tasks[i].parent.value);
    }
  }

  lemma StillAllows(grants: seq<Grant>, after: seq<Grant>, capability: string, scope: Scope, expiresAt: Option<int>,
                    timed: bool)
    requires Outlasts(grants, after) && RootAllows(grants, capability, scope, expiresAt, timed)
    ensures RootAllows(after, capability, scope, expiresAt, timed)
  {
    var k :| 0 <= k < |grants| && grants[k].source.RootSource?
      && Covers(grants[k], capability, scope, expiresAt, timed);
    assert SameReach(grants[k], after[k]);
    assert Covers(after[k], capability, scope, expiresAt, timed);
  }

  lemma StillGrantOk(tasks: seq<Task>, after: seq<Task>, i: nat, g: Grant, timed: bool)
    requires ParentsOk(tasks) && ParentsOk(after) && Extends(tasks, after) && i < |tasks|
    requires GrantOk(tasks, RootOf(tasks, i), g, timed)
    ensures GrantOk(after, RootOf(after, i), g, timed)
  {
    SameRoot(tasks, after, i);
    StillAllows(tasks[RootOf(tasks, i)].grants, after[RootOf(tasks, i)].grants, g.capability, g.scope, g.expiresAt,
                timed);
  }

  lemma StillPendingOk(tasks: seq<Task>, after: seq<Task>, p: Pending)
    requires ParentsOk(tasks) && ParentsOk(after) && Extends(tasks, after) && PendingOk(tasks, p)
    ensures PendingOk(after, p)
  {
    SameRoot(tasks, after, p.task);
    match p.approval
    case ByHuman =>
      var root := RootOf(tasks, p.task);
      forall k | 0 <= k < |p.requests|
        ensures RootAllows(after[root].grants, p.requests[k].capability, p.requests[k].scope, None, false)
      {
        StillAllows(tasks[root].grants, after[root].grants, p.requests[k].capability, p.requests[k].scope, None, false);
      }
    case ByParents(path, _) =>
      forall k | 0 <= k < |path| ensures RootOf(after, path[k]) == RootOf(after, p.task) {
        SameRoot(tasks, after, path[k]);
      }
  }

  /** A covered grant covers on: what it contains is covered by the root as well. */
  lemma CoveredThrough(root: seq<Grant>, g: Grant, scope: Scope, timed: bool)
    requires RootAllows(root, g.capability, g.scope, g.expiresAt, timed) && ScopeContains(g.scope, scope)
    ensures RootAllows(root, g.capability, scope, g.expiresAt, timed)
  {
    var k :| 0 <= k < |root| && root[k].source.RootSource?
      && Covers(root[k], g.capability, g.scope, g.expiresAt, timed);
    ContainsTransitive(root[k].scope, g.scope, scope);
    assert Covers(root[k], g.capability, scope, g.expiresAt, timed);
  }

  /** Grants that a task of the tree hands on are covered by the root of the tree. */
  lemma DelegatedOk(rules: seq<Rule>, tasks: seq<Task>, issuer: nat, subject: nat, requests: seq<Request>, at: int,
                    next: nat, i: nat,
                    timed: bool)
    requires TasksOk(tasks, timed) && issuer < |tasks|
    requires Delegate(rules, issuer, tasks[issuer].grants, subject, requests, at, next).Some?
             && i < |Distinct(requests)|
    ensures GrantOk(tasks, RootOf(tasks, issuer),
                    Delegate(rules, issuer, tasks[issuer].grants, subject, requests, at, next).value[i], timed)
  {
    var grants := tasks[issuer].grants;
    var g := Delegate(rules, issuer, grants, subject, requests, at, next).value[i];
    DelegateNarrows(rules, issuer, grants, subject, requests, at, next);
    assert HasSource(g, issuer, grants, at);
    SourceCovers(tasks, issuer, g, at, timed);
  }

  /** What narrows a covered grant is covered too. */
  lemma {:induction false} SourceCovers(tasks: seq<Task>, issuer: nat, g: Grant, at: int, timed: bool)
    requires TasksOk(tasks, timed) && issuer < |tasks| && HasSource(g, issuer, tasks[issuer].grants, at)
    ensures GrantOk(tasks, RootOf(tasks, issuer), g, timed)
  {
    var grants := tasks[issuer].grants;
    var k :| 0 <= k < |grants| && HandedFrom(g, issuer, grants[k], at);
    assert TaskOk(tasks, issuer, timed);
    assert GrantOk(tasks, RootOf(tasks, issuer), grants[k], timed);
    CoveredThrough(tasks[RootOf(tasks, issuer)].grants, grants[k], g.scope, timed);
  }

  /** New grants for one task, all covered by its root. */
  lemma AddedKeeps(t: Tree, i: nat, grants: seq<Grant>, timed: bool)
    requires Inv(t, timed) && i < |t.tasks|
    requires forall k :: 0 <= k < |grants| ==> GrantOk(t.tasks, RootOf(t.tasks, i), grants[k], timed)
    ensures var after := AddGrants(t.tasks, i, grants);
            TasksOk(after, timed) && forall p :: p in t.pending.Values ==> PendingOk(after, p)
  {
    var after := AddGrants(t.tasks, i, grants);
    forall j | 0 <= j < |after| ensures TaskOk(after, j, timed) {
      forall k | 0 <= k < |after[j].grants| ensures GrantOk(after, RootOf(after, j), after[j].grants[k], timed) {
        assert TaskOk(t.tasks, j, timed);
        StillGrantOk(t.tasks, after, j, after[j].grants[k], timed);
      }
    }
    forall p | p in t.pending.Values ensures PendingOk(after, p) {
      StillPendingOk(t.tasks, after, p);
    }
  }

  /** A new task, with grants covered by the root it comes to belong to. */
  lemma CreatedKeeps(t: Tree, task: Task, timed: bool)
    requires Inv(t, timed) && (task.parent.Some? ==> task.parent.value < |t.tasks|)
    requires forall k :: 0 <= k < |task.grants| ==>
               if task.parent.Some? then GrantOk(t.tasks, RootOf(t.tasks, task.parent.value), task.grants[k], timed)
               else RootAllows(task.grants, task.grants[k].capability, task.grants[k].scope, task.grants[k].expiresAt,
                               timed)
    ensures var after := t.tasks + [task];
            TasksOk(after, timed) && forall p :: p in t.pending.Values ==> PendingOk(after, p)
  {
    var after := t.tasks + [task];
    assert Extends(t.tasks, after);
    forall j | 0 <= j < |after| ensures TaskOk(after, j, timed) {
      forall k | 0 <= k < |after[j].grants| ensures GrantOk(after, RootOf(after, j), after[j].grants[k], timed) {
        if j < |t.tasks| {
          assert TaskOk(t.tasks, j, timed);
          StillGrantOk(t.tasks, after, j, after[j].grants[k], timed);
        } else if task.parent.Some? {
          StillGrantOk(t.tasks, after, task.parent.value, task.grants[k], timed);
        }
      }
    }
    forall p | p in t.pending.Values ensures PendingOk(after, p) {
      StillPendingOk(t.tasks, after, p);
    }
  }

  /** One task changes its life or uses up grants. */
  lemma ChangedKeeps(t: Tree, after: seq<Task>, timed: bool)
    requires Inv(t, timed) && |after| == |t.tasks| && ParentsOk(after) && Extends(t.tasks, after)
    requires forall i :: 0 <= i < |after| ==> |after[i].grants| == |t.tasks[i].grants|
    ensures TasksOk(after, timed) && forall p :: p in t.pending.Values ==> PendingOk(after, p)
  {
    forall j | 0 <= j < |after| ensures TaskOk(after, j, timed) {
      forall k | 0 <= k < |after[j].grants| ensures GrantOk(after, RootOf(after, j), after[j].grants[k], timed) {
        assert TaskOk(t.tasks, j, timed);
        assert SameReach(t.tasks[j].grants[k], after[j].grants[k]);
        StillGrantOk(t.tasks, after, j, t.tasks[j].grants[k], timed);
      }
    }
    forall p | p in t.pending.Values ensures PendingOk(after, p) {
      StillPendingOk(t.tasks, after, p);
    }
  }

  // ---- steps ----

  predicate InTree(tasks: seq<Task>, ids: seq<nat>, i: nat)
    requires ParentsOk(tasks) && i < |tasks|
  {
    forall k :: 0 <= k < |ids| ==> ids[k] < |tasks| && RootOf(tasks, ids[k]) == RootOf(tasks, i)
  }

  lemma {:induction false} PathInside(tasks: seq<Task>, chain: seq<nat>, holder: nat, requester: nat)
    requires ParentsOk(tasks) && requester < |tasks| && holder < |chain| && InTree(tasks, chain, requester)
    ensures InTree(tasks, PathOf(chain, holder, requester), requester)
    decreases holder
  {
    if holder > 0 {
      PathInside(tasks, chain, holder - 1, requester);
    }
  }

  /** What the last authority covers, the root of the tree covers. */
  lemma AuthorityCovers(t: Tree, task: nat, authority: nat, r: Request, at: int, timed: bool)
    requires Inv(t, timed) && task < |t.tasks| && authority < |t.tasks|
             && RootOf(t.tasks, authority) == RootOf(t.tasks, task)
    requires FindGrant(t.tasks[authority].grants, r, at, false, None, true).Some?
    ensures RootAllows(t.tasks[RootOf(t.tasks, task)].grants, r.capability, r.scope, None, false)
  {
    var g := FindGrant(t.tasks[authority].grants, r, at, false, None, true).value;
    assert TaskOk(t.tasks, authority, timed);
    var k :| 0 <= k < |t.tasks[authority].grants| && t.tasks[authority].grants[k] == g;
    CoveredThrough(t.tasks[RootOf(t.tasks, authority)].grants, g, r.scope, timed);
    var root := t.tasks[RootOf(t.tasks, task)].grants;
    var j :| 0 <= j < |root| && root[j].source.RootSource?
      && Covers(root[j], g.capability, r.scope, g.expiresAt, timed);
    assert Covers(root[j], r.capability, r.scope, None, false);
  }

  /** A request goes to a human only when the last authority covers every part of it. */
  lemma PlanCovers(rules: seq<Rule>, ancestors: seq<seq<Grant>>, requests: seq<Request>, now: int, k: nat)
    requires Plan(rules, ancestors, requests, now).Human? && k < |requests|
    ensures |ancestors| > 0 && FindGrant(ancestors[|ancestors| - 1], requests[k], now, false, None, true).Some?
  {
    DistinctExactly(requests, requests[k]);
    var rs := Distinct(requests);
    var i :| 0 <= i < |rs| && rs[i] == requests[k];
    assert FindGrant(ancestors[|ancestors| - 1], rs[i], now, false, None, true).Some?;
  }

  lemma AskedHuman(rules: seq<Rule>, t: Tree, task: nat, missing: seq<Request>, at: int, timed: bool)
    requires Inv(t, timed) && task < |t.tasks|
    requires Plan(rules, GrantsOf(t.tasks, Authorities(t.tasks, task)), missing, at).Human?
    ensures PendingOk(t.tasks, Pending(task, missing, ByHuman))
  {
    var chain := Authorities(t.tasks, task);
    forall k | 0 <= k < |missing|
      ensures RootAllows(t.tasks[RootOf(t.tasks, task)].grants, missing[k].capability, missing[k].scope, None, false)
    {
      PlanCovers(rules, GrantsOf(t.tasks, chain), missing, at, k);
      AuthorityCovers(t, task, chain[|chain| - 1], missing[k], at, timed);
    }
  }

  lemma AskedKeeps(rules: seq<Rule>, t: Tree, task: nat, requests: seq<Request>, id: nat, at: int, timed: bool)
    requires Inv(t, timed) && task < |t.tasks|
    ensures Inv(Asked(rules, t, task, requests, id, at), timed)
  {
    var missing := Missing(t.tasks[task].grants, Distinct(requests), at, None);
    var chain := Authorities(t.tasks, task);
    match Plan(rules, GrantsOf(t.tasks, chain), missing, at)
    case Refused =>
    case Human => AskedHuman(rules, t, task, missing, at, timed);
    case Path(holder) =>
      if holder < |chain| {
        AskedPath(t, task, missing, chain, holder, timed);
      }
  }

  lemma AskedPath(t: Tree, task: nat, missing: seq<Request>, chain: seq<nat>, holder: nat, timed: bool)
    requires Inv(t, timed) && task < |t.tasks| && holder < |chain| && InTree(t.tasks, chain, task)
    ensures PendingOk(t.tasks, Pending(task, missing, ByParents(PathOf(chain, holder, task), 0)))
  {
    PathInside(t.tasks, chain, holder, task);
  }

  lemma HopGrantsOk(rules: seq<Rule>, t: Tree, p: Pending, at: int, timed: bool)
    requires Inv(t, timed) && PendingOk(t.tasks, p) && p.approval.ByParents? && p.approval.hop + 1 < |p.approval.path|
    ensures var from, to := p.approval.path[p.approval.hop], p.approval.path[p.approval.hop + 1];
            && from < |t.tasks| && to < |t.tasks|
            && var more := Delegate(rules, from, t.tasks[from].grants, to, p.requests, at, t.next);
               more.Some? ==>
                 forall k :: 0 <= k < |more.value| ==> GrantOk(t.tasks, RootOf(t.tasks, to), more.value[k], timed)
  {
    var from, to := p.approval.path[p.approval.hop], p.approval.path[p.approval.hop + 1];
    var more := Delegate(rules, from, t.tasks[from].grants, to, p.requests, at, t.next);
    if more.Some? {
      forall k | 0 <= k < |more.value| ensures GrantOk(t.tasks, RootOf(t.tasks, to), more.value[k], timed) {
        DelegatedOk(rules, t.tasks, from, to, p.requests, at, t.next, k, timed);
      }
    }
  }

  lemma HopValue(rules: seq<Rule>, t: Tree, id: nat, at: int)
    requires id in t.pending && t.pending[id].approval.ByParents?
    requires var path, hop := t.pending[id].approval.path, t.pending[id].approval.hop;
             hop + 1 < |path| && path[hop] < |t.tasks| && path[hop + 1] < |t.tasks|
    ensures var p := t.pending[id];
            var path, hop := p.approval.path, p.approval.hop;
            var more := Delegate(rules, path[hop], t.tasks[path[hop]].grants, path[hop + 1], p.requests, at, t.next);
            HopApproved(rules, t, id, at) ==
              if more.None? then t.(pending := t.pending - {id})
              else
                Tree(AddGrants(t.tasks, path[hop + 1], more.value),
                     if hop + 2 < |path| then t.pending[id := p.(approval := ByParents(path, hop + 1))]
                     else t.pending - {id},
                     t.next + |more.value|)
  {
  }

  /** With the grants handed down, the request is one hop further, or done. */
  lemma HopMoves(t: Tree, after: seq<Task>, id: nat, next: nat, timed: bool)
    requires id in t.pending && t.pending[id].approval.ByParents? && TasksOk(after, timed)
    requires forall p :: p in t.pending.Values ==> PendingOk(after, p)
    ensures Inv(Tree(after, t.pending - {id}, next), timed)
    ensures var p := t.pending[id];
            Inv(Tree(after, t.pending[id := p.(approval := ByParents(p.approval.path, p.approval.hop + 1))], next),
                timed)
  {
    assert forall x :: x in t.pending ==> t.pending[x] in t.pending.Values;
  }

  lemma HopKeeps(rules: seq<Rule>, t: Tree, id: nat, at: int, timed: bool)
    requires Inv(t, timed) && id in t.pending && t.pending[id].approval.ByParents?
    ensures Inv(HopApproved(rules, t, id, at), timed)
  {
    var p := t.pending[id];
    var path, hop := p.approval.path, p.approval.hop;
    if hop + 1 < |path| {
      HopGrantsOk(rules, t, p, at, timed);
      HopValue(rules, t, id, at);
      var more := Delegate(rules, path[hop], t.tasks[path[hop]].grants, path[hop + 1], p.requests, at, t.next);
      if more.Some? {
        AddedKeeps(t, path[hop + 1], more.value, timed);
        HopMoves(t, AddGrants(t.tasks, path[hop + 1], more.value), id, t.next + |more.value|, timed);
      }
    }
  }

  /** Every part of the request is covered by a root grant that never expires. */
  predicate CoveredForGood(t: Tree, id: nat)
    requires ParentsOk(t.tasks) && id in t.pending && t.pending[id].task < |t.tasks|
  {
    var p := t.pending[id];
    forall k :: 0 <= k < |p.requests| ==>
      RootAllows(t.tasks[RootOf(t.tasks, p.task)].grants, p.requests[k].capability, p.requests[k].scope, None, true)
  }

  lemma HumanGrantOk(rules: seq<Rule>, t: Tree, id: nat, k: nat, timed: bool)
    requires Inv(t, timed) && id in t.pending && t.pending[id].approval.ByHuman?
    requires timed ==> CoveredForGood(t, id)
    requires k < |IssueHuman(rules, t.pending[id].task, id, t.pending[id].requests, t.next)|
    ensures GrantOk(t.tasks, RootOf(t.tasks, t.pending[id].task),
                    IssueHuman(rules, t.pending[id].task, id, t.pending[id].requests, t.next)[k], timed)
  {
    var p := t.pending[id];
    DistinctExactly(p.requests, Distinct(p.requests)[k]);
    assert Distinct(p.requests)[k] in Distinct(p.requests);
    var j :| 0 <= j < |p.requests| && p.requests[j] == Distinct(p.requests)[k];
  }

  lemma HumanKeeps(rules: seq<Rule>, t: Tree, id: nat, timed: bool)
    requires Inv(t, timed) && id in t.pending && t.pending[id].approval.ByHuman?
    requires timed ==> CoveredForGood(t, id)
    ensures Inv(Step(rules, t, HumanApproves(id)), timed)
  {
    var p := t.pending[id];
    var grants := IssueHuman(rules, p.task, id, p.requests, t.next);
    forall k | 0 <= k < |grants| ensures GrantOk(t.tasks, RootOf(t.tasks, p.task), grants[k], timed) {
      HumanGrantOk(rules, t, id, k, timed);
    }
    AddedKeeps(t, p.task, grants, timed);
    assert forall x :: x in t.pending ==> t.pending[x] in t.pending.Values;
  }

  lemma RootKeeps(rules: seq<Rule>, t: Tree, grants: seq<Grant>, timed: bool)
    requires Inv(t, timed) && FromRoot(grants)
    ensures Inv(t.(tasks := t.tasks + [Task(None, grants, true)]), timed)
  {
    forall k | 0 <= k < |grants|
      ensures RootAllows(grants, grants[k].capability, grants[k].scope, grants[k].expiresAt, timed)
    {
      ContainsExactly(grants[k].scope, grants[k].scope);
      assert Covers(grants[k], grants[k].capability, grants[k].scope, grants[k].expiresAt, timed);
    }
    CreatedKeeps(t, Task(None, grants, true), timed);
    assert forall x :: x in t.pending ==> t.pending[x] in t.pending.Values;
  }

  lemma SpawnKeeps(rules: seq<Rule>, t: Tree, parent: nat, requests: seq<Request>, at: int, timed: bool)
    requires Inv(t, timed)
    ensures Inv(Step(rules, t, Spawn(parent, requests, at)), timed)
  {
    if parent < |t.tasks| && t.tasks[parent].live {
      var grants := Delegate(rules, parent, t.tasks[parent].grants, |t.tasks|, requests, at, t.next);
      if grants.Some? {
        forall k | 0 <= k < |grants.value| ensures GrantOk(t.tasks, RootOf(t.tasks, parent), grants.value[k], timed) {
          DelegatedOk(rules, t.tasks, parent, |t.tasks|, requests, at, t.next, k, timed);
        }
        CreatedKeeps(t, Task(Some(parent), grants.value, true), timed);
        assert forall x :: x in t.pending ==> t.pending[x] in t.pending.Values;
      }
    }
  }

  lemma ChangeKeeps(rules: seq<Rule>, t: Tree, e: Event, timed: bool)
    requires Inv(t, timed) && (e.Use? || e.Terminate?)
    ensures Inv(Step(rules, t, e), timed)
  {
    var after := Step(rules, t, e).tasks;
    assert Extends(t.tasks, after);
    ChangedKeeps(t, after, timed);
    assert forall x :: x in t.pending ==> t.pending[x] in t.pending.Values;
  }

  /** If time counts, a human approves only what root grants cover for good. */
  predicate Timely(t: Tree, e: Event)
    requires ParentsOk(t.tasks)
  {
    e.HumanApproves? && e.id in t.pending && t.pending[e.id].approval.ByHuman? && t.pending[e.id].task < |t.tasks| ==>
      CoveredForGood(t, e.id)
  }

  lemma StepKeeps(rules: seq<Rule>, t: Tree, e: Event, timed: bool)
    requires Inv(t, timed) && (timed ==> Timely(t, e))
    ensures Inv(Step(rules, t, e), timed)
  {
    match e
    case CreateRoot(requests) => RootKeeps(rules, t, IssueRoot(rules, |t.tasks|, requests, t.next), timed);
    case AdoptRoot(grants) => if FromRoot(grants) { RootKeeps(rules, t, grants, timed); }
    case Spawn(parent, requests, at) => SpawnKeeps(rules, t, parent, requests, at, timed);
    case Ask(task, requests, id, at) => if task < |t.tasks| { AskedKeeps(rules, t, task, requests, id, at, timed); }
    case ApproveHop(id, at) =>
      if id in t.pending && t.pending[id].approval.ByParents? { HopKeeps(rules, t, id, at, timed); }
    case HumanApproves(id) => if id in t.pending && t.pending[id].approval.ByHuman? { HumanKeeps(rules, t, id, timed); }
    case Deny(_) =>
    case Use(_, _, _) => ChangeKeeps(rules, t, e, timed);
    case Terminate(_) => ChangeKeeps(rules, t, e, timed);
  }

  function Run(rules: seq<Rule>, t: Tree, es: seq<Event>): (r: Tree)
    requires ParentsOk(t.tasks)
    ensures ParentsOk(r.tasks)
    decreases |es|
  {
    if |es| == 0 then t else Run(rules, Step(rules, t, es[0]), es[1..])
  }

  predicate AllTimely(rules: seq<Rule>, t: Tree, es: seq<Event>)
    requires ParentsOk(t.tasks)
    decreases |es|
  {
    |es| == 0 || (Timely(t, es[0]) && AllTimely(rules, Step(rules, t, es[0]), es[1..]))
  }

  lemma {:induction false} RunKeeps(rules: seq<Rule>, t: Tree, es: seq<Event>, timed: bool)
    requires Inv(t, timed) && (timed ==> AllTimely(rules, t, es))
    ensures Inv(Run(rules, t, es), timed)
    decreases |es|
  {
    if |es| > 0 {
      StepKeeps(rules, t, es[0], timed);
      RunKeeps(rules, Step(rules, t, es[0]), es[1..], timed);
    }
  }

  /**
   * Attenuation in scope: over any run of spawning, asking, approving hop by hop, human approval, use and restored
   * roots, every grant that any task holds is covered by a grant of the same capability its root came with.
   */
  lemma Attenuated(rules: seq<Rule>, es: seq<Event>, i: nat, k: nat)
    ensures var t := Run(rules, NO_TASKS, es);
            i < |t.tasks| && k < |t.tasks[i].grants| ==>
              var g := t.tasks[i].grants[k];
              RootAllows(t.tasks[RootOf(t.tasks, i)].grants, g.capability, g.scope, g.expiresAt, false)
  {
    RunKeeps(rules, NO_TASKS, es, false);
    var t := Run(rules, NO_TASKS, es);
    if i < |t.tasks| {
      assert TaskOk(t.tasks, i, false);
    }
  }

  /**
   * Attenuation in scope and time: root grants may expire at any time. As long as humans approve only what the root
   * holds for good, every grant that any task holds is covered by a root grant that expires no earlier.
   */
  lemma AttenuatedInTime(rules: seq<Rule>, es: seq<Event>, i: nat, k: nat)
    requires AllTimely(rules, NO_TASKS, es)
    ensures var t := Run(rules, NO_TASKS, es);
            i < |t.tasks| && k < |t.tasks[i].grants| ==>
              var g := t.tasks[i].grants[k];
              RootAllows(t.tasks[RootOf(t.tasks, i)].grants, g.capability, g.scope, g.expiresAt, true)
  {
    RunKeeps(rules, NO_TASKS, es, true);
    var t := Run(rules, NO_TASKS, es);
    if i < |t.tasks| {
      assert TaskOk(t.tasks, i, true);
    }
  }

  // ---- human approvals and time ----

  /** A human's approval keeps every grant inside the root's time exactly when the root holds all of it for good. */
  lemma HumanExactly(rules: seq<Rule>, t: Tree, id: nat)
    requires Inv(t, true) && id in t.pending && t.pending[id].approval.ByHuman?
    ensures TasksOk(Step(rules, t, HumanApproves(id)).tasks, true) <==> CoveredForGood(t, id)
  {
    var after := Step(rules, t, HumanApproves(id));
    if CoveredForGood(t, id) {
      HumanKeeps(rules, t, id, true);
    } else if TasksOk(after.tasks, true) {
      var p := t.pending[id];
      forall k | 0 <= k < |p.requests|
        ensures RootAllows(t.tasks[RootOf(t.tasks, p.task)].grants, p.requests[k].capability, p.requests[k].scope,
                           None, true)
      {
        HumanNeeds(rules, t, id, k);
      }
    }
  }

  lemma HumanNeeds(rules: seq<Rule>, t: Tree, id: nat, k: nat)
    requires Inv(t, true) && id in t.pending && t.pending[id].approval.ByHuman? && k < |t.pending[id].requests|
    requires TasksOk(Step(rules, t, HumanApproves(id)).tasks, true)
    ensures var r := t.pending[id].requests[k];
            RootAllows(t.tasks[RootOf(t.tasks, t.pending[id].task)].grants, r.capability, r.scope, None, true)
  {
    var p := t.pending[id];
    var r := p.requests[k];
    var grants := IssueHuman(rules, p.task, id, p.requests, t.next);
    DistinctExactly(p.requests, r);
    var i :| 0 <= i < |Distinct(p.requests)| && Distinct(p.requests)[i] == r;
    AddedOk(t.tasks, p.task, grants, i);
  }

  /** If everything is covered with the new grants, each of them is covered by what the root came with. */
  lemma AddedOk(tasks: seq<Task>, i: nat, grants: seq<Grant>, k: nat)
    requires ParentsOk(tasks) && i < |tasks| && k < |grants| && TasksOk(AddGrants(tasks, i, grants), true)
    requires forall j :: 0 <= j < |grants| ==> !grants[j].source.RootSource?
    ensures GrantOk(tasks, RootOf(tasks, i), grants[k], true)
  {
    var after := AddGrants(tasks, i, grants);
    SameRoot(tasks, after, i);
    var g := grants[k];
    assert after[i].grants[|tasks[i].grants| + k] == g;
    assert TaskOk(after, i, true);
    assert GrantOk(after, RootOf(after, i), g, true);
    AddedAllow(tasks, i, grants, RootOf(tasks, i), g.capability, g.scope, g.expiresAt);
  }

  /** Grants from elsewhere do not extend what a root came with. */
  lemma AddedAllow(tasks: seq<Task>, i: nat, grants: seq<Grant>, root: nat, capability: string, scope: Scope,
                   expiresAt: Option<int>)
    requires i < |tasks| && root < |tasks| && forall k :: 0 <= k < |grants| ==> !grants[k].source.RootSource?
    requires RootAllows(AddGrants(tasks, i, grants)[root].grants, capability, scope, expiresAt, true)
    ensures RootAllows(tasks[root].grants, capability, scope, expiresAt, true)
  {
    var held := AddGrants(tasks, i, grants)[root].grants;
    var j :| 0 <= j < |held| && held[j].source.RootSource? && Covers(held[j], capability, scope, expiresAt, true);
    assert held[j] == tasks[root].grants[j];
  }

  const HUMAN_RULE := [Rule("deploy", true, false)]
  const DEPLOY := Request("deploy", All)
  const FADING := Grant(0, 0, "deploy", All, RootSource, false, true, Some(10), None, None)
  const FADED_RUN := [AdoptRoot([FADING]), Ask(0, [DEPLOY], 7, 5), HumanApproves(7)]

  /** The failing case: a root holds a capability until 10, a human grants it at 5, and the grant has no end. */
  lemma HumanOutlivesRoot()
    ensures var t := Run(HUMAN_RULE, NO_TASKS, FADED_RUN);
            && |t.tasks| == 1 && |t.tasks[0].grants| == 2
            && t.tasks[0].grants[1].expiresAt.None?
            && !RootAllows(t.tasks[0].grants, "deploy", All, None, true)
  {
    var t1 := Step(HUMAN_RULE, NO_TASKS, FADED_RUN[0]);
    assert t1.tasks == [Task(None, [FADING], true)];
    var missing := Missing([FADING], Distinct([DEPLOY]), 5, None);
    OneMissing();
    var t2 := Step(HUMAN_RULE, t1, FADED_RUN[1]);
    assert t2.pending == map[7 := Pending(0, [DEPLOY], ByHuman)];
    var t3 := Step(HUMAN_RULE, t2, FADED_RUN[2]);
    assert Distinct([DEPLOY]) == [DEPLOY];
    assert FADED_RUN[1..] == [FADED_RUN[1], FADED_RUN[2]] && [FADED_RUN[1], FADED_RUN[2]][1..] == [FADED_RUN[2]];
    assert Run(HUMAN_RULE, t3, []) == t3;
    assert [FADED_RUN[2]][1..] == [];
    assert Run(HUMAN_RULE, t2, [FADED_RUN[2]]) == t3;
    assert Run(HUMAN_RULE, t1, [FADED_RUN[1], FADED_RUN[2]]) == t3;
    assert Run(HUMAN_RULE, NO_TASKS, FADED_RUN) == t3;
  }

  lemma OneMissing()
    ensures Distinct([DEPLOY]) == [DEPLOY] && Missing([FADING], [DEPLOY], 5, None) == [DEPLOY]
    ensures Plan(HUMAN_RULE, [[FADING]], [DEPLOY], 5).Human?
  {
    assert [DEPLOY][..0] == [];
    assert Distinct([]) == [];
    assert Fits(FADING, DEPLOY, 5, false, None, true) && !Fits(FADING, DEPLOY, 5, false, None, false);
    assert FindGrant([FADING], DEPLOY, 5, false, None, true).Some?;
    assert FindGrant([FADING], DEPLOY, 5, false, None, false).None?;
    assert RuleFor(HUMAN_RULE, "deploy").human;
  }
}
