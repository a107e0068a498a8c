/** Requests that go up to an ancestor and come down hop by hop among other events. */
module CapabilityPaths {
  import opened Basics
  import opened Capability
  import opened CapabilityTree

  // ---- what lasts ----

  /** The grant outlasts a time, and only a capability that needs a human is limited in its uses. */
  predicate LastsUntil(rules: seq<Rule>, g: Grant, until: int) {
    Live(g, until) && (g.uses.None? || RuleFor(rules, g.capability).human)
  }

  predicate AllLast(rules: seq<Rule>, grants: seq<Grant>, until: int) {
    forall k :: 0 <= k < |grants| ==> LastsUntil(rules, grants[k], until)
  }

  /** No grant of any task runs out before then. */
  predicate NothingRunsOut(rules: seq<Rule>, tasks: seq<Task>, until: int) {
    forall i :: 0 <= i < |tasks| ==> AllLast(rules, tasks[i].grants, until)
  }

  /** The grant is a lasting source for this request: it can be handed on and used any number of times. */
  predicate Supplies(rules: seq<Rule>, g: Grant, r: Request) {
    && !RuleFor(rules, r.capability).human && RuleFor(rules, r.capability).delegable
    && g.capability == r.capability && ScopeContains(g.scope, r.scope)
    && g.delegable && !g.needsApproval && g.uses.None?
  }

  predicate Supplied(rules: seq<Rule>, grants: seq<Grant>, r: Request) {
    exists k :: 0 <= k < |grants| && Supplies(rules, grants[k], r)
  }

  predicate AllSupplied(rules: seq<Rule>, grants: seq<Grant>, requests: seq<Request>) {
    forall r :: r in requests ==> Supplied(rules, grants, r)
  }

  /** Every grant is still there; only limited ones may have changed. */
  predicate KeepsUnlimited(grants: seq<Grant>, after: seq<Grant>) {
    && |grants| <= |after|
    && forall k :: 0 <= k < |grants| && grants[k].uses.None? ==> after[k] == grants[k]
  }

  lemma SuppliedStays(rules: seq<Rule>, grants: seq<Grant>, after: seq<Grant>, requests: seq<Request>)
    requires AllSupplied(rules, grants, requests) && KeepsUnlimited(grants, after)
    ensures AllSupplied(rules, after, requests)
  {
    forall r | r in requests ensures Supplied(rules, after, r) {
      var k :| 0 <= k < |grants| && Supplies(rules, grants[k], r);
      assert after[k] == grants[k];
    }
  }

  lemma StepGrants(rules: seq<Rule>, t: Tree, e: Event, i: nat)
    requires ParentsOk(t.tasks) && i < |t.tasks|
    ensures i < |Step(rules, t, e).tasks| && KeepsUnlimited(t.tasks[i].grants, Step(rules, t, e).tasks[i].grants)
  {
  }

  // ---- nothing runs out ----

  /** The events under which nothing runs out: only a restored root could bring in something that does. */
  predicate Lasting(rules: seq<Rule>, e: Event, until: int) {
    e.AdoptRoot? ==> AllLast(rules, e.grants, until)
  }

  lemma HandedLast(rules: seq<Rule>, issuer: nat, grants: seq<Grant>, subject: nat, requests: seq<Request>, at: int,
                   next: nat, until: int)
    requires AllLast(rules, grants, until) && Delegate(rules, issuer, grants, subject, requests, at, next).Some?
    ensures AllLast(rules, Delegate(rules, issuer, grants, subject, requests, at, next).value, until)
  {
    var handed := Delegate(rules, issuer, grants, subject, requests, at, next).value;
    DelegateNarrows(rules, issuer, grants, subject, requests, at, next);
    forall i | 0 <= i < |handed| ensures LastsUntil(rules, handed[i], until) {
      assert HasSource(handed[i], issuer, grants, at);
      SourceLasts(rules, handed[i], issuer, grants, at, until);
    }
  }

  /** What is handed on has no use limit of its own and lasts as long as its source. */
  lemma SourceLasts(rules: seq<Rule>, g: Grant, issuer: nat, grants: seq<Grant>, at: int, until: int)
    requires AllLast(rules, grants, until) && HasSource(g, issuer, grants, at) && g.uses.None?
    ensures LastsUntil(rules, g, until)
  {
    var k :| 0 <= k < |grants| && HandedFrom(g, issuer, grants[k], at);
    assert LastsUntil(rules, grants[k], until);
  }

  lemma AddedLast(rules: seq<Rule>, tasks: seq<Task>, i: nat, grants: seq<Grant>, until: int)
    requires NothingRunsOut(rules, tasks, until) && i < |tasks| && AllLast(rules, grants, until)
    ensures NothingRunsOut(rules, AddGrants(tasks, i, grants), until)
  {
    var after := AddGrants(tasks, i, grants);
    assert AllLast(rules, tasks[i].grants, until);
    forall j | 0 <= j < |after| ensures AllLast(rules, after[j].grants, until) {
      assert AllLast(rules, tasks[j].grants, until);
    }
  }

  lemma HopLast(rules: seq<Rule>, t: Tree, id: nat, at: int, until: int)
    requires NothingRunsOut(rules, t.tasks, until) && id in t.pending && t.pending[id].approval.ByParents?
    ensures NothingRunsOut(rules, HopApproved(rules, t, id, at).tasks, until)
  {
    var p := t.pending[id];
    var path, hop := p.approval.path, p.approval.hop;
    if hop + 1 < |path| && path[hop] < |t.tasks| && path[hop + 1] < |t.tasks| {
      var grants := t.tasks[path[hop]].grants;
      assert AllLast(rules, grants, until);
      var more := Delegate(rules, path[hop], grants, path[hop + 1], p.requests, at, t.next);
      if more.Some? {
        HandedLast(rules, path[hop], grants, path[hop + 1], p.requests, at, t.next, until);
        AddedLast(rules, t.tasks, path[hop + 1], more.value, until);
      }
    }
  }

  lemma UseLast(rules: seq<Rule>, t: Tree, task: nat, index: nat, operation: string, until: int)
    requires ParentsOk(t.tasks) && NothingRunsOut(rules, t.tasks, until)
    ensures NothingRunsOut(rules, Step(rules, t, Use(task, index, operation)).tasks, until)
  {
    var after := Step(rules, t, Use(task, index, operation)).tasks;
    forall j | 0 <= j < |after| ensures AllLast(rules, after[j].grants, until) {
      assert AllLast(rules, t.tasks[j].grants, until);
    }
  }

  lemma StepLasts(rules: seq<Rule>, t: Tree, e: Event, until: int)
    requires ParentsOk(t.tasks) && NothingRunsOut(rules, t.tasks, until) && Lasting(rules, e, until)
    ensures NothingRunsOut(rules, Step(rules, t, e).tasks, until)
  {
    match e
    case Spawn(parent, requests, at) =>
      if parent < |t.tasks| && t.tasks[parent].live {
        assert AllLast(rules, t.tasks[parent].grants, until);
        if Delegate(rules, parent, t.tasks[parent].grants, |t.tasks|, requests, at, t.next).Some? {
          HandedLast(rules, parent, t.tasks[parent].grants, |t.tasks|, requests, at, t.next, until);
        }
      }
    case ApproveHop(id, at) =>
      if id in t.pending && t.pending[id].approval.ByParents? { HopLast(rules, t, id, at, until); }
    case HumanApproves(id) =>
      if id in t.pending && t.pending[id].approval.ByHuman? && t.pending[id].task < |t.tasks| {
        AddedLast(rules, t.tasks, t.pending[id].task,
                  IssueHuman(rules, t.pending[id].task, id, t.pending[id].requests, t.next), until);
      }
    case Use(task, index, operation) => UseLast(rules, t, task, index, operation, until);
    case Terminate(task) =>
      var after := Step(rules, t, e).tasks;
      forall j | 0 <= j < |after| ensures AllLast(rules, after[j].grants, until) {
        assert AllLast(rules, t.tasks[j].grants, until);
      }
    case _ =>
  }

  // ---- one hop ----

  lemma SuppliedDelegable(rules: seq<Rule>, grants: seq<Grant>, requests: seq<Request>, at: int, until: int)
    requires AllSupplied(rules, grants, requests) && AllLast(rules, grants, until) && at <= until
    ensures AllDelegable(rules, grants, Distinct(requests), at)
  {
    var rs := Distinct(requests);
    DistinctSame(requests);
    forall i | 0 <= i < |rs| ensures Delegable(rules, grants, rs[i], at) {
      assert rs[i] in requests;
      var k :| 0 <= k < |grants| && Supplies(rules, grants[k], rs[i]);
      assert LastsUntil(rules, grants[k], until);
      FindsAny(grants, k, rs[i], at, true, None, false);
    }
  }

  lemma HandedSupply(rules: seq<Rule>, issuer: nat, grants: seq<Grant>, subject: nat, own: seq<Grant>,
                     requests: seq<Request>,
                     at: int, next: nat)
    requires Delegate(rules, issuer, grants, subject, requests, at, next).Some?
    ensures AllSupplied(rules, own + Delegate(rules, issuer, grants, subject, requests, at, next).value, requests)
  {
    var handed := Delegate(rules, issuer, grants, subject, requests, at, next).value;
    var rs := Distinct(requests);
    DistinctSame(requests);
    forall r | r in requests ensures Supplied(rules, own + handed, r) {
      assert r in rs;
      var i :| 0 <= i < |rs| && rs[i] == r;
      assert Delegable(rules, grants, rs[i], at);
      ContainsExactly(r.scope, r.scope);
      assert Supplies(rules, (own + handed)[|own| + i], r);
    }
  }

  /** A pending request on its way down, with a grantor that can hand all of it on. */
  predicate OnItsWay(rules: seq<Rule>, t: Tree, id: nat, p: Pending) {
    && id in t.pending && t.pending[id] == p && p.approval.ByParents?
    && var path, hop := p.approval.path, p.approval.hop;
       && hop + 1 < |path| && path[|path| - 1] == p.task
       && (forall k :: 0 <= k < |path| ==> path[k] < |t.tasks|)
       && AllSupplied(rules, t.tasks[path[hop]].grants, p.requests)
  }

  function Advanced(p: Pending, hops: nat): Pending
    requires p.approval.ByParents?
  {
    p.(approval := ByParents(p.approval.path, p.approval.hop + hops))
  }

  /** What must not happen to this request: its denial, its requester's end, an approval too late. */
  predicate Calm(rules: seq<Rule>, e: Event, id: nat, task: nat, until: int) {
    && Lasting(rules, e, until)
    && (e.Deny? ==> e.id != id)
    && (e.Terminate? ==> e.task != task)
    && (e.ApproveHop? && e.id == id ==> e.at <= until)
  }

  lemma HopDelivered(rules: seq<Rule>, t: Tree, id: nat, p: Pending, at: int, until: int)
    requires ParentsOk(t.tasks) && NothingRunsOut(rules, t.tasks, until) && OnItsWay(rules, t, id, p) && at <= until
    ensures var u := Step(rules, t, ApproveHop(id, at));
            var path, hop := p.approval.path, p.approval.hop;
            if hop + 2 < |path| then OnItsWay(rules, u, id, Advanced(p, 1))
            else p.task < |u.tasks| && AllSupplied(rules, u.tasks[p.task].grants, p.requests)
  {
    var path, hop := p.approval.path, p.approval.hop;
    var grants := t.tasks[path[hop]].grants;
    assert AllLast(rules, grants, until);
    SuppliedDelegable(rules, grants, p.requests, at, until);
    HandedSupply(rules, path[hop], grants, path[hop + 1], t.tasks[path[hop + 1]].grants, p.requests, at, t.next);
    var more := Delegate(rules, path[hop], grants, path[hop + 1], p.requests, at, t.next).value;
    HopAdds(rules, t, id, p, at);
    assert AddGrants(t.tasks, path[hop + 1], more)[path[hop + 1]].grants == t.tasks[path[hop + 1]].grants + more;
  }

  lemma HopAdds(rules: seq<Rule>, t: Tree, id: nat, p: Pending, at: int)
    requires ParentsOk(t.tasks) && OnItsWay(rules, t, id, p)
    ensures var path, hop := p.approval.path, p.approval.hop;
            var more := Delegate(rules, path[hop], t.tasks[path[hop]].grants, path[hop + 1], p.requests, at, t.next);
            more.Some? ==>
              Step(rules, t, ApproveHop(id, at)) ==
                Tree(AddGrants(t.tasks, path[hop + 1], more.value),
                     if hop + 2 < |path| then t.pending[id := p.(approval := ByParents(path, hop + 1))]
                     else t.pending - {id},
                     t.next + |more.value|)
  {
  }

  /** Any other event leaves the request where it is. */
  lemma OthersLeave(rules: seq<Rule>, t: Tree, e: Event, id: nat, p: Pending, until: int)
    requires ParentsOk(t.tasks) && OnItsWay(rules, t, id, p) && Calm(rules, e, id, p.task, until)
    requires e.ApproveHop? ==> e.id != id
    ensures OnItsWay(rules, Step(rules, t, e), id, p)
  {
    var u := Step(rules, t, e);
    var grantor := p.approval.path[p.approval.hop];
    assert id in u.pending && u.pending[id] == p;
    forall k | 0 <= k < |p.approval.path| ensures p.approval.path[k] < |u.tasks| {
      StepGrants(rules, t, e, p.approval.path[k]);
    }
    StepGrants(rules, t, e, grantor);
    SuppliedStays(rules, t.tasks[grantor].grants, u.tasks[grantor].grants, p.requests);
  }

  // ---- whole runs ----

  function Approvals(es: seq<Event>, id: nat): nat {
    if |es| == 0 then 0 else (if es[0].ApproveHop? && es[0].id == id then 1 else 0) + Approvals(es[1..], id)
  }

  predicate AllCalm(rules: seq<Rule>, es: seq<Event>, id: nat, task: nat, until: int) {
    forall i :: 0 <= i < |es| ==> Calm(rules, es[i], id, task, until)
  }

  lemma {:induction false} SuppliedOn(rules: seq<Rule>, t: Tree, es: seq<Event>, task: nat, requests: seq<Request>)
    requires ParentsOk(t.tasks) && task < |t.tasks| && AllSupplied(rules, t.tasks[task].grants, requests)
    ensures task < |Run(rules, t, es).tasks| && AllSupplied(rules, Run(rules, t, es).tasks[task].grants, requests)
    decreases |es|
  {
    if |es| > 0 {
      var u := Step(rules, t, es[0]);
      StepGrants(rules, t, es[0], task);
      SuppliedStays(rules, t.tasks[task].grants, u.tasks[task].grants, requests);
      SuppliedOn(rules, u, es[1..], task, requests);
    }
  }

  /**
   * A request on its way is never refused: after any number of its hops were approved, at any times before something
   * runs out and among any other events, it is that many hops further, or the requester holds all of it.
   */
  lemma {:induction false} PathDelivers(rules: seq<Rule>, t: Tree, es: seq<Event>, id: nat, p: Pending, until: int)
    requires ParentsOk(t.tasks) && NothingRunsOut(rules, t.tasks, until)
    requires OnItsWay(rules, t, id, p) && AllCalm(rules, es, id, p.task, until)
    ensures var u := Run(rules, t, es);
            if p.approval.hop + Approvals(es, id) + 1 < |p.approval.path| then
              OnItsWay(rules, u, id, Advanced(p, Approvals(es, id)))
            else p.task < |u.tasks| && AllSupplied(rules, u.tasks[p.task].grants, p.requests)
    decreases |es|
  {
    if |es| > 0 {
      var e, rest := es[0], es[1..];
      var u := Step(rules, t, e);
      assert Calm(rules, e, id, p.task, until);
      assert AllCalm(rules, rest, id, p.task, until) by {
        forall i | 0 <= i < |rest| ensures Calm(rules, rest[i], id, p.task, until) {
          assert rest[i] == es[i + 1];
        }
      }
      StepLasts(rules, t, e, until);
      if e.ApproveHop? && e.id == id {
        HopDelivered(rules, t, id, p, e.at, until);
        if p.approval.hop + 2 < |p.approval.path| {
          PathDelivers(rules, u, rest, id, Advanced(p, 1), until);
        } else {
          SuppliedOn(rules, u, rest, p.task, p.requests);
        }
      } else {
        OthersLeave(rules, t, e, id, p, until);
        PathDelivers(rules, u, rest, id, p, until);
      }
    }
  }

  lemma {:induction false} RunLasts(rules: seq<Rule>, t: Tree, es: seq<Event>, until: int)
    requires ParentsOk(t.tasks) && NothingRunsOut(rules, t.tasks, until)
    requires forall i :: 0 <= i < |es| ==> Lasting(rules, es[i], until)
    ensures NothingRunsOut(rules, Run(rules, t, es).tasks, until)
    decreases |es|
  {
    if |es| > 0 {
      StepLasts(rules, t, es[0], until);
      forall i | 0 <= i < |es[1..]| ensures Lasting(rules, es[1..][i], until) {
        assert es[1..][i] == es[i + 1];
      }
      RunLasts(rules, Step(rules, t, es[0]), es[1..], until);
    }
  }

  // ---- from asking to holding ----

  lemma {:induction false} PathEnds(chain: seq<nat>, holder: nat, requester: nat)
    requires holder < |chain|
    ensures var path := PathOf(chain, holder, requester);
            |path| == holder + 2 && path[0] == chain[holder] && path[|path| - 1] == requester
    decreases holder
  {
    if holder > 0 {
      PathEnds(chain, holder - 1, requester);
    }
  }

  lemma HolderSupplies(rules: seq<Rule>, grants: seq<Grant>, requests: seq<Request>, at: int, until: int)
    requires AllDelegable(rules, grants, Distinct(requests), at) && AllLast(rules, grants, until)
    ensures AllSupplied(rules, grants, requests)
  {
    var rs := Distinct(requests);
    DistinctSame(requests);
    forall r | r in requests ensures Supplied(rules, grants, r) {
      assert r in rs;
      var i :| 0 <= i < |rs| && rs[i] == r;
      assert Delegable(rules, grants, rs[i], at);
      var g := FindGrant(grants, r, at, true, None, false).value;
      var k :| 0 <= k < |grants| && grants[k] == g;
      assert LastsUntil(rules, grants[k], until);
      assert Supplies(rules, grants[k], r);
    }
  }

  /** Who is asked last holds everything in a form that can be handed on. */
  lemma PlanHolder(rules: seq<Rule>, ancestors: seq<seq<Grant>>, missing: seq<Request>, at: int)
    requires Plan(rules, ancestors, missing, at).Path?
    ensures var holder := Plan(rules, ancestors, missing, at).holder;
            holder < |ancestors| && AllDelegable(rules, ancestors[holder], Distinct(missing), at)
  {
  }

  /** A request that is routed to an ancestor sets out on its way. */
  lemma AskSetsOut(rules: seq<Rule>, t: Tree, task: nat, requests: seq<Request>, id: nat, at: int, until: int)
    requires ParentsOk(t.tasks) && NothingRunsOut(rules, t.tasks, until) && task < |t.tasks| && id !in t.pending
    requires var missing := Missing(t.tasks[task].grants, Distinct(requests), at, None);
             Plan(rules, GrantsOf(t.tasks, Authorities(t.tasks, task)), missing, at).Path?
    ensures var missing := Missing(t.tasks[task].grants, Distinct(requests), at, None);
            var chain := Authorities(t.tasks, task);
            var holder := Plan(rules, GrantsOf(t.tasks, chain), missing, at).holder;
            && holder < |chain|
            && OnItsWay(rules, Step(rules, t, Ask(task, requests, id, at)), id,
                        Pending(task, missing, ByParents(PathOf(chain, holder, task), 0)))
  {
    var missing := Missing(t.tasks[task].grants, Distinct(requests), at, None);
    var chain := Authorities(t.tasks, task);
    var holder := Plan(rules, GrantsOf(t.tasks, chain), missing, at).holder;
    PlanHolder(rules, GrantsOf(t.tasks, chain), missing, at);
    AskedValue(rules, t, task, requests, id, at);
    assert Step(rules, t, Ask(task, requests, id, at)) == Asked(rules, t, task, requests, id, at);
    SetsOut(rules, t, task, missing, chain, holder, id, at, until);
  }

  lemma AskedValue(rules: seq<Rule>, t: Tree, task: nat, requests: seq<Request>, id: nat, at: int)
    requires ParentsOk(t.tasks) && task < |t.tasks| && id !in t.pending
    ensures var missing := Missing(t.tasks[task].grants, Distinct(requests), at, None);
            var chain := Authorities(t.tasks, task);
            var route := Plan(rules, GrantsOf(t.tasks, chain), missing, at);
            route.Path? && route.holder < |chain| ==>
              Asked(rules, t, task, requests, id, at) ==
                t.(pending := t.pending[id := Pending(task, missing, ByParents(PathOf(chain, route.holder, task), 0))])
  {
  }

  lemma SetsOut(rules: seq<Rule>, t: Tree, task: nat, missing: seq<Request>, chain: seq<nat>, holder: nat, id: nat,
                at: int, until: int)
    requires NothingRunsOut(rules, t.tasks, until) && task < |t.tasks| && holder < |chain|
    requires forall k :: 0 <= k < |chain| ==> chain[k] < |t.tasks|
    requires AllDelegable(rules, t.tasks[chain[holder]].grants, Distinct(missing), at)
    ensures var p := Pending(task, missing, ByParents(PathOf(chain, holder, task), 0));
            OnItsWay(rules, t.(pending := t.pending[id := p]), id, p)
  {
    assert AllLast(rules, t.tasks[chain[holder]].grants, until);
    HolderSupplies(rules, t.tasks[chain[holder]].grants, missing, at, until);
    PathEnds(chain, holder, task);
    ParentsOkInside(t.tasks, chain, holder, task);
  }

  lemma {:induction false} ParentsOkInside(tasks: seq<Task>, chain: seq<nat>, holder: nat, requester: nat)
    requires holder < |chain| && requester < |tasks| && forall k :: 0 <= k < |chain| ==> chain[k] < |tasks|
    ensures forall k :: 0 <= k < |PathOf(chain, holder, requester)| ==> PathOf(chain, holder, requester)[k] < |tasks|
    decreases holder
  {
    if holder > 0 {
      ParentsOkInside(tasks, chain, holder - 1, requester);
    }
  }

  lemma {:induction false} SuppliedAllowed(rules: seq<Rule>, grants: seq<Grant>, requests: seq<Request>, now: int,
                                           until: int)
    requires AllSupplied(rules, grants, requests) && AllLast(rules, grants, until) && now <= until
    ensures Missing(grants, requests, now, None) == []
    decreases |requests|
  {
    if |requests| > 0 {
      var last := requests[|requests| - 1];
      assert Supplied(rules, grants, last);
      var k :| 0 <= k < |grants| && Supplies(rules, grants[k], last);
      assert LastsUntil(rules, grants[k], until);
      FindsAny(grants, k, last, now, false, None, false);
      SuppliedAllowed(rules, grants, requests[..|requests| - 1], now, until);
    }
  }

  /**
   * From asking to holding: a request that was routed to an ancestor is met once as many hops as the path has were
   * approved, at any times and among any other events, and until something runs out the requester misses nothing.
   */
  lemma RequestDelivers(rules: seq<Rule>, t: Tree, task: nat, requests: seq<Request>, id: nat, at: int, es: seq<Event>,
                        now: int, until: int)
    requires ParentsOk(t.tasks) && NothingRunsOut(rules, t.tasks, until) && task < |t.tasks| && id !in t.pending
    requires AllCalm(rules, es, id, task, until) && now <= until
    ensures var missing := Missing(t.tasks[task].grants, Distinct(requests), at, None);
            var route := Plan(rules, GrantsOf(t.tasks, Authorities(t.tasks, task)), missing, at);
            var u := Run(rules, Step(rules, t, Ask(task, requests, id, at)), es);
            route.Path? && Approvals(es, id) > route.holder ==>
              task < |u.tasks| && Missing(u.tasks[task].grants, missing, now, None) == []
  {
    var missing := Missing(t.tasks[task].grants, Distinct(requests), at, None);
    var chain := Authorities(t.tasks, task);
    var route := Plan(rules, GrantsOf(t.tasks, chain), missing, at);
    if route.Path? && Approvals(es, id) > route.holder {
      var asked := Step(rules, t, Ask(task, requests, id, at));
      AskSetsOut(rules, t, task, requests, id, at, until);
      StepLasts(rules, t, Ask(task, requests, id, at), until);
      PathEnds(chain, route.holder, task);
      PathDelivers(rules, asked, es, id, Pending(task, missing, ByParents(PathOf(chain, route.holder, task), 0)),
                   until);
      forall i | 0 <= i < |es| ensures Lasting(rules, es[i], until) {
        assert Calm(rules, es[i], id, task, until);
      }
      RunLasts(rules, asked, es, until);
      var u := Run(rules, asked, es);
      assert AllLast(rules, u.tasks[task].grants, until);
      SuppliedAllowed(rules, u.tasks[task].grants, missing, now, until);
    }
  }
}
