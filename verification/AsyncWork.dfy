/** The work table of a task and the mailbox of its results. */
module AsyncWork {
  import opened Basics

  datatype Ending = Completed | Failed | Cancelled | TimedOut

  /** How a piece of work ended, with what it produced. */
  datatype Outcome = Outcome(ending: Ending, value: string, completedAt: int)

  datatype Blocker = Blocker(requestRef: string, deliveredAt: Option<int>)

  datatype Status =
    | Running
    | WaitingForCapability(blocker: Blocker)
    | Terminal(outcome: Outcome, deliveredAt: Option<int>)

  /** A tool call, or a subagent when it has a child task. */
  datatype Work = Work(id: string, child: Option<string>, status: Status, startedAt: int)

  datatype Generation = Generation(id: nat, work: seq<Work>, batchDueAt: Option<int>, closed: bool)

  datatype Registration = Registration(id: string, child: Option<string>)

  /** One delivered result. */
  datatype Finding = Finding(id: string, outcome: Outcome)

  datatype Update = Update(generation: nat, results: seq<Finding>, pending: seq<string>, allFinished: bool)

  datatype Table = Table(generations: seq<Generation>, updates: seq<Update>)

  datatype WorkError =
    | NoWork | DuplicateIds | ReusedId | NotActive | AlreadyTerminal | NotRunning | HasBlocker | NoBlocker

  // ---- items ----

  predicate Delivered(w: Work) {
    w.status.Terminal? && w.status.deliveredAt.Some?
  }

  /** A terminal result or a blocker that the model has not seen. */
  predicate Undelivered(w: Work) {
    match w.status
    case Running => false
    case WaitingForCapability(blocker) => blocker.deliveredAt.None?
    case Terminal(_, deliveredAt) => deliveredAt.None?
  }

  predicate Pending(w: Work) {
    !w.status.Terminal?
  }

  function Marked(w: Work, now: int): Work {
    match w.status
    case Running => w
    case WaitingForCapability(blocker) =>
      if blocker.deliveredAt.Some? then w
      else w.(status := WaitingForCapability(blocker.(deliveredAt := Some(now))))
    case Terminal(outcome, deliveredAt) =>
      if deliveredAt.Some? then w else w.(status := Terminal(outcome, Some(now)))
  }

  function MarkAll(work: seq<Work>, now: int): (r: seq<Work>)
    ensures |r| == |work|
    ensures forall i :: 0 <= i < |work| ==> r[i] == Marked(work[i], now)
  {
    seq(|work|, i requires 0 <= i < |work| => Marked(work[i], now))
  }

  function ResultOf(w: Work): seq<Finding> {
    if w.status.Terminal? && w.status.deliveredAt.None? then [Finding(w.id, w.status.outcome)] else []
  }

  /** The terminal results that have not been delivered, in order. */
  function Results(work: seq<Work>): seq<Finding> {
    if |work| == 0 then [] else Results(work[..|work| - 1]) + ResultOf(work[|work| - 1])
  }

  function PendingIds(work: seq<Work>): seq<string> {
    if |work| == 0 then []
    else
      var w := work[|work| - 1];
      PendingIds(work[..|work| - 1]) + if Pending(w) then [w.id] else []
  }

  predicate AnyUndelivered(work: seq<Work>) {
    exists i :: 0 <= i < |work| && Undelivered(work[i])
  }

  predicate AllTerminal(work: seq<Work>) {
    forall i :: 0 <= i < |work| ==> work[i].status.Terminal?
  }

  function FindWork(work: seq<Work>, p: Work -> bool): (r: Option<nat>)
    ensures r.Some? ==> r.value < |work| && p(work[r.value]) && forall i :: 0 <= i < r.value ==> !p(work[i])
    ensures r.None? ==> forall i :: 0 <= i < |work| ==> !p(work[i])
  {
    if |work| == 0 then None
    else
      var front := FindWork(work[..|work| - 1], p);
      if front.Some? then front else if p(work[|work| - 1]) then Some(|work| - 1) else None
  }

  function FindLast(gens: seq<Generation>, p: Generation -> bool): (r: Option<nat>)
    ensures r.Some? ==> r.value < |gens| && p(gens[r.value]) && forall i :: r.value < i < |gens| ==> !p(gens[i])
    ensures r.None? ==> forall i :: 0 <= i < |gens| ==> !p(gens[i])
  {
    if |gens| == 0 then None
    else if p(gens[|gens| - 1]) then Some(|gens| - 1)
    else FindLast(gens[..|gens| - 1], p)
  }

  function OpenIndex(gens: seq<Generation>): (r: Option<nat>)
    ensures r.Some? ==> r.value < |gens| && !gens[r.value].closed && forall i :: r.value < i < |gens| ==> gens[i].closed
    ensures r.None? ==> forall i :: 0 <= i < |gens| ==> gens[i].closed
  {
    FindLast(gens, (g: Generation) => !g.closed)
  }

  /** The open generation, if there is one. */
  function Open(t: Table): Option<Generation> {
    var i := OpenIndex(t.generations);
    if i.Some? then Some(t.generations[i.value]) else None
  }

  predicate HasUndelivered(t: Table) {
    Open(t).Some? && AnyUndelivered(Open(t).value.work)
  }

  predicate ActiveComplete(t: Table) {
    Open(t).Some? && |Open(t).value.work| > 0 && AllTerminal(Open(t).value.work)
  }

  function ActivePending(t: Table): seq<string> {
    if Open(t).Some? then PendingIds(Open(t).value.work) else []
  }

  /** The model has seen a subagent's request for more and has to decide on it. */
  predicate AwaitsDecision(t: Table) {
    Open(t).Some? && exists i :: 0 <= i < |Open(t).value.work| && DeliveredBlocker(Open(t).value.work[i])
  }

  predicate DeliveredBlocker(w: Work) {
    w.status.WaitingForCapability? && w.status.blocker.deliveredAt.Some?
  }

  predicate HasBlockers(t: Table) {
    Open(t).Some? && exists i :: 0 <= i < |Open(t).value.work| && Open(t).value.work[i].status.WaitingForCapability?
  }

  // ---- operations ----

  predicate DistinctIds(regs: seq<Registration>) {
    forall i, j :: 0 <= i < j < |regs| ==> regs[i].id != regs[j].id
  }

  predicate UsedId(gens: seq<Generation>, id: string) {
    exists g, i :: 0 <= g < |gens| && 0 <= i < |gens[g].work| && gens[g].work[i].id == id
  }

  predicate AnyUsed(gens: seq<Generation>, regs: seq<Registration>) {
    exists k :: 0 <= k < |regs| && UsedId(gens, regs[k].id)
  }

  function Started(regs: seq<Registration>, now: int): (r: seq<Work>)
    ensures |r| == |regs|
    ensures forall i :: 0 <= i < |regs| ==> r[i] == Work(regs[i].id, regs[i].child, Running, now)
  {
    seq(|regs|, i requires 0 <= i < |regs| => Work(regs[i].id, regs[i].child, Running, now))
  }

  /** New work joins the open generation; without one it starts a generation of its own. */
  function AfterRegister(t: Table, regs: seq<Registration>, id: nat, now: int): Result<Table, WorkError> {
    if |regs| == 0 then Failure(NoWork)
    else
      :- Need(DistinctIds(regs), DuplicateIds);
      :- Need(!AnyUsed(t.generations, regs), ReusedId);
      var open := OpenIndex(t.generations);
      if open.Some? then
        var g := t.generations[open.value];
        Success(t.(generations := t.generations[open.value := g.(work := g.work + Started(regs, now))]))
      else
        Success(t.(generations := t.generations + [Generation(id, Started(regs, now), None, false)]))
  }

  predicate HasWork(g: Generation, p: Work -> bool) {
    exists i :: 0 <= i < |g.work| && p(g.work[i])
  }

  function SetWork(t: Table, g: nat, i: nat, status: Status): Table
    requires g < |t.generations| && i < |t.generations[g].work|
  {
    var gen := t.generations[g];
    t.(generations := t.generations[g := gen.(work := gen.work[i := gen.work[i].(status := status)])])
  }

  function AfterComplete(t: Table, id: string, outcome: Outcome): Result<Table, WorkError> {
    var named := (w: Work) => w.id == id;
    var g := FindLast(t.generations, (c: Generation) => !c.closed && HasWork(c, named));
    if g.None? then Failure(NotActive)
    else
      var i := FindWork(t.generations[g.value].work, named).value;
      :- Need(!t.generations[g.value].work[i].status.Terminal?, AlreadyTerminal);
      Success(SetWork(t, g.value, i, Terminal(outcome, None)))
  }

  function AfterBlock(t: Table, child: string, requestRef: string): Result<Table, WorkError> {
    var named := (w: Work) => w.child == Some(child);
    var g := FindLast(t.generations, (c: Generation) => !c.closed && HasWork(c, named));
    if g.None? then Failure(NotActive)
    else
      var i := FindWork(t.generations[g.value].work, named).value;
      var status := t.generations[g.value].work[i].status;
      :- Need(!status.Terminal?, NotRunning);
      :- Need(status.Running?, HasBlocker);
      Success(SetWork(t, g.value, i, WaitingForCapability(Blocker(requestRef, None))))
  }

  function AfterUnblock(t: Table, child: string, requestRef: string): Result<Table, WorkError> {
    var named := (w: Work) => w.child == Some(child);
    var g := FindLast(t.generations, (c: Generation) => !c.closed && HasWork(c, named));
    if g.None? then Failure(NotActive)
    else
      var i := FindWork(t.generations[g.value].work, named).value;
      var status := t.generations[g.value].work[i].status;
      :- Need(status.WaitingForCapability? && status.blocker.requestRef == requestRef, NoBlocker);
      Success(SetWork(t, g.value, i, Running))
  }

  function Requeued(w: Work): Work {
    if w.status.WaitingForCapability? then
      w.(status := WaitingForCapability(w.status.blocker.(deliveredAt := None)))
    else w
  }

  function RequeueAll(work: seq<Work>): (r: seq<Work>)
    ensures |r| == |work|
    ensures forall i :: 0 <= i < |work| ==> r[i] == Requeued(work[i])
  {
    seq(|work|, i requires 0 <= i < |work| => Requeued(work[i]))
  }

  /** Puts delivered but undecided blockers back into the mailbox. */
  function AfterRequeue(t: Table): Table {
    var open := OpenIndex(t.generations);
    if open.None? then t
    else
      var g := t.generations[open.value];
      t.(generations := t.generations[open.value := g.(work := RequeueAll(g.work))])
  }

  function AfterSetDue(t: Table, id: nat, dueAt: Option<int>): Result<Table, WorkError> {
    var g := FindLast(t.generations, (c: Generation) => c.id == id && !c.closed);
    if g.None? then Failure(NotActive)
    else Success(t.(generations := t.generations[g.value := t.generations[g.value].(batchDueAt := dueAt)]))
  }

  /** Takes everything undelivered out of the open generation, and closes it when nothing is left to wait for. */
  function AfterClaim(t: Table, now: int): (Table, Option<Update>) {
    var open := OpenIndex(t.generations);
    if open.None? || !AnyUndelivered(t.generations[open.value].work) then (t, None)
    else
      var g := t.generations[open.value];
      var all := AllTerminal(g.work);
      var update := Update(g.id, Results(g.work), PendingIds(g.work), all);
      (Table(
         t.generations[open.value := Generation(g.id, MarkAll(g.work, now), None, all || g.closed)],
         t.updates + [update]),
       Some(update))
  }

  // ---- the invariant ----

  function Of(w: Work, f: Finding): nat {
    if Delivered(w) && f == Finding(w.id, w.status.outcome) then 1 else 0
  }

  /** How often a result stands in the table as delivered. */
  function DeliveredIn(work: seq<Work>, f: Finding): nat {
    if |work| == 0 then 0 else DeliveredIn(work[..|work| - 1], f) + Of(work[|work| - 1], f)
  }

  function DeliveredBy(gens: seq<Generation>, f: Finding): nat {
    if |gens| == 0 then 0 else DeliveredBy(gens[..|gens| - 1], f) + DeliveredIn(gens[|gens| - 1].work, f)
  }

  /** All results the model has ever been handed, in order. */
  function Handed(updates: seq<Update>): seq<Finding> {
    if |updates| == 0 then [] else Handed(updates[..|updates| - 1]) + updates[|updates| - 1].results
  }

  function Count(fs: seq<Finding>, f: Finding): nat {
    if |fs| == 0 then 0 else Count(fs[..|fs| - 1], f) + if fs[|fs| - 1] == f then 1 else 0
  }

  predicate DistinctWork(gens: seq<Generation>) {
    forall g, h, i, j ::
      (0 <= g < |gens| && 0 <= h < |gens| && 0 <= i < |gens[g].work| && 0 <= j < |gens[h].work|
       && gens[g].work[i].id == gens[h].work[j].id) ==> g == h && i == j
  }

  predicate OneOpen(gens: seq<Generation>) {
    forall i :: 0 <= i < |gens| - 1 ==> gens[i].closed
  }

  /** An open generation still waits for something; a closed one has delivered every item. */
  predicate GenerationOk(g: Generation) {
    if g.closed then forall i :: 0 <= i < |g.work| ==> Delivered(g.work[i])
    else exists i :: 0 <= i < |g.work| && !Delivered(g.work[i])
  }

  /** Whatever has been handed over is marked delivered, as often, and the other way round. */
  ghost predicate Balanced(t: Table) {
    forall f: Finding :: Count(Handed(t.updates), f) == DeliveredBy(t.generations, f)
  }

  ghost predicate TableOk(t: Table) {
    && DistinctWork(t.generations)
    && OneOpen(t.generations)
    && (forall i :: 0 <= i < |t.generations| ==> GenerationOk(t.generations[i]))
    && Balanced(t)
  }

  const EMPTY_TABLE := Table([], [])

  // ---- counting delivered items ----

  lemma {:induction false} SetDelivered(work: seq<Work>, i: nat, w: Work, f: Finding)
    requires i < |work|
    ensures DeliveredIn(work[i := w], f) + Of(work[i], f) == DeliveredIn(work, f) + Of(w, f)
    decreases |work|
  {
    var n := |work| - 1;
    if i < n {
      SetDelivered(work[..n], i, w, f);
      assert work[i := w][..n] == work[..n][i := w];
    } else {
      assert work[i := w][..n] == work[..n];
    }
  }

  lemma {:induction false} SetGeneration(gens: seq<Generation>, i: nat, g: Generation, f: Finding)
    requires i < |gens|
    ensures DeliveredBy(gens[i := g], f) + DeliveredIn(gens[i].work, f) == DeliveredBy(gens, f) + DeliveredIn(g.work, f)
    decreases |gens|
  {
    var n := |gens| - 1;
    if i < n {
      SetGeneration(gens[..n], i, g, f);
      assert gens[i := g][..n] == gens[..n][i := g];
    } else {
      assert gens[i := g][..n] == gens[..n];
    }
  }

  lemma {:induction false} CountConcat(xs: seq<Finding>, ys: seq<Finding>, f: Finding)
    ensures Count(xs + ys, f) == Count(xs, f) + Count(ys, f)
    decreases |ys|
  {
    if |ys| == 0 {
      assert xs + ys == xs;
    } else {
      assert (xs + ys)[..|xs| + |ys| - 1] == xs + ys[..|ys| - 1];
      CountConcat(xs, ys[..|ys| - 1], f);
    }
  }

  lemma MarkDeliversItem(w: Work, now: int, f: Finding)
    ensures Of(Marked(w, now), f) == Of(w, f) + Count(ResultOf(w), f)
  {
    assert ResultOf(w) == [] || ResultOf(w)[..0] == [];
  }

  lemma {:induction false} MarkDelivers(work: seq<Work>, now: int, f: Finding)
    ensures DeliveredIn(MarkAll(work, now), f) == DeliveredIn(work, f) + Count(Results(work), f)
    decreases |work|
  {
    if |work| > 0 {
      var n := |work| - 1;
      MarkDelivers(work[..n], now, f);
      assert MarkAll(work, now)[..n] == MarkAll(work[..n], now);
      CountConcat(Results(work[..n]), ResultOf(work[n]), f);
      MarkDeliversItem(work[n], now, f);
    }
  }

  lemma {:induction false} SameDelivered(work: seq<Work>, other: seq<Work>, f: Finding)
    requires |work| == |other| && forall i :: 0 <= i < |work| ==> Of(work[i], f) == Of(other[i], f)
    ensures DeliveredIn(work, f) == DeliveredIn(other, f)
    decreases |work|
  {
    if |work| > 0 {
      SameDelivered(work[..|work| - 1], other[..|work| - 1], f);
    }
  }

  lemma {:induction false} NewDelivered(work: seq<Work>, more: seq<Work>, f: Finding)
    requires forall i :: 0 <= i < |more| ==> !Delivered(more[i])
    ensures DeliveredIn(work + more, f) == DeliveredIn(work, f)
    decreases |more|
  {
    if |more| == 0 {
      assert work + more == work;
    } else {
      var n := |more| - 1;
      assert (work + more)[..|work| + n] == work + more[..n];
      NewDelivered(work, more[..n], f);
    }
  }

  lemma {:induction false} PendingExactly(work: seq<Work>)
    ensures |PendingIds(work)| == 0 <==> AllTerminal(work)
    decreases |work|
  {
    if |work| > 0 {
      PendingExactly(work[..|work| - 1]);
    }
  }

  // ---- the invariant is kept ----

  predicate SameIds(work: seq<Work>, other: seq<Work>) {
    |work| == |other| && forall i :: 0 <= i < |work| ==> work[i].id == other[i].id
  }

  /**
   * The results of the generation count as delivered as often as before, and once more for each that is handed over.
   */
  ghost predicate Rebalanced(g: Generation, last: Generation, more: seq<Update>) {
    forall f: Finding :: DeliveredIn(g.work, f) == DeliveredIn(last.work, f) + Count(Handed(more), f)
  }

  /** The last generation's items may change their states, as long as deliveries and updates stay in balance. */
  lemma ReplaceKeeps(t: Table, g: Generation, more: seq<Update>)
    requires TableOk(t) && |t.generations| > 0 && |more| <= 1
    requires SameIds(g.work, t.generations[|t.generations| - 1].work) && GenerationOk(g)
    requires Rebalanced(g, t.generations[|t.generations| - 1], more)
    ensures TableOk(Table(t.generations[|t.generations| - 1 := g], t.updates + more))
  {
    ReplaceAllBalanced(t, g, more);
    ReplaceDistinct(t.generations, g);
    ReplaceShape(t.generations, g);
  }

  lemma ReplaceShape(gens: seq<Generation>, g: Generation)
    requires OneOpen(gens) && |gens| > 0 && GenerationOk(g) && forall i :: 0 <= i < |gens| ==> GenerationOk(gens[i])
    ensures var after := gens[|gens| - 1 := g];
            OneOpen(after) && forall i :: 0 <= i < |after| ==> GenerationOk(after[i])
  {
  }

  lemma ReplaceAllBalanced(t: Table, g: Generation, more: seq<Update>)
    requires Balanced(t) && |t.generations| > 0 && |more| <= 1
    requires Rebalanced(g, t.generations[|t.generations| - 1], more)
    ensures Balanced(Table(t.generations[|t.generations| - 1 := g], t.updates + more))
  {
    var after := Table(t.generations[|t.generations| - 1 := g], t.updates + more);
    forall f: Finding ensures Count(Handed(after.updates), f) == DeliveredBy(after.generations, f) {
      ReplaceBalanced(t, g, more, f);
    }
  }

  lemma ReplaceBalanced(t: Table, g: Generation, more: seq<Update>, f: Finding)
    requires |t.generations| > 0 && |more| <= 1
    requires Count(Handed(t.updates), f) == DeliveredBy(t.generations, f)
    requires DeliveredIn(g.work, f) == DeliveredIn(t.generations[|t.generations| - 1].work, f) + Count(Handed(more), f)
    ensures Count(Handed(t.updates + more), f) == DeliveredBy(t.generations[|t.generations| - 1 := g], f)
  {
    SetGeneration(t.generations, |t.generations| - 1, g, f);
    HandedMore(t.updates, more, f);
  }

  lemma HandedMore(updates: seq<Update>, more: seq<Update>, f: Finding)
    requires |more| <= 1
    ensures Count(Handed(updates + more), f) == Count(Handed(updates), f) + Count(Handed(more), f)
  {
    if |more| == 1 {
      assert (updates + more)[..|updates|] == updates && more[..0] == [];
      assert Handed(more) == more[0].results;
      CountConcat(Handed(updates), more[0].results, f);
    } else {
      assert updates + more == updates;
    }
  }

  lemma ReplaceDistinct(gens: seq<Generation>, g: Generation)
    requires DistinctWork(gens) && |gens| > 0 && SameIds(g.work, gens[|gens| - 1].work)
    ensures DistinctWork(gens[|gens| - 1 := g])
  {
    var after := gens[|gens| - 1 := g];
    assert forall h, i :: 0 <= h < |gens| && 0 <= i < |after[h].work| ==> after[h].work[i].id == gens[h].work[i].id;
  }

  lemma OpenIsLast(t: Table, i: nat)
    requires OneOpen(t.generations) && i < |t.generations| && !t.generations[i].closed
    ensures i == |t.generations| - 1 && OpenIndex(t.generations) == Some(i)
  {
  }

  lemma RegisterKeeps(t: Table, regs: seq<Registration>, id: nat, now: int)
    requires TableOk(t)
    ensures var r := AfterRegister(t, regs, id, now);
            r.Success? ==>
              && TableOk(r.value) && |ActivePending(r.value)| > 0 && Open(r.value).Some?
              && (Open(t).Some? ==> Open(r.value).value.id == Open(t).value.id)
  {
    var r := AfterRegister(t, regs, id, now);
    if r.Success? {
      RegisterDistinct(t, regs, id, now);
      RegisterBalanced(t, regs, id, now);
      var gens := r.value.generations;
      var work := gens[|gens| - 1].work;
      var started := Started(regs, now);
      assert work[|work| - |regs|] == started[0];
      PendingExactly(work);
      OpenIsLast(r.value, |gens| - 1);
    }
  }

  lemma RegisterBalanced(t: Table, regs: seq<Registration>, id: nat, now: int)
    requires TableOk(t) && AfterRegister(t, regs, id, now).Success?
    ensures Balanced(AfterRegister(t, regs, id, now).value)
  {
    var after := AfterRegister(t, regs, id, now).value;
    var more := Started(regs, now);
    var open := OpenIndex(t.generations);
    forall f: Finding ensures Count(Handed(after.updates), f) == DeliveredBy(after.generations, f) {
      if open.Some? {
        JoinedDelivered(t.generations, open.value, more, f);
      } else {
        StartedDelivered(t.generations, id, more, f);
      }
    }
  }

  lemma JoinedDelivered(gens: seq<Generation>, i: nat, more: seq<Work>, f: Finding)
    requires i < |gens| && forall k :: 0 <= k < |more| ==> !Delivered(more[k])
    ensures DeliveredBy(gens[i := gens[i].(work := gens[i].work + more)], f) == DeliveredBy(gens, f)
  {
    NewDelivered(gens[i].work, more, f);
    SetGeneration(gens, i, gens[i].(work := gens[i].work + more), f);
  }

  lemma StartedDelivered(gens: seq<Generation>, id: nat, more: seq<Work>, f: Finding)
    requires forall k :: 0 <= k < |more| ==> !Delivered(more[k])
    ensures DeliveredBy(gens + [Generation(id, more, None, false)], f) == DeliveredBy(gens, f)
  {
    NewDelivered([], more, f);
    assert [] + more == more;
    assert (gens + [Generation(id, more, None, false)])[..|gens|] == gens;
  }

  /** The registered items stand at the end of the last generation, after all that was there before. */
  predicate Fresh(gens: seq<Generation>, regs: seq<Registration>, g: int, i: int)
    requires 0 <= g < |gens| && 0 <= i < |gens[g].work|
  {
    g == |gens| - 1 && i >= |gens[g].work| - |regs|
  }

  lemma RegisteredItem(t: Table, regs: seq<Registration>, id: nat, now: int, g: int, i: int)
    requires TableOk(t) && AfterRegister(t, regs, id, now).Success?
    requires var gens := AfterRegister(t, regs, id, now).value.generations; 0 <= g < |gens| && 0 <= i < |gens[g].work|
    ensures var gens := AfterRegister(t, regs, id, now).value.generations;
            if Fresh(gens, regs, g, i) then
              |gens[g].work| >= |regs|
              && gens[g].work[i].id == regs[i - (|gens[g].work| - |regs|)].id
              && !UsedId(t.generations, gens[g].work[i].id)
            else g < |t.generations| && i < |t.generations[g].work| && gens[g].work[i] == t.generations[g].work[i]
                 && UsedId(t.generations, gens[g].work[i].id)
  {
  }

  lemma RegisterDistinct(t: Table, regs: seq<Registration>, id: nat, now: int)
    requires TableOk(t) && AfterRegister(t, regs, id, now).Success?
    ensures DistinctWork(AfterRegister(t, regs, id, now).value.generations)
  {
    var gens := AfterRegister(t, regs, id, now).value.generations;
    forall g, h, i, j | 0 <= g < |gens| && 0 <= h < |gens| && 0 <= i < |gens[g].work| && 0 <= j < |gens[h].work|
                        && gens[g].work[i].id == gens[h].work[j].id
      ensures g == h && i == j
    {
      RegisteredItem(t, regs, id, now, g, i);
      RegisteredItem(t, regs, id, now, h, j);
    }
  }

  /** The same generation is open before and after. */
  predicate SameOpen(t: Table, after: Table) {
    Open(t).Some? && Open(after).Some? && Open(after).value.id == Open(t).value.id
  }

  /** Changing the status of an item that has not been delivered, without delivering it. */
  lemma SetWorkKeeps(t: Table, g: nat, i: nat, status: Status)
    requires TableOk(t) && g < |t.generations| && i < |t.generations[g].work| && !t.generations[g].closed
    requires !Delivered(t.generations[g].work[i]) && !(status.Terminal? && status.deliveredAt.Some?)
    ensures TableOk(SetWork(t, g, i, status))
    ensures OpenIndex(SetWork(t, g, i, status).generations) == Some(g) && SameOpen(t, SetWork(t, g, i, status))
  {
    OpenIsLast(t, g);
    var gen := t.generations[g];
    var w := gen.work[i].(status := status);
    var gen' := gen.(work := gen.work[i := w]);
    assert !Delivered(gen'.work[i]);
    forall f: Finding ensures DeliveredIn(gen'.work, f) == DeliveredIn(gen.work, f) {
      SetDelivered(gen.work, i, w, f);
    }
    assert t.updates + [] == t.updates;
    ReplaceKeeps(t, gen', []);
    OpenIsLast(SetWork(t, g, i, status), g);
  }

  lemma CompleteKeeps(t: Table, id: string, outcome: Outcome)
    requires TableOk(t)
    ensures var r := AfterComplete(t, id, outcome);
            r.Success? ==> TableOk(r.value) && HasUndelivered(r.value) && SameOpen(t, r.value)
  {
    var r := AfterComplete(t, id, outcome);
    if r.Success? {
      var named := (w: Work) => w.id == id;
      var g := FindLast(t.generations, (c: Generation) => !c.closed && HasWork(c, named)).value;
      var i := FindWork(t.generations[g].work, named).value;
      SetWorkKeeps(t, g, i, Terminal(outcome, None));
      assert Undelivered(r.value.generations[g].work[i]);
    }
  }

  lemma {:induction false} PendingHas(work: seq<Work>, k: nat) returns (i: nat)
    requires k < |PendingIds(work)|
    ensures i < |work| && Pending(work[i]) && work[i].id == PendingIds(work)[k]
    decreases |work|
  {
    var n := |work| - 1;
    if k < |PendingIds(work[..n])| {
      i := PendingHas(work[..n], k);
    } else {
      i := n;
    }
  }

  lemma {:induction false} PendingShrinks(work: seq<Work>, i: nat, status: Status)
    requires i < |work| && Pending(work[i]) && status.Terminal?
    ensures |PendingIds(work[i := work[i].(status := status)])| == |PendingIds(work)| - 1
    decreases |work|
  {
    var n := |work| - 1;
    var after := work[i := work[i].(status := status)];
    if i < n {
      PendingShrinks(work[..n], i, status);
      assert after[..n] == work[..n][i := work[i].(status := status)];
    } else {
      assert after[..n] == work[..n];
    }
  }

  /** Any pending item of the open generation can end, and then one less is pending. */
  lemma PendingCompletes(t: Table, k: nat, outcome: Outcome)
    requires TableOk(t) && k < |ActivePending(t)|
    ensures var r := AfterComplete(t, ActivePending(t)[k], outcome);
            r.Success? && |ActivePending(r.value)| == |ActivePending(t)| - 1
  {
    var open := OpenIndex(t.generations).value;
    OpenIsLast(t, open);
    var work := t.generations[open].work;
    var id := ActivePending(t)[k];
    var i := PendingHas(work, k);
    var named := (w: Work) => w.id == id;
    assert named(work[i]) && HasWork(t.generations[open], named);
    var found := FindWork(work, named).value;
    assert work[found].id == work[i].id && found == i;
    PendingShrinks(work, i, Terminal(outcome, None));
    SetWorkKeeps(t, open, i, Terminal(outcome, None));
  }

  lemma BlockKeeps(t: Table, child: string, requestRef: string)
    requires TableOk(t)
    ensures AfterBlock(t, child, requestRef).Success? ==>
              && TableOk(AfterBlock(t, child, requestRef).value) && SameOpen(t, AfterBlock(t, child, requestRef).value)
              && HasUndelivered(AfterBlock(t, child, requestRef).value)
                 && !ActiveComplete(AfterBlock(t, child, requestRef).value)
  {
    var named := (w: Work) => w.child == Some(child);
    var g := FindLast(t.generations, (c: Generation) => !c.closed && HasWork(c, named));
    if AfterBlock(t, child, requestRef).Success? {
      var i := FindWork(t.generations[g.value].work, named).value;
      SetWorkKeeps(t, g.value, i, WaitingForCapability(Blocker(requestRef, None)));
      assert Undelivered(AfterBlock(t, child, requestRef).value.generations[g.value].work[i]);
    }
  }

  lemma UnblockKeeps(t: Table, child: string, requestRef: string)
    requires TableOk(t)
    ensures AfterUnblock(t, child, requestRef).Success? ==>
              TableOk(AfterUnblock(t, child, requestRef).value) && SameOpen(t, AfterUnblock(t, child, requestRef).value)
  {
    var named := (w: Work) => w.child == Some(child);
    var g := FindLast(t.generations, (c: Generation) => !c.closed && HasWork(c, named));
    if AfterUnblock(t, child, requestRef).Success? {
      SetWorkKeeps(t, g.value, FindWork(t.generations[g.value].work, named).value, Running);
    }
  }

  lemma RequeueKeeps(t: Table)
    requires TableOk(t)
    ensures TableOk(AfterRequeue(t))
    ensures Open(t).Some? ==> SameOpen(t, AfterRequeue(t))
    ensures Open(t).None? ==> AfterRequeue(t) == t
  {
    var open := OpenIndex(t.generations);
    if open.Some? {
      OpenIsLast(t, open.value);
      var g := t.generations[open.value];
      var g' := g.(work := RequeueAll(g.work));
      forall f: Finding ensures DeliveredIn(g'.work, f) == DeliveredIn(g.work, f) {
        SameDelivered(g'.work, g.work, f);
      }
      var i :| 0 <= i < |g.work| && !Delivered(g.work[i]);
      assert !Delivered(g'.work[i]);
      assert t.updates + [] == t.updates;
      ReplaceKeeps(t, g', []);
      OpenIsLast(AfterRequeue(t), open.value);
    }
  }

  lemma SetDueKeeps(t: Table, id: nat, dueAt: Option<int>)
    requires TableOk(t) && AfterSetDue(t, id, dueAt).Success?
    ensures TableOk(AfterSetDue(t, id, dueAt).value)
    ensures Open(t).Some? && Open(AfterSetDue(t, id, dueAt).value) == Some(Open(t).value.(batchDueAt := dueAt))
  {
    var g := FindLast(t.generations, (c: Generation) => c.id == id && !c.closed).value;
    OpenIsLast(t, g);
    assert t.updates + [] == t.updates;
    ReplaceKeeps(t, t.generations[g].(batchDueAt := dueAt), []);
    OpenIsLast(AfterSetDue(t, id, dueAt).value, g);
  }

  /** The deadline of the open generation can always be set. */
  lemma OpenDueSettable(t: Table, dueAt: Option<int>)
    requires OneOpen(t.generations) && Open(t).Some?
    ensures AfterSetDue(t, Open(t).value.id, dueAt).Success?
  {
  }

  lemma ClaimBalanced(t: Table, now: int)
    requires TableOk(t) && HasUndelivered(t)
    ensures TableOk(AfterClaim(t, now).0)
  {
    var open := OpenIndex(t.generations).value;
    OpenIsLast(t, open);
    var g := t.generations[open];
    var g' := AfterClaim(t, now).0.generations[open];
    var update := AfterClaim(t, now).1.value;
    forall f: Finding ensures DeliveredIn(g'.work, f) == DeliveredIn(g.work, f) + Count(Handed([update]), f) {
      MarkDelivers(g.work, now, f);
      assert Handed([update]) == Handed([]) + update.results == update.results;
    }
    if !AllTerminal(g.work) {
      var i :| 0 <= i < |g.work| && !g.work[i].status.Terminal?;
      assert !Delivered(g'.work[i]);
    }
    ReplaceKeeps(t, g', [update]);
  }

  /**
   * A claim keeps the invariant and leaves nothing undelivered; the generation stays open exactly when
   * something of it is still pending.
   */
  lemma ClaimKeeps(t: Table, now: int)
    requires TableOk(t)
    ensures var (after, update) := AfterClaim(t, now);
            && TableOk(after) && !HasUndelivered(after)
            && (update.Some? <==> HasUndelivered(t))
            && (update.None? ==> after == t)
            && (Open(after).Some? ==> Open(t).Some? && Open(after).value.id == Open(t).value.id)
            && (update.Some? ==> (Open(after).None? <==> ActiveComplete(t)))
  {
    var (after, update) := AfterClaim(t, now);
    if update.Some? {
      ClaimBalanced(t, now);
      var open := OpenIndex(t.generations).value;
      OpenIsLast(t, open);
      if !after.generations[open].closed {
        OpenIsLast(after, open);
      }
    }
  }

  // ---- exactly once ----

  lemma {:induction false} DeliveredItem(work: seq<Work>, f: Finding)
    requires DeliveredIn(work, f) > 0
    ensures exists i :: 0 <= i < |work| && Of(work[i], f) == 1
    decreases |work|
  {
    var n := |work| - 1;
    if DeliveredIn(work[..n], f) > 0 {
      DeliveredItem(work[..n], f);
      var i :| 0 <= i < n && Of(work[..n][i], f) == 1;
      assert Of(work[i], f) == 1;
    }
  }

  /** Where a delivered result comes from. */
  predicate Source(gens: seq<Generation>, f: Finding, g: int, i: int) {
    0 <= g < |gens| && 0 <= i < |gens[g].work| && Of(gens[g].work[i], f) == 1
  }

  lemma {:induction false} DeliveredSource(gens: seq<Generation>, f: Finding)
    requires DeliveredBy(gens, f) > 0
    ensures exists g, i :: Source(gens, f, g, i)
    decreases |gens|
  {
    var n := |gens| - 1;
    if DeliveredBy(gens[..n], f) > 0 {
      DeliveredSource(gens[..n], f);
      var g, i :| Source(gens[..n], f, g, i);
      assert Source(gens, f, g, i);
    } else {
      DeliveredItem(gens[n].work, f);
      var i :| 0 <= i < |gens[n].work| && Of(gens[n].work[i], f) == 1;
      assert Source(gens, f, n, i);
    }
  }

  predicate DistinctIn(work: seq<Work>) {
    forall i, j :: 0 <= i < j < |work| ==> work[i].id != work[j].id
  }

  lemma {:induction false} OncePerItem(work: seq<Work>, f: Finding)
    requires DistinctIn(work)
    ensures DeliveredIn(work, f) <= 1
    decreases |work|
  {
    if |work| > 0 {
      var n := |work| - 1;
      OncePerItem(work[..n], f);
      if DeliveredIn(work[..n], f) > 0 {
        DeliveredItem(work[..n], f);
      }
    }
  }

  lemma {:induction false} OncePerGeneration(gens: seq<Generation>, f: Finding)
    requires DistinctWork(gens)
    ensures DeliveredBy(gens, f) <= 1
    decreases |gens|
  {
    if |gens| > 0 {
      var n := |gens| - 1;
      assert DistinctWork(gens[..n]);
      OncePerGeneration(gens[..n], f);
      OncePerItem(gens[n].work, f);
      if DeliveredBy(gens[..n], f) > 0 {
        DeliveredSource(gens[..n], f);
        var g, i :| Source(gens[..n], f, g, i);
        assert Source(gens, f, g, i);
        if DeliveredIn(gens[n].work, f) > 0 {
          DeliveredItem(gens[n].work, f);
        }
      }
    }
  }

  lemma {:induction false} CountSome(fs: seq<Finding>, i: nat)
    requires i < |fs|
    ensures Count(fs, fs[i]) >= 1
    decreases |fs|
  {
    if i < |fs| - 1 {
      CountSome(fs[..|fs| - 1], i);
    }
  }

  lemma CountTwice(fs: seq<Finding>, i: nat, j: nat)
    requires i < j < |fs| && fs[i] == fs[j]
    ensures Count(fs, fs[i]) >= 2
  {
    CountSome(fs[..j], i);
    assert fs[..j + 1][..j] == fs[..j];
    assert fs == fs[..j + 1] + fs[j + 1..];
    CountConcat(fs[..j + 1], fs[j + 1..], fs[i]);
  }

  /** The completion mailbox is exactly-once: no work has two results in all updates ever claimed. */
  lemma HandedOnce(t: Table, i: nat, j: nat)
    requires TableOk(t) && i < j < |Handed(t.updates)|
    ensures Handed(t.updates)[i].id != Handed(t.updates)[j].id
  {
    var fs := Handed(t.updates);
    CountSome(fs, i);
    CountSome(fs, j);
    DeliveredSource(t.generations, fs[i]);
    DeliveredSource(t.generations, fs[j]);
    if fs[i] == fs[j] {
      CountTwice(fs, i, j);
      OncePerGeneration(t.generations, fs[i]);
    }
  }

  /** And nothing is dropped: every item of a closed generation has been handed over, with the outcome it ended in. */
  lemma ClosedHanded(t: Table, g: nat, i: nat)
    requires TableOk(t) && g < |t.generations| && t.generations[g].closed && i < |t.generations[g].work|
    ensures var w := t.generations[g].work[i];
            w.status.Terminal? && Finding(w.id, w.status.outcome) in Handed(t.updates)
  {
    var w := t.generations[g].work[i];
    var f := Finding(w.id, w.status.outcome);
    ItemDelivered(t.generations[g].work, i, f);
    GenerationDelivered(t.generations, g, f);
    CountIn(Handed(t.updates), f);
  }

  lemma {:induction false} CountIn(fs: seq<Finding>, f: Finding)
    requires Count(fs, f) > 0
    ensures f in fs
    decreases |fs|
  {
    if fs[|fs| - 1] != f {
      CountIn(fs[..|fs| - 1], f);
    }
  }

  lemma {:induction false} ItemDelivered(work: seq<Work>, i: nat, f: Finding)
    requires i < |work| && Of(work[i], f) == 1
    ensures DeliveredIn(work, f) > 0
    decreases |work|
  {
    if i < |work| - 1 {
      ItemDelivered(work[..|work| - 1], i, f);
    }
  }

  lemma {:induction false} GenerationDelivered(gens: seq<Generation>, g: nat, f: Finding)
    requires g < |gens| && DeliveredIn(gens[g].work, f) > 0
    ensures DeliveredBy(gens, f) > 0
    decreases |gens|
  {
    if g < |gens| - 1 {
      GenerationDelivered(gens[..|gens| - 1], g, f);
    }
  }
}
