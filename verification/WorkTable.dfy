/** The work table of a task control block, changed in place and proved to be its function. */
module WorkTable {
  import opened Basics
  import opened AsyncWork

  /** An operation either throws and changes nothing, or leaves the table its function names. */
  predicate Follows(error: Option<WorkError>, before: Table, after: Table, expected: Result<Table, WorkError>) {
    match expected
    case Success(t) => error.None? && after == t
    case Failure(e) => error == Some(e) && after == before
  }

  class TaskControlBlock {
    var generations: seq<Generation>
    var updates: seq<Update>

    constructor ()
      ensures Value() == EMPTY_TABLE && Valid()
    {
      generations, updates := [], [];
    }

    function Value(): Table
      reads this
    {
      Table(generations, updates)
    }

    ghost predicate Valid()
      reads this
    {
      TableOk(Value())
    }

    /** Registers work under ids never used before and answers with the generation it joined. */
    method RegisterAsyncWork(regs: seq<Registration>, id: nat, now: int) returns (error: Option<WorkError>, joined: nat)
      requires Valid()
      modifies this
      ensures Valid() && Follows(error, old(Value()), Value(), AfterRegister(old(Value()), regs, id, now))
      ensures error.None? ==> Open(Value()).Some? && Open(Value()).value.id == joined
    {
      RegisterKeeps(Value(), regs, id, now);
      joined := id;
      if |regs| == 0 {
        return Some(NoWork), joined;
      }
      if !DistinctIds(regs) {
        return Some(DuplicateIds), joined;
      }
      if AnyUsed(generations, regs) {
        return Some(ReusedId), joined;
      }
      var open := OpenIndex(generations);
      if open.Some? {
        var g := generations[open.value];
        joined := g.id;
        generations := generations[open.value := g.(work := g.work + Started(regs, now))];
        OpenIsLast(Value(), open.value);
      } else {
        generations := generations + [Generation(id, Started(regs, now), None, false)];
        OpenIsLast(Value(), |generations| - 1);
      }
      error := None;
    }

    method CompleteAsyncWork(id: string, outcome: Outcome) returns (error: Option<WorkError>)
      requires Valid()
      modifies this`generations
      ensures Valid() && Follows(error, old(Value()), Value(), AfterComplete(old(Value()), id, outcome))
      ensures error.None? ==> HasUndelivered(Value())
    {
      CompleteKeeps(Value(), id, outcome);
      var named := (w: Work) => w.id == id;
      var g := FindLast(generations, (c: Generation) => !c.closed && HasWork(c, named));
      if g.None? {
        return Some(NotActive);
      }
      var gen := generations[g.value];
      var i := FindWork(gen.work, named);
      if gen.work[i.value].status.Terminal? {
        return Some(AlreadyTerminal);
      }
      generations := generations[g.value := gen.(work :=
                                                   gen.work[i.value :=
                                                              gen.work[i.value].(status := Terminal(outcome, None))])];
      return None;
    }

    method MarkSubagentWaiting(child: string, requestRef: string) returns (error: Option<WorkError>)
      requires Valid()
      modifies this`generations
      ensures Valid() && Follows(error, old(Value()), Value(), AfterBlock(old(Value()), child, requestRef))
    {
      BlockKeeps(Value(), child, requestRef);
      var named := (w: Work) => w.child == Some(child);
      var g := FindLast(generations, (c: Generation) => !c.closed && HasWork(c, named));
      if g.None? {
        return Some(NotActive);
      }
      var gen := generations[g.value];
      var i := FindWork(gen.work, named).value;
      if gen.work[i].status.Terminal? {
        return Some(NotRunning);
      }
      if gen.work[i].status.WaitingForCapability? {
        return Some(HasBlocker);
      }
      var blocked := gen.work[i].(status := WaitingForCapability(Blocker(requestRef, None)));
      generations := generations[g.value := gen.(work := gen.work[i := blocked])];
      return None;
    }

    method ClearSubagentBlocker(child: string, requestRef: string) returns (error: Option<WorkError>)
      requires Valid()
      modifies this`generations
      ensures Valid() && Follows(error, old(Value()), Value(), AfterUnblock(old(Value()), child, requestRef))
    {
      UnblockKeeps(Value(), child, requestRef);
      var named := (w: Work) => w.child == Some(child);
      var g := FindLast(generations, (c: Generation) => !c.closed && HasWork(c, named));
      if g.None? {
        return Some(NotActive);
      }
      var gen := generations[g.value];
      var i := FindWork(gen.work, named).value;
      var status := gen.work[i].status;
      if !status.WaitingForCapability? || status.blocker.requestRef != requestRef {
        return Some(NoBlocker);
      }
      generations := generations[g.value := gen.(work := gen.work[i := gen.work[i].(status := Running)])];
      return None;
    }

    method RequeueBlockers() returns (count: nat)
      requires Valid()
      modifies this`generations
      ensures Valid() && Value() == AfterRequeue(old(Value()))
    {
      RequeueKeeps(Value());
      var open := OpenIndex(generations);
      count := 0;
      if open.None? {
        return;
      }
      var work := generations[open.value].work;
      for i := 0 to |work|
        invariant |work| == |old(generations)[open.value].work|
        invariant forall k :: 0 <= k < i ==> work[k] == Requeued(old(generations)[open.value].work[k])
        invariant forall k :: i <= k < |work| ==> work[k] == old(generations)[open.value].work[k]
      {
        if work[i].status.WaitingForCapability? && work[i].status.blocker.deliveredAt.Some? {
          var blocker := work[i].status.blocker;
          work := work[i := work[i].(status := WaitingForCapability(blocker.(deliveredAt := None)))];
          count := count + 1;
        }
      }
      assert work == RequeueAll(old(generations)[open.value].work);
      generations := generations[open.value := generations[open.value].(work := work)];
    }

    method SetBatchDueAt(id: nat, dueAt: Option<int>) returns (error: Option<WorkError>)
      requires Valid()
      modifies this`generations
      ensures Valid() && Follows(error, old(Value()), Value(), AfterSetDue(old(Value()), id, dueAt))
    {
      var g := FindLast(generations, (c: Generation) => c.id == id && !c.closed);
      if g.None? {
        return Some(NotActive);
      }
      SetDueKeeps(Value(), id, dueAt);
      generations := generations[g.value := generations[g.value].(batchDueAt := dueAt)];
      return None;
    }

    /**
     * Hands everything undelivered of the open generation to the model, marking it so that it is never handed again.
     */
    method ClaimAsyncWorkUpdate(now: int) returns (update: Option<Update>)
      requires Valid()
      modifies this
      ensures Valid() && (Value(), update) == AfterClaim(old(Value()), now)
      ensures !HasUndelivered(Value()) && (update.Some? <==> old(HasUndelivered(Value())))
    {
      ClaimKeeps(Value(), now);
      var open := OpenIndex(generations);
      if open.None? {
        return None;
      }
      var g := generations[open.value];
      var some, results, pending := Collect(g.work);
      if !some {
        return None;
      }
      var work := MarkUndelivered(g.work, now);
      var allFinished := |pending| == 0;
      update := Some(Update(g.id, results, pending, allFinished));
      generations := generations[open.value := Generation(g.id, work, None, allFinished)];
      updates := updates + [update.value];
    }
  }

  /** One pass over the open generation: what to hand over, and what is still running. */
  method Collect(work: seq<Work>) returns (some: bool, results: seq<Finding>, pending: seq<string>)
    ensures some == AnyUndelivered(work) && results == Results(work) && pending == PendingIds(work)
    ensures |pending| == 0 <==> AllTerminal(work)
  {
    some, results, pending := false, [], [];
    for i := 0 to |work|
      invariant results == Results(work[..i])
      invariant pending == PendingIds(work[..i])
      invariant some <==> exists k :: 0 <= k < i && Undelivered(work[k])
    {
      assert work[..i + 1][..i] == work[..i];
      var w := work[i];
      if Undelivered(w) {
        some := true;
      }
      if !w.status.Terminal? {
        pending := pending + [w.id];
      } else if w.status.deliveredAt.None? {
        results := results + [Finding(w.id, w.status.outcome)];
      }
    }
    assert work[..|work|] == work;
    PendingExactly(work);
  }

  method MarkUndelivered(work: seq<Work>, now: int) returns (marked: seq<Work>)
    ensures marked == MarkAll(work, now)
  {
    marked := work;
    for i := 0 to |work|
      invariant |marked| == |work|
      invariant forall k :: 0 <= k < i ==> marked[k] == Marked(work[k], now)
      invariant forall k :: i <= k < |work| ==> marked[k] == work[k]
    {
      var w := marked[i];
      if w.status.Terminal? && w.status.deliveredAt.None? {
        marked := marked[i := w.(status := w.status.(deliveredAt := Some(now)))];
      } else if w.status.WaitingForCapability? && w.status.blocker.deliveredAt.None? {
        marked := marked[i := w.(status := WaitingForCapability(w.status.blocker.(deliveredAt := Some(now))))];
      }
    }
  }
}
