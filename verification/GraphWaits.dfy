/** When the wait of a graph task strands it. */
module GraphWaits {
  import opened Basics
  import opened AsyncWork
  import opened AsyncWake

  /** The task counts as running, and nothing runs it. */
  predicate Stranded(p: Parent) {
    p.status.Active? && p.turn.None?
  }

  predicate Waits(p: Parent) {
    p.status.Active? && p.turn == Some(Settling(GraphWaiter))
  }

  /** A graph task whose turn it is has nothing to start, something to wait for, and no request to decide on. */
  predicate MayWait(p: Parent) {
    p.status.Ready? && |ActivePending(p.table)| > 0 && !AwaitsDecision(p.table)
  }

  /** The settling that is next has nothing to take and nothing to wait for. */
  predicate NothingToSettle(p: Parent) {
    && p.current.None? && |p.queue| > 0 && p.queue[0].Settle?
    && !(p.wake && HasUndelivered(p.table)) && ActivePending(p.table) == []
  }

  // ---- what strands a task ----

  /** The handler of a failed model turn settles only when there is something to take, and that stays so. */
  predicate RetrierReady(p: Parent) {
    p.turn == Some(Settling(Retrier)) ==> p.wake && HasUndelivered(p.table)
  }

  lemma DueSame(t: Table, id: nat, dueAt: Option<int>)
    requires TableOk(t)
    ensures var r := AfterSetDue(t, id, dueAt);
            r.Success? ==>
              ActivePending(r.value) == ActivePending(t) && (HasUndelivered(r.value) <==> HasUndelivered(t))
  {
    if AfterSetDue(t, id, dueAt).Success? {
      SetDueKeeps(t, id, dueAt);
    }
  }

  /** What is still pending, or has ended and not been handed over. */
  predicate Something(t: Table) {
    |ActivePending(t)| > 0 || HasUndelivered(t)
  }

  predicate Ends(e: Event) {
    e.WorkDone? || e.Reconcile?
  }

  predicate SettlesNow(p: Parent, e: Event) {
    e.RunJob? && p.current.None? && |p.queue| > 0 && p.queue[0].Settle?
  }

  /** Nobody runs the task: it is stranded, or waits for its settling. */
  predicate Passive(p: Parent) {
    p.status.Active? && (p.turn.None? || p.turn.value.Settling?)
  }

  /** The task stays as it is and loses neither the wake flag nor a result. */
  predicate Undisturbed(p: Parent, q: Parent) {
    && q.status == p.status && q.turn == p.turn && (p.wake ==> q.wake)
    && (HasUndelivered(p.table) ==> HasUndelivered(q.table)) && (Something(p.table) ==> Something(q.table))
  }

  lemma ProgressLeaves(p: Parent, window: nat, at: int)
    requires TableOk(p.table) && p.status.Active?
    ensures Undisturbed(p, ProcessProgress(p, window, at))
    ensures ActivePending(ProcessProgress(p, window, at).table) == ActivePending(p.table)
  {
    if HasUndelivered(p.table) {
      DueSame(p.table, Open(p.table).value.id, None);
      DueSame(p.table, Open(p.table).value.id, Some(at + window));
    }
  }

  lemma TimerLeaves(p: Parent, controller: nat, generation: nat, at: int)
    requires TableOk(p.table) && p.status.Active?
    ensures Undisturbed(p, ProcessTimer(p, controller, generation, at))
    ensures ActivePending(ProcessTimer(p, controller, generation, at).table) == ActivePending(p.table)
  {
    DueSame(p.table, generation, None);
  }

  /** No mutation takes a result away from an active task, except the settling of its turn. */
  lemma JobLeaves(p: Parent, window: nat, at: int)
    requires TableOk(p.table) && p.status.Active? && !SettlesNow(p, RunJob(window, at))
    ensures Undisturbed(p, Step(p, RunJob(window, at)))
    ensures ActivePending(Step(p, RunJob(window, at)).table) == ActivePending(p.table)
  {
    if p.current.None? && |p.queue| > 0 {
      var q := p.(queue := p.queue[1..]);
      match p.queue[0]
      case Progress => ProgressLeaves(q, window, at);
      case TimerDue(controller, generation) => TimerLeaves(q, controller, generation, at);
    }
  }

  lemma EndLeaves(p: Parent, id: string, outcome: Outcome)
    requires TableOk(p.table)
    ensures Undisturbed(p, Step(p, WorkDone(id, outcome))) && Undisturbed(p, Step(p, Reconcile(id, outcome)))
  {
    CompleteKeeps(p.table, id, outcome);
  }

  lemma BlockPends(t: Table, child: string, requestRef: string)
    requires TableOk(t)
    ensures AfterBlock(t, child, requestRef).Success? ==>
              && |ActivePending(AfterBlock(t, child, requestRef).value)| > 0
              && HasUndelivered(AfterBlock(t, child, requestRef).value)
  {
    BlockKeeps(t, child, requestRef);
    var r := AfterBlock(t, child, requestRef);
    if r.Success? {
      PendingExactly(Open(r.value).value.work);
    }
  }

  lemma BlockLeaves(p: Parent, child: string, requestRef: string)
    requires TableOk(p.table)
    ensures var q := Step(p, ChildBlocked(child, requestRef));
            Undisturbed(p, q) && (|ActivePending(p.table)| > 0 ==> |ActivePending(q.table)| > 0)
  {
    BlockPends(p.table, child, requestRef);
  }

  /** Whatever happens to such a task, only its settling, its end or a crash changes that. */
  lemma EventLeaves(p: Parent, e: Event)
    requires TableOk(p.table) && Passive(p) && !SettlesNow(p, e) && !e.Terminate? && !e.Crash?
    ensures Undisturbed(p, Step(p, e))
    ensures !Ends(e) && |ActivePending(p.table)| > 0 ==> |ActivePending(Step(p, e).table)| > 0
  {
    match e
    case WorkDone(id, outcome) => EndLeaves(p, id, outcome);
    case Reconcile(id, outcome) => EndLeaves(p, id, outcome);
    case ChildBlocked(child, requestRef) => BlockLeaves(p, child, requestRef);
    case RunJob(window, at) => JobLeaves(p, window, at);
    case _ =>
  }

  lemma StepRetrier(p: Parent, e: Event)
    requires TableOk(p.table) && RetrierReady(p) && (p.turn.Some? ==> p.status.Active?)
    ensures RetrierReady(Step(p, e))
  {
    if p.turn == Some(Settling(Retrier)) {
      if SettlesNow(p, e) || e.Terminate? || e.Crash? {
        assert Step(p, e).turn.None?;
      } else {
        EventLeaves(p, e);
      }
    } else {
      NewRetrier(p, e);
    }
  }

  /** No turn begins, and no task becomes active. */
  predicate StartsNone(p: Parent, q: Parent) {
    q.turn == p.turn && (q.status.Active? <==> p.status.Active?)
  }

  lemma DeliverStartsNone(p: Parent, at: int)
    ensures StartsNone(p, Deliver(p, at))
  {
  }

  lemma ProgressStartsNone(p: Parent, window: nat, at: int)
    ensures StartsNone(p, ProcessProgress(p, window, at))
  {
  }

  lemma TimerStartsNone(p: Parent, controller: nat, generation: nat, at: int)
    ensures StartsNone(p, ProcessTimer(p, controller, generation, at))
  {
    var q := p.(timer := None);
    var due := AfterSetDue(q.table, generation, None);
    if due.Success? {
      DeliverStartsNone(q.(table := due.value, wake := true, current := Some(Finishing)), at);
    }
  }

  lemma JobStartsNone(p: Parent, window: nat, at: int)
    ensures var q := Step(p, RunJob(window, at));
            || StartsNone(p, q)
            || (p.status.Active? && SettlesNow(p, RunJob(window, at))
                && q == ProcessSettle(p.(queue := p.queue[1..]), at))
  {
    if p.current.None? && |p.queue| > 0 {
      var q := p.(queue := p.queue[1..]);
      match p.queue[0]
      case Progress => ProgressStartsNone(q, window, at);
      case TimerDue(controller, generation) => TimerStartsNone(q, controller, generation, at);
      case Settle =>
    }
  }

  /** Of the steps of a turn only those of a failed one settle by its handler, and then there is something to take. */
  lemma RetrierTurn(p: Parent, e: Event)
    requires p.turn.Some? && p.turn != Some(Settling(Retrier))
    ensures RetrierReady(TurnStep(p, e))
  {
  }

  predicate OfTurn(e: Event) {
    e.EndTurn? || e.Spawn? || e.Wait? || e.Resolve? || e.Continue? || e.Fail? || e.Catch?
  }

  /** Other steps leave the owner, or take it away from a task that is not active any more, or bring a new one. */
  predicate OwnerLeft(p: Parent, q: Parent) {
    || (q.turn == p.turn && (q.status.Active? ==> p.status.Active?))
    || (q.turn.None? && !q.status.Active?)
    || (q.turn.Some? && (q.turn.value.Thinking? || q.turn.value.Dispatching? || q.turn == Some(Settling(GraphWaiter))))
  }

  lemma OthersLeaveOwner(p: Parent, e: Event)
    requires !OfTurn(e) && !e.RunJob?
    ensures OwnerLeft(p, Step(p, e))
  {
    match e
    case Resume(at) => DeliverStartsNone(p.(current := Some(Finishing)), at);
    case CapabilityDone(at) => DeliverStartsNone(p.(status := Ready), at);
    case FinishRestore(at) => DeliverStartsNone(p.(restoring := false, wake := true), at);
    case _ =>
  }

  lemma NewRetrier(p: Parent, e: Event)
    requires p.turn != Some(Settling(Retrier))
    ensures RetrierReady(Step(p, e))
  {
    if e.RunJob? {
      JobStartsNone(p, e.window, e.at);
    } else if !OfTurn(e) {
      OthersLeaveOwner(p, e);
    } else if p.turn.Some? {
      RetrierTurn(p, e);
    }
  }

  lemma {:induction false} RunRetrier(p: Parent, es: seq<Event>)
    requires Inv(p) && RetrierReady(p)
    ensures RetrierReady(Run(p, es))
    decreases |es|
  {
    if |es| > 0 {
      StepKeeps(p, es[0]);
      StepRetrier(p, es[0]);
      RunRetrier(Step(p, es[0]), es[1..]);
    }
  }

  lemma SettlingStrands(p: Parent, e: Event)
    requires Passive(p) && SettlesNow(p, e) && RetrierReady(p) && p.turn.Some?
    ensures Stranded(Step(p, e)) <==> Waits(p) && NothingToSettle(p)
  {
  }

  lemma TurnOwned(p: Parent, e: Event)
    requires p.turn.Some? && !p.turn.value.Settling?
    ensures !Stranded(TurnStep(p, e))
  {
  }

  /** A turn at work is never left by its own steps without an owner, and no other step makes a task active. */
  lemma TurnsOwned(p: Parent, e: Event)
    requires p.turn.Some? ==> p.status.Active?
    requires !Passive(p)
    ensures !Stranded(Step(p, e))
  {
    if e.RunJob? {
      JobStartsNone(p, e.window, e.at);
    } else if !OfTurn(e) {
      OthersLeaveOwner(p, e);
    } else if p.turn.Some? {
      TurnOwned(p, e);
    }
  }

  lemma StepStrands(p: Parent, e: Event)
    requires Inv(p) && RetrierReady(p) && !Stranded(p)
    ensures Stranded(Step(p, e)) <==> Waits(p) && e.RunJob? && NothingToSettle(p)
  {
    if !Passive(p) {
      TurnsOwned(p, e);
    } else if SettlesNow(p, e) {
      SettlingStrands(p, e);
    } else if !e.Terminate? && !e.Crash? {
      EventLeaves(p, e);
    }
  }

  /**
   * After any run the next step strands a task if and only if it is the settling of a waiting graph task that
   * has nothing to take and nothing to wait for any more. No model turn and no dispatch is ever left like that.
   */
  lemma StrandsExactly(es: seq<Event>, e: Event)
    requires !Stranded(Run(INITIAL, es))
    ensures var p := Run(INITIAL, es);
            Stranded(Step(p, e)) <==> Waits(p) && e.RunJob? && NothingToSettle(p)
  {
    InitialInv();
    RunKeeps(INITIAL, es);
    RunRetrier(INITIAL, es);
    StepStrands(Run(INITIAL, es), e);
  }

  lemma StrandedStep(p: Parent, e: Event)
    requires Inv(p) && Stranded(p) && !e.Terminate? && !e.Crash?
    ensures Stranded(Step(p, e))
  {
    if SettlesNow(p, e) {
      SettlesPop(p.queue);
    } else {
      EventLeaves(p, e);
    }
  }

  /** Only ending the task or restarting the process helps a stranded one; no result, timer or wake-up does. */
  lemma {:induction false} StrandedStays(p: Parent, es: seq<Event>)
    requires Inv(p) && Stranded(p)
    requires forall i :: 0 <= i < |es| ==> !es[i].Terminate? && !es[i].Crash?
    ensures Stranded(Run(p, es))
    decreases |es|
  {
    if |es| > 0 {
      StepKeeps(p, es[0]);
      StrandedStep(p, es[0]);
      StrandedStays(Step(p, es[0]), es[1..]);
    }
  }

  // ---- when waiting is safe ----

  /** The task waits all along, and the last step strands it. */
  predicate StrandsBy(p: Parent, es: seq<Event>)
    decreases |es|
  {
    if |es| == 0 then Stranded(p) else Waits(p) && StrandsBy(Step(p, es[0]), es[1..])
  }

  lemma WaitGoesOn(p: Parent, e: Event)
    requires TableOk(p.table) && Waits(p) && Waits(Step(p, e))
    ensures Undisturbed(p, Step(p, e)) && !SettlesNow(p, e) && !e.Terminate? && !e.Crash?
    ensures !Ends(e) && |ActivePending(p.table)| > 0 ==> |ActivePending(Step(p, e).table)| > 0
  {
    if SettlesNow(p, e) {
      SettleEnds(p, e);
    } else if !e.Terminate? && !e.Crash? {
      EventLeaves(p, e);
    }
  }

  lemma SettleEnds(p: Parent, e: Event)
    requires Waits(p) && SettlesNow(p, e)
    ensures !Waits(Step(p, e))
  {
  }

  /** While nothing that is pending ends, waiting is safe, whatever else happens. */
  lemma {:induction false} NothingEndsNothingStrands(p: Parent, es: seq<Event>)
    requires Inv(p) && Waits(p) && |ActivePending(p.table)| > 0
    requires forall i :: 0 <= i < |es| ==> !Ends(es[i])
    ensures !StrandsBy(p, es)
    decreases |es|
  {
    if |es| > 0 {
      var q := Step(p, es[0]);
      StepKeeps(p, es[0]);
      if Waits(q) {
        WaitGoesOn(p, es[0]);
        NothingEndsNothingStrands(q, es[1..]);
      } else {
        StepStrands(p, es[0]);
      }
    }
  }

  /** So a wait is settled, unless an item that was pending ends before its mutation has its turn. */
  lemma WaitSettles(before: seq<Event>, es: seq<Event>)
    requires MayWait(Run(INITIAL, before)) && forall i :: 0 <= i < |es| ==> !Ends(es[i])
    ensures !StrandsBy(Step(Run(INITIAL, before), GraphWait), es)
  {
    InitialInv();
    RunKeeps(INITIAL, before);
    StepKeeps(Run(INITIAL, before), GraphWait);
    NothingEndsNothingStrands(Step(Run(INITIAL, before), GraphWait), es);
  }

  /** The mutations that come before the settling. */
  function Ahead(queue: seq<Job>): seq<Job> {
    if |queue| == 0 || queue[0].Settle? then [] else [queue[0]] + Ahead(queue[1..])
  }

  lemma {:induction false} AheadPush(queue: seq<Job>, more: seq<Job>)
    requires Settle in queue
    ensures Ahead(queue + more) == Ahead(queue)
    decreases |queue|
  {
    if !queue[0].Settle? {
      AheadPush(queue[1..], more);
      assert (queue + more)[1..] == queue[1..] + more;
    }
  }

  lemma {:induction false} AheadAll(queue: seq<Job>)
    requires Settles(queue) == 0
    ensures Ahead(queue + [Settle]) == queue
    decreases |queue|
  {
    if |queue| > 0 {
      SettlesPop(queue);
      AheadAll(queue[1..]);
      assert (queue + [Settle])[1..] == queue[1..] + [Settle];
    }
  }

  lemma {:induction false} SettleWaits(queue: seq<Job>)
    requires Settles(queue) > 0
    ensures Settle in queue
    decreases |queue|
  {
    if !queue[|queue| - 1].Settle? {
      SettleWaits(queue[..|queue| - 1]);
    }
  }

  /** The settling will find the wake flag: it is set, or the mutation of the current timer comes first. */
  predicate Alarmed(p: Parent) {
    p.wake || (!p.restoring && p.timer.Some? && TimerDue(p.timer.value.controller,
                                                         p.timer.value.generation) in Ahead(p.queue))
  }

  lemma AlarmedJob(p: Parent, window: nat, at: int)
    requires OneOpen(p.table.generations) && TimerOk(p) && Waits(p) && Alarmed(p) && !SettlesNow(p, RunJob(window, at))
    ensures Alarmed(Step(p, RunJob(window, at)))
  {
    if p.current.None? && |p.queue| > 0 && !p.wake {
      assert Ahead(p.queue) == [p.queue[0]] + Ahead(p.queue[1..]);
      match p.queue[0]
      case Progress =>
      case TimerDue(_, _) => OpenDueSettable(p.table, None);
    }
  }

  /** The timer is the same, fired or not, and the queue may have grown. */
  predicate TimerLeft(p: Parent, q: Parent) {
    && (p.wake ==> q.wake) && (!p.restoring ==> !q.restoring)
    && (p.timer.Some? && !p.restoring ==>
          && q.timer.Some? && q.timer.value.controller == p.timer.value.controller
          && q.timer.value.generation == p.timer.value.generation)
    && p.queue <= q.queue
  }

  lemma OthersLeaveTimer(p: Parent, e: Event)
    requires Waits(p) && Waits(Step(p, e)) && !e.RunJob?
    ensures TimerLeft(p, Step(p, e))
  {
  }

  lemma AlarmedElse(p: Parent, q: Parent)
    requires TimerLeft(p, q) && Alarmed(p) && Settle in p.queue
    ensures Alarmed(q)
  {
    AheadPush(p.queue, q.queue[|p.queue|..]);
    assert q.queue == p.queue + q.queue[|p.queue|..];
  }

  lemma AlarmStays(p: Parent, e: Event)
    requires Inv(p) && Waits(p) && Waits(Step(p, e)) && Alarmed(p)
    ensures Alarmed(Step(p, e))
  {
    SettleWaits(p.queue);
    WaitGoesOn(p, e);
    if e.RunJob? {
      AlarmedJob(p, e.window, e.at);
    } else {
      OthersLeaveTimer(p, e);
      AlarmedElse(p, Step(p, e));
    }
  }

  lemma {:induction false} AlarmedNever(p: Parent, es: seq<Event>)
    requires Inv(p) && Waits(p) && Alarmed(p) && Something(p.table)
    ensures !StrandsBy(p, es)
    decreases |es|
  {
    if |es| > 0 {
      var q := Step(p, es[0]);
      StepKeeps(p, es[0]);
      if Waits(q) {
        WaitGoesOn(p, es[0]);
        AlarmStays(p, es[0]);
        AlarmedNever(q, es[1..]);
      } else {
        StepStrands(p, es[0]);
      }
    }
  }

  // ---- when waiting is not safe ----

  predicate JobNumbered(p: Parent, job: Job) {
    job.TimerDue? ==>
      && job.controller < p.nextController
      && (p.timer.Some? && p.timer.value.controller == job.controller ==> p.timer.value.fired)
  }

  /** Timer mutations are those of timers that have fired. */
  predicate Numbered(p: Parent) {
    && (forall job :: job in p.queue ==> JobNumbered(p, job))
    && (p.timer.Some? ==> p.timer.value.controller < p.nextController)
  }

  predicate QueueMoved(before: seq<Job>, after: seq<Job>) {
    || after == before || after == [] || after == before + [Progress] || after == before + [Settle]
    || (|before| > 0 && after == before[1..])
  }

  /** A step that arms no timer, or arms a new one, and queues no timer mutation. */
  predicate Renumbered(p: Parent, q: Parent) {
    && p.nextController <= q.nextController
    && QueueMoved(p.queue, q.queue)
    && (q.timer.Some? ==> q.timer == p.timer || p.nextController <= q.timer.value.controller < q.nextController)
  }

  lemma StaysNumbered(p: Parent, q: Parent)
    requires Numbered(p) && Renumbered(p, q)
    ensures Numbered(q)
  {
    forall job | job in q.queue ensures JobNumbered(q, job) {
      if job.TimerDue? {
        assert JobNumbered(p, job);
      }
    }
  }

  /** The queue is the same, and so is the timer unless it is cancelled or newly armed. */
  predicate TimerMoved(p: Parent, q: Parent) {
    && q.queue == p.queue && p.nextController <= q.nextController
    && (q.timer.Some? ==> q.timer == p.timer || p.nextController <= q.timer.value.controller < q.nextController)
  }

  lemma CancelMoves(p: Parent, generation: nat)
    ensures TimerMoved(p, CancelTimer(p, generation))
  {
  }

  lemma DeliverMoves(p: Parent, at: int)
    ensures TimerMoved(p, Deliver(p, at))
  {
    if Open(p.table).Some? {
      CancelMoves(p, Open(p.table).value.id);
    }
  }

  lemma ProgressMoves(p: Parent, window: nat, at: int)
    ensures TimerMoved(p, ProcessProgress(p, window, at))
  {
    if HasUndelivered(p.table) {
      CancelMoves(p, Open(p.table).value.id);
    }
  }

  lemma TimerMoves(p: Parent, controller: nat, generation: nat, at: int)
    ensures TimerMoved(p, ProcessTimer(p, controller, generation, at))
  {
    var q := p.(timer := None);
    var due := AfterSetDue(q.table, generation, None);
    if due.Success? {
      DeliverMoves(q.(table := due.value, wake := true, current := Some(Finishing)), at);
    }
  }

  lemma SettleMoves(p: Parent, at: int)
    ensures TimerMoved(p, ProcessSettle(p, at))
  {
    if HasUndelivered(p.table) {
      CancelMoves(p, Open(p.table).value.id);
    }
  }

  lemma JobRenumbers(p: Parent, window: nat, at: int)
    ensures Renumbered(p, Step(p, RunJob(window, at)))
  {
    if p.current.None? && |p.queue| > 0 {
      var q := p.(queue := p.queue[1..]);
      match p.queue[0]
      case Progress => ProgressMoves(q, window, at);
      case TimerDue(controller, generation) => TimerMoves(q, controller, generation, at);
      case Settle => SettleMoves(q, at);
    }
  }

  lemma TurnRenumbers(p: Parent, e: Event)
    requires p.turn.Some?
    ensures Renumbered(p, TurnStep(p, e))
  {
  }

  lemma OthersRenumber(p: Parent, e: Event)
    requires !OfTurn(e) && !e.RunJob? && !e.Fire?
    ensures Renumbered(p, Step(p, e))
  {
    match e
    case Resume(at) => DeliverMoves(p.(current := Some(Finishing)), at);
    case CapabilityDone(at) => DeliverMoves(p.(status := Ready), at);
    case FinishRestore(at) => DeliverMoves(p.(restoring := false, wake := true), at);
    case _ =>
  }

  lemma StepNumbered(p: Parent, e: Event)
    requires Numbered(p)
    ensures Numbered(Step(p, e))
  {
    if e.Fire? {
      FireNumbered(p);
    } else {
      if e.RunJob? {
        JobRenumbers(p, e.window, e.at);
      } else if !OfTurn(e) {
        OthersRenumber(p, e);
      } else if p.turn.Some? {
        TurnRenumbers(p, e);
      }
      StaysNumbered(p, Step(p, e));
    }
  }

  lemma FireNumbered(p: Parent)
    requires Numbered(p)
    ensures Numbered(Step(p, Fire))
  {
    forall job | job in Step(p, Fire).queue ensures JobNumbered(Step(p, Fire), job) {
      if job in p.queue {
        assert JobNumbered(p, job);
      }
    }
  }

  lemma {:induction false} RunNumbered(p: Parent, es: seq<Event>)
    requires Numbered(p)
    ensures Numbered(Run(p, es))
    decreases |es|
  {
    if |es| > 0 {
      StepNumbered(p, es[0]);
      RunNumbered(Step(p, es[0]), es[1..]);
    }
  }

  const ENDED := Outcome(Completed, "", 0)

  predicate Fired(p: Parent) {
    p.timer.Some? && p.timer.value.fired
  }

  /**
   * The next step on the way to be stranded: first the mutations ahead, then every pending item ends, then it settles.
   */
  function Worst(p: Parent): Event {
    if p.current.Some? then Resume(0)
    else if |Ahead(p.queue)| == 0 && |ActivePending(p.table)| > 0 then WorkDone(ActivePending(p.table)[0], ENDED)
    else RunJob(0, 0)
  }

  /** Without an alarm, and with something pending while mutations are ahead. */
  ghost predicate Endangered(p: Parent) {
    && Inv(p) && Numbered(p) && Waits(p) && !p.wake && !Fired(p)
    && (|Ahead(p.queue)| > 0 ==> |ActivePending(p.table)| > 0)
  }

  lemma ResumeEndangers(p: Parent)
    requires Endangered(p) && p.current.Some?
    ensures Step(p, Resume(0)) == p.(current := None)
  {
  }

  lemma EndEndangers(p: Parent)
    requires Endangered(p) && |ActivePending(p.table)| > 0 && p.current.None? && |Ahead(p.queue)| == 0
    ensures var q := Step(p, WorkDone(ActivePending(p.table)[0], ENDED));
            && q == p.(table := q.table, queue := p.queue + [Progress])
            && |ActivePending(q.table)| == |ActivePending(p.table)| - 1
            && Ahead(q.queue) == []
  {
    PendingCompletes(p.table, 0, ENDED);
    SettleWaits(p.queue);
    AheadPush(p.queue, [Progress]);
  }

  /** Progress while something is pending sets no flag and leaves no timer that has fired. */
  lemma ProgressEndangers(p: Parent)
    requires TableOk(p.table) && p.status.Active? && !p.wake && !Fired(p) && |ActivePending(p.table)| > 0
    ensures var q := ProcessProgress(p, 0, 0); !q.wake && !Fired(q)
  {
    PendingExactly(Open(p.table).value.work);
  }

  /** A mutation ahead sets no flag: not all work has ended, and no timer has fired. */
  lemma JobEndangers(p: Parent)
    requires Endangered(p) && |ActivePending(p.table)| > 0 && p.current.None? && |Ahead(p.queue)| > 0
    ensures var q := Step(p, RunJob(0, 0));
            && Waits(q) && !q.wake && !Fired(q) && |ActivePending(q.table)| > 0
            && Ahead(p.queue) == [p.queue[0]] + Ahead(q.queue)
  {
    var rest := p.queue[1..];
    assert p.queue == [p.queue[0]] + rest;
    RunsFirst(p, p.queue[0], rest);
    JobLeaves(p, 0, 0);
    JobMoves(p, 0, 0);
    match p.queue[0]
    case Progress => ProgressEndangers(p.(queue := rest));
    case TimerDue(_, _) => assert JobNumbered(p, p.queue[0]);
  }

  /** A mutation that runs leaves the queue. */
  lemma JobMoves(p: Parent, window: nat, at: int)
    requires p.current.None? && |p.queue| > 0
    ensures Step(p, RunJob(window, at)).queue == p.queue[1..]
  {
    var q := p.(queue := p.queue[1..]);
    match p.queue[0]
    case Progress => ProgressMoves(q, window, at);
    case TimerDue(controller, generation) => TimerMoves(q, controller, generation, at);
    case Settle => SettleMoves(q, at);
  }

  lemma {:induction false} WorstStrands(p: Parent) returns (es: seq<Event>)
    requires Endangered(p)
    ensures StrandsBy(p, es)
    decreases |Ahead(p.queue)|, if p.current.Some? then 1 else 0, |ActivePending(p.table)|
  {
    var e := Worst(p);
    var q := Step(p, e);
    StepKeeps(p, e);
    StepNumbered(p, e);
    SettleWaits(p.queue);
    if p.current.Some? {
      ResumeEndangers(p);
    } else if |Ahead(p.queue)| > 0 {
      JobEndangers(p);
    } else if |ActivePending(p.table)| > 0 {
      EndEndangers(p);
    } else {
      assert StrandsBy(q, []);
      assert [e][1..] == [];
      return [e];
    }
    var rest := WorstStrands(q);
    es := [e] + rest;
    assert es[1..] == rest;
  }

  /**
   * Whether a graph task that is about to wait can be stranded depends on one thing that its caller can look at:
   * it is safe if the wake flag is set or the timer has fired already, whatever happens then, and otherwise
   * there is a run that strands it. (While the task is being restored, a timer may still be replaced.)
   */
  lemma WaitSafeExactly(before: seq<Event>)
    requires MayWait(Run(INITIAL, before))
    ensures var p := Run(INITIAL, before);
            && (p.wake || (Fired(p) && !p.restoring) ==> forall es :: !StrandsBy(Step(p, GraphWait), es))
            && (!p.wake && !Fired(p) ==> exists es :: StrandsBy(Step(p, GraphWait), es))
  {
    var p := Run(INITIAL, before);
    InitialInv();
    RunKeeps(INITIAL, before);
    RunNumbered(INITIAL, before);
    var q := Step(p, GraphWait);
    StepKeeps(p, GraphWait);
    StepNumbered(p, GraphWait);
    AheadAll(p.queue);
    if p.wake || (Fired(p) && !p.restoring) {
      forall es ensures !StrandsBy(q, es) {
        AlarmedNever(q, es);
      }
    } else if !p.wake && !Fired(p) {
      var es := WorstStrands(q);
    }
  }

  // ---- a run that strands a task ----

  const SPAWNED := [Registration("a", Some("a")), Registration("b", Some("b"))]

  function Child(id: string, status: Status): Work {
    Work(id, Some(id), status, 0)
  }

  /** One open generation with two subagents. */
  function Pair(a: Status, b: Status, dueAt: Option<int>, updates: seq<Update>): Table {
    Table([Generation(0, [Child("a", a), Child("b", b)], dueAt, false)], updates)
  }

  lemma PairOpen(a: Status, b: Status, dueAt: Option<int>, updates: seq<Update>)
    ensures var t := Pair(a, b, dueAt, updates);
            && OpenIndex(t.generations) == Some(0) && Open(t) == Some(t.generations[0])
            && PendingIds(t.generations[0].work) == (if a.Terminal? then [] else ["a"]) + (if b.Terminal? then []
                else ["b"])
            && (HasUndelivered(t) <==> Undelivered(Child("a", a)) || Undelivered(Child("b", b)))
            && (ActiveComplete(t) <==> a.Terminal? && b.Terminal?)
  {
    var t := Pair(a, b, dueAt, updates);
    var work := t.generations[0].work;
    assert work[..1] == [work[0]] && work[..1][..0] == [];
    assert PendingIds(work[..1]) == if a.Terminal? then [] else ["a"];
    assert HasUndelivered(t) <==> Undelivered(work[0]) || Undelivered(work[1]);
  }

  lemma PairDue(a: Status, b: Status, dueAt: Option<int>, updates: seq<Update>, later: Option<int>)
    ensures AfterSetDue(Pair(a, b, dueAt, updates), 0, later) == Success(Pair(a, b, later, updates))
  {
    var t := Pair(a, b, dueAt, updates);
    assert t.generations[0 := t.generations[0].(batchDueAt := later)] == Pair(a, b, later, updates).generations;
  }

  lemma PairCompletes(a: Status, b: Status, dueAt: Option<int>, updates: seq<Update>)
    ensures a.Running? ==>
              AfterComplete(Pair(a, b, dueAt, updates), "a", ENDED) ==
                Success(Pair(Terminal(ENDED, None), b, dueAt, updates))
    ensures b.Running? ==>
              AfterComplete(Pair(a, b, dueAt, updates), "b", ENDED) ==
                Success(Pair(a, Terminal(ENDED, None), dueAt, updates))
  {
    var t := Pair(a, b, dueAt, updates);
    var g := t.generations[0];
    var isA, isB := (w: Work) => w.id == "a", (w: Work) => w.id == "b";
    assert isA(g.work[0]) && isB(g.work[1]) && !isB(g.work[0]);
    assert HasWork(g, isA) && HasWork(g, isB);
    assert FindWork(g.work, isA) == Some(0) && FindWork(g.work, isB) == Some(1);
    var done := Terminal(ENDED, None);
    assert g.work[0 := Child("a", done)] == [Child("a", done), Child("b", b)];
    assert g.work[1 := Child("b", done)] == [Child("a", a), Child("b", done)];
    assert SetWork(t, 0, 0, done) == Pair(done, b, dueAt, updates);
    assert SetWork(t, 0, 1, done) == Pair(a, done, dueAt, updates);
  }

  lemma {:induction false} RunJoin(p: Parent, a: seq<Event>, b: seq<Event>)
    ensures Run(p, a + b) == Run(Run(p, a), b)
    decreases |a|
  {
    if |a| == 0 {
      assert a + b == b;
    } else {
      assert (a + b)[1..] == a[1..] + b;
      RunJoin(Step(p, a[0]), a[1..], b);
    }
  }

  lemma RunTwo(p: Parent, e: Event, q: Parent, f: Event, r: Parent)
    requires Step(p, e) == q && Step(q, f) == r
    ensures Run(p, [e, f]) == r
  {
    assert [e, f][1..] == [f] && [f][1..] == [];
    assert Run(q, [f]) == Run(r, []);
  }

  lemma ResumeIdle(p: Parent)
    requires p.current == Some(Finishing) || (p.current == Some(DeliverNext) && p.status.Active?)
    ensures Step(p, Resume(0)) == p.(current := None)
  {
  }

  lemma RunsFirst(p: Parent, job: Job, rest: seq<Job>)
    requires p.current.None? && p.queue == [job] + rest
    ensures Step(p, RunJob(0, 0)) ==
              match job
              case Progress => ProcessProgress(p.(queue := rest), 0, 0)
              case TimerDue(controller, generation) => ProcessTimer(p.(queue := rest), controller, generation, 0)
              case Settle => ProcessSettle(p.(queue := rest), 0)
  {
    assert p.queue[1..] == rest;
  }

  const DONE := Terminal(ENDED, None)
  const SEEN := Terminal(ENDED, Some(0))

  lemma PairRegistered()
    ensures AfterRegister(EMPTY_TABLE, SPAWNED, 0, 0) == Success(Pair(Running, Running, None, []))
  {
    assert Started(SPAWNED, 0) == [Child("a", Running), Child("b", Running)];
    assert DistinctIds(SPAWNED) && !AnyUsed([], SPAWNED) && OpenIndex([]).None?;
    assert [] + [Generation(0, Started(SPAWNED, 0), None, false)] == Pair(Running, Running, None, []).generations;
  }

  lemma PairSpawned()
    ensures Run(INITIAL, [Start, Spawn(SPAWNED, 0, 0)]) ==
            INITIAL.(status := Active, turn := Some(Settling(ModelTurn)), queue := [Settle],
                     table := Pair(Running, Running, None, []))
  {
    PairRegistered();
    var q := INITIAL.(status := Active, turn := Some(Thinking));
    assert Step(q, Spawn(SPAWNED, 0, 0)) == TurnStep(q, Spawn(SPAWNED, 0, 0));
    RunTwo(INITIAL, Start, q, Spawn(SPAWNED, 0, 0),
           SettleLater(q.(table := Pair(Running, Running, None, [])), ModelTurn));
  }

  lemma PairBlocks(p: Parent)
    requires p == INITIAL.(status := Active, turn := Some(Settling(ModelTurn)), queue := [Settle],
                           table := Pair(Running, Running, None, []))
    ensures Run(p, [RunJob(0, 0), Resume(0)]) == INITIAL.(status := Blocked, table := p.table)
  {
    var q := INITIAL.(status := Blocked, table := p.table, current := Some(Finishing));
    PairOpen(Running, Running, None, []);
    RunsFirst(p, Settle, []);
    ResumeIdle(q);
    RunTwo(p, RunJob(0, 0), q, Resume(0), q.(current := None));
  }

  lemma FirstEnds(p: Parent)
    requires p == INITIAL.(status := Blocked, table := Pair(Running, Running, None, []))
    ensures Step(p, WorkDone("a", ENDED)) == p.(table := Pair(DONE, Running, None, []), queue := [Progress])
  {
    PairCompletes(Running, Running, None, []);
  }

  lemma TimerArmed(p: Parent)
    requires p == INITIAL.(status := Blocked, table := Pair(DONE, Running, None, []))
    ensures ProcessProgress(p, 0, 0) ==
            p.(table := Pair(DONE, Running, Some(0), []), timer := Some(Timer(0, 0, false)), nextController := 1,
               current := Some(Finishing))
  {
    PairOpen(DONE, Running, None, []);
    PairDue(DONE, Running, None, [], Some(0));
  }

  lemma TimerArms(p: Parent)
    requires p == INITIAL.(status := Blocked, table := Pair(Running, Running, None, []))
    ensures Run(p, [WorkDone("a", ENDED), RunJob(0, 0)]) ==
            p.(table := Pair(DONE, Running, Some(0), []), timer := Some(Timer(0, 0, false)), nextController := 1,
               current := Some(Finishing))
  {
    FirstEnds(p);
    var q := p.(table := Pair(DONE, Running, None, []), queue := [Progress]);
    RunsFirst(q, Progress, []);
    TimerArmed(q.(queue := []));
    RunTwo(p, WorkDone("a", ENDED), q, RunJob(0, 0), ProcessProgress(q.(queue := []), 0, 0));
  }

  lemma FireQueues(p: Parent, controller: nat, generation: nat)
    requires p.timer == Some(Timer(controller, generation, false)) && p.queue == []
    ensures Step(p, Fire) ==
            p.(timer := Some(Timer(controller, generation, true)), queue := [TimerDue(controller, generation)])
  {
  }

  lemma TimerFires(p: Parent)
    requires p == INITIAL.(status := Blocked, table := Pair(DONE, Running, Some(0), []),
                           timer := Some(Timer(0, 0, false)), nextController := 1, current := Some(Finishing))
    ensures Run(p, [Resume(0), Fire]) ==
            p.(current := None, timer := Some(Timer(0, 0, true)), queue := [TimerDue(0, 0)])
  {
    var q := p.(current := None);
    ResumeIdle(p);
    FireQueues(q, 0, 0);
    RunTwo(p, Resume(0), q, Fire, q.(timer := Some(Timer(0, 0, true)), queue := [TimerDue(0, 0)]));
  }

  lemma PairDelivered() returns (update: Update)
    ensures AfterClaim(Pair(DONE, Running, None, []), 0) == (Pair(SEEN, Running, None, [update]), Some(update))
  {
    var t := Pair(DONE, Running, None, []);
    PairOpen(DONE, Running, None, []);
    var (table, made) := AfterClaim(t, 0);
    update := made.value;
    assert MarkAll(t.generations[0].work, 0) == [Child("a", SEEN), Child("b", Running)];
    assert !AllTerminal(t.generations[0].work) by {
      assert !t.generations[0].work[1].status.Terminal?;
    }
    assert table == Pair(SEEN, Running, None, [update]);
  }

  lemma TimerDelivers(p: Parent) returns (update: Update)
    requires p == INITIAL.(status := Blocked, table := Pair(DONE, Running, Some(0), []),
                           timer := Some(Timer(0, 0, true)), nextController := 1, queue := [TimerDue(0, 0)])
    ensures Step(p, RunJob(0, 0)) ==
            INITIAL.(table := Pair(SEEN, Running, None, [update]), nextController := 1, current := Some(Finishing))
  {
    RunsFirst(p, TimerDue(0, 0), []);
    PairDue(DONE, Running, Some(0), [], None);
    update := PairWoken(INITIAL.(status := Blocked, table := Pair(DONE, Running, None, []), nextController := 1,
                                 wake := true, current := Some(Finishing)));
  }

  lemma PairWoken(ready: Parent) returns (update: Update)
    requires ready.status.Blocked? && ready.table == Pair(DONE, Running, None, []) && ready.timer.None?
    ensures Deliver(ready, 0) == ready.(table := Pair(SEEN, Running, None, [update]), status := Ready, wake := false)
  {
    update := PairDelivered();
    PairDue(DONE, Running, None, [], None);
    PairOpen(DONE, Running, None, []);
  }

  lemma PairWaits(p: Parent, update: Update)
    requires p.status.Ready? && p.queue == [] && p.table == Pair(SEEN, Running, None, [update])
    ensures MayWait(p)
    ensures Step(p, GraphWait) == p.(status := Active, turn := Some(Settling(GraphWaiter)), queue := [Settle])
  {
    PairOpen(SEEN, Running, None, [update]);
  }

  lemma PairEnds(p: Parent, update: Update)
    requires p.status.Active? && p.queue == [Settle] && p.table == Pair(SEEN, Running, None, [update])
    ensures Step(p, WorkDone("b", ENDED)) ==
            p.(table := Pair(SEEN, DONE, None, [update]), queue := [Settle, Progress])
  {
    PairCompletes(SEEN, Running, None, [update]);
    assert [Settle] + [Progress] == [Settle, Progress];
  }

  lemma SecondEnds(p: Parent, update: Update)
    requires p == INITIAL.(table := Pair(SEEN, Running, None, [update]), nextController := 1,
                           current := Some(Finishing))
    ensures MayWait(p) && !p.wake && !Fired(p)
    ensures Run(p, [GraphWait, WorkDone("b", ENDED)]) ==
            p.(status := Active, turn := Some(Settling(GraphWaiter)), queue := [Settle, Progress],
               table := Pair(SEEN, DONE, None, [update]))
  {
    var q := p.(status := Active, turn := Some(Settling(GraphWaiter)), queue := [Settle]);
    PairWaits(p, update);
    PairEnds(q, update);
    RunTwo(p, GraphWait, q, WorkDone("b", ENDED),
           q.(table := Pair(SEEN, DONE, None, [update]), queue := [Settle, Progress]));
  }

  lemma PairStrands(p: Parent, update: Update)
    requires p == INITIAL.(status := Active, turn := Some(Settling(GraphWaiter)), queue := [Settle, Progress],
                           table := Pair(SEEN, DONE, None, [update]), nextController := 1, current := Some(Finishing))
    ensures Run(p, [Resume(0), RunJob(0, 0)]) == p.(current := None, turn := None, queue := [Progress])
  {
    var q := p.(current := None);
    ResumeIdle(p);
    PairOpen(SEEN, DONE, None, [update]);
    assert [Settle] + [Progress] == [Settle, Progress];
    RunsFirst(q, Settle, [Progress]);
    RunTwo(p, Resume(0), q, RunJob(0, 0), q.(turn := None, queue := [Progress]));
  }

  lemma PairReported(p: Parent, update: Update)
    requires p == INITIAL.(status := Active, table := Pair(SEEN, DONE, None, [update]), nextController := 1)
    ensures ProcessProgress(p, 0, 0) == p.(wake := true, current := Some(DeliverNext))
  {
    PairOpen(SEEN, DONE, None, [update]);
    PairDue(SEEN, DONE, None, [update], None);
  }

  lemma PairUnheard(p: Parent, update: Update)
    requires p == INITIAL.(status := Active, queue := [Progress], table := Pair(SEEN, DONE, None, [update]),
                           nextController := 1)
    ensures Run(p, [RunJob(0, 0), Resume(0)]) == p.(queue := [], wake := true)
  {
    var q := p.(queue := [], wake := true, current := Some(DeliverNext));
    RunsFirst(p, Progress, []);
    PairReported(p.(queue := []), update);
    ResumeIdle(q);
    RunTwo(p, RunJob(0, 0), q, Resume(0), q.(current := None));
  }

  /** Two subagents work; `a` ends, and its batch timer makes the parent ready while the write of that is pending. */
  const ARRIVAL := [Start, Spawn(SPAWNED, 0, 0)] + [RunJob(0, 0), Resume(0)] + [WorkDone("a", ENDED), RunJob(0, 0)]
                   + [Resume(0), Fire] + [RunJob(0, 0)]

  /** The graph has nothing to start and waits; `b` ends before the settling has its turn. */
  const LOSS := [GraphWait, WorkDone("b", ENDED)] + [Resume(0), RunJob(0, 0)] + [RunJob(0, 0), Resume(0)]

  lemma Arrives() returns (update: Update)
    ensures Run(INITIAL, ARRIVAL) ==
            INITIAL.(table := Pair(SEEN, Running, None, [update]), nextController := 1, current := Some(Finishing))
  {
    var a, b, c, d := [Start, Spawn(SPAWNED, 0, 0)], [RunJob(0, 0), Resume(0)], [WorkDone("a", ENDED), RunJob(0, 0)],
                      [Resume(0), Fire];
    RunJoin(INITIAL, a, b);
    RunJoin(INITIAL, a + b, c);
    RunJoin(INITIAL, a + b + c, d);
    RunJoin(INITIAL, a + b + c + d, [RunJob(0, 0)]);
    PairSpawned();
    PairBlocks(Run(INITIAL, a));
    TimerArms(Run(INITIAL, a + b));
    TimerFires(Run(INITIAL, a + b + c));
    update := TimerDelivers(Run(INITIAL, a + b + c + d));
  }

  /**
   * The run ends with the task stranded: nothing is queued, no timer is armed, nobody owns the turn, and the
   * result of `b` will not be delivered although its wake flag is set.
   */
  lemma StrandingRun()
    ensures var p := Run(INITIAL, ARRIVAL + LOSS);
            Stranded(p) && Quiet(p) && p.timer.None? && p.wake && HasUndelivered(p.table)
              && ActivePending(p.table) == []
  {
    var update := Arrives();
    var p := Run(INITIAL, ARRIVAL);
    var a, b, c := [GraphWait, WorkDone("b", ENDED)], [Resume(0), RunJob(0, 0)], [RunJob(0, 0), Resume(0)];
    RunJoin(INITIAL, ARRIVAL, LOSS);
    RunJoin(p, a, b);
    RunJoin(p, a + b, c);
    SecondEnds(p, update);
    PairStrands(Run(p, a), update);
    PairUnheard(Run(p, a + b), update);
    PairOpen(SEEN, DONE, None, [update]);
  }
}
