/** The wake-up protocol of one parent task, over any interleaving of its steps, with crashes and restarts. */
module AsyncWake {
  // Every step is one stretch of scheduler code between two awaits. Completions, timers, settling turns, outside
  // wake-ups, crashes and restarts interleave freely.

  import opened Basics
  import opened AsyncWork

  datatype TaskStatus = Ready | Active | Blocked | BlockedElsewhere | Terminated

  /** An armed timer; once it has fired, its mutation waits in the queue. */
  datatype Timer = Timer(controller: nat, generation: nat, fired: bool)

  /** A serialized mutation that has not begun. */
  datatype Job = Progress | TimerDue(controller: nat, generation: nat) | Settle

  /** What the running mutation does once its pending write returns. */
  datatype Stage = Finishing | DeliverNext

  /**
   * Who waits for a settling mutation and so learns of its failure: a model turn, one that reports progress
   * afterwards, the dispatch of graph nodes, the handler of a failed model turn, or the wait of a graph task.
   */
  datatype Waiter = ModelTurn | Reporter | Dispatcher | Retrier | GraphWaiter

  /** What owns an active task; `Settling` waits for its own mutation, `Failing` is in an error handler. */
  datatype Turn = Thinking | Dispatching | Resolving | Settling(waiter: Waiter) | Failing(dispatch: bool)

  /** `owed` counts handlers that will still report progress; `durable` is what a crash leaves. */
  datatype Parent = Parent(
    status: TaskStatus,
    table: Table,
    timer: Option<Timer>,
    wake: bool,
    queue: seq<Job>,
    current: Option<Stage>,
    turn: Option<Turn>,
    owed: nat,
    restoring: bool,
    nextController: nat,
    durableStatus: TaskStatus,
    durableTable: Table)

  // ---- the scheduler's building blocks ----

  function CancelTimer(p: Parent, generation: nat): Parent {
    var cleared := if p.timer.Some? && p.timer.value.generation == generation then p.(timer := None) else p;
    var due := AfterSetDue(p.table, generation, None);
    if Open(p.table).Some? && Open(p.table).value.id == generation && due.Success? then cleared.(table := due.value)
    else cleared
  }

  function ArmTimer(p: Parent, generation: nat): Parent {
    p.(timer := Some(Timer(p.nextController, generation, false)), nextController := p.nextController + 1)
  }

  function Deliver(p: Parent, now: int): Parent {
    if p.status.Terminated? then p.(wake := false)
    else if p.status.Active? || p.status.BlockedElsewhere? then p.(wake := true)
    else if Open(p.table).None? then p.(wake := false)
    else
      var q := CancelTimer(p, Open(p.table).value.id);
      var (table, update) := AfterClaim(q.table, now);
      if update.None? then q.(wake := false) else q.(table := table, status := Ready, wake := false)
  }

  function ProcessProgress(p: Parent, window: nat, now: int): Parent {
    if p.status.Terminated? then p
    else if !HasUndelivered(p.table) then p.(current := Some(Finishing))
    else
      var generation := Open(p.table).value.id;
      if ActiveComplete(p.table) then CancelTimer(p, generation).(wake := true, current := Some(DeliverNext))
      else if p.timer.None? then
        var due := AfterSetDue(p.table, generation, Some(now + window));
        if due.Success? then ArmTimer(p.(table := due.value), generation).(current := Some(Finishing)) else p
      else p.(current := Some(Finishing))
  }

  function ProcessTimer(p: Parent, controller: nat, generation: nat, now: int): Parent {
    if p.timer.None? || p.timer.value.controller != controller || p.timer.value.generation != generation then p
    else
      var q := p.(timer := None);
      var due := AfterSetDue(q.table, generation, None);
      if q.status.Terminated? || due.Failure? then q
      else
        var ready := q.(table := due.value, wake := true, current := Some(Finishing));
        if ready.status.Active? then ready else Deliver(ready, now)
  }

  function Released(p: Parent, status: TaskStatus): Parent {
    p.(status := status, turn := None,
       owed := p.owed + if p.turn == Some(Settling(Reporter)) then 1 else 0,
       current := Some(Finishing))
  }

  /** A failed settling ends in its waiter's handler; a failed turn's handler and a waiting graph have none. */
  function HandlerOf(turn: Option<Turn>): Option<Turn> {
    if turn.Some? && turn.value.Settling? then
      match turn.value.waiter
      case ModelTurn => Some(Failing(false))
      case Reporter => Some(Failing(false))
      case Dispatcher => Some(Failing(true))
      case Retrier => None
      case GraphWaiter => None
    else turn
  }

  /** The end of an active turn: take what is ready, or else wait for what is pending; with neither the turn fails. */
  function ProcessSettle(p: Parent, now: int): Parent {
    if !p.status.Active? then p
    else if p.wake && HasUndelivered(p.table) then
      var q := CancelTimer(p, Open(p.table).value.id);
      Released(q.(table := AfterClaim(q.table, now).0, wake := false), Ready)
    else if |ActivePending(p.table)| == 0 then p.(turn := HandlerOf(p.turn))
    else Released(p, Blocked)
  }

  // ---- steps ----

  datatype Event =
    | Start
    | Dispatch
    | EndTurn(next: TaskStatus)
    | Spawn(regs: seq<Registration>, generation: nat, at: int)
    | Wait
    | GraphWait
    | Resolve(child: string, requestRef: string)
    | Continue
    | Fail
    | Catch(retry: bool)
    | WorkDone(id: string, outcome: Outcome)
    | ChildBlocked(child: string, requestRef: string)
    | Report
    | Fire
    | RunJob(window: nat, at: int)
    | Resume(at: int)
    | CapabilityDone(at: int)
    | WakeUp
    | Terminate
    | Persist
    | Crash
    | Reconcile(id: string, outcome: Outcome)
    | FinishRestore(at: int)

  function Stopped(p: Parent): Parent {
    p.(status := Terminated, timer := None, wake := false, turn := None)
  }

  function SettleLater(p: Parent, waiter: Waiter): Parent {
    p.(queue := p.queue + [Settle], turn := Some(Settling(waiter)))
  }

  function TurnStep(p: Parent, e: Event): Parent
    requires p.turn.Some?
  {
    match e
    case EndTurn(next) =>
      if !p.turn.value.Thinking? then p
      else if next.Ready? || next.BlockedElsewhere? then p.(status := next, turn := None)
      else p
    case Spawn(regs, generation, at) =>
      if !p.turn.value.Thinking? && !p.turn.value.Dispatching? then p
      else
        var dispatch := p.turn.value.Dispatching?;
        var r := AfterRegister(p.table, regs, generation, at);
        if r.Success? then SettleLater(p.(table := r.value), if dispatch then Dispatcher else ModelTurn)
        else p.(turn := Some(Failing(dispatch)))
    case Wait =>
      if !p.turn.value.Thinking? then p
      else if HasBlockers(p.table) then p.(turn := Some(Failing(false)))
      else SettleLater(p, ModelTurn)
    case Resolve(child, requestRef) =>
      if !p.turn.value.Thinking? then p
      else
        var r := AfterUnblock(p.table, child, requestRef);
        if r.Success? then p.(table := r.value, turn := Some(Resolving)) else p.(turn := Some(Failing(false)))
    case Continue =>
      if !p.turn.value.Resolving? then p
      else if HasBlockers(p.table) then SettleLater(p.(table := AfterRequeue(p.table)), Reporter)
      else if |ActivePending(p.table)| > 0 then SettleLater(p, ModelTurn)
      else p.(status := Ready, turn := None)
    case Fail =>
      if p.turn.value.Thinking? || p.turn.value.Resolving? then p.(turn := Some(Failing(false)))
      else if p.turn.value.Dispatching? then p.(turn := Some(Failing(true)))
      else p
    case Catch(retry) =>
      if !p.turn.value.Failing? then p
      else if p.turn.value.dispatch then p.(status := Ready, turn := None)
      else if p.wake && HasUndelivered(p.table) then SettleLater(p, Retrier)
      else if retry then p.(status := Ready, turn := None)
      else Stopped(p)
    case _ => p
  }

  /** The scheduling state is gone; an interrupted model request goes back to the ready queue. */
  function Restarted(p: Parent): Parent {
    Parent(if p.durableStatus.Active? then Ready else p.durableStatus, p.durableTable,
           None, false, [], None, None, 0, true, p.nextController, p.durableStatus, p.durableTable)
  }

  function Restored(p: Parent, now: int): Parent {
    var q := p.(restoring := false);
    if q.status.Terminated? || !HasUndelivered(q.table) then q
    else if !ActiveComplete(q.table) && Open(q.table).value.batchDueAt.Some? then ArmTimer(q, Open(q.table).value.id)
    else
      var ready := q.(wake := true);
      if ready.status.Active? then ready else Deliver(ready, now)
  }

  function Step(p: Parent, e: Event): Parent {
    match e
    case Start => if p.status.Ready? then p.(status := Active, turn := Some(Thinking)) else p
    case Dispatch => if p.status.Ready? then p.(status := Active, turn := Some(Dispatching)) else p
    case GraphWait =>
      if p.status.Ready? && |ActivePending(p.table)| > 0 && !AwaitsDecision(p.table) then
        SettleLater(p.(status := Active), GraphWaiter)
      else p
    case WorkDone(id, outcome) =>
      var r := AfterComplete(p.table, id, outcome);
      if p.status.Terminated? || r.Failure? then p else p.(table := r.value, queue := p.queue + [Progress])
    case ChildBlocked(child, requestRef) =>
      var r := AfterBlock(p.table, child, requestRef);
      if r.Failure? then p else p.(table := r.value, queue := p.queue + [Progress])
    case Report => if p.owed == 0 then p else p.(owed := p.owed - 1, queue := p.queue + [Progress])
    case Fire =>
      if p.timer.None? || p.timer.value.fired then p
      else
        var timer := p.timer.value;
        p.(timer := Some(timer.(fired := true)), queue := p.queue + [TimerDue(timer.controller, timer.generation)])
    case RunJob(window, at) =>
      if p.current.Some? || |p.queue| == 0 then p
      else
        var q := p.(queue := p.queue[1..]);
        (match p.queue[0]
         case Progress => ProcessProgress(q, window, at)
         case TimerDue(controller, generation) => ProcessTimer(q, controller, generation, at)
         case Settle => ProcessSettle(q, at))
    case Resume(at) =>
      if p.current.None? then p
      else if p.current.value.DeliverNext? && !p.status.Active? then Deliver(p.(current := Some(Finishing)), at)
      else p.(current := None)
    case CapabilityDone(at) =>
      if !p.status.BlockedElsewhere? then p
      else if p.wake && HasUndelivered(p.table) then Deliver(p.(status := Ready), at)
      else p.(status := Ready)
    case WakeUp => if p.status.Blocked? || p.status.BlockedElsewhere? then p.(status := Ready) else p
    case Terminate => Stopped(p)
    case Persist => p.(durableStatus := p.status, durableTable := p.table)
    case Crash => Restarted(p)
    case Reconcile(id, outcome) =>
      var r := AfterComplete(p.table, id, outcome);
      if !p.restoring || p.status.Terminated? || r.Failure? then p else p.(table := r.value)
    case FinishRestore(at) => if p.restoring then Restored(p, at) else p
    case _ => if p.turn.Some? then TurnStep(p, e) else p
  }

  function Run(p: Parent, es: seq<Event>): Parent
    decreases |es|
  {
    if |es| == 0 then p else Run(Step(p, es[0]), es[1..])
  }

  const INITIAL := Parent(Ready, EMPTY_TABLE, None, false, [], None, None, 0, false, 0, Ready, EMPTY_TABLE)

  // ---- the invariant ----

  function Settles(queue: seq<Job>): nat {
    if |queue| == 0 then 0 else Settles(queue[..|queue| - 1]) + if queue[|queue| - 1].Settle? then 1 else 0
  }

  /**
   * Someone who has not finished will still report progress. A turn that is to report after settling counts only
   * while something is pending, because without that its settling fails.
   */
  predicate Owes(p: Parent) {
    || Progress in p.queue || p.owed > 0 || p.restoring
    || (p.turn == Some(Settling(Reporter)) && !ActiveComplete(p.table))
  }

  predicate TimerOk(p: Parent) {
    p.timer.Some? ==>
      var timer := p.timer.value;
      && Open(p.table).Some? && Open(p.table).value.id == timer.generation
      && timer.controller < p.nextController
      && (timer.fired ==> TimerDue(timer.controller, timer.generation) in p.queue)
  }

  /** An undelivered result of a live task has a timer, a set wake flag, or somebody about to report it. */
  predicate Noticed(p: Parent) {
    !p.status.Terminated? && HasUndelivered(p.table) ==> p.timer.Some? || p.wake || Owes(p)
  }

  /** For a blocked task the flag is not enough, and once all work has ended the timer is not either. */
  predicate BlockedNoticed(p: Parent) {
    p.status.Blocked? && HasUndelivered(p.table) ==>
      (p.timer.Some? && !ActiveComplete(p.table)) || Owes(p) || p.current == Some(DeliverNext)
  }

  ghost predicate Inv(p: Parent) {
    && TableOk(p.table)
    && TableOk(p.durableTable)
    && (p.durableStatus.Blocked? ==> Open(p.durableTable).Some?)
    && (p.status.Blocked? ==> Open(p.table).Some?)
    && (p.turn.Some? ==> p.status.Active?)
    && (!p.status.Terminated? ==> Settles(p.queue) == if p.turn.Some? && p.turn.value.Settling? then 1 else 0)
    && (p.status.Terminated? ==> p.timer.None?)
    && TimerOk(p)
    && Noticed(p)
    && BlockedNoticed(p)
  }

  lemma {:induction false} SettlesPop(queue: seq<Job>)
    requires |queue| > 0
    ensures Settles(queue) == Settles(queue[1..]) + if queue[0].Settle? then 1 else 0
    ensures forall job :: job in queue ==> job == queue[0] || job in queue[1..]
    decreases |queue|
  {
    var n := |queue| - 1;
    if n > 0 {
      SettlesPop(queue[..n]);
      assert queue[..n][1..] == queue[1..][..n - 1];
    }
  }

  lemma SettlesPush(queue: seq<Job>, job: Job)
    ensures Settles(queue + [job]) == Settles(queue) + if job.Settle? then 1 else 0
  {
    assert (queue + [job])[..|queue|] == queue;
  }

  lemma InitialInv()
    ensures Inv(INITIAL)
  {
  }

  /** What cancelling the timer of the open generation leaves: the same work, no timer. */
  lemma Cancelled(p: Parent)
    requires TableOk(p.table) && TimerOk(p) && Open(p.table).Some?
    ensures var q := CancelTimer(p, Open(p.table).value.id);
            && q == p.(timer := None, table := q.table) && TableOk(q.table)
            && Open(q.table) == Some(Open(p.table).value.(batchDueAt := None))
  {
    var generation := Open(p.table).value.id;
    OpenDueSettable(p.table, None);
    SetDueKeeps(p.table, generation, None);
  }

  /** A delivery to a task that can take it hands over everything and leaves it ready. */
  lemma Delivers(p: Parent, now: int)
    requires TableOk(p.table) && TimerOk(p) && (p.status.Ready? || p.status.Blocked?)
    ensures var q := Deliver(p, now);
            && TableOk(q.table) && !HasUndelivered(q.table)
            && q == p.(status := q.status, table := q.table, timer := None, wake := false)
            && (HasUndelivered(p.table) ==> q.status.Ready?)
            && (!HasUndelivered(p.table) ==>
                  q.status == p.status && (Open(p.table).Some? ==> SameOpen(p.table, q.table)))
  {
    if Open(p.table).Some? {
      Cancelled(p);
      ClaimKeeps(CancelTimer(p, Open(p.table).value.id).table, now);
    }
  }

  /** The next mutation leaves the queue. */
  predicate Pops(p: Parent, q: Parent) {
    p.current.None? && |p.queue| > 0 && q == p.(queue := p.queue[1..])
  }

  lemma ProgressCompletes(p: Parent, q: Parent)
    requires Inv(p) && Pops(p, q) && p.queue[0].Progress?
    requires !p.status.Terminated? && HasUndelivered(p.table) && ActiveComplete(p.table)
    ensures Inv(CancelTimer(q, Open(p.table).value.id).(wake := true, current := Some(DeliverNext)))
  {
    SettlesPop(p.queue);
    Cancelled(q.(timer := None));
  }

  lemma ProgressArms(p: Parent, q: Parent, due: Table)
    requires Inv(p) && Pops(p, q) && p.queue[0].Progress?
    requires !p.status.Terminated? && HasUndelivered(p.table) && !ActiveComplete(p.table) && p.timer.None?
    requires TableOk(due) && Open(due).Some?
    requires Open(due).value == Open(p.table).value.(batchDueAt := Open(due).value.batchDueAt)
    ensures Inv(ArmTimer(q.(table := due), Open(p.table).value.id).(current := Some(Finishing)))
  {
    SettlesPop(p.queue);
  }

  lemma ProgressIdles(p: Parent, q: Parent, current: Option<Stage>)
    requires Inv(p) && Pops(p, q) && p.queue[0].Progress?
    requires p.status.Terminated? || !HasUndelivered(p.table) || (p.timer.Some? && !ActiveComplete(p.table))
    ensures Inv(q.(current := current))
  {
    SettlesPop(p.queue);
  }

  lemma ProgressKeeps(p: Parent, q: Parent, window: nat, at: int)
    requires Inv(p) && Pops(p, q) && p.queue[0].Progress?
    ensures Inv(ProcessProgress(q, window, at))
  {
    if p.status.Terminated? || !HasUndelivered(p.table) || (p.timer.Some? && !ActiveComplete(p.table)) {
      ProgressIdles(p, q, ProcessProgress(q, window, at).current);
    } else if ActiveComplete(p.table) {
      ProgressCompletes(p, q);
    } else {
      OpenDueSettable(p.table, Some(at + window));
      SetDueKeeps(p.table, Open(p.table).value.id, Some(at + window));
      ProgressArms(p, q, AfterSetDue(p.table, Open(p.table).value.id, Some(at + window)).value);
    }
  }

  lemma TimerDelivers(p: Parent, q: Parent, due: Table, at: int)
    requires Inv(p) && Pops(p, q) && p.queue[0].TimerDue? && p.timer.Some?
    requires TableOk(due) && Open(due) == Some(Open(p.table).value.(batchDueAt := None))
    ensures var ready := q.(timer := None, table := due, wake := true, current := Some(Finishing));
            Inv(if ready.status.Active? then ready else Deliver(ready, at))
  {
    SettlesPop(p.queue);
    if p.status.Ready? || p.status.Blocked? {
      Delivers(q.(timer := None, table := due, wake := true, current := Some(Finishing)), at);
    }
  }

  /** The current timer's mutation: the deadline is forgotten and the result handed over, unless the task is active. */
  lemma TimerProcessed(p: Parent, timer: Timer, at: int) returns (due: Table)
    requires TableOk(p.table) && Open(p.table).Some? && !p.status.Terminated?
    requires p.timer == Some(timer) && timer.generation == Open(p.table).value.id
    ensures TableOk(due) && Open(due) == Some(Open(p.table).value.(batchDueAt := None))
    ensures due.updates == p.table.updates
    ensures var ready := p.(timer := None, table := due, wake := true, current := Some(Finishing));
            ProcessTimer(p, timer.controller, timer.generation, at) ==
            if ready.status.Active? then ready else Deliver(ready, at)
  {
    OpenDueSettable(p.table, None);
    SetDueKeeps(p.table, timer.generation, None);
    due := AfterSetDue(p.table, timer.generation, None).value;
  }

  lemma TimerKeeps(p: Parent, q: Parent, at: int)
    requires Inv(p) && Pops(p, q) && p.queue[0].TimerDue?
    ensures Inv(ProcessTimer(q, p.queue[0].controller, p.queue[0].generation, at))
  {
    var controller, generation := p.queue[0].controller, p.queue[0].generation;
    if p.timer.Some? && p.timer.value.controller == controller && p.timer.value.generation == generation {
      var due := TimerProcessed(q, p.timer.value, at);
      TimerDelivers(p, q, due, at);
    } else {
      SettlesPop(p.queue);
    }
  }

  lemma SettleClaims(p: Parent, q: Parent, table: Table)
    requires Inv(p) && Pops(p, q) && p.queue[0].Settle? && p.status.Active?
    requires TableOk(table) && !HasUndelivered(table)
    ensures Inv(Released(q.(timer := None, table := table, wake := false), Ready))
  {
    SettlesPop(p.queue);
  }

  lemma SettleBlocks(p: Parent, q: Parent)
    requires Inv(p) && Pops(p, q) && p.queue[0].Settle? && p.status.Active?
    requires !(p.wake && HasUndelivered(p.table)) && Open(p.table).Some? && !ActiveComplete(p.table)
    ensures Inv(Released(q, Blocked))
  {
    SettlesPop(p.queue);
  }

  lemma SettleFails(p: Parent, q: Parent)
    requires Inv(p) && Pops(p, q) && p.queue[0].Settle? && p.status.Active?
    requires !(p.wake && HasUndelivered(p.table)) && (HasUndelivered(p.table) ==> ActiveComplete(p.table))
    ensures Inv(q.(turn := HandlerOf(q.turn)))
  {
    SettlesPop(p.queue);
  }

  lemma SettleKeeps(p: Parent, q: Parent, at: int)
    requires Inv(p) && Pops(p, q) && p.queue[0].Settle?
    ensures Inv(ProcessSettle(q, at))
  {
    if p.status.Active? && p.wake && HasUndelivered(p.table) {
      Cancelled(q.(timer := None));
      ClaimKeeps(CancelTimer(q, Open(p.table).value.id).table, at);
      SettleClaims(p, q, AfterClaim(CancelTimer(q, Open(p.table).value.id).table, at).0);
    } else if p.status.Active? && |ActivePending(p.table)| > 0 {
      PendingExactly(Open(p.table).value.work);
      SettleBlocks(p, q);
    } else if p.status.Active? {
      if Open(p.table).Some? {
        PendingExactly(Open(p.table).value.work);
      }
      SettleFails(p, q);
    } else {
      SettlesPop(p.queue);
    }
  }

  lemma ResumeKeeps(p: Parent, at: int)
    requires Inv(p)
    ensures Inv(Step(p, Resume(at)))
  {
    if p.current == Some(DeliverNext) && !p.status.Active? {
      NextDelivered(p, at);
    }
  }

  lemma NextDelivered(p: Parent, at: int)
    requires Inv(p) && p.current == Some(DeliverNext) && !p.status.Active?
    ensures Inv(Deliver(p.(current := Some(Finishing)), at))
  {
    if p.status.Ready? || p.status.Blocked? {
      Delivers(p.(current := Some(Finishing)), at);
    }
  }

  lemma CapabilityKeeps(p: Parent, at: int)
    requires Inv(p)
    ensures Inv(Step(p, CapabilityDone(at)))
  {
    if p.status.BlockedElsewhere? && p.wake && HasUndelivered(p.table) {
      Delivers(p.(status := Ready), at);
    }
  }

  lemma CrashKeeps(p: Parent)
    requires Inv(p)
    ensures Inv(Step(p, Crash))
  {
  }

  lemma RestoreArms(p: Parent)
    requires Inv(p) && !p.status.Terminated? && Open(p.table).Some? && !ActiveComplete(p.table)
    ensures Inv(ArmTimer(p.(restoring := false), Open(p.table).value.id))
  {
  }

  lemma RestoreDelivers(p: Parent, at: int)
    requires Inv(p) && !p.status.Terminated?
    ensures var ready := p.(restoring := false, wake := true);
            Inv(if ready.status.Active? then ready else Deliver(ready, at))
  {
    if p.status.Ready? || p.status.Blocked? {
      Delivers(p.(restoring := false, wake := true), at);
    }
  }

  lemma RestoreKeeps(p: Parent, at: int)
    requires Inv(p) && p.restoring
    ensures Inv(Restored(p, at))
  {
    if !p.status.Terminated? && HasUndelivered(p.table) {
      if !ActiveComplete(p.table) && Open(p.table).value.batchDueAt.Some? {
        RestoreArms(p);
      } else {
        RestoreDelivers(p, at);
      }
    }
  }

  lemma WorkKeeps(p: Parent, id: string, outcome: Outcome)
    requires Inv(p)
    ensures Inv(Step(p, WorkDone(id, outcome)))
  {
    CompleteKeeps(p.table, id, outcome);
    SettlesPush(p.queue, Progress);
  }

  lemma ReconcileKeeps(p: Parent, id: string, outcome: Outcome)
    requires Inv(p)
    ensures Inv(Step(p, Reconcile(id, outcome)))
  {
    CompleteKeeps(p.table, id, outcome);
  }

  lemma BlockedChildKeeps(p: Parent, child: string, requestRef: string)
    requires Inv(p)
    ensures Inv(Step(p, ChildBlocked(child, requestRef)))
  {
    BlockKeeps(p.table, child, requestRef);
    SettlesPush(p.queue, Progress);
  }

  lemma ReportKeeps(p: Parent)
    requires Inv(p)
    ensures Inv(Step(p, Report))
  {
    SettlesPush(p.queue, Progress);
  }

  lemma FireKeeps(p: Parent)
    requires Inv(p)
    ensures Inv(Step(p, Fire))
  {
    if p.timer.Some? {
      SettlesPush(p.queue, TimerDue(p.timer.value.controller, p.timer.value.generation));
    }
  }

  lemma TurnKeeps(p: Parent, e: Event)
    requires Inv(p) && p.turn.Some?
    requires e.EndTurn? || e.Fail?
    ensures Inv(TurnStep(p, e))
  {
  }

  lemma TurnEnds(p: Parent, next: TaskStatus)
    requires Inv(p) && p.turn.Some? && !p.turn.value.Settling?
    requires next.Ready? || next.BlockedElsewhere?
    ensures Inv(p.(status := next, turn := None))
  {
  }

  lemma SettleLaterKeeps(p: Parent, waiter: Waiter)
    requires Inv(p) && p.status.Active? && !(p.turn.Some? && p.turn.value.Settling?)
    ensures Inv(SettleLater(p, waiter))
  {
    SettlesPush(p.queue, Settle);
  }

  /**
   * A graph task with nothing to start waits for its subagents without asking the model, unless one needs a decision.
   */
  lemma GraphWaitKeeps(p: Parent)
    requires Inv(p)
    ensures Inv(Step(p, GraphWait))
  {
    if p.status.Ready? {
      SettleLaterKeeps(p.(status := Active), GraphWaiter);
    }
  }

  lemma WaitKeeps(p: Parent)
    requires Inv(p) && p.turn.Some?
    ensures Inv(TurnStep(p, Wait))
  {
    if p.turn.value.Thinking? {
      SettleLaterKeeps(p, ModelTurn);
    }
  }

  lemma CatchKeeps(p: Parent, retry: bool)
    requires Inv(p) && p.turn.Some?
    ensures Inv(TurnStep(p, Catch(retry)))
  {
    if p.turn.value.Failing? {
      if p.turn.value.dispatch {
        TurnEnds(p, Ready);
      } else if p.wake && HasUndelivered(p.table) {
        SettleLaterKeeps(p, Retrier);
      } else if retry {
        TurnEnds(p, Ready);
      }
    }
  }

  lemma SpawnKeeps(p: Parent, regs: seq<Registration>, generation: nat, at: int)
    requires Inv(p) && p.turn.Some?
    ensures Inv(TurnStep(p, Spawn(regs, generation, at)))
  {
    RegisterKeeps(p.table, regs, generation, at);
    RegisterUndelivered(p.table, regs, generation, at);
    SettlesPush(p.queue, Settle);
  }

  lemma RegisterUndelivered(t: Table, regs: seq<Registration>, generation: nat, at: int)
    requires TableOk(t)
    ensures var r := AfterRegister(t, regs, generation, at);
            r.Success? && HasUndelivered(r.value) ==> HasUndelivered(t)
  {
    var r := AfterRegister(t, regs, generation, at);
    if r.Success? {
      var gens := r.value.generations;
      OpenIsLast(r.value, |gens| - 1);
      if HasUndelivered(r.value) {
        var i :| 0 <= i < |gens[|gens| - 1].work| && Undelivered(gens[|gens| - 1].work[i]);
        if Open(t).Some? {
          assert Undelivered(Open(t).value.work[i]);
        }
      }
    }
  }

  lemma UnblockUndelivered(t: Table, child: string, requestRef: string)
    requires TableOk(t)
    ensures var r := AfterUnblock(t, child, requestRef);
            r.Success? && HasUndelivered(r.value) ==> HasUndelivered(t)
  {
    var r := AfterUnblock(t, child, requestRef);
    if r.Success? {
      UnblockKeeps(t, child, requestRef);
      var named := (w: Work) => w.child == Some(child);
      var g := FindLast(t.generations, (c: Generation) => !c.closed && HasWork(c, named)).value;
      OpenIsLast(t, g);
      OpenIsLast(r.value, g);
      if HasUndelivered(r.value) {
        var i :| 0 <= i < |r.value.generations[g].work| && Undelivered(r.value.generations[g].work[i]);
        assert Undelivered(t.generations[g].work[i]);
      }
    }
  }

  lemma ResolveKeeps(p: Parent, child: string, requestRef: string)
    requires Inv(p) && p.turn.Some?
    ensures Inv(TurnStep(p, Resolve(child, requestRef)))
  {
    UnblockKeeps(p.table, child, requestRef);
    UnblockUndelivered(p.table, child, requestRef);
  }

  lemma ContinueKeeps(p: Parent)
    requires Inv(p) && p.turn.Some?
    ensures Inv(TurnStep(p, Continue))
  {
    if p.turn.value.Resolving? {
      if HasBlockers(p.table) {
        RequeueKeeps(p.table);
        RequeuePends(p.table);
        RequeuedInv(p, AfterRequeue(p.table));
      } else if |ActivePending(p.table)| > 0 {
        SettleLaterKeeps(p, ModelTurn);
      } else {
        TurnEnds(p, Ready);
      }
    }
  }

  lemma RequeuePends(t: Table)
    requires HasBlockers(t)
    ensures !ActiveComplete(AfterRequeue(t))
  {
    var open := OpenIndex(t.generations).value;
    var i :| 0 <= i < |t.generations[open].work| && t.generations[open].work[i].status.WaitingForCapability?;
    var gens := AfterRequeue(t).generations;
    assert !gens[open].work[i].status.Terminal?;
    OpenSame(t.generations, gens, open);
  }

  lemma OpenSame(gens: seq<Generation>, after: seq<Generation>, open: nat)
    requires OpenIndex(gens) == Some(open)
    requires |after| == |gens| && forall i :: 0 <= i < |gens| ==> after[i].closed == gens[i].closed
    ensures OpenIndex(after) == Some(open)
  {
  }

  lemma RequeuedInv(p: Parent, table: Table)
    requires Inv(p) && p.turn == Some(Resolving) && TableOk(table)
    requires Open(p.table).Some? && SameOpen(p.table, table) && !ActiveComplete(table)
    ensures Inv(SettleLater(p.(table := table), Reporter))
  {
    SettlesPush(p.queue, Settle);
  }

  lemma JobKeeps(p: Parent, window: nat, at: int)
    requires Inv(p)
    ensures Inv(Step(p, RunJob(window, at)))
  {
    if p.current.None? && |p.queue| > 0 {
      var q := p.(queue := p.queue[1..]);
      match p.queue[0]
      case Progress => ProgressKeeps(p, q, window, at);
      case TimerDue(_, _) => TimerKeeps(p, q, at);
      case Settle => SettleKeeps(p, q, at);
    }
  }

  lemma StepKeeps(p: Parent, e: Event)
    requires Inv(p)
    ensures Inv(Step(p, e))
  {
    match e
    case RunJob(window, at) => JobKeeps(p, window, at);
    case Resume(at) => ResumeKeeps(p, at);
    case CapabilityDone(at) => CapabilityKeeps(p, at);
    case FinishRestore(at) => if p.restoring { RestoreKeeps(p, at); }
    case Crash => CrashKeeps(p);
    case GraphWait => GraphWaitKeeps(p);
    case WorkDone(id, outcome) => WorkKeeps(p, id, outcome);
    case Reconcile(id, outcome) => ReconcileKeeps(p, id, outcome);
    case ChildBlocked(child, requestRef) => BlockedChildKeeps(p, child, requestRef);
    case Report => ReportKeeps(p);
    case Fire => FireKeeps(p);
    case Start =>
    case Dispatch =>
    case WakeUp =>
    case Terminate =>
    case Persist =>
    case _ => if p.turn.Some? { TurnStepKeeps(p, e); }
  }

  lemma TurnStepKeeps(p: Parent, e: Event)
    requires Inv(p) && p.turn.Some?
    ensures Inv(TurnStep(p, e))
  {
    match e
    case Spawn(regs, generation, at) => SpawnKeeps(p, regs, generation, at);
    case Resolve(child, requestRef) => ResolveKeeps(p, child, requestRef);
    case Continue => ContinueKeeps(p);
    case Wait => WaitKeeps(p);
    case Catch(retry) => CatchKeeps(p, retry);
    case EndTurn(_) => TurnKeeps(p, e);
    case Fail => TurnKeeps(p, e);
    case _ =>
  }

  lemma {:induction false} RunKeeps(p: Parent, es: seq<Event>)
    requires Inv(p)
    ensures Inv(Run(p, es))
    decreases |es|
  {
    if |es| > 0 {
      StepKeeps(p, es[0]);
      RunKeeps(Step(p, es[0]), es[1..]);
    }
  }

  // ---- no lost wake-up ----

  /** No mutation and no handler of the task is in flight. */
  predicate Quiet(p: Parent) {
    p.queue == [] && p.current.None? && p.turn.None? && p.owed == 0 && !p.restoring
  }

  /**
   * After any run, with completions, crashes and restarts at any point: a blocked task that nobody is working
   * on waits for an item that has not ended, and an undelivered result has a timer that will still fire.
   */
  lemma NoLostWakeUp(es: seq<Event>)
    ensures var p := Run(INITIAL, es);
            Quiet(p) && p.status.Blocked? ==>
              && |ActivePending(p.table)| > 0
              && (HasUndelivered(p.table) ==>
                    p.timer.Some? && !p.timer.value.fired && p.timer.value.generation == Open(p.table).value.id)
  {
    InitialInv();
    RunKeeps(INITIAL, es);
    var p := Run(INITIAL, es);
    if Quiet(p) && p.status.Blocked? {
      var work := Open(p.table).value.work;
      PendingExactly(work);
    }
  }

  /** When that timer fires, the task becomes ready with everything delivered in one more update. */
  lemma TimerWakes(es: seq<Event>, window: nat, at: int)
    ensures var p := Run(INITIAL, es);
            Quiet(p) && p.status.Blocked? && HasUndelivered(p.table) ==>
              var q := Step(Step(p, Fire), RunJob(window, at));
              q.status.Ready? && !HasUndelivered(q.table) && |q.table.updates| == |p.table.updates| + 1
  {
    InitialInv();
    RunKeeps(INITIAL, es);
    NoLostWakeUp(es);
    var p := Run(INITIAL, es);
    if Quiet(p) && p.status.Blocked? && HasUndelivered(p.table) {
      FiredTimerDelivers(p, window, at);
    }
  }

  lemma FiredTimerRuns(p: Parent, window: nat, at: int)
    requires Quiet(p) && p.timer.Some? && !p.timer.value.fired
    ensures var timer := p.timer.value.(fired := true);
            Step(Step(p, Fire), RunJob(window, at)) ==
            ProcessTimer(p.(timer := Some(timer)), timer.controller, timer.generation, at)
  {
    var timer := p.timer.value;
    var q := Step(p, Fire);
    assert q.queue == [TimerDue(timer.controller, timer.generation)] && q.queue[1..] == [];
    assert q.(queue := []) == p.(timer := Some(timer.(fired := true)));
  }

  lemma FiredTimerDelivers(p: Parent, window: nat, at: int)
    requires TableOk(p.table) && Quiet(p) && p.status.Blocked? && HasUndelivered(p.table)
    requires p.timer.Some? && !p.timer.value.fired && p.timer.value.generation == Open(p.table).value.id
    ensures var q := Step(Step(p, Fire), RunJob(window, at));
            q.status.Ready? && !HasUndelivered(q.table) && |q.table.updates| == |p.table.updates| + 1
  {
    FiredTimerRuns(p, window, at);
    var timer := p.timer.value.(fired := true);
    var q := p.(timer := Some(timer));
    var due := TimerProcessed(q, timer, at);
    OneMoreUpdate(q.(timer := None, table := due, wake := true, current := Some(Finishing)), at);
  }

  lemma OneMoreUpdate(p: Parent, at: int)
    requires TableOk(p.table) && p.timer.None? && p.status.Blocked? && HasUndelivered(p.table)
    ensures var q := Deliver(p, at);
            q.status.Ready? && !HasUndelivered(q.table) && |q.table.updates| == |p.table.updates| + 1
  {
    Delivers(p, at);
    Cancelled(p);
    ClaimAdds(CancelTimer(p, Open(p.table).value.id).table, at);
    CancelKeepsUpdates(p, Open(p.table).value.id);
  }

  lemma ClaimAdds(t: Table, at: int)
    requires HasUndelivered(t)
    ensures var (after, update) := AfterClaim(t, at); update.Some? && |after.updates| == |t.updates| + 1
  {
  }

  lemma CancelKeepsUpdates(p: Parent, generation: nat)
    ensures CancelTimer(p, generation).table.updates == p.table.updates
  {
  }

  /** Over any run with crashes, the durable history too hands no work's result over twice. */
  lemma DurableOnce(es: seq<Event>, i: nat, j: nat)
    requires i < j < |Handed(Run(INITIAL, es).durableTable.updates)|
    ensures var fs := Handed(Run(INITIAL, es).durableTable.updates); fs[i].id != fs[j].id
  {
    InitialInv();
    RunKeeps(INITIAL, es);
    HandedOnce(Run(INITIAL, es).durableTable, i, j);
  }
}
