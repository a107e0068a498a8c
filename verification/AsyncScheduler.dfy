/** The scheduler's side of the wake-up protocol as an object that works on a task's work table. */
module AsyncScheduler {
  import opened Basics
  import opened AsyncWork
  import opened WorkTable
  import opened AsyncWake

  class ParentScheduling {
    const task: TaskControlBlock
    var status: TaskStatus
    var timer: Option<Timer>
    var wake: bool
    var queue: seq<Job>
    var current: Option<Stage>
    var turn: Option<Turn>
    var owed: nat
    var restoring: bool
    var nextController: nat
    var durableStatus: TaskStatus
    var durableTable: Table

    constructor (task: TaskControlBlock)
      requires task.Value() == EMPTY_TABLE
      ensures this.task == task && Value() == INITIAL
    {
      this.task := task;
      status, timer, wake, queue, current, turn := Ready, None, false, [], None, None;
      owed, restoring, nextController, durableStatus, durableTable := 0, false, 0, Ready, EMPTY_TABLE;
    }

    function Value(): Parent
      reads this, task
    {
      Parent(status, task.Value(), timer, wake, queue, current, turn, owed, restoring, nextController, durableStatus,
             durableTable)
    }

    ghost predicate Valid()
      reads this, task
    {
      Inv(Value())
    }

    /** Disarms the timer of a generation, and forgets its deadline while the generation is open. */
    method Cancel(generation: nat)
      requires task.Valid()
      modifies this`timer, task`generations
      ensures task.Valid() && Value() == CancelTimer(old(Value()), generation)
    {
      if timer.Some? && timer.value.generation == generation {
        timer := None;
      }
      var open := OpenIndex(task.generations);
      if open.Some? && task.generations[open.value].id == generation {
        var _ := task.SetBatchDueAt(generation, None);
      }
    }

    method Arm(generation: nat)
      modifies this`timer, this`nextController
      ensures Value() == ArmTimer(old(Value()), generation)
    {
      timer := Some(Timer(nextController, generation, false));
      nextController := nextController + 1;
    }

    /** Hands everything undelivered to a task that can take it, or leaves the wake flag for later. */
    method DeliverUpdate(now: int)
      requires task.Valid()
      modifies this`timer, this`wake, this`status, task
      ensures task.Valid() && Value() == Deliver(old(Value()), now)
    {
      if status.Terminated? {
        wake := false;
        return;
      }
      if status.Active? || status.BlockedElsewhere? {
        wake := true;
        return;
      }
      var open := OpenIndex(task.generations);
      if open.None? {
        wake := false;
        return;
      }
      Cancel(task.generations[open.value].id);
      var update := task.ClaimAsyncWorkUpdate(now);
      wake := false;
      if update.Some? && status.Blocked? {
        status := Ready;
      }
    }

    /** After progress: deliver at once when all work has ended, else gather results until the batch timer fires. */
    method HandleProgress(window: nat, now: int)
      requires task.Valid()
      modifies this`timer, this`nextController, this`wake, this`current, task`generations
      ensures task.Valid() && Value() == ProcessProgress(old(Value()), window, now)
    {
      if status.Terminated? {
        return;
      }
      if !HasUndelivered(task.Value()) {
        current := Some(Finishing);
        return;
      }
      var generation := Open(task.Value()).value.id;
      if ActiveComplete(task.Value()) {
        Cancel(generation);
        wake, current := true, Some(DeliverNext);
      } else if timer.None? {
        OpenDueSettable(task.Value(), Some(now + window));
        var _ := task.SetBatchDueAt(generation, Some(now + window));
        Arm(generation);
        current := Some(Finishing);
      } else {
        current := Some(Finishing);
      }
    }

    method HandleTimer(controller: nat, generation: nat, now: int)
      requires task.Valid()
      modifies this`timer, this`wake, this`status, this`current, task
      ensures task.Valid() && Value() == ProcessTimer(old(Value()), controller, generation, now)
    {
      if timer.None? || timer.value.controller != controller || timer.value.generation != generation {
        return;
      }
      timer := None;
      if status.Terminated? {
        return;
      }
      var error := task.SetBatchDueAt(generation, None);
      if error.Some? {
        return;
      }
      wake, current := true, Some(Finishing);
      if !status.Active? {
        DeliverUpdate(now);
      }
    }

    /** A turn ends: results that are due go in at once, otherwise the task waits for what is pending. */
    method SettleTurn(now: int) returns (failed: bool)
      requires task.Valid()
      modifies this`timer, this`wake, this`status, this`current, this`turn, this`owed, task
      ensures task.Valid() && Value() == ProcessSettle(old(Value()), now)
      ensures failed <==> old(status.Active? && !(wake && HasUndelivered(task.Value()))
                              && |ActivePending(task.Value())| == 0)
      ensures failed ==> turn == HandlerOf(old(turn)) && status.Active?
    {
      if !status.Active? {
        return false;
      }
      if wake && HasUndelivered(task.Value()) {
        Cancel(Open(task.Value()).value.id);
        var update := task.ClaimAsyncWorkUpdate(now);
        wake := false;
        Release(Ready);
        return false;
      }
      if |ActivePending(task.Value())| == 0 {
        turn := HandlerOf(turn);
        return true;
      }
      Release(Blocked);
      return false;
    }

    method Release(next: TaskStatus)
      modifies this`status, this`current, this`turn, this`owed
      ensures Value() == Released(old(Value()), next)
    {
      if turn == Some(Settling(Reporter)) {
        owed := owed + 1;
      }
      status, turn, current := next, None, Some(Finishing);
    }

    /** Takes the next mutation from the queue; mutations of one task never overlap. */
    method RunNext(window: nat, now: int)
      requires Valid() && task.Valid()
      modifies this, task
      ensures Valid() && task.Valid() && Value() == Step(old(Value()), RunJob(window, now))
    {
      StepKeeps(Value(), RunJob(window, now));
      if current.Some? || |queue| == 0 {
        return;
      }
      var job := queue[0];
      queue := queue[1..];
      match job
      case Progress => HandleProgress(window, now);
      case TimerDue(controller, generation) => HandleTimer(controller, generation, now);
      case Settle => var _ := SettleTurn(now);
    }

    /** After a restart: re-arm what has a deadline, deliver what is complete or overdue. */
    method RestoreScheduling(now: int)
      requires Valid() && task.Valid() && restoring
      modifies this, task
      ensures Valid() && task.Valid() && Value() == Step(old(Value()), FinishRestore(now))
    {
      ghost var before := Value();
      RestoreKeeps(before, now);
      Reschedule(now);
      assert Value() == Restored(before, now);
    }

    method Reschedule(now: int)
      requires task.Valid()
      modifies this, task
      ensures task.Valid() && Value() == Restored(old(Value()), now)
    {
      restoring := false;
      if status.Terminated? || !HasUndelivered(task.Value()) {
        return;
      }
      var generation := Open(task.Value()).value;
      if !ActiveComplete(task.Value()) && generation.batchDueAt.Some? {
        Arm(generation.id);
        return;
      }
      wake := true;
      if !status.Active? {
        DeliverUpdate(now);
      }
    }
  }
}
