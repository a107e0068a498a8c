/** The run-time validator, proved to decide the rules. */
module ContextCheckpoint {
  import opened Basics
  import opened ContextModel
  import opened ContextRules

  /** The identities of the running tasks, in plan order. */
  function RunningIds(tasks: seq<Task>): seq<Id> {
    if |tasks| == 0 then []
    else
      var last := tasks[|tasks| - 1];
      RunningIds(tasks[..|tasks| - 1]) + (if last.state.Running? then [last.id] else [])
  }

  function FindTask(tasks: seq<Task>, id: Id): (t: Option<Task>)
    ensures t.Some? ==> t.value in tasks && t.value.id == id
    ensures t.None? ==> id !in TaskIds(tasks)
  {
    if |tasks| == 0 then None
    else if tasks[0].id == id then Some(tasks[0])
    else FindTask(tasks[1..], id)
  }

  /** The duty a frame works on; a lower frame reads it from its parent's running task. */
  function Objective(c: Context, f: Frame): Result<string, Error> {
    match f.work
    case RootDuty(_, objective) => Success(objective)
    case TaskOf(frameId, planRevision, taskId) =>
      var parent := if f.level == 2 then Some(c.level1) else c.level2;
      :- Need(parent.Some? && AtCursor(parent.value, Cursor(frameId, planRevision)), StaleContext);
      var task := FindTask(parent.value.chain.tasks, taskId);
      :- Need(task.Some? && task.value.state.Running? && parent.value.chain.currentTaskId == Some(taskId),
              StaleContext);
      Success(task.value.objective)
  }

  lemma {:induction false} RunningIdsFind(tasks: seq<Task>)
    ensures forall id :: id in RunningIds(tasks) <==>
              exists i :: 0 <= i < |tasks| && tasks[i].state.Running? && tasks[i].id == id
  {
    if |tasks| > 0 {
      RunningIdsFind(tasks[..|tasks| - 1]);
    }
  }

  lemma {:induction false} RunningIdsOnce(tasks: seq<Task>)
    requires DistinctTasks(tasks)
    ensures forall i, j :: 0 <= i < j < |RunningIds(tasks)| ==> RunningIds(tasks)[i] != RunningIds(tasks)[j]
  {
    if |tasks| > 0 {
      var init := tasks[..|tasks| - 1];
      RunningIdsOnce(init);
      RunningIdsFind(init);
      forall i | 0 <= i < |RunningIds(init)| ensures RunningIds(init)[i] != tasks[|tasks| - 1].id {
        assert RunningIds(init)[i] in RunningIds(init);
      }
    }
  }

  lemma NoRunningIds(tasks: seq<Task>)
    ensures RunningIds(tasks) == [] <==> NoneRuns(tasks)
  {
    RunningIdsFind(tasks);
    if RunningIds(tasks) != [] {
      assert RunningIds(tasks)[0] in RunningIds(tasks);
    }
  }

  /** With distinct tasks, the list the validator builds is the singleton of an identity exactly when only it runs. */
  lemma OneRunningId(tasks: seq<Task>, id: Id)
    requires DistinctTasks(tasks)
    ensures RunningIds(tasks) == [id] <==> RunsOnly(tasks, id)
  {
    RunningIdsFind(tasks);
    RunningIdsOnce(tasks);
    var running := RunningIds(tasks);
    assert |running| > 1 ==> running[0] != running[1];
    if running == [id] {
      assert id in running;
      forall k | 0 <= k < |tasks| ensures tasks[k].state.Running? <==> tasks[k].id == id {
        if tasks[k].state.Running? {
          assert tasks[k].id in running;
        }
      }
    }
    if RunsOnly(tasks, id) {
      var k :| 0 <= k < |tasks| && tasks[k].id == id;
      assert tasks[k].id in running;
      forall i | 0 <= i < |running| ensures running[i] == id {
        assert running[i] in running;
      }
    }
  }

  lemma TaskIdsSnoc(tasks: seq<Task>, task: Task)
    ensures TaskIds(tasks + [task]) == TaskIds(tasks) + {task.id}
    ensures TasksShape(tasks + [task]) <==> TasksShape(tasks) && TaskShape(task)
    ensures DistinctTasks(tasks + [task]) <==> DistinctTasks(tasks) && task.id !in TaskIds(tasks)
    ensures RunningIds(tasks + [task]) == RunningIds(tasks) + (if task.state.Running? then [task.id] else [])
  {
    var all := tasks + [task];
    assert all[..|tasks|] == tasks && all[|tasks|] == task;
    assert forall i :: 0 <= i < |tasks| ==> all[i] == tasks[i];
    forall id | id in TaskIds(tasks) ensures id in TaskIds(all) {
      var i :| 0 <= i < |tasks| && tasks[i].id == id;
      assert all[i].id == id;
    }
    assert all[|tasks|].id in TaskIds(all);
    if TasksShape(all) {
      assert TaskShape(all[|tasks|]);
    }
    if DistinctTasks(all) {
      forall i | 0 <= i < |tasks| ensures tasks[i].id != task.id {
        assert all[i].id != all[|tasks|].id;
      }
    }
    if DistinctTasks(tasks) && task.id !in TaskIds(tasks) {
      forall i, j | 0 <= i < j < |all| ensures all[i].id != all[j].id {
        assert tasks[i].id in TaskIds(tasks);
      }
    }
  }

  predicate TasksAdmissible(tasks: seq<Task>, known: set<Id>) {
    TasksShape(tasks) && DistinctTasks(tasks) && TaskIds(tasks) !! known
  }

  lemma TasksPrefix(tasks: seq<Task>, n: nat, known: set<Id>)
    requires n <= |tasks| && TasksAdmissible(tasks, known)
    ensures TasksAdmissible(tasks[..n], known)
  {
    forall id | id in TaskIds(tasks[..n]) ensures id in TaskIds(tasks) {
      var i :| 0 <= i < n && tasks[..n][i].id == id;
      assert tasks[i].id == id;
    }
  }

  lemma TasksSnoc(tasks: seq<Task>, t: Task, known: set<Id>)
    requires TasksAdmissible(tasks, known)
    ensures TasksAdmissible(tasks + [t], known) <==> TaskShape(t) && t.id !in known + TaskIds(tasks)
  {
    TaskIdsSnoc(tasks, t);
    var more := tasks + [t];
    assert more[|tasks|] == t;
    if t.id in TaskIds(tasks) {
      var i :| 0 <= i < |tasks| && tasks[i].id == t.id;
      assert more[i].id == t.id;
    } else {
      forall i, j | 0 <= i < j < |more| ensures more[i].id != more[j].id {
        assert more[i] == tasks[i] && tasks[i].id in TaskIds(tasks);
      }
    }
  }

  /** A prefix that is not admissible spoils every longer list. */
  lemma TasksRefused(tasks: seq<Task>, n: nat, known: set<Id>)
    requires n <= |tasks| && !TasksAdmissible(tasks[..n], known)
    ensures !TasksAdmissible(tasks, known)
  {
    if TasksAdmissible(tasks, known) {
      TasksPrefix(tasks, n, known);
    }
  }

  /** Adds every task identity to the known ones, stopping at the first conflict or malformed task. */
  method CheckTasks(tasks: seq<Task>, known: set<Id>) returns (ok: bool, ids: set<Id>, running: seq<Id>)
    ensures ok <==> TasksAdmissible(tasks, known)
    ensures ok ==> ids == known + TaskIds(tasks) && running == RunningIds(tasks)
  {
    ids, running := known, [];
    for i := 0 to |tasks|
      invariant ids == known + TaskIds(tasks[..i])
      invariant running == RunningIds(tasks[..i])
      invariant TasksAdmissible(tasks[..i], known)
    {
      var task := tasks[i];
      assert tasks[..i + 1] == tasks[..i] + [task];
      TaskIdsSnoc(tasks[..i], task);
      TasksSnoc(tasks[..i], task, known);
      if task.id in ids || !TaskShape(task) {
        TasksRefused(tasks, i + 1, known);
        return false, ids, running;
      }
      ids := ids + {task.id};
      if task.state.Running? {
        running := running + [task.id];
      }
    }
    assert tasks[..|tasks|] == tasks;
    return true, ids, running;
  }

  method CheckFrame(level: nat, f: Frame, budget: Budget, known: set<Id>) returns (ok: bool, ids: set<Id>)
    requires BudgetShape(budget)
    ensures ok <==> FrameOk(level, f, budget) && OwnIds(f) !! known
    ensures ok ==> ids == known + OwnIds(f)
  {
    ids := known;
    if f.id in ids {
      return false, ids;
    }
    ids := ids + {f.id};
    if f.level != level || !BudgetShape(f.budget) || f.budget != budget || !WorkOk(level, f.work)
      || !Texts(f.instructions) {
      return false, ids;
    }
    if level == 1 {
      if f.work.dutyId in ids {
        return false, ids;
      }
      ids := ids + {f.work.dutyId};
    }
    if !MemoryShape(f.memory) {
      return false, ids;
    }
    var chain := f.chain;
    if chain.target != TargetOf(level) || chain.revision > MAX_SAFE_INTEGER {
      return false, ids;
    }
    var running;
    ok, ids, running := CheckTasks(chain.tasks, ids);
    if !ok {
      return;
    }
    if chain.revision == 0 && |chain.tasks| != 0 {
      return false, ids;
    }
    NoRunningIds(chain.tasks);
    if chain.currentTaskId.Some? {
      OneRunningId(chain.tasks, chain.currentTaskId.value);
    }
    if chain.phase.Executing? {
      if |running| != 1 || chain.currentTaskId != Some(running[0]) {
        return false, ids;
      }
    } else if |running| != 0 || chain.currentTaskId.Some? {
      return false, ids;
    }
    if chain.replan.Some? &&
       (!chain.phase.Planning? || !Text(chain.replan.value.reason) || !TokenText(chain.replan.value.previousPlanRef)) {
      return false, ids;
    }
    ok := true;
  }

  lemma ParentTaskRuns(parent: Frame, child: Frame, c: Context)
    requires PhaseOk(parent.chain) && DistinctTasks(parent.chain.tasks)
    requires child.work.TaskOf?
    requires child.level == 2 ==> parent == c.level1
    requires child.level != 2 ==> Some(parent) == c.level2
    ensures Objective(c, child).Success? <==> Delegated(parent, child)
  {
    var taskId := child.work.taskId;
    if Delegated(parent, child) {
      var k :| 0 <= k < |parent.chain.tasks| && parent.chain.tasks[k].id == taskId;
      assert parent.chain.tasks[k].id in TaskIds(parent.chain.tasks);
    }
  }

  predicate FramesOk(c: Context, p: Policy) {
    && FrameOk(1, c.level1, p.budget1)
    && (c.level2.Some? ==> FrameOk(2, c.level2.value, p.budget2) && OwnIds(c.level1) !! OwnIds(c.level2.value))
    && (c.level3.Some? ==> FrameOk(3, c.level3.value, p.budget3) && OwnIds(c.level1) !! OwnIds(c.level3.value))
    && (c.level2.Some? && c.level3.Some? ==> OwnIds(c.level2.value) !! OwnIds(c.level3.value))
  }

  /** The cross-level clauses, in the order the validator asks them. */
  predicate CrossChecks(c: Context) {
    && (c.level2.Some? || c.level3.None?)
    && (forall i :: 0 <= i < |Frames(c)| ==> Objective(c, Frames(c)[i]).Success?)
    && (c.level1.chain.phase.Executing? ==> c.level2.Some?)
    && (c.level2.Some? && c.level2.value.chain.phase.Executing? ==> c.level3.Some?)
  }

  lemma CrossChecksDecide(c: Context, p: Policy)
    requires FramesOk(c, p)
    ensures CrossChecks(c) <==> StackOk(c)
  {
    var fs := Frames(c);
    assert fs[0] == c.level1;
    if c.level2.Some? {
      assert fs[1] == c.level2.value;
      ParentTaskRuns(c.level1, c.level2.value, c);
      if c.level3.Some? {
        assert fs[2] == c.level3.value;
        ParentTaskRuns(c.level2.value, c.level3.value, c);
      }
    }
  }

  /** What a reader of untrusted frames answers: malformed ones first, then children that name no running task. */
  function ContextVerdict(c: Context, p: Policy): Option<Error> {
    if !FramesOk(c, p) || (c.level2.None? && c.level3.Some?) then Some(InvalidInput)
    else if exists i :: 0 <= i < |Frames(c)| && Objective(c, Frames(c)[i]).Failure? then Some(StaleContext)
    else if !CrossChecks(c) then Some(InvalidInput)
    else None
  }

  method CheckFrames(c: Context, p: Policy) returns (ok: bool)
    requires PolicyShape(p)
    ensures ok <==> FramesOk(c, p)
  {
    var ids := {};
    ok, ids := CheckFrame(1, c.level1, p.budget1, ids);
    if !ok {
      return;
    }
    if c.level2.Some? {
      ok, ids := CheckFrame(2, c.level2.value, p.budget2, ids);
      if !ok {
        return;
      }
    }
    if c.level3.Some? {
      ok, ids := CheckFrame(3, c.level3.value, p.budget3, ids);
    }
  }

  method CheckContext(c: Context, p: Policy) returns (error: Option<Error>)
    requires PolicyShape(p)
    ensures error.None? <==> ContextOk(c, p)
    ensures error == ContextVerdict(c, p)
  {
    var ok := CheckFrames(c, p);
    if !ok {
      return Some(InvalidInput);
    }
    CrossChecksDecide(c, p);
    if c.level2.None? && c.level3.Some? {
      return Some(InvalidInput);
    }
    var fs := Frames(c);
    for i := 0 to |fs|
      invariant forall k :: 0 <= k < i ==> Objective(c, fs[k]).Success?
    {
      if Objective(c, fs[i]).Failure? {
        return Some(StaleContext);
      }
    }
    if c.level1.chain.phase.Executing? && c.level2.None? {
      return Some(InvalidInput);
    }
    if c.level2.Some? && c.level2.value.chain.phase.Executing? && c.level3.None? {
      return Some(InvalidInput);
    }
    return None;
  }

  method CheckInbox(size: Sizes, inbox: seq<Delivery>, p: Policy) returns (ok: bool)
    ensures ok <==> InboxOk(size, inbox, p)
  {
    if |inbox| > p.maxInbox {
      return false;
    }
    var keys: set<string> := {};
    for i := 0 to |inbox|
      invariant keys == set k | 0 <= k < i :: inbox[k].key
      invariant forall k :: 0 <= k < i ==> DeliveryShape(inbox[k]) && size.delivery(inbox[k]) <= p.maxDeliveryBytes
      invariant forall j, k :: 0 <= j < k < i ==> inbox[j].key != inbox[k].key
    {
      if !DeliveryShape(inbox[i]) || size.delivery(inbox[i]) > p.maxDeliveryBytes || inbox[i].key in keys {
        return false;
      }
      keys := keys + {inbox[i].key};
    }
    return true;
  }

  /** A pending summary: its fields first, then whether it still belongs to the active frame, then its purpose. */
  function PendingVerdict(s: Checkpoint): Option<Error> {
    if s.pending.None? then None
    else
      var p := s.pending.value;
      if !PendingText(s) || p.sourceRef !in p.allowedRefs
        || p.attempts > s.policy.maxSummaryAttempts then Some(InvalidInput)
      else if !AtCursor(Active(s.context), Cursor(p.frameId, p.planRevision)) then Some(StaleContext)
      else if !PendingStructure(s) then Some(InvalidInput)
      else None
  }

  /** The validator's answer to any checkpoint, structured or not. */
  function FullVerdict(size: Sizes, s: Checkpoint): Option<Error> {
    if s.revision > MAX_SAFE_INTEGER || !PolicyShape(s.policy)
      || !InboxOk(size, s.inbox, s.policy) then Some(InvalidInput)
    else if ContextVerdict(s.context, s.policy).Some? then ContextVerdict(s.context, s.policy)
    else if !Fits(size, s.context) then Some(BudgetExceeded)
    else PendingVerdict(s)
  }

  method CheckPending(s: Checkpoint) returns (error: Option<Error>)
    ensures error == PendingVerdict(s)
    ensures error.None? <==> PendingStructure(s) && PendingText(s)
  {
    if s.pending.None? {
      return None;
    }
    var p := s.pending.value;
    if !PendingText(s) || p.sourceRef !in p.allowedRefs || p.attempts > s.policy.maxSummaryAttempts {
      return Some(InvalidInput);
    }
    var frame := Active(s.context);
    if !AtCursor(frame, Cursor(p.frameId, p.planRevision)) {
      return Some(StaleContext);
    }
    if !s.runnable || (p.purpose.Idle? && frame.level != 1) {
      return Some(InvalidInput);
    }
    if (p.purpose.Complete? || p.purpose.Interrupt?) && frame.level == 1 {
      return Some(InvalidInput);
    }
    if (p.purpose.Complete? || p.purpose.Idle?) && !Settled(frame.chain.tasks) {
      return Some(InvalidInput);
    }
    return None;
  }

  /** Accepts a checkpoint exactly when it is valid, and otherwise says in the order of its steps what is wrong. */
  method ValidateCheckpoint(size: Sizes, s: Checkpoint) returns (error: Option<Error>)
    ensures error.None? <==> Valid(size, s)
    ensures Structured(size, s) ==> error == Verdict(size, s)
    ensures error == FullVerdict(size, s)
  {
    if s.revision > MAX_SAFE_INTEGER || !PolicyShape(s.policy) {
      return Some(InvalidInput);
    }
    var ok := CheckInbox(size, s.inbox, s.policy);
    if !ok {
      return Some(InvalidInput);
    }
    error := CheckContext(s.context, s.policy);
    if error.Some? {
      return;
    }
    var fs := Frames(s.context);
    for i := 0 to |fs|
      invariant forall k :: 0 <= k < i ==> FrameFits(size, fs[k])
    {
      if !FrameFits(size, fs[i]) {
        return Some(BudgetExceeded);
      }
    }
    error := CheckPending(s);
  }
}
