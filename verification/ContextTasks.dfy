/** The decision state machine: what each business decision of the active frame does to the stack. */
module ContextTasks {
  import opened Basics
  import opened ContextModel
  import opened ContextRules
  import opened ContextSummaries

  /** Installs waiting tasks for the objectives, drawing one identity for each. */
  function NewTasks(objectives: seq<string>, next: Id): (tasks: seq<Task>)
    ensures |tasks| == |objectives|
    ensures forall i :: 0 <= i < |tasks| ==> tasks[i] == Task(next + i, objectives[i], Waiting)
  {
    seq(|objectives|, i requires 0 <= i < |objectives| => Task(next + i, objectives[i], Waiting))
  }

  function GiveUp(t: Task, reason: string): Task {
    match t.state
    case Running => t.(state := Interrupted(reason, None))
    case Waiting => t.(state := Superseded)
    case _ => t
  }

  function GiveUpAll(tasks: seq<Task>, reason: string): (r: seq<Task>)
    ensures |r| == |tasks|
    ensures forall i :: 0 <= i < |tasks| ==> r[i] == GiveUp(tasks[i], reason)
  {
    seq(|tasks|, i requires 0 <= i < |tasks| => GiveUp(tasks[i], reason))
  }

  /** The position of the first waiting task, or the length of the plan. */
  function FirstWaiting(tasks: seq<Task>): (i: nat)
    ensures i <= |tasks|
    ensures i < |tasks| ==> tasks[i].state.Waiting?
    ensures forall j :: 0 <= j < i ==> !tasks[j].state.Waiting?
  {
    if |tasks| == 0 || tasks[0].state.Waiting? then 0
    else
      var rest := FirstWaiting(tasks[1..]);
      assert forall j :: 1 <= j < rest + 1 ==> tasks[j] == tasks[1..][j - 1];
      1 + rest
  }

  function WithEntries(d: Draft, entries: seq<Entry>): Result<Draft, Error> {
    if !EntriesShape(entries) then Failure(InvalidInput)
    else
      var context :- ReplaceFrame(d.state.context, AppendEntries(Active(d.state.context), entries));
      Success(d.(state := d.state.(context := context, runnable := true)))
  }

  function WithActive(d: Draft, f: Frame): Result<Draft, Error> {
    var context :- ReplaceFrame(d.state.context, f);
    Success(d.(state := d.state.(context := context)))
  }

  function WithChain(d: Draft, f: Frame, chain: Chain): Result<Draft, Error> {
    var updated :- SetChain(f, chain);
    WithActive(d, updated)
  }

  /** Archives the current plan and installs the objectives as the next revision. */
  function Planned(d: Draft, frame: Frame, objectives: seq<string>, replanReason: Option<string>)
    : Result<Draft, Error> {
    var (archived, previousPlanRef) := Archive(d);
    var chain := frame.chain;
    var replan :=
      if replanReason.Some? then Some(Replan(replanReason.value, previousPlanRef)) else None;
    WithChain(
      archived.(next := archived.next + |objectives|),
      frame.(memory := frame.memory.(historyRef := Some(previousPlanRef))),
      Chain(chain.target, chain.revision + 1, NewTasks(objectives, archived.next), Planning, None, replan))
  }

  function PlanDecision(d: Draft, frame: Frame, objectives: seq<string>): Result<Draft, Error> {
    if !(Texts(objectives) && 0 < |objectives| <= frame.budget.maxTasks) then Failure(InvalidInput)
    else
      :- Need(Settled(frame.chain.tasks), InvalidState);
      Planned(d, frame, objectives, None)
  }

  function ReplanDecision(d: Draft, frame: Frame, objectives: seq<string>, reason: string): Result<Draft, Error> {
    if !(Texts(objectives) && 0 < |objectives| <= frame.budget.maxTasks && Text(reason)) then Failure(InvalidInput)
    else
      var chain := frame.chain;
      var given :- WithChain(
        d, frame, Chain(chain.target, chain.revision, GiveUpAll(chain.tasks, reason), Planning, None, None));
      Planned(given, frame, objectives, Some(reason))
  }

  /** The frame created for a task of its parent: it sees the parent's memory but none of its lessons. */
  function ChildFrame(id: Id, parent: Frame, taskId: Id, budget: Budget): Frame {
    Frame(
      id, parent.level + 1, [], TaskOf(parent.id, parent.chain.revision, taskId),
      EmptyChain(parent.level + 1, 0),
      EMPTY_MEMORY.(summary := parent.memory.summary, recentEntries := parent.memory.recentEntries,
                    historyRef := parent.memory.historyRef),
      budget)
  }

  function AdvanceDecision(d: Draft, frame: Frame): Result<Draft, Error> {
    var chain := frame.chain;
    :- Need(chain.phase.Planning?, InvalidState);
    var i := FirstWaiting(chain.tasks);
    :- Need(i < |chain.tasks|, InvalidState);
    var task := chain.tasks[i];
    var running :- WithChain(d, frame, Chain(
      chain.target, chain.revision, chain.tasks[i := task.(state := Running)], Executing, Some(task.id), None));
    var drawn := running.(next := running.next + 1);
    var s := drawn.state;
    Success(
      if frame.level == 1 then
        drawn.(state := s.(context := s.context.(
          level2 := Some(ChildFrame(d.next, frame, task.id, s.policy.budget2)), level3 := None)))
      else if frame.level == 2 then
        drawn.(state := s.(context := s.context.(
          level3 := Some(ChildFrame(d.next, frame, task.id, s.policy.budget3)))))
      else drawn)
  }

  function StepDecision(d: Draft, frame: Frame, result: Summary): Result<Draft, Error> {
    var chain := frame.chain;
    :- Need(frame.level == 3 && chain.phase.Executing?, InvalidState);
    :- Need(SummaryShape(result) && SummaryWithin(result, SourceRefs(frame)), InvalidInput);
    var tasks :=
      if chain.currentTaskId.Some? then FinishTasks(chain.tasks, chain.currentTaskId.value, Completed(result))
      else chain.tasks;
    WithChain(d, frame, Chain(chain.target, chain.revision, tasks, Planning, None, None))
  }

  function FinishTurnDecision(d: Draft, frame: Frame): Result<Draft, Error> {
    var c := d.state.context;
    :- Need(frame.level == 1 && c.level2.None? && c.level3.None? && Settled(frame.chain.tasks), InvalidState);
    Success(d.(state := d.state.(runnable := false)))
  }

  function AfterDecision(before: Draft, decision: Decision, entries: seq<Entry>): Result<Draft, Error> {
    var d :- WithEntries(before, entries);
    var frame := AppendEntries(Active(before.state.context), entries);
    match decision
    case DecidePlan(objectives) => PlanDecision(d, frame, objectives)
    case DecideReplan(objectives, reason) => ReplanDecision(d, frame, objectives, reason)
    case DecideAdvance => AdvanceDecision(d, frame)
    case DecideStepCompleted(result) => StepDecision(d, frame, result)
    case DecideInterrupt(reason) =>
      if Text(reason) then AfterSchedule(d, Interrupt, reason) else Failure(InvalidInput)
    case DecideComplete => AfterSchedule(d, Complete, "")
    case DecideCompact => AfterSchedule(d, Compact, "")
    case DecideIdle => AfterSchedule(d, Idle, "")
    case DecideFinishTurn => FinishTurnDecision(d, frame)
    case DecideContinue => Success(d)
    case DecideWait => Success(d.(state := d.state.(runnable := false)))
  }

  method PutFrame(m: Mutation, f: Frame) returns (error: Option<Error>)
    modifies m
    ensures Agrees(error, m.Value(), WithActive(old(m.Value()), f))
    ensures error.Some? ==> m.Value() == old(m.Value())
  {
    var replaced := ReplaceFrame(m.state.context, f);
    if replaced.Failure? {
      return Some(replaced.error);
    }
    m.state := m.state.(context := replaced.value);
    return None;
  }

  method PutChain(m: Mutation, f: Frame, chain: Chain) returns (error: Option<Error>)
    modifies m
    ensures Agrees(error, m.Value(), WithChain(old(m.Value()), f, chain))
  {
    var updated := SetChain(f, chain);
    if updated.Failure? {
      return Some(updated.error);
    }
    error := PutFrame(m, updated.value);
  }

  method InstallPlan(m: Mutation, frame: Frame, objectives: seq<string>, replanReason: Option<string>)
    returns (error: Option<Error>)
    modifies m
    ensures Agrees(error, m.Value(), Planned(old(m.Value()), frame, objectives, replanReason))
  {
    var previousPlanRef := m.ArchiveContext();
    var tasks := NewTasks(objectives, m.next);
    m.next := m.next + |objectives|;
    error := PutChain(
      m, frame.(memory := frame.memory.(historyRef := Some(previousPlanRef))),
      Chain(frame.chain.target, frame.chain.revision + 1, tasks, Planning, None,
            if replanReason.Some? then Some(Replan(replanReason.value, previousPlanRef)) else None));
  }

  method Advance(m: Mutation, frame: Frame) returns (error: Option<Error>)
    modifies m
    ensures Agrees(error, m.Value(), AdvanceDecision(old(m.Value()), frame))
  {
    var chain := frame.chain;
    if !chain.phase.Planning? {
      return Some(InvalidState);
    }
    var i := FirstWaiting(chain.tasks);
    if i == |chain.tasks| {
      return Some(InvalidState);
    }
    var task := chain.tasks[i];
    error := PutChain(m, frame, Chain(
      chain.target, chain.revision, chain.tasks[i := task.(state := Running)], Executing, Some(task.id), None));
    if error.Some? {
      return;
    }
    var id := m.next;
    m.next := m.next + 1;
    if frame.level == 1 {
      m.state := m.state.(context := m.state.context.(
        level2 := Some(ChildFrame(id, frame, task.id, m.state.policy.budget2)), level3 := None));
    } else if frame.level == 2 {
      m.state := m.state.(context := m.state.context.(
        level3 := Some(ChildFrame(id, frame, task.id, m.state.policy.budget3))));
    }
  }

  /** Applies one decision of the active frame to the draft, recording the round's entries first. */
  method ApplyDecision(m: Mutation, decision: Decision, entries: seq<Entry>) returns (error: Option<Error>)
    modifies m
    ensures Agrees(error, m.Value(), AfterDecision(old(m.Value()), decision, entries))
  {
    var frame := Active(m.state.context);
    if !EntriesShape(entries) {
      return Some(InvalidInput);
    }
    frame := AppendEntries(frame, entries);
    error := PutFrame(m, frame);
    if error.Some? {
      return;
    }
    m.state := m.state.(runnable := true);
    var chain := frame.chain;
    match decision {
      case DecidePlan(objectives) =>
        if !Texts(objectives) || |objectives| == 0 || |objectives| > frame.budget.maxTasks {
          return Some(InvalidInput);
        }
        if !Settled(chain.tasks) {
          return Some(InvalidState);
        }
        error := InstallPlan(m, frame, objectives, None);
      case DecideReplan(objectives, reason) =>
        if !Texts(objectives) || |objectives| == 0 || |objectives| > frame.budget.maxTasks || !Text(reason) {
          return Some(InvalidInput);
        }
        error := PutChain(m, frame, Chain(
          chain.target, chain.revision, GiveUpAll(chain.tasks, reason), Planning, None, None));
        if error.None? {
          error := InstallPlan(m, frame, objectives, Some(reason));
        }
      case DecideAdvance =>
        error := Advance(m, frame);
      case DecideStepCompleted(result) =>
        if frame.level != 3 || !chain.phase.Executing? {
          return Some(InvalidState);
        }
        var refs := CollectSourceRefs(frame);
        if !SummaryShape(result) || !SummaryWithin(result, refs) {
          return Some(InvalidInput);
        }
        var tasks := chain.tasks;
        if chain.currentTaskId.Some? {
          tasks := FinishTasks(chain.tasks, chain.currentTaskId.value, Completed(result));
        }
        error := PutChain(m, frame, Chain(chain.target, chain.revision, tasks, Planning, None, None));
      case DecideInterrupt(reason) =>
        if !Text(reason) {
          return Some(InvalidInput);
        }
        error := ScheduleSummary(m, Interrupt, reason);
      case DecideComplete =>
        error := ScheduleSummary(m, Complete, "");
      case DecideCompact =>
        error := ScheduleSummary(m, Compact, "");
      case DecideIdle =>
        error := ScheduleSummary(m, Idle, "");
      case DecideFinishTurn =>
        if frame.level != 1 || m.state.context.level2.Some? || m.state.context.level3.Some? || !Settled(chain.tasks) {
          return Some(InvalidState);
        }
        m.state := m.state.(runnable := false);
      case DecideContinue =>
      case DecideWait =>
        m.state := m.state.(runnable := false);
    }
  }
}
