/** Decisions, drains and summary integration keep every structural rule of the context on their own. */
module ContextStructure {
  // Starting from a well-formed draft they can only end in a well-formed one, so the validator's structural clauses
  // never fire.

  import opened Basics
  import opened ContextModel
  import opened ContextRules
  import opened ContextSummaries
  import opened ContextTasks
  import opened ContextInbox

  /** Every identity in the stack was drawn before `next`. */
  predicate IdsBelow(c: Context, next: Id) {
    && (forall id :: id in OwnIds(c.level1) ==> id < next)
    && (c.level2.Some? ==> forall id :: id in OwnIds(c.level2.value) ==> id < next)
    && (c.level3.Some? ==> forall id :: id in OwnIds(c.level3.value) ==> id < next)
  }

  predicate RevisionsWithin(c: Context, n: nat) {
    && c.level1.chain.revision <= n
    && (c.level2.Some? ==> c.level2.value.chain.revision <= n)
    && (c.level3.Some? ==> c.level3.value.chain.revision <= n)
  }

  predicate InterruptExplained(s: Checkpoint) {
    s.pending.Some? && s.pending.value.purpose.Interrupt? ==> Text(s.pending.value.reason)
  }

  /** A structured checkpoint with room for one more revision, whose identities are all used up. */
  predicate DraftOk(size: Sizes, d: Draft) {
    && Structured(size, d.state)
    && d.state.revision < MAX_SAFE_INTEGER
    && IdsBelow(d.state.context, d.next)
    && RevisionsWithin(d.state.context, d.state.revision)
    && InterruptExplained(d.state)
  }

  /** The context part of what a step must leave behind. */
  predicate StackKept(before: Draft, after: Draft) {
    && after.state.policy == before.state.policy
    && after.state.revision == before.state.revision
    && before.next <= after.next
    && ContextOk(after.state.context, after.state.policy)
    && IdsBelow(after.state.context, after.next)
    && RevisionsWithin(after.state.context, before.state.revision + 1)
  }

  // ---- replacing the active frame ----

  /** The new frame may stand where the active one stood: same place, same ids or unused ones, no orphaned child. */
  predicate Substitute(f: Frame, g: Frame, next: Id) {
    && FrameOk(f.level, g, f.budget)
    && g.id == f.id
    && g.work == f.work
    && (f.level != 3 ==> g.chain.phase.Planning?)
    && (forall id :: id in OwnIds(g) ==> id in OwnIds(f) || id >= next)
  }

  lemma ActiveShape(c: Context, p: Policy)
    requires ContextOk(c, p)
    ensures FrameOk(Active(c).level, Active(c), BudgetOf(p, Active(c).level))
    ensures Active(c).level == if c.level3.Some? then 3 else if c.level2.Some? then 2 else 1
    ensures Active(c).level != 3 ==> Active(c).chain.phase.Planning?
  {
  }

  lemma ReplaceActive(c: Context, p: Policy, g: Frame, next: Id, bound: Id)
    requires ContextOk(c, p) && IdsBelow(c, next)
    requires Substitute(Active(c), g, next)
    requires next <= bound && (forall id :: id in OwnIds(g) ==> id < bound)
    ensures ReplaceFrame(c, g).Success?
    ensures var r := ReplaceFrame(c, g).value;
            ContextOk(r, p) && IdsBelow(r, bound) && Active(r) == g
  {
    ActiveShape(c, p);
  }

  lemma PutActive(before: Draft, d: Draft, g: Frame)
    requires ContextOk(before.state.context, before.state.policy)
    requires IdsBelow(before.state.context, before.next)
    requires RevisionsWithin(before.state.context, before.state.revision)
    requires d.state.policy == before.state.policy && d.state.revision == before.state.revision
    requires before.next <= d.next
    requires ReplaceFrame(d.state.context, g) == ReplaceFrame(before.state.context, g)
    requires Substitute(Active(before.state.context), g, before.next)
    requires forall id :: id in OwnIds(g) ==> id < d.next
    requires g.chain.revision <= before.state.revision + 1
    ensures WithActive(d, g).Success?
    ensures StackKept(before, WithActive(d, g).value)
    ensures Active(WithActive(d, g).value.state.context) == g
    ensures WithActive(d, g).value == d.(state := d.state.(context := WithActive(d, g).value.state.context))
  {
    ActiveShape(before.state.context, before.state.policy);
    ReplaceActive(before.state.context, before.state.policy, g, before.next, d.next);
  }

  lemma AppendKeeps(f: Frame, entries: seq<Entry>)
    requires FrameOk(f.level, f, f.budget) && EntriesShape(entries)
    ensures FrameOk(f.level, AppendEntries(f, entries), f.budget)
    ensures OwnIds(AppendEntries(f, entries)) == OwnIds(f)
  {
  }

  lemma EntriesAppended(before: Draft, entries: seq<Entry>)
    requires ContextOk(before.state.context, before.state.policy) && IdsBelow(before.state.context, before.next)
    requires RevisionsWithin(before.state.context, before.state.revision)
    requires EntriesShape(entries)
    ensures var d := WithEntries(before, entries);
            var g := AppendEntries(Active(before.state.context), entries);
            && d.Success?
            && d.value == before.(state := before.state.(context := d.value.state.context, runnable := true))
            && Active(d.value.state.context) == g
            && ContextOk(d.value.state.context, before.state.policy)
            && IdsBelow(d.value.state.context, before.next)
            && RevisionsWithin(d.value.state.context, before.state.revision)
  {
    var f := Active(before.state.context);
    ActiveShape(before.state.context, before.state.policy);
    AppendKeeps(f, entries);
    ReplaceActive(before.state.context, before.state.policy, AppendEntries(f, entries), before.next, before.next);
  }

  // ---- what every step leaves ----

  predicate FreshRef(t: Token, lo: Id, hi: Id) {
    (t.HistoryRef? || t.SummaryRef?) && lo <= t.id < hi
  }

  /** The step only appends records, under references nobody has used before. */
  predicate FreshWrites(before: Draft, after: Draft) {
    && before.writes <= after.writes
    && (forall i :: |before.writes| <= i < |after.writes| ==> FreshRef(after.writes[i].ref, before.next, after.next))
    && (forall i, j :: |before.writes| <= i < j < |after.writes| ==> after.writes[i].ref != after.writes[j].ref)
  }

  /** A summary the step opened is unused and cites a record of exactly the context it leaves live. */
  predicate Sealed(before: Draft, after: Draft) {
    before.state.pending.None? && after.state.pending.Some? ==>
      var p := after.state.pending.value;
      && before.next <= p.id < after.next
      && Write(p.sourceRef, FrameRecord(after.state.context)) in after.writes
      && p.attempts == 0 && p.lastError.None?
  }

  predicate StepKept(size: Sizes, before: Draft, after: Draft) {
    && StackKept(before, after)
    && Structured(size, after.state)
    && InterruptExplained(after.state)
    && FreshWrites(before, after)
    && Sealed(before, after)
  }

  /** A step that ends without a pending summary keeps the structure if the context that it leaves is well formed. */
  lemma KeptWithout(size: Sizes, before: Draft, after: Draft)
    requires DraftOk(size, before) && after.state.pending.None?
    requires after.state == before.state.(context := after.state.context, pending := None,
                                          runnable := after.state.runnable)
    requires before.next <= after.next && ContextOk(after.state.context, before.state.policy)
    requires IdsBelow(after.state.context, after.next)
    requires RevisionsWithin(after.state.context, before.state.revision + 1)
    requires FreshWrites(before, after)
    ensures StepKept(size, before, after)
  {
  }

  lemma OneFreshWrite(before: Draft, after: Draft, w: Write)
    requires after.writes == before.writes + [w] && FreshRef(w.ref, before.next, after.next)
    ensures FreshWrites(before, after)
  {
  }

  /** Sealing the active frame of a structured draft: the precondition lets `d` already hold a step's own changes. */
  lemma ScheduleKeeps(size: Sizes, before: Draft, d: Draft, purpose: Purpose, reason: string)
    requires DraftOk(size, before) && before.state.pending.None?
    requires StackKept(before, d) && d.state.pending.None? && InboxOk(size, d.state.inbox, d.state.policy)
    requires d.writes == before.writes
    requires purpose.Interrupt? ==> Text(reason)
    requires AfterSchedule(d, purpose, reason).Success?
    ensures StepKept(size, before, AfterSchedule(d, purpose, reason).value)
  {
    var after := AfterSchedule(d, purpose, reason).value;
    assert after.writes[|before.writes|] == Write(HistoryRef(d.next), FrameRecord(d.state.context));
  }

  // ---- business decisions ----

  /** The draft and frame a decision works on: the round's entries are already recorded. */
  predicate Recorded(size: Sizes, before: Draft, d: Draft, frame: Frame) {
    && DraftOk(size, before) && before.state.pending.None?
    && d == before.(state := before.state.(context := d.state.context, runnable := true))
    && frame == Active(d.state.context)
    && frame.id == Active(before.state.context).id && frame.work == Active(before.state.context).work
    && ContextOk(d.state.context, before.state.policy)
    && IdsBelow(d.state.context, before.next)
    && RevisionsWithin(d.state.context, before.state.revision)
  }

  lemma NewTasksFresh(objectives: seq<string>, next: Id)
    requires Texts(objectives)
    ensures var tasks := NewTasks(objectives, next);
            && TasksShape(tasks) && DistinctTasks(tasks) && NoneRuns(tasks)
            && (forall id :: id in TaskIds(tasks) ==> next <= id < next + |objectives|)
  {
  }

  /** The frame that carries the new plan may stand where the old one stood. */
  lemma PlannedFrame(frame: Frame, budget: Budget, objectives: seq<string>, next: Id, replan: Option<Replan>)
    requires FrameOk(frame.level, frame, budget) && frame.chain.revision < MAX_SAFE_INTEGER
    requires forall id :: id in OwnIds(frame) ==> id < next
    requires Texts(objectives) && |objectives| > 0
    requires replan.Some? ==> Text(replan.value.reason) && replan.value.previousPlanRef.HistoryRef?
    ensures var g := frame.(
              memory := frame.memory.(historyRef := Some(HistoryRef(next))),
              chain := Chain(frame.chain.target, frame.chain.revision + 1, NewTasks(objectives, next + 1), Planning,
                             None, replan));
            && FrameOk(frame.level, g, budget)
            && (forall id :: id in OwnIds(g) ==> id in OwnIds(frame) || next < id < next + 1 + |objectives|)
  {
    NewTasksFresh(objectives, next + 1);
    assert frame.id in OwnIds(frame);
    assert frame.work.RootDuty? ==> frame.work.dutyId in OwnIds(frame);
  }

  /** The two contexts agree outside one level. */
  predicate DiffersOnlyAt(c: Context, other: Context, level: nat) {
    match level
    case 1 => other == c.(level1 := other.level1)
    case 2 => other == c.(level2 := other.level2)
    case _ => other == c.(level3 := other.level3)
  }

  function PlannedAs(frame: Frame, objectives: seq<string>, next: Id, replanReason: Option<string>): Frame {
    var ref := HistoryRef(next);
    frame.(
      memory := frame.memory.(historyRef := Some(ref)),
      chain := Chain(frame.chain.target, frame.chain.revision + 1, NewTasks(objectives, next + 1), Planning, None,
                     if replanReason.Some? then Some(Replan(replanReason.value, ref)) else None))
  }

  lemma PlannedValue(mid: Draft, frame: Frame, objectives: seq<string>, replanReason: Option<string>)
    ensures Planned(mid, frame, objectives, replanReason) ==
            WithActive(Archive(mid).0.(next := mid.next + 1 + |objectives|),
                       PlannedAs(frame, objectives, mid.next, replanReason))
  {
    var g := PlannedAs(frame, objectives, mid.next, replanReason);
    var kept := frame.(memory := frame.memory.(historyRef := Some(HistoryRef(mid.next))));
    assert SetChain(kept, g.chain) == Success(g);
  }

  lemma PlannedStack(d: Draft, mid: Draft, frame: Frame, objectives: seq<string>, replanReason: Option<string>)
    requires frame == Active(d.state.context)
    requires ContextOk(d.state.context, d.state.policy) && IdsBelow(d.state.context, d.next)
    requires RevisionsWithin(d.state.context, d.state.revision) && d.state.revision < MAX_SAFE_INTEGER
    requires Texts(objectives) && |objectives| > 0
    requires replanReason.Some? ==> Text(replanReason.value)
    requires mid == d.(state := d.state.(context := mid.state.context))
    requires DiffersOnlyAt(d.state.context, mid.state.context, frame.level)
    ensures Planned(mid, frame, objectives, replanReason).Success?
    ensures var after := Planned(mid, frame, objectives, replanReason).value;
            && StackKept(d, after)
            && after == Draft(d.state.(context := after.state.context),
                              d.writes + [Write(HistoryRef(d.next), FrameRecord(mid.state.context))],
                              d.next + 1 + |objectives|)
  {
    ActiveShape(d.state.context, d.state.policy);
    PlannedValue(mid, frame, objectives, replanReason);
    var g := PlannedAs(frame, objectives, mid.next, replanReason);
    PlannedFrame(frame, frame.budget, objectives, d.next, g.chain.replan);
    PutActive(d, Archive(mid).0.(next := d.next + 1 + |objectives|), g);
  }

  lemma PlannedKeeps(size: Sizes, before: Draft, d: Draft, mid: Draft, frame: Frame,
                     objectives: seq<string>, replanReason: Option<string>)
    requires Recorded(size, before, d, frame)
    requires Texts(objectives) && |objectives| > 0
    requires replanReason.Some? ==> Text(replanReason.value)
    requires mid == d.(state := d.state.(context := mid.state.context))
    requires DiffersOnlyAt(d.state.context, mid.state.context, frame.level)
    ensures Planned(mid, frame, objectives, replanReason).Success?
    ensures StepKept(size, before, Planned(mid, frame, objectives, replanReason).value)
  {
    PlannedStack(d, mid, frame, objectives, replanReason);
    var after := Planned(mid, frame, objectives, replanReason).value;
    OneFreshWrite(before, after, Write(HistoryRef(d.next), FrameRecord(mid.state.context)));
    KeptWithout(size, before, after);
  }

  lemma PlanKeeps(size: Sizes, before: Draft, d: Draft, frame: Frame, objectives: seq<string>)
    requires Recorded(size, before, d, frame)
    requires PlanDecision(d, frame, objectives).Success?
    ensures StepKept(size, before, PlanDecision(d, frame, objectives).value)
  {
    PlannedKeeps(size, before, d, d, frame, objectives, None);
  }

  lemma ReplanKeeps(size: Sizes, before: Draft, d: Draft, frame: Frame, objectives: seq<string>, reason: string)
    requires Recorded(size, before, d, frame)
    requires ReplanDecision(d, frame, objectives, reason).Success?
    ensures StepKept(size, before, ReplanDecision(d, frame, objectives, reason).value)
  {
    var chain := frame.chain;
    var given := WithChain(
      d, frame, Chain(chain.target, chain.revision, GiveUpAll(chain.tasks, reason), Planning, None, None)).value;
    ActiveShape(d.state.context, before.state.policy);
    PlannedKeeps(size, before, d, given, frame, objectives, Some(reason));
  }

  lemma FirstWaitingRuns(tasks: seq<Task>, i: nat)
    requires i < |tasks| && NoneRuns(tasks) && DistinctTasks(tasks)
    ensures RunsOnly(tasks[i := tasks[i].(state := Running)], tasks[i].id)
    ensures TaskIds(tasks[i := tasks[i].(state := Running)]) == TaskIds(tasks)
    ensures DistinctTasks(tasks[i := tasks[i].(state := Running)])
  {
    var updated := tasks[i := tasks[i].(state := Running)];
    assert updated[i].id == tasks[i].id;
    assert forall k :: 0 <= k < |tasks| ==> updated[k].id == tasks[k].id;
    forall id | id in TaskIds(tasks) ensures id in TaskIds(updated) {
      var k :| 0 <= k < |tasks| && tasks[k].id == id;
      assert updated[k].id == id;
    }
    forall j, k | 0 <= j < k < |updated| ensures updated[j].id != updated[k].id {
      assert tasks[j].id != tasks[k].id;
    }
  }

  lemma ChildOk(id: Id, parent: Frame, taskId: Id, budget: Budget, policy: Policy)
    requires parent.level in {1, 2} && FrameOk(parent.level, parent, BudgetOf(policy, parent.level))
    requires PolicyShape(policy) && budget == BudgetOf(policy, parent.level + 1)
    requires parent.chain.revision >= 1
    ensures FrameOk(parent.level + 1, ChildFrame(id, parent, taskId, budget), budget)
    ensures OwnIds(ChildFrame(id, parent, taskId, budget)) == {id}
  {
  }

  /** The parent's plan once its first waiting task runs. */
  function Dispatched(chain: Chain, i: nat): Chain
    requires i < |chain.tasks|
  {
    Chain(chain.target, chain.revision, chain.tasks[i := chain.tasks[i].(state := Running)],
          Executing, Some(chain.tasks[i].id), None)
  }

  lemma DispatchedFrame(frame: Frame, budget: Budget, i: nat)
    requires FrameOk(frame.level, frame, budget) && frame.chain.phase.Planning? && i < |frame.chain.tasks|
    ensures var g := frame.(chain := Dispatched(frame.chain, i));
            FrameOk(frame.level, g, budget) && OwnIds(g) == OwnIds(frame) && g.chain.revision >= 1
  {
    FirstWaitingRuns(frame.chain.tasks, i);
  }

  lemma AdvanceValue(d: Draft, frame: Frame)
    requires AdvanceDecision(d, frame).Success?
    requires frame.level in {1, 2, 3}
    ensures var i := FirstWaiting(frame.chain.tasks);
            && frame.chain.phase.Planning? && i < |frame.chain.tasks|
            && var g := frame.(chain := Dispatched(frame.chain, i));
               var put := ReplaceFrame(d.state.context, g);
               && put.Success?
               && AdvanceDecision(d, frame).value == d.(next := d.next + 1, state := d.state.(context :=
                    if frame.level == 3 then put.value
                    else WithChild(put.value, ChildFrame(d.next, frame, frame.chain.tasks[i].id,
                                                         BudgetOf(d.state.policy, frame.level + 1)))))
  {
    var i := FirstWaiting(frame.chain.tasks);
    var g := frame.(chain := Dispatched(frame.chain, i));
    assert SetChain(frame, g.chain) == Success(g);
  }

  lemma AdvancedContext(c: Context, p: Policy, frame: Frame, next: Id)
    requires ContextOk(c, p) && IdsBelow(c, next) && PolicyShape(p) && frame == Active(c)
    requires frame.chain.phase.Planning? && FirstWaiting(frame.chain.tasks) < |frame.chain.tasks|
    requires frame.level < 3
    ensures var i := FirstWaiting(frame.chain.tasks);
            var g := frame.(chain := Dispatched(frame.chain, i));
            var child := ChildFrame(next, frame, frame.chain.tasks[i].id, BudgetOf(p, frame.level + 1));
            && ReplaceFrame(c, g).Success?
            && var r := WithChild(ReplaceFrame(c, g).value, child);
               ContextOk(r, p) && IdsBelow(r, next + 1) && (forall n :: RevisionsWithin(c, n) ==> RevisionsWithin(r, n))
  {
    var i := FirstWaiting(frame.chain.tasks);
    ActiveShape(c, p);
    DispatchedFrame(frame, frame.budget, i);
    var g := frame.(chain := Dispatched(frame.chain, i));
    var taskId := frame.chain.tasks[i].id;
    var budget := BudgetOf(p, frame.level + 1);
    ChildOk(next, g, taskId, budget, p);
    assert ChildFrame(next, g, taskId, budget) == ChildFrame(next, frame, taskId, budget);
    AdvancedStack(c, p, g, ChildFrame(next, g, taskId, budget), next);
  }

  lemma AdvanceKeeps(size: Sizes, before: Draft, d: Draft, frame: Frame)
    requires Recorded(size, before, d, frame)
    requires AdvanceDecision(d, frame).Success?
    ensures StepKept(size, before, AdvanceDecision(d, frame).value)
  {
    ActiveShape(d.state.context, before.state.policy);
    if frame.level == 3 {
      LeafAdvanceKeeps(size, before, d, frame);
    } else {
      AdvanceValue(d, frame);
      AdvancedContext(d.state.context, before.state.policy, frame, d.next);
      KeptWithout(size, before, AdvanceDecision(d, frame).value);
    }
  }

  /** The third level has no children: it works on the task itself. */
  lemma LeafAdvanceKeeps(size: Sizes, before: Draft, d: Draft, frame: Frame)
    requires Recorded(size, before, d, frame) && frame.level == 3
    requires AdvanceDecision(d, frame).Success?
    ensures StepKept(size, before, AdvanceDecision(d, frame).value)
  {
    ActiveShape(d.state.context, before.state.policy);
    AdvanceValue(d, frame);
    var i := FirstWaiting(frame.chain.tasks);
    DispatchedFrame(frame, frame.budget, i);
    PutActive(d, d, frame.(chain := Dispatched(frame.chain, i)));
    KeptWithout(size, before, AdvanceDecision(d, frame).value);
  }

  /** Task `i`, the first that waited, is now the plan's only running one; nothing else of the plan has changed. */
  predicate Dispatches(frame: Frame, after: Frame, i: nat) {
    && i < |frame.chain.tasks| && frame.chain.tasks[i].state.Waiting?
    && (forall j :: 0 <= j < i ==> !frame.chain.tasks[j].state.Waiting?)
    && after.id == frame.id && after.level == frame.level && after.work == frame.work && after.memory == frame.memory
    && after.chain.revision == frame.chain.revision && after.chain.phase.Executing?
    && after.chain.currentTaskId == Some(frame.chain.tasks[i].id)
    && |after.chain.tasks| == |frame.chain.tasks| && RunsOnly(after.chain.tasks, frame.chain.tasks[i].id)
    && after.chain.tasks[i].id == frame.chain.tasks[i].id
       && after.chain.tasks[i].objective == frame.chain.tasks[i].objective
    && (forall j :: 0 <= j < |frame.chain.tasks| && j != i ==> after.chain.tasks[j] == frame.chain.tasks[j])
  }

  /**
   * A child one level below, for task `i` at its parent's revision: it inherits memory but no lessons, and has no plan.
   */
  predicate ChildFor(frame: Frame, child: Frame, i: nat) {
    && i < |frame.chain.tasks| && child.level == frame.level + 1
    && child.work == TaskOf(frame.id, frame.chain.revision, frame.chain.tasks[i].id)
    && child.chain.phase.Planning? && child.chain.tasks == [] && child.chain.revision == 0
    && child.memory.summary == frame.memory.summary && child.memory.recentEntries == frame.memory.recentEntries
    && child.memory.historyRef == frame.memory.historyRef && child.memory.lessons == []
  }

  lemma DispatchedDispatches(frame: Frame, i: nat)
    requires FrameOk(frame.level, frame, frame.budget) && frame.chain.phase.Planning?
    requires i == FirstWaiting(frame.chain.tasks) && i < |frame.chain.tasks|
    ensures Dispatches(frame, frame.(chain := Dispatched(frame.chain, i)), i)
  {
    FirstWaitingRuns(frame.chain.tasks, i);
  }

  /** Task `i` runs: above the third level in a child of its own, there in place. */
  predicate Advanced(frame: Frame, c: Context, i: nat) {
    && 1 <= frame.level <= |Frames(c)| && Dispatches(frame, Frames(c)[frame.level - 1], i)
    && (if frame.level == 3 then Active(c) == Frames(c)[frame.level - 1] else ChildFor(frame, Active(c), i))
  }

  lemma AdvancedFrames(c: Context, p: Policy, frame: Frame, g: Frame, child: Frame)
    requires ContextOk(c, p) && frame == Active(c) && g.level == frame.level && child.level == frame.level + 1
    ensures var put := ReplaceFrame(c, g).value;
            var after := if frame.level == 3 then put else WithChild(put, child);
            && ReplaceFrame(c, g).Success? && 1 <= frame.level <= |Frames(after)| && Frames(after)[frame.level - 1] == g
            && Active(after) == if frame.level == 3 then g else child
  {
    ActiveShape(c, p);
  }

  /** What advancing means: the first waiting task runs in a child of its own, or at the third level in place. */
  lemma AdvanceMeans(size: Sizes, before: Draft, d: Draft, frame: Frame)
    requires Recorded(size, before, d, frame) && AdvanceDecision(d, frame).Success?
    ensures exists i :: Advanced(frame, AdvanceDecision(d, frame).value.state.context, i)
  {
    ActiveShape(d.state.context, before.state.policy);
    AdvanceValue(d, frame);
    var i := FirstWaiting(frame.chain.tasks);
    DispatchedDispatches(frame, i);
    var child := ChildFrame(d.next, frame, frame.chain.tasks[i].id, BudgetOf(d.state.policy, frame.level + 1));
    AdvancedFrames(d.state.context, before.state.policy, frame, frame.(chain := Dispatched(frame.chain, i)), child);
    assert Advanced(frame, AdvanceDecision(d, frame).value.state.context, i);
  }

  function WithChild(c: Context, child: Frame): Context {
    if child.level == 2 then c.(level2 := Some(child), level3 := None) else c.(level3 := Some(child))
  }

  lemma AdvancedStack(c: Context, p: Policy, g: Frame, child: Frame, next: Id)
    requires ContextOk(c, p) && IdsBelow(c, next)
    requires Active(c).level < 3 && g.level == Active(c).level
    requires FrameOk(g.level, g, Active(c).budget) && g.id == Active(c).id && g.work == Active(c).work
    requires OwnIds(g) == OwnIds(Active(c)) && g.chain.phase.Executing?
    requires child.level == g.level + 1 && FrameOk(child.level, child, BudgetOf(p, child.level))
    requires Delegated(g, child) && OwnIds(child) == {next} && child.chain.phase.Planning?
    ensures ReplaceFrame(c, g).Success?
    ensures var r := WithChild(ReplaceFrame(c, g).value, child); ContextOk(r, p) && IdsBelow(r, next + 1)
  {
    ActiveShape(c, p);
  }

  lemma FinishTasksRules(tasks: seq<Task>, id: Id, state: TaskState)
    requires TasksShape(tasks) && DistinctTasks(tasks) && RunsOnly(tasks, id)
    requires state.Completed? || state.Interrupted?
    requires StateShape(state)
    ensures var r := FinishTasks(tasks, id, state);
            TasksShape(r) && DistinctTasks(r) && NoneRuns(r) && TaskIds(r) == TaskIds(tasks)
  {
    var r := FinishTasks(tasks, id, state);
    forall k | k in TaskIds(tasks) ensures k in TaskIds(r) {
      var i :| 0 <= i < |tasks| && tasks[i].id == k;
      assert r[i].id == k;
    }
    forall i, j | 0 <= i < j < |r| ensures r[i].id != r[j].id {
      assert tasks[i].id != tasks[j].id;
    }
  }

  /** The frame once its current step is done. */
  function Stepped(frame: Frame, result: Summary): Frame
    requires frame.chain.currentTaskId.Some?
  {
    var chain := frame.chain;
    var tasks := FinishTasks(chain.tasks, chain.currentTaskId.value, Completed(result));
    frame.(chain := Chain(chain.target, chain.revision, tasks, Planning, None, None))
  }

  lemma SteppedFrame(frame: Frame, budget: Budget, result: Summary)
    requires FrameOk(frame.level, frame, budget) && frame.level == 3 && frame.chain.phase.Executing?
             && SummaryShape(result)
    ensures frame.chain.currentTaskId.Some?
    ensures FrameOk(frame.level, Stepped(frame, result), budget) && OwnIds(Stepped(frame, result)) == OwnIds(frame)
    ensures Substitute(frame, Stepped(frame, result), 0)
            && Stepped(frame, result).chain.revision == frame.chain.revision
  {
    FinishTasksRules(frame.chain.tasks, frame.chain.currentTaskId.value, Completed(result));
  }

  lemma StepValue(d: Draft, frame: Frame, result: Summary)
    requires frame.chain.currentTaskId.Some? && StepDecision(d, frame, result).Success?
    ensures StepDecision(d, frame, result) == WithActive(d, Stepped(frame, result))
  {
  }

  lemma StepKeeps(size: Sizes, before: Draft, d: Draft, frame: Frame, result: Summary)
    requires Recorded(size, before, d, frame)
    requires StepDecision(d, frame, result).Success?
    ensures StepKept(size, before, StepDecision(d, frame, result).value)
  {
    ActiveShape(d.state.context, before.state.policy);
    SteppedFrame(frame, frame.budget, result);
    StepValue(d, frame, result);
    PutActive(d, d, Stepped(frame, result));
    KeptWithout(size, before, StepDecision(d, frame, result).value);
  }

  predicate Schedules(decision: Decision) {
    decision.DecideInterrupt? || decision.DecideComplete? || decision.DecideCompact? || decision.DecideIdle?
  }

  /** The decisions that seal the context for a summary. */
  lemma SchedulingKeepsStructure(size: Sizes, before: Draft, decision: Decision, entries: seq<Entry>)
    requires DraftOk(size, before) && before.state.pending.None? && Schedules(decision)
    requires AfterDecision(before, decision, entries).Success?
    ensures StepKept(size, before, AfterDecision(before, decision, entries).value)
  {
    EntriesAppended(before, entries);
    var d := WithEntries(before, entries).value;
    var frame := AppendEntries(Active(before.state.context), entries);
    match decision
    case DecideInterrupt(reason) => ScheduleKeeps(size, before, d, Interrupt, reason);
    case DecideComplete => ScheduleKeeps(size, before, d, Complete, "");
    case DecideCompact => ScheduleKeeps(size, before, d, Compact, "");
    case DecideIdle => ScheduleKeeps(size, before, d, Idle, "");
  }

  /** These decisions change no plan. */
  lemma RestingKeeps(size: Sizes, before: Draft, decision: Decision, entries: seq<Entry>)
    requires DraftOk(size, before) && before.state.pending.None?
    requires decision.DecideFinishTurn? || decision.DecideContinue? || decision.DecideWait?
    requires AfterDecision(before, decision, entries).Success?
    ensures StepKept(size, before, AfterDecision(before, decision, entries).value)
  {
    EntriesAppended(before, entries);
    KeptWithout(size, before, AfterDecision(before, decision, entries).value);
  }

  /** A decision on a structured context that does not throw leaves a structured one. */
  lemma DecisionKeepsStructure(size: Sizes, before: Draft, decision: Decision, entries: seq<Entry>)
    requires DraftOk(size, before) && before.state.pending.None?
    requires AfterDecision(before, decision, entries).Success?
    ensures StepKept(size, before, AfterDecision(before, decision, entries).value)
  {
    if Schedules(decision) {
      SchedulingKeepsStructure(size, before, decision, entries);
    } else {
      EntriesAppended(before, entries);
      var d := WithEntries(before, entries).value;
      var frame := AppendEntries(Active(before.state.context), entries);
      match decision
      case DecidePlan(objectives) => PlanKeeps(size, before, d, frame, objectives);
      case DecideReplan(objectives, reason) => ReplanKeeps(size, before, d, frame, objectives, reason);
      case DecideAdvance => AdvanceKeeps(size, before, d, frame);
      case DecideStepCompleted(result) => StepKeeps(size, before, d, frame, result);
      case DecideFinishTurn => RestingKeeps(size, before, decision, entries);
      case DecideContinue => RestingKeeps(size, before, decision, entries);
      case DecideWait => RestingKeeps(size, before, decision, entries);
    }
  }

  // ---- drains ----

  lemma {:induction false} WithoutMembers(inbox: seq<Delivery>, key: string)
    ensures |Without(inbox, key)| <= |inbox|
    ensures forall d :: d in Without(inbox, key) <==> d in inbox && d.key != key
  {
    if |inbox| > 0 {
      WithoutMembers(inbox[1..], key);
      assert inbox == [inbox[0]] + inbox[1..];
    }
  }

  lemma {:induction false} WithoutDistinct(inbox: seq<Delivery>, key: string)
    requires DistinctKeys(inbox)
    ensures DistinctKeys(Without(inbox, key))
  {
    if |inbox| > 0 {
      var rest := Without(inbox[1..], key);
      WithoutDistinct(inbox[1..], key);
      WithoutMembers(inbox[1..], key);
      forall j | 0 <= j < |rest| ensures rest[j].key != inbox[0].key {
        assert rest[j] in inbox[1..];
      }
    }
  }

  lemma WithoutKeeps(size: Sizes, inbox: seq<Delivery>, key: string, p: Policy)
    requires InboxOk(size, inbox, p)
    ensures InboxOk(size, Without(inbox, key), p)
  {
    WithoutMembers(inbox, key);
    WithoutDistinct(inbox, key);
    var kept := Without(inbox, key);
    forall i | 0 <= i < |kept| ensures DeliveryShape(kept[i]) && size.delivery(kept[i]) <= p.maxDeliveryBytes {
      assert kept[i] in kept;
    }
  }

  /** What a drain keeps while it runs. */
  predicate Draining(size: Sizes, before: Draft, d: Draft) {
    && DraftOk(size, before) && before.state.pending.None?
    && StackKept(before, d)
    && RevisionsWithin(d.state.context, before.state.revision)
    && InboxOk(size, d.state.inbox, d.state.policy)
    && d.state.pending.None?
    && d.writes == before.writes
  }

  lemma AbsorbKeeps(size: Sizes, before: Draft, d: Draft, delivery: Delivery)
    requires Draining(size, before, d) && !Waits(d.state.context, delivery)
    requires DeliveryShape(delivery)
    ensures Receiver(d.state.context, delivery) == Active(d.state.context)
    ensures var updated := AppendEntries(Active(d.state.context), Absorbed(d.state.context, delivery, d.next));
            && ReplaceFrame(d.state.context, updated).Success?
            && Draining(size, before, Absorb(d, delivery, ReplaceFrame(d.state.context, updated).value))
  {
    var c := d.state.context;
    var policy := d.state.policy;
    ActiveShape(c, policy);
    ReceiverIsActive(c, policy, delivery);
    var entries := Absorbed(c, delivery, d.next);
    assert Text("stale_context_input") by {
      assert "stale_context_input"[0] == 's' && !IsSpace('s');
    }
    AppendKeeps(Active(c), entries);
    var updated := AppendEntries(Active(c), entries);
    ReplaceActive(c, policy, updated, d.next, d.next);
    WithoutKeeps(size, d.state.inbox, delivery.key, policy);
  }

  lemma ReceiverIsActive(c: Context, p: Policy, delivery: Delivery)
    requires ContextOk(c, p) && !Waits(c, delivery)
    ensures Receiver(c, delivery) == Active(c)
  {
    var f := Receiver(c, delivery);
    assert f in Frames(c);
    assert f.id in OwnIds(f) && Active(c).id in OwnIds(Active(c));
  }

  lemma DrainSchedules(size: Sizes, before: Draft, d: Draft)
    requires Draining(size, before, d)
    ensures AfterSchedule(d, Compact, "").Success? ==> StepKept(size, before, AfterSchedule(d, Compact, "").value)
  {
    if AfterSchedule(d, Compact, "").Success? {
      ScheduleKeeps(size, before, d, Compact, "");
    }
  }

  /** A delivery that ends a drain leaves the frame to be compacted, before or after absorbing it. */
  lemma FullSchedules(size: Sizes, d: Draft, delivery: Delivery)
    requires !Waits(d.state.context, delivery) && Receiver(d.state.context, delivery) == Active(d.state.context)
    requires Deliver(size, d, delivery).End? && Deliver(size, d, delivery).result.Success?
    ensures var c := d.state.context;
            var updated := AppendEntries(Active(c), Absorbed(c, delivery, d.next));
            if size.frame(updated) > Active(c).budget.maxTokens then
              Deliver(size, d, delivery).result ==
                AfterSchedule(d.(next := d.next + NoticesDrawn(c, delivery)), Compact, "")
            else
              && ReplaceFrame(c, updated).Success?
              && Deliver(size, d, delivery).result ==
                   AfterSchedule(Absorb(d, delivery, ReplaceFrame(c, updated).value), Compact, "")
  {
  }

  lemma EndSchedules(size: Sizes, before: Draft, d: Draft, delivery: Delivery) returns (x: Draft)
    requires Draining(size, before, d) && DeliveryShape(delivery)
    requires Deliver(size, d, delivery).End? && Deliver(size, d, delivery).result.Success?
    ensures Draining(size, before, x) && Deliver(size, d, delivery).result == AfterSchedule(x, Compact, "")
  {
    var c := d.state.context;
    AbsorbKeeps(size, before, d, delivery);
    FullSchedules(size, d, delivery);
    var updated := AppendEntries(Active(c), Absorbed(c, delivery, d.next));
    if size.frame(updated) > Active(c).budget.maxTokens {
      x := d.(next := d.next + NoticesDrawn(c, delivery));
    } else {
      x := Absorb(d, delivery, ReplaceFrame(c, updated).value);
    }
  }

  lemma DeliverGoes(size: Sizes, before: Draft, d: Draft, delivery: Delivery)
    requires Draining(size, before, d) && DeliveryShape(delivery)
    requires Deliver(size, d, delivery).Go?
    ensures Draining(size, before, Deliver(size, d, delivery).draft)
  {
    if !Waits(d.state.context, delivery) {
      AbsorbKeeps(size, before, d, delivery);
    }
  }

  lemma DeliverKeeps(size: Sizes, before: Draft, d: Draft, delivery: Delivery)
    requires Draining(size, before, d) && DeliveryShape(delivery)
    ensures match Deliver(size, d, delivery)
            case Go(next) => Draining(size, before, next)
            case End(result) => result.Success? ==> StepKept(size, before, result.value)
  {
    match Deliver(size, d, delivery)
    case Go(_) => DeliverGoes(size, before, d, delivery);
    case End(result) =>
      if result.Success? {
        var x := EndSchedules(size, before, d, delivery);
        DrainSchedules(size, before, x);
      }
  }

  lemma {:induction false} DrainFromKeeps(size: Sizes, before: Draft, d: Draft, rest: seq<Delivery>)
    requires Draining(size, before, d)
    requires forall i :: 0 <= i < |rest| ==> DeliveryShape(rest[i])
    ensures DrainFrom(size, d, rest).Success? ==> StepKept(size, before, DrainFrom(size, d, rest).value)
    decreases |rest|
  {
    if |rest| == 0 {
      DrainSchedules(size, before, d);
    } else {
      DeliverKeeps(size, before, d, rest[0]);
      match Deliver(size, d, rest[0])
      case Go(next) => DrainFromKeeps(size, before, next, rest[1..]);
      case End(result) =>
    }
  }

  /** A drain that does not throw leaves a structured checkpoint, whatever the inbox held. */
  lemma DrainKeepsStructure(size: Sizes, before: Draft)
    requires DraftOk(size, before) && before.state.pending.None?
    requires AfterDrain(size, before).Success?
    ensures StepKept(size, before, AfterDrain(size, before).value)
  {
    DrainFromKeeps(size, before, before, before.state.inbox);
  }

  // ---- integrating a summary ----

  lemma CompactTaskShape(size: Sizes, t: Task, sealed: Token)
    requires TaskShape(t) && TokenText(sealed)
    ensures TaskShape(CompactTask(size, t, sealed))
    ensures CompactTask(size, t, sealed).id == t.id
    ensures CompactTask(size, t, sealed).state.Running? == t.state.Running?
    ensures Unfinished(CompactTask(size, t, sealed)) == Unfinished(t)
  {
    match t.state
    case Completed(result) => CompactResultShape(size, result, sealed);
    case Interrupted(_, Some(partial)) => CompactResultShape(size, partial, sealed);
    case _ =>
  }

  lemma CompactResultShape(size: Sizes, result: Summary, sealed: Token)
    requires SummaryShape(result) && TokenText(sealed)
    ensures SummaryShape(CompactResult(size, result, sealed))
  {
    if size.summary(result) > 1024 && |result.outcome| > 160 {
      var outcome := CompactResult(size, result, sealed).outcome;
      assert outcome[160] == '…' && !IsSpace(outcome[160]);
    }
  }

  lemma CompactTasksRules(size: Sizes, tasks: seq<Task>, sealed: Token)
    requires TasksShape(tasks) && DistinctTasks(tasks) && TokenText(sealed)
    ensures var r := CompactTasks(size, tasks, sealed);
            && TasksShape(r) && DistinctTasks(r) && TaskIds(r) == TaskIds(tasks)
            && (NoneRuns(tasks) ==> NoneRuns(r))
            && (forall id :: RunsOnly(tasks, id) ==> RunsOnly(r, id))
  {
    var r := CompactTasks(size, tasks, sealed);
    forall i | 0 <= i < |tasks|
      ensures TaskShape(r[i]) && r[i].id == tasks[i].id && r[i].state.Running? == tasks[i].state.Running? {
      CompactTaskShape(size, tasks[i], sealed);
    }
    forall id | id in TaskIds(tasks) ensures id in TaskIds(r) {
      var i :| 0 <= i < |tasks| && tasks[i].id == id;
      assert r[i].id == id;
    }
    forall id | RunsOnly(tasks, id) ensures RunsOnly(r, id) {
      var i :| 0 <= i < |tasks| && tasks[i].id == id;
      assert r[i].id == id;
    }
    forall i, j | 0 <= i < j < |r| ensures r[i].id != r[j].id {
      assert tasks[i].id != tasks[j].id;
    }
  }

  lemma CompactedFrameOk(size: Sizes, f: Frame, budget: Budget, summary: Summary, historyRef: Token, sealed: Token)
    requires FrameOk(f.level, f, budget) && SummaryShape(summary)
    requires TokenText(historyRef) && TokenText(sealed)
    ensures CompactedFrame(size, f, summary, historyRef, sealed).Success?
    ensures var g := CompactedFrame(size, f, summary, historyRef, sealed).value;
            && FrameOk(f.level, g, budget)
            && g.id == f.id && g.work == f.work && OwnIds(g) <= OwnIds(f)
            && g.chain.revision == f.chain.revision
            && (f.chain.phase.Planning? ==> g.chain.phase.Planning?)
  {
    CompactTasksRules(size, f.chain.tasks, sealed);
    var chain := CompactChain(size, f, sealed);
    assert SetChain(f, chain) == Success(f.(chain := chain));
  }

  lemma ReleasedOk(c: Context, p: Policy, pending: Pending, summary: Summary, next: Id)
    requires ContextOk(c, p) && IdsBelow(c, next)
    requires SummaryShape(summary) && (pending.purpose.Interrupt? ==> Text(pending.reason))
    requires pending.purpose.Complete? || pending.purpose.Interrupt?
    requires Active(c).level != 1
    ensures Released(c, pending, summary).Success?
    ensures var r := Released(c, pending, summary).value;
            ContextOk(r, p) && IdsBelow(r, next) && (forall n :: RevisionsWithin(c, n) ==> RevisionsWithin(r, n))
  {
    ActiveShape(c, p);
    var frame := Active(c);
    if frame.level == 2 {
      var root := SettledParent(c.level1, p.budget1, frame.work.taskId, FinishedState(pending, summary));
      assert Released(c, pending, summary) == Success(Context(root, None, None));
    } else {
      var middle := SettledParent(c.level2.value, p.budget2, frame.work.taskId, FinishedState(pending, summary));
      assert Released(c, pending, summary) == Success(Context(c.level1, Some(middle), None));
    }
  }

  /** The parent once its running task has ended: the same identities, planning again. */
  lemma SettledParent(parent: Frame, budget: Budget, taskId: Id, state: TaskState) returns (settled: Frame)
    requires FrameOk(parent.level, parent, budget) && parent.chain.phase.Executing? && parent.level < 3
    requires parent.chain.currentTaskId == Some(taskId)
    requires (state.Completed? || state.Interrupted?) && StateShape(state)
    ensures StillRuns(parent.chain.tasks, taskId)
    ensures SetChain(parent, SettledChain(parent.chain, taskId, state)) == Success(settled)
    ensures FrameOk(parent.level, settled, budget) && OwnIds(settled) == OwnIds(parent)
    ensures settled.id == parent.id && settled.work == parent.work
    ensures settled.chain.revision == parent.chain.revision && settled.chain.phase.Planning?
  {
    FinishTasksRules(parent.chain.tasks, taskId, state);
    settled := parent.(chain := SettledChain(parent.chain, taskId, state));
  }

  lemma CompactedFits(size: Sizes, c: Context, p: Policy, summary: Summary, ref: Token, sealed: Token, next: Id)
    requires ContextOk(c, p) && IdsBelow(c, next) && SummaryShape(summary) && TokenText(ref) && TokenText(sealed)
    ensures CompactedFrame(size, Active(c), summary, ref, sealed).Success?
    ensures var r := ReplaceFrame(c, CompactedFrame(size, Active(c), summary, ref, sealed).value);
            && r.Success? && ContextOk(r.value, p) && IdsBelow(r.value, next + 1)
            && (forall n :: RevisionsWithin(c, n) ==> RevisionsWithin(r.value, n))
  {
    ActiveShape(c, p);
    CompactedFrameOk(size, Active(c), Active(c).budget, summary, ref, sealed);
    ReplaceActive(c, p, CompactedFrame(size, Active(c), summary, ref, sealed).value, next, next + 1);
  }

  /** Either way of folding a summary back leaves a well-formed stack. */
  lemma FoldedOk(size: Sizes, s: Checkpoint, summary: Summary, ref: Token, next: Id)
    requires Structured(size, s) && PendingText(s) && InterruptExplained(s) && s.pending.Some?
    requires IdsBelow(s.context, next) && SummaryShape(summary) && TokenText(ref)
    ensures var p := s.pending.value;
            var compacted := CompactedFrame(size, Active(s.context), summary, ref, p.sourceRef);
            && compacted.Success?
            && var r := Folded(s.context, p, compacted.value, summary);
               && r.Success? && ContextOk(r.value, s.policy) && IdsBelow(r.value, next + 1)
               && (forall n :: RevisionsWithin(s.context, n) ==> RevisionsWithin(r.value, n))
  {
    var p := s.pending.value;
    CompactedFits(size, s.context, s.policy, summary, ref, p.sourceRef, next);
    if !p.purpose.Compact? && !p.purpose.Idle? {
      ReleasedOk(s.context, s.policy, p, summary, next + 1);
    }
  }

  /** What a successful integration was given, and what it leaves. */
  lemma IntegrateValue(size: Sizes, d: Draft, id: Id, summary: Summary)
    requires AfterIntegrate(size, d, id, summary).Success?
    ensures d.state.pending.Some? && SummaryShape(summary)
    ensures var p := d.state.pending.value;
            var ref := SummaryRef(d.next);
            var compacted := CompactedFrame(size, Active(d.state.context), summary, ref, p.sourceRef);
            && compacted.Success? && Folded(d.state.context, p, compacted.value, summary).Success?
            && var after := AfterIntegrate(size, d, id, summary).value;
               && after.writes == d.writes + [Write(ref, SummaryRecord(p.sourceRef, summary))]
               && after.next == d.next + 1
               && after.state == d.state.(context := Folded(d.state.context, p, compacted.value, summary).value,
                                          pending := None, runnable := after.state.runnable)
  {
  }

  /** Folding a summary back leaves a structured checkpoint; a released child's parent is planning again. */
  lemma IntegrateKeepsStructure(size: Sizes, before: Draft, id: Id, summary: Summary)
    requires DraftOk(size, before) && PendingText(before.state)
    requires AfterIntegrate(size, before, id, summary).Success?
    ensures StepKept(size, before, AfterIntegrate(size, before, id, summary).value)
    ensures AfterIntegrate(size, before, id, summary).value.state.pending.None?
  {
    IntegrateValue(size, before, id, summary);
    FoldedOk(size, before.state, summary, SummaryRef(before.next), before.next);
    var after := AfterIntegrate(size, before, id, summary).value;
    OneFreshWrite(before, after, after.writes[|before.writes|]);
    KeptWithout(size, before, after);
  }
}
