/** What makes a checkpoint valid: field shapes, the structure of the stack, the capacity limits. */
module ContextRules {
  // `ContextCheckpoint` holds the loops that check these rules on untrusted data.

  import opened Basics
  import opened ContextModel

  // ---- field shapes ----

  predicate Texts(ss: seq<string>) {
    forall i :: 0 <= i < |ss| ==> Text(ss[i])
  }

  predicate RefsText(rs: seq<Token>) {
    forall i :: 0 <= i < |rs| ==> TokenText(rs[i])
  }

  predicate ObservationShape(o: Observation) {
    Text(o.statement) && RefsText(o.sourceRefs) && (o.fact ==> |o.sourceRefs| > 0)
  }

  predicate LessonShape(l: Lesson) {
    Text(l.statement) && Text(l.scope) && RefsText(l.sourceRefs)
  }

  predicate LessonsShape(ls: seq<Lesson>) {
    forall i :: 0 <= i < |ls| ==> LessonShape(ls[i])
  }

  predicate SummaryShape(s: Summary) {
    && Text(s.outcome)
    && Texts(s.decisions) && Texts(s.unresolved) && Texts(s.nextResponsibilities)
    && RefsText(s.artifactRefs) && RefsText(s.sourceRefs)
    && (forall i :: 0 <= i < |s.observations| ==> ObservationShape(s.observations[i]))
    && LessonsShape(s.lessonCandidates)
  }

  predicate RefsWithin(rs: seq<Token>, allowed: set<Token>) {
    forall i :: 0 <= i < |rs| ==> rs[i] in allowed
  }

  /** Every reference a summary makes, at any depth, is one of the allowed ones. */
  predicate SummaryWithin(s: Summary, allowed: set<Token>) {
    && RefsWithin(s.sourceRefs, allowed)
    && RefsWithin(s.artifactRefs, allowed)
    && (forall i :: 0 <= i < |s.observations| ==> RefsWithin(s.observations[i].sourceRefs, allowed))
    && (forall i :: 0 <= i < |s.lessonCandidates| ==> RefsWithin(s.lessonCandidates[i].sourceRefs, allowed))
  }

  predicate EntryShape(e: Entry) {
    && TokenText(e.id)
    && e.createdAt <= MAX_SAFE_INTEGER
    && match e.kind
       case Message(_, content, attachments) => Text(content) && RefsText(attachments)
       case Event(name, _) => Text(name)
       case ToolCall(callId, toolName, _) => Text(callId) && Text(toolName)
       case ToolResult(callId, toolName, _) => Text(callId) && Text(toolName)
       case Observed(o) => ObservationShape(o)
  }

  predicate EntriesShape(es: seq<Entry>) {
    forall i :: 0 <= i < |es| ==> EntryShape(es[i])
  }

  predicate DeliveryShape(d: Delivery) {
    && Text(d.key)
    && (d.target.Some? ==> d.target.value.planRevision <= MAX_SAFE_INTEGER)
    && |d.entries| > 0
    && EntriesShape(d.entries)
  }

  predicate BudgetShape(b: Budget) {
    && 1 <= b.targetTokens < b.compactAtTokens < b.maxTokens <= MAX_SAFE_INTEGER
    && 1 <= b.maxTasks <= MAX_SAFE_INTEGER
  }

  predicate PolicyShape(p: Policy) {
    && BudgetShape(p.budget1) && BudgetShape(p.budget2) && BudgetShape(p.budget3)
    && 1 <= p.maxSummaryAttempts <= MAX_SAFE_INTEGER
    && 1 <= p.maxInbox <= MAX_SAFE_INTEGER
    && 1 <= p.maxDeliveryBytes <= MAX_SAFE_INTEGER
  }

  predicate StateShape(s: TaskState) {
    match s
    case Completed(result) => SummaryShape(result)
    case Interrupted(reason, partial) => Text(reason) && (partial.Some? ==> SummaryShape(partial.value))
    case _ => true
  }

  predicate TaskShape(t: Task) {
    Text(t.objective) && StateShape(t.state)
  }

  predicate MemoryShape(m: Memory) {
    && (m.summary.Some? ==> SummaryShape(m.summary.value))
    && LessonsShape(m.lessons)
    && EntriesShape(m.recentEntries)
    && (m.historyRef.Some? ==> TokenText(m.historyRef.value))
  }

  // ---- one frame ----

  function TaskIds(tasks: seq<Task>): set<Id> {
    set i | 0 <= i < |tasks| :: tasks[i].id
  }

  predicate DistinctTasks(tasks: seq<Task>) {
    forall i, j :: 0 <= i < j < |tasks| ==> tasks[i].id != tasks[j].id
  }

  predicate TasksShape(tasks: seq<Task>) {
    forall i :: 0 <= i < |tasks| ==> TaskShape(tasks[i])
  }

  predicate NoneRuns(tasks: seq<Task>) {
    forall i :: 0 <= i < |tasks| ==> !tasks[i].state.Running?
  }

  /** The task with this identity is in the plan, and it is the only one that runs. */
  predicate RunsOnly(tasks: seq<Task>, id: Id) {
    && (exists i :: 0 <= i < |tasks| && tasks[i].id == id)
    && (forall i :: 0 <= i < |tasks| ==> (tasks[i].state.Running? <==> tasks[i].id == id))
  }

  predicate PhaseOk(chain: Chain) {
    match chain.phase
    case Executing => chain.currentTaskId.Some? && RunsOnly(chain.tasks, chain.currentTaskId.value)
    case Planning => chain.currentTaskId.None? && NoneRuns(chain.tasks)
  }

  predicate ChainOk(level: nat, chain: Chain) {
    && chain.target == TargetOf(level)
    && chain.revision <= MAX_SAFE_INTEGER
    && TasksShape(chain.tasks)
    && DistinctTasks(chain.tasks)
    && (chain.revision > 0 || |chain.tasks| == 0)
    && PhaseOk(chain)
    && (chain.replan.Some? ==>
          chain.phase.Planning? && Text(chain.replan.value.reason) && TokenText(chain.replan.value.previousPlanRef))
  }

  predicate WorkOk(level: nat, work: Assignment) {
    if level == 1 then work.RootDuty? && Text(work.objective)
    else work.TaskOf? && 1 <= work.planRevision <= MAX_SAFE_INTEGER
  }

  /** The identities a frame introduces: its own, its root duty's, and its tasks'. */
  function OwnIds(f: Frame): set<Id> {
    {f.id} + (if f.work.RootDuty? then {f.work.dutyId} else {}) + TaskIds(f.chain.tasks)
  }

  predicate OwnIdsDistinct(f: Frame) {
    && f.id !in TaskIds(f.chain.tasks)
    && (f.work.RootDuty? ==> f.work.dutyId != f.id && f.work.dutyId !in TaskIds(f.chain.tasks))
    && DistinctTasks(f.chain.tasks)
  }

  predicate FrameOk(level: nat, f: Frame, budget: Budget) {
    && f.level == level
    && f.budget == budget
    && WorkOk(level, f.work)
    && Texts(f.instructions)
    && MemoryShape(f.memory)
    && ChainOk(level, f.chain)
    && OwnIdsDistinct(f)
  }

  // ---- the stack of frames ----

  /** The child names the sole running task of its parent, at the parent's current plan revision. */
  predicate Delegated(parent: Frame, child: Frame) {
    && child.work.TaskOf?
    && parent.id == child.work.frameId
    && parent.chain.revision == child.work.planRevision
    && parent.chain.phase.Executing?
    && parent.chain.currentTaskId == Some(child.work.taskId)
  }

  predicate StackOk(c: Context) {
    && (c.level3.Some? ==> c.level2.Some?)
    && (c.level1.chain.phase.Executing? <==> c.level2.Some?)
    && (c.level2.Some? ==>
          && Delegated(c.level1, c.level2.value)
          && OwnIds(c.level1) !! OwnIds(c.level2.value)
          && (c.level2.value.chain.phase.Executing? <==> c.level3.Some?))
    && (c.level3.Some? ==>
          && Delegated(c.level2.value, c.level3.value)
          && OwnIds(c.level1) !! OwnIds(c.level3.value)
          && OwnIds(c.level2.value) !! OwnIds(c.level3.value))
  }

  predicate ContextOk(c: Context, p: Policy) {
    && FrameOk(1, c.level1, p.budget1)
    && (c.level2.Some? ==> FrameOk(2, c.level2.value, p.budget2))
    && (c.level3.Some? ==> FrameOk(3, c.level3.value, p.budget3))
    && StackOk(c)
  }

  predicate InboxOk(size: Sizes, inbox: seq<Delivery>, p: Policy) {
    && |inbox| <= p.maxInbox
    && (forall i :: 0 <= i < |inbox| ==> DeliveryShape(inbox[i]) && size.delivery(inbox[i]) <= p.maxDeliveryBytes)
    && DistinctKeys(inbox)
  }

  predicate DistinctKeys(inbox: seq<Delivery>) {
    forall i, j :: 0 <= i < j < |inbox| ==> inbox[i].key != inbox[j].key
  }

  /** What a pending summary fixes: the sealed frame, its source, and a purpose that the frame allows. */
  predicate PendingStructure(s: Checkpoint) {
    s.pending.Some? ==>
      var p := s.pending.value;
      var frame := Active(s.context);
      && AtCursor(frame, Cursor(p.frameId, p.planRevision))
      && p.sourceRef in p.allowedRefs
      && p.attempts <= s.policy.maxSummaryAttempts
      && s.runnable
      && (p.purpose.Idle? ==> frame.level == 1)
      && (p.purpose.Complete? || p.purpose.Interrupt? ==> frame.level != 1)
      && (p.purpose.Complete? || p.purpose.Idle? ==> Settled(frame.chain.tasks))
  }

  /** The strings a pending summary carries over from entries and from error messages are not blank. */
  predicate PendingText(s: Checkpoint) {
    s.pending.Some? ==>
      && (forall r :: r in s.pending.value.allowedRefs ==> TokenText(r))
      && (s.pending.value.lastError.Some? ==> Text(s.pending.value.lastError.value))
  }

  predicate FrameFits(size: Sizes, f: Frame) {
    size.frame(f) <= f.budget.maxTokens && |f.chain.tasks| <= f.budget.maxTasks
  }

  /** Every live frame is within its hard budget. */
  predicate Fits(size: Sizes, c: Context) {
    forall i :: 0 <= i < |Frames(c)| ==> FrameFits(size, Frames(c)[i])
  }

  /** The structural rules: everything but the blank-string checks of a pending summary and the capacities. */
  predicate Structured(size: Sizes, s: Checkpoint) {
    && s.revision <= MAX_SAFE_INTEGER
    && PolicyShape(s.policy)
    && InboxOk(size, s.inbox, s.policy)
    && ContextOk(s.context, s.policy)
    && PendingStructure(s)
  }

  predicate Valid(size: Sizes, s: Checkpoint) {
    Structured(size, s) && PendingText(s) && Fits(size, s.context)
  }

  /** What the validator answers once the structure is known to hold. */
  function Verdict(size: Sizes, s: Checkpoint): Option<Error> {
    if !Fits(size, s.context) then Some(BudgetExceeded)
    else if !PendingText(s) then Some(InvalidInput)
    else None
  }
}
