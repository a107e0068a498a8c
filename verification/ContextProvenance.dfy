/** Every reference that a live frame or a pending summary can cite was published or came with an input. */
module ContextProvenance {
  import opened Basics
  import opened ContextModel
  import opened ContextRules
  import opened ContextSummaries
  import opened ContextTasks
  import opened ContextInbox
  import opened ContextStore
  import opened ContextStructure
  import opened ContextWorld
  import opened ContextInvariant
  import opened ContextConservation

  // ---- sources of parts ----

  lemma {:induction false} ObservationsRefsWithin(os: seq<Observation>, known: set<Token>)
    requires forall i :: 0 <= i < |os| ==> RefsWithin(os[i].sourceRefs, known)
    ensures ObservationsRefs(os) <= known
  {
    if |os| > 0 {
      ObservationsRefsWithin(os[..|os| - 1], known);
    }
  }

  lemma {:induction false} LessonsRefsWithin(ls: seq<Lesson>, known: set<Token>)
    requires forall i :: 0 <= i < |ls| ==> RefsWithin(ls[i].sourceRefs, known)
    ensures LessonsRefs(ls) <= known
  {
    if |ls| > 0 {
      LessonsRefsWithin(ls[..|ls| - 1], known);
    }
  }

  lemma SummaryRefsWithin(s: Summary, known: set<Token>)
    requires SummaryWithin(s, known)
    ensures SummaryRefs(s) <= known
  {
    ObservationsRefsWithin(s.observations, known);
    LessonsRefsWithin(s.lessonCandidates, known);
  }

  lemma {:induction false} EntriesRefsConcat(a: seq<Entry>, b: seq<Entry>)
    ensures EntriesRefs(a + b) == EntriesRefs(a) + EntriesRefs(b)
  {
    if |b| == 0 {
      assert a + b == a;
    } else {
      assert (a + b)[..|a + b| - 1] == a + b[..|b| - 1];
      EntriesRefsConcat(a, b[..|b| - 1]);
    }
  }

  lemma {:induction false} TasksRefsMember(tasks: seq<Task>)
    ensures forall t :: t in TasksRefs(tasks) <==> exists i :: 0 <= i < |tasks| && t in TaskRefs(tasks[i])
  {
    if |tasks| > 0 {
      TasksRefsMember(tasks[..|tasks| - 1]);
    }
  }

  lemma TasksRefsWithin(tasks: seq<Task>, known: set<Token>)
    requires forall i :: 0 <= i < |tasks| ==> TaskRefs(tasks[i]) <= known
    ensures TasksRefs(tasks) <= known
  {
    TasksRefsMember(tasks);
  }

  lemma TaskRefsIn(tasks: seq<Task>, i: nat)
    requires i < |tasks|
    ensures TaskRefs(tasks[i]) <= TasksRefs(tasks)
  {
    TasksRefsMember(tasks);
  }

  /** Every live frame cites only known references. */
  predicate FramesTraced(c: Context, known: set<Token>) {
    && SourceRefs(c.level1) <= known
    && (c.level2.Some? ==> SourceRefs(c.level2.value) <= known)
    && (c.level3.Some? ==> SourceRefs(c.level3.value) <= known)
  }

  predicate PendingTraced(p: Option<Pending>, known: set<Token>) {
    p.Some? ==> p.value.allowedRefs <= known
  }

  /** The references of everything a draft is about to publish. */
  predicate WritesKnown(d: Draft, known: set<Token>) {
    forall i :: 0 <= i < |d.writes| ==> d.writes[i].ref in known
  }

  lemma AppendTraced(f: Frame, entries: seq<Entry>)
    ensures SourceRefs(AppendEntries(f, entries)) == SourceRefs(f) + EntriesRefs(entries)
  {
    EntriesRefsConcat(f.memory.recentEntries, entries);
  }

  lemma ReplaceTraced(c: Context, f: Frame, known: set<Token>)
    requires FramesTraced(c, known) && SourceRefs(f) <= known
    ensures ReplaceFrame(c, f).Success? ==> FramesTraced(ReplaceFrame(c, f).value, known)
  {
  }

  lemma ChainTraced(d: Draft, f: Frame, chain: Chain, known: set<Token>)
    requires FramesTraced(d.state.context, known)
    requires MemoryRefs(f.memory) <= known && TasksRefs(chain.tasks) <= known
    ensures WithChain(d, f, chain).Success? ==> FramesTraced(WithChain(d, f, chain).value.state.context, known)
  {
    if SetChain(f, chain).Success? {
      ReplaceTraced(d.state.context, f.(chain := chain), known);
    }
  }

  lemma ScheduleTraced(d: Draft, purpose: Purpose, reason: string, known: set<Token>)
    requires FramesTraced(d.state.context, known) && AfterSchedule(d, purpose, reason).Success?
    requires WritesKnown(AfterSchedule(d, purpose, reason).value, known)
    ensures var after := AfterSchedule(d, purpose, reason).value;
            FramesTraced(after.state.context, known) && PendingTraced(after.state.pending, known)
  {
    var after := AfterSchedule(d, purpose, reason).value;
    assert after.writes[|d.writes|].ref in known;
  }

  // ---- decisions ----

  lemma PlannedTraced(d: Draft, frame: Frame, objectives: seq<string>, replanReason: Option<string>, known: set<Token>)
    requires FramesTraced(d.state.context, known) && SourceRefs(frame) <= known
    requires Planned(d, frame, objectives, replanReason).Success?
    requires WritesKnown(Planned(d, frame, objectives, replanReason).value, known)
    ensures FramesTraced(Planned(d, frame, objectives, replanReason).value.state.context, known)
  {
    PlannedValue(d, frame, objectives, replanReason);
    var after := Planned(d, frame, objectives, replanReason).value;
    assert after.writes[|d.writes|].ref == HistoryRef(d.next);
    TasksRefsWithin(NewTasks(objectives, d.next + 1), {});
    ReplaceTraced(d.state.context, PlannedAs(frame, objectives, d.next, replanReason), known);
  }

  lemma GivenUpTraced(tasks: seq<Task>, reason: string)
    ensures TasksRefs(GiveUpAll(tasks, reason)) <= TasksRefs(tasks)
  {
    forall i | 0 <= i < |tasks| ensures TaskRefs(GiveUpAll(tasks, reason)[i]) <= TasksRefs(tasks) {
      TaskRefsIn(tasks, i);
    }
    TasksRefsWithin(GiveUpAll(tasks, reason), TasksRefs(tasks));
  }

  lemma ReplanTraced(d: Draft, frame: Frame, objectives: seq<string>, reason: string, known: set<Token>)
    requires FramesTraced(d.state.context, known) && SourceRefs(frame) <= known
    requires ReplanDecision(d, frame, objectives, reason).Success?
    requires WritesKnown(ReplanDecision(d, frame, objectives, reason).value, known)
    ensures FramesTraced(ReplanDecision(d, frame, objectives, reason).value.state.context, known)
  {
    var chain := Chain(frame.chain.target, frame.chain.revision, GiveUpAll(frame.chain.tasks, reason), Planning, None,
                       None);
    GivenUpTraced(frame.chain.tasks, reason);
    ChainTraced(d, frame, chain, known);
    PlannedTraced(WithChain(d, frame, chain).value, frame, objectives, Some(reason), known);
  }

  lemma DispatchedTraced(tasks: seq<Task>, i: nat)
    requires i < |tasks| && tasks[i].state.Waiting?
    ensures TasksRefs(tasks[i := tasks[i].(state := Running)]) <= TasksRefs(tasks)
  {
    var updated := tasks[i := tasks[i].(state := Running)];
    forall k | 0 <= k < |updated| ensures TaskRefs(updated[k]) <= TasksRefs(tasks) {
      TaskRefsIn(tasks, k);
    }
    TasksRefsWithin(updated, TasksRefs(tasks));
  }

  lemma AdvanceTraced(d: Draft, frame: Frame, known: set<Token>)
    requires FramesTraced(d.state.context, known) && SourceRefs(frame) <= known && frame.level in {1, 2, 3}
    requires AdvanceDecision(d, frame).Success?
    ensures FramesTraced(AdvanceDecision(d, frame).value.state.context, known)
  {
    AdvanceValue(d, frame);
    var i := FirstWaiting(frame.chain.tasks);
    DispatchedTraced(frame.chain.tasks, i);
    var g := frame.(chain := Dispatched(frame.chain, i));
    assert SourceRefs(g) <= known;
    ReplaceTraced(d.state.context, g, known);
    if frame.level < 3 {
      var child := ChildFrame(d.next, frame, frame.chain.tasks[i].id, BudgetOf(d.state.policy, frame.level + 1));
      assert MemoryRefs(child.memory) <= MemoryRefs(frame.memory);
      assert TasksRefs(child.chain.tasks) == {};
    }
  }

  lemma FinishedTraced(tasks: seq<Task>, id: Id, state: TaskState, known: set<Token>)
    requires TasksRefs(tasks) <= known
    requires TaskRefs(Task(0, "", state)) <= known
    ensures TasksRefs(FinishTasks(tasks, id, state)) <= known
  {
    var r := FinishTasks(tasks, id, state);
    forall k | 0 <= k < |r| ensures TaskRefs(r[k]) <= known {
      TaskRefsIn(tasks, k);
    }
    TasksRefsWithin(r, known);
  }

  lemma StepTraced(d: Draft, frame: Frame, result: Summary, known: set<Token>)
    requires FramesTraced(d.state.context, known) && SourceRefs(frame) <= known
    requires StepDecision(d, frame, result).Success?
    ensures FramesTraced(StepDecision(d, frame, result).value.state.context, known)
  {
    var chain := frame.chain;
    SummaryRefsWithin(result, SourceRefs(frame));
    if chain.currentTaskId.Some? {
      FinishedTraced(chain.tasks, chain.currentTaskId.value, Completed(result), known);
      ChainTraced(d, frame, Chain(chain.target, chain.revision,
        FinishTasks(chain.tasks, chain.currentTaskId.value, Completed(result)), Planning, None, None), known);
    } else {
      ChainTraced(d, frame, Chain(chain.target, chain.revision, chain.tasks, Planning, None, None), known);
    }
  }

  lemma RecordedTraced(before: Draft, entries: seq<Entry>, known: set<Token>)
    requires ContextOk(before.state.context, before.state.policy)
    requires FramesTraced(before.state.context, known) && EntriesRefs(entries) <= known && EntriesShape(entries)
    ensures var d := WithEntries(before, entries);
            && d.Success?
            && d.value.state.pending == before.state.pending
            && FramesTraced(d.value.state.context, known)
    ensures SourceRefs(AppendEntries(Active(before.state.context), entries)) <= known
    ensures Active(before.state.context).level in {1, 2, 3}
  {
    AppendTraced(Active(before.state.context), entries);
    ActiveShape(before.state.context, before.state.policy);
    ReplaceTraced(before.state.context, AppendEntries(Active(before.state.context), entries), known);
  }

  predicate Traced(d: Draft, known: set<Token>) {
    FramesTraced(d.state.context, known) && PendingTraced(d.state.pending, known)
  }

  lemma PlansTraced(d: Draft, frame: Frame, decision: Decision, known: set<Token>)
    requires FramesTraced(d.state.context, known) && SourceRefs(frame) <= known && d.state.pending.None?
    requires frame.level in {1, 2, 3}
    ensures match decision
            case DecidePlan(objectives) =>
              PlanDecision(d, frame, objectives).Success?
                && WritesKnown(PlanDecision(d, frame, objectives).value, known) ==>
                Traced(PlanDecision(d, frame, objectives).value, known)
            case DecideReplan(objectives, reason) =>
              ReplanDecision(d, frame, objectives, reason).Success?
              && WritesKnown(ReplanDecision(d, frame, objectives, reason).value, known) ==>
                Traced(ReplanDecision(d, frame, objectives, reason).value, known)
            case _ => true
  {
    match decision
    case DecidePlan(objectives) =>
      if PlanDecision(d, frame, objectives).Success? && WritesKnown(PlanDecision(d, frame, objectives).value, known) {
        PlannedTraced(d, frame, objectives, None, known);
      }
    case DecideReplan(objectives, reason) =>
      if ReplanDecision(d, frame, objectives, reason).Success?
         && WritesKnown(ReplanDecision(d, frame, objectives, reason).value, known) {
        ReplanTraced(d, frame, objectives, reason, known);
      }
    case _ =>
  }

  lemma WorksTraced(d: Draft, frame: Frame, decision: Decision, known: set<Token>)
    requires FramesTraced(d.state.context, known) && SourceRefs(frame) <= known && d.state.pending.None?
    requires frame.level in {1, 2, 3}
    ensures match decision
            case DecidePlan(objectives) =>
              PlanDecision(d, frame, objectives).Success?
                && WritesKnown(PlanDecision(d, frame, objectives).value, known) ==>
                Traced(PlanDecision(d, frame, objectives).value, known)
            case DecideReplan(objectives, reason) =>
              ReplanDecision(d, frame, objectives, reason).Success?
              && WritesKnown(ReplanDecision(d, frame, objectives, reason).value, known) ==>
                Traced(ReplanDecision(d, frame, objectives, reason).value, known)
            case DecideAdvance =>
              AdvanceDecision(d, frame).Success? ==> Traced(AdvanceDecision(d, frame).value, known)
            case DecideStepCompleted(result) =>
              StepDecision(d, frame, result).Success? ==> Traced(StepDecision(d, frame, result).value, known)
            case _ => true
  {
    match decision
    case DecideAdvance =>
      if AdvanceDecision(d, frame).Success? {
        AdvanceTraced(d, frame, known);
      }
    case DecideStepCompleted(result) =>
      if StepDecision(d, frame, result).Success? {
        StepTraced(d, frame, result, known);
      }
    case _ => PlansTraced(d, frame, decision, known);
  }

  lemma SchedulesTraced(d: Draft, purpose: Purpose, reason: string, known: set<Token>)
    requires FramesTraced(d.state.context, known)
    ensures AfterSchedule(d, purpose, reason).Success?
            && WritesKnown(AfterSchedule(d, purpose, reason).value, known) ==>
              Traced(AfterSchedule(d, purpose, reason).value, known)
  {
    if AfterSchedule(d, purpose, reason).Success? && WritesKnown(AfterSchedule(d, purpose, reason).value, known) {
      ScheduleTraced(d, purpose, reason, known);
    }
  }

  lemma DecisionTraced(before: Draft, decision: Decision, entries: seq<Entry>, known: set<Token>)
    requires ContextOk(before.state.context, before.state.policy) && before.state.pending.None?
    requires FramesTraced(before.state.context, known) && EntriesRefs(entries) <= known
    requires AfterDecision(before, decision, entries).Success?
    requires WritesKnown(AfterDecision(before, decision, entries).value, known)
    ensures Traced(AfterDecision(before, decision, entries).value, known)
  {
    if Schedules(decision) {
      SchedulingTraced(before, decision, entries, known);
    } else {
      var frame := AppendEntries(Active(before.state.context), entries);
      RecordedTraced(before, entries, known);
      WorksTraced(WithEntries(before, entries).value, frame, decision, known);
    }
  }

  function PurposeOf(decision: Decision): Purpose
    requires Schedules(decision)
  {
    if decision.DecideInterrupt? then Interrupt
    else if decision.DecideComplete? then Complete
    else if decision.DecideCompact? then Compact
    else Idle
  }

  function ReasonOf(decision: Decision): string {
    if decision.DecideInterrupt? then decision.reason else ""
  }

  lemma SchedulingValue(before: Draft, decision: Decision, entries: seq<Entry>)
    requires Schedules(decision) && AfterDecision(before, decision, entries).Success?
    ensures EntriesShape(entries) && WithEntries(before, entries).Success?
    ensures AfterDecision(before, decision, entries) ==
              AfterSchedule(WithEntries(before, entries).value, PurposeOf(decision), ReasonOf(decision))
  {
  }

  lemma SchedulingTraced(before: Draft, decision: Decision, entries: seq<Entry>, known: set<Token>)
    requires ContextOk(before.state.context, before.state.policy) && Schedules(decision)
    requires FramesTraced(before.state.context, known) && EntriesRefs(entries) <= known
    requires AfterDecision(before, decision, entries).Success?
    requires WritesKnown(AfterDecision(before, decision, entries).value, known)
    ensures Traced(AfterDecision(before, decision, entries).value, known)
  {
    SchedulingValue(before, decision, entries);
    RecordedTraced(before, entries, known);
    SchedulesTraced(WithEntries(before, entries).value, PurposeOf(decision), ReasonOf(decision), known);
  }

  // ---- drains ----

  lemma {:induction false} AbsorbedTraced(c: Context, ds: seq<Delivery>, next: Id, known: set<Token>)
    requires forall i :: 0 <= i < |ds| ==> EntriesRefs(ds[i].entries) <= known
    ensures EntriesRefs(AbsorbedAll(c, ds, next)) <= known
  {
    if |ds| > 0 {
      AbsorbedTraced(c, ds[1..], next + NoticesDrawn(c, ds[0]), known);
      EntriesRefsConcat(Absorbed(c, ds[0], next), AbsorbedAll(c, ds[1..], next + NoticesDrawn(c, ds[0])));
      if TargetFrame(c, ds[0]).None? {
        var notice := Absorbed(c, ds[0], next);
        assert notice[..0] == [];
        assert EntryRefs(notice[0]) == {};
      }
    }
  }

  lemma {:induction false} TakenMembers(size: Sizes, d: Draft, rest: seq<Delivery>)
    ensures forall x :: x in Taken(size, d, rest) ==> x in rest
    decreases |rest|
  {
    if |rest| > 0 {
      match Deliver(size, d, rest[0])
      case Go(next) => TakenMembers(size, next, rest[1..]);
      case End(_) =>
    }
  }

  lemma {:induction false} DrainPending(size: Sizes, d: Draft, rest: seq<Delivery>)
    requires d.state.pending.None? && DrainFrom(size, d, rest).Success?
    ensures var after := DrainFrom(size, d, rest).value;
            after.state.pending.Some? ==>
              && after.state.pending.value.allowedRefs ==
                 {after.state.pending.value.sourceRef} + SourceRefs(Active(after.state.context))
              && (exists w :: w in after.writes && w.ref == after.state.pending.value.sourceRef)
    decreases |rest|
  {
    if |rest| > 0 {
      DeliverPending(size, d, rest[0]);
      match Deliver(size, d, rest[0])
      case Go(next) => DrainPending(size, next, rest[1..]);
      case End(result) =>
    } else {
      ScheduleSeals(d);
    }
  }

  lemma ScheduleSeals(d: Draft)
    ensures AfterSchedule(d, Compact, "").Success? ==>
              var after := AfterSchedule(d, Compact, "").value;
              && after.state.pending.Some?
              && after.state.pending.value.allowedRefs ==
                 {after.state.pending.value.sourceRef} + SourceRefs(Active(after.state.context))
              && (exists w :: w in after.writes && w.ref == after.state.pending.value.sourceRef)
  {
    if AfterSchedule(d, Compact, "").Success? {
      var after := AfterSchedule(d, Compact, "").value;
      assert after.writes[|d.writes|] in after.writes;
    }
  }

  lemma DeliverPending(size: Sizes, d: Draft, delivery: Delivery)
    requires d.state.pending.None?
    ensures match Deliver(size, d, delivery)
            case Go(next) => next.state.pending.None?
            case End(result) => result.Success? ==>
              var after := result.value;
              && after.state.pending.Some?
              && after.state.pending.value.allowedRefs ==
                 {after.state.pending.value.sourceRef} + SourceRefs(Active(after.state.context))
              && (exists w :: w in after.writes && w.ref == after.state.pending.value.sourceRef)
  {
    var c := d.state.context;
    if !Waits(c, delivery) {
      var updated := AppendEntries(Receiver(c, delivery), Absorbed(c, delivery, d.next));
      if size.frame(updated) > Receiver(c, delivery).budget.maxTokens {
        ScheduleSeals(d.(next := d.next + NoticesDrawn(c, delivery)));
      } else if ReplaceFrame(c, updated).Success? {
        ScheduleSeals(Absorb(d, delivery, ReplaceFrame(c, updated).value));
      }
    }
  }

  lemma DrainTraced(size: Sizes, before: Draft, known: set<Token>)
    requires DraftOk(size, before) && before.state.pending.None? && before.writes == []
    requires FramesTraced(before.state.context, known)
    requires forall d :: d in before.state.inbox ==> EntriesRefs(d.entries) <= known
    requires AfterDrain(size, before).Success? && WritesKnown(AfterDrain(size, before).value, known)
    ensures var after := AfterDrain(size, before).value;
            FramesTraced(after.state.context, known) && PendingTraced(after.state.pending, known)
  {
    var inbox := before.state.inbox;
    var taken := Taken(size, before, inbox);
    DrainMoves(size, before, before, inbox);
    TakenMembers(size, before, inbox);
    AbsorbedTraced(before.state.context, taken, before.next, known);
    AppendTraced(Active(before.state.context), AbsorbedAll(before.state.context, taken, before.next));
    DrainPending(size, before, inbox);
  }

  // ---- integrating a summary ----

  lemma CompactTraced(size: Sizes, tasks: seq<Task>, sealed: Token)
    ensures TasksRefs(CompactTasks(size, tasks, sealed)) <= TasksRefs(tasks) + {sealed}
  {
    var r := CompactTasks(size, tasks, sealed);
    forall i | 0 <= i < |r| ensures TaskRefs(r[i]) <= TasksRefs(tasks) + {sealed} {
      TaskRefsIn(tasks, i);
      match tasks[i].state
      case Completed(result) => CompactResultRefs(size, result, sealed);
      case Interrupted(_, Some(partial)) => CompactResultRefs(size, partial, sealed);
      case _ =>
    }
    TasksRefsWithin(r, TasksRefs(tasks) + {sealed});
  }

  lemma CompactResultRefs(size: Sizes, s: Summary, sealed: Token)
    ensures SummaryRefs(CompactResult(size, s, sealed)) <= SummaryRefs(s) + {sealed}
  {
  }

  lemma CompactedTraced(size: Sizes, f: Frame, summary: Summary, historyRef: Token, sealed: Token, known: set<Token>)
    requires SourceRefs(f) <= known && SummaryRefs(summary) <= known && historyRef in known && sealed in known
    requires CompactedFrame(size, f, summary, historyRef, sealed).Success?
    ensures SourceRefs(CompactedFrame(size, f, summary, historyRef, sealed).value) <= known
  {
    CompactTraced(size, f.chain.tasks, sealed);
    assert EntriesRefs([]) == {};
  }

  lemma SettledTraced(parent: Frame, taskId: Id, state: TaskState, known: set<Token>)
    requires SourceRefs(parent) <= known && TaskRefs(Task(0, "", state)) <= known
    ensures SourceRefs(parent.(chain := SettledChain(parent.chain, taskId, state))) <= known
  {
    FinishedTraced(parent.chain.tasks, taskId, state, known);
  }

  lemma HandBackTraced(c: Context, level: nat, parent: Frame, known: set<Token>)
    requires FramesTraced(c, known) && SourceRefs(parent) <= known && HandBack(c, level, parent).Success?
    ensures FramesTraced(HandBack(c, level, parent).value, known)
  {
    ReplaceTraced(c, parent, known);
  }

  lemma ReleasedTraced(c: Context, p: Pending, summary: Summary, known: set<Token>)
    requires FramesTraced(c, known) && SummaryRefs(summary) <= known && Released(c, p, summary).Success?
    ensures FramesTraced(Released(c, p, summary).value, known)
  {
    var frame := Active(c);
    var parent := if frame.level == 2 then c.level1 else c.level2.value;
    var state := FinishedState(p, summary);
    SettledTraced(parent, frame.work.taskId, state, known);
    HandBackTraced(c, frame.level, parent.(chain := SettledChain(parent.chain, frame.work.taskId, state)), known);
  }

  lemma IntegrateTraced(size: Sizes, before: Draft, id: Id, summary: Summary, known: set<Token>)
    requires FramesTraced(before.state.context, known) && PendingTraced(before.state.pending, known)
    requires AfterIntegrate(size, before, id, summary).Success?
    requires WritesKnown(AfterIntegrate(size, before, id, summary).value, known)
    ensures var after := AfterIntegrate(size, before, id, summary).value;
            FramesTraced(after.state.context, known) && after.state.pending.None?
  {
    var p := before.state.pending.value;
    var c := before.state.context;
    SummaryRefsWithin(summary, p.allowedRefs);
    var after := AfterIntegrate(size, before, id, summary).value;
    assert after.writes[|before.writes|].ref == SummaryRef(before.next);
    if p.purpose.Compact? || p.purpose.Idle? {
      CompactedTraced(size, Active(c), summary, SummaryRef(before.next), p.sourceRef, known);
      ReplaceTraced(c, CompactedFrame(size, Active(c), summary, SummaryRef(before.next), p.sourceRef).value, known);
    } else {
      ReleasedTraced(c, p, summary, known);
    }
  }

  // ---- whole runs ----

  function DeliveriesRefs(ds: seq<Delivery>): set<Token> {
    set i, t | 0 <= i < |ds| && t in EntriesRefs(ds[i].entries) :: t
  }

  /** The deliveries that nobody has received before. */
  function New(size: Sizes, w: World, ds: seq<Delivery>): seq<Delivery> {
    var unseen := Unreceived(size, w, [], ds);
    if unseen.Success? then unseen.value else []
  }

  /** The references of what an operation accepts from outside: new deliveries with room, entries of a new round. */
  function Contributed(size: Sizes, w: World, op: Op): set<Token> {
    if After(size, w, op).Failure? then {}
    else
      match op
      case Apply(round, _, _, entries) => if RoundDone(round) in w.receipts then {} else EntriesRefs(entries)
      case Receive(ds) => DeliveriesRefs(New(size, w, ds))
      case ReceiveAvailable(ds) => DeliveriesRefs(Prefix(New(size, w, ds), Available(w.state)))
      case _ => {}
  }

  function RunContributed(size: Sizes, w: World, ops: seq<Op>): set<Token>
    decreases |ops|
  {
    if |ops| == 0 then {}
    else Contributed(size, w, ops[0]) + RunContributed(size, Step(size, w, ops[0]), ops[1..])
  }

  /** Frames, pending summary and inbox cite nothing beyond the published records and the contributed references. */
  predicate Closed(w: World, contributed: set<Token>) {
    var known := w.records.Keys + contributed;
    && FramesTraced(w.state.context, known)
    && PendingTraced(w.state.pending, known)
    && (forall d :: d in w.state.inbox ==> EntriesRefs(d.entries) <= known)
  }

  lemma PublicationClosed(size: Sizes, w: World, d: Draft, keys: seq<ReceiptKey>, contributed: set<Token>)
    requires Published(size, w, d, keys).Success?
    ensures var after := Published(size, w, d, keys).value;
            && w.records.Keys <= after.records.Keys
            && WritesKnown(d, after.records.Keys)
            && after.state == d.state.(revision := d.state.revision + 1)
  {
    PublishMeaning(w.records, d.writes);
  }

  lemma TracedMore(d: Draft, known: set<Token>, more: set<Token>)
    requires Traced(d, known) && known <= more
    ensures Traced(d, more)
  {
  }

  lemma ApplyClosed(size: Sizes, w: World, round: string, cursor: Cursor, decision: Decision, entries: seq<Entry>,
                    contributed: set<Token>)
    requires Inv(size, w) && Closed(w, contributed)
    requires Contributed(size, w, Apply(round, cursor, decision, entries)) <= contributed
    requires AfterApply(size, w, round, cursor, decision, entries).Success?
    ensures Closed(AfterApply(size, w, round, cursor, decision, entries).value, contributed)
  {
    if RoundDone(round) !in w.receipts {
      DecisionWrites(size, w, decision, entries);
      DecisionClosed(size, w, AfterDecision(DraftOf(w), decision, entries).value, round, decision, entries,
                     contributed);
    }
  }

  lemma DecisionClosed(size: Sizes, w: World, d: Draft, round: string, decision: Decision, entries: seq<Entry>,
                       contributed: set<Token>)
    requires Inv(size, w) && Closed(w, contributed) && EntriesRefs(entries) <= contributed && w.state.pending.None?
    requires AfterDecision(DraftOf(w), decision, entries) == Success(d) && d.state.inbox == w.state.inbox
    requires Published(size, w, Archive(d).0, [RoundDone(round)]).Success?
    ensures Closed(Published(size, w, Archive(d).0, [RoundDone(round)]).value, contributed)
  {
    var after := Published(size, w, Archive(d).0, [RoundDone(round)]).value;
    PublicationClosed(size, w, Archive(d).0, [RoundDone(round)], contributed);
    ArchiveKnown(d, after.records.Keys);
    var known := after.records.Keys + contributed;
    TracedMore(DraftOf(w), w.records.Keys + contributed, known);
    KnownMore(d, after.records.Keys, known);
    DecisionTraced(DraftOf(w), decision, entries, known);
  }

  lemma ArchiveKnown(d: Draft, known: set<Token>)
    requires WritesKnown(Archive(d).0, known)
    ensures WritesKnown(d, known)
  {
    assert forall i :: 0 <= i < |d.writes| ==> d.writes[i] == Archive(d).0.writes[i];
  }

  lemma KnownMore(d: Draft, known: set<Token>, more: set<Token>)
    requires WritesKnown(d, known) && known <= more
    ensures WritesKnown(d, more)
  {
  }

  lemma PrepareClosed(size: Sizes, w: World, contributed: set<Token>)
    requires Inv(size, w) && Closed(w, contributed) && AfterPrepare(size, w).Success?
    ensures Closed(AfterPrepare(size, w).value, contributed)
  {
    if w.state.pending.None? {
      var d := AfterDrain(size, DraftOf(w)).value;
      DrainWrites(size, DraftOf(w), w.state.inbox);
      PublicationClosed(size, w, d, [], contributed);
      var known := AfterPrepare(size, w).value.records.Keys + contributed;
      TracedMore(DraftOf(w), w.records.Keys + contributed, known);
      DrainTraced(size, DraftOf(w), known);
    }
  }

  lemma SummaryClosed(size: Sizes, w: World, id: Id, summary: Summary, keys: seq<ReceiptKey>, contributed: set<Token>)
    requires Inv(size, w) && Closed(w, contributed) && AfterIntegrate(size, DraftOf(w), id, summary).Success?
    requires Published(size, w, AfterIntegrate(size, DraftOf(w), id, summary).value, keys).Success?
    ensures Closed(Published(size, w, AfterIntegrate(size, DraftOf(w), id, summary).value, keys).value, contributed)
  {
    var d := AfterIntegrate(size, DraftOf(w), id, summary).value;
    IntegrateWrites(size, w, id, summary);
    PublicationClosed(size, w, d, keys, contributed);
    var known := Published(size, w, d, keys).value.records.Keys + contributed;
    TracedMore(DraftOf(w), w.records.Keys + contributed, known);
    IntegrateTraced(size, DraftOf(w), id, summary, known);
  }

  lemma {:induction false} UnreceivedMembers(size: Sizes, w: World, acc: seq<Delivery>, ds: seq<Delivery>)
    requires Unreceived(size, w, acc, ds).Success?
    ensures forall d :: d in Unreceived(size, w, acc, ds).value ==> d in acc || d in ds
    decreases |ds|
  {
    if |ds| > 0 {
      if FindKey(acc, ds[0].key).Some? || InputRef(ds[0].key) in w.records {
        UnreceivedMembers(size, w, acc, ds[1..]);
      } else {
        UnreceivedMembers(size, w, acc + [ds[0]], ds[1..]);
      }
    }
  }

  lemma AcceptClosed(size: Sizes, w: World, ds: seq<Delivery>, contributed: set<Token>)
    requires Closed(w, contributed)
    requires forall d :: d in ds ==> EntriesRefs(d.entries) <= contributed
    requires Accepted(size, w, ds).Success?
    ensures Closed(Accepted(size, w, ds).value, contributed)
  {
    if |ds| > 0 {
      PublicationClosed(size, w,
        Draft(w.state.(inbox := w.state.inbox + ds, runnable := true), HistoryWrites(ds), w.next), [], contributed);
    }
  }

  lemma AcceptedClosed(size: Sizes, w: World, ds: seq<Delivery>, contributed: set<Token>)
    requires Closed(w, contributed) && DeliveriesRefs(ds) <= contributed
    ensures Accepted(size, w, ds).Success? ==> Closed(Accepted(size, w, ds).value, contributed)
  {
    forall d | d in ds ensures EntriesRefs(d.entries) <= contributed {
      var i :| 0 <= i < |ds| && ds[i] == d;
      assert forall t :: t in EntriesRefs(ds[i].entries) ==> t in DeliveriesRefs(ds);
    }
    if Accepted(size, w, ds).Success? {
      AcceptClosed(size, w, ds, contributed);
    }
  }

  lemma ReceiveClosed(size: Sizes, w: World, ds: seq<Delivery>, contributed: set<Token>)
    requires Closed(w, contributed) && Contributed(size, w, Receive(ds)) <= contributed
    ensures AfterReceive(size, w, ds).Success? ==> Closed(AfterReceive(size, w, ds).value, contributed)
  {
    if AfterReceive(size, w, ds).Success? {
      AcceptedClosed(size, w, New(size, w, ds), contributed);
    }
  }

  lemma ReceiveAvailableClosed(size: Sizes, w: World, ds: seq<Delivery>, contributed: set<Token>)
    requires Closed(w, contributed) && Contributed(size, w, ReceiveAvailable(ds)) <= contributed
    ensures AfterReceiveAvailable(size, w, ds).Success? ==>
              Closed(AfterReceiveAvailable(size, w, ds).value, contributed)
  {
    if AfterReceiveAvailable(size, w, ds).Success? {
      AcceptedClosed(size, w, Prefix(New(size, w, ds), Available(w.state)), contributed);
    }
  }

  lemma TouchClosed(size: Sizes, w: World, p: Pending, contributed: set<Token>)
    requires Closed(w, contributed) && w.state.pending.Some? && p.allowedRefs == w.state.pending.value.allowedRefs
    ensures Published(size, w, WithPending(w, p), []).Success? ==>
              Closed(Published(size, w, WithPending(w, p), []).value, contributed)
  {
    if Published(size, w, WithPending(w, p), []).Success? {
      PublicationClosed(size, w, WithPending(w, p), [], contributed);
    }
  }

  lemma BudgetClosed(size: Sizes, w: World, b: Budget, contributed: set<Token>)
    requires Closed(w, contributed) && Published(size, w, BudgetDraft(w, b), []).Success?
    ensures Closed(Published(size, w, BudgetDraft(w, b), []).value, contributed)
  {
    var d := BudgetDraft(w, b);
    PublicationClosed(size, w, d, [], contributed);
    if w.state.pending.Some? {
      assert d.writes[0].ref == d.state.pending.value.sourceRef;
    }
  }

  lemma BeginClosed(size: Sizes, w: World, contributed: set<Token>)
    requires Inv(size, w) && Closed(w, contributed) && AfterBeginAttempt(size, w).Success?
    ensures Closed(AfterBeginAttempt(size, w).value, contributed)
  {
    TouchClosed(size, w, w.state.pending.value.(attempts := w.state.pending.value.attempts + 1), contributed);
  }

  lemma FailClosed(size: Sizes, w: World, id: Id, message: string, contributed: set<Token>)
    requires Inv(size, w) && Closed(w, contributed) && AfterFail(size, w, id, message).Success?
    ensures Closed(AfterFail(size, w, id, message).value, contributed)
  {
    TouchClosed(size, w, w.state.pending.value.(lastError := Some(ErrorText(message))), contributed);
  }

  lemma PhaseClosed(size: Sizes, w: World, round: string, id: Id, summary: Summary, contributed: set<Token>)
    requires Inv(size, w) && Closed(w, contributed)
    ensures var r := AfterSummaryPhase(size, w, round, id, summary); r.Success? ==> Closed(r.value, contributed)
  {
    if AfterSummaryPhase(size, w, round, id, summary).Success? && SummaryDone(id) !in w.receipts {
      SummaryClosed(size, w, id, summary, PhaseKeys(w, round, id), contributed);
    }
  }

  lemma CommitClosed(size: Sizes, w: World, round: string, id: Id, summary: Summary, contributed: set<Token>)
    requires Inv(size, w) && Closed(w, contributed)
    ensures var r := AfterCommitSummary(size, w, round, id, summary); r.Success? ==> Closed(r.value, contributed)
  {
    if AfterCommitSummary(size, w, round, id, summary).Success? && RoundDone(round) !in w.receipts {
      SummaryClosed(size, w, id, summary, [RoundDone(round)], contributed);
    }
  }

  lemma AcknowledgeClosed(size: Sizes, w: World, round: string, contributed: set<Token>)
    requires Inv(size, w) && Closed(w, contributed)
    ensures var r := AfterAcknowledge(size, w, round); r.Success? ==> Closed(r.value, contributed)
  {
    if AfterAcknowledge(size, w, round).Success? && RoundDone(round) !in w.receipts {
      PublicationClosed(size, w, DraftOf(w), [RoundDone(round)], contributed);
    }
  }

  lemma ConfigureClosed(size: Sizes, w: World, b: Budget, contributed: set<Token>)
    requires Inv(size, w) && Closed(w, contributed)
    ensures var r := AfterConfigureBudget(size, w, b); r.Success? ==> Closed(r.value, contributed)
  {
    var r := AfterConfigureBudget(size, w, b);
    if r.Success? && r.value != w {
      BudgetClosed(size, w, b, contributed);
    }
  }

  lemma StepClosed(size: Sizes, w: World, op: Op, contributed: set<Token>)
    requires Inv(size, w) && Closed(w, contributed) && Contributed(size, w, op) <= contributed
    ensures Closed(Step(size, w, op), contributed)
  {
    if After(size, w, op).Success? {
      match op
      case Receive(ds) => ReceiveClosed(size, w, ds, contributed);
      case ReceiveAvailable(ds) => ReceiveAvailableClosed(size, w, ds, contributed);
      case Prepare => PrepareClosed(size, w, contributed);
      case Apply(round, cursor, decision, entries) =>
        ApplyClosed(size, w, round, cursor, decision, entries, contributed);
      case BeginAttempt => BeginClosed(size, w, contributed);
      case RetrySummary => TouchClosed(size, w, w.state.pending.value.(attempts := 0), contributed);
      case FailSummary(id, message) => FailClosed(size, w, id, message, contributed);
      case SummaryPhase(round, id, summary) => PhaseClosed(size, w, round, id, summary, contributed);
      case Acknowledge(round) => AcknowledgeClosed(size, w, round, contributed);
      case CommitSummary(round, id, summary) => CommitClosed(size, w, round, id, summary, contributed);
      case ConfigureBudget(b) => ConfigureClosed(size, w, b, contributed);
    }
  }

  lemma ClosedMore(w: World, contributed: set<Token>, more: set<Token>)
    requires Closed(w, contributed) && contributed <= more
    ensures Closed(w, more)
  {
  }

  /** Over any run, no live frame and no pending summary ever cites a reference out of nowhere. */
  lemma {:induction false} RunClosed(size: Sizes, w: World, ops: seq<Op>, contributed: set<Token>)
    requires Inv(size, w) && Closed(w, contributed)
    ensures Closed(Run(size, w, ops), contributed + RunContributed(size, w, ops))
    decreases |ops|
  {
    if |ops| > 0 {
      var more := contributed + Contributed(size, w, ops[0]);
      ClosedMore(w, contributed, more);
      StepClosed(size, w, ops[0], more);
      StepKeepsInv(size, w, ops[0]);
      RunClosed(size, Step(size, w, ops[0]), ops[1..], more);
      assert more + RunContributed(size, Step(size, w, ops[0]), ops[1..]) == contributed + RunContributed(size, w, ops);
    } else {
      assert contributed + {} == contributed;
    }
  }

  lemma CreatedClosed(size: Sizes, next: Id, policy: Policy, instructions: seq<string>, objective: string, idle: bool)
    requires Created(size, next, policy, instructions, objective, idle).Success?
    ensures Closed(Created(size, next, policy, instructions, objective, idle).value, {})
  {
  }
}
