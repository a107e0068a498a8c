/** Sealing a frame for summary, collecting its sources, folding a finished summary back. */
module ContextSummaries {
  import opened Basics
  import opened ContextModel
  import opened ContextRules

  /** The mutable draft that one transaction changes; it is published only as a whole. */
  class Mutation {
    var state: Checkpoint
    var writes: seq<Write>
    var next: Id

    constructor (state: Checkpoint, next: Id)
      ensures Value() == Draft(state, [], next)
    {
      this.state, writes, this.next := state, [], next;
    }

    function Value(): Draft
      reads this
    {
      Draft(state, writes, next)
    }

    /** Appends the live context to the history. */
    method ArchiveContext() returns (ref: Token)
      modifies this
      ensures (Value(), ref) == Archive(old(Value()))
    {
      ref := HistoryRef(next);
      writes := writes + [Write(ref, FrameRecord(state.context))];
      next := next + 1;
    }
  }

  /** A step that throws leaves an error; one that returns leaves the draft its specification names. */
  predicate Agrees(error: Option<Error>, after: Draft, expected: Result<Draft, Error>) {
    match expected
    case Success(d) => error.None? && after == d
    case Failure(e) => error == Some(e)
  }

  // ---- sources ----

  function TokensOf(rs: seq<Token>): set<Token> {
    set r | r in rs
  }

  function ObservationsRefs(os: seq<Observation>): set<Token> {
    if |os| == 0 then {} else ObservationsRefs(os[..|os| - 1]) + TokensOf(os[|os| - 1].sourceRefs)
  }

  function LessonsRefs(ls: seq<Lesson>): set<Token> {
    if |ls| == 0 then {} else LessonsRefs(ls[..|ls| - 1]) + TokensOf(ls[|ls| - 1].sourceRefs)
  }

  function SummaryRefs(s: Summary): set<Token> {
    TokensOf(s.sourceRefs) + TokensOf(s.artifactRefs) + ObservationsRefs(s.observations)
    + LessonsRefs(s.lessonCandidates)
  }

  function TaskRefs(t: Task): set<Token> {
    match t.state
    case Completed(result) => SummaryRefs(result)
    case Interrupted(_, Some(partial)) => SummaryRefs(partial)
    case _ => {}
  }

  function TasksRefs(tasks: seq<Task>): set<Token> {
    if |tasks| == 0 then {} else TasksRefs(tasks[..|tasks| - 1]) + TaskRefs(tasks[|tasks| - 1])
  }

  function MessageIds(items: seq<Payload>): set<Token> {
    if |items| == 0 then {} else MessageIds(items[..|items| - 1]) + MessageId(items[|items| - 1])
  }

  function MessageId(item: Payload): set<Token> {
    if item.Fields? && "messageId" in item.fields && item.fields["messageId"].Word?
    then {item.fields["messageId"].token} else {}
  }

  /** The references one recorded entry puts at the agent's disposal. */
  function EntryRefs(e: Entry): set<Token> {
    match e.kind
    case Message(_, _, attachments) => TokensOf(attachments)
    case Observed(o) => TokensOf(o.sourceRefs)
    case Event(name, data) =>
      if name == "conversation_message" then {e.id}
      else if name == "artifact_page" && data.Fields? && "ref" in data.fields && data.fields["ref"].Word? then
        {data.fields["ref"].token}
      else if name == "conversation_read" && data.Fields? && "messages" in data.fields
           && data.fields["messages"].Items? then
        MessageIds(data.fields["messages"].items)
      else {}
    case _ => {}
  }

  function EntriesRefs(es: seq<Entry>): set<Token> {
    if |es| == 0 then {} else EntriesRefs(es[..|es| - 1]) + EntryRefs(es[|es| - 1])
  }

  function OptionalRef(r: Option<Token>): set<Token> {
    if r.Some? then {r.value} else {}
  }

  function OptionalSummaryRefs(s: Option<Summary>): set<Token> {
    if s.Some? then SummaryRefs(s.value) else {}
  }

  function MemoryRefs(m: Memory): set<Token> {
    OptionalRef(m.historyRef) + OptionalSummaryRefs(m.summary) + LessonsRefs(m.lessons) + EntriesRefs(m.recentEntries)
  }

  /** Every reference that a summary of this frame may use. */
  function SourceRefs(f: Frame): set<Token> {
    MemoryRefs(f.memory) + TasksRefs(f.chain.tasks)
  }

  method AddSummary(s: Summary, start: set<Token>) returns (refs: set<Token>)
    ensures refs == start + SummaryRefs(s)
  {
    refs := start + TokensOf(s.sourceRefs) + TokensOf(s.artifactRefs);
    ghost var base := refs;
    for i := 0 to |s.observations|
      invariant refs == base + ObservationsRefs(s.observations[..i])
    {
      assert s.observations[..i + 1][..i] == s.observations[..i];
      refs := refs + TokensOf(s.observations[i].sourceRefs);
    }
    assert s.observations[..|s.observations|] == s.observations;
    refs := AddLessons(s.lessonCandidates, refs);
  }

  method AddLessons(ls: seq<Lesson>, start: set<Token>) returns (refs: set<Token>)
    ensures refs == start + LessonsRefs(ls)
  {
    refs := start;
    for i := 0 to |ls|
      invariant refs == start + LessonsRefs(ls[..i])
    {
      assert ls[..i + 1][..i] == ls[..i];
      refs := refs + TokensOf(ls[i].sourceRefs);
    }
    assert ls[..|ls|] == ls;
  }

  method AddTasks(tasks: seq<Task>, start: set<Token>) returns (refs: set<Token>)
    ensures refs == start + TasksRefs(tasks)
  {
    refs := start;
    for i := 0 to |tasks|
      invariant refs == start + TasksRefs(tasks[..i])
    {
      assert tasks[..i + 1][..i] == tasks[..i];
      match tasks[i].state {
        case Completed(result) => refs := AddSummary(result, refs);
        case Interrupted(_, Some(partial)) => refs := AddSummary(partial, refs);
        case _ =>
      }
    }
    assert tasks[..|tasks|] == tasks;
  }

  method AddEntry(e: Entry, start: set<Token>) returns (refs: set<Token>)
    ensures refs == start + EntryRefs(e)
  {
    refs := start;
    match e.kind {
      case Message(_, _, attachments) => refs := refs + TokensOf(attachments);
      case Observed(o) => refs := refs + TokensOf(o.sourceRefs);
      case Event(name, data) =>
        if name == "conversation_message" {
          refs := refs + {e.id};
        }
        if name == "artifact_page" && data.Fields? && "ref" in data.fields && data.fields["ref"].Word? {
          refs := refs + {data.fields["ref"].token};
        }
        if name == "conversation_read" && data.Fields? && "messages" in data.fields && data.fields["messages"].Items? {
          var items := data.fields["messages"].items;
          for i := 0 to |items|
            invariant refs == start + MessageIds(items[..i])
          {
            assert items[..i + 1][..i] == items[..i];
            refs := refs + MessageId(items[i]);
          }
          assert items[..|items|] == items;
        }
      case _ =>
    }
  }

  /** Walks the frame's memory, plan and recent entries, adding each reference it meets. */
  method CollectSourceRefs(f: Frame) returns (refs: set<Token>)
    ensures refs == SourceRefs(f)
  {
    refs := OptionalRef(f.memory.historyRef);
    if f.memory.summary.Some? {
      refs := AddSummary(f.memory.summary.value, refs);
    }
    refs := AddLessons(f.memory.lessons, refs);
    refs := AddTasks(f.chain.tasks, refs);
    var es := f.memory.recentEntries;
    ghost var base := refs;
    for i := 0 to |es|
      invariant refs == base + EntriesRefs(es[..i])
    {
      assert es[..i + 1][..i] == es[..i];
      refs := AddEntry(es[i], refs);
    }
    assert es[..|es|] == es;
  }

  // ---- sealing ----

  /** The purposes a frame may be summarized for, given its level and whether its plan is settled. */
  predicate MaySchedule(f: Frame, purpose: Purpose) {
    && (purpose.Complete? || purpose.Idle? ==> Settled(f.chain.tasks))
    && (purpose.Complete? ==> f.level != 1)
    && (purpose.Interrupt? ==> f.level != 1)
    && (purpose.Idle? ==> f.level == 1)
  }

  /** Seals the active frame: archives the live context and opens a pending summary that cites it. */
  function AfterSchedule(d: Draft, purpose: Purpose, reason: string): Result<Draft, Error> {
    var frame := Active(d.state.context);
    :- Need(d.state.pending.None? && MaySchedule(frame, purpose), InvalidState);
    var (archived, sourceRef) := Archive(d);
    var pending := Pending(
      archived.next, frame.id, frame.chain.revision, purpose, reason,
      sourceRef, {sourceRef} + SourceRefs(frame), 0, None);
    Success(archived.(state := d.state.(pending := Some(pending), runnable := true), next := archived.next + 1))
  }

  method ScheduleSummary(m: Mutation, purpose: Purpose, reason: string) returns (error: Option<Error>)
    modifies m
    ensures Agrees(error, m.Value(), AfterSchedule(old(m.Value()), purpose, reason))
  {
    var frame := Active(m.state.context);
    if m.state.pending.Some? {
      return Some(InvalidState);
    }
    var unfinished := exists i :: 0 <= i < |frame.chain.tasks| && Unfinished(frame.chain.tasks[i]);
    if (purpose.Complete? || purpose.Idle?) && unfinished {
      return Some(InvalidState);
    }
    if (purpose.Complete? && frame.level == 1) || (purpose.Interrupt? && frame.level == 1)
       || (purpose.Idle? && frame.level != 1) {
      return Some(InvalidState);
    }
    assert MaySchedule(frame, purpose);
    var sourceRef := m.ArchiveContext();
    var refs := CollectSourceRefs(frame);
    var id := m.next;
    m.next := m.next + 1;
    m.state := m.state.(
      pending := Some(Pending(id, frame.id, frame.chain.revision, purpose, reason,
                              sourceRef, {sourceRef} + refs, 0, None)),
      runnable := true);
    return None;
  }

  // ---- compaction ----

  function CompactResult(size: Sizes, result: Summary, sealed: Token): Summary {
    if size.summary(result) <= 1024 then result
    else
      Summary(
        if |result.outcome| > 160 then result.outcome[..160] + "…（完整结果见来源）" else result.outcome,
        [], [], [], [], [], [], [sealed])
  }

  function CompactTask(size: Sizes, t: Task, sealed: Token): Task {
    match t.state
    case Completed(result) => t.(state := Completed(CompactResult(size, result, sealed)))
    case Interrupted(reason, Some(partial)) =>
      t.(state := Interrupted(reason, Some(CompactResult(size, partial, sealed))))
    case _ => t
  }

  function CompactTasks(size: Sizes, tasks: seq<Task>, sealed: Token): (r: seq<Task>)
    ensures |r| == |tasks|
    ensures forall i :: 0 <= i < |tasks| ==> r[i] == CompactTask(size, tasks[i], sealed)
  {
    if |tasks| == 0 then []
    else CompactTasks(size, tasks[..|tasks| - 1], sealed) + [CompactTask(size, tasks[|tasks| - 1], sealed)]
  }

  /** The plan a compaction keeps: none once it is settled, otherwise the same tasks with short results. */
  function CompactChain(size: Sizes, f: Frame, sealed: Token): Chain {
    if Settled(f.chain.tasks) then EmptyChain(f.level, f.chain.revision)
    else f.chain.(tasks := CompactTasks(size, f.chain.tasks, sealed))
  }

  function CompactedFrame(size: Sizes, f: Frame, summary: Summary, historyRef: Token, sealed: Token)
    : Result<Frame, Error>
  {
    var updated :- SetChain(f, CompactChain(size, f, sealed));
    Success(updated.(memory := updated.memory.(
      summary := Some(summary), recentEntries := [], historyRef := Some(historyRef))))
  }

  const EMPTY_SUMMARY := Summary("", [], [], [], [], [], [], [])
  const PROJECTED_REF := Host("context-summary://00000000-0000-0000-0000-000000000000")

  /** There is room for at least a minimal summary beside the structures that compaction keeps. */
  function SummaryFits(size: Sizes, f: Frame, sealed: Token): Result<bool, Error> {
    var projected :- CompactedFrame(size, f, EMPTY_SUMMARY, PROJECTED_REF, sealed);
    var fixedBytes := size.frame(projected) - size.summary(EMPTY_SUMMARY);
    var minimum := size.summary(EMPTY_SUMMARY.(outcome := "摘要", sourceRefs := [sealed]));
    Success(f.budget.targetTokens - fixedBytes >= minimum)
  }

  // ---- folding back ----

  function FinishTask(t: Task, taskId: Id, state: TaskState): Task {
    if t.id == taskId then t.(state := state) else t
  }

  function FinishTasks(tasks: seq<Task>, taskId: Id, state: TaskState): (r: seq<Task>)
    ensures |r| == |tasks|
    ensures forall i :: 0 <= i < |tasks| ==> r[i] == FinishTask(tasks[i], taskId, state)
  {
    if |tasks| == 0 then []
    else FinishTasks(tasks[..|tasks| - 1], taskId, state) + [FinishTask(tasks[|tasks| - 1], taskId, state)]
  }

  function FinishedState(p: Pending, summary: Summary): TaskState {
    if p.purpose.Complete? then Completed(summary) else Interrupted(p.reason, Some(summary))
  }

  /** The parent's plan once the task of its child is over: it is planning again. */
  function SettledChain(chain: Chain, taskId: Id, state: TaskState): Chain {
    chain.(tasks := FinishTasks(chain.tasks, taskId, state), phase := Planning, currentTaskId := None)
  }

  /** No task with this identity has stopped running. */
  predicate StillRuns(tasks: seq<Task>, taskId: Id) {
    forall i :: 0 <= i < |tasks| && tasks[i].id == taskId ==> tasks[i].state.Running?
  }

  /** Puts the settled parent in its place and gives up the frames from `level` on. */
  function HandBack(c: Context, level: nat, parent: Frame): Result<Context, Error> {
    var replaced :- ReplaceFrame(c, parent);
    Success(if level == 2 then replaced.(level2 := None, level3 := None) else replaced.(level3 := None))
  }

  /** Releases the active lower frame and settles the parent task it was working on. */
  function Released(c: Context, p: Pending, summary: Summary): Result<Context, Error> {
    var frame := Active(c);
    :- Need(frame.level != 1, InvalidState);
    var parent := if frame.level == 2 then Some(c.level1) else c.level2;
    :- Need(parent.Some? && frame.work.TaskOf?
            && AtCursor(parent.value, Cursor(frame.work.frameId, frame.work.planRevision)), StaleContext);
    var chain := parent.value.chain;
    :- Need(StillRuns(chain.tasks, frame.work.taskId), StaleContext);
    var settled :- SetChain(parent.value, SettledChain(chain, frame.work.taskId, FinishedState(p, summary)));
    HandBack(c, frame.level, settled)
  }

  /** The context once the summary of the active frame is folded in. */
  function Folded(c: Context, p: Pending, compacted: Frame, summary: Summary): Result<Context, Error> {
    if p.purpose.Compact? || p.purpose.Idle? then ReplaceFrame(c, compacted) else Released(c, p, summary)
  }

  function AfterIntegrate(size: Sizes, d: Draft, id: Id, summary: Summary): Result<Draft, Error> {
    var s := d.state;
    :- Need(s.pending.Some? && s.pending.value.id == id, StaleContext);
    var p := s.pending.value;
    var frame := Active(s.context);
    :- Need(AtCursor(frame, Cursor(p.frameId, p.planRevision)), StaleContext);
    :- Need(SummaryShape(summary) && SummaryWithin(summary, p.allowedRefs) && p.sourceRef in summary.sourceRefs,
            InvalidInput);
    var summaryRef := SummaryRef(d.next);
    var compacted :- CompactedFrame(size, frame, summary, summaryRef, p.sourceRef);
    var room :- SummaryFits(size, frame, p.sourceRef);
    :- Need(room, BudgetExceeded);
    :- Need(size.frame(compacted) <= frame.budget.targetTokens, SummaryTooLarge);
    var context :- Folded(s.context, p, compacted, summary);
    :- Need(Fits(size, context), BudgetExceeded);
    Success(Draft(
      s.(context := context, pending := None, runnable := !p.purpose.Idle? || |s.inbox| > 0),
      d.writes + [Write(summaryRef, SummaryRecord(p.sourceRef, summary))],
      d.next + 1))
  }

  method IntegrateSummary(size: Sizes, m: Mutation, id: Id, summary: Summary) returns (error: Option<Error>)
    modifies m
    ensures Agrees(error, m.Value(), AfterIntegrate(size, old(m.Value()), id, summary))
  {
    if m.state.pending.None? || m.state.pending.value.id != id {
      return Some(StaleContext);
    }
    var p := m.state.pending.value;
    var frame := Active(m.state.context);
    if !AtCursor(frame, Cursor(p.frameId, p.planRevision)) {
      return Some(StaleContext);
    }
    if !SummaryShape(summary) || !SummaryWithin(summary, p.allowedRefs) || p.sourceRef !in summary.sourceRefs {
      return Some(InvalidInput);
    }
    var summaryRef := SummaryRef(m.next);
    m.next := m.next + 1;
    var compacted := CompactedFrame(size, frame, summary, summaryRef, p.sourceRef);
    if compacted.Failure? {
      return Some(compacted.error);
    }
    var room := SummaryFits(size, frame, p.sourceRef);
    if room != Success(true) {
      return Some(BudgetExceeded);
    }
    if size.frame(compacted.value) > frame.budget.targetTokens {
      return Some(SummaryTooLarge);
    }
    m.writes := m.writes + [Write(summaryRef, SummaryRecord(p.sourceRef, summary))];
    if p.purpose.Compact? || p.purpose.Idle? {
      var replaced := ReplaceFrame(m.state.context, compacted.value);
      if replaced.Failure? {
        return Some(replaced.error);
      }
      m.state := m.state.(context := replaced.value);
    } else {
      var released := Released(m.state.context, p, summary);
      if released.Failure? {
        return Some(released.error);
      }
      m.state := m.state.(context := released.value);
    }
    // The parent's capacity is checked before the child is given up and the summary consumed.
    if !Fits(size, m.state.context) {
      return Some(BudgetExceeded);
    }
    m.state := m.state.(pending := None, runnable := !p.purpose.Idle? || |m.state.inbox| > 0);
    return None;
  }
}
