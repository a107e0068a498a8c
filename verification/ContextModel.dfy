/** The persistent data of an agent's context: frames, plans, summaries, inbox, history. */
module ContextModel {
  import opened Basics

  /** Identities handed out by the host's fresh-name source, in the order they are drawn. */
  type Id = nat

  /**
   * An opaque reference. The kernel makes the first four kinds; everything the host or the model
   * writes down itself is a `Host` token, and nothing stops either from repeating a kernel token.
   */
  datatype Token =
    | HistoryRef(id: Id)
    | SummaryRef(id: Id)
    | InputRef(key: string)
    | Notice(id: Id)
    | Host(name: string)

  predicate TokenText(t: Token) {
    t.Host? ==> Text(t.name)
  }

  /** JSON payload of an event; strings are kept as tokens because they may be used as references. */
  datatype Payload =
    | Null
    | Flag(flag: bool)
    | Number(number: int)
    | Word(token: Token)
    | Items(items: seq<Payload>)
    | Fields(fields: map<string, Payload>)

  datatype Observation = Observation(fact: bool, statement: string, sourceRefs: seq<Token>)

  datatype Lesson = Lesson(statement: string, scope: string, sourceRefs: seq<Token>)

  datatype Summary = Summary(
    outcome: string,
    observations: seq<Observation>,
    decisions: seq<string>,
    artifactRefs: seq<Token>,
    unresolved: seq<string>,
    nextResponsibilities: seq<string>,
    lessonCandidates: seq<Lesson>,
    sourceRefs: seq<Token>)

  datatype EntryKind =
    | Message(fromUser: bool, content: string, attachments: seq<Token>)
    | Event(name: string, data: Payload)
    | ToolCall(callId: string, toolName: string, payload: Payload)
    | ToolResult(callId: string, toolName: string, payload: Payload)
    | Observed(observation: Observation)

  datatype Entry = Entry(id: Token, createdAt: nat, kind: EntryKind)

  datatype TaskState =
    | Waiting
    | Running
    | Completed(result: Summary)
    | Interrupted(reason: string, partialResult: Option<Summary>)
    | Superseded

  datatype Task = Task(id: Id, objective: string, state: TaskState)

  datatype Phase = Planning | Executing

  datatype Replan = Replan(reason: string, previousPlanRef: Token)

  /** Where a plan's tasks run: a level below, or the frame itself. */
  datatype Target = Below(level: nat) | Local

  datatype Chain = Chain(
    target: Target,
    revision: nat,
    tasks: seq<Task>,
    phase: Phase,
    currentTaskId: Option<Id>,
    replan: Option<Replan>)

  datatype Budget = Budget(maxTokens: nat, compactAtTokens: nat, targetTokens: nat, maxTasks: nat)

  datatype Memory = Memory(
    summary: Option<Summary>,
    lessons: seq<Lesson>,
    recentEntries: seq<Entry>,
    historyRef: Option<Token>)

  /** The root frame carries its own duty; a lower frame names one task of its parent's plan. */
  datatype Assignment =
    | RootDuty(dutyId: Id, objective: string)
    | TaskOf(frameId: Id, planRevision: nat, taskId: Id)

  datatype Frame = Frame(
    id: Id,
    level: nat,
    instructions: seq<string>,
    work: Assignment,
    chain: Chain,
    memory: Memory,
    budget: Budget)

  datatype Context = Context(level1: Frame, level2: Option<Frame>, level3: Option<Frame>)

  datatype Cursor = Cursor(frameId: Id, planRevision: nat)

  datatype Delivery = Delivery(key: string, target: Option<Cursor>, entries: seq<Entry>)

  datatype Policy = Policy(
    budget1: Budget,
    budget2: Budget,
    budget3: Budget,
    maxSummaryAttempts: nat,
    maxInbox: nat,
    maxDeliveryBytes: nat)

  datatype Purpose = Complete | Interrupt | Compact | Idle

  datatype Pending = Pending(
    id: Id,
    frameId: Id,
    planRevision: nat,
    purpose: Purpose,
    reason: string,
    sourceRef: Token,
    allowedRefs: set<Token>,
    attempts: nat,
    lastError: Option<string>)

  datatype Checkpoint = Checkpoint(
    revision: nat,
    context: Context,
    policy: Policy,
    runnable: bool,
    pending: Option<Pending>,
    inbox: seq<Delivery>)

  datatype Record =
    | HistoryRecord(delivery: Delivery)
    | FrameRecord(context: Context)
    | SummaryRecord(sourceRef: Token, summary: Summary)

  datatype Write = Write(ref: Token, record: Record)

  datatype ReceiptKey = RoundDone(round: string) | RoundSummary(round: string) | SummaryDone(id: Id)

  datatype Intent = Continue | Rest

  datatype Decision =
    | DecidePlan(objectives: seq<string>)
    | DecideReplan(objectives: seq<string>, reason: string)
    | DecideAdvance
    | DecideStepCompleted(result: Summary)
    | DecideComplete
    | DecideInterrupt(reason: string)
    | DecideCompact
    | DecideIdle
    | DecideFinishTurn
    | DecideContinue
    | DecideWait

  datatype Error =
    | InvalidInput
    | InvalidState
    | StaleContext
    | BudgetExceeded
    | SummaryTooLarge
    | RetryExhausted
    | StorageConflict

  /** Serialized sizes. Nothing is assumed about them, so every result holds for any encoding. */
  datatype Sizes = Sizes(frame: Frame -> nat, summary: Summary -> nat, delivery: Delivery -> nat)

  /** A checkpoint being changed, the records to publish with it, and the next unused identity. */
  datatype Draft = Draft(state: Checkpoint, writes: seq<Write>, next: Id)

  function Active(c: Context): Frame {
    if c.level3.Some? then c.level3.value
    else if c.level2.Some? then c.level2.value
    else c.level1
  }

  function Frames(c: Context): seq<Frame> {
    [c.level1]
    + (if c.level2.Some? then [c.level2.value] else [])
    + (if c.level3.Some? then [c.level3.value] else [])
  }

  function ReplaceFrame(c: Context, f: Frame): Result<Context, Error> {
    match f.level
    case 1 => Success(c.(level1 := f))
    case 2 => Success(c.(level2 := Some(f)))
    case _ => if c.level2.Some? then Success(c.(level3 := Some(f))) else Failure(InvalidState)
  }

  function SetChain(f: Frame, chain: Chain): Result<Frame, Error> {
    if chain.target == f.chain.target then Success(f.(chain := chain)) else Failure(InvalidState)
  }

  function TargetOf(level: nat): Target {
    if level == 1 then Below(2) else if level == 2 then Below(3) else Local
  }

  function EmptyChain(level: nat, revision: nat): Chain {
    Chain(TargetOf(level), revision, [], Planning, None, None)
  }

  const EMPTY_MEMORY := Memory(None, [], [], None)

  function BudgetOf(p: Policy, level: nat): Budget {
    if level == 1 then p.budget1 else if level == 2 then p.budget2 else p.budget3
  }

  predicate Unfinished(t: Task) {
    t.state.Waiting? || t.state.Running?
  }

  /** No task of the plan waits or runs. */
  predicate Settled(tasks: seq<Task>) {
    forall i :: 0 <= i < |tasks| ==> !Unfinished(tasks[i])
  }

  function AppendEntries(f: Frame, entries: seq<Entry>): Frame {
    f.(memory := f.memory.(recentEntries := f.memory.recentEntries + entries))
  }

  predicate AtCursor(f: Frame, cursor: Cursor) {
    f.id == cursor.frameId && f.chain.revision == cursor.planRevision
  }

  /** Publishes the whole live context under a fresh history reference. */
  function Archive(d: Draft): (Draft, Token) {
    var ref := HistoryRef(d.next);
    (d.(writes := d.writes + [Write(ref, FrameRecord(d.state.context))], next := d.next + 1), ref)
  }
}
