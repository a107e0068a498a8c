/** What each manager operation does to the durable state of one agent, as a function of that state. */
module ContextWorld {
  import opened Basics
  import opened ContextModel
  import opened ContextRules
  import opened ContextSummaries
  import opened ContextTasks
  import opened ContextInbox
  import opened ContextStore

  /** Everything that survives a crash. */
  datatype World = World(
    state: Checkpoint,
    records: map<Token, Record>,
    receipts: map<ReceiptKey, Intent>,
    next: Id)

  function StoredOf(w: World): Stored {
    Stored(Some(w.state), w.records, w.receipts)
  }

  function DraftOf(w: World): Draft {
    Draft(w.state, [], w.next)
  }

  function ReceiptsFor(keys: seq<ReceiptKey>, runnable: bool): (r: seq<Receipt>)
    ensures |r| == |keys|
    ensures forall i :: 0 <= i < |keys| ==> r[i] == Receipt(keys[i], if runnable then Continue else Rest)
  {
    seq(|keys|, i requires 0 <= i < |keys| => Receipt(keys[i], if runnable then Continue else Rest))
  }

  /** Publishes a draft: the next revision, the capacity and text checks, then one atomic commit. */
  function Published(size: Sizes, w: World, d: Draft, keys: seq<ReceiptKey>): Result<World, Error> {
    var revised := d.state.(revision := d.state.revision + 1);
    :- Need(revised.revision <= MAX_SAFE_INTEGER, InvalidInput);
    var verdict := Verdict(size, revised);
    if verdict.Some? then Failure(verdict.value)
    else
      var stored :- AfterCommit(StoredOf(w), Some(w.state.revision), revised, d.writes,
                                ReceiptsFor(keys, revised.runnable));
      Success(World(revised, stored.records, stored.receipts, d.next))
  }

  // ---- receiving ----

  /** Sorts out which deliveries are new; a known key must come back with the same content. */
  function Unreceived(size: Sizes, w: World, unseen: seq<Delivery>, ds: seq<Delivery>): Result<seq<Delivery>, Error>
    decreases |ds|
  {
    if |ds| == 0 then Success(unseen)
    else
      var d := ds[0];
      :- Need(DeliveryShape(d), InvalidInput);
      :- Need(size.delivery(d) <= w.state.policy.maxDeliveryBytes, BudgetExceeded);
      var duplicate := FindKey(unseen, d.key);
      var ref := InputRef(d.key);
      if duplicate.Some? then
        :- Need(duplicate.value == d, InvalidInput);
        Unreceived(size, w, unseen, ds[1..])
      else if ref in w.records then
        :- Need(w.records[ref] == HistoryRecord(d), InvalidInput);
        Unreceived(size, w, unseen, ds[1..])
      else Unreceived(size, w, unseen + [d], ds[1..])
  }

  function FindKey(ds: seq<Delivery>, key: string): (r: Option<Delivery>)
    ensures r.Some? ==> r.value in ds && r.value.key == key
    ensures r.None? ==> forall i :: 0 <= i < |ds| ==> ds[i].key != key
  {
    if |ds| == 0 then None
    else if ds[0].key == key then Some(ds[0])
    else FindKey(ds[1..], key)
  }

  function HistoryWrites(ds: seq<Delivery>): (r: seq<Write>)
    ensures |r| == |ds|
    ensures forall i :: 0 <= i < |ds| ==> r[i] == Write(InputRef(ds[i].key), HistoryRecord(ds[i]))
  {
    seq(|ds|, i requires 0 <= i < |ds| => Write(InputRef(ds[i].key), HistoryRecord(ds[i])))
  }

  function Accepted(size: Sizes, w: World, unseen: seq<Delivery>): Result<World, Error> {
    if |unseen| == 0 then Success(w)
    else
      Published(size, w, Draft(w.state.(inbox := w.state.inbox + unseen, runnable := true), HistoryWrites(unseen),
                               w.next), [])
  }

  function AfterReceive(size: Sizes, w: World, ds: seq<Delivery>): Result<World, Error> {
    var unseen :- Unreceived(size, w, [], ds);
    :- Need(|w.state.inbox| + |unseen| <= w.state.policy.maxInbox, BudgetExceeded);
    Accepted(size, w, unseen)
  }

  /** The free places of the inbox. */
  function Available(s: Checkpoint): nat {
    if |s.inbox| <= s.policy.maxInbox then s.policy.maxInbox - |s.inbox| else 0
  }

  function Prefix<T>(s: seq<T>, n: nat): seq<T> {
    if n <= |s| then s[..n] else s
  }

  function AfterReceiveAvailable(size: Sizes, w: World, ds: seq<Delivery>): Result<World, Error> {
    var unseen :- Unreceived(size, w, [], ds);
    Accepted(size, w, Prefix(unseen, Available(w.state)))
  }

  /** The answer of `receiveAvailable`: whether everything fitted. */
  predicate ReceivesAll(size: Sizes, w: World, ds: seq<Delivery>) {
    var unseen := Unreceived(size, w, [], ds);
    unseen.Success? && |unseen.value| <= Available(w.state)
  }

  // ---- rounds ----

  function AfterPrepare(size: Sizes, w: World): Result<World, Error> {
    if w.state.pending.Some? then Success(w)
    else
      var d :- AfterDrain(size, DraftOf(w));
      Published(size, w, d, [])
  }

  function AfterApply(size: Sizes, w: World, round: string, cursor: Cursor, decision: Decision, entries: seq<Entry>)
    : Result<World, Error>
  {
    if !Text(round) then Failure(InvalidInput)
    else if RoundDone(round) in w.receipts then Success(w)
    else
      :- Need(w.state.pending.None?, InvalidState);
      :- Need(AtCursor(Active(w.state.context), cursor), StaleContext);
      var d :- AfterDecision(DraftOf(w), decision, entries);
      Published(size, w, Archive(d).0, [RoundDone(round)])
  }

  // ---- summaries ----

  function WithPending(w: World, p: Pending): Draft {
    DraftOf(w).(state := w.state.(pending := Some(p)))
  }

  function AfterBeginAttempt(size: Sizes, w: World): Result<World, Error> {
    if w.state.pending.None? then Failure(InvalidState)
    else
      var p := w.state.pending.value;
      :- Need(p.attempts < w.state.policy.maxSummaryAttempts, RetryExhausted);
      Published(size, w, WithPending(w, p.(attempts := p.attempts + 1)), [])
  }

  function AfterRetry(size: Sizes, w: World): Result<World, Error> {
    if w.state.pending.None? then Failure(InvalidState)
    else
      Published(size, w, WithPending(w, w.state.pending.value.(attempts := 0)), [])
  }

  const DEFAULT_ERROR := "总结请求失败。"

  /** The first thousand characters of a message, or a default when there are none. */
  function ErrorText(message: string): string {
    if message == "" then DEFAULT_ERROR else Prefix(message, 1000)
  }

  function AfterFail(size: Sizes, w: World, id: Id, message: string): Result<World, Error> {
    if w.state.pending.None? || w.state.pending.value.id != id then Failure(StaleContext)
    else
      Published(size, w, WithPending(w, w.state.pending.value.(lastError := Some(ErrorText(message)))), [])
  }

  function PhaseKeys(w: World, round: string, id: Id): seq<ReceiptKey> {
    [SummaryDone(id)] + (if RoundSummary(round) in w.receipts then [] else [RoundSummary(round)])
  }

  function AfterSummaryPhase(size: Sizes, w: World, round: string, id: Id, summary: Summary): Result<World, Error> {
    if !Text(round) then Failure(InvalidInput)
    else if SummaryDone(id) in w.receipts then Success(w)
    else
      var d :- AfterIntegrate(size, DraftOf(w), id, summary);
      Published(size, w, d, PhaseKeys(w, round, id))
  }

  function AfterAcknowledge(size: Sizes, w: World, round: string): Result<World, Error> {
    if !Text(round) then Failure(InvalidInput)
    else if RoundDone(round) in w.receipts then Success(w)
    else
      :- Need(RoundSummary(round) in w.receipts, InvalidState);
      Published(size, w, DraftOf(w), [RoundDone(round)])
  }

  function AfterCommitSummary(size: Sizes, w: World, round: string, id: Id, summary: Summary): Result<World, Error> {
    if !Text(round) then Failure(InvalidInput)
    else if RoundDone(round) in w.receipts then Success(w)
    else
      var d :- AfterIntegrate(size, DraftOf(w), id, summary);
      Published(size, w, d, [RoundDone(round)])
  }

  // ---- budgets ----

  function Rebudgeted(c: Context, b: Budget): Context {
    Context(
      c.level1.(budget := b),
      if c.level2.Some? then Some(c.level2.value.(budget := b)) else None,
      if c.level3.Some? then Some(c.level3.value.(budget := b)) else None)
  }

  /** Every frame under the new budget; a pending summary is sealed again, against the context it now has. */
  function BudgetDraft(w: World, b: Budget): Draft {
    var d := DraftOf(w).(state := w.state.(
      context := Rebudgeted(w.state.context, b),
      policy := w.state.policy.(budget1 := b, budget2 := b, budget3 := b)));
    if w.state.pending.Some? then
      var (archived, ref) := Archive(d);
      var p := w.state.pending.value;
      archived.(state := d.state.(pending := Some(p.(sourceRef := ref, allowedRefs := p.allowedRefs + {ref}))))
    else d
  }

  function AfterConfigureBudget(size: Sizes, w: World, b: Budget): Result<World, Error> {
    if !BudgetShape(b) then Failure(InvalidInput)
    else
      var policy := w.state.policy;
      if policy.budget1 == b && policy.budget2 == b && policy.budget3 == b then Success(w)
      else Published(size, w, BudgetDraft(w, b), [])
  }

  // ---- creation ----

  function InitialCheckpoint(policy: Policy, instructions: seq<string>, objective: string, idle: bool, next: Id)
    : Checkpoint {
    Checkpoint(
      0,
      Context(
        Frame(next, 1, instructions, RootDuty(next + 1, objective), EmptyChain(1, 0), EMPTY_MEMORY, policy.budget1),
        None, None),
      policy, !idle, None, [])
  }

  function Created(size: Sizes, next: Id, policy: Policy, instructions: seq<string>, objective: string, idle: bool)
    : Result<World, Error>
  {
    if !(PolicyShape(policy) && Texts(instructions) && Text(objective)) then Failure(InvalidInput)
    else
      var initial := InitialCheckpoint(policy, instructions, objective, idle, next);
      :- Need(Fits(size, initial.context), BudgetExceeded);
      Success(World(initial, map[], map[], next + 2))
  }

  // ---- runs ----

  datatype Op =
    | Receive(deliveries: seq<Delivery>)
    | ReceiveAvailable(deliveries: seq<Delivery>)
    | Prepare
    | Apply(round: string, cursor: Cursor, decision: Decision, entries: seq<Entry>)
    | BeginAttempt
    | RetrySummary
    | FailSummary(id: Id, message: string)
    | SummaryPhase(round: string, id: Id, summary: Summary)
    | Acknowledge(round: string)
    | CommitSummary(round: string, id: Id, summary: Summary)
    | ConfigureBudget(budget: Budget)

  function After(size: Sizes, w: World, op: Op): Result<World, Error> {
    match op
    case Receive(ds) => AfterReceive(size, w, ds)
    case ReceiveAvailable(ds) => AfterReceiveAvailable(size, w, ds)
    case Prepare => AfterPrepare(size, w)
    case Apply(round, cursor, decision, entries) => AfterApply(size, w, round, cursor, decision, entries)
    case BeginAttempt => AfterBeginAttempt(size, w)
    case RetrySummary => AfterRetry(size, w)
    case FailSummary(id, message) => AfterFail(size, w, id, message)
    case SummaryPhase(round, id, summary) => AfterSummaryPhase(size, w, round, id, summary)
    case Acknowledge(round) => AfterAcknowledge(size, w, round)
    case CommitSummary(round, id, summary) => AfterCommitSummary(size, w, round, id, summary)
    case ConfigureBudget(b) => AfterConfigureBudget(size, w, b)
  }

  /** An operation that throws publishes nothing; a crash between two operations loses nothing. */
  function Step(size: Sizes, w: World, op: Op): World {
    var r := After(size, w, op);
    if r.Success? then r.value else w
  }

  function Run(size: Sizes, w: World, ops: seq<Op>): World
    decreases |ops|
  {
    if |ops| == 0 then w else Run(size, Step(size, w, ops[0]), ops[1..])
  }
}
