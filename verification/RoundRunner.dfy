/** The round runner: it executes a dispatched batch against the context manager. */
module RoundRunner {
  // `log` holds every durable step since the runner was made; a crash leaves what some prefix of it leads to.
  // While the runner waits for the host, others may use the manager: the host's `Foreign` operations.

  import opened Basics
  import opened ContextModel
  import opened ContextRules
  import opened ContextWorld
  import opened ContextConservation
  import opened ContextTheorems
  import opened ContextManager
  import opened ContextStore
  import opened RoundRules
  import opened RoundLife

  /** The scheduler as the runner sees it: at most one run, and for each batch that is over what was asked for next. */
  class SchedulerPort {
    var running: Option<string>
    var finished: map<string, Intent>

    constructor (batch: string)
      ensures running == Some(batch) && finished == map[]
    {
      running, finished := Some(batch), map[];
    }

    /** Consumes the batch, unless the scheduler fails and keeps the run. */
    method FinishRun(batch: string, intent: Intent, fails: bool) returns (ok: bool)
      requires running == Some(batch)
      modifies this
      ensures ok == !fails
      ensures ok ==> running == None && finished == old(finished)[batch := intent]
      ensures !ok ==> unchanged(this)
    {
      if fails {
        return false;
      }
      running, finished := None, finished[batch := intent];
      return true;
    }

    /** Hands out a batch again, once no run is out. */
    method Dispatch(batch: string)
      requires running.None?
      modifies this`running
      ensures running == Some(batch)
    {
      running := Some(batch);
    }

    /** Gives the run back; the batch stays and is dispatched again later. */
    method ReturnRun(batch: string)
      requires running == Some(batch)
      modifies this`running
      ensures running == None
    {
      running := None;
    }
  }

  datatype ResolvedInput = ResolvedInput(entries: seq<Entry>, target: Option<Cursor>)

  /** What the model port does with a summary request: refuse it before sending, fail after, or answer. */
  datatype Reply =
    | Refused
    | Failed(message: string)
    | Answered(fromCache: bool, summary: Option<Summary>, message: string)

  /** What others do to the manager while the runner waits. */
  datatype Foreign = Incoming(deliveries: seq<Delivery>) | Rebudget(budget: Budget) | RetryAllowed

  function OpOf(f: Foreign): Op {
    match f
    case Incoming(ds) => Op.Receive(ds)
    case Rebudget(b) => Op.ConfigureBudget(b)
    case RetryAllowed => Op.RetrySummary
  }

  function Steps(run: AgentRun, fs: seq<Foreign>): seq<Event> {
    if |fs| == 0 then [] else [Perform(run, OpOf(fs[0]))] + Steps(run, fs[1..])
  }

  /** Everything the host contributes to one execution; `None` stands for a port that throws. */
  datatype Host = Host(
    aborted: bool,
    events: seq<Option<ResolvedInput>>,
    operations: seq<Option<ResolvedInput>>,
    reply: Reply,
    work: Option<(Decision, seq<Entry>)>,
    pendingOperations: nat,
    waitSatisfied: bool,
    finishFails: bool,
    whileResolving: seq<Foreign>,
    whileQueued: seq<Foreign>,
    whileSummarizing: seq<Foreign>,
    whileWorking: seq<Foreign>)

  datatype Outcome = Worked | Summarized | Replayed | Threw

  predicate MayEnd(decision: Decision, host: Host) {
    && (decision.DecideComplete? || decision.DecideIdle? || decision.DecideFinishTurn? ==> host.pendingOperations == 0)
    && (decision.DecideWait? ==> host.pendingOperations > 0 || host.waitSatisfied)
  }

  predicate NeedsRun(s: Checkpoint) {
    s.runnable || s.pending.Some?
  }

  function NextIntent(s: Checkpoint, otherwise: Intent): Intent {
    if NeedsRun(s) then Continue else otherwise
  }

  /** No round is done that was not done before. */
  predicate SameRounds(before: map<ReceiptKey, Intent>, after: map<ReceiptKey, Intent>) {
    forall k: ReceiptKey :: k.RoundDone? && k in after ==> k in before
  }

  lemma DecisionNext(size: Sizes, run: AgentRun, m: Moment, after: World, cursor: Cursor, decision: Decision,
                     entries: seq<Entry>, error: Option<Error>)
    requires RoundDone(run.batchId) !in m.world.receipts
    requires Answers(error, m.world, after, AfterApply(size, m.world, run.batchId, cursor, decision, entries))
    ensures RoundLife.Next(size, m, Perform(run, Op.Apply(run.batchId, cursor, decision, entries))) ==
            Moment(after, if error.None? then m.decided + multiset{run.batchId} else m.decided, m.finished)
  {
  }

  lemma PlainNext(size: Sizes, run: AgentRun, m: Moment, after: World, op: Op, error: Option<Error>)
    requires !op.Apply? && Answers(error, m.world, after, After(size, m.world, op))
    ensures RoundLife.Next(size, m, Perform(run, op)) == Moment(after, m.decided, m.finished)
  {
  }

  class Runner {
    const context: Manager
    const scheduler: SchedulerPort
    var busy: bool
    ghost const runs: set<AgentRun>
    ghost const start: Moment
    ghost var log: seq<Event>
    ghost var decided: multiset<string>

    constructor (context: Manager, scheduler: SchedulerPort, ghost runs: set<AgentRun>, ghost decided: multiset<string>)
      requires context.Valid() && context.Current()
      requires MomentOk(context.size, runs, Moment(context.Durable(), decided, scheduler.finished))
      ensures this.context == context && this.scheduler == scheduler && this.runs == runs
      ensures Valid() && !busy && log == [] && start == Now()
      ensures Now() == Moment(context.Durable(), decided, scheduler.finished)
    {
      this.context, this.scheduler, this.runs := context, scheduler, runs;
      busy, log, this.decided := false, [], decided;
      start := Moment(context.Durable(), decided, scheduler.finished);
    }

    ghost function Durable(): World
      reads context, context.store
    {
      context.Durable()
    }

    ghost function Now(): Moment
      reads this`decided, context, context.store, scheduler`finished
    {
      Moment(Durable(), decided, scheduler.finished)
    }

    ghost predicate ReadyWith(size: Sizes)
      reads context, context.store
    {
      context.size == size && context.Valid() && context.Current()
    }

    /** The manager is valid and current. The quantifier keeps this closed to a proof until it mentions `ReadyWith`. */
    ghost predicate Ready()
      reads context, context.store
    {
      forall size: Sizes :: size == context.size ==> ReadyWith(size)
    }

    /** The log is a possible one, and the durable state is the one it leads to. */
    ghost predicate Logged()
      reads this`log, this`decided, context, context.store, scheduler`finished
    {
      && Ready()
      && Possible(context.size, runs, start, log)
      && Now() == Lived(context.size, start, log)
    }

    ghost predicate Valid()
      reads this`log, this`decided, context, context.store, scheduler`finished
    {
      Logged() && MomentOk(context.size, runs, start)
    }

    /** What holds of the durable state at every point of an execution. */
    lemma NowOk()
      requires Valid()
      ensures MomentOk(context.size, runs, Now())
    {
      LivedOk(context.size, runs, start, log);
    }

    /** What holds of the state that a crash after any step leaves. */
    lemma CrashOk(at: nat)
      requires Valid() && at <= |log|
      ensures MomentOk(context.size, runs, Lived(context.size, start, log[..at]))
    {
      CrashPossible(context.size, runs, start, log, at);
      LivedOk(context.size, runs, start, log[..at]);
    }

    /** Logs the step that was just made. */
    ghost method Note(e: Event)
      requires Ready()
      requires Possible(context.size, runs, start, log)
      requires Allowed(Lived(context.size, start, log), runs, e)
      requires Now() == RoundLife.Next(context.size, Lived(context.size, start, log), e)
      modifies this`log
      ensures Logged() && log == old(log) + [e]
      ensures Lasts(Lived(context.size, start, old(log)).world, Durable())
    {
      NextLasts(context.size, Lived(context.size, start, log), e);
      assert (log + [e])[..|log|] == log;
      log := log + [e];
    }

    method Prepare(run: AgentRun) returns (error: Option<Error>)
      requires Logged() && run in runs
      modifies this`log, context, context.store
      ensures Logged() && Lasts(old(Durable()), Durable()) && log == old(log) + [Perform(run, Op.Prepare)]
      ensures Answers(error, old(Durable()), Durable(), AfterPrepare(context.size, old(Durable())))
    {
      assert ReadyWith(context.size);
      error := context.Prepare();
      Note(Perform(run, Op.Prepare));
    }

    method ReceiveAvailable(run: AgentRun, ds: seq<Delivery>) returns (error: Option<Error>, all: bool)
      requires Logged() && run in runs
      modifies this`log, context, context.store
      ensures Logged() && Lasts(old(Durable()), Durable()) && log == old(log) + [Perform(run, Op.ReceiveAvailable(ds))]
      ensures Answers(error, old(Durable()), Durable(), AfterReceiveAvailable(context.size, old(Durable()), ds))
      ensures error.None? ==> all == ReceivesAll(context.size, old(Durable()), ds)
    {
      assert ReadyWith(context.size);
      error, all := context.ReceiveAvailable(ds);
      Note(Perform(run, Op.ReceiveAvailable(ds)));
    }

    method Acknowledge(run: AgentRun) returns (error: Option<Error>)
      requires Logged() && run in runs && AllRecorded(InputKeys(run), context.store.records)
      modifies this`log, context, context.store
      ensures Logged() && Lasts(old(Durable()), Durable())
              && log == old(log) + [Perform(run, Op.Acknowledge(run.batchId))]
      ensures Answers(error, old(Durable()), Durable(), AfterAcknowledge(context.size, old(Durable()), run.batchId))
      ensures error.None? ==> RoundDone(run.batchId) in context.store.receipts
    {
      ghost var before := Durable();
      assert ReadyWith(context.size);
      error := context.AcknowledgeRound(run.batchId);
      AcknowledgeSigns(context.size, before, run.batchId);
      PlainNext(context.size, run, old(Now()), Durable(), Op.Acknowledge(run.batchId), error);
      Note(Perform(run, Op.Acknowledge(run.batchId)));
    }

    /** Applies the batch's business decision; a batch that already has its receipt is left alone. */
    method Decide(run: AgentRun, cursor: Cursor, decision: Decision, entries: seq<Entry>) returns (error: Option<Error>)
      requires Logged() && run in runs && AllRecorded(InputKeys(run), context.store.records)
      requires RoundDone(run.batchId) !in context.store.receipts
      modifies this`log, this`decided, context, context.store
      ensures Logged() && Lasts(old(Durable()), Durable())
      ensures log == old(log) + [Perform(run, Op.Apply(run.batchId, cursor, decision, entries))]
      ensures Answers(error, old(Durable()), Durable(),
                      AfterApply(context.size, old(Durable()), run.batchId, cursor, decision, entries))
      ensures error.None? ==> RoundDone(run.batchId) in context.store.receipts
      ensures decided == if error.None? then old(decided) + multiset{run.batchId} else old(decided)
    {
      ghost var before := Durable();
      assert ReadyWith(context.size);
      error := context.Apply(run.batchId, cursor, decision, entries);
      ApplySigns(context.size, before, run.batchId, cursor, decision, entries);
      if error.None? {
        decided := decided + multiset{run.batchId};
      }
      DecisionNext(context.size, run, old(Now()), Durable(), cursor, decision, entries, error);
      Note(Perform(run, Op.Apply(run.batchId, cursor, decision, entries)));
    }

    method BeginAttempt(run: AgentRun) returns (error: Option<Error>)
      requires Logged() && run in runs
      modifies this`log, context, context.store
      ensures Logged() && Lasts(old(Durable()), Durable()) && log == old(log) + [Perform(run, Op.BeginAttempt)]
      ensures Answers(error, old(Durable()), Durable(), AfterBeginAttempt(context.size, old(Durable())))
      ensures SameRounds(old(context.store.receipts), context.store.receipts)
    {
      ghost var before := Durable();
      assert ReadyWith(context.size);
      error := context.BeginSummaryAttempt();
      AttemptSigns(context.size, before, 0, "");
      Note(Perform(run, Op.BeginAttempt));
    }

    method FailAttempt(run: AgentRun, id: Id, message: string)
      requires Logged() && run in runs
      modifies this`log, context, context.store
      ensures Logged() && Lasts(old(Durable()), Durable())
              && log == old(log) + [Perform(run, Op.FailSummary(id, message))]
    {
      assert ReadyWith(context.size);
      var error := context.FailSummary(id, message);
      Note(Perform(run, Op.FailSummary(id, message)));
    }

    method CommitPhase(run: AgentRun, id: Id, summary: Summary) returns (error: Option<Error>)
      requires Logged() && run in runs
      modifies this`log, context, context.store
      ensures Logged() && Lasts(old(Durable()), Durable())
      ensures log == old(log) + [Perform(run, Op.SummaryPhase(run.batchId, id, summary))]
      ensures Answers(error, old(Durable()), Durable(),
                      AfterSummaryPhase(context.size, old(Durable()), run.batchId, id, summary))
    {
      assert ReadyWith(context.size);
      error := context.CommitSummaryPhase(run.batchId, id, summary);
      Note(Perform(run, Op.SummaryPhase(run.batchId, id, summary)));
    }

    /** Reports the batch as over, with its round done. */
    method Done(run: AgentRun, intent: Intent, fails: bool) returns (ok: bool)
      requires Logged() && scheduler.running == Some(run.batchId) && RoundDone(run.batchId) in context.store.receipts
      modifies this`log, scheduler
      ensures Logged() && ok == !fails
      ensures ok ==> Released(run, intent) && log == old(log) + [Event.Finish(run.batchId, intent)]
      ensures !ok ==> unchanged(scheduler) && log == old(log)
    {
      ok := scheduler.FinishRun(run.batchId, intent, fails);
      if ok {
        Note(Event.Finish(run.batchId, intent));
      }
    }

    /** The runner waits; meanwhile others use the manager. Whatever they do, no round is done by it. */
    method Wait(run: AgentRun, fs: seq<Foreign>)
      requires Logged() && run in runs
      modifies this`log, context, context.store
      ensures Logged() && Lasts(old(Durable()), Durable()) && log == old(log) + Steps(run, fs)
      ensures SameRounds(old(context.store.receipts), context.store.receipts)
      decreases |fs|
    {
      if |fs| > 0 {
        ghost var before, logged := Durable(), log;
        Meddle(run, fs[0]);
        ghost var between := Durable();
        Wait(run, fs[1..]);
        LastsOn(before, between, Durable());
        LogOn(logged, Perform(run, OpOf(fs[0])), Steps(run, fs[1..]));
      }
    }

    method Meddle(run: AgentRun, f: Foreign)
      requires Logged() && run in runs
      modifies this`log, context, context.store
      ensures Logged() && Lasts(old(Durable()), Durable()) && log == old(log) + [Perform(run, OpOf(f))]
      ensures SameRounds(old(context.store.receipts), context.store.receipts)
    {
      match f {
        case Incoming(ds) => ReceiveForeign(run, ds);
        case Rebudget(b) => Configure(run, b);
        case RetryAllowed => AllowRetry(run);
      }
    }

    method ReceiveForeign(run: AgentRun, ds: seq<Delivery>)
      requires Logged() && run in runs
      modifies this`log, context, context.store
      ensures Logged() && Lasts(old(Durable()), Durable()) && log == old(log) + [Perform(run, Op.Receive(ds))]
      ensures SameRounds(old(context.store.receipts), context.store.receipts)
    {
      InputSigns(context.size, Durable(), ds);
      assert ReadyWith(context.size);
      var error := context.Receive(ds);
      Note(Perform(run, Op.Receive(ds)));
    }

    method Configure(run: AgentRun, b: Budget)
      requires Logged() && run in runs
      modifies this`log, context, context.store
      ensures Logged() && Lasts(old(Durable()), Durable()) && log == old(log) + [Perform(run, Op.ConfigureBudget(b))]
      ensures SameRounds(old(context.store.receipts), context.store.receipts)
    {
      BudgetSigns(context.size, Durable(), b);
      assert ReadyWith(context.size);
      var error := context.ConfigureBudget(b);
      PlainNext(context.size, run, old(Now()), Durable(), Op.ConfigureBudget(b), error);
      Note(Perform(run, Op.ConfigureBudget(b)));
    }

    method AllowRetry(run: AgentRun)
      requires Logged() && run in runs
      modifies this`log, context, context.store
      ensures Logged() && Lasts(old(Durable()), Durable()) && log == old(log) + [Perform(run, Op.RetrySummary)]
      ensures SameRounds(old(context.store.receipts), context.store.receipts)
    {
      AttemptSigns(context.size, Durable(), 0, "");
      assert ReadyWith(context.size);
      var error := context.RetrySummary();
      Note(Perform(run, Op.RetrySummary));
    }

    /** Resolves the batch's events and results in order; each input gets the key of its source. */
    method Resolve(run: AgentRun, host: Host) returns (r: Option<seq<Delivery>>)
      requires |host.events| == |run.events| && |host.operations| == |run.operations|
      ensures r.Some? ==> Keys(r.value) == InputKeys(run)
    {
      var ds: seq<Delivery> := [];
      for i := 0 to |run.events|
        invariant |ds| == i && forall k :: 0 <= k < i ==> ds[k].key == EventKey(run.events[k])
      {
        if host.events[i].None? {
          return None;
        }
        ds := ds + [Delivery(EventKey(run.events[i]), host.events[i].value.target, host.events[i].value.entries)];
      }
      for i := 0 to |run.operations|
        invariant |ds| == |run.events| + i
        invariant forall k :: 0 <= k < |run.events| ==> ds[k].key == EventKey(run.events[k])
        invariant forall k :: 0 <= k < i ==> ds[|run.events| + k].key == OperationKey(run.operations[k])
      {
        if host.operations[i].None? {
          return None;
        }
        ds := ds + [Delivery(OperationKey(run.operations[i]), host.operations[i].value.target,
                             host.operations[i].value.entries)];
      }
      return Some(ds);
    }

    /**
     * Receives the batch in portions as the inbox empties. It ends because every further pass records at
     * least one more input; `received` means that all of them are in the history.
     */
    method ReceiveBatch(run: AgentRun, ds: seq<Delivery>) returns (error: Option<Error>, received: bool)
      requires Logged() && run in runs && Keys(ds) == InputKeys(run)
      modifies this`log, context, context.store
      ensures Logged() && Lasts(old(Durable()), Durable()) && old(log) <= log
      ensures SameRounds(old(context.store.receipts), context.store.receipts)
      ensures error.None? && received ==> AllRecorded(InputKeys(run), context.store.records)
      ensures error.None? && !received ==>
                context.state.pending.Some? || |context.state.inbox| >= context.state.policy.maxInbox
    {
      ghost var before := Durable();
      ghost var logged := log;
      received := false;
      error := Prepare(run);
      PrepareSigns(context.size, before);
      if error.Some? {
        return;
      }
      error, received := ReceivePass(run, ds);
      while error.None? && !received && context.state.pending.None?
            && |context.state.inbox| < context.state.policy.maxInbox
        invariant Logged() && Lasts(before, Durable()) && logged <= log
        invariant SameRounds(before.receipts, context.store.receipts)
        invariant error.None? && received ==> AllRecorded(InputKeys(run), context.store.records)
        decreases error.None?, !received, Missing(ds, context.store.records)
      {
        error, received := ReceivePass(run, ds);
      }
    }

    /** One pass of the loop: receive what fits, then let the active frame absorb what it can. */
    method ReceivePass(run: AgentRun, ds: seq<Delivery>) returns (error: Option<Error>, received: bool)
      requires Logged() && run in runs && Keys(ds) == InputKeys(run)
      modifies this`log, context, context.store
      ensures Logged() && Lasts(old(Durable()), Durable()) && old(log) <= log
      ensures SameRounds(old(context.store.receipts), context.store.receipts)
      ensures error.None? && received ==> AllRecorded(InputKeys(run), context.store.records)
      ensures error.None? && !received && old(|context.state.inbox| < context.state.policy.maxInbox) ==>
                Missing(ds, context.store.records) < old(Missing(ds, context.store.records))
    {
      error, received := TakePortion(run, ds);
      if error.Some? {
        return;
      }
      ghost var mid := Durable();
      error := Prepare(run);
      PrepareSigns(context.size, mid);
      MissingShrinks(ds, mid.records, context.store.records);
    }

    method TakePortion(run: AgentRun, ds: seq<Delivery>) returns (error: Option<Error>, received: bool)
      requires Logged() && run in runs && Keys(ds) == InputKeys(run)
      modifies this`log, context, context.store
      ensures Logged() && Lasts(old(Durable()), Durable()) && old(log) <= log
      ensures SameRounds(old(context.store.receipts), context.store.receipts)
      ensures error.None? && received ==> AllRecorded(InputKeys(run), context.store.records)
      ensures error.None? && !received && old(|context.state.inbox| < context.state.policy.maxInbox) ==>
                Missing(ds, context.store.records) < old(Missing(ds, context.store.records))
    {
      ghost var before := Durable();
      assert ReadyWith(context.size);
      error, received := ReceiveAvailable(run, ds);
      InputSigns(context.size, before, ds);
      if error.Some? {
        return;
      }
      if received {
        ReceivedAll(context.size, before, ds);
      } else if |before.state.inbox| < before.state.policy.maxInbox {
        ReceivesSome(context.size, before, ds);
      }
    }

    /** The summary round: the attempt is counted before sending, and a failed one is noted for the next try. */
    method SummaryRound(run: AgentRun, host: Host) returns (ok: bool)
      requires Logged() && run in runs && context.state.pending.Some?
      modifies this`log, context, context.store
      ensures Logged() && Lasts(old(Durable()), Durable()) && old(log) <= log
      ensures ok ==> RoundSummary(run.batchId) in context.store.receipts
    {
      var asked := Ask(run, host);
      if asked.None? {
        return false;
      }
      ok := Answer(run, host, asked.value.0, asked.value.1);
    }

    /** Waits for its turn, sends unless there is a cached answer, and waits for what comes back. */
    method Ask(run: AgentRun, host: Host) returns (asked: Option<(Id, bool)>)
      requires Logged() && run in runs && context.state.pending.Some?
      modifies this`log, context, context.store
      ensures Logged() && Lasts(old(Durable()), Durable()) && old(log) <= log
      ensures host.reply.Refused? ==> asked.None?
      ensures asked.Some? ==> asked.value.1 == (host.reply.Failed? || !host.reply.fromCache)
    {
      var id := context.state.pending.value.id;
      Wait(run, host.whileQueued);
      if host.reply.Refused? {
        return None;
      }
      var sent := host.reply.Failed? || !host.reply.fromCache;
      if sent {
        var begun := Send(run);
        if begun.None? {
          return None;
        }
        id := begun.value;
      }
      Wait(run, host.whileSummarizing);
      return Some((id, sent));
    }

    /** The hook before sending: counts the attempt and names the summary it is for. */
    method Send(run: AgentRun) returns (id: Option<Id>)
      requires Logged() && run in runs
      modifies this`log, context, context.store
      ensures Logged() && Lasts(old(Durable()), Durable()) && old(log) <= log
      ensures id.Some? ==> context.state.pending.Some? && context.state.pending.value.id == id.value
    {
      var error := BeginAttempt(run);
      if error.Some? {
        return None;
      }
      return Some(context.state.pending.value.id);
    }

    /** What comes back: a summary to commit, or a failure to note if the request was sent. */
    method Answer(run: AgentRun, host: Host, id: Id, sent: bool) returns (ok: bool)
      requires Logged() && run in runs && !host.reply.Refused?
      modifies this`log, context, context.store
      ensures Logged() && Lasts(old(Durable()), Durable()) && old(log) <= log
      ensures ok ==> RoundSummary(run.batchId) in context.store.receipts
    {
      if host.reply.Answered? && host.reply.summary.Some? {
        SummarySigns(context.size, Durable(), run.batchId, id, host.reply.summary.value);
        var error := CommitPhase(run, id, host.reply.summary.value);
        if error.None? {
          return RoundSummary(run.batchId) in context.store.receipts;
        }
      }
      if sent {
        FailAttempt(run, id, host.reply.message);
      }
      return false;
    }

    /** The scheduler gave up this run and nothing else changed there: the batch is either over or still its own. */
    twostate predicate Released(run: AgentRun, intent: Intent)
      reads scheduler
    {
      scheduler.running.None? && scheduler.finished == old(scheduler.finished)[run.batchId := intent]
    }

    /** The body of one execution, up to but not including the handling of a thrown error. */
    method Attempt(run: AgentRun, host: Host) returns (result: Outcome)
      requires Logged() && run in runs && scheduler.running == Some(run.batchId)
      requires |host.events| == |run.events| && |host.operations| == |run.operations|
      modifies this`log, this`decided, context, context.store, scheduler
      ensures Logged() && Lasts(old(Durable()), Durable()) && old(log) <= log
      ensures result.Threw? ==> unchanged(scheduler)
      ensures result.Worked? ==> decided == old(decided) + multiset{run.batchId}
      ensures result.Worked? || result.Replayed? ==> run.batchId in scheduler.finished
      ensures !result.Threw? ==> GivenUp(run, old(context.store.receipts))
      ensures old(RoundDone(run.batchId) in context.store.receipts) ==>
                (result.Replayed? || result.Threw?) && Durable() == old(Durable()) && decided == old(decided)
    {
      if host.aborted {
        return Threw;
      }
      if RoundDone(run.batchId) in context.store.receipts {
        var intent := NextIntent(context.state, context.store.receipts[RoundDone(run.batchId)]);
        var ok := Done(run, intent, host.finishFails);
        return if ok then Replayed else Threw;
      }
      result := AttemptNew(run, host);
    }

    /** A batch whose round is not done: resolve its inputs, receive them, and go on from there. */
    method AttemptNew(run: AgentRun, host: Host) returns (result: Outcome)
      requires Logged() && run in runs && scheduler.running == Some(run.batchId)
      requires |host.events| == |run.events| && |host.operations| == |run.operations|
      requires RoundDone(run.batchId) !in context.store.receipts
      modifies this`log, this`decided, context, context.store, scheduler
      ensures Logged() && Lasts(old(Durable()), Durable()) && old(log) <= log
      ensures result.Threw? ==> unchanged(scheduler)
      ensures result.Worked? ==> decided == old(decided) + multiset{run.batchId}
      ensures result.Worked? || result.Replayed? ==> run.batchId in scheduler.finished
      ensures !result.Threw? ==> GivenUp(run, old(context.store.receipts))
    {
      var resolved := Resolve(run, host);
      Wait(run, host.whileResolving);
      if resolved.None? {
        return Threw;
      }
      var error, received := ReceiveBatch(run, resolved.value);
      if error.Some? {
        return Threw;
      }
      result := Proceed(run, host, received);
    }

    /** The run is gone; if the batch is over, its round is done and the scheduler knows whether more is to come. */
    twostate predicate GivenUp(run: AgentRun, receipts: map<ReceiptKey, Intent>)
      reads context, context.store, scheduler
    {
      && scheduler.running.None?
      && (scheduler.finished == old(scheduler.finished)
          || exists intent ::
               && Released(run, intent)
               && RoundDone(run.batchId) in context.store.receipts
               && (NeedsRun(context.state) ==> intent.Continue?)
               && (intent.Continue? ==>
                     NeedsRun(context.state)
                     || (RoundDone(run.batchId) in receipts && receipts[RoundDone(run.batchId)].Continue?)))
    }

    /** After receiving: replay a round whose summary is committed, send the sealed summary, or do the agent's work. */
    method Proceed(run: AgentRun, host: Host, received: bool) returns (result: Outcome)
      requires Logged() && run in runs && scheduler.running == Some(run.batchId)
      requires received ==> AllRecorded(InputKeys(run), context.store.records)
      requires RoundDone(run.batchId) !in context.store.receipts
      modifies this`log, this`decided, context, context.store, scheduler
      ensures Logged() && Lasts(old(Durable()), Durable()) && old(log) <= log
      ensures result.Threw? ==> unchanged(scheduler)
      ensures result.Worked? ==> decided == old(decided) + multiset{run.batchId}
      ensures result.Worked? || result.Replayed? ==> run.batchId in scheduler.finished
      ensures !result.Threw? ==> GivenUp(run, old(context.store.receipts))
    {
      if received && RoundSummary(run.batchId) in context.store.receipts {
        result := FinishAcknowledged(run, host, Replayed);
      } else if context.state.pending.Some? {
        result := Summarize(run, host, received);
      } else if received {
        result := WorkRound(run, host);
      } else {
        result := Threw;
      }
    }

    method Summarize(run: AgentRun, host: Host, received: bool) returns (result: Outcome)
      requires Logged() && run in runs && scheduler.running == Some(run.batchId) && context.state.pending.Some?
      requires received ==> AllRecorded(InputKeys(run), context.store.records)
      requires RoundDone(run.batchId) !in context.store.receipts
      modifies this`log, context, context.store, scheduler
      ensures Logged() && Lasts(old(Durable()), Durable()) && old(log) <= log
      ensures result.Summarized? || result.Threw?
      ensures result.Threw? ==> unchanged(scheduler)
      ensures result.Summarized? ==> GivenUp(run, old(context.store.receipts))
      ensures result.Summarized? && !received ==> scheduler.finished == old(scheduler.finished)
    {
      var ok := SummaryRound(run, host);
      if !ok {
        return Threw;
      }
      if received {
        result := FinishAcknowledged(run, host, Summarized);
        if result.Summarized? {
          assert Released(run, NextIntent(context.state, Rest));
        }
      } else {
        // The summary is committed, but inputs of the batch are still outside: only the run is given up.
        scheduler.ReturnRun(run.batchId);
        result := Summarized;
      }
    }

    method FinishAcknowledged(run: AgentRun, host: Host, success: Outcome) returns (result: Outcome)
      requires Logged() && run in runs && scheduler.running == Some(run.batchId)
      requires AllRecorded(InputKeys(run), context.store.records)
      requires success.Replayed? || success.Summarized?
      modifies this`log, context, context.store, scheduler
      ensures Logged() && Lasts(old(Durable()), Durable()) && old(log) <= log
      ensures result == success || result.Threw?
      ensures result.Threw? ==> unchanged(scheduler)
      ensures !result.Threw? ==>
                Released(run, NextIntent(context.state, Rest)) && RoundDone(run.batchId) in context.store.receipts
    {
      var error := Acknowledge(run);
      if error.Some? {
        return Threw;
      }
      var ok := Done(run, NextIntent(context.state, Rest), host.finishFails);
      result := if ok then success else Threw;
    }

    method WorkRound(run: AgentRun, host: Host) returns (result: Outcome)
      requires Logged() && run in runs && scheduler.running == Some(run.batchId)
      requires AllRecorded(InputKeys(run), context.store.records)
      requires RoundDone(run.batchId) !in context.store.receipts
      modifies this`log, this`decided, context, context.store, scheduler
      ensures Logged() && Lasts(old(Durable()), Durable()) && old(log) <= log
      ensures result.Worked? || result.Threw?
      ensures result.Threw? ==> unchanged(scheduler)
      ensures result.Worked? ==>
                && Released(run, NextIntent(context.state, Rest)) && RoundDone(run.batchId) in context.store.receipts
                && decided == old(decided) + multiset{run.batchId}
    {
      var frame := Active(context.state.context);
      var cursor := Cursor(frame.id, frame.chain.revision);
      Wait(run, host.whileWorking);
      if host.work.None? || !MayEnd(host.work.value.0, host) {
        return Threw;
      }
      result := Conclude(run, cursor, host);
    }

    /** Applies what the work came to and reports the batch as over. */
    method Conclude(run: AgentRun, cursor: Cursor, host: Host) returns (result: Outcome)
      requires Logged() && run in runs && scheduler.running == Some(run.batchId) && host.work.Some?
      requires AllRecorded(InputKeys(run), context.store.records)
      requires RoundDone(run.batchId) !in context.store.receipts
      modifies this`log, this`decided, context, context.store, scheduler
      ensures Logged() && Lasts(old(Durable()), Durable()) && old(log) <= log
      ensures result.Worked? || result.Threw?
      ensures result.Threw? ==> unchanged(scheduler)
      ensures result.Worked? ==>
                && Released(run, NextIntent(context.state, Rest)) && RoundDone(run.batchId) in context.store.receipts
                && decided == old(decided) + multiset{run.batchId}
    {
      var error := Decide(run, cursor, host.work.value.0, host.work.value.1);
      if error.Some? {
        return Threw;
      }
      var ok := Done(run, NextIntent(context.state, Rest), host.finishFails);
      result := if ok then Worked else Threw;
    }

    /**
     * Executes one dispatched run. Whatever the host and the ports do, the run is given up: either the batch is
     * finished, and then all its inputs are durably recorded and its round is done, or it is returned whole.
     */
    method Execute(run: AgentRun, host: Host) returns (result: Outcome)
      requires Valid() && run in runs
      requires |host.events| == |run.events| && |host.operations| == |run.operations|
      modifies this, context, context.store, scheduler
      ensures Valid() && Lasts(old(Durable()), Durable()) && old(log) <= log
      ensures old(busy) || old(scheduler.running) != Some(run.batchId) ==>
                result.Threw? && busy == old(busy) && unchanged(scheduler) && Durable() == old(Durable())
      ensures !old(busy) && old(scheduler.running) == Some(run.batchId) ==>
                && !busy && GivenUp(run, old(context.store.receipts))
                && (scheduler.finished != old(scheduler.finished) ==>
                      AllRecorded(InputKeys(run), context.store.records))
                && (result.Threw? ==> scheduler.finished == old(scheduler.finished))
                && (result.Worked? || result.Replayed? ==> run.batchId in scheduler.finished)
                && (result.Worked? ==> decided == old(decided) + multiset{run.batchId})
      ensures old(RoundDone(run.batchId) in context.store.receipts) ==>
                (result.Replayed? || result.Threw?) && Durable() == old(Durable()) && decided == old(decided)
    {
      if busy || scheduler.running != Some(run.batchId) {
        return Threw;
      }
      busy := true;
      result := Attempt(run, host);
      NowOk();
      if result.Threw? {
        scheduler.ReturnRun(run.batchId);
      }
      busy := false;
    }
  }

  /**
   * A new process on what a crash left: the store and the scheduler's finished batches. Every state that a log of
   * durable steps leads to meets the requirement, so a restart never fails, and the new log starts from there.
   */
  method Restart(size: Sizes, store: InMemoryStore, scheduler: SchedulerPort, ghost runs: set<AgentRun>,
                 ghost m: Moment)
    returns (runner: Runner)
    requires store.state.Some? && m.world == World(store.state.value, store.records, store.receipts, store.next)
    requires m.finished == scheduler.finished && MomentOk(size, runs, m)
    ensures fresh(runner) && runner.scheduler == scheduler && runner.runs == runs && runner.context.store == store
    ensures runner.Valid() && !runner.busy && runner.log == [] && runner.start == m
  {
    var context := ContextManager.Restore(size, store);
    runner := new Runner(context.value, scheduler, runs, m.decided);
  }
}
