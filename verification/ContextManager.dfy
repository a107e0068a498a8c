/** The manager object: it drafts from a checkpoint in memory, validates and publishes. */
module ContextManager {
  // While the manager is current, every operation is exactly its function on the durable state, although only that
  // function's own checks and the capacity and text clauses of the validator appear there.

  import opened Basics
  import opened ContextModel
  import opened ContextRules
  import opened ContextSummaries
  import opened ContextTasks
  import opened ContextInbox
  import opened ContextCheckpoint
  import opened ContextStore
  import opened ContextStructure
  import opened ContextWorld
  import opened ContextInvariant

  /** An operation either throws and changes nothing, or leaves the state its function names. */
  predicate Answers(error: Option<Error>, before: World, after: World, expected: Result<World, Error>) {
    match expected
    case Success(w) => error.None? && after == w
    case Failure(e) => error == Some(e) && after == before
  }

  predicate HasBudget(p: Policy, b: Budget) {
    p.budget1 == b && p.budget2 == b && p.budget3 == b
  }

  /** The durable state once a checked draft, which has the next revision already, is committed and adopted. */
  function Adopted(w: World, revised: Checkpoint, d: Draft, keys: seq<ReceiptKey>): Result<World, Error> {
    var stored :- AfterCommit(StoredOf(w), Some(w.state.revision), revised, d.writes,
                              ReceiptsFor(keys, revised.runnable));
    Success(World(revised, stored.records, stored.receipts, d.next))
  }

  class Manager {
    const size: Sizes
    const store: InMemoryStore
    var state: Checkpoint

    /** Adopts a checkpoint that the store holds. */
    constructor (size: Sizes, store: InMemoryStore, state: Checkpoint)
      requires store.state == Some(state)
      requires Inv(size, World(state, store.records, store.receipts, store.next))
      ensures this.size == size && this.store == store && this.state == state
      ensures Valid() && Current()
    {
      this.size, this.store, this.state := size, store, state;
    }

    /** The store has not moved on since this manager last read or wrote it. */
    predicate Current()
      reads this, store
    {
      store.state == Some(state)
    }

    function Durable(): World
      reads this, store
    {
      World(state, store.records, store.receipts, store.next)
    }

    ghost predicate Valid()
      reads this, store
    {
      && store.state.Some?
      && state.revision <= store.state.value.revision
      && (state.revision == store.state.value.revision ==> Current())
      && (Current() ==> Inv(size, Durable()))
    }

    /** Nothing of these deliveries is new and has room. */
    predicate NothingFits(ds: seq<Delivery>)
      reads this, store
    {
      var unseen := Unreceived(size, Durable(), [], ds);
      unseen.Success? && Prefix(unseen.value, Available(state)) == []
    }

    /** The run-time check of a draft, which has the next revision already. */
    method Check(revised: Checkpoint) returns (error: Option<Error>)
      ensures error.None? ==> revised.revision <= MAX_SAFE_INTEGER && ContextRules.Valid(size, revised)
      ensures revised.revision > MAX_SAFE_INTEGER ==> error == Some(InvalidInput)
      ensures revised.revision <= MAX_SAFE_INTEGER && Structured(size, revised) ==> error == Verdict(size, revised)
    {
      if revised.revision > MAX_SAFE_INTEGER {
        return Some(InvalidInput);
      }
      error := ValidateCheckpoint(size, revised);
    }

    /** Commits a draft that has passed the check; memory follows only after the store has accepted. */
    method Settle(m: Mutation, revised: Checkpoint, keys: seq<ReceiptKey>) returns (error: Option<Error>)
      requires Valid() && revised.revision == state.revision + 1
      requires Current() && Adopted(Durable(), revised, m.Value(), keys).Success? ==>
                 Inv(size, Adopted(Durable(), revised, m.Value(), keys).value)
      modifies this, store
      ensures Valid()
      ensures old(Current()) ==>
                && Current()
                && Answers(error, old(Durable()), Durable(), Adopted(old(Durable()), revised, old(m.Value()), keys))
      ensures !old(Current()) ==> state == old(state) && unchanged(store) && error.Some?
    {
      error := store.Commit(Some(state.revision), revised, m.writes, ReceiptsFor(keys, revised.runnable));
      if error.None? {
        store.next := m.next;
        state := revised;
      }
    }

    /**
     * Validates the draft at run time and commits it; memory follows only after the store has accepted. A manager
     * that is no longer current is refused, so no operation of it that has something to publish succeeds.
     */
    method Publish(m: Mutation, keys: seq<ReceiptKey>) returns (error: Option<Error>)
      requires Valid() && m.state.revision == state.revision
      requires Current() && m.state.revision < MAX_SAFE_INTEGER ==> Structured(size, m.state)
      requires Current() && Published(size, Durable(), m.Value(), keys).Success? ==>
                 Inv(size, Published(size, Durable(), m.Value(), keys).value)
      modifies this, store
      ensures Valid()
      ensures old(Current()) ==>
                && Current()
                && Answers(error, old(Durable()), Durable(), Published(size, old(Durable()), old(m.Value()), keys))
      ensures !old(Current()) ==> state == old(state) && unchanged(store) && error.Some?
    {
      var revised := m.state.(revision := m.state.revision + 1);
      error := Check(revised);
      if error.Some? {
        return;
      }
      error := Settle(m, revised, keys);
    }

    method FreshFrom(ds: seq<Delivery>) returns (r: Result<seq<Delivery>, Error>)
      ensures r == Unreceived(size, Durable(), [], ds)
    {
      var unseen: seq<Delivery> := [];
      for i := 0 to |ds|
        invariant Unreceived(size, Durable(), [], ds) == Unreceived(size, Durable(), unseen, ds[i..])
      {
        var d := ds[i];
        assert ds[i..][0] == d && ds[i..][1..] == ds[i + 1..];
        if !DeliveryShape(d) {
          return Failure(InvalidInput);
        }
        if size.delivery(d) > state.policy.maxDeliveryBytes {
          return Failure(BudgetExceeded);
        }
        var ref := InputRef(d.key);
        var duplicate := FindKey(unseen, d.key);
        if duplicate.Some? || ref in store.records {
          var same := if duplicate.Some? then duplicate.value == d else store.records[ref] == HistoryRecord(d);
          if !same {
            return Failure(InvalidInput);
          }
        } else {
          unseen := unseen + [d];
        }
      }
      return Success(unseen);
    }

    method Accept(unseen: seq<Delivery>) returns (error: Option<Error>)
      requires Valid()
      requires Current() ==>
                 FreshDeliveries(size, Durable(), unseen) && |state.inbox| + |unseen| <= state.policy.maxInbox
      modifies this, store
      ensures Valid()
      ensures old(Current()) ==>
                Current() && Answers(error, old(Durable()), Durable(), Accepted(size, old(Durable()), unseen))
      ensures !old(Current()) ==> state == old(state) && unchanged(store) && (error.Some? || unseen == [])
    {
      if |unseen| == 0 {
        return None;
      }
      var m := new Mutation(state, store.next);
      m.state := m.state.(inbox := m.state.inbox + unseen, runnable := true);
      m.writes := HistoryWrites(unseen);
      if Current() {
        if state.revision < MAX_SAFE_INTEGER {
          AcceptPublishable(size, Durable(), unseen);
        }
        if Accepted(size, Durable(), unseen).Success? {
          AcceptKeeps(size, Durable(), unseen);
        }
      }
      error := Publish(m, []);
    }

    method Receive(ds: seq<Delivery>) returns (error: Option<Error>)
      requires Valid()
      modifies this, store
      ensures Valid()
      ensures old(Current()) ==>
                Current() && Answers(error, old(Durable()), Durable(), AfterReceive(size, old(Durable()), ds))
      ensures !old(Current()) ==>
                state == old(state) && unchanged(store)
                  && (error.Some? || Unreceived(size, Durable(), [], ds) == Success([]))
    {
      var unseen := FreshFrom(ds);
      if unseen.Failure? {
        return Some(unseen.error);
      }
      if |state.inbox| + |unseen.value| > state.policy.maxInbox {
        return Some(BudgetExceeded);
      }
      if Current() {
        UnreceivedFresh(size, Durable(), [], ds);
      }
      error := Accept(unseen.value);
    }

    /** Receives what the inbox has room for; the answer says whether that was everything. */
    method ReceiveAvailable(ds: seq<Delivery>) returns (error: Option<Error>, all: bool)
      requires Valid()
      modifies this, store
      ensures Valid()
      ensures old(Current()) ==>
                && Current()
                && Answers(error, old(Durable()), Durable(), AfterReceiveAvailable(size, old(Durable()), ds))
                && (error.None? ==> all == ReceivesAll(size, old(Durable()), ds))
      ensures !old(Current()) ==> state == old(state) && unchanged(store) && (error.Some? || NothingFits(ds))
    {
      var unseen := FreshFrom(ds);
      if unseen.Failure? {
        return Some(unseen.error), false;
      }
      var available := Available(state);
      if Current() {
        UnreceivedFresh(size, Durable(), [], ds);
        FreshPrefix(size, Durable(), unseen.value, available);
      }
      all := |unseen.value| <= available;
      error := Accept(Prefix(unseen.value, available));
    }

    method Prepare() returns (error: Option<Error>)
      requires Valid()
      modifies this, store
      ensures Valid()
      ensures old(Current()) ==>
                Current() && Answers(error, old(Durable()), Durable(), AfterPrepare(size, old(Durable())))
      ensures !old(Current()) ==> state == old(state) && unchanged(store) && (error.Some? || state.pending.Some?)
    {
      if state.pending.Some? {
        return None;
      }
      var m := new Mutation(state, store.next);
      ghost var d := m.Value();
      error := DrainInbox(size, m);
      if error.Some? {
        return;
      }
      DrainWrites(size, d, state.inbox);
      if Current() {
        if state.revision < MAX_SAFE_INTEGER {
          DrainKeepsStructure(size, DraftOf(Durable()));
        }
        if AfterPrepare(size, Durable()).Success? {
          PrepareKeeps(size, Durable());
        }
      }
      error := Publish(m, []);
    }

    /** The decision's draft; the business record is archived with it, so later compaction cannot lose it. */
    method DraftDecision(decision: Decision, entries: seq<Entry>) returns (error: Option<Error>, m: Mutation)
      ensures fresh(m)
      ensures match AfterDecision(DraftOf(Durable()), decision, entries)
              case Success(d) => error.None? && m.Value() == Archive(d).0
              case Failure(e) => error == Some(e)
    {
      m := new Mutation(state, store.next);
      error := ApplyDecision(m, decision, entries);
      if error.None? {
        var _ := m.ArchiveContext();
      }
    }

    method PublishDecision(m: Mutation, round: string, decision: Decision, entries: seq<Entry>)
      returns (error: Option<Error>)
      requires Valid() && state.pending.None? && RoundDone(round) !in store.receipts
      requires AfterDecision(DraftOf(Durable()), decision, entries).Success?
      requires m.Value() == Archive(AfterDecision(DraftOf(Durable()), decision, entries).value).0
      modifies this, store
      ensures Valid()
      ensures old(Current()) ==>
                && Current()
                && Answers(error, old(Durable()), Durable(),
                           Published(size, old(Durable()), old(m.Value()), [RoundDone(round)]))
      ensures !old(Current()) ==> state == old(state) && unchanged(store) && error.Some?
    {
      DecisionPublishable(size, Durable(), round, decision, entries);
      error := Publish(m, [RoundDone(round)]);
    }

    method Apply(round: string, cursor: Cursor, decision: Decision, entries: seq<Entry>) returns (error: Option<Error>)
      requires Valid()
      modifies this, store
      ensures Valid()
      ensures old(Current()) ==>
                && Current()
                && Answers(error, old(Durable()), Durable(),
                           AfterApply(size, old(Durable()), round, cursor, decision, entries))
      ensures !old(Current()) ==>
                state == old(state) && unchanged(store) && (error.Some? || RoundDone(round) in store.receipts)
    {
      if !Text(round) {
        return Some(InvalidInput);
      }
      if RoundDone(round) in store.receipts {
        return None;
      }
      if state.pending.Some? {
        return Some(InvalidState);
      }
      if !AtCursor(Active(state.context), cursor) {
        return Some(StaleContext);
      }
      var m;
      error, m := DraftDecision(decision, entries);
      if error.None? {
        error := PublishDecision(m, round, decision, entries);
      }
    }

    method TouchPendingSummary(p: Pending) returns (error: Option<Error>)
      requires Valid() && state.pending.Some?
      requires p == state.pending.value.(attempts := p.attempts, lastError := p.lastError)
      requires Current() ==> p.attempts <= state.policy.maxSummaryAttempts
      modifies this, store
      ensures Valid()
      ensures old(Current()) ==>
                && Current()
                && Answers(error, old(Durable()), Durable(),
                           Published(size, old(Durable()), WithPending(old(Durable()), p), []))
      ensures !old(Current()) ==> state == old(state) && unchanged(store) && error.Some?
    {
      var m := new Mutation(state, store.next);
      m.state := m.state.(pending := Some(p));
      if Current() {
        TouchPending(size, Durable(), p);
      }
      error := Publish(m, []);
    }

    method BeginSummaryAttempt() returns (error: Option<Error>)
      requires Valid()
      modifies this, store
      ensures Valid()
      ensures old(Current()) ==>
                Current() && Answers(error, old(Durable()), Durable(), AfterBeginAttempt(size, old(Durable())))
      ensures !old(Current()) ==> state == old(state) && unchanged(store) && error.Some?
    {
      if state.pending.None? {
        return Some(InvalidState);
      }
      var p := state.pending.value;
      if p.attempts >= state.policy.maxSummaryAttempts {
        return Some(RetryExhausted);
      }
      error := TouchPendingSummary(p.(attempts := p.attempts + 1));
    }

    method RetrySummary() returns (error: Option<Error>)
      requires Valid()
      modifies this, store
      ensures Valid()
      ensures old(Current()) ==>
                Current() && Answers(error, old(Durable()), Durable(), AfterRetry(size, old(Durable())))
      ensures !old(Current()) ==> state == old(state) && unchanged(store) && error.Some?
    {
      if state.pending.None? {
        return Some(InvalidState);
      }
      error := TouchPendingSummary(state.pending.value.(attempts := 0));
    }

    method FailSummary(id: Id, message: string) returns (error: Option<Error>)
      requires Valid()
      modifies this, store
      ensures Valid()
      ensures old(Current()) ==>
                Current() && Answers(error, old(Durable()), Durable(), AfterFail(size, old(Durable()), id, message))
      ensures !old(Current()) ==> state == old(state) && unchanged(store) && error.Some?
    {
      if state.pending.None? || state.pending.value.id != id {
        return Some(StaleContext);
      }
      error := TouchPendingSummary(state.pending.value.(lastError := Some(ErrorText(message))));
    }

    /** Folds a summary into a fresh draft and publishes it under the given receipts. */
    method Integrate(id: Id, summary: Summary, keys: seq<ReceiptKey>) returns (error: Option<Error>)
      requires Valid()
      requires Current() ==> Unused(Durable(), Draft(state, [], store.next), keys)
      requires forall i :: 0 <= i < |keys| && keys[i].SummaryDone? ==> keys[i].id == id
      modifies this, store
      ensures Valid()
      ensures old(Current()) ==>
                && Current()
                && var d := AfterIntegrate(size, DraftOf(old(Durable())), id, summary);
                   Answers(error, old(Durable()), Durable(),
                           if d.Success? then Published(size, old(Durable()), d.value, keys) else Failure(d.error))
      ensures !old(Current()) ==> state == old(state) && unchanged(store) && error.Some?
    {
      var m := new Mutation(state, store.next);
      error := IntegrateSummary(size, m, id, summary);
      if error.Some? {
        return;
      }
      IntegrateWrites(size, Durable(), id, summary);
      if Current() {
        if state.revision < MAX_SAFE_INTEGER {
          IntegrateKeepsStructure(size, DraftOf(Durable()), id, summary);
        }
        if Published(size, Durable(), m.Value(), keys).Success? {
          IntegrateKeeps(size, Durable(), id, summary, keys);
        }
      }
      error := Publish(m, keys);
    }

    method CommitSummaryPhase(round: string, id: Id, summary: Summary) returns (error: Option<Error>)
      requires Valid()
      modifies this, store
      ensures Valid()
      ensures old(Current()) ==>
                && Current()
                && Answers(error, old(Durable()), Durable(),
                           AfterSummaryPhase(size, old(Durable()), round, id, summary))
      ensures !old(Current()) ==>
                state == old(state) && unchanged(store) && (error.Some? || SummaryDone(id) in store.receipts)
    {
      if !Text(round) {
        return Some(InvalidInput);
      }
      if SummaryDone(id) in store.receipts {
        return None;
      }
      var keys := [SummaryDone(id)];
      if RoundSummary(round) !in store.receipts {
        keys := keys + [RoundSummary(round)];
      }
      assert keys == PhaseKeys(Durable(), round, id);
      error := Integrate(id, summary, keys);
    }

    method AcknowledgeRound(round: string) returns (error: Option<Error>)
      requires Valid()
      modifies this, store
      ensures Valid()
      ensures old(Current()) ==>
                Current() && Answers(error, old(Durable()), Durable(), AfterAcknowledge(size, old(Durable()), round))
      ensures !old(Current()) ==>
                state == old(state) && unchanged(store) && (error.Some? || RoundDone(round) in store.receipts)
    {
      if !Text(round) {
        return Some(InvalidInput);
      }
      if RoundDone(round) in store.receipts {
        return None;
      }
      if RoundSummary(round) !in store.receipts {
        return Some(InvalidState);
      }
      var m := new Mutation(state, store.next);
      if Current() {
        AcknowledgeKeeps(size, Durable(), round);
      }
      error := Publish(m, [RoundDone(round)]);
    }

    method CommitSummary(round: string, id: Id, summary: Summary) returns (error: Option<Error>)
      requires Valid()
      modifies this, store
      ensures Valid()
      ensures old(Current()) ==>
                && Current()
                && Answers(error, old(Durable()), Durable(),
                           AfterCommitSummary(size, old(Durable()), round, id, summary))
      ensures !old(Current()) ==>
                state == old(state) && unchanged(store) && (error.Some? || RoundDone(round) in store.receipts)
    {
      if !Text(round) {
        return Some(InvalidInput);
      }
      if RoundDone(round) in store.receipts {
        return None;
      }
      error := Integrate(id, summary, [RoundDone(round)]);
    }

    method ConfigureBudget(b: Budget) returns (error: Option<Error>)
      requires Valid()
      modifies this, store
      ensures Valid()
      ensures old(Current()) ==>
                Current() && Answers(error, old(Durable()), Durable(), AfterConfigureBudget(size, old(Durable()), b))
      ensures !old(Current()) ==> state == old(state) && unchanged(store) && (error.Some? || HasBudget(state.policy, b))
    {
      if !BudgetShape(b) {
        return Some(InvalidInput);
      }
      var policy := state.policy;
      if policy.budget1 == b && policy.budget2 == b && policy.budget3 == b {
        return None;
      }
      var m := DraftBudget(b);
      error := PublishBudget(m, b);
    }

    method DraftBudget(b: Budget) returns (m: Mutation)
      ensures fresh(m) && m.Value() == BudgetDraft(Durable(), b)
    {
      m := new Mutation(state, store.next);
      RebudgetFrames(m, b);
      if m.state.pending.Some? {
        var ref := m.ArchiveContext();
        var p := m.state.pending.value;
        m.state := m.state.(pending := Some(p.(sourceRef := ref, allowedRefs := p.allowedRefs + {ref})));
      }
    }

    method PublishBudget(m: Mutation, b: Budget) returns (error: Option<Error>)
      requires Valid() && BudgetShape(b) && m.Value() == BudgetDraft(Durable(), b)
      modifies this, store
      ensures Valid()
      ensures old(Current()) ==>
                && Current()
                && Answers(error, old(Durable()), Durable(), Published(size, old(Durable()), old(m.Value()), []))
      ensures !old(Current()) ==> state == old(state) && unchanged(store) && error.Some?
    {
      if Current() && state.revision < MAX_SAFE_INTEGER {
        BudgetPublishable(size, Durable(), b);
        if Published(size, Durable(), m.Value(), []).Success? {
          PublishKeeps(size, Durable(), m.Value(), []);
        }
      }
      error := Publish(m, []);
    }
  }

  /** Gives every live frame of the draft, and the policy, the same budget. */
  method RebudgetFrames(m: Mutation, b: Budget)
    modifies m
    ensures m.Value() == old(m.Value()).(state := old(m.state).(
              context := Rebudgeted(old(m.state).context, b),
              policy := old(m.state).policy.(budget1 := b, budget2 := b, budget3 := b)))
  {
    var c := m.state.context;
    m.state := m.state.(policy := m.state.policy.(budget1 := b, budget2 := b, budget3 := b));
    m.state := m.state.(context := c.(level1 := c.level1.(budget := b)));
    if c.level2.Some? {
      m.state := m.state.(context := m.state.context.(level2 := Some(c.level2.value.(budget := b))));
    }
    if c.level3.Some? {
      m.state := m.state.(context := m.state.context.(level3 := Some(c.level3.value.(budget := b))));
    }
  }

  /** Installs the root frame of a new agent; a store without a checkpoint holds no records either. */
  method Create(size: Sizes, store: InMemoryStore, policy: Policy, instructions: seq<string>, objective: string,
                idle: bool)
    returns (r: Result<Manager, Error>)
    requires store.state.None? ==> store.records == map[] && store.receipts == map[]
    modifies store
    ensures old(store.state).None? ==>
              match Created(size, old(store.next), policy, instructions, objective, idle)
              case Success(w) => r.Success? && fresh(r.value) && r.value.store == store && r.value.size == size
                                 && r.value.Valid() && r.value.Current() && r.value.Durable() == w
              case Failure(e) => r == Failure(e) && unchanged(store)
    ensures old(store.state).Some? ==> r.Failure? && unchanged(store)
  {
    if !PolicyShape(policy) || !Texts(instructions) || !Text(objective) {
      return Failure(InvalidInput);
    }
    var initial := InitialCheckpoint(policy, instructions, objective, idle, store.next);
    InitialStructured(size, policy, instructions, objective, idle, store.next);
    var error := ValidateCheckpoint(size, initial);
    if error.Some? {
      return Failure(error.value);
    }
    CreatedInv(size, store.next, policy, instructions, objective, idle);
    error := store.Commit(None, initial, [], []);
    if error.Some? {
      return Failure(error.value);
    }
    store.next := store.next + 2;
    var manager := new Manager(size, store, initial);
    return Success(manager);
  }

  /** Rebuilds a manager from the store, refusing malformed data and a summary source that is not the live context. */
  method Restore(size: Sizes, store: InMemoryStore) returns (r: Result<Manager, Error>)
    requires store.state.Some? ==> Inv(size, World(store.state.value, store.records, store.receipts, store.next))
    ensures store.state.None? ==> r == Failure(InvalidInput)
    ensures store.state.Some? ==>
              && r.Success? && fresh(r.value) && r.value.store == store && r.value.size == size
              && r.value.Valid() && r.value.Current()
              && r.value.Durable() == World(store.state.value, store.records, store.receipts, store.next)
  {
    if store.state.None? {
      return Failure(InvalidInput);
    }
    var checkpoint := store.state.value;
    var error := ValidateCheckpoint(size, checkpoint);
    if error.Some? {
      return Failure(InvalidInput);
    }
    if checkpoint.pending.Some? {
      SealedSourceAccepted(size, World(checkpoint, store.records, store.receipts, store.next));
      var ref := checkpoint.pending.value.sourceRef;
      if ref !in store.records || !store.records[ref].FrameRecord? {
        return Failure(InvalidInput);
      }
      error := ValidateCheckpoint(size, RecordProbe(store.records[ref].context));
      if error.Some? || store.records[ref].context != checkpoint.context {
        return Failure(InvalidInput);
      }
    }
    var manager := new Manager(size, store, checkpoint);
    return Success(manager);
  }
}
