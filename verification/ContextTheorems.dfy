/** What the invariant gives a host: exact refusals, full drains, lasting history. */
module ContextTheorems {
  import opened Basics
  import opened ContextModel
  import opened ContextRules
  import opened ContextSummaries
  import opened ContextTasks
  import opened ContextInbox
  import opened ContextStore
  import opened ContextStructure
  import opened ContextWorld
  import opened ContextInvariant
  import opened ContextConservation

  // ---- the store never refuses the current manager ----

  lemma PublishableNoConflict(size: Sizes, w: World, d: Draft, keys: seq<ReceiptKey>)
    requires d.state.revision == w.state.revision
    requires w.state.revision < MAX_SAFE_INTEGER ==> Publishable(size, w, d, keys)
    ensures Published(size, w, d, keys) != Failure(StorageConflict)
  {
    if w.state.revision < MAX_SAFE_INTEGER {
      PublishDecides(size, w, d, keys);
    }
  }

  lemma {:induction false} DrainNoConflict(size: Sizes, d: Draft, rest: seq<Delivery>)
    ensures DrainFrom(size, d, rest) != Failure(StorageConflict)
    decreases |rest|
  {
    if |rest| > 0 {
      match Deliver(size, d, rest[0])
      case Go(next) => DrainNoConflict(size, next, rest[1..]);
      case End(_) =>
    }
  }

  lemma {:induction false} UnreceivedNoConflict(size: Sizes, w: World, acc: seq<Delivery>, ds: seq<Delivery>)
    ensures Unreceived(size, w, acc, ds) != Failure(StorageConflict)
    decreases |ds|
  {
    if |ds| > 0 {
      UnreceivedNoConflict(size, w, acc, ds[1..]);
      UnreceivedNoConflict(size, w, acc + [ds[0]], ds[1..]);
    }
  }

  lemma ApplyNoConflict(size: Sizes, w: World, round: string, cursor: Cursor, decision: Decision, entries: seq<Entry>)
    requires Inv(size, w)
    ensures AfterApply(size, w, round, cursor, decision, entries) != Failure(StorageConflict)
  {
    if RoundDone(round) !in w.receipts && w.state.pending.None? {
      DecisionErrors(DraftOf(w), decision, entries);
      if AfterDecision(DraftOf(w), decision, entries).Success? {
        DecisionNoConflict(size, w, AfterDecision(DraftOf(w), decision, entries).value, round, decision, entries);
      }
    }
  }

  lemma DecisionNoConflict(size: Sizes, w: World, d: Draft, round: string, decision: Decision, entries: seq<Entry>)
    requires Inv(size, w) && RoundDone(round) !in w.receipts && w.state.pending.None?
    requires AfterDecision(DraftOf(w), decision, entries) == Success(d)
    ensures Published(size, w, Archive(d).0, [RoundDone(round)]) != Failure(StorageConflict)
  {
    DecisionWrites(size, w, decision, entries);
    if w.state.revision < MAX_SAFE_INTEGER {
      DecisionReady(size, w, d, round, decision, entries);
    }
    PublishableNoConflict(size, w, Archive(d).0, [RoundDone(round)]);
  }

  lemma DecisionErrors(d: Draft, decision: Decision, entries: seq<Entry>)
    ensures AfterDecision(d, decision, entries) != Failure(StorageConflict)
  {
  }

  lemma PrepareNoConflict(size: Sizes, w: World)
    requires Inv(size, w)
    ensures AfterPrepare(size, w) != Failure(StorageConflict)
  {
    if w.state.pending.None? {
      DrainNoConflict(size, DraftOf(w), w.state.inbox);
      if AfterDrain(size, DraftOf(w)).Success? {
        var d := AfterDrain(size, DraftOf(w)).value;
        DrainWrites(size, DraftOf(w), w.state.inbox);
        if w.state.revision < MAX_SAFE_INTEGER {
          DrainReady(size, w, d);
        }
        PublishableNoConflict(size, w, d, []);
      }
    }
  }

  lemma ReceiveNoConflict(size: Sizes, w: World, ds: seq<Delivery>)
    requires Inv(size, w)
    ensures AfterReceive(size, w, ds) != Failure(StorageConflict)
    ensures AfterReceiveAvailable(size, w, ds) != Failure(StorageConflict)
  {
    UnreceivedNoConflict(size, w, [], ds);
    if Unreceived(size, w, [], ds).Success? {
      UnreceivedFresh(size, w, [], ds);
      var unseen := Unreceived(size, w, [], ds).value;
      AcceptNoConflict(size, w, unseen);
      FreshPrefix(size, w, unseen, Available(w.state));
      AcceptNoConflict(size, w, Prefix(unseen, Available(w.state)));
    }
  }

  lemma AcceptNoConflict(size: Sizes, w: World, ds: seq<Delivery>)
    requires Inv(size, w) && FreshDeliveries(size, w, ds)
    ensures |w.state.inbox| + |ds| <= w.state.policy.maxInbox ==> Accepted(size, w, ds) != Failure(StorageConflict)
  {
    if |w.state.inbox| + |ds| <= w.state.policy.maxInbox {
      var d := Draft(w.state.(inbox := w.state.inbox + ds, runnable := true), HistoryWrites(ds), w.next);
      if w.state.revision < MAX_SAFE_INTEGER {
        AcceptPublishable(size, w, ds);
      }
      PublishableNoConflict(size, w, d, []);
    }
  }

  lemma TouchNoConflict(size: Sizes, w: World, p: Pending)
    requires Inv(size, w) && w.state.pending.Some?
    requires p == w.state.pending.value.(attempts := p.attempts, lastError := p.lastError)
    requires p.attempts <= w.state.policy.maxSummaryAttempts
    ensures Published(size, w, WithPending(w, p), []) != Failure(StorageConflict)
  {
    TouchPending(size, w, p);
    PublishableNoConflict(size, w, WithPending(w, p), []);
  }

  lemma AttemptNoConflict(size: Sizes, w: World, id: Id, message: string)
    requires Inv(size, w)
    ensures AfterBeginAttempt(size, w) != Failure(StorageConflict)
    ensures AfterRetry(size, w) != Failure(StorageConflict)
    ensures AfterFail(size, w, id, message) != Failure(StorageConflict)
  {
    if w.state.pending.Some? {
      var p := w.state.pending.value;
      if p.attempts < w.state.policy.maxSummaryAttempts {
        TouchNoConflict(size, w, p.(attempts := p.attempts + 1));
      }
      TouchNoConflict(size, w, p.(attempts := 0));
      TouchNoConflict(size, w, p.(lastError := Some(ErrorText(message))));
    }
  }

  lemma IntegrateNoConflict(size: Sizes, w: World, id: Id, summary: Summary, keys: seq<ReceiptKey>)
    requires Inv(size, w) && Unused(w, Draft(w.state, [], w.next), keys)
    requires forall i :: 0 <= i < |keys| && keys[i].SummaryDone? ==> keys[i].id == id
    ensures AfterIntegrate(size, DraftOf(w), id, summary) != Failure(StorageConflict)
    ensures AfterIntegrate(size, DraftOf(w), id, summary).Success? ==>
              Published(size, w, AfterIntegrate(size, DraftOf(w), id, summary).value, keys) != Failure(StorageConflict)
  {
    if AfterIntegrate(size, DraftOf(w), id, summary).Success? {
      var d := AfterIntegrate(size, DraftOf(w), id, summary).value;
      IntegrateWrites(size, w, id, summary);
      if w.state.revision < MAX_SAFE_INTEGER {
        IntegrateKeepsStructure(size, DraftOf(w), id, summary);
        StepPublishable(size, w, d, keys);
      }
      PublishableNoConflict(size, w, d, keys);
    }
  }

  lemma SummaryNoConflict(size: Sizes, w: World, round: string, id: Id, summary: Summary)
    requires Inv(size, w)
    ensures AfterSummaryPhase(size, w, round, id, summary) != Failure(StorageConflict)
    ensures AfterCommitSummary(size, w, round, id, summary) != Failure(StorageConflict)
  {
    if SummaryDone(id) !in w.receipts {
      IntegrateNoConflict(size, w, id, summary, PhaseKeys(w, round, id));
    }
    if RoundDone(round) !in w.receipts {
      IntegrateNoConflict(size, w, id, summary, [RoundDone(round)]);
    }
  }

  /** For a manager that is current, no operation is ever refused by the store: its own guards come first. */
  lemma NoStorageConflict(size: Sizes, w: World, op: Op)
    requires Inv(size, w)
    ensures After(size, w, op) != Failure(StorageConflict)
  {
    match op
    case Receive(ds) => ReceiveNoConflict(size, w, ds);
    case ReceiveAvailable(ds) => ReceiveNoConflict(size, w, ds);
    case Prepare => PrepareNoConflict(size, w);
    case Apply(round, cursor, decision, entries) => ApplyNoConflict(size, w, round, cursor, decision, entries);
    case BeginAttempt => AttemptNoConflict(size, w, 0, "");
    case RetrySummary => AttemptNoConflict(size, w, 0, "");
    case FailSummary(id, message) => AttemptNoConflict(size, w, id, message);
    case SummaryPhase(round, id, summary) => SummaryNoConflict(size, w, round, id, summary);
    case CommitSummary(round, id, summary) => SummaryNoConflict(size, w, round, id, summary);
    case Acknowledge(round) =>
      if RoundDone(round) !in w.receipts {
        AcknowledgeKeeps(size, w, round);
        PublishableNoConflict(size, w, DraftOf(w), [RoundDone(round)]);
      }
    case ConfigureBudget(b) =>
      if BudgetShape(b) {
        if w.state.revision < MAX_SAFE_INTEGER {
          BudgetPublishable(size, w, b);
        }
        PublishableNoConflict(size, w, BudgetDraft(w, b), []);
      }
  }

  // ---- what the validator can still refuse ----

  /**
   * Recording a failed summary attempt succeeds exactly for messages whose first thousand characters are
   * empty or hold some text: the validator refuses the last error that a blank message leaves.
   */
  lemma FailSummaryExactly(size: Sizes, w: World, message: string)
    requires Inv(size, w) && w.state.pending.Some? && w.state.revision < MAX_SAFE_INTEGER
    ensures AfterFail(size, w, w.state.pending.value.id, message).Success? <==>
              message == "" || Text(Prefix(message, 1000))
  {
    var p := w.state.pending.value.(lastError := Some(ErrorText(message)));
    assert Text(DEFAULT_ERROR) by {
      assert !IsSpace(DEFAULT_ERROR[0]);
    }
    TouchPending(size, w, p);
    PublishDecides(size, w, WithPending(w, p), []);
  }

  /** A message of blanks is refused, whatever blanks they are. */
  lemma BlankMessageRefused(size: Sizes, w: World, message: string)
    requires Inv(size, w) && w.state.pending.Some? && w.state.revision < MAX_SAFE_INTEGER
    requires message != "" && !Text(Prefix(message, 1000))
    ensures AfterFail(size, w, w.state.pending.value.id, message) == Failure(InvalidInput)
  {
    var p := w.state.pending.value.(lastError := Some(ErrorText(message)));
    TouchPending(size, w, p);
    PublishDecides(size, w, WithPending(w, p), []);
  }

  /** Two blanks, for one, and a single ideographic space. */
  lemma BlankMessages()
    ensures !Text(Prefix("  ", 1000)) && !Text(Prefix("\U{3000}", 1000)) && !Text(Prefix("\U{00A0}", 1000))
  {
    assert Prefix("  ", 1000) == "  " && Prefix("\U{3000}", 1000) == "\U{3000}"
           && Prefix("\U{00A0}", 1000) == "\U{00A0}";
  }

  /**
   * A compaction that a decision asks for is published exactly when the recorded frame fits its budget and
   * none of the references it could cite is blank, as an event payload from outside may make it.
   */
  lemma CompactExactly(size: Sizes, w: World, round: string, cursor: Cursor, entries: seq<Entry>)
    requires Inv(size, w) && w.state.pending.None? && w.state.revision < MAX_SAFE_INTEGER
    requires Text(round) && RoundDone(round) !in w.receipts && AtCursor(Active(w.state.context), cursor)
    requires EntriesShape(entries)
    ensures var recorded := Extended(w.state.context, entries);
            AfterApply(size, w, round, cursor, DecideCompact, entries).Success? <==>
              && Fits(size, recorded)
              && (forall r :: r in SourceRefs(Active(recorded)) ==> TokenText(r))
  {
    ExtendedIsReplace(w.state.context, w.state.policy, entries);
    var d := AfterDecision(DraftOf(w), DecideCompact, entries).value;
    DecisionWrites(size, w, DecideCompact, entries);
    DecisionReady(size, w, d, round, DecideCompact, entries);
    PublishDecides(size, w, Archive(d).0, [RoundDone(round)]);
  }

  // ---- drains ----

  /** Preparing a round appends the absorbed deliveries' entries to the active frame, in order, and nothing else. */
  lemma PrepareAbsorbs(size: Sizes, w: World)
    requires Inv(size, w) && w.state.pending.None? && AfterPrepare(size, w).Success?
    ensures AfterPrepare(size, w).value.state.context ==
            Extended(w.state.context, AbsorbedAll(w.state.context, Taken(size, DraftOf(w), w.state.inbox), w.next))
  {
    DrainWrites(size, DraftOf(w), w.state.inbox);
    DrainMoves(size, DraftOf(w), DraftOf(w), w.state.inbox);
  }

  /** With only the root live, preparing a round either schedules a summary or leaves no input waiting. */
  lemma RootPrepareEmpties(size: Sizes, w: World)
    requires Inv(size, w) && w.state.pending.None? && w.state.context.level2.None?
    requires AfterPrepare(size, w).Success? && AfterPrepare(size, w).value.state.pending.None?
    ensures AfterPrepare(size, w).value.state.inbox == []
  {
    DrainWrites(size, DraftOf(w), w.state.inbox);
    RootDrainEmpties(size, DraftOf(w), DraftOf(w), w.state.inbox);
  }

  // ---- history ----

  /** Everything stored before is stored after, unchanged. */
  predicate Lasts(w: World, after: World) {
    && (forall t :: t in w.records ==> t in after.records && after.records[t] == w.records[t])
    && (forall k :: k in w.receipts ==> k in after.receipts && after.receipts[k] == w.receipts[k])
  }

  lemma {:induction false} SignLasts(receipts: map<ReceiptKey, Intent>, added: seq<Receipt>)
    requires Sign(receipts, added).Success?
    ensures forall k :: k in receipts ==>
              k in Sign(receipts, added).value && Sign(receipts, added).value[k] == receipts[k]
    decreases |added|
  {
    if |added| > 0 {
      SignLasts(receipts[added[0].key := added[0].intent], added[1..]);
    }
  }

  lemma PublicationLasts(size: Sizes, w: World, d: Draft, keys: seq<ReceiptKey>)
    ensures Published(size, w, d, keys).Success? ==> Lasts(w, Published(size, w, d, keys).value)
  {
    if Published(size, w, d, keys).Success? {
      PublishMeaning(w.records, d.writes);
      SignLasts(w.receipts, ReceiptsFor(keys, d.state.runnable));
    }
  }

  lemma SummaryLasts(size: Sizes, w: World, round: string, id: Id, summary: Summary)
    ensures AfterSummaryPhase(size, w, round, id, summary).Success? ==>
              Lasts(w, AfterSummaryPhase(size, w, round, id, summary).value)
    ensures AfterCommitSummary(size, w, round, id, summary).Success? ==>
              Lasts(w, AfterCommitSummary(size, w, round, id, summary).value)
  {
    if AfterIntegrate(size, DraftOf(w), id, summary).Success? {
      PublicationLasts(size, w, AfterIntegrate(size, DraftOf(w), id, summary).value, PhaseKeys(w, round, id));
      PublicationLasts(size, w, AfterIntegrate(size, DraftOf(w), id, summary).value, [RoundDone(round)]);
    }
  }

  lemma AcceptLasts(size: Sizes, w: World, ds: seq<Delivery>)
    ensures Accepted(size, w, ds).Success? ==> Lasts(w, Accepted(size, w, ds).value)
  {
    PublicationLasts(size, w, Draft(w.state.(inbox := w.state.inbox + ds, runnable := true), HistoryWrites(ds),
                                    w.next), []);
  }

  lemma ReceiveLasts(size: Sizes, w: World, ds: seq<Delivery>)
    ensures AfterReceive(size, w, ds).Success? ==> Lasts(w, AfterReceive(size, w, ds).value)
    ensures AfterReceiveAvailable(size, w, ds).Success? ==> Lasts(w, AfterReceiveAvailable(size, w, ds).value)
  {
    if Unreceived(size, w, [], ds).Success? {
      AcceptLasts(size, w, Unreceived(size, w, [], ds).value);
      AcceptLasts(size, w, Prefix(Unreceived(size, w, [], ds).value, Available(w.state)));
    }
  }

  lemma ApplyLasts(size: Sizes, w: World, round: string, cursor: Cursor, decision: Decision, entries: seq<Entry>)
    ensures AfterApply(size, w, round, cursor, decision, entries).Success? ==>
              Lasts(w, AfterApply(size, w, round, cursor, decision, entries).value)
  {
    if AfterDecision(DraftOf(w), decision, entries).Success? {
      PublicationLasts(size, w, Archive(AfterDecision(DraftOf(w), decision, entries).value).0, [RoundDone(round)]);
    }
  }

  lemma AttemptLasts(size: Sizes, w: World, id: Id, message: string)
    ensures AfterBeginAttempt(size, w).Success? ==> Lasts(w, AfterBeginAttempt(size, w).value)
    ensures AfterRetry(size, w).Success? ==> Lasts(w, AfterRetry(size, w).value)
    ensures AfterFail(size, w, id, message).Success? ==> Lasts(w, AfterFail(size, w, id, message).value)
  {
    if w.state.pending.Some? {
      var p := w.state.pending.value;
      PublicationLasts(size, w, WithPending(w, p.(attempts := p.attempts + 1)), []);
      PublicationLasts(size, w, WithPending(w, p.(attempts := 0)), []);
      PublicationLasts(size, w, WithPending(w, p.(lastError := Some(ErrorText(message)))), []);
    }
  }

  lemma StepLasts(size: Sizes, w: World, op: Op)
    ensures Lasts(w, Step(size, w, op))
  {
    match op
    case Receive(ds) => ReceiveLasts(size, w, ds);
    case ReceiveAvailable(ds) => ReceiveLasts(size, w, ds);
    case Prepare =>
      if AfterDrain(size, DraftOf(w)).Success? {
        PublicationLasts(size, w, AfterDrain(size, DraftOf(w)).value, []);
      }
    case Apply(round, cursor, decision, entries) => ApplyLasts(size, w, round, cursor, decision, entries);
    case BeginAttempt => AttemptLasts(size, w, 0, "");
    case RetrySummary => AttemptLasts(size, w, 0, "");
    case FailSummary(id, message) => AttemptLasts(size, w, id, message);
    case SummaryPhase(round, id, summary) => SummaryLasts(size, w, round, id, summary);
    case CommitSummary(round, id, summary) => SummaryLasts(size, w, round, id, summary);
    case Acknowledge(round) => PublicationLasts(size, w, DraftOf(w), [RoundDone(round)]);
    case ConfigureBudget(b) => PublicationLasts(size, w, BudgetDraft(w, b), []);
  }

  /** History and receipts are never rewritten or lost, over any run. */
  lemma {:induction false} RunLasts(size: Sizes, w: World, ops: seq<Op>)
    ensures Lasts(w, Run(size, w, ops))
    decreases |ops|
  {
    if |ops| > 0 {
      StepLasts(size, w, ops[0]);
      RunLasts(size, Step(size, w, ops[0]), ops[1..]);
    }
  }
}
