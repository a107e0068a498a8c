/** Which inputs are recorded and which rounds are done. */
module RoundRules {
  import opened Basics
  import opened ContextModel
  import opened ContextStore
  import opened ContextWorld
  import opened ContextInvariant
  import opened ContextConservation
  import opened ContextProvenance
  import opened ContextTheorems
  import opened ContextSummaries
  import opened ContextTasks
  import opened ContextInbox

  /** One dispatch: its stable batch identity and the wake events and operation results sealed into it. */
  datatype AgentRun = AgentRun(batchId: string, events: seq<string>, operations: seq<string>)

  function EventKey(id: string): string { "event:" + id }

  function OperationKey(id: string): string { "operation:" + id }

  function InputKeys(run: AgentRun): (keys: seq<string>)
    ensures |keys| == |run.events| + |run.operations|
  {
    seq(|run.events|, i requires 0 <= i < |run.events| => EventKey(run.events[i]))
    + seq(|run.operations|, i requires 0 <= i < |run.operations| => OperationKey(run.operations[i]))
  }

  predicate AllRecorded(keys: seq<string>, records: map<Token, Record>) {
    forall i :: 0 <= i < |keys| ==> InputRef(keys[i]) in records
  }

  /** A batch whose round is done has all its inputs in the history. */
  predicate RoundSafe(w: World, run: AgentRun) {
    RoundDone(run.batchId) in w.receipts ==> AllRecorded(InputKeys(run), w.records)
  }

  predicate AllSafe(w: World, runs: set<AgentRun>) {
    forall run :: run in runs ==> RoundSafe(w, run)
  }

  /** Distinct batches have distinct identities. */
  predicate DistinctBatches(runs: set<AgentRun>) {
    forall a, b :: a in runs && b in runs && a.batchId == b.batchId ==> a == b
  }

  // ---- receipts ----

  /** No receipt appears except, perhaps, the given ones. */
  predicate OnlySigns(w: World, after: World, keys: set<ReceiptKey>) {
    forall k :: k in after.receipts ==> k in w.receipts || k in keys
  }

  lemma {:induction false} SignKeys(receipts: map<ReceiptKey, Intent>, added: seq<Receipt>)
    requires Sign(receipts, added).Success?
    ensures forall k :: k in Sign(receipts, added).value ==>
              k in receipts || exists i :: 0 <= i < |added| && added[i].key == k
    ensures forall i :: 0 <= i < |added| ==> added[i].key in Sign(receipts, added).value
    decreases |added|
  {
    if |added| > 0 {
      var receipts' := receipts[added[0].key := added[0].intent];
      SignKeys(receipts', added[1..]);
      SignLasts(receipts', added[1..]);
      var r := Sign(receipts, added).value;
      forall k | k in r ensures k in receipts || exists i :: 0 <= i < |added| && added[i].key == k {
        if k !in receipts' {
          var i :| 0 <= i < |added[1..]| && added[1..][i].key == k;
          assert added[i + 1].key == k;
        } else if k !in receipts {
          assert added[0].key == k;
        }
      }
      forall i | 0 <= i < |added| ensures added[i].key in r {
        if i > 0 {
          assert added[1..][i - 1].key in r;
        }
      }
    }
  }

  lemma PublicationSigns(size: Sizes, w: World, d: Draft, keys: seq<ReceiptKey>)
    requires Published(size, w, d, keys).Success?
    ensures OnlySigns(w, Published(size, w, d, keys).value, set k | k in keys)
    ensures forall k :: k in keys ==> k in Published(size, w, d, keys).value.receipts
  {
    var added := ReceiptsFor(keys, d.state.runnable);
    SignKeys(w.receipts, added);
    var after := Published(size, w, d, keys).value;
    forall k | k in after.receipts ensures k in w.receipts || k in keys {
      if k !in w.receipts {
        var i :| 0 <= i < |added| && added[i].key == k;
        assert keys[i] == k;
      }
    }
    forall k | k in keys ensures k in after.receipts {
      var i :| 0 <= i < |keys| && keys[i] == k;
      assert added[i].key == k;
    }
  }

  /** The receipts each operation may add. */
  function SignedBy(op: Op): set<ReceiptKey> {
    match op
    case Apply(round, _, _, _) => {RoundDone(round)}
    case SummaryPhase(round, id, _) => {RoundSummary(round), SummaryDone(id)}
    case Acknowledge(round) => {RoundDone(round)}
    case CommitSummary(round, _, _) => {RoundDone(round)}
    case _ => {}
  }

  lemma InputSigns(size: Sizes, w: World, ds: seq<Delivery>)
    ensures AfterReceive(size, w, ds).Success? ==> OnlySigns(w, AfterReceive(size, w, ds).value, {})
    ensures AfterReceiveAvailable(size, w, ds).Success? ==> OnlySigns(w, AfterReceiveAvailable(size, w, ds).value, {})
  {
    if Unreceived(size, w, [], ds).Success? {
      AcceptSigns(size, w, Unreceived(size, w, [], ds).value);
      AcceptSigns(size, w, Prefix(Unreceived(size, w, [], ds).value, Available(w.state)));
    }
  }

  lemma AcceptSigns(size: Sizes, w: World, ds: seq<Delivery>)
    ensures Accepted(size, w, ds).Success? ==> OnlySigns(w, Accepted(size, w, ds).value, {})
  {
    if |ds| > 0 && Accepted(size, w, ds).Success? {
      PublicationSigns(size, w, Draft(w.state.(inbox := w.state.inbox + ds, runnable := true), HistoryWrites(ds),
                                      w.next), []);
    }
  }

  lemma SummarySigns(size: Sizes, w: World, round: string, id: Id, summary: Summary)
    ensures AfterSummaryPhase(size, w, round, id, summary).Success? ==>
              OnlySigns(w, AfterSummaryPhase(size, w, round, id, summary).value, {RoundSummary(round), SummaryDone(id)})
    ensures AfterSummaryPhase(size, w, round, id, summary).Success? && SummaryDone(id) !in w.receipts ==>
              RoundSummary(round) in AfterSummaryPhase(size, w, round, id, summary).value.receipts
    ensures AfterCommitSummary(size, w, round, id, summary).Success? ==>
              OnlySigns(w, AfterCommitSummary(size, w, round, id, summary).value, {RoundDone(round)})
  {
    var d := AfterIntegrate(size, DraftOf(w), id, summary);
    if d.Success? {
      if Published(size, w, d.value, PhaseKeys(w, round, id)).Success? {
        PublicationSigns(size, w, d.value, PhaseKeys(w, round, id));
        PublicationLasts(size, w, d.value, PhaseKeys(w, round, id));
      }
      if Published(size, w, d.value, [RoundDone(round)]).Success? {
        PublicationSigns(size, w, d.value, [RoundDone(round)]);
      }
    }
  }

  lemma TouchSigns(size: Sizes, w: World, d: Draft)
    ensures Published(size, w, d, []).Success? ==> OnlySigns(w, Published(size, w, d, []).value, {})
  {
    if Published(size, w, d, []).Success? {
      PublicationSigns(size, w, d, []);
    }
  }

  lemma AttemptSigns(size: Sizes, w: World, id: Id, message: string)
    ensures AfterBeginAttempt(size, w).Success? ==> OnlySigns(w, AfterBeginAttempt(size, w).value, {})
    ensures AfterRetry(size, w).Success? ==> OnlySigns(w, AfterRetry(size, w).value, {})
    ensures AfterFail(size, w, id, message).Success? ==> OnlySigns(w, AfterFail(size, w, id, message).value, {})
  {
    if w.state.pending.Some? {
      var p := w.state.pending.value;
      TouchSigns(size, w, WithPending(w, p.(attempts := p.attempts + 1)));
      TouchSigns(size, w, WithPending(w, p.(attempts := 0)));
      TouchSigns(size, w, WithPending(w, p.(lastError := Some(ErrorText(message)))));
    }
  }

  lemma BudgetSigns(size: Sizes, w: World, b: Budget)
    ensures AfterConfigureBudget(size, w, b).Success? ==> OnlySigns(w, AfterConfigureBudget(size, w, b).value, {})
  {
    TouchSigns(size, w, BudgetDraft(w, b));
  }

  lemma ApplySigns(size: Sizes, w: World, round: string, cursor: Cursor, decision: Decision, entries: seq<Entry>)
    ensures AfterApply(size, w, round, cursor, decision, entries).Success? ==>
              var after := AfterApply(size, w, round, cursor, decision, entries).value;
              OnlySigns(w, after, {RoundDone(round)}) && RoundDone(round) in after.receipts
  {
    if RoundDone(round) !in w.receipts && AfterApply(size, w, round, cursor, decision, entries).Success? {
      PublicationSigns(size, w, Archive(AfterDecision(DraftOf(w), decision, entries).value).0, [RoundDone(round)]);
    }
  }

  lemma PrepareSigns(size: Sizes, w: World)
    ensures AfterPrepare(size, w).Success? ==> OnlySigns(w, AfterPrepare(size, w).value, {})
  {
    if w.state.pending.None? && AfterPrepare(size, w).Success? {
      TouchSigns(size, w, AfterDrain(size, DraftOf(w)).value);
    }
  }

  lemma AcknowledgeSigns(size: Sizes, w: World, round: string)
    ensures AfterAcknowledge(size, w, round).Success? ==>
              var after := AfterAcknowledge(size, w, round).value;
              OnlySigns(w, after, {RoundDone(round)}) && RoundDone(round) in after.receipts
  {
    if RoundDone(round) !in w.receipts && AfterAcknowledge(size, w, round).Success? {
      PublicationSigns(size, w, DraftOf(w), [RoundDone(round)]);
    }
  }

  lemma StepSigns(size: Sizes, w: World, op: Op)
    ensures OnlySigns(w, Step(size, w, op), SignedBy(op))
  {
    match op
    case Receive(ds) => InputSigns(size, w, ds);
    case ReceiveAvailable(ds) => InputSigns(size, w, ds);
    case Prepare => PrepareSigns(size, w);
    case Apply(round, cursor, decision, entries) => ApplySigns(size, w, round, cursor, decision, entries);
    case BeginAttempt => AttemptSigns(size, w, 0, "");
    case RetrySummary => AttemptSigns(size, w, 0, "");
    case FailSummary(id, message) => AttemptSigns(size, w, id, message);
    case SummaryPhase(round, id, summary) => SummarySigns(size, w, round, id, summary);
    case CommitSummary(round, id, summary) => SummarySigns(size, w, round, id, summary);
    case Acknowledge(round) => AcknowledgeSigns(size, w, round);
    case ConfigureBudget(b) => BudgetSigns(size, w, b);
  }

  // ---- safety of one step ----

  /**
   * An operation is admissible for a batch when it may finish no other round, and this one only with all inputs
   * recorded.
   */
  ghost predicate Admissible(w: World, run: AgentRun, op: Op) {
    forall round: string :: RoundDone(round) in SignedBy(op) ==>
      round == run.batchId && AllRecorded(InputKeys(run), w.records)
  }

  lemma StepSafe(size: Sizes, w: World, runs: set<AgentRun>, run: AgentRun, op: Op)
    requires AllSafe(w, runs) && run in runs && DistinctBatches(runs) && Admissible(w, run, op)
    ensures AllSafe(Step(size, w, op), runs)
  {
    StepLasts(size, w, op);
    StepSigns(size, w, op);
    var after := Step(size, w, op);
    forall r | r in runs && RoundDone(r.batchId) in after.receipts ensures AllRecorded(InputKeys(r), after.records) {
      if RoundDone(r.batchId) !in w.receipts {
        assert RoundDone(r.batchId) in SignedBy(op);
        assert r == run;
      }
    }
  }

  // ---- receiving a batch ----

  /** The batch's deliveries that the history does not have yet. */
  function Missing(ds: seq<Delivery>, records: map<Token, Record>): set<string> {
    set i | 0 <= i < |ds| && InputRef(ds[i].key) !in records :: ds[i].key
  }

  lemma {:induction false} UnreceivedCovers(size: Sizes, w: World, acc: seq<Delivery>, ds: seq<Delivery>)
    requires Unreceived(size, w, acc, ds).Success?
    ensures forall d :: d in acc ==> d in Unreceived(size, w, acc, ds).value
    ensures forall i :: 0 <= i < |ds| ==>
              InputRef(ds[i].key) in w.records || ds[i].key in Keys(Unreceived(size, w, acc, ds).value)
    decreases |ds|
  {
    if |ds| > 0 {
      var rest := ds[1..];
      var acc' := if FindKey(acc, ds[0].key).Some? || InputRef(ds[0].key) in w.records then acc else acc + [ds[0]];
      UnreceivedCovers(size, w, acc', rest);
      var r := Unreceived(size, w, acc, ds).value;
      forall i | 0 <= i < |ds| ensures InputRef(ds[i].key) in w.records || ds[i].key in Keys(r) {
        if i > 0 {
          assert ds[i] == rest[i - 1];
        } else if InputRef(ds[0].key) !in w.records {
          var d := if FindKey(acc, ds[0].key).Some? then FindKey(acc, ds[0].key).value else ds[0];
          assert d in acc';
          var k :| 0 <= k < |r| && r[k] == d;
          assert Keys(r)[k] == ds[0].key;
        }
      }
    }
  }

  /** An answer of `true` means that every delivery of the batch is in the history. */
  lemma ReceivedAll(size: Sizes, w: World, ds: seq<Delivery>)
    requires AfterReceiveAvailable(size, w, ds).Success? && ReceivesAll(size, w, ds)
    ensures AllRecorded(Keys(ds), AfterReceiveAvailable(size, w, ds).value.records)
  {
    var unseen := Unreceived(size, w, [], ds).value;
    var after := AfterReceiveAvailable(size, w, ds).value;
    assert Prefix(unseen, Available(w.state)) == unseen;
    UnreceivedCovers(size, w, [], ds);
    ReceiveLasts(size, w, ds);
    AcceptRecords(size, w, unseen);
    forall i | 0 <= i < |ds| ensures InputRef(Keys(ds)[i]) in after.records {
      if InputRef(ds[i].key) !in w.records {
        assert ds[i].key in Keys(unseen);
        var k :| 0 <= k < |unseen| && Keys(unseen)[k] == ds[i].key;
        assert InputRef(unseen[k].key) in after.records;
      }
    }
  }

  lemma AcceptRecords(size: Sizes, w: World, ds: seq<Delivery>)
    requires Accepted(size, w, ds).Success?
    ensures forall i :: 0 <= i < |ds| ==> InputRef(ds[i].key) in Accepted(size, w, ds).value.records
  {
    if |ds| > 0 {
      PublishMeaning(w.records, HistoryWrites(ds));
      forall i | 0 <= i < |ds| ensures InputRef(ds[i].key) in Accepted(size, w, ds).value.records {
        assert HistoryWrites(ds)[i].ref == InputRef(ds[i].key);
      }
    }
  }

  lemma MissingShrinks(ds: seq<Delivery>, records: map<Token, Record>, after: map<Token, Record>)
    requires forall t :: t in records ==> t in after
    ensures Missing(ds, after) <= Missing(ds, records)
  {
  }

  /** With a free place in the inbox, a batch that does not fit still loses at least one missing input. */
  lemma ReceivesSome(size: Sizes, w: World, ds: seq<Delivery>)
    requires Inv(size, w) && Available(w.state) > 0
    requires AfterReceiveAvailable(size, w, ds).Success? && !ReceivesAll(size, w, ds)
    ensures Missing(ds, AfterReceiveAvailable(size, w, ds).value.records) < Missing(ds, w.records)
  {
    var unseen := Unreceived(size, w, [], ds).value;
    var after := AfterReceiveAvailable(size, w, ds).value;
    UnreceivedFresh(size, w, [], ds);
    UnreceivedMembers(size, w, [], ds);
    ReceiveLasts(size, w, ds);
    MissingShrinks(ds, w.records, after.records);
    var taken := Prefix(unseen, Available(w.state));
    AcceptRecords(size, w, taken);
    assert taken[0] == unseen[0] && unseen[0] in ds;
    var k :| 0 <= k < |ds| && ds[k] == unseen[0];
    assert ds[k].key in Missing(ds, w.records);
    assert ds[k].key !in Missing(ds, after.records);
  }
}
