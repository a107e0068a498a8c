/** The invariant of every reachable durable state, and what it means for runs, restarts and redeliveries. */
module ContextInvariant {
  import opened Basics
  import opened ContextModel
  import opened ContextRules
  import opened ContextSummaries
  import opened ContextTasks
  import opened ContextInbox
  import opened ContextStore
  import opened ContextStructure
  import opened ContextWorld

  /** The record a pending summary cites is exactly the live context. */
  predicate SealIntact(w: World) {
    w.state.pending.Some? ==>
      var ref := w.state.pending.value.sourceRef;
      ref in w.records && w.records[ref] == FrameRecord(w.state.context)
  }

  /** Every waiting delivery is in the history under its own key. */
  predicate InboxRecorded(inbox: seq<Delivery>, records: map<Token, Record>) {
    forall i :: 0 <= i < |inbox| ==>
      InputRef(inbox[i].key) in records && records[InputRef(inbox[i].key)] == HistoryRecord(inbox[i])
  }

  /** Kernel references name used identities, and an input reference names the delivery with its key. */
  predicate RecordsOk(records: map<Token, Record>, next: Id) {
    forall t :: t in records ==>
      match t
      case HistoryRef(id) => id < next && records[t].FrameRecord?
      case SummaryRef(id) => id < next && records[t].SummaryRecord?
      case InputRef(key) => records[t].HistoryRecord? && records[t].delivery.key == key
      case _ => false
  }

  predicate ReceiptsOk(w: World) {
    && (forall k :: k in w.receipts && k.SummaryDone? ==> k.id < w.next)
    && (w.state.pending.Some? ==>
          w.state.pending.value.id < w.next && SummaryDone(w.state.pending.value.id) !in w.receipts)
  }

  predicate Inv(size: Sizes, w: World) {
    && Valid(size, w.state)
    && IdsBelow(w.state.context, w.next)
    && RevisionsWithin(w.state.context, w.state.revision)
    && InterruptExplained(w.state)
    && SealIntact(w)
    && InboxRecorded(w.state.inbox, w.records)
    && RecordsOk(w.records, w.next)
    && ReceiptsOk(w)
  }

  // ---- publishing ----

  predicate WriteOk(t: Write, lo: Id, hi: Id) {
    match t.ref
    case HistoryRef(id) => lo <= id < hi && t.record.FrameRecord?
    case SummaryRef(id) => lo <= id < hi && t.record.SummaryRecord?
    case InputRef(key) => t.record.HistoryRecord? && t.record.delivery.key == key
    case _ => false
  }

  /** Nothing in the draft clashes with what is stored. */
  predicate Unused(w: World, d: Draft, keys: seq<ReceiptKey>) {
    && (forall i :: 0 <= i < |d.writes| ==> d.writes[i].ref !in w.records)
    && (forall i, j :: 0 <= i < j < |d.writes| ==> d.writes[i].ref != d.writes[j].ref)
    && (forall i :: 0 <= i < |keys| ==> keys[i] !in w.receipts)
    && (forall i, j :: 0 <= i < j < |keys| ==> keys[i] != keys[j])
  }

  predicate Known(w: World, d: Draft, t: Token, r: Record) {
    (t in w.records && w.records[t] == r) || Write(t, r) in d.writes
  }

  /** A draft whose publication keeps the invariant. */
  predicate Publishable(size: Sizes, w: World, d: Draft, keys: seq<ReceiptKey>) {
    && Inv(size, w)
    && w.state.revision < MAX_SAFE_INTEGER
    && d.state.revision == w.state.revision
    && w.next <= d.next
    && Structured(size, d.state)
    && IdsBelow(d.state.context, d.next)
    && RevisionsWithin(d.state.context, w.state.revision + 1)
    && InterruptExplained(d.state)
    && (forall i :: 0 <= i < |d.writes| ==> WriteOk(d.writes[i], w.next, d.next))
    && Unused(w, d, keys)
    && (d.state.pending.Some? ==>
          var p := d.state.pending.value;
          && Known(w, d, p.sourceRef, FrameRecord(d.state.context))
          && p.id < d.next && SummaryDone(p.id) !in w.receipts && SummaryDone(p.id) !in keys)
    && (forall i :: 0 <= i < |d.state.inbox| ==>
          Known(w, d, InputRef(d.state.inbox[i].key), HistoryRecord(d.state.inbox[i])))
    && (forall i :: 0 <= i < |keys| && keys[i].SummaryDone? ==> keys[i].id < d.next)
  }

  lemma {:induction false} SignMeaning(receipts: map<ReceiptKey, Intent>, added: seq<Receipt>)
    requires forall i :: 0 <= i < |added| ==> added[i].key !in receipts
    requires forall i, j :: 0 <= i < j < |added| ==> added[i].key != added[j].key
    ensures Sign(receipts, added).Success?
    ensures forall k :: k in Sign(receipts, added).value <==>
              k in receipts || exists i :: 0 <= i < |added| && added[i].key == k
    ensures forall k :: k in receipts ==> Sign(receipts, added).value[k] == receipts[k]
    decreases |added|
  {
    if |added| > 0 {
      var receipts' := receipts[added[0].key := added[0].intent];
      var rest := added[1..];
      assert forall i :: 0 <= i < |rest| ==> rest[i] == added[i + 1];
      SignMeaning(receipts', rest);
      forall k ensures k in Sign(receipts, added).value <==>
                 k in receipts || exists i :: 0 <= i < |added| && added[i].key == k
      {
        if i :| 0 <= i < |added| && added[i].key == k {
          if i > 0 {
            assert rest[i - 1].key == k;
          }
        }
        if i :| 0 <= i < |rest| && rest[i].key == k {
          assert added[i + 1].key == k;
        }
      }
    }
  }

  /** The stored maps grow by exactly the draft's records and the round's receipts. */
  ghost predicate Grown(w: World, d: Draft, keys: seq<ReceiptKey>, after: World) {
    && (forall t :: t in w.records ==> t in after.records && after.records[t] == w.records[t])
    && (forall i :: 0 <= i < |d.writes| ==>
          d.writes[i].ref in after.records && after.records[d.writes[i].ref] == d.writes[i].record)
    && (forall t :: t in after.records ==> t in w.records || exists i :: 0 <= i < |d.writes| && d.writes[i].ref == t)
    && (forall k :: k in after.receipts <==> k in w.receipts || k in keys)
    && (forall k :: k in w.receipts ==> after.receipts[k] == w.receipts[k])
  }

  lemma UnusedCommits(w: World, d: Draft, keys: seq<ReceiptKey>, runnable: bool)
    requires Unused(w, d, keys)
    ensures Publish(w.records, d.writes).Success?
    ensures Sign(w.receipts, ReceiptsFor(keys, runnable)).Success?
    ensures Grown(w, d, keys, World(d.state, Publish(w.records, d.writes).value,
                                    Sign(w.receipts, ReceiptsFor(keys, runnable)).value, d.next))
  {
    PublishMeaning(w.records, d.writes);
    var added := ReceiptsFor(keys, runnable);
    SignMeaning(w.receipts, added);
    var receipts := Sign(w.receipts, added).value;
    forall k ensures k in receipts <==> k in w.receipts || k in keys {
      if i :| 0 <= i < |added| && added[i].key == k {
        assert keys[i] == k;
      }
      if i :| 0 <= i < |keys| && keys[i] == k {
        assert added[i].key == k;
      }
    }
  }

  /** A draft with unused references is refused only for the revision limit, its size or a blank string. */
  lemma PublishDecides(size: Sizes, w: World, d: Draft, keys: seq<ReceiptKey>)
    requires Unused(w, d, keys)
    requires d.state.revision == w.state.revision
    ensures var r := Published(size, w, d, keys);
            var revised := d.state.(revision := d.state.revision + 1);
            var verdict := if revised.revision > MAX_SAFE_INTEGER then Some(InvalidInput) else Verdict(size, revised);
            if verdict.Some? then r == Failure(verdict.value)
            else r.Success? && r.value.state == revised && r.value.next == d.next && Grown(w, d, keys, r.value)
  {
    UnusedCommits(w, d, keys, d.state.runnable);
  }

  lemma RecordsStayOk(w: World, d: Draft, keys: seq<ReceiptKey>, after: World)
    requires Grown(w, d, keys, after) && RecordsOk(w.records, w.next) && w.next <= d.next
    requires forall i :: 0 <= i < |d.writes| ==> WriteOk(d.writes[i], w.next, d.next)
    ensures RecordsOk(after.records, d.next)
  {
  }

  lemma KnownStays(w: World, d: Draft, keys: seq<ReceiptKey>, after: World, t: Token, r: Record)
    requires Grown(w, d, keys, after) && Known(w, d, t, r)
    ensures t in after.records && after.records[t] == r
  {
  }

  lemma PublishKeeps(size: Sizes, w: World, d: Draft, keys: seq<ReceiptKey>)
    requires Publishable(size, w, d, keys)
    requires Published(size, w, d, keys).Success?
    ensures Inv(size, Published(size, w, d, keys).value)
    ensures Grown(w, d, keys, Published(size, w, d, keys).value)
  {
    PublishDecides(size, w, d, keys);
    var after := Published(size, w, d, keys).value;
    RecordsStayOk(w, d, keys, after);
    forall i | 0 <= i < |d.state.inbox|
      ensures InputRef(d.state.inbox[i].key) in after.records
              && after.records[InputRef(d.state.inbox[i].key)] == HistoryRecord(d.state.inbox[i])
    {
      KnownStays(w, d, keys, after, InputRef(d.state.inbox[i].key), HistoryRecord(d.state.inbox[i]));
    }
    if d.state.pending.Some? {
      KnownStays(w, d, keys, after, d.state.pending.value.sourceRef, FrameRecord(d.state.context));
    }
  }

  // ---- every operation keeps the invariant ----

  lemma StepPublishable(size: Sizes, w: World, d: Draft, keys: seq<ReceiptKey>)
    requires Inv(size, w) && w.state.revision < MAX_SAFE_INTEGER
    requires StepKept(size, DraftOf(w), d)
    requires d.state.pending.Some? ==> w.state.pending.None?
    requires forall x :: x in d.state.inbox ==> x in w.state.inbox
    requires forall i :: 0 <= i < |d.writes| ==> WriteOk(d.writes[i], w.next, d.next)
    requires Unused(w, Draft(d.state, [], d.next), keys)
    requires forall i :: 0 <= i < |keys| && keys[i].SummaryDone? ==> keys[i].id < w.next
    ensures Publishable(size, w, d, keys)
  {
    forall i | 0 <= i < |d.writes| ensures d.writes[i].ref !in w.records {
      assert FreshRef(d.writes[i].ref, w.next, d.next);
    }
    forall i | 0 <= i < |d.state.inbox|
      ensures Known(w, d, InputRef(d.state.inbox[i].key), HistoryRecord(d.state.inbox[i]))
    {
      assert d.state.inbox[i] in w.state.inbox;
      var j :| 0 <= j < |w.state.inbox| && w.state.inbox[j] == d.state.inbox[i];
      assert InputRef(w.state.inbox[j].key) in w.records;
    }
  }

  lemma ArchivePublishable(size: Sizes, w: World, d: Draft, keys: seq<ReceiptKey>)
    requires Publishable(size, w, d, keys)
    ensures Publishable(size, w, Archive(d).0, keys)
  {
    var a := Archive(d).0;
    forall i | 0 <= i < |d.writes| ensures d.writes[i].ref != HistoryRef(d.next) {
      assert WriteOk(d.writes[i], w.next, d.next);
    }
    forall t, r | Known(w, d, t, r) ensures Known(w, a, t, r) {
      if Write(t, r) in d.writes {
        var i :| 0 <= i < |d.writes| && d.writes[i] == Write(t, r);
        assert a.writes[i] == Write(t, r);
      }
    }
  }

  lemma DecisionWrites(size: Sizes, w: World, decision: Decision, entries: seq<Entry>)
    requires AfterDecision(DraftOf(w), decision, entries).Success?
    ensures var d := AfterDecision(DraftOf(w), decision, entries).value;
            && d.state.revision == w.state.revision
            && d.state.inbox == w.state.inbox
            && (forall i :: 0 <= i < |d.writes| ==> WriteOk(d.writes[i], w.next, d.next))
  {
  }

  lemma ArchiveReady(size: Sizes, w: World, d: Draft, round: string)
    requires Inv(size, w) && w.state.revision < MAX_SAFE_INTEGER && StepKept(size, DraftOf(w), d)
    requires w.state.pending.None? && RoundDone(round) !in w.receipts && d.state.inbox == w.state.inbox
    requires forall i :: 0 <= i < |d.writes| ==> WriteOk(d.writes[i], w.next, d.next)
    ensures Publishable(size, w, Archive(d).0, [RoundDone(round)])
  {
    StepPublishable(size, w, d, [RoundDone(round)]);
    ArchivePublishable(size, w, d, [RoundDone(round)]);
  }

  lemma DecisionReady(size: Sizes, w: World, d: Draft, round: string, decision: Decision, entries: seq<Entry>)
    requires Inv(size, w) && w.state.revision < MAX_SAFE_INTEGER
    requires w.state.pending.None? && RoundDone(round) !in w.receipts
    requires AfterDecision(DraftOf(w), decision, entries) == Success(d)
    ensures Publishable(size, w, Archive(d).0, [RoundDone(round)])
  {
    DecisionWrites(size, w, decision, entries);
    DecisionKeepsStructure(size, DraftOf(w), decision, entries);
    ArchiveReady(size, w, d, round);
  }

  /** What the manager needs to know before it publishes a decision's draft. */
  lemma DecisionPublishable(size: Sizes, w: World, round: string, decision: Decision, entries: seq<Entry>)
    requires AfterDecision(DraftOf(w), decision, entries).Success?
    ensures var d := Archive(AfterDecision(DraftOf(w), decision, entries).value).0;
            && d.state.revision == w.state.revision
            && (Inv(size, w) && w.state.pending.None? && w.state.revision < MAX_SAFE_INTEGER ==>
                  Structured(size, d.state))
            && (Inv(size, w) && w.state.pending.None? && RoundDone(round) !in w.receipts
                && Published(size, w, d, [RoundDone(round)]).Success? ==>
                  Inv(size, Published(size, w, d, [RoundDone(round)]).value))
  {
    DecisionWrites(size, w, decision, entries);
    var d := AfterDecision(DraftOf(w), decision, entries).value;
    if Inv(size, w) && w.state.pending.None? && w.state.revision < MAX_SAFE_INTEGER {
      DecisionKeepsStructure(size, DraftOf(w), decision, entries);
      if RoundDone(round) !in w.receipts && Published(size, w, Archive(d).0, [RoundDone(round)]).Success? {
        ArchiveReady(size, w, d, round);
        PublishKeeps(size, w, Archive(d).0, [RoundDone(round)]);
      }
    }
  }

  lemma ApplyKeeps(size: Sizes, w: World, round: string, cursor: Cursor, decision: Decision, entries: seq<Entry>)
    requires Inv(size, w)
    requires AfterApply(size, w, round, cursor, decision, entries).Success?
    ensures Inv(size, AfterApply(size, w, round, cursor, decision, entries).value)
  {
    if RoundDone(round) !in w.receipts {
      DecisionPublishable(size, w, round, decision, entries);
    }
  }

  lemma DeliverWrites(size: Sizes, d: Draft, delivery: Delivery)
    ensures match Deliver(size, d, delivery)
            case Go(next) =>
              && next.state.revision == d.state.revision && next.writes == d.writes && d.next <= next.next
              && next.state.inbox in {d.state.inbox, Without(d.state.inbox, delivery.key)}
            case End(result) => result.Success? ==>
              && result.value.state.revision == d.state.revision
              && result.value.state.inbox in {d.state.inbox, Without(d.state.inbox, delivery.key)}
              && exists w :: result.value.writes == d.writes + [w] && WriteOk(w, d.next, result.value.next)
  {
    var c := d.state.context;
    if !Waits(c, delivery) {
      match Deliver(size, d, delivery)
      case Go(_) =>
      case End(result) =>
        if result.Success? {
          var after := result.value;
          assert after.writes == d.writes + [after.writes[|d.writes|]];
        }
    }
  }

  lemma {:induction false} DrainWrites(size: Sizes, d: Draft, rest: seq<Delivery>)
    requires DrainFrom(size, d, rest).Success?
    ensures var after := DrainFrom(size, d, rest).value;
            && after.state.revision == d.state.revision
            && (forall x :: x in after.state.inbox ==> x in d.state.inbox)
            && d.next <= after.next
            && (after.writes == d.writes
                || exists w :: after.writes == d.writes + [w] && WriteOk(w, d.next, after.next))
    decreases |rest|
  {
    if |rest| > 0 {
      DeliverWrites(size, d, rest[0]);
      WithoutMembers(d.state.inbox, rest[0].key);
      match Deliver(size, d, rest[0])
      case Go(next) => DrainWrites(size, next, rest[1..]);
      case End(result) =>
    } else {
      var after := DrainFrom(size, d, rest).value;
      if after != d {
        assert after.writes == d.writes + [Write(HistoryRef(d.next), FrameRecord(d.state.context))];
      }
    }
  }

  lemma DrainReady(size: Sizes, w: World, d: Draft)
    requires Inv(size, w) && w.state.pending.None? && w.state.revision < MAX_SAFE_INTEGER
    requires AfterDrain(size, DraftOf(w)) == Success(d)
    ensures Publishable(size, w, d, [])
  {
    DrainWrites(size, DraftOf(w), w.state.inbox);
    DrainKeepsStructure(size, DraftOf(w));
    StepPublishable(size, w, d, []);
  }

  lemma PrepareKeeps(size: Sizes, w: World)
    requires Inv(size, w) && AfterPrepare(size, w).Success?
    ensures Inv(size, AfterPrepare(size, w).value)
  {
    if w.state.pending.None? {
      var d := AfterDrain(size, DraftOf(w)).value;
      DrainWrites(size, DraftOf(w), w.state.inbox);
      if w.state.revision < MAX_SAFE_INTEGER {
        DrainReady(size, w, d);
        PublishKeeps(size, w, d, []);
      }
    }
  }

  lemma IntegrateWrites(size: Sizes, w: World, id: Id, summary: Summary)
    requires AfterIntegrate(size, DraftOf(w), id, summary).Success?
    ensures var d := AfterIntegrate(size, DraftOf(w), id, summary).value;
            && d.state.revision == w.state.revision
            && d.state.inbox == w.state.inbox
            && w.state.pending.Some? && w.state.pending.value.id == id
            && (forall i :: 0 <= i < |d.writes| ==> WriteOk(d.writes[i], w.next, d.next))
  {
  }

  lemma IntegrateKeeps(size: Sizes, w: World, id: Id, summary: Summary, keys: seq<ReceiptKey>)
    requires Inv(size, w) && AfterIntegrate(size, DraftOf(w), id, summary).Success?
    requires Unused(w, Draft(w.state, [], w.next), keys)
    requires forall i :: 0 <= i < |keys| && keys[i].SummaryDone? ==> keys[i].id == id
    requires Published(size, w, AfterIntegrate(size, DraftOf(w), id, summary).value, keys).Success?
    ensures Inv(size, Published(size, w, AfterIntegrate(size, DraftOf(w), id, summary).value, keys).value)
  {
    var d := AfterIntegrate(size, DraftOf(w), id, summary).value;
    IntegrateWrites(size, w, id, summary);
    if w.state.revision < MAX_SAFE_INTEGER {
      IntegrateKeepsStructure(size, DraftOf(w), id, summary);
      StepPublishable(size, w, d, keys);
      PublishKeeps(size, w, d, keys);
    }
  }

  /** Changing only the attempt count or the last error of a pending summary. */
  lemma TouchPending(size: Sizes, w: World, p: Pending)
    requires Inv(size, w) && w.state.pending.Some?
    requires p == w.state.pending.value.(attempts := p.attempts, lastError := p.lastError)
    requires p.attempts <= w.state.policy.maxSummaryAttempts
    ensures w.state.revision < MAX_SAFE_INTEGER ==> Publishable(size, w, WithPending(w, p), [])
    ensures Published(size, w, WithPending(w, p), []).Success? ==>
              Inv(size, Published(size, w, WithPending(w, p), []).value)
  {
    if w.state.revision < MAX_SAFE_INTEGER {
      assert Publishable(size, w, WithPending(w, p), []);
      if Published(size, w, WithPending(w, p), []).Success? {
        PublishKeeps(size, w, WithPending(w, p), []);
      }
    }
  }

  lemma AcknowledgeKeeps(size: Sizes, w: World, round: string)
    requires Inv(size, w) && RoundDone(round) !in w.receipts
    ensures w.state.revision < MAX_SAFE_INTEGER ==> Publishable(size, w, DraftOf(w), [RoundDone(round)])
    ensures Published(size, w, DraftOf(w), [RoundDone(round)]).Success? ==>
              Inv(size, Published(size, w, DraftOf(w), [RoundDone(round)]).value)
  {
    if w.state.revision < MAX_SAFE_INTEGER {
      assert Publishable(size, w, DraftOf(w), [RoundDone(round)]);
      if Published(size, w, DraftOf(w), [RoundDone(round)]).Success? {
        PublishKeeps(size, w, DraftOf(w), [RoundDone(round)]);
      }
    }
  }

  lemma RebudgetedOk(c: Context, p: Policy, b: Budget)
    requires ContextOk(c, p)
    ensures ContextOk(Rebudgeted(c, b), p.(budget1 := b, budget2 := b, budget3 := b))
    ensures Active(Rebudgeted(c, b)) == Active(c).(budget := b)
    ensures forall n :: IdsBelow(c, n) ==> IdsBelow(Rebudgeted(c, b), n)
    ensures forall n :: RevisionsWithin(c, n) ==> RevisionsWithin(Rebudgeted(c, b), n)
  {
    assert OwnIds(c.level1.(budget := b)) == OwnIds(c.level1);
  }

  lemma BudgetPublishable(size: Sizes, w: World, b: Budget)
    requires Inv(size, w) && BudgetShape(b) && w.state.revision < MAX_SAFE_INTEGER
    ensures Publishable(size, w, BudgetDraft(w, b), [])
  {
    RebudgetedOk(w.state.context, w.state.policy, b);
    if w.state.pending.Some? {
      var c := Rebudgeted(w.state.context, b);
      var writes := [Write(HistoryRef(w.next), FrameRecord(c))];
      assert writes[0] in writes;
    }
  }

  lemma ConfigureKeeps(size: Sizes, w: World, b: Budget)
    requires Inv(size, w) && AfterConfigureBudget(size, w, b).Success?
    ensures Inv(size, AfterConfigureBudget(size, w, b).value)
  {
    var policy := w.state.policy;
    if !(policy.budget1 == b && policy.budget2 == b && policy.budget3 == b) && w.state.revision < MAX_SAFE_INTEGER {
      BudgetPublishable(size, w, b);
      PublishKeeps(size, w, BudgetDraft(w, b), []);
    }
  }

  /** The deliveries sorted out as new: well-shaped, with distinct keys that no record has. */
  predicate FreshDeliveries(size: Sizes, w: World, ds: seq<Delivery>) {
    && (forall i :: 0 <= i < |ds| ==>
          && DeliveryShape(ds[i])
          && size.delivery(ds[i]) <= w.state.policy.maxDeliveryBytes
          && InputRef(ds[i].key) !in w.records)
    && DistinctKeys(ds)
  }

  lemma {:induction false} UnreceivedFresh(size: Sizes, w: World, acc: seq<Delivery>, ds: seq<Delivery>)
    requires FreshDeliveries(size, w, acc)
    requires Unreceived(size, w, acc, ds).Success?
    ensures FreshDeliveries(size, w, Unreceived(size, w, acc, ds).value)
    decreases |ds|
  {
    if |ds| > 0 {
      if FindKey(acc, ds[0].key).Some? || InputRef(ds[0].key) in w.records {
        UnreceivedFresh(size, w, acc, ds[1..]);
      } else {
        assert FreshDeliveries(size, w, acc + [ds[0]]);
        UnreceivedFresh(size, w, acc + [ds[0]], ds[1..]);
      }
    }
  }

  lemma AcceptPublishable(size: Sizes, w: World, ds: seq<Delivery>)
    requires Inv(size, w) && w.state.revision < MAX_SAFE_INTEGER
    requires FreshDeliveries(size, w, ds) && |w.state.inbox| + |ds| <= w.state.policy.maxInbox
    ensures Publishable(size, w,
              Draft(w.state.(inbox := w.state.inbox + ds, runnable := true), HistoryWrites(ds), w.next), [])
  {
    var inbox := w.state.inbox + ds;
    var d := Draft(w.state.(inbox := inbox, runnable := true), HistoryWrites(ds), w.next);
    forall i | 0 <= i < |inbox| ensures Known(w, d, InputRef(inbox[i].key), HistoryRecord(inbox[i])) {
      if i >= |w.state.inbox| {
        assert d.writes[i - |w.state.inbox|] == Write(InputRef(inbox[i].key), HistoryRecord(inbox[i]));
      }
    }
    forall i, j | 0 <= i < j < |inbox| ensures inbox[i].key != inbox[j].key {
      if i < |w.state.inbox| <= j {
        assert InputRef(inbox[i].key) in w.records;
        assert InputRef(ds[j - |w.state.inbox|].key) !in w.records;
      }
    }
  }

  lemma AcceptKeeps(size: Sizes, w: World, ds: seq<Delivery>)
    requires Inv(size, w) && FreshDeliveries(size, w, ds) && |w.state.inbox| + |ds| <= w.state.policy.maxInbox
    requires Accepted(size, w, ds).Success?
    ensures Inv(size, Accepted(size, w, ds).value)
  {
    if |ds| > 0 && w.state.revision < MAX_SAFE_INTEGER {
      AcceptPublishable(size, w, ds);
      PublishKeeps(size, w, Draft(w.state.(inbox := w.state.inbox + ds, runnable := true), HistoryWrites(ds), w.next),
          []);
    }
  }

  lemma FreshPrefix(size: Sizes, w: World, ds: seq<Delivery>, n: nat)
    requires FreshDeliveries(size, w, ds)
    ensures FreshDeliveries(size, w, Prefix(ds, n))
  {
  }

  lemma ReceiveKeeps(size: Sizes, w: World, ds: seq<Delivery>)
    requires Inv(size, w)
    ensures AfterReceive(size, w, ds).Success? ==> Inv(size, AfterReceive(size, w, ds).value)
    ensures AfterReceiveAvailable(size, w, ds).Success? ==> Inv(size, AfterReceiveAvailable(size, w, ds).value)
  {
    if Unreceived(size, w, [], ds).Success? {
      UnreceivedFresh(size, w, [], ds);
      var unseen := Unreceived(size, w, [], ds).value;
      if AfterReceive(size, w, ds).Success? {
        AcceptKeeps(size, w, unseen);
      }
      FreshPrefix(size, w, unseen, Available(w.state));
      if AfterReceiveAvailable(size, w, ds).Success? {
        AcceptKeeps(size, w, Prefix(unseen, Available(w.state)));
      }
    }
  }

  lemma AttemptKeeps(size: Sizes, w: World, id: Id, message: string)
    requires Inv(size, w)
    ensures AfterBeginAttempt(size, w).Success? ==> Inv(size, AfterBeginAttempt(size, w).value)
    ensures AfterRetry(size, w).Success? ==> Inv(size, AfterRetry(size, w).value)
    ensures AfterFail(size, w, id, message).Success? ==> Inv(size, AfterFail(size, w, id, message).value)
  {
    if w.state.pending.Some? {
      var p := w.state.pending.value;
      if p.attempts < w.state.policy.maxSummaryAttempts {
        TouchPending(size, w, p.(attempts := p.attempts + 1));
      }
      TouchPending(size, w, p.(attempts := 0));
      TouchPending(size, w, p.(lastError := Some(ErrorText(message))));
    }
  }

  lemma PhaseKeysUnused(w: World, round: string, id: Id)
    requires SummaryDone(id) !in w.receipts
    ensures Unused(w, Draft(w.state, [], w.next), PhaseKeys(w, round, id))
    ensures forall i :: 0 <= i < |PhaseKeys(w, round, id)| && PhaseKeys(w, round, id)[i].SummaryDone? ==>
              PhaseKeys(w, round, id)[i].id == id
  {
  }

  lemma SummaryPhaseKeeps(size: Sizes, w: World, round: string, id: Id, summary: Summary)
    requires Inv(size, w) && AfterSummaryPhase(size, w, round, id, summary).Success?
    ensures Inv(size, AfterSummaryPhase(size, w, round, id, summary).value)
  {
    if SummaryDone(id) !in w.receipts {
      PhaseKeysUnused(w, round, id);
      IntegrateKeeps(size, w, id, summary, PhaseKeys(w, round, id));
    }
  }

  lemma CommitSummaryKeeps(size: Sizes, w: World, round: string, id: Id, summary: Summary)
    requires Inv(size, w) && AfterCommitSummary(size, w, round, id, summary).Success?
    ensures Inv(size, AfterCommitSummary(size, w, round, id, summary).value)
  {
    if RoundDone(round) !in w.receipts {
      IntegrateKeeps(size, w, id, summary, [RoundDone(round)]);
    }
  }

  lemma AcknowledgedKeeps(size: Sizes, w: World, round: string)
    requires Inv(size, w) && AfterAcknowledge(size, w, round).Success?
    ensures Inv(size, AfterAcknowledge(size, w, round).value)
  {
    if RoundDone(round) !in w.receipts {
      AcknowledgeKeeps(size, w, round);
    }
  }

  /** No operation, successful or not, ever leads out of the invariant. */
  lemma StepKeepsInv(size: Sizes, w: World, op: Op)
    requires Inv(size, w)
    ensures Inv(size, Step(size, w, op))
  {
    if After(size, w, op).Success? {
      match op
      case Receive(ds) => ReceiveKeeps(size, w, ds);
      case ReceiveAvailable(ds) => ReceiveKeeps(size, w, ds);
      case Prepare => PrepareKeeps(size, w);
      case Apply(round, cursor, decision, entries) => ApplyKeeps(size, w, round, cursor, decision, entries);
      case BeginAttempt => AttemptKeeps(size, w, 0, "");
      case RetrySummary => AttemptKeeps(size, w, 0, "");
      case FailSummary(id, message) => AttemptKeeps(size, w, id, message);
      case SummaryPhase(round, id, summary) => SummaryPhaseKeeps(size, w, round, id, summary);
      case Acknowledge(round) => AcknowledgedKeeps(size, w, round);
      case CommitSummary(round, id, summary) => CommitSummaryKeeps(size, w, round, id, summary);
      case ConfigureBudget(b) => ConfigureKeeps(size, w, b);
    }
  }

  lemma InitialStructured(size: Sizes, policy: Policy, instructions: seq<string>, objective: string, idle: bool,
                          next: Id)
    requires PolicyShape(policy) && Texts(instructions) && Text(objective)
    ensures Structured(size, InitialCheckpoint(policy, instructions, objective, idle, next))
  {
  }

  lemma CreatedInv(size: Sizes, next: Id, policy: Policy, instructions: seq<string>, objective: string, idle: bool)
    requires Created(size, next, policy, instructions, objective, idle).Success?
    ensures Inv(size, Created(size, next, policy, instructions, objective, idle).value)
  {
  }

  /** Whatever is asked of the manager, in whatever order and with whatever failures, the invariant holds. */
  lemma {:induction false} RunKeepsInv(size: Sizes, w: World, ops: seq<Op>)
    requires Inv(size, w)
    ensures Inv(size, Run(size, w, ops))
    decreases |ops|
  {
    if |ops| > 0 {
      StepKeepsInv(size, w, ops[0]);
      RunKeepsInv(size, Step(size, w, ops[0]), ops[1..]);
    }
  }

  // ---- restarting ----

  /** The checkpoint that stands in for a stored frame record when the record is validated. */
  function RecordProbe(c: Context): Checkpoint {
    var root := c.level1.budget;
    Checkpoint(
      0, c,
      Policy(root,
             if c.level2.Some? then c.level2.value.budget else root,
             if c.level3.Some? then c.level3.value.budget else root,
             1, 1, 1),
      true, None, [])
  }

  /**
   * The source of a pending summary passes the record validator and equals the live context, so a restart accepts it.
   */
  lemma SealedSourceAccepted(size: Sizes, w: World)
    requires Inv(size, w) && w.state.pending.Some?
    ensures var ref := w.state.pending.value.sourceRef;
            && ref in w.records
            && w.records[ref] == FrameRecord(w.state.context)
            && Valid(size, RecordProbe(w.state.context))
  {
  }
}
