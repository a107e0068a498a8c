/** Each accepted delivery is waiting or absorbed, once. */
module ContextConservation {
  import opened Basics
  import opened ContextModel
  import opened ContextRules
  import opened ContextSummaries
  import opened ContextInbox
  import ContextTasks
  import opened ContextStore
  import opened ContextStructure
  import opened ContextWorld
  import opened ContextInvariant

  // ---- one drain ----

  /** The deliveries that a drain absorbs, in order. */
  function Taken(size: Sizes, d: Draft, rest: seq<Delivery>): seq<Delivery>
    decreases |rest|
  {
    if |rest| == 0 then []
    else
      var c := d.state.context;
      match Deliver(size, d, rest[0])
      case Go(next) => (if Waits(c, rest[0]) then [] else [rest[0]]) + Taken(size, next, rest[1..])
      case End(_) =>
        var frame := Receiver(c, rest[0]);
        if size.frame(AppendEntries(frame, Absorbed(c, rest[0], d.next))) > frame.budget.maxTokens then []
          else [rest[0]]
  }

  /** What the receiving frame records for the deliveries: their entries, or a notice for each stale one. */
  function AbsorbedAll(c: Context, ds: seq<Delivery>, next: Id): seq<Entry> {
    if |ds| == 0 then []
    else Absorbed(c, ds[0], next) + AbsorbedAll(c, ds[1..], next + NoticesDrawn(c, ds[0]))
  }

  function Keys(ds: seq<Delivery>): (ks: seq<string>)
    ensures |ks| == |ds|
    ensures forall i :: 0 <= i < |ds| ==> ks[i] == ds[i].key
  {
    seq(|ds|, i requires 0 <= i < |ds| => ds[i].key)
  }

  /** Both stacks have the same frames at the same plan revisions. */
  predicate SameCursors(c: Context, other: Context) {
    && |Frames(c)| == |Frames(other)|
    && (forall i :: 0 <= i < |Frames(c)| ==>
          && Frames(c)[i].id == Frames(other)[i].id
          && Frames(c)[i].chain.revision == Frames(other)[i].chain.revision)
  }

  lemma {:induction false} FindAtSame(fs: seq<Frame>, gs: seq<Frame>, cursor: Cursor)
    requires |fs| == |gs|
    requires forall i :: 0 <= i < |fs| ==> fs[i].id == gs[i].id && fs[i].chain.revision == gs[i].chain.revision
    ensures FindAt(fs, cursor).Some? == FindAt(gs, cursor).Some?
  {
    if |fs| > 0 {
      assert fs[0].id == gs[0].id;
      FindAtSame(fs[1..], gs[1..], cursor);
    }
  }

  lemma TargetSame(c: Context, other: Context, d: Delivery)
    requires SameCursors(c, other)
    ensures TargetFrame(c, d).Some? == TargetFrame(other, d).Some?
  {
    if d.target.Some? {
      FindAtSame(Frames(c), Frames(other), d.target.value);
    }
  }

  lemma {:induction false} AbsorbedAllSame(c: Context, other: Context, ds: seq<Delivery>, next: Id)
    requires SameCursors(c, other)
    ensures AbsorbedAll(c, ds, next) == AbsorbedAll(other, ds, next)
  {
    if |ds| > 0 {
      TargetSame(c, other, ds[0]);
      AbsorbedAllSame(c, other, ds[1..], next + NoticesDrawn(c, ds[0]));
    }
  }

  /** The context with more entries in its active frame. */
  function Extended(c: Context, entries: seq<Entry>): Context {
    if c.level3.Some? then c.(level3 := Some(AppendEntries(c.level3.value, entries)))
    else if c.level2.Some? then c.(level2 := Some(AppendEntries(c.level2.value, entries)))
    else c.(level1 := AppendEntries(c.level1, entries))
  }

  lemma ExtendedIsReplace(c: Context, p: Policy, entries: seq<Entry>)
    requires ContextOk(c, p)
    ensures ReplaceFrame(c, AppendEntries(Active(c), entries)) == Success(Extended(c, entries))
    ensures SameCursors(c, Extended(c, entries))
    ensures Active(Extended(c, entries)) == AppendEntries(Active(c), entries)
  {
  }

  lemma ExtendedTwice(c: Context, first: seq<Entry>, second: seq<Entry>)
    ensures Extended(Extended(c, first), second) == Extended(c, first + second)
    ensures Extended(c, []) == c
  {
    var f := Active(c);
    assert f.memory.recentEntries + first + second == f.memory.recentEntries + (first + second);
    assert f.memory.recentEntries + [] == f.memory.recentEntries;
  }

  /** A drain does nothing to the stack but append the absorbed entries, in order, to the active frame. */
  lemma DrainMoves(size: Sizes, before: Draft, d: Draft, rest: seq<Delivery>)
    requires Draining(size, before, d)
    requires forall i :: 0 <= i < |rest| ==> DeliveryShape(rest[i])
    requires DrainFrom(size, d, rest).Success?
    ensures DrainFrom(size, d, rest).value.state.context ==
            Extended(d.state.context, AbsorbedAll(d.state.context, Taken(size, d, rest), d.next))
  {
    RestMoves(size, before, d, rest, Taken(size, d, rest), DrainFrom(size, d, rest).value);
  }

  lemma {:induction false} RestMoves(size: Sizes, before: Draft, d: Draft, rest: seq<Delivery>, taken: seq<Delivery>,
                                     after: Draft)
    requires Draining(size, before, d)
    requires forall i :: 0 <= i < |rest| ==> DeliveryShape(rest[i])
    requires DrainFrom(size, d, rest) == Success(after) && taken == Taken(size, d, rest)
    ensures after.state.context == Extended(d.state.context, AbsorbedAll(d.state.context, taken, d.next))
    decreases |rest|
  {
    var c := d.state.context;
    if |rest| == 0 {
      ExtendedTwice(c, [], []);
    } else if Waits(c, rest[0]) {
      RestMoves(size, before, d, rest[1..], taken, after);
    } else if Deliver(size, d, rest[0]).End? {
      DeliveredStep(size, before, d, rest[0]);
      ExtendedTwice(c, [], []);
      AbsorbedOne(c, rest[0], d.next);
    } else {
      var next := DrainGoes(size, before, d, rest);
      assert taken[0] == rest[0] && taken[1..] == Taken(size, next, rest[1..]);
      RestMoves(size, before, next, rest[1..], taken[1..], after);
      AbsorbedFirst(c, next, taken, d.next, after);
    }
  }

  /** Over its hard budget with the delivery's entries, the frame is compacted before it takes them. */
  predicate Overflows(size: Sizes, d: Draft, delivery: Delivery) {
    var c := d.state.context;
    size.frame(AppendEntries(Active(c), Absorbed(c, delivery, d.next))) > Active(c).budget.maxTokens
  }

  lemma DeliveredStep(size: Sizes, before: Draft, d: Draft, delivery: Delivery)
    requires Draining(size, before, d) && !Waits(d.state.context, delivery) && DeliveryShape(delivery)
    ensures Receiver(d.state.context, delivery) == Active(d.state.context)
    ensures SameCursors(d.state.context, Extended(d.state.context, Absorbed(d.state.context, delivery, d.next)))
    ensures var c := d.state.context;
            var extended := Extended(c, Absorbed(c, delivery, d.next));
            match Deliver(size, d, delivery)
            case Go(next) =>
              && !Overflows(size, d, delivery)
              && next == Absorb(d, delivery, extended)
            case End(result) => result.Success? ==>
              && result.value.state.context == (if Overflows(size, d, delivery) then c else extended)
              && result.value.state.inbox ==
                 (if Overflows(size, d, delivery) then d.state.inbox else Without(d.state.inbox, delivery.key))
              && result.value.state.pending.Some?
  {
    var c := d.state.context;
    AbsorbKeeps(size, before, d, delivery);
    ExtendedIsReplace(c, d.state.policy, Absorbed(c, delivery, d.next));
  }

  lemma DrainGoes(size: Sizes, before: Draft, d: Draft, rest: seq<Delivery>) returns (next: Draft)
    requires |rest| > 0 && Draining(size, before, d) && !Waits(d.state.context, rest[0]) && DeliveryShape(rest[0])
    requires Deliver(size, d, rest[0]).Go?
    ensures var c := d.state.context;
            && Draining(size, before, next)
            && next.next == d.next + NoticesDrawn(c, rest[0])
            && next.state.context == Extended(c, Absorbed(c, rest[0], d.next)) && SameCursors(c, next.state.context)
            && DrainFrom(size, d, rest) == DrainFrom(size, next, rest[1..])
            && Taken(size, d, rest) == [rest[0]] + Taken(size, next, rest[1..])
  {
    next := Deliver(size, d, rest[0]).draft;
    DeliveredStep(size, before, d, rest[0]);
    DeliverKeeps(size, before, d, rest[0]);
  }

  /** Absorbing one delivery and then the others is absorbing all of them. */
  lemma AbsorbedFirst(c: Context, mid: Draft, ds: seq<Delivery>, next: Id, after: Draft)
    requires |ds| > 0 && mid.next == next + NoticesDrawn(c, ds[0])
    requires mid.state.context == Extended(c, Absorbed(c, ds[0], next)) && SameCursors(c, mid.state.context)
    requires after.state.context == Extended(mid.state.context, AbsorbedAll(mid.state.context, ds[1..], mid.next))
    ensures after.state.context == Extended(c, AbsorbedAll(c, ds, next))
  {
    AbsorbedAllSame(c, mid.state.context, ds[1..], mid.next);
    ExtendedTwice(c, Absorbed(c, ds[0], next), AbsorbedAll(c, ds[1..], mid.next));
  }

  lemma AbsorbedOne(c: Context, d: Delivery, next: Id)
    ensures AbsorbedAll(c, [d], next) == Absorbed(c, d, next)
  {
    assert [d][1..] == [];
    assert Absorbed(c, d, next) + [] == Absorbed(c, d, next);
  }

  // ---- counting keys ----

  lemma KeysOfConcat(a: seq<Delivery>, b: seq<Delivery>)
    ensures Keys(a + b) == Keys(a) + Keys(b)
  {
  }

  lemma {:induction false} WithoutAbsent(inbox: seq<Delivery>, key: string)
    requires forall i :: 0 <= i < |inbox| ==> inbox[i].key != key
    ensures Without(inbox, key) == inbox
  {
    if |inbox| > 0 {
      assert inbox[0].key != key;
      WithoutAbsent(inbox[1..], key);
      assert inbox == [inbox[0]] + inbox[1..];
    }
  }

  lemma KeysOfCons(d: Delivery, rest: seq<Delivery>)
    ensures multiset(Keys([d] + rest)) == multiset{d.key} + multiset(Keys(rest))
  {
    assert Keys([d] + rest) == [d.key] + Keys(rest);
  }

  lemma RestDistinct(inbox: seq<Delivery>)
    requires DistinctKeys(inbox) && |inbox| > 0
    ensures DistinctKeys(inbox[1..])
    ensures forall i :: 0 <= i < |inbox[1..]| ==> inbox[1..][i].key != inbox[0].key
  {
    var rest := inbox[1..];
    forall i, j | 0 <= i < j < |rest| ensures rest[i].key != rest[j].key {
      assert inbox[i + 1].key != inbox[j + 1].key;
    }
    forall i | 0 <= i < |rest| ensures rest[i].key != inbox[0].key {
      assert inbox[0].key != inbox[i + 1].key;
    }
  }

  lemma {:induction false} WithoutCounts(inbox: seq<Delivery>, d: Delivery)
    requires DistinctKeys(inbox) && d in inbox
    ensures multiset(Keys(inbox)) == multiset(Keys(Without(inbox, d.key))) + multiset{d.key}
  {
    var first, rest := inbox[0], inbox[1..];
    assert inbox == [first] + rest;
    KeysOfCons(first, rest);
    RestDistinct(inbox);
    if first.key == d.key {
      WithoutAbsent(rest, d.key);
    } else {
      assert d in rest;
      WithoutCounts(rest, d);
      KeysOfCons(first, Without(rest, d.key));
    }
  }

  /** The deliveries still to be offered are in the inbox, each under its own key. */
  predicate Offered(inbox: seq<Delivery>, rest: seq<Delivery>) {
    && DistinctKeys(inbox) && DistinctKeys(rest)
    && (forall i :: 0 <= i < |rest| ==> rest[i] in inbox)
  }

  lemma OfferedNext(inbox: seq<Delivery>, rest: seq<Delivery>)
    requires Offered(inbox, rest) && |rest| > 0
    ensures Offered(inbox, rest[1..])
    ensures Offered(Without(inbox, rest[0].key), rest[1..])
  {
    WithoutDistinct(inbox, rest[0].key);
    WithoutMembers(inbox, rest[0].key);
    forall i | 0 <= i < |rest[1..]| ensures rest[1..][i] in Without(inbox, rest[0].key) {
      assert rest[0].key != rest[i + 1].key;
    }
  }

  lemma EndCounts(size: Sizes, before: Draft, d: Draft, rest: seq<Delivery>)
    requires Draining(size, before, d) && Offered(d.state.inbox, rest) && |rest| > 0 && DeliveryShape(rest[0])
    requires !Waits(d.state.context, rest[0]) && Deliver(size, d, rest[0]).End? && DrainFrom(size, d, rest).Success?
    ensures multiset(Keys(d.state.inbox)) ==
            multiset(Keys(DrainFrom(size, d, rest).value.state.inbox)) + multiset(Keys(Taken(size, d, rest)))
  {
    DeliveredStep(size, before, d, rest[0]);
    WithoutCounts(d.state.inbox, rest[0]);
    assert Keys([rest[0]]) == [rest[0].key];
  }

  lemma GoCounts(size: Sizes, before: Draft, d: Draft, delivery: Delivery)
    requires Draining(size, before, d) && DistinctKeys(d.state.inbox) && delivery in d.state.inbox
    requires DeliveryShape(delivery) && !Waits(d.state.context, delivery) && Deliver(size, d, delivery).Go?
    ensures var next := Deliver(size, d, delivery).draft;
            && next.state.inbox == Without(d.state.inbox, delivery.key)
            && multiset(Keys(d.state.inbox)) == multiset(Keys(next.state.inbox)) + multiset{delivery.key}
  {
    DeliveredStep(size, before, d, delivery);
    WithoutCounts(d.state.inbox, delivery);
  }

  /** The inbox loses exactly the absorbed deliveries, each of them once. */
  lemma {:induction false} DrainCounts(size: Sizes, before: Draft, d: Draft, rest: seq<Delivery>)
    requires Draining(size, before, d) && Offered(d.state.inbox, rest)
    requires forall i :: 0 <= i < |rest| ==> DeliveryShape(rest[i])
    requires DrainFrom(size, d, rest).Success?
    ensures multiset(Keys(d.state.inbox)) ==
            multiset(Keys(DrainFrom(size, d, rest).value.state.inbox)) + multiset(Keys(Taken(size, d, rest)))
    decreases |rest|
  {
    if |rest| > 0 {
      OfferedNext(d.state.inbox, rest);
      if Waits(d.state.context, rest[0]) {
        DrainCounts(size, before, d, rest[1..]);
        assert Taken(size, d, rest) == Taken(size, d, rest[1..]);
      } else {
        match Deliver(size, d, rest[0])
        case End(_) => EndCounts(size, before, d, rest);
        case Go(next) =>
          GoCounts(size, before, d, rest[0]);
          DeliverKeeps(size, before, d, rest[0]);
          DrainCounts(size, before, next, rest[1..]);
          KeysOfCons(rest[0], Taken(size, next, rest[1..]));
      }
    }
  }

  lemma HasMember(ds: seq<Delivery>)
    requires |ds| > 0
    ensures exists d :: d in ds
  {
    assert ds[0] in ds;
  }

  /** With the root active, a drain that ends without scheduling a summary has emptied the inbox. */
  lemma {:induction false} RootDrainEmpties(size: Sizes, before: Draft, d: Draft, rest: seq<Delivery>)
    requires Draining(size, before, d) && Offered(d.state.inbox, rest)
    requires forall i :: 0 <= i < |rest| ==> DeliveryShape(rest[i])
    requires d.state.context.level2.None?
    requires forall x :: x in d.state.inbox ==> x in rest
    requires DrainFrom(size, d, rest).Success? && DrainFrom(size, d, rest).value.state.pending.None?
    ensures DrainFrom(size, d, rest).value.state.inbox == []
    decreases |rest|
  {
    if |rest| == 0 {
      if |d.state.inbox| > 0 {
        HasMember(d.state.inbox);
        assert false;
      }
    } else {
      assert Frames(d.state.context) == [d.state.context.level1];
      OfferedNext(d.state.inbox, rest);
      DeliveredStep(size, before, d, rest[0]);
      DeliverKeeps(size, before, d, rest[0]);
      WithoutMembers(d.state.inbox, rest[0].key);
      var next := Deliver(size, d, rest[0]).draft;
      forall x | x in next.state.inbox ensures x in rest[1..] {
        assert x in rest && x.key != rest[0].key;
      }
      RootDrainEmpties(size, before, next, rest[1..]);
    }
  }

  // ---- whole runs ----

  /** The keys that one operation moves from the inbox into a frame. */
  function TakenBy(size: Sizes, w: World, op: Op): seq<string> {
    if op.Prepare? && w.state.pending.None? && AfterPrepare(size, w).Success?
    then Keys(Taken(size, DraftOf(w), w.state.inbox))
    else []
  }

  function RunTaken(size: Sizes, w: World, ops: seq<Op>): seq<string>
    decreases |ops|
  {
    if |ops| == 0 then []
    else TakenBy(size, w, ops[0]) + RunTaken(size, Step(size, w, ops[0]), ops[1..])
  }

  /** Every key ever accepted is waiting or absorbed, exactly once in all; no other key is. */
  ghost predicate Conserved(w: World, absorbed: multiset<string>) {
    forall key: string ::
      (multiset(Keys(w.state.inbox)) + absorbed)[key] == if InputRef(key) in w.records then 1 else 0
  }

  lemma FreshKeysCount(size: Sizes, w: World, ds: seq<Delivery>, key: string)
    requires FreshDeliveries(size, w, ds)
    ensures multiset(Keys(ds))[key] == if exists i :: 0 <= i < |ds| && ds[i].key == key then 1 else 0
  {
    var ks := Keys(ds);
    if i :| 0 <= i < |ds| && ds[i].key == key {
      assert ks == ks[..i] + [ks[i]] + ks[i + 1..];
      assert key !in ks[..i] && key !in ks[i + 1..];
    } else {
      assert key !in ks;
    }
  }

  lemma AcceptedKey(w: World, d: Draft, ds: seq<Delivery>, after: World, key: string)
    requires Grown(w, d, [], after) && d.writes == HistoryWrites(ds)
    ensures InputRef(key) in after.records <==>
              InputRef(key) in w.records || exists i :: 0 <= i < |ds| && ds[i].key == key
  {
    if InputRef(key) in after.records && InputRef(key) !in w.records {
      var i :| 0 <= i < |d.writes| && d.writes[i].ref == InputRef(key);
      assert ds[i].key == key;
    }
    if i :| 0 <= i < |ds| && ds[i].key == key {
      assert d.writes[i].ref in after.records;
    }
  }

  lemma AcceptConserves(size: Sizes, w: World, ds: seq<Delivery>, absorbed: multiset<string>)
    requires Inv(size, w) && Conserved(w, absorbed)
    requires FreshDeliveries(size, w, ds) && |w.state.inbox| + |ds| <= w.state.policy.maxInbox
    requires Accepted(size, w, ds).Success?
    ensures Conserved(Accepted(size, w, ds).value, absorbed)
  {
    if |ds| > 0 {
      var d := Draft(w.state.(inbox := w.state.inbox + ds, runnable := true), HistoryWrites(ds), w.next);
      AcceptPublishable(size, w, ds);
      PublishKeeps(size, w, d, []);
      PublishDecides(size, w, d, []);
      var after := Accepted(size, w, ds).value;
      KeysOfConcat(w.state.inbox, ds);
      forall key
        ensures (multiset(Keys(after.state.inbox)) + absorbed)[key] == if InputRef(key) in after.records then 1 else 0
      {
        FreshKeysCount(size, w, ds, key);
        AcceptedKey(w, d, ds, after, key);
      }
    }
  }

  lemma DrainedKeys(size: Sizes, w: World, d: Draft)
    requires Inv(size, w) && w.state.pending.None? && w.state.revision < MAX_SAFE_INTEGER
    requires AfterDrain(size, DraftOf(w)) == Success(d)
    ensures multiset(Keys(w.state.inbox)) ==
            multiset(Keys(d.state.inbox)) + multiset(Keys(Taken(size, DraftOf(w), w.state.inbox)))
  {
    DrainCounts(size, DraftOf(w), DraftOf(w), w.state.inbox);
  }

  lemma DrainedConserves(size: Sizes, w: World, d: Draft, absorbed: multiset<string>)
    requires Inv(size, w) && Conserved(w, absorbed) && w.state.pending.None? && w.state.revision < MAX_SAFE_INTEGER
    requires AfterDrain(size, DraftOf(w)) == Success(d) && Published(size, w, d, []).Success?
    ensures Conserved(Published(size, w, d, []).value,
                      absorbed + multiset(Keys(Taken(size, DraftOf(w), w.state.inbox))))
  {
    DrainReady(size, w, d);
    PublishDecides(size, w, d, []);
    DrainedKeys(size, w, d);
    DrainedWrites(size, w, d);
    TakenConserves(w, d, Keys(Taken(size, DraftOf(w), w.state.inbox)), Published(size, w, d, []).value, absorbed);
  }

  lemma DrainedWrites(size: Sizes, w: World, d: Draft)
    requires Inv(size, w) && w.state.pending.None? && w.state.revision < MAX_SAFE_INTEGER
    requires AfterDrain(size, DraftOf(w)) == Success(d)
    ensures forall i :: 0 <= i < |d.writes| ==> !d.writes[i].ref.InputRef?
  {
    DrainKeepsStructure(size, DraftOf(w));
    assert FreshWrites(DraftOf(w), d);
  }

  lemma PrepareConserves(size: Sizes, w: World, absorbed: multiset<string>)
    requires Inv(size, w) && Conserved(w, absorbed) && AfterPrepare(size, w).Success? && w.state.pending.None?
    ensures Conserved(AfterPrepare(size, w).value, absorbed + multiset(TakenBy(size, w, Prepare)))
  {
    var d := AfterDrain(size, DraftOf(w)).value;
    DrainWrites(size, DraftOf(w), w.state.inbox);
    DrainedConserves(size, w, d, absorbed);
  }

  lemma TakenConserves(w: World, d: Draft, taken: seq<string>, after: World, absorbed: multiset<string>)
    requires Conserved(w, absorbed) && Grown(w, d, [], after) && after.state.inbox == d.state.inbox
    requires forall i :: 0 <= i < |d.writes| ==> !d.writes[i].ref.InputRef?
    requires multiset(Keys(w.state.inbox)) == multiset(Keys(d.state.inbox)) + multiset(taken)
    ensures Conserved(after, absorbed + multiset(taken))
  {
    NoInputWrites(w, d, [], after);
  }

  lemma NoInputWrites(w: World, d: Draft, keys: seq<ReceiptKey>, after: World)
    requires Grown(w, d, keys, after)
    requires forall i :: 0 <= i < |d.writes| ==> !d.writes[i].ref.InputRef?
    ensures forall key :: InputRef(key) in after.records <==> InputRef(key) in w.records
  {
  }

  /** A publication that leaves the inbox alone and records no input changes no count. */
  lemma QuietPublication(size: Sizes, w: World, d: Draft, keys: seq<ReceiptKey>, absorbed: multiset<string>)
    requires Conserved(w, absorbed) && Published(size, w, d, keys).Success?
    requires d.state.inbox == w.state.inbox
    requires forall i :: 0 <= i < |d.writes| ==> !d.writes[i].ref.InputRef?
    ensures Conserved(Published(size, w, d, keys).value, absorbed)
  {
    PublishMeaning(w.records, d.writes);
  }

  lemma AttemptConserves(size: Sizes, w: World, id: Id, message: string, absorbed: multiset<string>)
    requires Conserved(w, absorbed)
    ensures AfterBeginAttempt(size, w).Success? ==> Conserved(AfterBeginAttempt(size, w).value, absorbed)
    ensures AfterRetry(size, w).Success? ==> Conserved(AfterRetry(size, w).value, absorbed)
    ensures AfterFail(size, w, id, message).Success? ==> Conserved(AfterFail(size, w, id, message).value, absorbed)
  {
    if w.state.pending.Some? {
      var p := w.state.pending.value;
      if AfterBeginAttempt(size, w).Success? {
        QuietPublication(size, w, WithPending(w, p.(attempts := p.attempts + 1)), [], absorbed);
      }
      if AfterRetry(size, w).Success? {
        QuietPublication(size, w, WithPending(w, p.(attempts := 0)), [], absorbed);
      }
      if AfterFail(size, w, id, message).Success? {
        QuietPublication(size, w, WithPending(w, p.(lastError := Some(ErrorText(message)))), [], absorbed);
      }
    }
  }

  lemma SummaryConserves(size: Sizes, w: World, round: string, id: Id, summary: Summary, absorbed: multiset<string>)
    requires Conserved(w, absorbed)
    ensures AfterSummaryPhase(size, w, round, id, summary).Success? ==>
              Conserved(AfterSummaryPhase(size, w, round, id, summary).value, absorbed)
    ensures AfterCommitSummary(size, w, round, id, summary).Success? ==>
              Conserved(AfterCommitSummary(size, w, round, id, summary).value, absorbed)
  {
    var d := AfterIntegrate(size, DraftOf(w), id, summary);
    if d.Success? {
      IntegratedConserves(size, w, d.value, id, summary, PhaseKeys(w, round, id), absorbed);
      IntegratedConserves(size, w, d.value, id, summary, [RoundDone(round)], absorbed);
    }
  }

  lemma IntegratedConserves(size: Sizes, w: World, d: Draft, id: Id, summary: Summary, keys: seq<ReceiptKey>,
                            absorbed: multiset<string>)
    requires Conserved(w, absorbed) && AfterIntegrate(size, DraftOf(w), id, summary) == Success(d)
    ensures Published(size, w, d, keys).Success? ==> Conserved(Published(size, w, d, keys).value, absorbed)
  {
    IntegrateWrites(size, w, id, summary);
    if Published(size, w, d, keys).Success? {
      QuietPublication(size, w, d, keys, absorbed);
    }
  }

  lemma ApplyConserves(size: Sizes, w: World, round: string, cursor: Cursor, decision: Decision, entries: seq<Entry>,
                       absorbed: multiset<string>)
    requires Conserved(w, absorbed) && AfterApply(size, w, round, cursor, decision, entries).Success?
    ensures Conserved(AfterApply(size, w, round, cursor, decision, entries).value, absorbed)
  {
    if RoundDone(round) !in w.receipts {
      DecisionWrites(size, w, decision, entries);
      DecisionInputs(w, decision, entries);
      var d := Archive(ContextTasks.AfterDecision(DraftOf(w), decision, entries).value).0;
      QuietPublication(size, w, d, [RoundDone(round)], absorbed);
    }
  }

  lemma OtherOpConserves(size: Sizes, w: World, op: Op, absorbed: multiset<string>)
    requires Conserved(w, absorbed)
    requires !op.Receive? && !op.ReceiveAvailable? && !op.Prepare?
    ensures Conserved(Step(size, w, op), absorbed)
  {
    if After(size, w, op).Success? {
      match op
      case Apply(round, cursor, decision, entries) =>
        ApplyConserves(size, w, round, cursor, decision, entries, absorbed);
      case BeginAttempt => AttemptConserves(size, w, 0, "", absorbed);
      case RetrySummary => AttemptConserves(size, w, 0, "", absorbed);
      case FailSummary(id, message) => AttemptConserves(size, w, id, message, absorbed);
      case SummaryPhase(round, id, summary) => SummaryConserves(size, w, round, id, summary, absorbed);
      case CommitSummary(round, id, summary) => SummaryConserves(size, w, round, id, summary, absorbed);
      case Acknowledge(round) =>
        if RoundDone(round) !in w.receipts {
          QuietPublication(size, w, DraftOf(w), [RoundDone(round)], absorbed);
        }
      case ConfigureBudget(b) =>
        var policy := w.state.policy;
        if !(policy.budget1 == b && policy.budget2 == b && policy.budget3 == b) {
          QuietPublication(size, w, BudgetDraft(w, b), [], absorbed);
        }
    }
  }

  lemma DecisionInputs(w: World, decision: Decision, entries: seq<Entry>)
    requires ContextTasks.AfterDecision(DraftOf(w), decision, entries).Success?
    ensures var d := ContextTasks.AfterDecision(DraftOf(w), decision, entries).value;
            forall i :: 0 <= i < |d.writes| ==> !d.writes[i].ref.InputRef?
  {
  }

  lemma StepConserves(size: Sizes, w: World, op: Op, absorbed: multiset<string>)
    requires Inv(size, w) && Conserved(w, absorbed)
    ensures Conserved(Step(size, w, op), absorbed + multiset(TakenBy(size, w, op)))
  {
    match op
    case Receive(ds) =>
      if After(size, w, op).Success? {
        UnreceivedFresh(size, w, [], ds);
        AcceptConserves(size, w, Unreceived(size, w, [], ds).value, absorbed);
      }
    case ReceiveAvailable(ds) =>
      if After(size, w, op).Success? {
        UnreceivedFresh(size, w, [], ds);
        var unseen := Unreceived(size, w, [], ds).value;
        FreshPrefix(size, w, unseen, Available(w.state));
        AcceptConserves(size, w, Prefix(unseen, Available(w.state)), absorbed);
      }
    case Prepare =>
      if After(size, w, op).Success? && w.state.pending.None? {
        PrepareConserves(size, w, absorbed);
      }
    case _ => OtherOpConserves(size, w, op, absorbed);
  }

  /** Exactly once over whole runs: redelivery, retries, failures and restarts neither lose nor repeat an input. */
  lemma {:induction false} RunConserves(size: Sizes, w: World, ops: seq<Op>, absorbed: multiset<string>)
    requires Inv(size, w) && Conserved(w, absorbed)
    ensures Conserved(Run(size, w, ops), absorbed + multiset(RunTaken(size, w, ops)))
    decreases |ops|
  {
    if |ops| > 0 {
      StepConserves(size, w, ops[0], absorbed);
      StepKeepsInv(size, w, ops[0]);
      RunConserves(size, Step(size, w, ops[0]), ops[1..], absorbed + multiset(TakenBy(size, w, ops[0])));
    }
  }

  lemma CreatedConserved(size: Sizes, next: Id, policy: Policy, instructions: seq<string>, objective: string,
                         idle: bool)
    requires Created(size, next, policy, instructions, objective, idle).Success?
    ensures Conserved(Created(size, next, policy, instructions, objective, idle).value, multiset{})
  {
  }

  /** A key that was ever accepted is not new again, in any later state. */
  lemma {:induction false} NeverReenters(size: Sizes, w: World, acc: seq<Delivery>, ds: seq<Delivery>, key: string)
    requires InputRef(key) in w.records && Unreceived(size, w, acc, ds).Success?
    requires forall i :: 0 <= i < |acc| ==> acc[i].key != key
    ensures forall d :: d in Unreceived(size, w, acc, ds).value ==> d.key != key
    decreases |ds|
  {
    if |ds| > 0 {
      if FindKey(acc, ds[0].key).Some? || InputRef(ds[0].key) in w.records {
        NeverReenters(size, w, acc, ds[1..], key);
      } else {
        NeverReenters(size, w, acc + [ds[0]], ds[1..], key);
      }
    }
  }
}
