/** Weighted fairness of the ready queue, over any run. */
module ReadyFairness {
  import opened Basics
  import opened ReadyQueue

  datatype Event =
    | Enqueue(task: string, depth: nat, boosted: bool, at: real)
    | Remove(task: string)
    | Dequeue(at: real)

  function Step(p: Policy, q: Queue, e: Event): Queue
    requires PolicyOk(p)
  {
    match e
    case Enqueue(task, depth, boosted, at) =>
      var r := AfterEnqueue(q, task, true, depth, boosted, at);
      if r.Success? then r.value else q
    case Remove(task) => AfterRemove(q, task)
    case Dequeue(at) => AfterDequeue(p, q, at).0
  }

  function Run(p: Policy, q: Queue, es: seq<Event>): Queue
    requires PolicyOk(p)
    decreases |es|
  {
    if |es| == 0 then q else Run(p, Step(p, q, es[0]), es[1..])
  }

  function Dequeues(es: seq<Event>): nat {
    if |es| == 0 then 0 else (if es[0].Dequeue? then 1 else 0) + Dequeues(es[1..])
  }

  /** At every dequeue of the run some entry has this effective depth. */
  predicate Occupied(p: Policy, q: Queue, es: seq<Event>, d: nat)
    requires PolicyOk(p)
    decreases |es|
  {
    |es| == 0 || ((es[0].Dequeue? ==> d in Depths(p, q.entries, es[0].at))
                  && Occupied(p, Step(p, q, es[0]), es[1..], d))
  }

  predicate Serves(p: Policy, q: Queue, at: real, d: nat)
    requires PolicyOk(p)
  {
    var served := AfterDequeue(p, q, at).1;
    served.Some? && EffectiveDepth(p, served.value, at) == d
  }

  /** How many dequeues of the run take an entry of this effective depth. */
  function Served(p: Policy, q: Queue, es: seq<Event>, d: nat): nat
    requires PolicyOk(p)
    decreases |es|
  {
    if |es| == 0 then 0
    else (if es[0].Dequeue? && Serves(p, q, es[0].at, d) then 1 else 0) + Served(p, Step(p, q, es[0]), es[1..], d)
  }

  // ---- counting slots ----

  /** How many of the `n` slots from a place on belong to a depth. */
  function Slots(schedule: seq<nat>, from: nat, n: nat, d: nat): nat
    requires |schedule| > 0
  {
    if n == 0 then 0 else Slots(schedule, from, n - 1, d) + if SlotAt(schedule, from, n - 1) == d then 1 else 0
  }

  lemma {:induction false} WrapAdd(n: nat, x: nat, k: nat)
    requires n > 0
    ensures Wrap(Wrap(x, n) + k, n) == Wrap(x + k, n)
    decreases x
  {
    if x >= n {
      WrapAdd(n, x - n, k);
    }
  }

  lemma SlotShift(schedule: seq<nat>, from: nat, a: nat, k: nat)
    requires |schedule| > 0
    ensures SlotAt(schedule, Wrap(from + a, |schedule|), k) == SlotAt(schedule, from, a + k)
  {
    WrapAdd(|schedule|, from + a, k);
  }

  lemma {:induction false} SlotsSplit(schedule: seq<nat>, from: nat, a: nat, b: nat, d: nat)
    requires |schedule| > 0
    ensures Slots(schedule, from, a + b, d) ==
              Slots(schedule, from, a, d) + Slots(schedule, Wrap(from + a, |schedule|), b, d)
    decreases b
  {
    if b > 0 {
      SlotsSplit(schedule, from, a, b - 1, d);
      SlotShift(schedule, from, a, b - 1);
    }
  }

  lemma SlotAround(schedule: seq<nat>, from: nat)
    requires |schedule| > 0
    ensures SlotAt(schedule, from, |schedule|) == SlotAt(schedule, from, 0)
  {
  }

  /** Any full turn of the schedule has the same number of slots of a depth. */
  lemma {:induction false} FullTurn(schedule: seq<nat>, from: nat, d: nat)
    requires |schedule| > 0
    ensures Slots(schedule, from, |schedule|, d) == Slots(schedule, 0, |schedule|, d)
    decreases from
  {
    if from > 0 {
      FullTurn(schedule, from - 1, d);
      var n := |schedule|;
      SlotsShifted(schedule, from, n, d);
      SlotAround(schedule, from - 1);
    }
  }

  lemma {:induction false} SlotsShifted(schedule: seq<nat>, from: nat, n: nat, d: nat)
    requires |schedule| > 0 && from > 0
    ensures Slots(schedule, from - 1, n + 1, d)
            == (if SlotAt(schedule, from - 1, 0) == d then 1 else 0) + Slots(schedule, from, n, d)
    decreases n
  {
    if n > 0 {
      SlotsShifted(schedule, from, n - 1, d);
      assert SlotAt(schedule, from - 1, n) == SlotAt(schedule, from, n - 1);
    } else {
      assert Slots(schedule, from - 1, 0, d) == 0 && Slots(schedule, from, 0, d) == 0;
      assert Slots(schedule, from - 1, 1, d) ==
             Slots(schedule, from - 1, 0, d) + if SlotAt(schedule, from - 1, 0) == d then 1 else 0;
    }
  }

  lemma {:induction false} SlotsInSchedule(schedule: seq<nat>, n: nat, d: nat)
    requires 0 < |schedule| && n <= |schedule|
    ensures Slots(schedule, 0, n, d) == Occurrences(schedule[..n], d)
    decreases n
  {
    if n > 0 {
      SlotsInSchedule(schedule, n - 1, d);
      assert schedule[..n][..n - 1] == schedule[..n - 1];
    }
  }

  function Occurrences(s: seq<nat>, d: nat): nat {
    if |s| == 0 then 0 else Occurrences(s[..|s| - 1], d) + if s[|s| - 1] == d then 1 else 0
  }

  lemma {:induction false} OccurrencesConcat(a: seq<nat>, b: seq<nat>, d: nat)
    ensures Occurrences(a + b, d) == Occurrences(a, d) + Occurrences(b, d)
    decreases |b|
  {
    if |b| == 0 {
      assert a + b == a;
    } else {
      assert (a + b)[..|a| + |b| - 1] == a + b[..|b| - 1];
      OccurrencesConcat(a, b[..|b| - 1], d);
    }
  }

  lemma {:induction false} OccurrencesRepeat(depth: nat, times: nat, d: nat)
    ensures Occurrences(Repeat(depth, times), d) == if depth == d then times else 0
    decreases times
  {
    if times > 0 {
      assert Repeat(depth, times)[..times - 1] == Repeat(depth, times - 1);
      OccurrencesRepeat(depth, times - 1, d);
    }
  }

  /** A full turn serves each depth as often as its weight, wherever it begins. */
  lemma TurnWeight(p: Policy, from: nat, d: nat)
    requires PolicyOk(p) && 1 <= d <= MAX_DEPTH
    ensures Slots(Schedule(p), from, |Schedule(p)|, d) == Weight(p, d)
  {
    var s := Schedule(p);
    FullTurn(s, from, d);
    SlotsInSchedule(s, |s|, d);
    assert s[..|s|] == s;
    OccurrencesConcat(Repeat(3, p.weight3) + Repeat(2, p.weight2), Repeat(1, p.weight1), d);
    OccurrencesConcat(Repeat(3, p.weight3), Repeat(2, p.weight2), d);
    OccurrencesRepeat(3, p.weight3, d);
    OccurrencesRepeat(2, p.weight2, d);
    OccurrencesRepeat(1, p.weight1, d);
  }

  lemma OneMore(turns: nat, n: nat)
    requires turns > 0
    ensures (turns - 1) * n + n == turns * n && (turns - 1) * n >= 0
  {
  }

  lemma {:induction false} TurnsWeight(p: Policy, from: nat, turns: nat, d: nat)
    requires PolicyOk(p) && 1 <= d <= MAX_DEPTH
    ensures Slots(Schedule(p), from, turns * |Schedule(p)|, d) == turns * Weight(p, d)
    decreases turns
  {
    if turns > 0 {
      OneMore(turns, |Schedule(p)|);
      OneMore(turns, Weight(p, d));
      var before: nat := (turns - 1) * |Schedule(p)|;
      TurnsWeight(p, from, turns - 1, d);
      TurnAfter(p, from, before, d);
      assert turns * |Schedule(p)| == before + |Schedule(p)|;
    }
  }

  /** One full turn more serves a depth its weight once more. */
  lemma TurnAfter(p: Policy, from: nat, a: nat, d: nat)
    requires PolicyOk(p) && 1 <= d <= MAX_DEPTH
    ensures Slots(Schedule(p), from, a + |Schedule(p)|, d) == Slots(Schedule(p), from, a, d) + Weight(p, d)
  {
    SlotsSplit(Schedule(p), from, a, |Schedule(p)|, d);
    TurnWeight(p, Wrap(from + a, |Schedule(p)|), d);
  }

  lemma {:induction false} SlotsMonotone(schedule: seq<nat>, from: nat, m: nat, n: nat, d: nat)
    requires |schedule| > 0 && m <= n
    ensures Slots(schedule, from, m, d) <= Slots(schedule, from, n, d)
    decreases n
  {
    if m < n {
      SlotsMonotone(schedule, from, m, n - 1, d);
    }
  }

  // ---- dequeues move the cursor over slots ----

  lemma {:induction false} SkippedSlots(schedule: seq<nat>, from: nat, n: nat, d: nat)
    requires |schedule| > 0 && forall k :: 0 <= k < n ==> SlotAt(schedule, from, k) != d
    ensures Slots(schedule, from, n, d) == 0
    decreases n
  {
    if n > 0 {
      SkippedSlots(schedule, from, n - 1, d);
    }
  }

  /** A dequeue serves an occupied depth exactly when its cursor moves past a slot of that depth. */
  lemma DequeueSlots(p: Policy, q: Queue, at: real, d: nat) returns (moved: nat)
    requires QueueOk(p, q) && d in Depths(p, q.entries, at)
    ensures moved >= 1 && AfterDequeue(p, q, at).0.cursor == Wrap(q.cursor + moved, |Schedule(p)|)
    ensures Slots(Schedule(p), q.cursor, moved, d) == if Serves(p, q, at, d) then 1 else 0
  {
    ChosenExists(p, q, at);
    var o := Chosen(p, q, at).value.0;
    SkippedSlots(Schedule(p), q.cursor, o, d);
    moved := o + 1;
  }

  lemma RemovalKeeps(p: Policy, q: Queue, e: Event)
    requires QueueOk(p, q)
    ensures QueueOk(p, Step(p, q, e))
    ensures !e.Dequeue? ==> Step(p, q, e).cursor == q.cursor
  {
    if e.Dequeue? {
      DequeueKeeps(p, q, e.at);
    } else {
      ArrivalKeeps(p, q, e);
    }
  }

  lemma ArrivalKeeps(p: Policy, q: Queue, e: Event)
    requires QueueOk(p, q) && !e.Dequeue?
    ensures QueueOk(p, Step(p, q, e)) && Step(p, q, e).cursor == q.cursor
  {
  }

  /** One dequeue and the moves after it, counted together. */
  lemma SlotsOn(schedule: seq<nat>, from: nat, first: nat, cursor: nat, rest: nat, d: nat)
    requires |schedule| > 0 && cursor == Wrap(from + first, |schedule|)
    ensures Slots(schedule, from, first + rest, d) ==
              Slots(schedule, from, first, d) + Slots(schedule, cursor, rest, d)
  {
    SlotsSplit(schedule, from, first, rest, d);
  }

  lemma DequeueThen(p: Policy, q: Queue, at: real, d: nat, rest: nat) returns (moved: nat)
    requires QueueOk(p, q) && d in Depths(p, q.entries, at)
    ensures moved >= 1 + rest
    ensures Slots(Schedule(p), q.cursor, moved, d) ==
            (if Serves(p, q, at, d) then 1 else 0) + Slots(Schedule(p), AfterDequeue(p, q, at).0.cursor, rest, d)
  {
    var first := DequeueSlots(p, q, at, d);
    var schedule, cursor := Schedule(p), AfterDequeue(p, q, at).0.cursor;
    SlotsOn(schedule, q.cursor, first, cursor, rest, d);
    moved := first + rest;
    assert Slots(schedule, q.cursor, first + rest, d) ==
             Slots(schedule, q.cursor, first, d) + Slots(schedule, cursor, rest, d);
  }

  /**
   * Over a run, the cursor moves over at least one slot a dequeue, and each slot of an occupied depth it passes is
   * served.
   */
  lemma {:induction false} RunSlots(p: Policy, q: Queue, es: seq<Event>, d: nat) returns (moved: nat)
    requires QueueOk(p, q) && Occupied(p, q, es, d)
    ensures moved >= Dequeues(es)
    ensures Served(p, q, es, d) == Slots(Schedule(p), q.cursor, moved, d)
    decreases |es|
  {
    if |es| == 0 {
      moved := 0;
    } else {
      RemovalKeeps(p, q, es[0]);
      moved := RunSlots(p, Step(p, q, es[0]), es[1..], d);
      if es[0].Dequeue? {
        moved := DequeueThen(p, q, es[0].at, d, moved);
      }
    }
  }

  /**
   * Weighted fairness: while an effective depth stays occupied, every full turn of the schedule, that is, every
   * as many dequeues as the schedule has slots, serves it at least as often as its weight says, whatever else
   * arrives or leaves and however the clock moves entries between depths.
   */
  lemma Fair(p: Policy, q: Queue, es: seq<Event>, d: nat, turns: nat)
    requires QueueOk(p, q) && 1 <= d <= MAX_DEPTH && Occupied(p, q, es, d)
    requires Dequeues(es) >= turns * |Schedule(p)|
    ensures Served(p, q, es, d) >= turns * Weight(p, d)
  {
    var moved := RunSlots(p, q, es, d);
    TurnsWeight(p, q.cursor, turns, d);
    SlotsMonotone(Schedule(p), q.cursor, turns * |Schedule(p)|, moved, d);
  }

  // ---- no entry waits for ever ----

  predicate Present(q: Queue, order: nat) {
    exists i :: 0 <= i < |q.entries| && q.entries[i].order == order
  }

  /** How many entries arrived before a given one. */
  function Older(entries: seq<Entry>, order: nat): nat {
    if |entries| == 0 then 0
    else Older(entries[..|entries| - 1], order) + if entries[|entries| - 1].order < order then 1 else 0
  }

  /**
   * At every dequeue while the entry is queued it has the same effective depth, and at that depth nothing is
   * boosted past it.
   */
  predicate Steady(p: Policy, q: Queue, es: seq<Event>, order: nat, d: nat)
    requires PolicyOk(p)
    decreases |es|
  {
    |es| == 0 ||
    (&& (es[0].Dequeue? && Present(q, order) ==> SteadyNow(p, q.entries, es[0].at, order, d))
     && Steady(p, Step(p, q, es[0]), es[1..], order, d))
  }

  predicate SteadyNow(p: Policy, entries: seq<Entry>, at: real, order: nat, d: nat)
    requires PolicyOk(p)
  {
    forall i :: 0 <= i < |entries| ==>
      && (entries[i].order == order ==> EffectiveDepth(p, entries[i], at) == d)
      && (EffectiveDepth(p, entries[i], at) == d ==> !entries[i].boosted)
  }

  lemma WithoutLast(entries: seq<Entry>, i: nat)
    requires i < |entries| - 1
    ensures var n := |entries| - 1;
            var rest := Without(entries, i);
            |rest| == n && rest[..n - 1] == Without(entries[..n], i) && rest[n - 1] == entries[n]
  {
    var n := |entries| - 1;
    assert entries[i + 1..] == entries[..n][i + 1..] + [entries[n]];
    assert Without(entries, i) == Without(entries[..n], i) + [entries[n]];
  }

  lemma {:induction false} OlderWithout(entries: seq<Entry>, i: nat, order: nat)
    requires i < |entries|
    ensures Older(Without(entries, i), order) + (if entries[i].order < order then 1 else 0) == Older(entries, order)
    decreases |entries|
  {
    var n := |entries| - 1;
    if i < n {
      OlderWithout(entries[..n], i, order);
      WithoutLast(entries, i);
    } else {
      assert Without(entries, i) == entries[..n];
    }
  }

  /** Gone is gone: a number of arrival is never used again. */
  lemma {:induction false} AbsentStays(p: Policy, q: Queue, es: seq<Event>, order: nat)
    requires QueueOk(p, q) && order < q.nextOrder && !Present(q, order)
    ensures !Present(Run(p, q, es), order)
    decreases |es|
  {
    if |es| > 0 {
      RemovalKeeps(p, q, es[0]);
      AbsentStep(p, q, es[0], order);
      AbsentStays(p, Step(p, q, es[0]), es[1..], order);
    }
  }

  lemma AbsentStep(p: Policy, q: Queue, e: Event, order: nat)
    requires QueueOk(p, q) && order < q.nextOrder && !Present(q, order)
    ensures !Present(Step(p, q, e), order) && order < Step(p, q, e).nextOrder
  {
    var u := Step(p, q, e);
    forall i | 0 <= i < |u.entries| ensures u.entries[i].order != order {
      assert u.entries[i] in q.entries || u.entries[i].order == q.nextOrder;
    }
  }

  /** A dequeue at the entry's depth takes an older entry, or the entry itself. */
  lemma DequeueValue(p: Policy, q: Queue, at: real, d: nat)
    requires QueueOk(p, q) && |q.entries| > 0
    ensures Chosen(p, q, at).Some?
    ensures var i := Chosen(p, q, at).value.1;
            && AfterDequeue(p, q, at).0.entries == Without(q.entries, i)
            && (Serves(p, q, at, d) <==> EffectiveDepth(p, q.entries[i], at) == d)
  {
    ChosenExists(p, q, at);
  }

  lemma ServesOlder(p: Policy, q: Queue, at: real, order: nat, d: nat)
    requires QueueOk(p, q) && Present(q, order) && SteadyNow(p, q.entries, at, order, d)
    ensures d in Depths(p, q.entries, at)
    ensures var u := AfterDequeue(p, q, at).0;
            Present(u, order) ==>
              Older(u.entries, order) + (if Serves(p, q, at, d) then 1 else 0) <= Older(q.entries, order)
  {
    var e :| 0 <= e < |q.entries| && q.entries[e].order == order;
    assert EffectiveDepth(p, q.entries[e], at) == d;
    DequeueValue(p, q, at, d);
    var i := Chosen(p, q, at).value.1;
    OlderWithout(q.entries, i, order);
    if Serves(p, q, at, d) {
      ServedFirst(p, q, at, e, d);
      if q.entries[i].order == order {
        OnlyOne(p, q, i, e);
      }
    }
  }

  /** What has been taken out is not there any more. */
  lemma OnlyOne(p: Policy, q: Queue, i: nat, e: nat)
    requires QueueOk(p, q) && i < |q.entries| && e < |q.entries| && q.entries[i].order == q.entries[e].order
    ensures i == e
    ensures forall k :: 0 <= k < |Without(q.entries, i)| ==> Without(q.entries, i)[k].order != q.entries[i].order
  {
  }

  /** What is served at a depth where nothing is boosted came no later than any other entry of the depth. */
  lemma ServedFirst(p: Policy, q: Queue, at: real, e: nat, d: nat)
    requires QueueOk(p, q) && Serves(p, q, at, d) && Chosen(p, q, at).Some?
    requires e < |q.entries| && EffectiveDepth(p, q.entries[e], at) == d
    requires forall i :: 0 <= i < |q.entries| && EffectiveDepth(p, q.entries[i], at) == d ==> !q.entries[i].boosted
    ensures q.entries[Chosen(p, q, at).value.1].order <= q.entries[e].order
  {
    assert !Before(q.entries[e], q.entries[Chosen(p, q, at).value.1]);
  }

  lemma OlderStep(p: Policy, q: Queue, e: Event, order: nat)
    requires QueueOk(p, q) && order < q.nextOrder && !e.Dequeue?
    ensures Older(Step(p, q, e).entries, order) <= Older(q.entries, order)
  {
    match e
    case Enqueue(task, depth, boosted, at) =>
      var r := AfterEnqueue(q, task, true, depth, boosted, at);
      if r.Success? {
        assert r.value.entries[..|q.entries|] == q.entries;
      }
    case Remove(task) =>
      var i := Position(q.entries, task);
      if i.Some? {
        OlderWithout(q.entries, i.value, order);
      }
  }

  lemma {:induction false} ServesUseUp(p: Policy, q: Queue, es: seq<Event>, order: nat, d: nat)
    requires QueueOk(p, q) && order < q.nextOrder && Steady(p, q, es, order, d) && Present(Run(p, q, es), order)
    ensures Occupied(p, q, es, d) && Served(p, q, es, d) <= Older(q.entries, order)
    decreases |es|
  {
    if |es| > 0 {
      var u := Step(p, q, es[0]);
      RemovalKeeps(p, q, es[0]);
      if !Present(q, order) {
        AbsentStays(p, q, es, order);
      }
      if !Present(u, order) {
        OrdersGrow(p, q, es[0], order);
        AbsentStays(p, u, es[1..], order);
      }
      assert u.nextOrder >= q.nextOrder;
      ServesUseUp(p, u, es[1..], order, d);
      if es[0].Dequeue? {
        ServesOlder(p, q, es[0].at, order, d);
      } else {
        OlderStep(p, q, es[0], order);
      }
    }
  }

  lemma OrdersGrow(p: Policy, q: Queue, e: Event, order: nat)
    requires QueueOk(p, q) && order < q.nextOrder
    ensures order < Step(p, q, e).nextOrder
  {
  }

  /**
   * No starvation: an entry of steady effective depth with at most `k` older entries is gone after `turns` full
   * turns of the schedule, as soon as these have more slots of its depth than there are older entries, whatever
   * is enqueued meanwhile.
   */
  lemma NoStarvation(p: Policy, q: Queue, es: seq<Event>, order: nat, d: nat, turns: nat)
    requires QueueOk(p, q) && order < q.nextOrder && 1 <= d <= MAX_DEPTH && Steady(p, q, es, order, d)
    requires turns * Weight(p, d) > Older(q.entries, order)
    requires Dequeues(es) >= turns * |Schedule(p)|
    ensures !Present(Run(p, q, es), order)
  {
    if Present(Run(p, q, es), order) {
      ServesUseUp(p, q, es, order, d);
      Fair(p, q, es, d, turns);
    }
  }
}
