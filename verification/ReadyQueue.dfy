/** The weighted ready queue: a fixed schedule of depths, with aging and boosts. */
module ReadyQueue {
  import opened Basics

  const MAX_DEPTH: nat := 3

  /** An entry, by its task; `order` counts arrivals. */
  datatype Entry = Entry(task: string, depth: nat, order: nat, enqueuedAt: real, boosted: bool)

  datatype Policy = Policy(weight1: nat, weight2: nat, weight3: nat, agingThreshold: real)

  datatype Queue = Queue(entries: seq<Entry>, cursor: nat, nextOrder: nat)

  predicate PolicyOk(p: Policy) {
    p.weight1 > 0 && p.weight2 > 0 && p.weight3 > 0 && p.agingThreshold > 0.0
  }

  function Weight(p: Policy, depth: nat): nat {
    if depth == 1 then p.weight1 else if depth == 2 then p.weight2 else if depth == 3 then p.weight3 else 0
  }

  function Repeat(depth: nat, times: nat): (r: seq<nat>)
    ensures |r| == times && forall i :: 0 <= i < times ==> r[i] == depth
  {
    seq(times, i => depth)
  }

  /** Deepest first, each depth as often as its weight. */
  function Schedule(p: Policy): (r: seq<nat>)
    requires PolicyOk(p)
    ensures |r| == p.weight1 + p.weight2 + p.weight3
    ensures forall i :: 0 <= i < |r| ==> 1 <= r[i] <= MAX_DEPTH
  {
    Repeat(3, p.weight3) + Repeat(2, p.weight2) + Repeat(1, p.weight1)
  }

  function EffectiveDepth(p: Policy, e: Entry, now: real): (d: nat)
    requires PolicyOk(p)
    ensures d <= MAX_DEPTH
    ensures e.boosted ==> d == MAX_DEPTH
    ensures e.depth <= MAX_DEPTH ==> e.depth <= d
  {
    if e.boosted then MAX_DEPTH
    else
      var waited := if now > e.enqueuedAt then now - e.enqueuedAt else 0.0;
      var boost := (waited / p.agingThreshold).Floor;
      WaitedBoost(waited, p.agingThreshold);
      if e.depth + boost > MAX_DEPTH then MAX_DEPTH else e.depth + boost
  }

  lemma WaitedBoost(waited: real, threshold: real)
    requires waited >= 0.0 && threshold > 0.0
    ensures (waited / threshold).Floor >= 0
  {
    assert waited / threshold >= 0.0;
  }

  /** The effective depths that have an entry. */
  function Depths(p: Policy, entries: seq<Entry>, now: real): set<nat>
    requires PolicyOk(p)
  {
    set i | 0 <= i < |entries| :: EffectiveDepth(p, entries[i], now)
  }

  /** The remainder of a place around a circle of `n` places. */
  function Wrap(x: nat, n: nat): (r: nat)
    requires n > 0
    ensures r < n
  {
    if x < n then x else Wrap(x - n, n)
  }

  /** It differs from the place by whole turns. */
  lemma {:induction false} WrapTurns(x: nat, n: nat) returns (turns: nat)
    requires n > 0
    ensures x == turns * n + Wrap(x, n)
    decreases x
  {
    turns := 0;
    if x >= n {
      var fewer := WrapTurns(x - n, n);
      turns := fewer + 1;
      assert (fewer + 1) * n == fewer * n + n;
    }
  }

  /** The depth of the slot `k` places after the cursor, around the end of the schedule. */
  function SlotAt(schedule: seq<nat>, cursor: nat, k: nat): (d: nat)
    requires |schedule| > 0
    ensures d in schedule
  {
    schedule[Wrap(cursor + k, |schedule|)]
  }

  /** How many slots are passed over before one whose depth has an entry. */
  function Offset(schedule: seq<nat>, cursor: nat, depths: set<nat>, k: nat): (o: nat)
    requires |schedule| > 0 && k <= |schedule|
    ensures k <= o <= |schedule|
    ensures o < |schedule| ==> SlotAt(schedule, cursor, o) in depths
    ensures forall j :: k <= j < o ==> SlotAt(schedule, cursor, j) !in depths
    decreases |schedule| - k
  {
    if k == |schedule| || SlotAt(schedule, cursor, k) in depths then k else Offset(schedule, cursor, depths, k + 1)
  }

  /** Boosted entries go first, then the oldest. */
  predicate Before(a: Entry, b: Entry) {
    if a.boosted != b.boosted then a.boosted else a.order < b.order
  }

  /** The entry of an effective depth that nothing else of that depth goes before. */
  function Best(p: Policy, entries: seq<Entry>, depth: nat, now: real): (r: Option<nat>)
    requires PolicyOk(p)
    ensures r.Some? ==> r.value < |entries| && EffectiveDepth(p, entries[r.value], now) == depth
    ensures r.Some? ==>
              forall i :: 0 <= i < |entries| && EffectiveDepth(p, entries[i], now) == depth ==>
                !Before(entries[i], entries[r.value])
    ensures r.None? ==> forall i :: 0 <= i < |entries| ==> EffectiveDepth(p, entries[i], now) != depth
  {
    if |entries| == 0 then None
    else
      var n := |entries| - 1;
      var front := Best(p, entries[..n], depth, now);
      if EffectiveDepth(p, entries[n], now) != depth then front
      else if front.None? || Before(entries[n], entries[front.value]) then Some(n)
      else front
  }

  function Without(entries: seq<Entry>, i: nat): seq<Entry>
    requires i < |entries|
  {
    entries[..i] + entries[i + 1..]
  }

  // ---- operations ----

  predicate Queued(entries: seq<Entry>, task: string) {
    exists i :: 0 <= i < |entries| && entries[i].task == task
  }

  datatype QueueError = NotReady | BadDepth | Duplicate

  function AfterEnqueue(q: Queue, task: string, ready: bool, depth: nat, boosted: bool, now: real)
    : Result<Queue, QueueError> {
    if !ready then Failure(NotReady)
    else
      :- Need(1 <= depth <= MAX_DEPTH, BadDepth);
      :- Need(!Queued(q.entries, task), Duplicate);
      Success(Queue(q.entries + [Entry(task, depth, q.nextOrder, now, boosted)], q.cursor, q.nextOrder + 1))
  }

  /** Which slot is served next: the slots passed over, and the chosen entry. */
  function Chosen(p: Policy, q: Queue, now: real): (r: Option<(nat, nat)>)
    requires PolicyOk(p)
    ensures r.Some? ==> r.value.0 < |Schedule(p)| && r.value.1 < |q.entries|
  {
    var schedule := Schedule(p);
    var o := Offset(schedule, q.cursor, Depths(p, q.entries, now), 0);
    if o == |schedule| then None
    else
      var best := Best(p, q.entries, SlotAt(schedule, q.cursor, o), now);
      if best.Some? then Some((o, best.value)) else None
  }

  function AfterDequeue(p: Policy, q: Queue, now: real): (Queue, Option<Entry>)
    requires PolicyOk(p)
  {
    var chosen := Chosen(p, q, now);
    if chosen.None? then (q, None)
    else
      var (o, i) := chosen.value;
      (Queue(Without(q.entries, i), Wrap(q.cursor + o + 1, |Schedule(p)|), q.nextOrder), Some(q.entries[i]))
  }

  function Position(entries: seq<Entry>, task: string): (r: Option<nat>)
    ensures r.Some? ==> r.value < |entries| && entries[r.value].task == task
    ensures r.None? ==> !Queued(entries, task)
  {
    if |entries| == 0 then None
    else
      var front := Position(entries[..|entries| - 1], task);
      if front.Some? then front else if entries[|entries| - 1].task == task then Some(|entries| - 1) else None
  }

  function AfterRemove(q: Queue, task: string): Queue {
    var i := Position(q.entries, task);
    if i.Some? then q.(entries := Without(q.entries, i.value)) else q
  }

  // ---- invariant ----

  predicate OrdersOk(entries: seq<Entry>, nextOrder: nat) {
    && (forall i :: 0 <= i < |entries| ==> entries[i].order < nextOrder && 1 <= entries[i].depth <= MAX_DEPTH)
    && (forall i, j :: 0 <= i < j < |entries| ==> entries[i].order < entries[j].order)
  }

  predicate DistinctTasks(entries: seq<Entry>) {
    forall i, j :: 0 <= i < j < |entries| ==> entries[i].task != entries[j].task
  }

  predicate QueueOk(p: Policy, q: Queue) {
    PolicyOk(p) && q.cursor < |Schedule(p)| && OrdersOk(q.entries, q.nextOrder) && DistinctTasks(q.entries)
  }

  lemma ScheduleHas(p: Policy, d: nat)
    requires PolicyOk(p) && 1 <= d <= MAX_DEPTH
    ensures d in Schedule(p)
  {
    var s := Schedule(p);
    assert s[0] == 3 && s[p.weight3] == 2 && s[p.weight3 + p.weight2] == 1;
  }

  lemma ModInverse(n: nat, cursor: nat, i: nat) returns (j: nat)
    requires n > 0 && cursor < n && i < n
    ensures j < n && Wrap(cursor + j, n) == i
  {
    j := if i >= cursor then i - cursor else i + n - cursor;
  }

  /** A slot of an occupied depth is always found, so a dequeue fails only on the empty queue. */
  lemma ChosenExists(p: Policy, q: Queue, now: real)
    requires QueueOk(p, q) && |q.entries| > 0
    ensures Chosen(p, q, now).Some?
  {
    var schedule := Schedule(p);
    var d := EffectiveDepth(p, q.entries[0], now);
    var depths := Depths(p, q.entries, now);
    assert d in depths;
    ScheduleHas(p, d);
    var i :| 0 <= i < |schedule| && schedule[i] == d;
    var j := ModInverse(|schedule|, q.cursor, i);
    assert SlotAt(schedule, q.cursor, j) in depths;
  }

  lemma DequeueKeeps(p: Policy, q: Queue, now: real)
    requires QueueOk(p, q)
    ensures QueueOk(p, AfterDequeue(p, q, now).0)
    ensures AfterDequeue(p, q, now).1.None? <==> q.entries == []
  {
    if |q.entries| > 0 {
      ChosenExists(p, q, now);
    }
  }

  class Ready {
    const policy: Policy
    var taskIds: set<string>
    var entries: seq<Entry>
    var cursor: nat
    var nextOrder: nat

    constructor (policy: Policy)
      requires PolicyOk(policy)
      ensures this.policy == policy && Value() == Queue([], 0, 0) && Valid()
    {
      this.policy := policy;
      taskIds, entries, cursor, nextOrder := {}, [], 0, 0;
    }

    function Value(): Queue
      reads this
    {
      Queue(entries, cursor, nextOrder)
    }

    predicate Valid()
      reads this
    {
      QueueOk(policy, Value()) && taskIds == set i | 0 <= i < |entries| :: entries[i].task
    }

    method Enqueue(task: string, ready: bool, depth: nat, boosted: bool, now: real) returns (error: Option<QueueError>)
      requires Valid()
      modifies this
      ensures Valid()
      ensures match AfterEnqueue(old(Value()), task, ready, depth, boosted, now)
              case Success(q) => error.None? && Value() == q
              case Failure(e) => error == Some(e) && Value() == old(Value())
    {
      if !ready {
        return Some(NotReady);
      }
      if depth < 1 || depth > MAX_DEPTH {
        return Some(BadDepth);
      }
      if task in taskIds {
        return Some(Duplicate);
      }
      entries := entries + [Entry(task, depth, nextOrder, now, boosted)];
      nextOrder := nextOrder + 1;
      taskIds := taskIds + {task};
      assert entries[|entries| - 1].task == task;
      assert forall i :: 0 <= i < |entries| - 1 ==> entries[i] == old(entries)[i];
      return None;
    }

    /** Tries the slots from the cursor on until one has a candidate, and takes its best. */
    method Select(now: real) returns (r: Option<(nat, nat)>)
      requires Valid()
      ensures r == Chosen(policy, Value(), now)
    {
      var schedule := Schedule(policy);
      var offset := 0;
      var depths := Depths(policy, entries, now);
      while offset < |schedule|
        invariant offset <= |schedule|
        invariant Offset(schedule, cursor, depths, 0) == Offset(schedule, cursor, depths, offset)
      {
        var desired := SlotAt(schedule, cursor, offset);
        var best := FindBest(desired, now);
        if best.Some? {
          assert EffectiveDepth(policy, entries[best.value], now) in depths;
          return Some((offset, best.value));
        }
        assert desired !in depths;
        offset := offset + 1;
      }
      return None;
    }

    method FindBest(depth: nat, now: real) returns (best: Option<nat>)
      requires Valid()
      ensures best == Best(policy, entries, depth, now)
    {
      best := None;
      for i := 0 to |entries|
        invariant best == Best(policy, entries[..i], depth, now)
      {
        assert entries[..i + 1][..i] == entries[..i];
        if EffectiveDepth(policy, entries[i], now) == depth &&
           (best.None? || Before(entries[i], entries[best.value])) {
          best := Some(i);
        }
      }
      assert entries[..|entries|] == entries;
    }

    method Dequeue(now: real) returns (task: Option<string>)
      requires Valid()
      modifies this
      ensures Valid() && Value() == AfterDequeue(policy, old(Value()), now).0
      ensures task == match AfterDequeue(policy, old(Value()), now).1 case Some(e) => Some(e.task) case None => None
    {
      DequeueKeeps(policy, Value(), now);
      var selected := Select(now);
      if selected.None? {
        return None;
      }
      var (offset, i) := selected.value;
      task := Some(entries[i].task);
      Remaining(entries, i);
      entries := Without(entries, i);
      taskIds := taskIds - {task.value};
      cursor := Wrap(cursor + offset + 1, |Schedule(policy)|);
    }

    method Remove(task: string) returns (found: bool)
      requires Valid()
      modifies this
      ensures Valid() && Value() == AfterRemove(old(Value()), task) && found == Queued(old(entries), task)
    {
      var i := Position(entries, task);
      if i.None? {
        return false;
      }
      Remaining(entries, i.value);
      entries := Without(entries, i.value);
      taskIds := taskIds - {task};
      return true;
    }
  }

  lemma Remaining(entries: seq<Entry>, i: nat)
    requires i < |entries| && DistinctTasks(entries)
    ensures (set k | 0 <= k < |Without(entries, i)| :: Without(entries, i)[k].task)
            == (set k | 0 <= k < |entries| :: entries[k].task) - {entries[i].task}
  {
    var rest := Without(entries, i);
    forall k | 0 <= k < |entries| && k != i ensures exists j :: 0 <= j < |rest| && rest[j].task == entries[k].task {
      assert rest[if k < i then k else k - 1] == entries[k];
    }
    forall j | 0 <= j < |rest| ensures rest[j] == entries[if j < i then j else j + 1] {
    }
  }
}
