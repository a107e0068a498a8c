/** Without boosts nobody waits for ever: entries age, and use up the older ones. */
module ReadyAging {
  import opened Basics
  import opened ReadyQueue
  import opened ReadyFairness

  predicate NoBoosts(entries: seq<Entry>) {
    forall i :: 0 <= i < |entries| ==> !entries[i].boosted
  }

  predicate PlainEvents(es: seq<Event>) {
    forall i :: 0 <= i < |es| && es[i].Enqueue? ==> !es[i].boosted
  }

  /** The clock does not go back from one dequeue to a later one. */
  predicate Monotone(es: seq<Event>) {
    forall i, j :: 0 <= i < j < |es| && es[i].Dequeue? && es[j].Dequeue? ==> es[i].at <= es[j].at
  }

  /** The entry, if it is still queued, is the only one with its number. */
  predicate Only(q: Queue, e: Entry) {
    e.order < q.nextOrder && forall i :: 0 <= i < |q.entries| && q.entries[i].order == e.order ==> q.entries[i] == e
  }

  // ---- aging ----

  lemma Divides(a: real, b: real, t: real)
    requires a <= b && t > 0.0
    ensures a / t <= b / t
  {
    assert b / t - a / t == (b - a) / t;
  }

  /** An entry that is not boosted only moves deeper as time passes. */
  lemma AgesOnly(p: Policy, e: Entry, now: real, later: real)
    requires PolicyOk(p) && !e.boosted && now <= later
    ensures EffectiveDepth(p, e, now) <= EffectiveDepth(p, e, later)
  {
    var a := if now > e.enqueuedAt then now - e.enqueuedAt else 0.0;
    var b := if later > e.enqueuedAt then later - e.enqueuedAt else 0.0;
    Divides(a, b, p.agingThreshold);
  }

  predicate AtDepth(p: Policy, es: seq<Event>, e: Entry, d: nat)
    requires PolicyOk(p)
  {
    forall i :: 0 <= i < |es| && es[i].Dequeue? ==> EffectiveDepth(p, e, es[i].at) == d
  }

  predicate AtLeast(p: Policy, es: seq<Event>, e: Entry, d: nat)
    requires PolicyOk(p)
  {
    forall i :: 0 <= i < |es| && es[i].Dequeue? ==> EffectiveDepth(p, e, es[i].at) >= d
  }

  /** The first dequeue at which the entry has aged beyond a depth. */
  function FirstDeeper(p: Policy, es: seq<Event>, e: Entry, d: nat): (i: nat)
    requires PolicyOk(p)
    ensures i <= |es|
    ensures forall k :: 0 <= k < i && es[k].Dequeue? ==> EffectiveDepth(p, e, es[k].at) <= d
    ensures i < |es| ==> es[i].Dequeue? && EffectiveDepth(p, e, es[i].at) > d
  {
    if |es| == 0 then 0
    else if es[0].Dequeue? && EffectiveDepth(p, e, es[0].at) > d then 0
    else 1 + FirstDeeper(p, es[1..], e, d)
  }

  lemma SplitAtDepth(p: Policy, es: seq<Event>, e: Entry, d: nat) returns (i: nat)
    requires PolicyOk(p) && !e.boosted && Monotone(es) && AtLeast(p, es, e, d)
    ensures i <= |es| && AtDepth(p, es[..i], e, d) && AtLeast(p, es[i..], e, d + 1)
  {
    i := FirstDeeper(p, es, e, d);
    var later := es[i..];
    forall k | 0 <= k < |later| && later[k].Dequeue? ensures EffectiveDepth(p, e, later[k].at) >= d + 1 {
      assert later[k] == es[i + k];
      AgesOnly(p, e, es[i].at, later[k].at);
    }
  }

  // ---- runs in two parts ----

  lemma {:induction false} RunInTwo(p: Policy, q: Queue, a: seq<Event>, b: seq<Event>)
    requires PolicyOk(p)
    ensures Run(p, q, a + b) == Run(p, Run(p, q, a), b) && Dequeues(a + b) == Dequeues(a) + Dequeues(b)
    decreases |a|
  {
    if |a| == 0 {
      assert a + b == b;
    } else {
      assert (a + b)[1..] == a[1..] + b;
      RunInTwo(p, Step(p, q, a[0]), a[1..], b);
    }
  }

  lemma StepOlder(p: Policy, q: Queue, e: Event, order: nat)
    requires QueueOk(p, q) && order < q.nextOrder
    ensures Older(Step(p, q, e).entries, order) <= Older(q.entries, order)
  {
    if e.Dequeue? {
      var chosen := Chosen(p, q, e.at);
      if chosen.Some? {
        OlderWithout(q.entries, chosen.value.1, order);
      }
    } else {
      OlderStep(p, q, e, order);
    }
  }

  lemma StepPlain(p: Policy, q: Queue, ev: Event, e: Entry)
    requires QueueOk(p, q) && NoBoosts(q.entries) && Only(q, e) && (ev.Enqueue? ==> !ev.boosted)
    ensures NoBoosts(Step(p, q, ev).entries) && Only(Step(p, q, ev), e)
  {
    var u := Step(p, q, ev);
    forall i | 0 <= i < |u.entries|
      ensures !u.entries[i].boosted && (u.entries[i].order == e.order ==> u.entries[i] == e) {
      if u.entries[i] in q.entries {
        var k :| 0 <= k < |q.entries| && q.entries[k] == u.entries[i];
      }
    }
  }

  lemma {:induction false} RunPlain(p: Policy, q: Queue, es: seq<Event>, e: Entry)
    requires QueueOk(p, q) && NoBoosts(q.entries) && Only(q, e) && PlainEvents(es)
    ensures var u := Run(p, q, es);
            QueueOk(p, u) && NoBoosts(u.entries) && Only(u, e) && Older(u.entries, e.order) <= Older(q.entries, e.order)
    decreases |es|
  {
    if |es| > 0 {
      RemovalKeeps(p, q, es[0]);
      StepPlain(p, q, es[0], e);
      StepOlder(p, q, es[0], e.order);
      RestPlain(es);
      RunPlain(p, Step(p, q, es[0]), es[1..], e);
    }
  }

  lemma RestPlain(es: seq<Event>)
    requires |es| > 0 && PlainEvents(es)
    ensures PlainEvents(es[1..])
  {
    forall i | 0 <= i < |es[1..]| && es[1..][i].Enqueue? ensures !es[1..][i].boosted {
      assert es[1..][i] == es[i + 1];
    }
  }

  /** While the entry does not age, nothing else is needed for it to be steady. */
  lemma {:induction false} SteadyAtDepth(p: Policy, q: Queue, es: seq<Event>, e: Entry, d: nat)
    requires QueueOk(p, q) && NoBoosts(q.entries) && Only(q, e) && PlainEvents(es) && AtDepth(p, es, e, d)
    ensures Steady(p, q, es, e.order, d)
    decreases |es|
  {
    if |es| > 0 {
      RemovalKeeps(p, q, es[0]);
      StepPlain(p, q, es[0], e);
      RestPlain(es);
      forall i | 0 <= i < |es[1..]| && es[1..][i].Dequeue? ensures EffectiveDepth(p, e, es[1..][i].at) == d {
        assert es[1..][i] == es[i + 1];
      }
      SteadyAtDepth(p, Step(p, q, es[0]), es[1..], e, d);
    }
  }

  // ---- the bound ----

  lemma EnoughSlots(p: Policy, d: nat, k: nat)
    requires PolicyOk(p) && 1 <= d <= MAX_DEPTH
    ensures (k + 1) * Weight(p, d) > k
  {
    assert Weight(p, d) >= 1;
  }

  /**
   * From a depth on, the entry needs at most as many full turns at each deeper one as there are older entries, and one
   * more.
   */
  lemma {:induction false} GoneFrom(p: Policy, q: Queue, es: seq<Event>, e: Entry, d: nat, k: nat, turns: nat)
    requires QueueOk(p, q) && NoBoosts(q.entries) && Only(q, e) && PlainEvents(es) && Monotone(es) && !e.boosted
    requires 1 <= d <= MAX_DEPTH && AtLeast(p, es, e, d) && Older(q.entries, e.order) <= k
    requires turns == (k + 1) * |Schedule(p)| && Dequeues(es) >= (MAX_DEPTH + 1 - d) * turns
    ensures !Present(Run(p, q, es), e.order)
    decreases MAX_DEPTH - d
  {
    var i := SplitAtDepth(p, es, e, d);
    var now, later := es[..i], es[i..];
    assert es == now + later;
    RunInTwo(p, q, now, later);
    PartsPlain(es, i);
    RunPlain(p, q, now, e);
    if Dequeues(now) >= turns {
      SteadyAtDepth(p, q, now, e, d);
      EnoughSlots(p, d, k);
      NoStarvation(p, q, now, e.order, d, k + 1);
      AbsentStays(p, Run(p, q, now), later, e.order);
    } else if d < MAX_DEPTH {
      GoneFrom(p, Run(p, q, now), later, e, d + 1, k, turns);
    } else {
      NoneDeeper(p, later, e);
    }
  }

  lemma PartsPlain(es: seq<Event>, i: nat)
    requires i <= |es| && PlainEvents(es) && Monotone(es)
    ensures PlainEvents(es[..i]) && PlainEvents(es[i..]) && Monotone(es[i..])
  {
    forall k | 0 <= k < |es[i..]| && es[i..][k].Enqueue? ensures !es[i..][k].boosted {
      assert es[i..][k] == es[i + k];
    }
    forall j, k | 0 <= j < k < |es[i..]| && es[i..][j].Dequeue? && es[i..][k].Dequeue?
      ensures es[i..][j].at <= es[i..][k].at {
      assert es[i..][j] == es[i + j] && es[i..][k] == es[i + k];
    }
  }

  /** No dequeue finds an entry beyond the deepest depth. */
  lemma {:induction false} NoneDeeper(p: Policy, es: seq<Event>, e: Entry)
    requires PolicyOk(p) && AtLeast(p, es, e, MAX_DEPTH + 1)
    ensures Dequeues(es) == 0
    decreases |es|
  {
    if |es| > 0 {
      assert !es[0].Dequeue?;
      forall i | 0 <= i < |es[1..]| && es[1..][i].Dequeue?
        ensures EffectiveDepth(p, e, es[1..][i].at) >= MAX_DEPTH + 1 {
        assert es[1..][i] == es[i + 1];
      }
      NoneDeeper(p, es[1..], e);
    }
  }

  /**
   * Nobody waits for ever: where nothing is boosted and the clock does not go back, an entry with `k` older ones is
   * gone after three times `k + 1` full turns of the schedule, whatever arrives, leaves or ages meanwhile.
   */
  lemma NobodyWaitsForEver(p: Policy, q: Queue, es: seq<Event>, i: nat, k: nat)
    requires QueueOk(p, q) && NoBoosts(q.entries) && PlainEvents(es) && Monotone(es)
    requires i < |q.entries| && Older(q.entries, q.entries[i].order) <= k
    requires Dequeues(es) >= MAX_DEPTH * ((k + 1) * |Schedule(p)|)
    ensures !Present(Run(p, q, es), q.entries[i].order)
  {
    var e := q.entries[i];
    assert Only(q, e);
    assert AtLeast(p, es, e, 1);
    GoneFrom(p, q, es, e, 1, k, (k + 1) * |Schedule(p)|);
  }
}
