/** Sliding-window admission, and leases on concurrent requests. */
module Admission {
  import opened Basics

  const WINDOW := 60000.0

  datatype Policy = Policy(maxConcurrent: real, requestsPerMinute: real, tokensPerMinute: real)

  datatype Reservation = Reservation(time: real, tokens: nat)

  datatype Reason = BudgetExceeded | ConcurrencyExhausted | RequestRate | RequestTooLarge | TokenRate

  /** All admissions so far; the first `dropped` ones have left the window that is still remembered. */
  datatype State = State(history: seq<Reservation>, dropped: nat, active: nat)

  datatype Request = Request(tokens: nat, cost: real, budget: real)

  const NO_ADMISSIONS := State([], 0, 0)

  predicate PolicyOk(p: Policy) {
    p.maxConcurrent > 0.0 && p.requestsPerMinute > 0.0 && p.tokensPerMinute > 0.0
  }

  function Tokens(rs: seq<Reservation>): nat {
    if |rs| == 0 then 0 else Tokens(rs[..|rs| - 1]) + rs[|rs| - 1].tokens
  }

  /** The first admission from `k` on that is still inside the window. */
  function FirstInside(history: seq<Reservation>, k: nat, now: real): (j: nat)
    requires k <= |history|
    ensures k <= j <= |history|
    ensures j < |history| ==> history[j].time > now - WINDOW
    ensures forall i :: k <= i < j ==> history[i].time <= now - WINDOW
    decreases |history| - k
  {
    if k < |history| && history[k].time <= now - WINDOW then FirstInside(history, k + 1, now) else k
  }

  function Remembered(s: State): seq<Reservation> {
    if s.dropped <= |s.history| then s.history[s.dropped..] else []
  }

  function Pruned(s: State, now: real): State {
    if s.dropped <= |s.history| then s.(dropped := FirstInside(s.history, s.dropped, now)) else s
  }

  predicate OverRate(p: Policy, s: State) {
    |Remembered(s)| as real >= p.requestsPerMinute
  }

  predicate OverTokens(p: Policy, s: State, r: Request) {
    r.tokens as real <= p.tokensPerMinute && (Tokens(Remembered(s)) + r.tokens) as real > p.tokensPerMinute
  }

  function Reasons(p: Policy, s: State, r: Request): seq<Reason> {
    (if r.cost > r.budget then [BudgetExceeded] else [])
    + (if s.active as real >= p.maxConcurrent then [ConcurrencyExhausted] else [])
    + (if OverRate(p, s) then [RequestRate] else [])
    + (if r.tokens as real > p.tokensPerMinute then [RequestTooLarge]
       else if OverTokens(p, s, r) then [TokenRate] else [])
  }

  /** When the oldest remembered admission leaves the window, if a rate is what denies the request. */
  function RetryAt(p: Policy, s: State, r: Request): Option<real> {
    if (OverRate(p, s) || OverTokens(p, s, r)) && |Remembered(s)| > 0 then Some(Remembered(s)[0].time + WINDOW)
      else None
  }

  datatype Decision = Admitted | Denied(reasons: seq<Reason>, retryable: bool, retryAt: Option<real>)

  function AfterTry(p: Policy, s: State, r: Request, now: real): (State, Decision) {
    var u := Pruned(s, now);
    var reasons := Reasons(p, u, r);
    if |reasons| > 0 then
      (u, Denied(reasons, BudgetExceeded !in reasons && RequestTooLarge !in reasons, RetryAt(p, u, r)))
    else
      (State(u.history + [Reservation(now, r.tokens)], u.dropped, u.active + 1), Admitted)
  }

  // ---- the invariant ----

  predicate Sorted(history: seq<Reservation>) {
    forall i, j :: 0 <= i < j < |history| ==> history[i].time <= history[j].time
  }

  /** At its admission, an entry and all before it inside the window kept to the limits. */
  predicate WithinLimits(p: Policy, history: seq<Reservation>, j: nat)
    requires j < |history|
  {
    var k := FirstInside(history[..j], 0, history[j].time);
    (j - k) as real < p.requestsPerMinute && Tokens(history[k..j + 1]) as real <= p.tokensPerMinute
  }

  predicate HistoryOk(p: Policy, history: seq<Reservation>) {
    Sorted(history) && forall j :: 0 <= j < |history| ==> WithinLimits(p, history, j)
  }

  /** No admission is later than the clock, and what was dropped is out of the window for good. */
  /** The first `n` were admitted by then. */
  predicate AllBy(history: seq<Reservation>, n: nat, time: real)
    requires n <= |history|
  {
    forall i :: 0 <= i < n ==> history[i].time <= time
  }

  predicate StateOk(p: Policy, s: State, now: real) {
    && HistoryOk(p, s.history)
    && s.dropped <= |s.history|
    && AllBy(s.history, |s.history|, now)
    && AllBy(s.history, s.dropped, now - WINDOW)
    && (s.active as real < p.maxConcurrent + 1.0)
  }

  lemma {:induction false} TokensConcat(a: seq<Reservation>, b: seq<Reservation>)
    ensures Tokens(a + b) == Tokens(a) + Tokens(b)
    decreases |b|
  {
    if |b| == 0 {
      assert a + b == a;
    } else {
      assert (a + b)[..|a| + |b| - 1] == a + b[..|b| - 1];
      TokensConcat(a, b[..|b| - 1]);
    }
  }

  lemma {:induction false} FirstInsideUnique(history: seq<Reservation>, k: nat, now: real, j: nat)
    requires k <= j <= |history|
    requires j < |history| ==> history[j].time > now - WINDOW
    requires forall i :: k <= i < j ==> history[i].time <= now - WINDOW
    ensures FirstInside(history, k, now) == j
    decreases |history| - k
  {
    if k < j {
      FirstInsideUnique(history, k + 1, now, j);
    }
  }

  lemma WithinAppended(p: Policy, history: seq<Reservation>, r: Reservation, j: nat)
    requires j < |history| && WithinLimits(p, history, j)
    ensures WithinLimits(p, history + [r], j)
  {
    var more := history + [r];
    assert more[..j] == history[..j];
    var k := FirstInside(history[..j], 0, history[j].time);
    assert more[k..j + 1] == history[k..j + 1];
  }

  /** An admitted entry keeps to the limits in its own window. */
  lemma AdmittedWithin(p: Policy, s: State, r: Request, now: real)
    requires s.dropped <= |s.history| && Reasons(p, s, r) == []
    requires s.dropped == FirstInside(s.history, 0, now)
    ensures WithinLimits(p, s.history + [Reservation(now, r.tokens)], |s.history|)
  {
    var entry := Reservation(now, r.tokens);
    var more := s.history + [entry];
    assert more[..|s.history|] == s.history;
    assert more[s.dropped..|s.history| + 1] == Remembered(s) + [entry];
    TokensConcat(Remembered(s), [entry]);
    assert [entry][..0] == [];
  }

  lemma PrunedKeeps(p: Policy, s: State, before: real, now: real)
    requires StateOk(p, s, before) && before <= now
    ensures StateOk(p, Pruned(s, now), now)
    ensures Pruned(s, now).dropped == FirstInside(s.history, 0, now)
  {
    FirstInsideUnique(s.history, 0, now, FirstInside(s.history, s.dropped, now));
  }

  lemma TryKeeps(p: Policy, s: State, r: Request, before: real, now: real)
    requires StateOk(p, s, before) && before <= now
    ensures StateOk(p, AfterTry(p, s, r, now).0, now)
  {
    PrunedKeeps(p, s, before, now);
    var u := Pruned(s, now);
    if Reasons(p, u, r) == [] {
      var entry := Reservation(now, r.tokens);
      var more := u.history + [entry];
      AdmittedWithin(p, u, r, now);
      forall j | 0 <= j < |more| ensures WithinLimits(p, more, j) {
        if j < |u.history| {
          WithinAppended(p, u.history, entry, j);
        }
      }
    }
  }

  // ---- runs ----

  datatype Event = Try(request: Request, at: real) | Release(at: real)

  function Step(p: Policy, s: State, e: Event): State {
    match e
    case Try(request, at) => AfterTry(p, s, request, at).0
    case Release(_) => if s.active > 0 then s.(active := s.active - 1) else s
  }

  function Run(p: Policy, s: State, es: seq<Event>): State
    decreases |es|
  {
    if |es| == 0 then s else Run(p, Step(p, s, es[0]), es[1..])
  }

  /** The clock does not go back. */
  predicate Monotone(from: real, es: seq<Event>)
    decreases |es|
  {
    |es| == 0 || (from <= es[0].at && Monotone(es[0].at, es[1..]))
  }

  function Clock(from: real, es: seq<Event>): real {
    if |es| == 0 then from else es[|es| - 1].at
  }

  lemma ReleaseKeeps(p: Policy, s: State, before: real, now: real)
    requires StateOk(p, s, before) && before <= now
    ensures StateOk(p, Step(p, s, Release(now)), now)
  {
  }

  lemma StepKeeps(p: Policy, s: State, e: Event, from: real)
    requires StateOk(p, s, from) && from <= e.at
    ensures StateOk(p, Step(p, s, e), e.at)
  {
    match e
    case Try(request, at) => TryKeeps(p, s, request, from, at);
    case Release(at) => ReleaseKeeps(p, s, from, at);
  }

  lemma {:induction false} RunKeeps(p: Policy, s: State, es: seq<Event>, from: real)
    requires StateOk(p, s, from) && Monotone(from, es)
    ensures StateOk(p, Run(p, s, es), Clock(from, es))
    decreases |es|
  {
    if |es| > 0 {
      StepKeeps(p, s, es[0], from);
      RunKeeps(p, Step(p, s, es[0]), es[1..], es[0].at);
      ClockGoesOn(from, es);
    }
  }

  lemma ClockGoesOn(from: real, es: seq<Event>)
    requires |es| > 0
    ensures Clock(es[0].at, es[1..]) == Clock(from, es)
  {
  }

  lemma StartOk(p: Policy, from: real)
    requires PolicyOk(p)
    ensures StateOk(p, NO_ADMISSIONS, from)
  {
  }

  /**
   * Over any run with a clock that does not go back, any admissions that lie within sixty seconds of each other
   * are at most as many as the limit allows, rounded up, and their tokens together stay within the token limit.
   */
  lemma WindowHolds(p: Policy, from: real, es: seq<Event>, a: nat, b: nat)
    requires PolicyOk(p) && Monotone(from, es)
    requires a <= b < |Run(p, NO_ADMISSIONS, es).history|
    requires Run(p, NO_ADMISSIONS, es).history[b].time - Run(p, NO_ADMISSIONS, es).history[a].time < WINDOW
    ensures var history := Run(p, NO_ADMISSIONS, es).history;
            && (b - a + 1) as real < p.requestsPerMinute + 1.0
            && Tokens(history[a..b + 1]) as real <= p.tokensPerMinute
  {
    StartOk(p, from);
    RunKeeps(p, NO_ADMISSIONS, es, from);
    SpanWithin(p, Run(p, NO_ADMISSIONS, es).history, a, b);
  }

  /** What lies inside the window is not before its first entry. */
  lemma InsideFrom(history: seq<Reservation>, now: real, a: nat)
    requires a < |history| ==> history[a].time > now - WINDOW
    ensures a <= |history| ==> FirstInside(history, 0, now) <= a
  {
  }

  lemma SpanWithin(p: Policy, history: seq<Reservation>, a: nat, b: nat)
    requires HistoryOk(p, history) && a <= b < |history| && history[b].time - history[a].time < WINDOW
    ensures (b - a + 1) as real < p.requestsPerMinute + 1.0
    ensures Tokens(history[a..b + 1]) as real <= p.tokensPerMinute
  {
    assert WithinLimits(p, history, b);
    var k := FirstInside(history[..b], 0, history[b].time);
    InsideFrom(history[..b], history[b].time, a);
    assert history[k..b + 1] == history[k..a] + history[a..b + 1];
    TokensConcat(history[k..a], history[a..b + 1]);
  }

  // ---- retrying ----

  /** A rate denial names a time that lies ahead. */
  lemma RetryAhead(p: Policy, s: State, r: Request, now: real)
    requires s.dropped <= |s.history| && AfterTry(p, s, r, now).1.Denied?
    ensures AfterTry(p, s, r, now).1.retryAt.Some? ==> AfterTry(p, s, r, now).1.retryAt.value > now
  {
  }

  /** Until then nothing remembered now is forgotten, whatever else is tried or released. */
  lemma {:induction false} StillRemembered(p: Policy, s: State, es: seq<Event>, until: real)
    requires s.dropped < |s.history| && s.history[s.dropped].time + WINDOW > until
    requires forall i :: 0 <= i < |es| ==> es[i].at <= until
    ensures var u := Run(p, s, es); u.dropped == s.dropped && s.history <= u.history
    decreases |es|
  {
    if |es| > 0 {
      StillRemembered(p, Step(p, s, es[0]), es[1..], until);
    }
  }

  /**
   * A request denied for its rate stays denied at every instant before the time named, even if other requests
   * come and go in between.
   */
  lemma {:induction false} DeniedUntilRetry(p: Policy, s: State, r: Request, now: real, es: seq<Event>, at: real)
    requires s.dropped <= |s.history| && AfterTry(p, s, r, now).1.Denied? && AfterTry(p, s, r, now).1.retryAt.Some?
    requires at < AfterTry(p, s, r, now).1.retryAt.value && forall i :: 0 <= i < |es| ==> es[i].at <= at
    ensures AfterTry(p, Run(p, AfterTry(p, s, r, now).0, es), r, at).1.Denied?
  {
    var u := AfterTry(p, s, r, now).0;
    StillRemembered(p, u, es, at);
    var later := Run(p, u, es);
    assert later.history[later.dropped] == u.history[u.dropped];
    assert Pruned(later, at) == later;
    MoreRemembered(p, u, later, r);
  }

  /** With more remembered, what was over a limit is over it still. */
  lemma MoreRemembered(p: Policy, s: State, later: State, r: Request)
    requires s.dropped <= |s.history| && s.history <= later.history && later.dropped == s.dropped
    ensures OverRate(p, s) ==> OverRate(p, later)
    ensures OverTokens(p, s, r) ==> OverTokens(p, later, r)
  {
    var more := later.history[|s.history|..];
    assert Remembered(later) == Remembered(s) + more;
    TokensConcat(Remembered(s), more);
  }
}
