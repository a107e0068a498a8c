/** The controller and its leases as objects. */
module AdmissionControl {
  import opened Basics
  import opened Admission

  /** A right to run one request; closing it twice gives back only one place. */
  class AdmissionLease {
    const controller: AdmissionController
    var released: bool

    constructor (controller: AdmissionController)
      ensures this.controller == controller && !released
    {
      this.controller, released := controller, false;
    }

    method Close()
      requires controller.Valid() && (!released ==> this in controller.open)
      modifies this, controller`active, controller`open
      ensures controller.Valid() && released
      ensures controller.open == old(controller.open) - {this}
      ensures controller.active == if old(released) then old(controller.active) else old(controller.active) - 1
    {
      if released {
        return;
      }
      released := true;
      controller.active := controller.active - 1;
      controller.open := controller.open - {this};
    }
  }

  class AdmissionController {
    const policy: Policy
    var requestTimestamps: seq<real>
    var tokenReservations: seq<Reservation>
    var active: nat
    ghost var open: set<AdmissionLease>
    ghost var history: seq<Reservation>
    ghost var dropped: nat

    constructor (policy: Policy)
      requires PolicyOk(policy)
      ensures this.policy == policy && Value() == NO_ADMISSIONS && open == {} && Valid()
    {
      this.policy := policy;
      requestTimestamps, tokenReservations, active, open, history, dropped := [], [], 0, {}, [], 0;
    }

    ghost function Value(): State
      reads this
    {
      State(history, dropped, active)
    }

    /** Both lists remember the same admissions, and every active request is one open lease. */
    ghost predicate Valid()
      reads this, open
    {
      && dropped <= |history|
      && tokenReservations == history[dropped..]
      && |requestTimestamps| == |tokenReservations|
      && (forall i :: 0 <= i < |requestTimestamps| ==> requestTimestamps[i] == tokenReservations[i].time)
      && active == |open|
      && (forall lease :: lease in open ==> !lease.released && lease.controller == this)
    }

    /** Shifts the times that have left the window off the front. */
    method ShiftTimestamps(now: real) returns (ghost k: nat)
      modifies this`requestTimestamps
      ensures k <= |old(requestTimestamps)| && requestTimestamps == old(requestTimestamps)[k..]
      ensures forall i :: 0 <= i < k ==> old(requestTimestamps)[i] <= now - WINDOW
      ensures |requestTimestamps| > 0 ==> requestTimestamps[0] > now - WINDOW
    {
      k := 0;
      while |requestTimestamps| > 0 && requestTimestamps[0] <= now - WINDOW
        invariant k <= |old(requestTimestamps)| && requestTimestamps == old(requestTimestamps)[k..]
        invariant forall i :: 0 <= i < k ==> old(requestTimestamps)[i] <= now - WINDOW
        decreases |requestTimestamps|
      {
        requestTimestamps := requestTimestamps[1..];
        k := k + 1;
      }
    }

    method ShiftReservations(now: real) returns (ghost k: nat)
      modifies this`tokenReservations
      ensures k <= |old(tokenReservations)| && tokenReservations == old(tokenReservations)[k..]
      ensures forall i :: 0 <= i < k ==> old(tokenReservations)[i].time <= now - WINDOW
      ensures |tokenReservations| > 0 ==> tokenReservations[0].time > now - WINDOW
    {
      k := 0;
      while |tokenReservations| > 0 && tokenReservations[0].time <= now - WINDOW
        invariant k <= |old(tokenReservations)| && tokenReservations == old(tokenReservations)[k..]
        invariant forall i :: 0 <= i < k ==> old(tokenReservations)[i].time <= now - WINDOW
        decreases |tokenReservations|
      {
        tokenReservations := tokenReservations[1..];
        k := k + 1;
      }
    }

    method PruneExpired(now: real)
      requires Valid()
      modifies this`requestTimestamps, this`tokenReservations, this`dropped
      ensures Valid() && Value() == Pruned(old(Value()), now)
    {
      ghost var requests := ShiftTimestamps(now);
      ghost var reservations := ShiftReservations(now);
      assert requests == reservations;
      dropped := dropped + reservations;
      FirstInsideUnique(history, old(dropped), now, dropped);
    }

    method ReservedTokens() returns (sum: nat)
      ensures sum == Tokens(tokenReservations)
    {
      sum := 0;
      for i := 0 to |tokenReservations|
        invariant sum == Tokens(tokenReservations[..i])
      {
        assert tokenReservations[..i + 1][..i] == tokenReservations[..i];
        sum := sum + tokenReservations[i].tokens;
      }
      assert tokenReservations[..|tokenReservations|] == tokenReservations;
    }

    /** Why the request cannot be admitted now, and when the rate that denies it may allow it. */
    method Judge(r: Request) returns (reasons: seq<Reason>, retryAt: Option<real>)
      requires Valid()
      ensures reasons == Reasons(policy, Value(), r) && retryAt == RetryAt(policy, Value(), r)
    {
      reasons, retryAt := [], None;
      if r.cost > r.budget {
        reasons := reasons + [BudgetExceeded];
      }
      if active as real >= policy.maxConcurrent {
        reasons := reasons + [ConcurrencyExhausted];
      }
      if |requestTimestamps| as real >= policy.requestsPerMinute {
        reasons := reasons + [RequestRate];
        if |requestTimestamps| > 0 {
          retryAt := Some(Earliest(retryAt, requestTimestamps[0] + WINDOW));
        }
      }
      var reserved := ReservedTokens();
      if r.tokens as real > policy.tokensPerMinute {
        reasons := reasons + [RequestTooLarge];
      } else if (reserved + r.tokens) as real > policy.tokensPerMinute {
        reasons := reasons + [TokenRate];
        if |tokenReservations| > 0 {
          retryAt := Some(Earliest(retryAt, tokenReservations[0].time + WINDOW));
        }
      }
    }

    function Earliest(current: Option<real>, candidate: real): real {
      if current.None? then candidate else if current.value < candidate then current.value else candidate
    }

    method TryAcquire(r: Request, now: real) returns (decision: Decision, lease: Option<AdmissionLease>)
      requires Valid()
      modifies this
      ensures Valid()
      ensures Value() == AfterTry(policy, old(Value()), r, now).0
              && decision == AfterTry(policy, old(Value()), r, now).1
      ensures decision.Admitted? <==> lease.Some?
      ensures lease.Some? ==> fresh(lease.value) && open == old(open) + {lease.value}
      ensures lease.None? ==> open == old(open)
    {
      PruneExpired(now);
      var reasons, retryAt := Judge(r);
      if |reasons| > 0 {
        return Denied(reasons, BudgetExceeded !in reasons && RequestTooLarge !in reasons, retryAt), None;
      }
      var l := Admit(r, now);
      return Admitted, Some(l);
    }

    /** Records a request and hands out the lease on its place. */
    method Admit(r: Request, now: real) returns (l: AdmissionLease)
      requires Valid()
      modifies this
      ensures Valid() && fresh(l) && open == old(open) + {l}
      ensures Value() == State(old(history) + [Reservation(now, r.tokens)], old(dropped), old(active) + 1)
    {
      active := active + 1;
      requestTimestamps := requestTimestamps + [now];
      tokenReservations := tokenReservations + [Reservation(now, r.tokens)];
      history := history + [Reservation(now, r.tokens)];
      l := new AdmissionLease(this);
      open := open + {l};
    }
  }
}
