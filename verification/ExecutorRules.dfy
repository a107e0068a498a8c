/** What the executor keeps: effects start once and never overlap in a workspace. */
module ExecutorRules {
  import opened Basics
  import opened Executor

  lemma EmptyInv(places: Places)
    ensures Inv(places, EMPTY_STATE)
  {
  }

  lemma StartsAppended(started: seq<string>, id: string, other: string)
    ensures Starts(started + [id], other) == Starts(started, other) + if id == other then 1 else 0
  {
    assert (started + [id])[..|started|] == started;
  }

  // ---- changing one record ----

  /** The record of one operation changes, and nothing else but its scheduler handle. */
  predicate Rewrites(s: State, u: State, id: string) {
    && id in s.ops && id in u.ops
    && u == s.(ops := s.ops[id := u.ops[id]], open := u.open)
    && u.ops[id].agent == s.ops[id].agent && u.ops[id].effectful == s.ops[id].effectful
    && (forall other :: other in u.open && other != id ==> other in s.open)
  }

  lemma RewriteKeeps(places: Places, s: State, u: State, id: string)
    requires Inv(places, s) && Rewrites(s, u, id) && StartOk(u, id)
    requires forall i :: 0 <= i < |s.tickets| && s.tickets[i].id == id ==> TicketOk(places, u, s.tickets[i])
    requires u.ops[id].state.Running? ==> s.ops[id].state.Running?
    ensures Inv(places, u)
  {
    forall i | 0 <= i < |u.tickets| ensures TicketOk(places, u, u.tickets[i]) {
      assert TicketOk(places, s, s.tickets[i]);
    }
    forall other | other in u.ops ensures StartOk(u, other) {
      assert other == id || StartOk(s, other);
    }
  }

  // ---- changing one launch ----

  /** One launch moves on; it leaves the waiting stage only when the launch before it is completely over. */
  predicate Moves(tickets: seq<Ticket>, i: nat, t: Ticket) {
    && i < |tickets|
    && var was := tickets[i];
       && t.id == was.id && t.workspace == was.workspace && t.previous == was.previous
       && t.op.effectful == was.op.effectful
       && (was.stage.Ended? ==> t.stage.Ended?)
       && (Free(was) ==> Free(t))
       && (!was.stage.Waiting? ==> !t.stage.Waiting?)
       && (was.stage.Waiting? && !t.stage.Waiting? && t.previous.Some? ==>
             t.previous.value < |tickets| && Free(tickets[t.previous.value]))
  }

  lemma MoveKeepsLink(tickets: seq<Ticket>, i: nat, t: Ticket, j: nat)
    requires j < |tickets| && LinkOk(tickets, j) && Moves(tickets, i, t)
    ensures LinkOk(tickets[i := t], j)
  {
    var after := tickets[i := t];
    forall k | 0 <= k < j && SameLine(after[k], after[j])
      ensures after[j].previous.Some? && k <= after[j].previous.value
    {
      assert SameLine(tickets[k], tickets[j]);
    }
  }

  /** Whoever may begin has the whole line before it over. */
  lemma LineFree(tickets: seq<Ticket>, a: nat, b: nat)
    requires a < b < |tickets| && LineOk(tickets) && LinkOk(tickets, b) && SameLine(tickets[a], tickets[b])
    requires tickets[b].previous.Some? ==>
               tickets[b].previous.value < |tickets| && Free(tickets[tickets[b].previous.value])
    ensures Free(tickets[a])
  {
    var previous := tickets[b].previous.value;
    assert a == previous || SameLine(tickets[a], tickets[previous]);
  }

  lemma MoveKeepsLine(tickets: seq<Ticket>, i: nat, t: Ticket)
    requires LinksOk(tickets) && LineOk(tickets) && Moves(tickets, i, t)
    ensures LineOk(tickets[i := t])
  {
    var after := tickets[i := t];
    forall a, b | 0 <= a < b < |after| && SameLine(after[a], after[b]) && !after[b].stage.Waiting?
      ensures Free(after[a]) {
      assert SameLine(tickets[a], tickets[b]);
      if tickets[b].stage.Waiting? {
        LineFree(tickets, a, b);
      }
      assert Free(tickets[a]);
    }
  }

  lemma MoveKeeps(tickets: seq<Ticket>, tails: map<string, nat>, i: nat, t: Ticket)
    requires LaunchesOk(tickets, tails) && Moves(tickets, i, t)
    ensures LaunchesOk(tickets[i := t], tails)
  {
    MoveKeepsLine(tickets, i, t);
    var after := tickets[i := t];
    forall j | 0 <= j < |after| && after[j].op.effectful ensures LinkOk(after, j) {
      MoveKeepsLink(tickets, i, t, j);
    }
  }

  // ---- launching ----

  lemma LaunchedLink(tickets: seq<Ticket>, t: Ticket, j: nat)
    requires j < |tickets| && LinkOk(tickets, j)
    ensures LinkOk(tickets + [t], j)
  {
    var after := tickets + [t];
    forall k | 0 <= k < j && SameLine(after[k], after[j])
      ensures after[j].previous.Some? && k <= after[j].previous.value {
      assert SameLine(tickets[k], tickets[j]);
    }
  }

  lemma LaunchKeepsLine(tickets: seq<Ticket>, tails: map<string, nat>, t: Ticket)
    requires LaunchesOk(tickets, tails) && t.stage.Waiting?
    requires t.previous == if t.op.effectful && t.workspace in tails then Some(tails[t.workspace]) else None
    requires forall i :: 0 <= i < |tickets| && tickets[i].id == t.id ==> tickets[i].stage.Ended?
    ensures LaunchesOk(tickets + [t], if t.op.effectful then tails[t.workspace := |tickets|] else tails)
  {
    var after := tickets + [t];
    forall j | 0 <= j < |after| && after[j].op.effectful ensures LinkOk(after, j) {
      if j < |tickets| {
        LaunchedLink(tickets, t, j);
      }
    }
  }

  lemma LaunchKeeps(places: Places, s: State, id: string)
    requires Inv(places, s) && id in s.ops && (s.ops[id].state.Registered? || s.ops[id].state.Running?)
    ensures Inv(places, Launch(places, s, id))
  {
    var u := Launch(places, s, id);
    if u != s {
      LaunchKeepsLine(s.tickets, s.tails, u.tickets[|s.tickets|]);
      assert StartOk(s, id);
      assert s.ops[id].state.Registered?;
      forall i | 0 <= i < |u.tickets| ensures TicketOk(places, u, u.tickets[i]) {
        if i < |s.tickets| {
          assert TicketOk(places, s, s.tickets[i]);
        }
      }
      forall other | other in u.ops ensures StartOk(u, other) {
        assert StartOk(s, other);
      }
      forall other | other in u.ops && u.ops[other].state.Running?
        ensures Executes(u.tickets, other)
      {
        var i :| 0 <= i < |s.tickets| && s.tickets[i].id == other && s.tickets[i].stage.Executing?;
        assert u.tickets[i] == s.tickets[i];
      }
    }
  }

  // ---- records ----

  /** An operation that has not begun expires; a launch still waiting for it can no longer start it. */
  lemma ExpireKeeps(places: Places, s: State, id: string)
    requires Inv(places, s) && id in s.ops
    ensures Inv(places, Expire(s, id, s.ops[id]))
  {
    var op := s.ops[id];
    if op.state.Registered? || op.state.Approval? {
      FinishKeeps(places, s, id, Failed);
    }
  }

  /** Finishing an operation that has not begun, or whose tool is not at work any more. */
  lemma FinishKeeps(places: Places, s: State, id: string, state: OpState)
    requires Inv(places, s) && id in s.ops && (state.Succeeded? || state.Failed?)
    requires AtWork(s, id) ==> s.ops[id].state.Registered? || s.ops[id].state.Approval?
    ensures Inv(places, Finish(s, id, s.ops[id], state))
  {
    var u := Finish(s, id, s.ops[id], state);
    assert StartOk(s, id);
    forall i | 0 <= i < |s.tickets| && s.tickets[i].id == id ensures TicketOk(places, u, s.tickets[i]) {
      assert TicketOk(places, s, s.tickets[i]);
      assert Busy(s.tickets[i]) ==> AtWork(s, id);
    }
    RewriteKeeps(places, s, u, id);
  }


  lemma RecordKeeps(places: Places, s: State, id: string, op: Operation)
    requires Inv(places, s) && id !in s.ops && !op.state.Running?
    ensures Inv(places, Put(s, id, op))
  {
    var u := Put(s, id, op);
    forall i | 0 <= i < |u.tickets| ensures TicketOk(places, u, u.tickets[i]) {
      assert TicketOk(places, s, s.tickets[i]);
    }
    forall other | other in u.ops ensures StartOk(u, other) {
      assert other == id || StartOk(s, other);
    }
  }

  lemma WaitResolvedKeeps(places: Places, s: State, id: string)
    requires Inv(places, s) && id in s.ops && id !in s.open
    ensures Inv(places, WaitResolved(s, id))
  {
    var op := s.ops[id];
    if op.state.Running? {
      var u := WaitResolved(s, id);
      assert StartOk(s, id);
      forall i | 0 <= i < |s.tickets| && s.tickets[i].id == id ensures TicketOk(places, u, s.tickets[i]) {
        assert TicketOk(places, s, s.tickets[i]);
      }
      RewriteKeeps(places, s, u, id);
    } else {
      ExpireKeeps(places, s, id);
    }
  }

  lemma ApprovedKeeps(places: Places, s: State, id: string, allowed: bool, active: bool)
    requires Inv(places, s) && id in s.ops
    ensures Inv(places, Approved(places, s, id, allowed, active))
  {
    var op := s.ops[id];
    if op.state.Approval? {
      if !Open(s, id, op) {
        ExpireKeeps(places, s, id);
      } else if active && !allowed {
        FinishKeeps(places, s, id, Failed);
      } else if active {
        var u := Put(s, id, op.(state := Registered));
        assert StartOk(s, id);
        forall i | 0 <= i < |s.tickets| && s.tickets[i].id == id ensures TicketOk(places, u, s.tickets[i]) {
          assert TicketOk(places, s, s.tickets[i]);
        }
        RewriteKeeps(places, s, u, id);
        LaunchKeeps(places, u, id);
      }
    }
  }

  lemma ReconciledKeeps(places: Places, s: State, id: string, ok: bool)
    requires Inv(places, s) && id in s.ops
    ensures Inv(places, Reconciled(s, id, ok))
  {
    if s.ops[id].state.Unknown? && !AtWork(s, id) {
      FinishKeeps(places, s, id, if ok then Succeeded else Failed);
    }
  }

  lemma ReplayedKeeps(places: Places, s: State, id: string)
    requires Inv(places, s) && id in s.ops
    ensures Inv(places, Replayed(places, s, id))
  {
    var op := s.ops[id].(scheduled := true);
    var u := if s.ops[id].scheduled then s else Put(s.(open := s.open + {id}), id, op);
    if !s.ops[id].scheduled {
      assert StartOk(s, id);
      forall i | 0 <= i < |s.tickets| && s.tickets[i].id == id ensures TicketOk(places, u, s.tickets[i]) {
        assert TicketOk(places, s, s.tickets[i]);
      }
      Scheduled(places, s, u, id);
    }
    if op.state.Registered? || op.state.Running? {
      LaunchKeeps(places, u, id);
    } else {
      DeadlineKeeps(places, u, id);
    }
  }

  lemma Scheduled(places: Places, s: State, u: State, id: string)
    requires Inv(places, s) && id in s.ops && u == Put(s.(open := s.open + {id}), id, s.ops[id].(scheduled := true))
    requires forall i :: 0 <= i < |s.tickets| && s.tickets[i].id == id ==> TicketOk(places, u, s.tickets[i])
    ensures Inv(places, u)
  {
    assert StartOk(s, id);
    RewriteKeeps(places, s, u, id);
  }

  lemma DeadlineKeeps(places: Places, s: State, id: string)
    requires Inv(places, s)
    ensures Inv(places, s.(open := s.open - {id}))
  {
    var u := s.(open := s.open - {id});
    forall i | 0 <= i < |u.tickets| ensures TicketOk(places, u, u.tickets[i]) {
      assert TicketOk(places, s, s.tickets[i]);
    }
    forall other | other in u.ops ensures StartOk(u, other) {
      assert StartOk(s, other);
    }
  }

  // ---- beginning ----

  /** A launch ends before its tool is called; its record may be failed on the way. */
  lemma EndsUnstarted(places: Places, s: State, i: nat, u: State)
    requires Inv(places, s) && Ready(s, i)
    requires u == s.(ops := u.ops, open := u.open, tickets := s.tickets[i := s.tickets[i].(stage := Ended)])
    requires var id := s.tickets[i].id;
             (u.ops == s.ops && u.open == s.open) ||
             (id in u.ops && u.ops == s.ops[id := u.ops[id]] && u.ops[id].state.Failed?
              && u.ops[id].agent == s.tickets[i].op.agent && u.ops[id].effectful == s.tickets[i].op.effectful
              && u.open <= s.open)
    ensures Inv(places, u)
  {
    var t := s.tickets[i];
    assert TicketOk(places, s, t);
    MoveKeeps(s.tickets, s.tails, i, t.(stage := Ended));
    forall j | 0 <= j < |u.tickets| ensures TicketOk(places, u, u.tickets[j]) {
      OthersIdle(places, s, i, j);
    }
    forall other | other in u.ops ensures StartOk(u, other) {
      assert StartOk(s, other);
    }
    forall other | other in u.ops && u.ops[other].state.Running? ensures Executes(u.tickets, other) {
      var k :| 0 <= k < |s.tickets| && s.tickets[k].id == other && s.tickets[k].stage.Executing?;
      assert u.tickets[k] == s.tickets[k];
    }
  }

  /** While one launch of an operation waits, no other launch of it waits or works. */
  lemma OthersIdle(places: Places, s: State, i: nat, j: nat)
    requires Inv(places, s) && i < |s.tickets| && j < |s.tickets| && s.tickets[i].stage.Waiting?
    ensures TicketOk(places, s, s.tickets[j])
    ensures i != j && s.tickets[i].id == s.tickets[j].id ==>
              s.tickets[j].stage.Ended? && (s.tickets[j].op.effectful ==> !s.tickets[j].working)
  {
    assert TicketOk(places, s, s.tickets[i]) && TicketOk(places, s, s.tickets[j]);
  }

  lemma StartsKeeps(places: Places, s: State, i: nat)
    requires Inv(places, s) && Ready(s, i) && Open(s, s.tickets[i].id, s.tickets[i].op)
    ensures var t := s.tickets[i];
            Inv(places, Put(s, t.id, t.op.(state := Running)).(
              tickets := s.tickets[i := t.(op := t.op.(state := Running), stage := Executing, working := true)],
              started := s.started + [t.id]))
  {
    var t := s.tickets[i];
    var t' := t.(op := t.op.(state := Running), stage := Executing, working := true);
    var u := Put(s, t.id, t.op.(state := Running)).(tickets := s.tickets[i := t'], started := s.started + [t.id]);
    assert TicketOk(places, s, t);
    MoveKeeps(s.tickets, s.tails, i, t');
    forall j | 0 <= j < |u.tickets| ensures TicketOk(places, u, u.tickets[j]) {
      OthersIdle(places, s, i, j);
      StartsAppended(s.started, t.id, s.tickets[j].id);
    }
    forall other | other in u.ops ensures StartOk(u, other) {
      assert StartOk(s, other);
      StartsAppended(s.started, t.id, other);
    }
    forall other: string | other !in u.ops ensures Starts(u.started, other) == 0 {
      StartsAppended(s.started, t.id, other);
    }
    forall other | other in u.ops && u.ops[other].state.Running? ensures Executes(u.tickets, other) {
      if other == t.id {
        assert u.tickets[i].stage.Executing?;
      } else {
        var k :| 0 <= k < |s.tickets| && s.tickets[k].id == other && s.tickets[k].stage.Executing?;
        assert u.tickets[k] == s.tickets[k];
      }
    }
  }

  predicate Starting(places: Places, s: State, i: nat, active: bool, allowed: bool)
    requires i < |s.tickets|
  {
    var t := s.tickets[i];
    && Open(s, t.id, t.op) && active && allowed
    && !(t.op.effectful && HasUnknown(places, Put(s, t.id, t.op.(state := Running)), t.workspace))
  }

  lemma BegunEnds(places: Places, s: State, i: nat, active: bool, allowed: bool)
    requires Inv(places, s) && Ready(s, i) && !Starting(places, s, i, active, allowed)
    ensures Inv(places, Begun(places, s, i, active, allowed))
  {
    assert TicketOk(places, s, s.tickets[i]);
    EndsUnstarted(places, s, i, Begun(places, s, i, active, allowed));
  }

  lemma BeginKeeps(places: Places, s: State, i: nat, active: bool, allowed: bool)
    requires Inv(places, s) && Ready(s, i)
    ensures Inv(places, Begun(places, s, i, active, allowed))
  {
    if Starting(places, s, i, active, allowed) {
      StartsKeeps(places, s, i);
    } else {
      BegunEnds(places, s, i, active, allowed);
    }
  }

  // ---- ending ----

  lemma WorkEndsKeeps(places: Places, s: State, i: nat)
    requires Inv(places, s) && i < |s.tickets|
    ensures Inv(places, s.(tickets := s.tickets[i := s.tickets[i].(working := false)]))
  {
    var t := s.tickets[i].(working := false);
    var u := s.(tickets := s.tickets[i := t]);
    MoveKeeps(s.tickets, s.tails, i, t);
    forall j | 0 <= j < |u.tickets| ensures TicketOk(places, u, u.tickets[j]) {
      assert TicketOk(places, s, s.tickets[j]);
    }
    forall other | other in u.ops ensures StartOk(u, other) {
      assert StartOk(s, other);
    }
    forall other | other in u.ops && u.ops[other].state.Running? ensures Executes(u.tickets, other) {
      var k :| 0 <= k < |s.tickets| && s.tickets[k].id == other && s.tickets[k].stage.Executing?;
      assert u.tickets[k].id == other && u.tickets[k].stage.Executing?;
    }
  }

  /** No other launch of an operation works or waits while one executes. */
  lemma OthersEnded(places: Places, s: State, i: nat, j: nat)
    requires Inv(places, s) && i < |s.tickets| && j < |s.tickets| && s.tickets[i].stage.Executing?
    ensures TicketOk(places, s, s.tickets[j])
    ensures i != j && s.tickets[i].id == s.tickets[j].id ==> s.tickets[j].stage.Ended?
  {
    assert TicketOk(places, s, s.tickets[i]) && TicketOk(places, s, s.tickets[j]);
  }

  /** Two launches of one effect never work at the same time: the later one would have waited for the earlier. */
  lemma OtherAtRest(places: Places, s: State, i: nat, j: nat)
    requires Inv(places, s) && i < |s.tickets| && j < |s.tickets| && i != j
    requires s.tickets[i].id == s.tickets[j].id && s.tickets[i].stage.Executing? && s.tickets[i].op.effectful
    ensures !s.tickets[j].working
  {
    assert TicketOk(places, s, s.tickets[i]) && TicketOk(places, s, s.tickets[j]);
    assert SameLine(s.tickets[i], s.tickets[j]) && SameLine(s.tickets[j], s.tickets[i]);
    OthersEnded(places, s, i, j);
  }

  /** A launch ends with its record closed, or unknown if the tool may still be at work. */
  lemma EndsStarted(places: Places, s: State, i: nat, u: State)
    requires Inv(places, s) && i < |s.tickets| && s.tickets[i].stage.Executing?
    requires u == s.(ops := u.ops, open := u.open, tickets := s.tickets[i := s.tickets[i].(stage := Ended)])
    requires var t := s.tickets[i];
             && t.id in u.ops && u.ops == s.ops[t.id := u.ops[t.id]] && u.open <= s.open
             && u.ops[t.id].agent == t.op.agent && u.ops[t.id].effectful == t.op.effectful
             && (u.ops[t.id].state.Unknown? ||
                 ((u.ops[t.id].state.Succeeded? || u.ops[t.id].state.Failed?) && (t.op.effectful ==> !t.working)))
    ensures Inv(places, u)
  {
    var t := s.tickets[i];
    assert TicketOk(places, s, t);
    MoveKeeps(s.tickets, s.tails, i, t.(stage := Ended));
    forall j | 0 <= j < |u.tickets| ensures TicketOk(places, u, u.tickets[j]) {
      OthersEnded(places, s, i, j);
      if j != i && s.tickets[j].id == t.id && t.op.effectful {
        OtherAtRest(places, s, i, j);
      }
    }
    forall other | other in u.ops ensures StartOk(u, other) {
      assert StartOk(s, other);
    }
    forall other | other in u.ops && u.ops[other].state.Running? ensures Executes(u.tickets, other) {
      var k :| 0 <= k < |s.tickets| && s.tickets[k].id == other && s.tickets[k].stage.Executing?;
      assert u.tickets[k] == s.tickets[k];
    }
  }

  lemma SettleKeeps(places: Places, s: State, i: nat, aborted: bool, how: How)
    requires Inv(places, s) && i < |s.tickets| && s.tickets[i].stage.Executing? && (aborted || !s.tickets[i].working)
    ensures Inv(places, Settled(s, i, aborted, how))
  {
    EndsStarted(places, s, i, Settled(s, i, aborted, how));
  }

  // ---- restarting ----

  lemma RestoredKeeps(places: Places, s: State)
    requires StartsOk(s)
    ensures Inv(places, Restored(s))
  {
    var u := Restored(s);
    forall id | id in u.ops ensures StartOk(u, id) {
      assert StartOk(s, id);
    }
  }

  lemma MarkedStarts(places: Places, s: State, i: nat)
    requires Inv(places, s) && Ready(s, i)
    ensures StartsOk(Put(s, s.tickets[i].id, s.tickets[i].op.(state := Running)))
  {
    var t := s.tickets[i];
    var u := Put(s, t.id, t.op.(state := Running));
    assert TicketOk(places, s, t);
    forall id | id in u.ops ensures StartOk(u, id) {
      assert StartOk(s, id);
    }
  }

  // ---- runs ----

  lemma TornKeeps(places: Places, s: State, i: nat)
    requires Inv(places, s)
    ensures Inv(places, Step(places, s, CrashAfterMark(i)))
  {
    RestoredKeeps(places, s);
    if Ready(s, i) {
      MarkedStarts(places, s, i);
      RestoredKeeps(places, Put(s, s.tickets[i].id, s.tickets[i].op.(state := Running)));
    }
  }

  lemma StepKeeps(places: Places, s: State, e: Event)
    requires Inv(places, s)
    ensures Inv(places, Step(places, s, e))
  {
    match e
    case Record(id, op) =>
      if Step(places, s, e) != s {
        RecordKeeps(places, s, id, op);
      }
    case Replay(id, call) => if id in s.ops { ReplayedKeeps(places, s, id); }
    case Approve(id, allowed, active) => if id in s.ops { ApprovedKeeps(places, s, id, allowed, active); }
    case Reconcile(id, ok) => if id in s.ops { ReconciledKeeps(places, s, id, ok); }
    case Resume(id) => if id in s.ops && s.ops[id].state.Registered? { LaunchKeeps(places, s, id); }
    case Expiry(id) => if id in s.ops { ExpireKeeps(places, s, id); }
    case Begin(i, active, allowed) => if Ready(s, i) { BeginKeeps(places, s, i, active, allowed); }
    case WorkEnds(i) => if i < |s.tickets| { WorkEndsKeeps(places, s, i); }
    case Settle(i, aborted, how) =>
      if i < |s.tickets| && s.tickets[i].stage.Executing? && (aborted || !s.tickets[i].working) {
        SettleKeeps(places, s, i, aborted, how);
      }
    case Deadline(id) => DeadlineKeeps(places, s, id);
    case ResolveWait(id) => if id in s.ops && id !in s.open { WaitResolvedKeeps(places, s, id); }
    case Stop => StopKeeps(places, s);
    case Crash => RestoredKeeps(places, s);
    case CrashAfterMark(i) => TornKeeps(places, s, i);
  }

  lemma StopKeeps(places: Places, s: State)
    requires Inv(places, s)
    ensures Inv(places, s.(stopping := true))
  {
    var u := s.(stopping := true);
    forall i | 0 <= i < |u.tickets| ensures TicketOk(places, u, u.tickets[i]) {
      assert TicketOk(places, s, s.tickets[i]);
    }
    forall id | id in u.ops ensures StartOk(u, id) {
      assert StartOk(s, id);
    }
  }

  lemma {:induction false} RunKeeps(places: Places, s: State, es: seq<Event>)
    requires Inv(places, s)
    ensures Inv(places, Run(places, s, es))
    decreases |es|
  {
    if |es| > 0 {
      StepKeeps(places, s, es[0]);
      RunKeeps(places, Step(places, s, es[0]), es[1..]);
    }
  }

  /** Over any run with replays, approvals, timeouts, crashes and restarts, an effect starts at most once. */
  lemma StartsAtMostOnce(places: Places, es: seq<Event>, id: string)
    ensures var s := Run(places, EMPTY_STATE, es);
            id in s.ops && s.ops[id].effectful ==> Starts(s.started, id) <= 1
  {
    EmptyInv(places);
    RunKeeps(places, EMPTY_STATE, es);
    var s := Run(places, EMPTY_STATE, es);
    if id in s.ops {
      assert StartOk(s, id);
    }
  }

  /** Two tools with effects are never at work in one workspace, even when the host gave up waiting for the first. */
  lemma NeverOverlap(places: Places, es: seq<Event>, i: nat, j: nat)
    ensures var s := Run(places, EMPTY_STATE, es);
            i < j < |s.tickets| && SameLine(s.tickets[i], s.tickets[j]) ==> !(Busy(s.tickets[i]) && Busy(s.tickets[j]))
  {
    EmptyInv(places);
    RunKeeps(places, EMPTY_STATE, es);
    var s := Run(places, EMPTY_STATE, es);
    if i < j < |s.tickets| && SameLine(s.tickets[i], s.tickets[j]) {
      assert TicketOk(places, s, s.tickets[j]);
    }
  }

  /**
   * When a step starts a tool with effects, its operation was registered and still open, nothing of its workspace
   * is at work, and nothing there is waiting for reconciliation.
   */
  lemma StartsClean(places: Places, es: seq<Event>, i: nat, active: bool, allowed: bool)
    ensures var s := Run(places, EMPTY_STATE, es);
            var u := Step(places, s, Begin(i, active, allowed));
            |u.started| > |s.started| && s.tickets[i].op.effectful ==>
              var t := s.tickets[i];
              && u.started == s.started + [t.id]
              && t.id in s.ops && s.ops[t.id].state.Registered? && t.id in s.open
              && (forall id :: id in u.ops && u.ops[id].effectful && places(u.ops[id].agent) == t.workspace ==>
                    !u.ops[id].state.Unknown?)
              && (forall k :: 0 <= k < |s.tickets| && k != i && SameLine(s.tickets[k], t) ==> !Busy(s.tickets[k]))
  {
    EmptyInv(places);
    RunKeeps(places, EMPTY_STATE, es);
    var s := Run(places, EMPTY_STATE, es);
    var u := Step(places, s, Begin(i, active, allowed));
    if |u.started| > |s.started| && s.tickets[i].op.effectful {
      CleanStart(places, s, i, active, allowed);
    }
  }

  lemma CleanStart(places: Places, s: State, i: nat, active: bool, allowed: bool)
    requires Inv(places, s) && Ready(s, i) && s.tickets[i].op.effectful
    requires |Begun(places, s, i, active, allowed).started| > |s.started|
    ensures var t := s.tickets[i];
            var u := Begun(places, s, i, active, allowed);
            && u.started == s.started + [t.id]
            && t.id in s.ops && s.ops[t.id].state.Registered? && t.id in s.open
            && (forall id :: id in u.ops && u.ops[id].effectful && places(u.ops[id].agent) == t.workspace ==>
                  !u.ops[id].state.Unknown?)
            && (forall k :: 0 <= k < |s.tickets| && k != i && SameLine(s.tickets[k], t) ==> !Busy(s.tickets[k]))
  {
    var t := s.tickets[i];
    var u := Begun(places, s, i, active, allowed);
    assert TicketOk(places, s, t);
    var marked := Put(s, t.id, t.op.(state := Running));
    assert !HasUnknown(places, marked, t.workspace);
    assert u.ops == marked.ops;
    forall k | 0 <= k < |s.tickets| && k != i && SameLine(s.tickets[k], t) ensures !Busy(s.tickets[k]) {
      assert TicketOk(places, s, s.tickets[k]);
      if k < i {
        LineFree(s.tickets, k, i);
      } else {
        assert SameLine(s.tickets[i], s.tickets[k]);
      }
    }
  }
}
