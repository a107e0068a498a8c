/** The executor object: its maps and queues change in place, each step proved its transition. */
module ToolExecutor {
  import opened Basics
  import opened Executor
  import opened ExecutorRules

  class Tools {
    const places: Places
    var ops: map<string, Operation>
    var open: set<string>
    var tickets: seq<Ticket>
    var tails: map<string, nat>
    var stopping: bool
    ghost var started: seq<string>

    constructor (places: Places)
      ensures this.places == places && Value() == EMPTY_STATE && Valid()
    {
      this.places := places;
      ops, open, tickets, tails, stopping, started := map[], {}, [], map[], false, [];
      new;
      EmptyInv(places);
    }

    ghost function Value(): State
      reads this
    {
      State(ops, open, tickets, tails, stopping, started)
    }

    ghost predicate Valid()
      reads this
    {
      Inv(places, Value())
    }

    method PutOperation(id: string, op: Operation)
      modifies this`ops
      ensures Value() == Put(old(Value()), id, op)
    {
      ops := ops[id := op];
    }

    /** Completes the scheduler operation, if the record names one. */
    method DeliverResult(id: string, op: Operation)
      modifies this`open
      ensures Value() == Deliver(old(Value()), id, op)
    {
      if op.scheduled {
        open := open - {id};
      }
    }

    method FinishWith(id: string, op: Operation, state: OpState)
      modifies this`ops, this`open
      ensures Value() == Finish(old(Value()), id, op, state)
    {
      PutOperation(id, op.(state := state));
      DeliverResult(id, op);
    }

    method ExpireOperation(id: string, op: Operation)
      modifies this`ops, this`open
      ensures Value() == Expire(old(Value()), id, op)
    {
      if op.state.Registered? || op.state.Approval? {
        FinishWith(id, op, Failed);
      }
    }

    /** Queues a launch behind the last effect of its workspace. */
    method LaunchOperation(id: string)
      requires id in ops
      modifies this`tickets, this`tails
      ensures Value() == Launch(places, old(Value()), id)
    {
      for i := 0 to |tickets|
        invariant Value() == old(Value())
        invariant forall k :: 0 <= k < i ==> !(tickets[k].id == id && !tickets[k].stage.Ended?)
      {
        if tickets[i].id == id && !tickets[i].stage.Ended? {
          return;
        }
      }
      if stopping {
        return;
      }
      var op := ops[id];
      var workspace := places(op.agent);
      var previous := None;
      if op.effectful {
        if workspace in tails {
          previous := Some(tails[workspace]);
        }
        tails := tails[workspace := |tickets|];
      }
      tickets := tickets + [Ticket(id, op, workspace, previous, Waiting, false)];
    }

    /** Records a call under its stable identity before anything else happens, then carries on as a replay does. */
    method Stage(id: string, op: Operation) returns (ok: bool)
      requires Valid() && !op.scheduled && (op.state.Registered? || op.state.Approval? || op.state.Failed?)
      modifies this
      ensures Valid()
      ensures ok == (id !in old(ops) || old(ops)[id].call == op.call)
      ensures Value() == Step(places, Step(places, old(Value()), Record(id, op)), Replay(id, op.call))
    {
      StepKeeps(places, Value(), Record(id, op));
      StepKeeps(places, Step(places, Value(), Record(id, op)), Replay(id, op.call));
      if id !in ops {
        PutOperation(id, op);
      }
      if ops[id].call != op.call {
        return false;
      }
      if !ops[id].scheduled {
        open := open + {id};
        PutOperation(id, ops[id].(scheduled := true));
      }
      var state := ops[id].state;
      if state.Registered? || state.Running? {
        LaunchOperation(id);
      } else if !state.Approval? {
        DeliverResult(id, ops[id]);
      }
      return true;
    }

    method Approve(id: string, allowed: bool, active: bool)
      requires Valid()
      modifies this
      ensures Valid() && Value() == Step(places, old(Value()), Event.Approve(id, allowed, active))
    {
      StepKeeps(places, Value(), Event.Approve(id, allowed, active));
      if id !in ops || !ops[id].state.Approval? {
        return;
      }
      var op := ops[id];
      if !op.scheduled || id !in open {
        ExpireOperation(id, op);
      } else if active && !allowed {
        FinishWith(id, op, Failed);
      } else if active {
        PutOperation(id, op.(state := Registered));
        LaunchOperation(id);
      }
    }

    /** A host may settle an unknown outcome only after the tool has really stopped. */
    method Reconcile(id: string, ok: bool)
      requires Valid()
      modifies this
      ensures Valid() && Value() == Step(places, old(Value()), Event.Reconcile(id, ok))
    {
      StepKeeps(places, Value(), Event.Reconcile(id, ok));
      if id !in ops || !ops[id].state.Unknown? {
        return;
      }
      for i := 0 to |tickets|
        invariant Value() == old(Value())
        invariant forall k :: 0 <= k < i ==> !(tickets[k].id == id && Busy(tickets[k]))
      {
        if tickets[i].id == id && Busy(tickets[i]) {
          return;
        }
      }
      FinishWith(id, ops[id], if ok then Succeeded else Failed);
    }

    /** The launch's turn has come: last checks, the durable mark, and then the tool. */
    method Execute(i: nat, active: bool, allowed: bool)
      requires Valid() && Ready(Value(), i)
      modifies this
      ensures Valid() && Value() == Step(places, old(Value()), Begin(i, active, allowed))
    {
      StepKeeps(places, Value(), Begin(i, active, allowed));
      var t := tickets[i];
      if !t.op.scheduled || t.id !in open {
        ExpireOperation(t.id, t.op);
        tickets := tickets[i := t.(stage := Ended)];
        return;
      }
      if !active {
        tickets := tickets[i := t.(stage := Ended)];
        return;
      }
      if !allowed {
        FinishWith(t.id, t.op, Failed);
        tickets := tickets[i := t.(stage := Ended)];
        return;
      }
      PutOperation(t.id, t.op.(state := Running));
      var unknown := FindUnknown(t.workspace);
      if t.op.effectful && unknown {
        FinishWith(t.id, t.op, Failed);
        tickets := tickets[i := t.(stage := Ended)];
        return;
      }
      tickets := tickets[i := t.(op := t.op.(state := Running), stage := Executing, working := true)];
      started := started + [t.id];
    }

    method FindUnknown(workspace: string) returns (found: bool)
      ensures found == HasUnknown(places, Value(), workspace)
    {
      var rest := ops.Keys;
      while rest != {}
        invariant rest <= ops.Keys
        invariant forall id :: id in ops && id !in rest ==>
                    !(ops[id].state.Unknown? && ops[id].effectful && places(ops[id].agent) == workspace)
        decreases |rest|
      {
        var id :| id in rest;
        if ops[id].state.Unknown? && ops[id].effectful && places(ops[id].agent) == workspace {
          return true;
        }
        rest := rest - {id};
      }
      return false;
    }

    method Settle(i: nat, aborted: bool, how: How)
      requires Valid() && i < |tickets| && tickets[i].stage.Executing? && (aborted || !tickets[i].working)
      modifies this
      ensures Valid() && Value() == Step(places, old(Value()), Event.Settle(i, aborted, how))
    {
      StepKeeps(places, Value(), Event.Settle(i, aborted, how));
      var t := tickets[i];
      var state: OpState;
      if how.Resolved? {
        state := if aborted && t.op.effectful then Unknown else Succeeded;
      } else {
        var precondition := !aborted && how.Refused?;
        state := if !t.op.effectful || precondition then Failed else Unknown;
      }
      FinishWith(t.id, t.op, state);
      tickets := tickets[i := t.(stage := Ended)];
    }

    method ResolveWait(id: string)
      requires Valid() && id in ops && id !in open
      modifies this
      ensures Valid() && Value() == Step(places, old(Value()), Event.ResolveWait(id))
    {
      StepKeeps(places, Value(), Event.ResolveWait(id));
      var op := ops[id];
      if op.state.Running? {
        PutOperation(id, op.(state := if op.effectful then Unknown else Failed));
      } else {
        ExpireOperation(id, op);
      }
    }

    /** Walks over the records and isolates those that a crash caught running. */
    method IsolateRunning()
      modifies this`ops
      ensures ops == Restored(old(Value())).ops
    {
      ghost var before := ops;
      var rest := ops.Keys;
      while rest != {}
        invariant rest <= ops.Keys && ops.Keys == before.Keys
        invariant forall id :: id in rest ==> ops[id] == before[id]
        invariant forall id :: id in ops && id !in rest ==>
                    ops[id] == if before[id].state.Running? then
                                 before[id].(state := if before[id].effectful then Unknown else Registered)
                               else before[id]
        decreases |rest|
      {
        var id :| id in rest;
        if ops[id].state.Running? {
          ops := ops[id := ops[id].(state := if ops[id].effectful then Unknown else Registered)];
        }
        rest := rest - {id};
      }
    }

    /** A new process on the old store: whatever was running is isolated before anything is launched. */
    method IsolateRestored()
      requires Valid()
      modifies this
      ensures Valid() && Value() == Step(places, old(Value()), Crash)
    {
      StepKeeps(places, Value(), Crash);
      IsolateRunning();
      tickets, tails, stopping := [], map[], false;
    }
  }
}
