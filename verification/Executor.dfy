/** The tool executor: recorded operations, one line of side effects per workspace, restarts. */
module Executor {
  // Each transition is one stretch of code between two awaits; writes to the store are durable at once.

  import opened Basics

  datatype OpState = Approval | Registered | Running | Succeeded | Failed | Unknown

  /** A recorded operation; `scheduled` says that the scheduler's handle is recorded with it. */
  datatype Operation = Operation(agent: nat, effectful: bool, call: string, state: OpState, scheduled: bool)

  datatype Stage = Waiting | Executing | Ended

  /**
   * One launch in this process: its own copy of the operation, the launch it has to wait for, whether the host
   * still awaits it, and whether the tool itself is still at work.
   */
  datatype Ticket = Ticket(
    id: string, op: Operation, workspace: string, previous: Option<nat>, stage: Stage, working: bool)

  /** `open` are the scheduler operations neither completed nor past their deadline; `started` logs every tool start. */
  datatype State = State(
    ops: map<string, Operation>,
    open: set<string>,
    tickets: seq<Ticket>,
    tails: map<string, nat>,
    stopping: bool,
    started: seq<string>)

  const EMPTY_STATE := State(map[], {}, [], map[], false, [])

  /** Where the agents' workspaces are. */
  type Places = nat -> string

  // ---- building blocks ----

  function Put(s: State, id: string, op: Operation): State {
    s.(ops := s.ops[id := op])
  }

  function Deliver(s: State, id: string, op: Operation): State {
    if op.scheduled then s.(open := s.open - {id}) else s
  }

  function Finish(s: State, id: string, op: Operation, state: OpState): State {
    Deliver(Put(s, id, op.(state := state)), id, op)
  }

  function Expire(s: State, id: string, op: Operation): State {
    if op.state.Registered? || op.state.Approval? then Finish(s, id, op, Failed) else s
  }

  predicate Open(s: State, id: string, op: Operation) {
    op.scheduled && id in s.open
  }

  predicate Launched(s: State, id: string) {
    exists i :: 0 <= i < |s.tickets| && s.tickets[i].id == id && !s.tickets[i].stage.Ended?
  }

  function Launch(places: Places, s: State, id: string): State
    requires id in s.ops
  {
    var op := s.ops[id];
    if s.stopping || Launched(s, id) then s
    else
      var workspace := places(op.agent);
      var previous := if op.effectful && workspace in s.tails then Some(s.tails[workspace]) else None;
      s.(tickets := s.tickets + [Ticket(id, op, workspace, previous, Waiting, false)],
         tails := if op.effectful then s.tails[workspace := |s.tickets|] else s.tails)
  }

  predicate HasUnknown(places: Places, s: State, workspace: string) {
    exists id :: id in s.ops && s.ops[id].state.Unknown? && s.ops[id].effectful && places(s.ops[id].agent) == workspace
  }

  /** The awaited line is free: the previous launch is over and so is its tool. */
  predicate Free(t: Ticket) {
    t.stage.Ended? && !t.working
  }

  predicate Ready(s: State, i: nat) {
    && i < |s.tickets| && s.tickets[i].stage.Waiting? && !s.stopping
    && (s.tickets[i].previous.Some? ==>
          s.tickets[i].previous.value < |s.tickets| && Free(s.tickets[s.tickets[i].previous.value]))
  }

  function Ending(s: State, i: nat): State
    requires i < |s.tickets|
  {
    s.(tickets := s.tickets[i := s.tickets[i].(stage := Ended)])
  }

  // ---- transitions ----

  /** Runs a launched operation up to the tool call; it is marked running before the tool can start. */
  function Begun(places: Places, s: State, i: nat, active: bool, allowed: bool): State
    requires i < |s.tickets|
  {
    var t := s.tickets[i];
    if !Open(s, t.id, t.op) then Ending(Expire(s, t.id, t.op), i)
    else if !active then Ending(s, i)
    else if !allowed then Ending(Finish(s, t.id, t.op, Failed), i)
    else
      var marked := Put(s, t.id, t.op.(state := Running));
      if t.op.effectful && HasUnknown(places, marked, t.workspace) then Ending(Finish(marked, t.id, t.op, Failed), i)
      else
        marked.(tickets := s.tickets[i := t.(op := t.op.(state := Running), stage := Executing, working := true)],
                started := s.started + [t.id])
  }

  datatype How = Resolved | Refused | Thrown

  /**
   * How an awaited tool call is recorded: only an answer before any abort, or a refusal before any effect, is certain.
   */
  function Recorded(effectful: bool, aborted: bool, how: How): OpState {
    if how.Resolved? then (if aborted && effectful then Unknown else Succeeded)
    else if !effectful || (how.Refused? && !aborted) then Failed
    else Unknown
  }

  function Settled(s: State, i: nat, aborted: bool, how: How): State
    requires i < |s.tickets|
  {
    var t := s.tickets[i];
    Ending(Finish(s, t.id, t.op, Recorded(t.op.effectful, aborted, how)), i)
  }

  /** A timed-out or cancelled wait: what runs with effects becomes unknown, what has not begun expires. */
  function WaitResolved(s: State, id: string): State
    requires id in s.ops
  {
    var op := s.ops[id];
    if op.state.Running? then Put(s, id, op.(state := if op.effectful then Unknown else Failed)) else Expire(s, id, op)
  }

  function Approved(places: Places, s: State, id: string, allowed: bool, active: bool): State
    requires id in s.ops
  {
    var op := s.ops[id];
    if !op.state.Approval? then s
    else if !Open(s, id, op) then Expire(s, id, op)
    else if !active then s
    else if !allowed then Finish(s, id, op, Failed)
    else Launch(places, Put(s, id, op.(state := Registered)), id)
  }

  predicate Busy(t: Ticket) {
    t.stage.Executing? || t.working
  }

  predicate AtWork(s: State, id: string) {
    exists i :: 0 <= i < |s.tickets| && s.tickets[i].id == id && Busy(s.tickets[i])
  }

  function Reconciled(s: State, id: string, ok: bool): State
    requires id in s.ops
  {
    var op := s.ops[id];
    if !op.state.Unknown? || AtWork(s, id) then s else Finish(s, id, op, if ok then Succeeded else Failed)
  }

  /** Connects a recorded operation to the scheduler and carries on from its recorded state. */
  function Replayed(places: Places, s: State, id: string): State
    requires id in s.ops
  {
    var op := s.ops[id].(scheduled := true);
    var u := if s.ops[id].scheduled then s else Put(s.(open := s.open + {id}), id, op);
    match op.state
    case Registered => Launch(places, u, id)
    case Running => Launch(places, u, id)
    case Approval => u
    case _ => Deliver(u, id, op)
  }

  /** After a crash the tools are gone: an effect that was running is unknown, a read may run again. */
  function Restored(s: State): State {
    State(
      map id | id in s.ops ::
        if s.ops[id].state.Running? then s.ops[id].(state := if s.ops[id].effectful then Unknown else Registered)
          else s.ops[id],
      s.open, [], map[], false, s.started)
  }

  datatype Event =
    | Record(id: string, op: Operation)
    | Replay(id: string, call: string)
    | Approve(id: string, allowed: bool, active: bool)
    | Reconcile(id: string, ok: bool)
    | Resume(id: string)
    | Expiry(id: string)
    | Begin(ticket: nat, active: bool, allowed: bool)
    | WorkEnds(ticket: nat)
    | Settle(ticket: nat, aborted: bool, how: How)
    | Deadline(id: string)
    | ResolveWait(id: string)
    | Stop
    | Crash
    | CrashAfterMark(ticket: nat)

  function Step(places: Places, s: State, e: Event): State {
    match e
    case Record(id, op) =>
      if id in s.ops || op.scheduled || !(op.state.Registered? || op.state.Approval? || op.state.Failed?) then s
      else Put(s, id, op)
    case Replay(id, call) => if id in s.ops && s.ops[id].call == call then Replayed(places, s, id) else s
    case Approve(id, allowed, active) => if id in s.ops then Approved(places, s, id, allowed, active) else s
    case Reconcile(id, ok) => if id in s.ops then Reconciled(s, id, ok) else s
    case Resume(id) => if id in s.ops && s.ops[id].state.Registered? then Launch(places, s, id) else s
    case Expiry(id) => if id in s.ops then Expire(s, id, s.ops[id]) else s
    case Begin(i, active, allowed) => if Ready(s, i) then Begun(places, s, i, active, allowed) else s
    case WorkEnds(i) => if i < |s.tickets| then s.(tickets := s.tickets[i := s.tickets[i].(working := false)]) else s
    case Settle(i, aborted, how) =>
      if i < |s.tickets| && s.tickets[i].stage.Executing?
        && (aborted || !s.tickets[i].working) then Settled(s, i, aborted, how)
      else s
    case Deadline(id) => s.(open := s.open - {id})
    case ResolveWait(id) => if id in s.ops && id !in s.open then WaitResolved(s, id) else s
    case Stop => s.(stopping := true)
    case Crash => Restored(s)
    case CrashAfterMark(i) =>
      if Ready(s, i) && Open(s, s.tickets[i].id, s.tickets[i].op) then
        Restored(Put(s, s.tickets[i].id, s.tickets[i].op.(state := Running)))
      else Restored(s)
  }

  function Run(places: Places, s: State, es: seq<Event>): State
    decreases |es|
  {
    if |es| == 0 then s else Run(places, Step(places, s, es[0]), es[1..])
  }

  // ---- the invariant ----

  predicate SameLine(a: Ticket, b: Ticket) {
    a.op.effectful && b.op.effectful && a.workspace == b.workspace
  }

  /** Each launch of an effect waits for the launch before it in its workspace. */
  predicate LinkOk(tickets: seq<Ticket>, j: nat)
    requires j < |tickets|
  {
    var previous := tickets[j].previous;
    && (previous.Some? ==> previous.value < j && SameLine(tickets[previous.value], tickets[j]))
    && (forall i :: 0 <= i < j && SameLine(tickets[i], tickets[j]) ==> previous.Some? && i <= previous.value)
  }

  predicate LinksOk(tickets: seq<Ticket>) {
    forall j :: 0 <= j < |tickets| && tickets[j].op.effectful ==> LinkOk(tickets, j)
  }

  /** The tail of a workspace is its latest launch of an effect. */
  predicate TailsOk(tickets: seq<Ticket>, tails: map<string, nat>) {
    && (forall w :: w in tails ==>
          tails[w] < |tickets| && tickets[tails[w]].op.effectful && tickets[tails[w]].workspace == w)
    && (forall i :: 0 <= i < |tickets| && tickets[i].op.effectful ==>
          tickets[i].workspace in tails && i <= tails[tickets[i].workspace])
  }

  /** Once a launch has begun, all earlier effects of its workspace are completely over. */
  predicate LineOk(tickets: seq<Ticket>) {
    forall i, j :: 0 <= i < j < |tickets| && SameLine(tickets[i], tickets[j]) && !tickets[j].stage.Waiting? ==>
      Free(tickets[i])
  }

  predicate OneLaunch(tickets: seq<Ticket>) {
    forall i, j :: 0 <= i < j < |tickets| && tickets[i].id == tickets[j].id ==>
      tickets[i].stage.Ended? || tickets[j].stage.Ended?
  }

  predicate LaunchesOk(tickets: seq<Ticket>, tails: map<string, nat>) {
    LinksOk(tickets) && TailsOk(tickets, tails) && LineOk(tickets) && OneLaunch(tickets)
  }

  function Starts(started: seq<string>, id: string): nat {
    if |started| == 0 then 0
    else Starts(started[..|started| - 1], id) + if started[|started| - 1] == id then 1 else 0
  }

  /** A launch agrees with the record it was taken from, as far as the stage it is in lets them differ. */
  predicate TicketOk(places: Places, s: State, t: Ticket) {
    && t.id in s.ops
    && s.ops[t.id].agent == t.op.agent && s.ops[t.id].effectful == t.op.effectful
    && t.workspace == places(t.op.agent)
    && (t.stage.Waiting? ==>
          && t.op.state.Registered? && !t.working
          && (t.op.scheduled ==> s.ops[t.id].scheduled)
          && (Open(s, t.id, t.op) ==> s.ops[t.id].state.Registered?)
          && (t.op.effectful ==> Starts(s.started, t.id) == 0))
    && (t.op.effectful && Busy(t) ==>
          && Starts(s.started, t.id) > 0
          && (s.ops[t.id].state.Running? || s.ops[t.id].state.Unknown?))
  }

  predicate TicketsOk(places: Places, s: State) {
    forall i :: 0 <= i < |s.tickets| ==> TicketOk(places, s, s.tickets[i])
  }

  predicate Executes(tickets: seq<Ticket>, id: string) {
    exists i :: 0 <= i < |tickets| && tickets[i].id == id && tickets[i].stage.Executing?
  }

  predicate RunningOk(s: State) {
    forall id :: id in s.ops && s.ops[id].state.Running? ==> Executes(s.tickets, id)
  }

  /** An effect that has started is past registration for good, and has started once. */
  predicate StartOk(s: State, id: string)
    requires id in s.ops
  {
    s.ops[id].effectful ==>
      && Starts(s.started, id) <= 1
      && (s.ops[id].state.Registered? || s.ops[id].state.Approval? ==> Starts(s.started, id) == 0)
  }

  ghost predicate StartsOk(s: State) {
    && (forall id :: id in s.ops ==> StartOk(s, id))
    && (forall id: string :: id !in s.ops ==> Starts(s.started, id) == 0)
  }

  ghost predicate Inv(places: Places, s: State) {
    LaunchesOk(s.tickets, s.tails) && TicketsOk(places, s) && RunningOk(s) && StartsOk(s)
  }
}
