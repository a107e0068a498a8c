/** Conversations: one message sequence, mailboxes with cursors and deadlines, batches. */
module Conversations {
  // Each function is one transaction on the tables.

  import opened Basics

  type Id = nat

  datatype Member = User(name: string) | Agent(agent: Id)

  datatype Conversation = Conversation(
    owner: string, workspace: string, direct: bool, members: seq<Member>, mentionedOnly: bool)

  datatype Message = Message(
    id: Id, sequence: nat, conversation: Id, sender: Member, content: string, createdAt: int,
    replyTo: Option<Id>, mentions: set<Id>, phase: Id)

  datatype Box = Box(agent: Id, conversation: Id)

  datatype Mailbox = Mailbox(processed: nat, firstAt: Option<int>, dueAt: Option<int>, priority: nat)

  datatype BatchStatus = Queued | Handed | Done

  datatype Batch = Batch(
    id: Id, agent: Id, conversation: Id, upper: nat, phase: Id, messages: seq<Message>, status: BatchStatus)

  /** The hash input of an outgoing message; a hash without collisions is as good as the input itself. */
  datatype OutKey = OutKey(owner: string, sender: Member, idempotencyKey: string)

  datatype Fingerprint = Fingerprint(conversation: Id, content: string, replyTo: Option<Id>, mentions: set<Id>)

  datatype Sent = Sent(fingerprint: Fingerprint, message: Id)

  datatype DirectKey = DirectKey(owner: string, workspace: string, members: set<Member>)

  datatype Tables = Tables(
    conversations: map<Id, Conversation>,
    order: seq<Id>,
    directs: map<DirectKey, Id>,
    messages: seq<Message>,
    outbox: map<OutKey, Sent>,
    mailboxes: map<Box, Mailbox>,
    batches: seq<Batch>,
    dismissed: set<Id>,
    phases: map<Id, nat>,
    nextSequence: nat,
    nextId: Id)

  const NO_TABLES := Tables(map[], [], map[], [], map[], map[], [], {}, map[], 1, 0)

  /**
   * Waiting times and limits; byte sizes, and the place of an identity in the order of texts, are arbitrary functions.
   */
  datatype Env = Env(
    quiet: nat, maxWait: nat, groupQuiet: nat, maxAutomatic: nat,
    size: Message -> nat, bytes: string -> nat, rank: Id -> nat)

  datatype Fault = Missing | Permission | Protocol | Loop | KeyReused | NoPhase | TooLarge | BadMembers

  // ---- lookups ----

  function FindMessage(messages: seq<Message>, id: Id): (r: Option<Message>)
    ensures r.Some? ==> r.value in messages && r.value.id == id
    ensures r.None? ==> forall i :: 0 <= i < |messages| ==> messages[i].id != id
  {
    if |messages| == 0 then None
    else
      var front := FindMessage(messages[..|messages| - 1], id);
      if front.Some? then front
      else if messages[|messages| - 1].id == id then Some(messages[|messages| - 1])
      else None
  }

  /** A conversation's messages beyond a sequence number, in order. */
  function Beyond(messages: seq<Message>, conversation: Id, sequence: nat): seq<Message> {
    if |messages| == 0 then []
    else
      var m := messages[|messages| - 1];
      Beyond(messages[..|messages| - 1], conversation, sequence)
      + if m.conversation == conversation && m.sequence > sequence then [m] else []
  }

  /** A conversation's messages up to a sequence number, in order. */
  function UpTo(messages: seq<Message>, conversation: Id, sequence: nat): seq<Message> {
    if |messages| == 0 then []
    else
      var m := messages[|messages| - 1];
      UpTo(messages[..|messages| - 1], conversation, sequence)
      + if m.conversation == conversation && m.sequence <= sequence then [m] else []
  }

  function OpenBatch(batches: seq<Batch>, agent: Id): (r: Option<nat>)
    ensures r.Some? ==> r.value < |batches| && batches[r.value].agent == agent && !batches[r.value].status.Done?
    ensures r.None? ==> forall i :: 0 <= i < |batches| && batches[i].agent == agent ==> batches[i].status.Done?
  {
    if |batches| == 0 then None
    else
      var front := OpenBatch(batches[..|batches| - 1], agent);
      var b := batches[|batches| - 1];
      if front.Some? then front else if b.agent == agent && !b.status.Done? then Some(|batches| - 1) else None
  }

  function FindBatch(batches: seq<Batch>, id: Id): (r: Option<nat>)
    ensures r.Some? ==> r.value < |batches| && batches[r.value].id == id
    ensures r.None? ==> forall i :: 0 <= i < |batches| ==> batches[i].id != id
  {
    if |batches| == 0 then None
    else
      var front := FindBatch(batches[..|batches| - 1], id);
      if front.Some? then front else if batches[|batches| - 1].id == id then Some(|batches| - 1) else None
  }

  // ---- who a message is for ----

  predicate RepliesTo(messages: seq<Message>, m: Message, agent: Id) {
    && m.replyTo.Some?
    && var replied := FindMessage(messages, m.replyTo.value);
       replied.Some? && replied.value.sender == Agent(agent)
  }

  predicate Addressed(messages: seq<Message>, m: Message, agent: Id) {
    agent in m.mentions || RepliesTo(messages, m, agent)
  }

  /** The message is meant to reach the agent: not its own, and in a mentions-only group, addressed to it. */
  predicate Meant(c: Conversation, messages: seq<Message>, m: Message, agent: Id) {
    m.sender != Agent(agent) && (c.direct || !c.mentionedOnly || Addressed(messages, m, agent))
  }

  // ---- sending ----

  datatype Input = Input(content: string, idempotencyKey: string, replyTo: Option<Id>, mentions: set<Id>)

  function Min(a: int, b: int): int { if a < b then a else b }

  function Or<T>(o: Option<T>, otherwise: T): T { if o.Some? then o.value else otherwise }

  /**
   * A mailbox after one arrival. The first arrival bounds the wait; an unaddressed message cannot postpone a
   * mailbox that was addressed.
   */
  function Arrival(env: Env, box: Mailbox, at: int, quiet: nat, addressed: bool): Mailbox {
    var rank := if addressed then 1 else 0;
    var first := Or(box.firstAt, at);
    var due :=
      if box.priority > rank then (if box.dueAt.Some? then Some(Min(box.dueAt.value, at + quiet)) else None)
      else Some(at + quiet);
    Mailbox(box.processed, Some(first),
            if due.Some? then Some(Min(first + env.maxWait, due.value)) else None,
            if rank > box.priority then rank else box.priority)
  }

  /** The message as one mailbox receives it, if it is for that mailbox at all. */
  function Received(env: Env, t: Tables, c: Conversation, m: Message, agent: Id, box: Mailbox): Mailbox {
    if agent in t.dismissed || !Meant(c, t.messages, m, agent) then box
    else
      var addressed := Addressed(t.messages, m, agent);
      Arrival(env, box, m.createdAt, if c.direct || addressed then env.quiet else env.groupQuiet, addressed)
  }

  function Spread(env: Env, t: Tables, c: Conversation, m: Message, members: seq<Member>): map<Box, Mailbox> {
    map box | box in t.mailboxes ::
      if box.conversation == m.conversation && Agent(box.agent) in members then
        Received(env, t, c, m, box.agent, t.mailboxes[box])
      else t.mailboxes[box]
  }

  predicate HasDismissed(t: Tables, members: seq<Member>) {
    exists i :: 0 <= i < |members| && members[i].Agent? && members[i].agent in t.dismissed
  }

  predicate BadMention(t: Tables, c: Conversation, mentions: set<Id>) {
    exists id :: id in mentions && (id in t.dismissed || Agent(id) !in c.members)
  }

  function CheckSend(env: Env, t: Tables, conversation: Id, sender: Member, input: Input): Option<Fault> {
    if conversation !in t.conversations then Some(Missing)
    else
      var c := t.conversations[conversation];
      if sender.Agent? && sender.agent in t.dismissed then Some(Permission)
      else if c.direct && HasDismissed(t, c.members) then Some(Permission)
      else if sender !in c.members then Some(Permission)
      else if !Text(input.content) || env.bytes(input.content) > 12000
              || !Text(input.idempotencyKey) || |input.idempotencyKey| > 300 then Some(Protocol)
      else if BadMention(t, c, input.mentions) then Some(Permission)
      else if input.replyTo.Some? &&
              (FindMessage(t.messages, input.replyTo.value).None?
               || FindMessage(t.messages, input.replyTo.value).value.conversation != conversation) then Some(Permission)
      else None
  }

  function OutKeyOf(t: Tables, conversation: Id, sender: Member, input: Input): OutKey
    requires conversation in t.conversations
  {
    OutKey(t.conversations[conversation].owner, sender, input.idempotencyKey)
  }

  function FingerprintOf(conversation: Id, input: Input): Fingerprint {
    Fingerprint(conversation, input.content, input.replyTo, input.mentions)
  }

  function SentIn(t: Tables, phase: Id): nat {
    if phase in t.phases then t.phases[phase] else 0
  }

  /** Draws identities, charges the phase and stores the message in the transaction's own copy of the tables. */
  function Posted(env: Env, t: Tables, conversation: Id, sender: Member, input: Input, phase: Id, next: Id, now: int)
    : (r: (Tables, Message))
    requires conversation in t.conversations
  {
    var m := Message(next, t.nextSequence, conversation, sender, input.content, now, input.replyTo, input.mentions,
                     phase);
    var u := t.(
      messages := t.messages + [m],
      phases := t.phases[phase := SentIn(t, phase) + if sender.Agent? then 1 else 0],
      outbox := t.outbox[OutKeyOf(t, conversation, sender, input) := Sent(FingerprintOf(conversation, input), m.id)],
      nextSequence := t.nextSequence + 1,
      nextId := next + 1);
    (u.(mailboxes := Spread(env, u, t.conversations[conversation], m, t.conversations[conversation].members)), m)
  }

  /** Sends once per key: a repeated key answers with the first message, and with different content it is refused. */
  function AfterSend(env: Env, t: Tables, conversation: Id, sender: Member, input: Input, phase: Option<Id>,
                     maxBytes: Option<nat>, now: int): Result<(Tables, Message), Fault>
  {
    var fault := CheckSend(env, t, conversation, sender, input);
    if fault.Some? then Failure(fault.value)
    else
      var key := OutKeyOf(t, conversation, sender, input);
      if key in t.outbox then
        :- Need(t.outbox[key].fingerprint == FingerprintOf(conversation, input), KeyReused);
        var known := FindMessage(t.messages, t.outbox[key].message);
        if known.Some? then Success((t, known.value)) else Failure(Missing)
      else
        :- Need(sender.User? || phase.Some?, NoPhase);
        var used := if sender.User? then t.nextId else phase.value;
        :- Need(sender.User? || SentIn(t, used) < env.maxAutomatic, Loop);
        var (u, m) := Posted(env, t, conversation, sender, input, used, if sender.User? then t.nextId + 1
                             else t.nextId, now);
        :- Need(maxBytes.None? || env.size(m) + 1200 <= maxBytes.value, Protocol);
        Success((u, m))
  }

  // ---- sealing ----

  /** As many messages as the batch has room for, from the front. */
  function Fill(env: Env, incoming: seq<Message>, bytes: nat, count: nat, maxBytes: nat): (k: nat)
    ensures k <= |incoming|
    decreases |incoming|
  {
    if |incoming| == 0 || bytes + env.size(incoming[0]) + 400 > maxBytes || count >= 16 then 0
    else 1 + Fill(env, incoming[1..], bytes + env.size(incoming[0]) + 400, count + 1, maxBytes)
  }

  predicate Due(t: Tables, agent: Id, conversation: Id, now: int) {
    var box := Box(agent, conversation);
    box in t.mailboxes && t.mailboxes[box].dueAt.Some? && t.mailboxes[box].dueAt.value <= now
  }

  predicate Earlier(a: Option<int>, b: Option<int>) {
    b.Some? && (a.None? || a.value < b.value)
  }

  /**
   * The order in which due mailboxes are served: addressed first, then by first arrival, then by identity as a text.
   */
  predicate Precedes(env: Env, t: Tables, agent: Id, c: Id, d: Id)
    requires Box(agent, c) in t.mailboxes && Box(agent, d) in t.mailboxes
  {
    var x, y := t.mailboxes[Box(agent, c)], t.mailboxes[Box(agent, d)];
    x.priority > y.priority
    || (x.priority == y.priority && (Earlier(x.firstAt, y.firstAt)
                                     || (x.firstAt == y.firstAt && env.rank(c) < env.rank(d))))
  }

  function Pick(env: Env, t: Tables, agent: Id, ids: seq<Id>, now: int): (r: Option<Id>)
    ensures r.Some? ==> Due(t, agent, r.value, now) && r.value in ids
    ensures r.Some? ==> forall i :: 0 <= i < |ids| && Due(t, agent, ids[i], now) ==>
              !Precedes(env, t, agent, ids[i], r.value)
    ensures r.None? ==> forall i :: 0 <= i < |ids| ==> !Due(t, agent, ids[i], now)
  {
    if |ids| == 0 then None
    else
      var front := Pick(env, t, agent, ids[..|ids| - 1], now);
      var last := ids[|ids| - 1];
      if !Due(t, agent, last, now) then front
      else if front.None? || Precedes(env, t, agent, last, front.value) then Some(last)
      else front
  }

  const EMPTIED := (box: Mailbox) => Mailbox(box.processed, None, None, 0)

  function AfterSeal(env: Env, t: Tables, agent: Id, maxBytes: nat, now: int): Result<(Tables, Option<Batch>), Fault> {
    if agent in t.dismissed then Success((t, None))
    else if OpenBatch(t.batches, agent).Some? then Success((t, Some(t.batches[OpenBatch(t.batches, agent).value])))
    else
      var picked := Pick(env, t, agent, t.order, now);
      if picked.None? then Success((t, None))
      else
        var box := Box(agent, picked.value);
        var incoming := Beyond(t.messages, picked.value, t.mailboxes[box].processed);
        var k := Fill(env, incoming, 800, 0, maxBytes);
        :- Need(k > 0, TooLarge);
        var last := incoming[k - 1];
        var batch := Batch(t.nextId, agent, picked.value, last.sequence, last.phase, incoming[..k], Queued);
        Success((t.(batches := t.batches + [batch],
                    mailboxes := t.mailboxes[box := EMPTIED(t.mailboxes[box])],
                    nextId := t.nextId + 1),
                 Some(batch)))
  }

  // ---- acknowledging ----

  function AfterDelivered(t: Tables, id: Id): Tables {
    var i := FindBatch(t.batches, id);
    if i.Some? && t.batches[i.value].status.Queued? then
      t.(batches := t.batches[i.value := t.batches[i.value].(status := Handed)])
    else t
  }

  function FirstMeant(c: Conversation, messages: seq<Message>, pending: seq<Message>, agent: Id): (r: Option<Message>)
    ensures r.Some? ==> r.value in pending && Meant(c, messages, r.value, agent)
    ensures r.None? ==> forall i :: 0 <= i < |pending| ==> !Meant(c, messages, pending[i], agent)
  {
    if |pending| == 0 then None
    else if Meant(c, messages, pending[0], agent) then Some(pending[0])
    else FirstMeant(c, messages, pending[1..], agent)
  }

  /** Moves the cursor to the end of the batch; what the batch had no room for gets a deadline again. */
  function Advanced(box: Mailbox, upper: nat, pending: Option<Message>, now: int): Mailbox {
    var moved := box.(processed := if box.processed < upper then upper else box.processed);
    if pending.Some? then
      moved.(firstAt := Some(Or(moved.firstAt, pending.value.createdAt)), dueAt := Some(Or(moved.dueAt, now)))
    else moved
  }

  function AfterAcknowledge(t: Tables, id: Id, now: int): Result<Tables, Fault> {
    var i := FindBatch(t.batches, id);
    if i.None? || t.batches[i.value].status.Done? then Success(t)
    else
      var b := t.batches[i.value];
      :- Need(b.conversation in t.conversations, Missing);
      var pending := FirstMeant(t.conversations[b.conversation], t.messages,
                                Beyond(t.messages, b.conversation, b.upper), b.agent);
      var box := Box(b.agent, b.conversation);
      Success(t.(batches := t.batches[i.value := b.(status := Done)],
                 mailboxes := if box in t.mailboxes then
                   t.mailboxes[box := Advanced(t.mailboxes[box], b.upper, pending, now)]
                              else t.mailboxes))
  }

  /** A dismissed agent keeps its cursors; its open batch ends unprocessed and its mailboxes fall silent. */
  function AfterDismiss(t: Tables, agent: Id): Tables {
    var open := OpenBatch(t.batches, agent);
    t.(dismissed := t.dismissed + {agent},
       batches := if open.Some? then t.batches[open.value := t.batches[open.value].(status := Done)] else t.batches,
       mailboxes := map box | box in t.mailboxes ::
         if box.agent == agent then EMPTIED(t.mailboxes[box]) else t.mailboxes[box])
  }

  // ---- creating ----

  predicate MemberShape(m: Member) {
    if m.User? then m.name != "" else m.agent > 0
  }

  predicate ConversationShape(c: Conversation) {
    && c.owner != "" && c.workspace != ""
    && 2 <= |c.members| <= 32
    && forall i :: 0 <= i < |c.members| ==> MemberShape(c.members[i])
  }

  predicate DistinctMembers(members: seq<Member>) {
    forall i, j :: 0 <= i < j < |members| ==> members[i] != members[j]
  }

  function DirectOf(c: Conversation): DirectKey {
    DirectKey(c.owner, c.workspace, set m | m in c.members)
  }

  function AfterCreate(t: Tables, c: Conversation): Result<(Tables, Id), Fault> {
    if !ConversationShape(c) then Failure(BadMembers)
    else
      :- Need(DistinctMembers(c.members) && (c.direct ==> |c.members| == 2), BadMembers);
      var key := DirectOf(c);
      if c.direct && key in t.directs then Success((t, t.directs[key]))
      else
        var id := t.nextId;
        Success((t.(conversations := t.conversations[id := c],
                    order := t.order + [id],
                    directs := if c.direct then t.directs[key := id] else t.directs,
                    mailboxes := t.mailboxes + map m | m in c.members && m.Agent? ::
                      Box(m.agent, id) := Mailbox(0, None, None, 0),
                    nextId := id + 1), id))
  }
}
