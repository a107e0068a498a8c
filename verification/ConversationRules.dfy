/** What every transaction on the conversation tables keeps. */
module ConversationRules {
  import opened Basics
  import opened Conversations

  // ---- the invariant ----

  predicate MessagesOk(t: Tables) {
    && t.nextSequence > 0
    && (forall i :: 0 <= i < |t.messages| ==>
          && 0 < t.messages[i].sequence < t.nextSequence
          && t.messages[i].id < t.nextId
          && t.messages[i].conversation in t.conversations
          && (t.messages[i].replyTo.Some? ==> FindMessage(t.messages, t.messages[i].replyTo.value).Some?))
    && Increasing(t.messages)
  }

  predicate Increasing(messages: seq<Message>) {
    forall i, j :: 0 <= i < j < |messages| ==> messages[i].sequence < messages[j].sequence
  }

  predicate BoxesOk(t: Tables) {
    && (forall c :: c in t.conversations ==> c < t.nextId && DistinctMembers(t.conversations[c].members))
    && (forall box :: box in t.mailboxes ==>
          && box.conversation in t.conversations
          && Agent(box.agent) in t.conversations[box.conversation].members
          && BoxOk(t.mailboxes[box], t.nextSequence))
  }

  /** A deadline comes with a first arrival, and a raised priority with a deadline. */
  predicate BoxOk(m: Mailbox, nextSequence: nat) {
    && (m.firstAt.Some? <==> m.dueAt.Some?)
    && (m.priority > 0 ==> m.dueAt.Some?)
    && m.priority <= 1
    && m.processed < nextSequence
  }

  /** An open batch is the last of its agent, so there is at most one. */
  predicate BatchesOk(t: Tables) {
    && (forall i :: 0 <= i < |t.batches| ==>
          && t.batches[i].id < t.nextId
          && BoxOf(t.batches[i]) in t.mailboxes
          && (!t.batches[i].status.Done? ==> t.batches[i].agent !in t.dismissed))
    && (forall i, j :: 0 <= i < j < |t.batches| ==>
          && t.batches[i].id != t.batches[j].id
          && (!t.batches[i].status.Done? ==> t.batches[i].agent != t.batches[j].agent))
  }

  function BoxOf(b: Batch): Box { Box(b.agent, b.conversation) }

  /** The messages of a mailbox's finished batches, one batch after the other. */
  function Acknowledged(batches: seq<Batch>, box: Box): seq<Message> {
    if |batches| == 0 then []
    else
      var b := batches[|batches| - 1];
      Acknowledged(batches[..|batches| - 1], box) + if BoxOf(b) == box && b.status.Done? then b.messages else []
  }

  predicate OpenFor(b: Batch, box: Box) {
    BoxOf(b) == box && !b.status.Done?
  }

  /** The finished batches make up exactly what the cursor has passed; an open batch starts right behind it. */
  predicate CursorOk(t: Tables, box: Box)
    requires box in t.mailboxes
  {
    var processed := t.mailboxes[box].processed;
    && Acknowledged(t.batches, box) == UpTo(t.messages, box.conversation, processed)
    && (forall i :: 0 <= i < |t.batches| && OpenFor(t.batches[i], box) ==>
          var b := t.batches[i];
          && |b.messages| > 0
          && b.upper == b.messages[|b.messages| - 1].sequence
          && b.messages <= Beyond(t.messages, box.conversation, processed))
  }

  predicate SomeMeant(t: Tables, box: Box)
    requires box in t.mailboxes && box.conversation in t.conversations
  {
    var pending := Beyond(t.messages, box.conversation, t.mailboxes[box].processed);
    exists i :: 0 <= i < |pending| && Meant(t.conversations[box.conversation], t.messages, pending[i], box.agent)
  }

  /** A message meant for the agent that lies beyond the cursor has a deadline, or is behind an open batch. */
  predicate LiveOk(t: Tables, box: Box)
    requires box in t.mailboxes && box.conversation in t.conversations
  {
    SomeMeant(t, box) ==>
      t.mailboxes[box].dueAt.Some? || exists i :: 0 <= i < |t.batches| && OpenFor(t.batches[i], box)
  }

  predicate DeliveryOk(t: Tables)
    requires BoxesOk(t)
  {
    forall box :: box in t.mailboxes && box.agent !in t.dismissed ==> CursorOk(t, box) && LiveOk(t, box)
  }

  /** How many messages agents have sent in a phase. */
  function AgentMessages(messages: seq<Message>, phase: Id): nat {
    if |messages| == 0 then 0
    else
      var m := messages[|messages| - 1];
      AgentMessages(messages[..|messages| - 1], phase) + if m.sender.Agent? && m.phase == phase then 1 else 0
  }

  ghost predicate PhasesOk(t: Tables, limit: nat) {
    forall phase: Id :: AgentMessages(t.messages, phase) == SentIn(t, phase) <= limit
  }

  /** Each key stands for the one stored message that was sent under it. */
  predicate OutboxOk(t: Tables) {
    && (forall key :: key in t.outbox ==>
          var m := FindMessage(t.messages, t.outbox[key].message);
          && m.Some?
          && m.value.sender == key.sender
          && t.outbox[key].fingerprint
             == Fingerprint(m.value.conversation, m.value.content, m.value.replyTo, m.value.mentions))
    && (forall k, l :: k in t.outbox && l in t.outbox && t.outbox[k].message == t.outbox[l].message ==> k == l)
  }

  ghost predicate Inv(env: Env, t: Tables) {
    && MessagesOk(t) && BoxesOk(t) && BatchesOk(t) && DeliveryOk(t)
    && PhasesOk(t, env.maxAutomatic) && OutboxOk(t)
  }

  // ---- the message list ----

  lemma {:induction false} BeyondMembers(messages: seq<Message>, c: Id, p: nat)
    ensures forall m :: m in Beyond(messages, c, p) ==> m in messages && m.conversation == c && m.sequence > p
    decreases |messages|
  {
    if |messages| > 0 {
      BeyondMembers(messages[..|messages| - 1], c, p);
    }
  }

  lemma {:induction false} BeyondNone(messages: seq<Message>, c: Id, p: nat)
    requires forall i :: 0 <= i < |messages| ==> messages[i].sequence <= p
    ensures Beyond(messages, c, p) == []
    decreases |messages|
  {
    if |messages| > 0 {
      BeyondNone(messages[..|messages| - 1], c, p);
    }
  }

  lemma {:induction false} Whole(messages: seq<Message>, c: Id, p: nat, upper: nat)
    requires Increasing(messages) && forall i :: 0 <= i < |messages| ==> messages[i].sequence <= upper
    ensures UpTo(messages, c, upper) == UpTo(messages, c, p) + Beyond(messages, c, p)
    decreases |messages|
  {
    if |messages| > 0 {
      var front, m := messages[..|messages| - 1], messages[|messages| - 1];
      Whole(front, c, p, upper);
      if m.sequence <= p {
        BeyondNone(front, c, p);
      }
    }
  }

  /** A message beyond a cursor comes before any message after the list it is taken from. */
  lemma BeyondBelow(messages: seq<Message>, c: Id, p: nat, i: nat)
    requires Increasing(messages) && |messages| > 0 && i < |Beyond(messages[..|messages| - 1], c, p)|
    ensures p < Beyond(messages[..|messages| - 1], c, p)[i].sequence < messages[|messages| - 1].sequence
  {
    var front := messages[..|messages| - 1];
    BeyondMembers(front, c, p);
    var x := Beyond(front, c, p)[i];
    assert x in Beyond(front, c, p);
    var j :| 0 <= j < |front| && front[j] == x;
    assert messages[j] == x;
  }

  lemma CutLast(messages: seq<Message>, c: Id, p: nat)
    requires Increasing(messages) && |messages| > 0
    requires messages[|messages| - 1].conversation == c && messages[|messages| - 1].sequence > p
    ensures var upper := messages[|messages| - 1].sequence;
            UpTo(messages, c, upper) == UpTo(messages, c, p) + Beyond(messages, c, p)
              && Beyond(messages, c, upper) == []
  {
    var upper := messages[|messages| - 1].sequence;
    Whole(messages, c, p, upper);
    BeyondNone(messages, c, upper);
  }

  /** Cutting what lies beyond a cursor at any message cuts the conversation there. */
  lemma {:induction false} CutAt(messages: seq<Message>, c: Id, p: nat, k: nat)
    requires Increasing(messages) && 0 < k <= |Beyond(messages, c, p)|
    ensures var incoming := Beyond(messages, c, p);
            var upper := incoming[k - 1].sequence;
            && upper > p
            && UpTo(messages, c, upper) == UpTo(messages, c, p) + incoming[..k]
            && Beyond(messages, c, upper) == incoming[k..]
    decreases |messages|
  {
    var incoming := Beyond(messages, c, p);
    var n := |messages| - 1;
    var before := Beyond(messages[..n], c, p);
    if k <= |before| {
      CutAt(messages[..n], c, p, k);
      BeyondBelow(messages, c, p, k - 1);
      assert incoming[k - 1] == before[k - 1] && incoming[..k] == before[..k];
    } else {
      CutLast(messages, c, p);
      assert incoming[..k] == incoming && incoming[k..] == [];
    }
  }

  lemma FindAppended(messages: seq<Message>, m: Message, id: Id)
    ensures FindMessage(messages + [m], id) ==
            if FindMessage(messages, id).Some? then FindMessage(messages, id)
            else if m.id == id then Some(m) else None
  {
    assert (messages + [m])[..|messages|] == messages;
  }

  lemma MeantAppended(c: Conversation, messages: seq<Message>, m: Message, earlier: Message, agent: Id)
    requires earlier.replyTo.Some? ==> FindMessage(messages, earlier.replyTo.value).Some?
    ensures Meant(c, messages + [m], earlier, agent) == Meant(c, messages, earlier, agent)
  {
    if earlier.replyTo.Some? {
      FindAppended(messages, m, earlier.replyTo.value);
    }
  }

  // ---- one arrival ----

  /**
   * After any arrival the deadline is set and lies at most the maximal wait after the first arrival, and an
   * unaddressed message never moves the deadline of an addressed mailbox to a later time.
   */
  lemma ArrivalDeadline(env: Env, box: Mailbox, at: int, quiet: nat, addressed: bool, nextSequence: nat)
    requires BoxOk(box, nextSequence)
    ensures var after := Arrival(env, box, at, quiet, addressed);
            && BoxOk(after, nextSequence) && after.processed == box.processed
            && after.firstAt == Some(Or(box.firstAt, at))
            && after.dueAt.value <= after.firstAt.value + env.maxWait
            && after.dueAt.value <= at + quiet
            && (box.priority > 0 && !addressed ==> after.dueAt.value <= box.dueAt.value && after.priority > 0)
            && (addressed ==> after.priority > 0)
  {
  }

  // ---- sending ----

  lemma PostedMessages(env: Env, t: Tables, conversation: Id, sender: Member, input: Input, phase: Id, next: Id,
                       now: int)
    requires Inv(env, t) && CheckSend(env, t, conversation, sender, input).None? && t.nextId <= next
    ensures var (u, m) := Posted(env, t, conversation, sender, input, phase, next, now);
            MessagesOk(u) && u.messages == t.messages + [m]
  {
    var (u, m) := Posted(env, t, conversation, sender, input, phase, next, now);
    forall i | 0 <= i < |u.messages|
      ensures 0 < u.messages[i].sequence < u.nextSequence && u.messages[i].id < u.nextId
      ensures u.messages[i].replyTo.Some? ==> FindMessage(u.messages, u.messages[i].replyTo.value).Some?
    {
      if i < |t.messages| {
        assert u.messages[i] == t.messages[i];
      }
      if u.messages[i].replyTo.Some? {
        FindAppended(t.messages, m, u.messages[i].replyTo.value);
      }
    }
  }

  lemma PostedBoxes(env: Env, t: Tables, conversation: Id, sender: Member, input: Input, phase: Id, next: Id, now: int)
    requires Inv(env, t) && conversation in t.conversations && t.nextId <= next
    ensures var (u, m) := Posted(env, t, conversation, sender, input, phase, next, now);
            && u.mailboxes.Keys == t.mailboxes.Keys && BoxesOk(u) && BatchesOk(u)
            && (forall box :: box in u.mailboxes ==>
                  && u.mailboxes[box].processed == t.mailboxes[box].processed
                  && (t.mailboxes[box].dueAt.Some? ==> u.mailboxes[box].dueAt.Some?))
  {
    var (u, m) := Posted(env, t, conversation, sender, input, phase, next, now);
    forall box | box in u.mailboxes
      ensures BoxOk(u.mailboxes[box], u.nextSequence) && u.mailboxes[box].processed == t.mailboxes[box].processed
      ensures t.mailboxes[box].dueAt.Some? ==> u.mailboxes[box].dueAt.Some?
    {
      assert BoxOk(t.mailboxes[box], u.nextSequence);
    }
  }

  lemma PostedDelivery(env: Env, t: Tables, conversation: Id, sender: Member, input: Input, phase: Id, next: Id,
                       now: int, box: Box)
    requires Inv(env, t) && CheckSend(env, t, conversation, sender, input).None? && t.nextId <= next
    requires box in t.mailboxes && box.agent !in t.dismissed
    ensures var u := Posted(env, t, conversation, sender, input, phase, next, now).0;
            && box in u.mailboxes && box.conversation in u.conversations
            && CursorOk(u, box) && LiveOk(u, box)
  {
    var (u, m) := Posted(env, t, conversation, sender, input, phase, next, now);
    PostedBoxes(env, t, conversation, sender, input, phase, next, now);
    var processed := t.mailboxes[box].processed;
    assert u.messages[..|t.messages|] == t.messages;
    var before := Beyond(t.messages, box.conversation, processed);
    var after := Beyond(u.messages, box.conversation, processed);
    assert before <= after;
    PostedLive(env, t, u, m, box);
  }

  lemma PostedLive(env: Env, t: Tables, u: Tables, m: Message, box: Box)
    requires Inv(env, t) && box in t.mailboxes && box.agent !in t.dismissed
    requires u.messages == t.messages + [m] && u.conversations == t.conversations && u.batches == t.batches
    requires u.dismissed == t.dismissed && m.sequence > t.mailboxes[box].processed
    requires m.conversation in t.conversations
    requires u.mailboxes == Spread(env, u.(mailboxes := t.mailboxes), t.conversations[m.conversation], m,
                                   t.conversations[m.conversation].members)
    ensures LiveOk(u, box)
  {
    var c := t.conversations[box.conversation];
    var processed := t.mailboxes[box].processed;
    var after := Beyond(u.messages, box.conversation, processed);
    assert u.messages[..|t.messages|] == t.messages;
    BeyondMembers(t.messages, box.conversation, processed);
    ArrivalsKeepDeadlines(env, t, u, m, box);
    if SomeMeant(u, box) && !SomeMeant(t, box) {
      var i :| 0 <= i < |after| && Meant(c, u.messages, after[i], box.agent);
      if i < |Beyond(t.messages, box.conversation, processed)| {
        assert after[i] == Beyond(t.messages, box.conversation, processed)[i] && after[i] in t.messages;
        MeantAppended(c, t.messages, m, after[i], box.agent);
      } else {
        assert after[i] == m;
      }
    }
  }

  lemma ArrivalsKeepDeadlines(env: Env, t: Tables, u: Tables, m: Message, box: Box)
    requires BoxesOk(t) && box in t.mailboxes && m.conversation in t.conversations && u.dismissed == t.dismissed
    requires u.mailboxes == Spread(env, u.(mailboxes := t.mailboxes), t.conversations[m.conversation], m,
                                   t.conversations[m.conversation].members)
    ensures box in u.mailboxes && u.mailboxes[box].processed == t.mailboxes[box].processed
    ensures t.mailboxes[box].dueAt.Some? ==> u.mailboxes[box].dueAt.Some?
    ensures (box.conversation == m.conversation && box.agent !in t.dismissed
             && Meant(t.conversations[m.conversation], u.messages, m, box.agent)) ==> u.mailboxes[box].dueAt.Some?
  {
    assert BoxOk(t.mailboxes[box], t.nextSequence);
  }

  lemma PostedPhases(env: Env, t: Tables, conversation: Id, sender: Member, input: Input, phase: Id, next: Id, now: int)
    requires Inv(env, t) && conversation in t.conversations
    requires sender.Agent? ==> SentIn(t, phase) < env.maxAutomatic
    ensures PhasesOk(Posted(env, t, conversation, sender, input, phase, next, now).0, env.maxAutomatic)
  {
    var (u, m) := Posted(env, t, conversation, sender, input, phase, next, now);
    assert u.messages[..|t.messages|] == t.messages;
    forall p: Id ensures AgentMessages(u.messages, p) == SentIn(u, p) <= env.maxAutomatic {
      assert AgentMessages(t.messages, p) == SentIn(t, p) <= env.maxAutomatic;
    }
  }

  /** Recording one more message under a key of its own keeps all earlier entries right. */
  lemma OutboxAppended(t: Tables, u: Tables, m: Message, key: OutKey, sent: Sent)
    requires OutboxOk(t) && FindMessage(t.messages, m.id).None?
    requires u.messages == t.messages + [m] && u.outbox == t.outbox[key := sent] && sent.message == m.id
    requires m.sender == key.sender
    requires sent.fingerprint == Fingerprint(m.conversation, m.content, m.replyTo, m.mentions)
    ensures OutboxOk(u)
  {
    FindAppended(t.messages, m, m.id);
    forall other | other in u.outbox && other != key
      ensures FindMessage(t.messages, t.outbox[other].message).Some?
      ensures FindMessage(u.messages, u.outbox[other].message) == FindMessage(t.messages, t.outbox[other].message)
    {
      FindAppended(t.messages, m, u.outbox[other].message);
    }
  }

  lemma PostedOutbox(env: Env, t: Tables, conversation: Id, sender: Member, input: Input, phase: Id, next: Id, now: int)
    requires Inv(env, t) && conversation in t.conversations && t.nextId <= next
    ensures OutboxOk(Posted(env, t, conversation, sender, input, phase, next, now).0)
  {
    var (u, m) := Posted(env, t, conversation, sender, input, phase, next, now);
    FreshMessage(t, next);
    OutboxAppended(t, u, m, OutKeyOf(t, conversation, sender, input), Sent(FingerprintOf(conversation, input), m.id));
  }

  lemma FreshMessage(t: Tables, next: Id)
    requires MessagesOk(t) && t.nextId <= next
    ensures FindMessage(t.messages, next).None?
  {
  }

  lemma PostedKeeps(env: Env, t: Tables, conversation: Id, sender: Member, input: Input, phase: Id, next: Id, now: int)
    requires Inv(env, t) && CheckSend(env, t, conversation, sender, input).None? && t.nextId <= next
    requires sender.Agent? ==> SentIn(t, phase) < env.maxAutomatic
    ensures Inv(env, Posted(env, t, conversation, sender, input, phase, next, now).0)
  {
    PostedMessages(env, t, conversation, sender, input, phase, next, now);
    PostedBoxes(env, t, conversation, sender, input, phase, next, now);
    PostedPhases(env, t, conversation, sender, input, phase, next, now);
    PostedOutbox(env, t, conversation, sender, input, phase, next, now);
    var u := Posted(env, t, conversation, sender, input, phase, next, now).0;
    forall box | box in u.mailboxes && box.agent !in u.dismissed ensures CursorOk(u, box) && LiveOk(u, box) {
      PostedDelivery(env, t, conversation, sender, input, phase, next, now, box);
    }
  }

  lemma SendValue(env: Env, t: Tables, conversation: Id, sender: Member, input: Input, phase: Option<Id>,
                  maxBytes: Option<nat>, now: int) returns (used: Id, next: Id)
    requires AfterSend(env, t, conversation, sender, input, phase, maxBytes, now).Success?
    ensures CheckSend(env, t, conversation, sender, input).None? && t.nextId <= next
    ensures OutKeyOf(t, conversation, sender, input) in t.outbox ==>
              AfterSend(env, t, conversation, sender, input, phase, maxBytes, now).value.0 == t
    ensures OutKeyOf(t, conversation, sender, input) !in t.outbox ==>
              && AfterSend(env, t, conversation, sender, input, phase, maxBytes, now).value
                 == Posted(env, t, conversation, sender, input, used, next, now)
              && (sender.Agent? ==> SentIn(t, used) < env.maxAutomatic)
  {
    used := if sender.User? then t.nextId else Or(phase, 0);
    next := if sender.User? then t.nextId + 1 else t.nextId;
  }

  lemma SendKeeps(env: Env, t: Tables, conversation: Id, sender: Member, input: Input, phase: Option<Id>,
                  maxBytes: Option<nat>, now: int)
    requires Inv(env, t) && AfterSend(env, t, conversation, sender, input, phase, maxBytes, now).Success?
    ensures Inv(env, AfterSend(env, t, conversation, sender, input, phase, maxBytes, now).value.0)
  {
    var used, next := SendValue(env, t, conversation, sender, input, phase, maxBytes, now);
    if OutKeyOf(t, conversation, sender, input) !in t.outbox {
      PostedKeeps(env, t, conversation, sender, input, used, next, now);
    }
  }

  /** After a message was sent, its key stands for it. */
  lemma SentUnderKey(env: Env, t: Tables, conversation: Id, sender: Member, input: Input, phase: Option<Id>,
                     maxBytes: Option<nat>, now: int)
    requires Inv(env, t) && AfterSend(env, t, conversation, sender, input, phase, maxBytes, now).Success?
    ensures var (u, m) := AfterSend(env, t, conversation, sender, input, phase, maxBytes, now).value;
            && conversation in u.conversations && u.conversations == t.conversations
            && var key := OutKeyOf(u, conversation, sender, input);
               && key in u.outbox && u.outbox[key].fingerprint == FingerprintOf(conversation, input)
               && FindMessage(u.messages, u.outbox[key].message) == Some(m)
  {
    var (u, m) := AfterSend(env, t, conversation, sender, input, phase, maxBytes, now).value;
    if OutKeyOf(t, conversation, sender, input) !in t.outbox {
      FindAppended(t.messages, m, m.id);
    }
  }

  /**
   * Sending again under the same key changes nothing: the same content gets the first message, other content is
   * refused.
   */
  lemma SendTwice(env: Env, t: Tables, conversation: Id, sender: Member, input: Input, phase: Option<Id>,
                  maxBytes: Option<nat>, now: int, again: Input, later: Option<Id>, limit: Option<nat>, at: int)
    requires Inv(env, t) && AfterSend(env, t, conversation, sender, input, phase, maxBytes, now).Success?
    requires again.idempotencyKey == input.idempotencyKey
    requires var (u, m) := AfterSend(env, t, conversation, sender, input, phase, maxBytes, now).value;
             CheckSend(env, u, conversation, sender, again).None?
    ensures var (u, m) := AfterSend(env, t, conversation, sender, input, phase, maxBytes, now).value;
            AfterSend(env, u, conversation, sender, again, later, limit, at) ==
            if again == input then Success((u, m)) else Failure(KeyReused)
  {
    SentUnderKey(env, t, conversation, sender, input, phase, maxBytes, now);
    var (u, m) := AfterSend(env, t, conversation, sender, input, phase, maxBytes, now).value;
    Resent(env, u, conversation, sender, input, m, again, later, limit, at);
  }

  lemma Resent(env: Env, u: Tables, conversation: Id, sender: Member, input: Input, m: Message,
               again: Input, later: Option<Id>, limit: Option<nat>, at: int)
    requires CheckSend(env, u, conversation, sender, again).None? && again.idempotencyKey == input.idempotencyKey
    requires OutKeyOf(u, conversation, sender, input) in u.outbox
    requires u.outbox[OutKeyOf(u, conversation, sender, input)].fingerprint == FingerprintOf(conversation, input)
    requires FindMessage(u.messages, u.outbox[OutKeyOf(u, conversation, sender, input)].message) == Some(m)
    ensures AfterSend(env, u, conversation, sender, again, later, limit, at) ==
            if again == input then Success((u, m)) else Failure(KeyReused)
  {
  }

  // ---- batches ----

  lemma AcknowledgedAppended(batches: seq<Batch>, b: Batch, box: Box)
    ensures Acknowledged(batches + [b], box) ==
            Acknowledged(batches, box) + if BoxOf(b) == box && b.status.Done? then b.messages else []
  {
    assert (batches + [b])[..|batches|] == batches;
  }

  /** Finishing a batch adds its messages to its mailbox's, at the end if it is the agent's last batch. */
  lemma {:induction false} AcknowledgedSet(batches: seq<Batch>, i: nat, status: BatchStatus, box: Box)
    requires i < |batches| && !batches[i].status.Done?
    requires forall j :: i < j < |batches| ==> batches[j].agent != batches[i].agent
    ensures var after := batches[i := batches[i].(status := status)];
            Acknowledged(after, box) ==
            Acknowledged(batches, box) + if BoxOf(batches[i]) == box && status.Done? then batches[i].messages else []
    decreases |batches|
  {
    var n := |batches| - 1;
    var after := batches[i := batches[i].(status := status)];
    if i < n {
      AcknowledgedSet(batches[..n], i, status, box);
      assert after[..n] == batches[..n][i := batches[i].(status := status)];
    } else {
      assert after[..n] == batches[..n];
    }
  }

  function Weight(env: Env, messages: seq<Message>): nat {
    if |messages| == 0 then 0 else env.size(messages[0]) + 400 + Weight(env, messages[1..])
  }

  /** A batch takes as much from the front as fits: at most sixteen messages and the byte limit, and never less. */
  lemma {:induction false} FillFits(env: Env, incoming: seq<Message>, bytes: nat, count: nat, maxBytes: nat)
    requires count <= 16 && bytes <= maxBytes
    ensures var k := Fill(env, incoming, bytes, count, maxBytes);
            && count + k <= 16 && bytes + Weight(env, incoming[..k]) <= maxBytes
            && (k < |incoming| ==>
                  count + k == 16 || bytes + Weight(env, incoming[..k]) + env.size(incoming[k]) + 400 > maxBytes)
    decreases |incoming|
  {
    if |incoming| > 0 && bytes + env.size(incoming[0]) + 400 <= maxBytes && count < 16 {
      FillFits(env, incoming[1..], bytes + env.size(incoming[0]) + 400, count + 1, maxBytes);
      var k := Fill(env, incoming, bytes, count, maxBytes);
      assert incoming[..k][1..] == incoming[1..][..k - 1];
    }
  }

  /** A new batch, for the mailbox it is for. */
  lemma SealedBox(t: Tables, u: Tables, b: Batch, incoming: seq<Message>, k: nat)
    requires BoxesOk(t) && BoxOf(b) in t.mailboxes && CursorOk(t, BoxOf(b)) && OpenBatch(t.batches, b.agent).None?
    requires incoming == Beyond(t.messages, b.conversation, t.mailboxes[BoxOf(b)].processed) && 0 < k <= |incoming|
    requires b.messages == incoming[..k] && b.upper == incoming[k - 1].sequence && b.status.Queued?
    requires u.batches == t.batches + [b] && u.messages == t.messages && u.conversations == t.conversations
    requires BoxOf(b) in u.mailboxes && u.mailboxes[BoxOf(b)].processed == t.mailboxes[BoxOf(b)].processed
    ensures CursorOk(u, BoxOf(b)) && LiveOk(u, BoxOf(b))
  {
    AcknowledgedAppended(t.batches, b, BoxOf(b));
    assert OpenFor(u.batches[|t.batches|], BoxOf(b));
    assert b.messages <= incoming && b.messages[|b.messages| - 1] == incoming[k - 1];
    forall i | 0 <= i < |t.batches| ensures !OpenFor(t.batches[i], BoxOf(b)) {
      NoneOpen(t.batches, b.agent, i);
    }
  }

  lemma NoneOpen(batches: seq<Batch>, agent: Id, i: nat)
    requires OpenBatch(batches, agent).None? && i < |batches|
    ensures !OpenFor(batches[i], Box(agent, batches[i].conversation))
  {
  }

  /** A new batch, for every other mailbox. */
  lemma UnsealedBox(t: Tables, u: Tables, b: Batch, box: Box)
    requires BoxesOk(t) && box in t.mailboxes && CursorOk(t, box) && LiveOk(t, box) && box != BoxOf(b)
    requires u.batches == t.batches + [b] && u.messages == t.messages && u.conversations == t.conversations
    requires box in u.mailboxes && u.mailboxes[box] == t.mailboxes[box]
    ensures CursorOk(u, box) && LiveOk(u, box)
  {
    AcknowledgedAppended(t.batches, b, box);
    assert !OpenFor(b, box);
    if exists i :: 0 <= i < |t.batches| && OpenFor(t.batches[i], box) {
      var i :| 0 <= i < |t.batches| && OpenFor(t.batches[i], box);
      assert OpenFor(u.batches[i], box);
    }
  }

  lemma SealedDelivery(env: Env, t: Tables, agent: Id, maxBytes: nat, now: int, box: Box)
    requires Inv(env, t) && AfterSeal(env, t, agent, maxBytes, now).Success?
    requires agent !in t.dismissed && OpenBatch(t.batches, agent).None? && Pick(env, t, agent, t.order, now).Some?
    requires box in t.mailboxes && box.agent !in t.dismissed
    ensures var u := AfterSeal(env, t, agent, maxBytes, now).value.0;
            box in u.mailboxes && box.conversation in u.conversations && CursorOk(u, box) && LiveOk(u, box)
  {
    var (u, sealed) := AfterSeal(env, t, agent, maxBytes, now).value;
    var b := sealed.value;
    if box == BoxOf(b) {
      var incoming := Beyond(t.messages, b.conversation, t.mailboxes[box].processed);
      SealedBox(t, u, b, incoming, Fill(env, incoming, 800, 0, maxBytes));
    } else {
      UnsealedBox(t, u, b, box);
    }
  }

  lemma SealKeeps(env: Env, t: Tables, agent: Id, maxBytes: nat, now: int)
    requires Inv(env, t)
    ensures var r := AfterSeal(env, t, agent, maxBytes, now);
            r.Success? ==> Inv(env, r.value.0)
  {
    var r := AfterSeal(env, t, agent, maxBytes, now);
    if r.Success? && agent !in t.dismissed && OpenBatch(t.batches, agent).None?
      && Pick(env, t, agent, t.order, now).Some? {
      var u := r.value.0;
      SealedTables(env, t, agent, maxBytes, now);
      forall box | box in u.mailboxes && box.agent !in u.dismissed ensures CursorOk(u, box) && LiveOk(u, box) {
        SealedDelivery(env, t, agent, maxBytes, now, box);
      }
    }
  }

  lemma SealedBatches(t: Tables, u: Tables, b: Batch)
    requires BatchesOk(t) && b.id == t.nextId && u.nextId > t.nextId && u.batches == t.batches + [b]
    requires BoxOf(b) in t.mailboxes && b.agent !in t.dismissed && OpenBatch(t.batches, b.agent).None?
    requires u.mailboxes.Keys == t.mailboxes.Keys && u.dismissed == t.dismissed
    ensures BatchesOk(u)
  {
  }

  lemma SealedTables(env: Env, t: Tables, agent: Id, maxBytes: nat, now: int)
    requires Inv(env, t) && AfterSeal(env, t, agent, maxBytes, now).Success?
    requires agent !in t.dismissed && OpenBatch(t.batches, agent).None? && Pick(env, t, agent, t.order, now).Some?
    ensures var u := AfterSeal(env, t, agent, maxBytes, now).value.0;
            && MessagesOk(u) && BoxesOk(u) && BatchesOk(u) && u.mailboxes.Keys == t.mailboxes.Keys
            && u.dismissed == t.dismissed && PhasesOk(u, env.maxAutomatic) && OutboxOk(u)
  {
    var (u, sealed) := AfterSeal(env, t, agent, maxBytes, now).value;
    var box := BoxOf(sealed.value);
    assert u.mailboxes.Keys == t.mailboxes.Keys;
    assert BoxOk(t.mailboxes[box], t.nextSequence);
    SealedBatches(t, u, sealed.value);
    AcknowledgedPhases(env, t, u);
  }

  lemma StatusKeepsTables(env: Env, t: Tables, i: nat, status: BatchStatus)
    requires Inv(env, t) && i < |t.batches| && !t.batches[i].status.Done?
    ensures var u := t.(batches := t.batches[i := t.batches[i].(status := status)]);
            MessagesOk(u) && BoxesOk(u) && BatchesOk(u) && PhasesOk(u, env.maxAutomatic) && OutboxOk(u)
  {
    var u := t.(batches := t.batches[i := t.batches[i].(status := status)]);
    forall phase: Id ensures AgentMessages(u.messages, phase) == SentIn(u, phase) <= env.maxAutomatic {
      assert AgentMessages(t.messages, phase) == SentIn(t, phase) <= env.maxAutomatic;
    }
  }

  /** The same messages, mailboxes and finished batches, and the same open ones. */
  lemma SameBox(t: Tables, u: Tables, box: Box)
    requires u == t.(batches := u.batches) && |u.batches| == |t.batches|
    requires box in t.mailboxes && box.conversation in t.conversations && CursorOk(t, box) && LiveOk(t, box)
    requires Acknowledged(u.batches, box) == Acknowledged(t.batches, box)
    requires forall j :: 0 <= j < |t.batches| ==>
               && (OpenFor(u.batches[j], box) <==> OpenFor(t.batches[j], box))
               && u.batches[j].messages == t.batches[j].messages && u.batches[j].upper == t.batches[j].upper
    ensures CursorOk(u, box) && LiveOk(u, box)
  {
  }

  lemma HandedBox(t: Tables, u: Tables, i: nat, box: Box)
    requires BoxesOk(t) && BatchesOk(t) && i < |t.batches| && t.batches[i].status.Queued?
    requires u == t.(batches := t.batches[i := t.batches[i].(status := Handed)])
    requires box in t.mailboxes && CursorOk(t, box) && LiveOk(t, box)
    ensures CursorOk(u, box) && LiveOk(u, box)
  {
    AcknowledgedSet(t.batches, i, Handed, box);
    SameBox(t, u, box);
  }

  lemma DeliveredKeeps(env: Env, t: Tables, id: Id)
    requires Inv(env, t)
    ensures Inv(env, AfterDelivered(t, id))
  {
    var i := FindBatch(t.batches, id);
    if i.Some? && t.batches[i.value].status.Queued? {
      var u := AfterDelivered(t, id);
      StatusKeepsTables(env, t, i.value, Handed);
      forall box | box in u.mailboxes && box.agent !in u.dismissed ensures CursorOk(u, box) && LiveOk(u, box) {
        HandedBox(t, u, i.value, box);
      }
    }
  }

  lemma AcknowledgedBox(env: Env, t: Tables, id: Id, now: int)
    requires Inv(env, t) && AfterAcknowledge(t, id, now).Success?
    requires FindBatch(t.batches, id).Some? && !t.batches[FindBatch(t.batches, id).value].status.Done?
    ensures var u := AfterAcknowledge(t, id, now).value;
            var box := BoxOf(t.batches[FindBatch(t.batches, id).value]);
            && box in u.mailboxes && BoxOk(u.mailboxes[box], u.nextSequence)
            && CursorOk(u, box) && LiveOk(u, box)
  {
    var u := AfterAcknowledge(t, id, now).value;
    var i := FindBatch(t.batches, id).value;
    var b := t.batches[i];
    var box := BoxOf(b);
    var processed := t.mailboxes[box].processed;
    assert CursorOk(t, box) && OpenFor(b, box);
    var incoming := Beyond(t.messages, box.conversation, processed);
    assert b.messages == incoming[..|b.messages|];
    CutAt(t.messages, box.conversation, processed, |b.messages|);
    AcknowledgedSet(t.batches, i, Done, box);
    BeyondMembers(t.messages, box.conversation, processed);
    assert incoming[|b.messages| - 1] in incoming;
    assert u.mailboxes[box].processed == b.upper;
  }

  lemma MailboxSet(env: Env, t: Tables, box: Box, m: Mailbox)
    requires MessagesOk(t) && BoxesOk(t) && BatchesOk(t) && PhasesOk(t, env.maxAutomatic) && OutboxOk(t)
    requires box in t.mailboxes && BoxOk(m, t.nextSequence)
    ensures var u := t.(mailboxes := t.mailboxes[box := m]);
            && MessagesOk(u) && BoxesOk(u) && BatchesOk(u) && PhasesOk(u, env.maxAutomatic) && OutboxOk(u)
            && u.mailboxes.Keys == t.mailboxes.Keys
  {
    var u := t.(mailboxes := t.mailboxes[box := m]);
    AcknowledgedPhases(env, t, u);
    assert u.mailboxes.Keys == t.mailboxes.Keys;
  }

  lemma AcknowledgedTables(env: Env, t: Tables, id: Id, now: int)
    requires Inv(env, t) && AfterAcknowledge(t, id, now).Success?
    requires FindBatch(t.batches, id).Some? && !t.batches[FindBatch(t.batches, id).value].status.Done?
    ensures var u := AfterAcknowledge(t, id, now).value;
            && MessagesOk(u) && BoxesOk(u) && BatchesOk(u) && PhasesOk(u, env.maxAutomatic) && OutboxOk(u)
            && u.mailboxes.Keys == t.mailboxes.Keys
  {
    AcknowledgedBox(env, t, id, now);
    var u := AfterAcknowledge(t, id, now).value;
    var i := FindBatch(t.batches, id).value;
    var box := BoxOf(t.batches[i]);
    StatusKeepsTables(env, t, i, Done);
    var s := t.(batches := t.batches[i := t.batches[i].(status := Done)]);
    MailboxSet(env, s, box, u.mailboxes[box]);
    assert u == s.(mailboxes := s.mailboxes[box := u.mailboxes[box]]);
  }

  lemma AcknowledgeKeeps(env: Env, t: Tables, id: Id, now: int)
    requires Inv(env, t) && AfterAcknowledge(t, id, now).Success?
    ensures Inv(env, AfterAcknowledge(t, id, now).value)
  {
    var found := FindBatch(t.batches, id);
    if found.Some? && !t.batches[found.value].status.Done? {
      var u := AfterAcknowledge(t, id, now).value;
      AcknowledgedTables(env, t, id, now);
      AcknowledgedBox(env, t, id, now);
      forall box | box in u.mailboxes && box.agent !in u.dismissed ensures CursorOk(u, box) && LiveOk(u, box) {
        if box != BoxOf(t.batches[found.value]) {
          OtherBox(t, u, found.value, box);
        }
      }
    }
  }

  lemma AcknowledgedPhases(env: Env, t: Tables, u: Tables)
    requires PhasesOk(t, env.maxAutomatic) && u.messages == t.messages && u.phases == t.phases
    ensures PhasesOk(u, env.maxAutomatic)
  {
    forall phase: Id ensures AgentMessages(u.messages, phase) == SentIn(u, phase) <= env.maxAutomatic {
      assert AgentMessages(t.messages, phase) == SentIn(t, phase) <= env.maxAutomatic;
    }
  }

  /** Finishing a batch leaves every other mailbox as it was. */
  lemma OtherBox(t: Tables, u: Tables, i: nat, box: Box)
    requires BoxesOk(t) && BatchesOk(t) && i < |t.batches| && !t.batches[i].status.Done?
    requires u.batches == t.batches[i := t.batches[i].(status := Done)]
    requires u.messages == t.messages && u.conversations == t.conversations
    requires box in t.mailboxes && box in u.mailboxes && u.mailboxes[box] == t.mailboxes[box]
    requires box != BoxOf(t.batches[i]) && CursorOk(t, box) && LiveOk(t, box)
    ensures CursorOk(u, box) && LiveOk(u, box)
  {
    AcknowledgedSet(t.batches, i, Done, box);
    forall j | 0 <= j < |u.batches| ensures OpenFor(u.batches[j], box) <==> OpenFor(t.batches[j], box) {
    }
  }

  lemma DismissedTables(env: Env, t: Tables, agent: Id)
    requires Inv(env, t)
    ensures var u := AfterDismiss(t, agent);
            MessagesOk(u) && BoxesOk(u) && BatchesOk(u) && PhasesOk(u, env.maxAutomatic) && OutboxOk(u)
  {
    DismissedBatches(env, t, agent);
    AcknowledgedPhases(env, t, AfterDismiss(t, agent));
  }

  lemma DismissedBatches(env: Env, t: Tables, agent: Id)
    requires BatchesOk(t)
    ensures BatchesOk(AfterDismiss(t, agent))
  {
  }

  lemma DismissedBox(t: Tables, agent: Id, box: Box)
    requires BoxesOk(t) && BatchesOk(t) && box in t.mailboxes && box.agent != agent
    requires CursorOk(t, box) && LiveOk(t, box)
    ensures CursorOk(AfterDismiss(t, agent), box) && LiveOk(AfterDismiss(t, agent), box)
  {
    var u := AfterDismiss(t, agent);
    var open := OpenBatch(t.batches, agent);
    if open.Some? {
      OtherBox(t, u, open.value, box);
    } else {
      assert u.batches == t.batches;
    }
  }

  lemma DismissKeeps(env: Env, t: Tables, agent: Id)
    requires Inv(env, t)
    ensures Inv(env, AfterDismiss(t, agent))
  {
    var u := AfterDismiss(t, agent);
    DismissedTables(env, t, agent);
    forall box | box in u.mailboxes && box.agent !in u.dismissed ensures CursorOk(u, box) && LiveOk(u, box) {
      DismissedBox(t, agent, box);
    }
  }

  // ---- creating ----

  lemma {:induction false} NoneAcknowledged(batches: seq<Batch>, box: Box)
    requires forall i :: 0 <= i < |batches| ==> BoxOf(batches[i]) != box
    ensures Acknowledged(batches, box) == []
    decreases |batches|
  {
    if |batches| > 0 {
      NoneAcknowledged(batches[..|batches| - 1], box);
    }
  }

  lemma {:induction false} NoneUpTo(messages: seq<Message>, c: Id, p: nat)
    requires forall i :: 0 <= i < |messages| ==> messages[i].conversation != c
    ensures UpTo(messages, c, p) == [] && Beyond(messages, c, p) == []
    decreases |messages|
  {
    if |messages| > 0 {
      NoneUpTo(messages[..|messages| - 1], c, p);
    }
  }

  lemma CreatedBoxes(t: Tables, c: Conversation)
    requires BoxesOk(t) && AfterCreate(t, c).Success? && !(c.direct && DirectOf(c) in t.directs) && t.nextSequence > 0
    ensures var u := AfterCreate(t, c).value.0;
            && BoxesOk(u)
            && (forall box :: box in t.mailboxes ==> box in u.mailboxes && u.mailboxes[box] == t.mailboxes[box])
            && (forall box :: box in u.mailboxes && box !in t.mailboxes ==>
                  box.conversation == t.nextId && u.mailboxes[box] == Mailbox(0, None, None, 0))
  {
    var u := AfterCreate(t, c).value.0;
    forall box | box in u.mailboxes && box !in t.mailboxes
      ensures box.conversation == t.nextId && u.mailboxes[box] == Mailbox(0, None, None, 0)
              && Agent(box.agent) in c.members
    {
    }
  }

  lemma CreatedTables(env: Env, t: Tables, c: Conversation)
    requires Inv(env, t) && AfterCreate(t, c).Success? && !(c.direct && DirectOf(c) in t.directs)
    ensures var u := AfterCreate(t, c).value.0; MessagesOk(u) && BatchesOk(u) && OutboxOk(u)
  {
    CreatedBoxes(t, c);
  }

  lemma CreatedDelivery(t: Tables, u: Tables, box: Box)
    requires MessagesOk(t) && BoxesOk(t) && BatchesOk(t)
    requires u.messages == t.messages && u.batches == t.batches && box in u.mailboxes
    requires box.conversation in u.conversations && box !in t.mailboxes && box.conversation == t.nextId
    requires u.mailboxes[box] == Mailbox(0, None, None, 0)
    ensures CursorOk(u, box) && LiveOk(u, box)
  {
    NoneAcknowledged(t.batches, box);
    NoneUpTo(t.messages, t.nextId, 0);
  }

  lemma KeptDelivery(t: Tables, u: Tables, box: Box)
    requires u.messages == t.messages && u.batches == t.batches && box in t.mailboxes && box in u.mailboxes
    requires box.conversation in t.conversations && box.conversation in u.conversations
    requires u.conversations[box.conversation] == t.conversations[box.conversation]
    requires u.mailboxes[box] == t.mailboxes[box] && CursorOk(t, box) && LiveOk(t, box)
    ensures CursorOk(u, box) && LiveOk(u, box)
  {
  }

  lemma CreateKeeps(env: Env, t: Tables, c: Conversation)
    requires Inv(env, t)
    ensures AfterCreate(t, c).Success? ==> Inv(env, AfterCreate(t, c).value.0)
  {
    if AfterCreate(t, c).Success? && !(c.direct && DirectOf(c) in t.directs) {
      var u := AfterCreate(t, c).value.0;
      CreatedBoxes(t, c);
      CreatedTables(env, t, c);
      AcknowledgedPhases(env, t, u);
      forall box | box in u.mailboxes && box.agent !in u.dismissed ensures CursorOk(u, box) && LiveOk(u, box) {
        if box in t.mailboxes {
          KeptDelivery(t, u, box);
        } else {
          CreatedDelivery(t, u, box);
        }
      }
    }
  }

  // ---- deadlines ----

  /**
   * What a message does to the mailboxes of its conversation: the ones it is meant for get a deadline within the
   * maximal wait of their first arrival, no later than before if they were addressed and it is not; all others stay.
   */
  lemma SendDeadlines(env: Env, t: Tables, conversation: Id, sender: Member, input: Input, phase: Id, next: Id,
                      now: int, box: Box)
    requires Inv(env, t) && conversation in t.conversations && box in t.mailboxes && t.nextId <= next
    ensures var (u, m) := Posted(env, t, conversation, sender, input, phase, next, now);
            var before := t.mailboxes[box];
            && box in u.mailboxes
            && var after := u.mailboxes[box];
               if box.conversation == conversation && box.agent !in t.dismissed
                  && Meant(t.conversations[conversation], u.messages, m, box.agent) then
                 && after.dueAt.Some? && after.firstAt == Some(Or(before.firstAt, now))
                 && after.dueAt.value <= after.firstAt.value + env.maxWait
                 && (before.priority > 0 && !Addressed(u.messages, m, box.agent) ==>
                       after.dueAt.value <= before.dueAt.value)
               else after == before
  {
    var (u, m) := Posted(env, t, conversation, sender, input, phase, next, now);
    assert BoxOk(t.mailboxes[box], t.nextSequence);
    var c := t.conversations[conversation];
    var addressed := Addressed(u.messages, m, box.agent);
    ArrivalDeadline(env, t.mailboxes[box], now, if c.direct || addressed then env.quiet else env.groupQuiet, addressed,
                    t.nextSequence);
  }

  // ---- runs ----

  datatype Op =
    | Create(conversation: Conversation)
    | Send(to: Id, sender: Member, input: Input, phase: Option<Id>, limit: Option<nat>, at: int)
    | Seal(agent: Id, maxBytes: nat, at: int)
    | Delivered(batch: Id)
    | Acknowledge(batch: Id, at: int)
    | Dismiss(agent: Id)

  /** A transaction that throws is rolled back. */
  function Step(env: Env, t: Tables, op: Op): Tables {
    match op
    case Create(c) =>
      var r := AfterCreate(t, c);
      if r.Success? then r.value.0 else t
    case Send(to, sender, input, phase, limit, at) =>
      var r := AfterSend(env, t, to, sender, input, phase, limit, at);
      if r.Success? then r.value.0 else t
    case Seal(agent, maxBytes, at) =>
      var r := AfterSeal(env, t, agent, maxBytes, at);
      if r.Success? then r.value.0 else t
    case Delivered(id) => AfterDelivered(t, id)
    case Acknowledge(id, at) =>
      var r := AfterAcknowledge(t, id, at);
      if r.Success? then r.value else t
    case Dismiss(agent) => AfterDismiss(t, agent)
  }

  function Run(env: Env, t: Tables, ops: seq<Op>): Tables
    decreases |ops|
  {
    if |ops| == 0 then t else Run(env, Step(env, t, ops[0]), ops[1..])
  }

  lemma StepKeeps(env: Env, t: Tables, op: Op)
    requires Inv(env, t)
    ensures Inv(env, Step(env, t, op))
  {
    match op
    case Create(c) => CreateKeeps(env, t, c);
    case Send(to, sender, input, phase, limit, at) =>
      if AfterSend(env, t, to, sender, input, phase, limit, at).Success? {
        SendKeeps(env, t, to, sender, input, phase, limit, at);
      }
    case Seal(agent, maxBytes, at) => SealKeeps(env, t, agent, maxBytes, at);
    case Delivered(id) => DeliveredKeeps(env, t, id);
    case Acknowledge(id, at) =>
      if AfterAcknowledge(t, id, at).Success? {
        AcknowledgeKeeps(env, t, id, at);
      }
    case Dismiss(agent) => DismissKeeps(env, t, agent);
  }

  lemma {:induction false} RunKeeps(env: Env, t: Tables, ops: seq<Op>)
    requires Inv(env, t)
    ensures Inv(env, Run(env, t, ops))
    decreases |ops|
  {
    if |ops| > 0 {
      StepKeeps(env, t, ops[0]);
      RunKeeps(env, Step(env, t, ops[0]), ops[1..]);
    }
  }

  lemma EmptyInv(env: Env)
    ensures Inv(env, NO_TABLES)
  {
  }

  /**
   * For an agent that is not dismissed, the finished batches of a conversation are, one after the other, exactly
   * the conversation's messages up to the processed cursor, and an open batch continues there.
   */
  lemma BatchesTile(env: Env, ops: seq<Op>, box: Box)
    ensures var t := Run(env, NO_TABLES, ops);
            box in t.mailboxes && box.agent !in t.dismissed ==>
              var processed := t.mailboxes[box].processed;
              && Acknowledged(t.batches, box) == UpTo(t.messages, box.conversation, processed)
              && (forall i :: 0 <= i < |t.batches| && OpenFor(t.batches[i], box) ==>
                    t.batches[i].messages <= Beyond(t.messages, box.conversation, processed))
  {
    EmptyInv(env);
    RunKeeps(env, NO_TABLES, ops);
    var t := Run(env, NO_TABLES, ops);
    if box in t.mailboxes && box.agent !in t.dismissed {
      assert CursorOk(t, box);
    }
  }

  lemma OneOpenBatch(env: Env, ops: seq<Op>, i: nat, j: nat)
    ensures var t := Run(env, NO_TABLES, ops);
            i < j < |t.batches| && t.batches[i].agent == t.batches[j].agent ==> t.batches[i].status.Done?
  {
    EmptyInv(env);
    RunKeeps(env, NO_TABLES, ops);
  }

  /** No message meant for a live agent is ever left without a deadline or an open batch before it. */
  lemma MailboxLive(env: Env, ops: seq<Op>, box: Box, m: Message)
    ensures var t := Run(env, NO_TABLES, ops);
            && box in t.mailboxes && box.agent !in t.dismissed
            && box.conversation in t.conversations
            && m in Beyond(t.messages, box.conversation, t.mailboxes[box].processed)
            && Meant(t.conversations[box.conversation], t.messages, m, box.agent) ==>
              t.mailboxes[box].dueAt.Some? || exists i :: 0 <= i < |t.batches| && OpenFor(t.batches[i], box)
  {
    EmptyInv(env);
    RunKeeps(env, NO_TABLES, ops);
    var t := Run(env, NO_TABLES, ops);
    if box in t.mailboxes && box.agent !in t.dismissed && box.conversation in t.conversations
       && m in Beyond(t.messages, box.conversation, t.mailboxes[box].processed)
       && Meant(t.conversations[box.conversation], t.messages, m, box.agent)
    {
      assert LiveOk(t, box);
      var pending := Beyond(t.messages, box.conversation, t.mailboxes[box].processed);
      var i :| 0 <= i < |pending| && pending[i] == m;
      assert SomeMeant(t, box);
    }
  }

  /** However often agents answer each other, one phase never carries more than the allowed number of their messages. */
  lemma PhaseBounded(env: Env, ops: seq<Op>, phase: Id)
    ensures AgentMessages(Run(env, NO_TABLES, ops).messages, phase) <= env.maxAutomatic
  {
    EmptyInv(env);
    RunKeeps(env, NO_TABLES, ops);
    assert AgentMessages(Run(env, NO_TABLES, ops).messages, phase) == SentIn(Run(env, NO_TABLES, ops), phase);
  }
}
