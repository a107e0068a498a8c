/** The store object: a transaction works on a copy of the tables and publishes it whole. */
module ConversationStore {
  import opened Basics
  import opened Conversations
  import opened ConversationRules

  class Store {
    const env: Env
    var tables: Tables

    constructor (env: Env)
      ensures this.env == env && tables == NO_TABLES && Valid()
    {
      this.env, tables := env, NO_TABLES;
      new;
      EmptyInv(env);
    }

    ghost predicate Valid()
      reads this
    {
      Inv(env, tables)
    }

    /** The creating transaction, on its own copy of the tables. */
    method Creating(c: Conversation) returns (r: Result<(Tables, Id), Fault>)
      ensures r == AfterCreate(tables, c)
    {
      if !ConversationShape(c) || !DistinctMembers(c.members) || (c.direct && |c.members| != 2) {
        return Failure(BadMembers);
      }
      var key := DirectOf(c);
      if c.direct && key in tables.directs {
        return Success((tables, tables.directs[key]));
      }
      var t := tables;
      var id := t.nextId;
      t := t.(nextId := id + 1, conversations := t.conversations[id := c], order := t.order + [id]);
      if c.direct {
        t := t.(directs := t.directs[key := id]);
      }
      var mailboxes := OpenMailboxes(t.mailboxes, c.members, id);
      return Success((t.(mailboxes := mailboxes), id));
    }

    method Create(c: Conversation) returns (r: Result<Id, Fault>)
      requires Valid()
      modifies this
      ensures Valid()
      ensures match AfterCreate(old(tables), c)
              case Success(done) => r == Success(done.1) && tables == done.0
              case Failure(fault) => r == Failure(fault) && tables == old(tables)
    {
      var created := Creating(c);
      if created.Failure? {
        return Failure(created.error);
      }
      CreateKeeps(env, tables, c);
      tables := created.value.0;
      return Success(created.value.1);
    }

    /** An empty mailbox for every agent among the members. */
    method OpenMailboxes(before: map<Box, Mailbox>, members: seq<Member>, id: Id) returns (mailboxes: map<Box, Mailbox>)
      ensures mailboxes == before + map m | m in members && m.Agent? :: Box(m.agent, id) := Mailbox(0, None, None, 0)
    {
      mailboxes := before;
      for i := 0 to |members|
        invariant mailboxes == before + map m | m in members[..i] && m.Agent? ::
                    Box(m.agent, id) := Mailbox(0, None, None, 0)
      {
        assert members[..i + 1] == members[..i] + [members[i]];
        if members[i].Agent? {
          mailboxes := mailboxes[Box(members[i].agent, id) := Mailbox(0, None, None, 0)];
        }
      }
      assert members[..|members|] == members;
    }

    /** Walks over the members and gives each mailbox the message is meant for its new deadline. */
    method Notify(t: Tables, c: Conversation, m: Message) returns (mailboxes: map<Box, Mailbox>)
      requires DistinctMembers(c.members)
      ensures mailboxes == Spread(env, t, c, m, c.members)
    {
      mailboxes := t.mailboxes;
      assert mailboxes == Spread(env, t, c, m, []);
      for i := 0 to |c.members|
        invariant mailboxes == Spread(env, t, c, m, c.members[..i])
      {
        var member := c.members[i];
        assert c.members[..i + 1] == c.members[..i] + [member];
        if member.Agent? && member.agent !in t.dismissed && Meant(c, t.messages, m, member.agent) {
          var box := Box(member.agent, m.conversation);
          if box in mailboxes {
            assert member !in c.members[..i];
            var addressed := Addressed(t.messages, m, member.agent);
            var quiet := if c.direct || addressed then env.quiet else env.groupQuiet;
            mailboxes := mailboxes[box := Arrival(env, mailboxes[box], m.createdAt, quiet, addressed)];
          }
        }
      }
      assert c.members[..|c.members|] == c.members;
    }

    /** The answer to a key that was used before. */
    method Known(key: OutKey, fingerprint: Fingerprint) returns (r: Result<(Tables, Message), Fault>)
      requires key in tables.outbox
      ensures var sent := tables.outbox[key];
              var known := FindMessage(tables.messages, sent.message);
              r == if sent.fingerprint != fingerprint then Failure(KeyReused)
                   else if known.Some? then Success((tables, known.value)) else Failure(Missing)
    {
      if tables.outbox[key].fingerprint != fingerprint {
        return Failure(KeyReused);
      }
      var known := FindMessage(tables.messages, tables.outbox[key].message);
      return if known.Some? then Success((tables, known.value)) else Failure(Missing);
    }

    /** The sending transaction, on its own copy of the tables. */
    method Sending(to: Id, sender: Member, input: Input, phase: Option<Id>, limit: Option<nat>, now: int)
      returns (r: Result<(Tables, Message), Fault>)
      requires forall c :: c in tables.conversations ==> DistinctMembers(tables.conversations[c].members)
      ensures r == AfterSend(env, tables, to, sender, input, phase, limit, now)
    {
      var fault := CheckSend(env, tables, to, sender, input);
      if fault.Some? {
        return Failure(fault.value);
      }
      var key := OutKeyOf(tables, to, sender, input);
      if key in tables.outbox {
        r := Known(key, FingerprintOf(to, input));
        return;
      }
      if sender.Agent? && phase.None? {
        return Failure(NoPhase);
      }
      var t := tables;
      var used := if sender.User? then t.nextId else phase.value;
      if sender.User? {
        t := t.(nextId := t.nextId + 1);
      }
      r := Posting(t.nextId, to, sender, input, used, limit, now);
    }

    /** The rest of a sending transaction, once its phase is known and the first free identity is `next`. */
    method Posting(next: Id, to: Id, sender: Member, input: Input, used: Id, limit: Option<nat>, now: int)
      returns (r: Result<(Tables, Message), Fault>)
      requires to in tables.conversations && DistinctMembers(tables.conversations[to].members)
      ensures var (u, m) := Posted(env, tables, to, sender, input, used, next, now);
              r == if sender.Agent? && SentIn(tables, used) >= env.maxAutomatic then Failure(Loop)
                   else if limit.Some? && env.size(m) + 1200 > limit.value then Failure(Protocol)
                   else Success((u, m))
    {
      var charged := Charge(tables.(nextId := next), used, sender);
      if charged.None? {
        return Failure(Loop);
      }
      var t := charged.value;
      var m := Message(t.nextId, t.nextSequence, to, sender, input.content, now, input.replyTo, input.mentions, used);
      t := t.(messages := t.messages + [m], nextId := t.nextId + 1, nextSequence := t.nextSequence + 1);
      if limit.Some? && env.size(m) + 1200 > limit.value {
        return Failure(Protocol);
      }
      var key := OutKeyOf(tables, to, sender, input);
      t := t.(outbox := t.outbox[key := Sent(FingerprintOf(to, input), m.id)]);
      var mailboxes := Notify(t, t.conversations[to], m);
      return Success((t.(mailboxes := mailboxes), m));
    }

    /** Opens the phase if it is new; an agent's message uses up one of its places. */
    method Charge(t: Tables, phase: Id, sender: Member) returns (r: Option<Tables>)
      ensures r == if sender.Agent? && SentIn(t, phase) >= env.maxAutomatic then None
                   else Some(t.(phases := t.phases[phase := SentIn(t, phase) + if sender.Agent? then 1 else 0]))
    {
      var phases := if phase in t.phases then t.phases else t.phases[phase := 0];
      if sender.Agent? {
        if phases[phase] >= env.maxAutomatic {
          return None;
        }
        phases := phases[phase := phases[phase] + 1];
      }
      assert phases == t.phases[phase := SentIn(t, phase) + if sender.Agent? then 1 else 0];
      return Some(t.(phases := phases));
    }

    method Send(to: Id, sender: Member, input: Input, phase: Option<Id>, limit: Option<nat>, now: int)
      returns (r: Result<Message, Fault>)
      requires Valid()
      modifies this
      ensures Valid()
      ensures match AfterSend(env, old(tables), to, sender, input, phase, limit, now)
              case Success(done) => r == Success(done.1) && tables == done.0
              case Failure(fault) => r == Failure(fault) && tables == old(tables)
    {
      var sent := Sending(to, sender, input, phase, limit, now);
      if sent.Failure? {
        return Failure(sent.error);
      }
      SendKeepsInv(tables, to, sender, input, phase, limit, now);
      tables := sent.value.0;
      return Success(sent.value.1);
    }

    lemma SendKeepsInv(t: Tables, to: Id, sender: Member, input: Input, phase: Option<Id>, limit: Option<nat>, now: int)
      requires Inv(env, t)
      ensures AfterSend(env, t, to, sender, input, phase, limit, now).Success? ==>
                Inv(env, AfterSend(env, t, to, sender, input, phase, limit, now).value.0)
    {
      if AfterSend(env, t, to, sender, input, phase, limit, now).Success? {
        SendKeeps(env, t, to, sender, input, phase, limit, now);
      }
    }

    /** Takes messages from the front while the batch has room. */
    method Select(incoming: seq<Message>, maxBytes: nat) returns (selected: seq<Message>)
      ensures selected == incoming[..Fill(env, incoming, 800, 0, maxBytes)]
    {
      selected := [];
      var bytes := 800;
      var i := 0;
      while i < |incoming| && bytes + env.size(incoming[i]) + 400 <= maxBytes && i < 16
        invariant 0 <= i <= |incoming| && selected == incoming[..i] && bytes >= 0
        invariant Fill(env, incoming, 800, 0, maxBytes) == i + Fill(env, incoming[i..], bytes, i, maxBytes)
      {
        assert incoming[i..][0] == incoming[i] && incoming[i..][1..] == incoming[i + 1..];
        selected := selected + [incoming[i]];
        bytes := bytes + env.size(incoming[i]) + 400;
        i := i + 1;
      }
    }

    /** The sealing transaction, on its own copy of the tables. */
    method Sealing(agent: Id, maxBytes: nat, now: int) returns (r: Result<(Tables, Option<Batch>), Fault>)
      ensures r == AfterSeal(env, tables, agent, maxBytes, now)
    {
      if agent in tables.dismissed {
        return Success((tables, None));
      }
      var active := OpenBatch(tables.batches, agent);
      if active.Some? {
        return Success((tables, Some(tables.batches[active.value])));
      }
      var picked := Pick(env, tables, agent, tables.order, now);
      if picked.None? {
        return Success((tables, None));
      }
      var box := Box(agent, picked.value);
      var incoming := Beyond(tables.messages, picked.value, tables.mailboxes[box].processed);
      var selected := Select(incoming, maxBytes);
      if |selected| == 0 {
        return Failure(TooLarge);
      }
      var last := selected[|selected| - 1];
      var batch := Batch(tables.nextId, agent, picked.value, last.sequence, last.phase, selected, Queued);
      var t := tables.(batches := tables.batches + [batch], nextId := tables.nextId + 1);
      t := t.(mailboxes := t.mailboxes[box := EMPTIED(t.mailboxes[box])]);
      return Success((t, Some(batch)));
    }

    method Seal(agent: Id, maxBytes: nat, now: int) returns (r: Result<Option<Batch>, Fault>)
      requires Valid()
      modifies this
      ensures Valid()
      ensures match AfterSeal(env, old(tables), agent, maxBytes, now)
              case Success(done) => r == Success(done.1) && tables == done.0
              case Failure(fault) => r == Failure(fault) && tables == old(tables)
    {
      var sealed := Sealing(agent, maxBytes, now);
      if sealed.Failure? {
        return Failure(sealed.error);
      }
      SealKeeps(env, tables, agent, maxBytes, now);
      tables := sealed.value.0;
      return Success(sealed.value.1);
    }

    method Delivered(id: Id)
      requires Valid()
      modifies this
      ensures Valid() && tables == AfterDelivered(old(tables), id)
    {
      DeliveredKeeps(env, tables, id);
      var i := FindBatch(tables.batches, id);
      if i.Some? && tables.batches[i.value].status.Queued? {
        var batch := tables.batches[i.value].(status := Handed);
        tables := tables.(batches := tables.batches[i.value := batch]);
      }
    }

    method Acknowledge(id: Id, now: int) returns (error: Option<Fault>)
      requires Valid()
      modifies this
      ensures Valid()
      ensures match AfterAcknowledge(old(tables), id, now)
              case Success(t) => error.None? && tables == t
              case Failure(fault) => error == Some(fault) && tables == old(tables)
    {
      if AfterAcknowledge(tables, id, now).Success? {
        AcknowledgeKeeps(env, tables, id, now);
      }
      var i := FindBatch(tables.batches, id);
      if i.None? || tables.batches[i.value].status.Done? {
        return None;
      }
      var batch := tables.batches[i.value];
      var t := tables.(batches := tables.batches[i.value := batch.(status := Done)]);
      var box := Box(batch.agent, batch.conversation);
      if batch.conversation !in t.conversations {
        return Some(Missing);
      }
      if box in t.mailboxes {
        var mailbox := t.mailboxes[box];
        if mailbox.processed < batch.upper {
          mailbox := mailbox.(processed := batch.upper);
        }
        var pending := FirstMeant(t.conversations[batch.conversation], t.messages,
                                  Beyond(t.messages, batch.conversation, batch.upper), batch.agent);
        if pending.Some? {
          mailbox := mailbox.(firstAt := Some(Or(mailbox.firstAt, pending.value.createdAt)),
                              dueAt := Some(Or(mailbox.dueAt, now)));
        }
        t := t.(mailboxes := t.mailboxes[box := mailbox]);
      }
      tables := t;
      return None;
    }

    method Dismiss(agent: Id)
      requires Valid()
      modifies this
      ensures Valid() && tables == AfterDismiss(old(tables), agent)
    {
      DismissKeeps(env, tables, agent);
      var t := tables.(dismissed := tables.dismissed + {agent});
      var active := OpenBatch(t.batches, agent);
      if active.Some? {
        var batch := t.batches[active.value].(status := Done);
        t := t.(batches := t.batches[active.value := batch]);
      }
      var mailboxes := Silence(t.mailboxes, agent);
      tables := t.(mailboxes := mailboxes);
    }

    /** Takes every deadline from the agent's mailboxes; the cursors stay. */
    method Silence(before: map<Box, Mailbox>, agent: Id) returns (mailboxes: map<Box, Mailbox>)
      ensures mailboxes == map box | box in before :: if box.agent == agent then EMPTIED(before[box]) else before[box]
    {
      mailboxes := before;
      var left := before.Keys;
      while left != {}
        invariant left <= before.Keys && mailboxes.Keys == before.Keys
        invariant forall box :: box in before ==>
                    mailboxes[box] == if box.agent == agent && box !in left then EMPTIED(before[box]) else before[box]
        decreases |left|
      {
        var box :| box in left;
        if box.agent == agent {
          mailboxes := mailboxes[box := EMPTIED(before[box])];
        }
        left := left - {box};
      }
    }
  }
}
