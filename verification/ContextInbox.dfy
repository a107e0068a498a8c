/** Moving deliveries from the durable inbox into the active frame, within its capacity. */
module ContextInbox {
  import opened Basics
  import opened ContextModel
  import opened ContextSummaries

  /** The live frame a delivery was aimed at, if that frame still follows the same plan. */
  function TargetFrame(c: Context, d: Delivery): Option<Frame> {
    if d.target.None? then Some(c.level1) else FindAt(Frames(c), d.target.value)
  }

  function FindAt(fs: seq<Frame>, cursor: Cursor): (f: Option<Frame>)
    ensures f.Some? ==> f.value in fs && AtCursor(f.value, cursor)
    ensures f.None? ==> forall i :: 0 <= i < |fs| ==> !AtCursor(fs[i], cursor)
  {
    if |fs| == 0 then None
    else if AtCursor(fs[0], cursor) then Some(fs[0])
    else FindAt(fs[1..], cursor)
  }

  /** The frame that receives a delivery: its target, or the root when the target is gone. */
  function Receiver(c: Context, d: Delivery): Frame {
    var target := TargetFrame(c, d);
    if target.Some? then target.value else c.level1
  }

  /** What is recorded: the entries themselves, or one notice that names the stale input. */
  function Absorbed(c: Context, d: Delivery, notice: Id): seq<Entry> {
    if TargetFrame(c, d).Some? then d.entries
    else [Entry(Notice(notice), 0, Event("stale_context_input", Fields(map["sourceRef" := Word(InputRef(d.key))])))]
  }

  function NoticesDrawn(c: Context, d: Delivery): nat {
    if TargetFrame(c, d).Some? then 0 else 1
  }

  function Without(inbox: seq<Delivery>, key: string): seq<Delivery> {
    if |inbox| == 0 then []
    else if inbox[0].key == key then Without(inbox[1..], key)
    else [inbox[0]] + Without(inbox[1..], key)
  }

  function AfterDrain(size: Sizes, d: Draft): Result<Draft, Error> {
    if d.state.pending.Some? then Success(d) else DrainFrom(size, d, d.state.inbox)
  }

  /** A delivery waits while its receiver is not the active frame. */
  predicate Waits(c: Context, d: Delivery) {
    Receiver(c, d).id != Active(c).id
  }

  /** The draft once the delivery's entries are in the receiver's memory and out of the inbox. */
  function Absorb(d: Draft, delivery: Delivery, context: Context): Draft {
    d.(next := d.next + NoticesDrawn(d.state.context, delivery),
       state := d.state.(context := context, inbox := Without(d.state.inbox, delivery.key), runnable := true))
  }

  /** What one delivery does to a drain: the drain goes on with a draft, or ends with a result. */
  datatype DrainStep = Go(draft: Draft) | End(result: Result<Draft, Error>)

  function Deliver(size: Sizes, d: Draft, delivery: Delivery): DrainStep {
    var c := d.state.context;
    if Waits(c, delivery) then Go(d)
    else
      var frame := Receiver(c, delivery);
      var updated := AppendEntries(frame, Absorbed(c, delivery, d.next));
      if size.frame(updated) > frame.budget.maxTokens then
        if |frame.memory.recentEntries| == 0 then End(Failure(BudgetExceeded))
        else End(AfterSchedule(d.(next := d.next + NoticesDrawn(c, delivery)), Compact, ""))
      else
        var replaced := ReplaceFrame(c, updated);
        if replaced.Failure? then End(Failure(replaced.error))
        else
          var absorbed := Absorb(d, delivery, replaced.value);
          if Active(replaced.value).id == frame.id && size.frame(updated) >= frame.budget.compactAtTokens then
            End(AfterSchedule(absorbed, Compact, ""))
          else Go(absorbed)
  }

  function DrainFrom(size: Sizes, d: Draft, rest: seq<Delivery>): Result<Draft, Error>
    decreases |rest|
  {
    if |rest| == 0 then
      var frame := Active(d.state.context);
      if size.frame(frame) >= frame.budget.compactAtTokens then AfterSchedule(d, Compact, "") else Success(d)
    else
      match Deliver(size, d, rest[0])
      case Go(next) => DrainFrom(size, next, rest[1..])
      case End(result) => result
  }

  method DeliverOne(size: Sizes, m: Mutation, delivery: Delivery) returns (ended: bool, error: Option<Error>)
    modifies m
    ensures match Deliver(size, old(m.Value()), delivery)
            case Go(next) => !ended && error.None? && m.Value() == next
            case End(result) => ended && Agrees(error, m.Value(), result)
  {
    var c := m.state.context;
    var target := TargetFrame(c, delivery);
    var frame := if target.Some? then target.value else c.level1;
    if frame.id != Active(c).id {
      return false, None;
    }
    var entries := delivery.entries;
    if target.None? {
      entries := Absorbed(c, delivery, m.next);
      m.next := m.next + 1;
    }
    var updated := AppendEntries(frame, entries);
    if size.frame(updated) > frame.budget.maxTokens {
      ended := true;
      if |frame.memory.recentEntries| == 0 {
        error := Some(BudgetExceeded);
      } else {
        error := ScheduleSummary(m, Compact, "");
      }
      return;
    }
    var replaced := ReplaceFrame(c, updated);
    if replaced.Failure? {
      return true, Some(replaced.error);
    }
    m.state := m.state.(context := replaced.value, inbox := Without(m.state.inbox, delivery.key), runnable := true);
    if Active(m.state.context).id == frame.id && size.frame(updated) >= frame.budget.compactAtTokens {
      ended := true;
      error := ScheduleSummary(m, Compact, "");
      return;
    }
    return false, None;
  }

  /** Offers every delivery of the inbox once, in order, and schedules a compaction when the frame is full. */
  method DrainInbox(size: Sizes, m: Mutation) returns (error: Option<Error>)
    modifies m
    ensures Agrees(error, m.Value(), AfterDrain(size, old(m.Value())))
  {
    if m.state.pending.Some? {
      return None;
    }
    var inbox := m.state.inbox;
    for i := 0 to |inbox|
      invariant AfterDrain(size, old(m.Value())) == DrainFrom(size, m.Value(), inbox[i..])
    {
      assert inbox[i..][0] == inbox[i] && inbox[i..][1..] == inbox[i + 1..];
      var ended;
      ended, error := DeliverOne(size, m, inbox[i]);
      if ended {
        return;
      }
    }
    assert inbox[|inbox|..] == [];
    var frame := Active(m.state.context);
    if size.frame(frame) >= frame.budget.compactAtTokens {
      error := ScheduleSummary(m, Compact, "");
      return;
    }
    return None;
  }
}
