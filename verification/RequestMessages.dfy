/** Requests as message lists: how changes travel as JSON and a reader rebuilds the view. */
module RequestMessages {
  import opened Basics
  import opened RequestView

  /** `Opaque` stands for content that is not text, is not JSON, or is JSON the schema refuses. */
  datatype Content = Opaque | Parsed(data: Json)

  datatype Message = Message(user: bool, content: Content)

  function Get(v: Json, k: Key): Option<Json> {
    if v.Obj? && k in v.fields then Some(v.fields[k]) else None
  }

  // ---- changes as JSON ----

  function Texts(path: seq<string>): (items: seq<Json>)
    ensures |items| == |path|
  {
    seq(|path|, i requires 0 <= i < |path| => Str(path[i]))
  }

  function EncodeChange(c: Change): Json {
    var path: map<Key, Json> := map["path" := Arr(Texts(c.path))];
    match c.edit
    case Set(value) => Obj(path["value" := value])
    case Append(items) => Obj(path["append" := Arr(items)])
    case Remove => Obj(path["remove" := Bool(true)])
    case Nothing => Obj(path)
  }

  predicate PathData(v: Option<Json>) {
    v.Some? && v.value.Arr? && |v.value.items| > 0 && forall i :: 0 <= i < |v.value.items| ==> v.value.items[i].Str?
  }

  function PathOf(items: seq<Json>): (path: seq<string>)
    requires forall i :: 0 <= i < |items| ==> items[i].Str?
    ensures |path| == |items|
  {
    seq(|items|, i requires 0 <= i < |items| => items[i].text)
  }

  function EditOf(v: Json): Edit {
    var append, value := Get(v, "append"), Get(v, "value");
    if Get(v, "remove") == Some(Bool(true)) then Remove
    else if append.Some? && append.value.Arr? then Append(append.value.items)
    else if value.Some? then Set(value.value)
    else Nothing
  }

  function DecodeChange(v: Json): (r: Result<Change, ViewError>)
    ensures r.Success? ==> |r.value.path| > 0
  {
    if !PathData(Get(v, "path")) then Failure(InvalidPath)
    else
      Success(Change(PathOf(Get(v, "path").value.items), EditOf(v)))
  }

  lemma ChangeRoundTrip(c: Change)
    ensures DecodeChange(EncodeChange(c)) == if |c.path| == 0 then Failure(InvalidPath) else Success(c)
  {
    var v := EncodeChange(c);
    assert Get(v, "path") == Some(Arr(Texts(c.path)));
    if |c.path| > 0 {
      assert PathOf(Texts(c.path)) == c.path;
    }
  }

  // ---- reading ----

  function ReadChanges(view: Json, changes: seq<Json>): Result<Json, ViewError>
    decreases |changes|
  {
    if |changes| == 0 then Success(view)
    else
      var change :- DecodeChange(changes[0]);
      var next :- PatchFrom(view, change, 0);
      ReadChanges(next, changes[1..])
  }

  /** The reader passes over everything but a user message that holds a JSON object. */
  predicate Ignored(m: Message) {
    !m.user || m.content.Opaque? || !m.content.data.Obj?
  }

  function Interpret(view: Json, m: Message): Result<Json, ViewError> {
    if Ignored(m) then Success(view)
    else
      var data := m.content.data;
      var kind, base, changes := Get(data, "kind"), Get(data, "view"), Get(data, "changes");
      if kind == Some(Str("runtime_context")) && base.Some? && base.value.Obj? then Success(base.value)
      else if kind == Some(Str("runtime_update")) && changes.Some? && changes.value.Arr? then
        ReadChanges(view, changes.value.items)
      else Success(data)
  }

  function ReadFrom(view: Json, messages: seq<Message>): Result<Json, ViewError>
    decreases |messages|
  {
    if |messages| == 0 then Success(view)
    else
      var next :- Interpret(view, messages[0]);
      ReadFrom(next, messages[1..])
  }

  const EMPTY_VIEW := Obj(map[])

  /** Rebuilds the current view of a request, message by message and change by change. */
  method ReadRuntimeRequest(messages: seq<Message>) returns (r: Result<Json, ViewError>)
    ensures r == ReadFrom(EMPTY_VIEW, messages)
  {
    var view := EMPTY_VIEW;
    for i := 0 to |messages|
      invariant ReadFrom(EMPTY_VIEW, messages) == ReadFrom(view, messages[i..])
    {
      assert messages[i..][0] == messages[i] && messages[i..][1..] == messages[i + 1..];
      var m := messages[i];
      if Ignored(m) {
        continue;
      }
      var data := m.content.data;
      var kind, base, changes := Get(data, "kind"), Get(data, "view"), Get(data, "changes");
      if kind == Some(Str("runtime_context")) && base.Some? && base.value.Obj? {
        view := base.value;
      } else if kind == Some(Str("runtime_update")) && changes.Some? && changes.value.Arr? {
        ghost var start := view;
        var items := changes.value.items;
        for j := 0 to |items|
          invariant ReadChanges(start, items) == ReadChanges(view, items[j..])
        {
          assert items[j..][0] == items[j] && items[j..][1..] == items[j + 1..];
          var change := DecodeChange(items[j]);
          if change.Failure? {
            return Failure(change.error);
          }
          var next := PatchFrom(view, change.value, 0);
          if next.Failure? {
            return Failure(next.error);
          }
          view := next.value;
        }
      } else {
        view := data;
      }
    }
    return Success(view);
  }

  // ---- writing ----

  /** Collects changes while it walks two views side by side. */
  class Comparison {
    const n: Notation
    var changes: seq<Change>

    constructor (n: Notation)
      ensures this.n == n && changes == []
    {
      this.n, changes := n, [];
    }

    method Compare(was: Slot, now: Slot, path: seq<string>)
      requires was.Own? || now.Own?
      modifies this
      ensures changes == old(changes) + Visit(n, was, now, path)
      decreases BothOwn(was, now), if was.Own? then was.value else Null, 1
    {
      if BothOwn(was, now) && n.same(path, was.value, now.value) {
        return;
      }
      if now.Absent? {
        changes := changes + [Change(path, Remove)];
        return;
      }
      if BothOwn(was, now) && was.value.Obj? && now.value.Obj? {
        CompareMembers(was.value, now.value, path, n.order(path, was.value.fields.Keys + now.value.fields.Keys));
      } else if BothOwn(was, now) && was.value.Arr? && now.value.Arr?
        && Grows(n, was.value.items, now.value.items, path) {
        changes := changes + [Change(path, Append(now.value.items[|was.value.items|..]))];
      } else if BothOwn(was, now) && was.value.Arr? && now.value.Arr? && |was.value.items| == |now.value.items| {
        CompareItems(was.value, now.value, path);
      } else {
        // A function in place of a value does not survive being written as JSON.
        changes := changes + [Change(path, if now.Own? then Set(now.value) else Nothing)];
      }
    }

    method CompareMembers(was: Json, now: Json, path: seq<string>, keys: seq<Key>)
      requires was.Obj? && now.Obj?
      modifies this
      ensures changes == old(changes) + VisitMembers(n, was, now, path, keys)
      decreases true, was, 0
    {
      for i := 0 to |keys|
        invariant changes + VisitMembers(n, was, now, path, keys[i..])
                  == old(changes) + VisitMembers(n, was, now, path, keys)
      {
        assert keys[i..][0] == keys[i] && keys[i..][1..] == keys[i + 1..];
        var before, after := Lookup(was, keys[i]), Lookup(now, keys[i]);
        if before.Own? || after.Own? {
          Compare(before, after, path + [keys[i]]);
        }
      }
    }

    method CompareItems(was: Json, now: Json, path: seq<string>)
      requires was.Arr? && now.Arr? && |was.items| == |now.items|
      modifies this
      ensures changes == old(changes) + VisitItems(n, was, now, path, 0)
      decreases true, was, 0
    {
      for i := 0 to |now.items|
        invariant changes + VisitItems(n, was, now, path, i) == old(changes) + VisitItems(n, was, now, path, 0)
      {
        Compare(Own(was.items[i]), Own(now.items[i]), path + [Decimal(i)]);
      }
    }
  }

  function EncodeChanges(changes: seq<Change>): (items: seq<Json>)
    ensures |items| == |changes|
  {
    seq(|changes|, i requires 0 <= i < |changes| => EncodeChange(changes[i]))
  }

  function Base(view: Json): Message {
    Message(true, Parsed(Obj(map["kind" := Str("runtime_context"), "view" := view])))
  }

  function Update(n: Notation, before: Json, after: Json): Message
    requires before.Obj? && after.Obj?
  {
    Message(true, Parsed(Obj(map[
      "kind" := Str("runtime_update"),
      "changes" := Arr(EncodeChanges(RequestChanges(n, before, after)))])))
  }

  // ---- round trips ----

  lemma {:induction false} ReadEncoded(view: Json, changes: seq<Change>)
    requires Deeper(changes, 0)
    ensures ReadChanges(view, EncodeChanges(changes)) == PatchAll(view, changes, 0)
    decreases |changes|
  {
    if |changes| > 0 {
      ChangeRoundTrip(changes[0]);
      assert EncodeChanges(changes)[1..] == EncodeChanges(changes[1..]);
      if PatchFrom(view, changes[0], 0).Success? {
        ReadEncoded(PatchFrom(view, changes[0], 0).value, changes[1..]);
      }
    }
  }

  lemma UpdateInterpreted(n: Notation, s: Json, before: Json, after: Json)
    requires before.Obj? && after.Obj?
    ensures Interpret(s, Update(n, before, after)) == ReadChanges(s, EncodeChanges(RequestChanges(n, before, after)))
  {
    var changes := EncodeChanges(RequestChanges(n, before, after));
    var data := Update(n, before, after).content.data;
    assert Get(data, "kind") == Some(Str("runtime_update")) && Get(data, "changes") == Some(Arr(changes));
  }

  /** One update, read by whoever holds `before` or `before` with leftovers of earlier removals. */
  lemma UpdateReads(n: Notation, s: Json, before: Json, after: Json)
    requires Faithful(n) && before.Obj? && after.Obj? && Covers(s, before)
    ensures var r := Interpret(s, Update(n, before, after));
            r.Success? && Covers(r.value, after) && (s == before ==> r.value == Reached(before, after))
  {
    PatchChanges(n, s, before, after);
    ReadEncoded(s, RequestChanges(n, before, after));
    UpdateInterpreted(n, s, before, after);
  }

  /** Reading an update gives the new view exactly when the update removes no member with an inherited name. */
  lemma UpdateRoundTrip(n: Notation, before: Json, after: Json)
    requires Faithful(n) && before.Obj? && after.Obj?
    ensures Interpret(before, Update(n, before, after)) == Success(after) <==> Clean(before, after)
  {
    CoversItself(before);
    UpdateReads(n, before, before, after);
    ReachedExactly(before, after);
  }

  /** The removal that gets lost: a member called `constructor` survives an update to the empty view. */
  lemma ConstructorSurvives(n: Notation)
    requires Faithful(n)
    ensures var before := Obj(map["constructor" := Null]);
            Interpret(before, Update(n, before, EMPTY_VIEW)) == Success(before)
  {
    var before := Obj(map["constructor" := Null]);
    CoversItself(before);
    UpdateReads(n, before, before, EMPTY_VIEW);
    assert Reached(before, EMPTY_VIEW).fields == before.fields;
  }

  datatype Step = Step(n: Notation, view: Json)

  ghost predicate StepsOk(steps: seq<Step>) {
    forall i :: 0 <= i < |steps| ==> Faithful(steps[i].n) && steps[i].view.Obj?
  }

  /** The messages carry the updates from `view` through all the steps, with ignored messages anywhere between them. */
  predicate Carries(view: Json, messages: seq<Message>, steps: seq<Step>)
    requires view.Obj? && forall i :: 0 <= i < |steps| ==> steps[i].view.Obj?
    decreases |messages|
  {
    if |messages| == 0 then |steps| == 0
    else if Ignored(messages[0]) then Carries(view, messages[1..], steps)
    else
      && |steps| > 0
      && messages[0] == Update(steps[0].n, view, steps[0].view)
      && Carries(steps[0].view, messages[1..], steps[1..])
  }

  function Last(view: Json, steps: seq<Step>): Json {
    if |steps| == 0 then view else steps[|steps| - 1].view
  }

  predicate AllClean(view: Json, steps: seq<Step>)
    decreases |steps|
  {
    |steps| == 0 || (Clean(view, steps[0].view) && AllClean(steps[0].view, steps[1..]))
  }

  lemma {:induction false} UpdatesRead(s: Json, view: Json, messages: seq<Message>, steps: seq<Step>)
    requires view.Obj? && Covers(s, view) && StepsOk(steps) && Carries(view, messages, steps)
    ensures var r := ReadFrom(s, messages);
            && r.Success? && Covers(r.value, Last(view, steps))
            && (s == view && AllClean(view, steps) ==> r.value == Last(view, steps))
    decreases |messages|
  {
    if |messages| > 0 {
      if Ignored(messages[0]) {
        UpdatesRead(s, view, messages[1..], steps);
      } else {
        UpdateReads(steps[0].n, s, view, steps[0].view);
        ReachedExactly(view, steps[0].view);
        UpdatesRead(Interpret(s, messages[0]).value, steps[0].view, messages[1..], steps[1..]);
      }
    }
  }

  predicate AllIgnored(messages: seq<Message>) {
    forall i :: 0 <= i < |messages| ==> Ignored(messages[i])
  }

  lemma {:induction false} IgnoredRead(s: Json, quiet: seq<Message>, messages: seq<Message>)
    requires AllIgnored(quiet)
    ensures ReadFrom(s, quiet + messages) == ReadFrom(s, messages)
    decreases |quiet|
  {
    if |quiet| == 0 {
      assert quiet + messages == messages;
    } else {
      assert (quiet + messages)[1..] == quiet[1..] + messages;
      IgnoredRead(s, quiet[1..], messages);
    }
  }

  /**
   * A whole request: base view, then any number of updates, with other messages anywhere. Reading it never
   * raises an error; it ends at the last view, or, if some update removes an inherited name, at the last view
   * plus members with such names.
   */
  lemma RequestReads(quiet: seq<Message>, base: Json, messages: seq<Message>, steps: seq<Step>)
    requires AllIgnored(quiet) && base.Obj? && StepsOk(steps) && Carries(base, messages, steps)
    ensures var r := ReadFrom(EMPTY_VIEW, quiet + ([Base(base)] + messages));
            && r.Success? && Covers(r.value, Last(base, steps))
            && (AllClean(base, steps) ==> r.value == Last(base, steps))
  {
    IgnoredRead(EMPTY_VIEW, quiet, [Base(base)] + messages);
    var data := Base(base).content.data;
    assert Get(data, "kind") == Some(Str("runtime_context")) && Get(data, "view") == Some(base);
    assert Interpret(EMPTY_VIEW, Base(base)) == Success(base);
    assert ([Base(base)] + messages)[1..] == messages;
    CoversItself(base);
    UpdatesRead(base, base, messages, steps);
  }

  // ---- keeping up ----

  /**
   * Before every message and at the end, a reader that starts with `s` holds the view the sender has just described.
   */
  predicate KeepsUp(s: Json, view: Json, messages: seq<Message>, steps: seq<Step>)
    requires view.Obj? && (forall i :: 0 <= i < |steps| ==> steps[i].view.Obj?) && Carries(view, messages, steps)
    decreases |messages|
  {
    && s == view
    && (|messages| > 0 ==>
          if Ignored(messages[0]) then KeepsUp(s, view, messages[1..], steps)
          else
            var r := Interpret(s, messages[0]);
            r.Success? && KeepsUp(r.value, steps[0].view, messages[1..], steps[1..]))
  }

  /**
   * A reader keeps up with a whole sequence of updates if and only if none of them removes a member with an inherited
   * name.
   */
  lemma {:induction false} KeepsUpExactly(view: Json, messages: seq<Message>, steps: seq<Step>)
    requires view.Obj? && StepsOk(steps) && Carries(view, messages, steps)
    ensures KeepsUp(view, view, messages, steps) <==> AllClean(view, steps)
    decreases |messages|
  {
    if |messages| > 0 {
      if Ignored(messages[0]) {
        KeepsUpExactly(view, messages[1..], steps);
      } else {
        UpdateRoundTrip(steps[0].n, view, steps[0].view);
        CoversItself(view);
        UpdateReads(steps[0].n, view, view, steps[0].view);
        KeepsUpExactly(steps[0].view, messages[1..], steps[1..]);
      }
    }
  }
}
