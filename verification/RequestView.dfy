/** The request view: requests carry a base view and updates that say how it changed. */
module RequestView {
  // Objects are maps, because two writings of a value that differ only in member order mean the same view.

  import opened Basics

  /** Member names. The schema that checks incoming content drops `__proto__` when it rebuilds a record. */
  type Key = k: string | k != "__proto__" witness ""

  datatype Json =
    | Null
    | Bool(flag: bool)
    | Num(number: real)
    | Str(text: string)
    | Arr(items: seq<Json>)
    | Obj(fields: map<Key, Json>)

  predicate Container(v: Json) {
    v.Arr? || v.Obj?
  }

  /** Names that every object answers to without owning them; reading one yields a function. */
  const INHERITED: set<string> := {
    "constructor", "toString", "toLocaleString", "valueOf", "hasOwnProperty", "isPrototypeOf", "propertyIsEnumerable",
    "__defineGetter__", "__defineSetter__", "__lookupGetter__", "__lookupSetter__"
  }

  /** What reading a member of an object yields. */
  datatype Slot = Absent | Builtin | Own(value: Json)

  function Lookup(v: Json, k: Key): (slot: Slot)
    requires v.Obj?
    ensures slot.Own? <==> k in v.fields
  {
    if k in v.fields then Own(v.fields[k]) else if k in INHERITED then Builtin else Absent
  }

  datatype Edit = Set(value: Json) | Append(items: seq<Json>) | Remove | Nothing

  datatype Change = Change(path: seq<string>, edit: Edit)

  /** How the two compared values happen to be written: which parts read the same, and the order of members. */
  datatype Notation = Notation(
    same: (seq<string>, Json, Json) -> bool,
    order: (seq<string>, set<Key>) -> seq<Key>)

  ghost predicate Lists(keys: seq<Key>, names: set<Key>) {
    && (forall k :: k in keys <==> k in names)
    && (forall i, j :: 0 <= i < j < |keys| ==> keys[i] != keys[j])
  }

  /** Equal text means equal values, and an enumeration of members lists each of them once. */
  ghost predicate Faithful(n: Notation) {
    && (forall path: seq<string>, a: Json, b: Json :: n.same(path, a, b) ==> a == b)
    && (forall path: seq<string>, names: set<Key> :: Lists(n.order(path, names), names))
  }

  // ---- decimal indices ----

  function Digit(d: nat): char
    requires d < 10
  {
    '0' + d as char
  }

  function Decimal(n: nat): (s: string)
    ensures |s| > 0
  {
    if n < 10 then [Digit(n)] else Decimal(n / 10) + [Digit(n % 10)]
  }

  lemma {:induction false} DecimalInjective(m: nat, n: nat)
    requires Decimal(m) == Decimal(n)
    ensures m == n
  {
    var s := Decimal(m);
    assert s[|s| - 1] == Digit(m % 10) == Digit(n % 10);
    if m >= 10 && n >= 10 {
      assert s[..|s| - 1] == Decimal(m / 10) == Decimal(n / 10);
      DecimalInjective(m / 10, n / 10);
    }
  }

  /** The index below `n` that a path key names. */
  function IndexOf(key: string, n: nat): (r: Option<nat>)
    ensures r.Some? ==> r.value < n && Decimal(r.value) == key
    ensures r.None? ==> forall i: nat :: i < n ==> Decimal(i) != key
  {
    if n == 0 then None
    else if Decimal(n - 1) == key then Some(n - 1)
    else IndexOf(key, n - 1)
  }

  lemma IndexOfDecimal(i: nat, n: nat)
    requires i < n
    ensures IndexOf(Decimal(i), n) == Some(i)
  {
    DecimalInjective(IndexOf(Decimal(i), n).value, i);
  }

  // ---- reading: patching a view ----

  datatype ViewError = InvalidPath | InvalidTarget | InvalidAppend | LeavesJson

  function Child(v: Json, key: string): Option<Json> {
    match v
    case Obj(fields) => if key in fields then Some(fields[key]) else None
    case Arr(items) => if IndexOf(key, |items|).Some? then Some(items[IndexOf(key, |items|).value]) else None
    case _ => None
  }

  function SetChild(v: Json, key: string, child: Json): (r: Json)
    requires Child(v, key).Some? || (v.Obj? && key != "__proto__")
    ensures Child(r, key) == Some(child)
  {
    match v
    case Obj(fields) => Obj(fields[key := child])
    case Arr(items) => Arr(items[IndexOf(key, |items|).value := child])
  }

  /** One edit of a container's own member or element. */
  function Write(v: Json, key: string, edit: Edit): Result<Json, ViewError>
    requires Container(v)
  {
    match edit
    case Nothing => Success(v)
    case Remove => if v.Obj? then Success(Obj(v.fields - {key})) else Failure(LeavesJson)
    case Append(more) =>
      var current := Child(v, key);
      if current.None? || !current.value.Arr? then Failure(InvalidAppend)
      else Success(SetChild(v, key, Arr(current.value.items + more)))
    case Set(value) =>
      if Child(v, key).Some? || (v.Obj? && key != "__proto__") then Success(SetChild(v, key, value))
      else Failure(LeavesJson)
  }

  /** Follows a path from depth `d` on, down to the container that the edit belongs to. */
  function PatchFrom(v: Json, change: Change, d: nat): Result<Json, ViewError>
    requires d < |change.path|
    decreases |change.path| - d
  {
    if !Container(v) then Failure(InvalidTarget)
    else
      var key := change.path[d];
      if d + 1 == |change.path| then Write(v, key, change.edit)
      else
        var child := Child(v, key);
        if child.None? then Failure(InvalidTarget)
        else
          var next :- PatchFrom(child.value, change, d + 1);
          Success(SetChild(v, key, next))
  }

  predicate Deeper(changes: seq<Change>, d: nat) {
    forall c :: c in changes ==> d < |c.path|
  }

  function PatchAll(v: Json, changes: seq<Change>, d: nat): Result<Json, ViewError>
    requires Deeper(changes, d)
    decreases |changes|
  {
    if |changes| == 0 then Success(v)
    else
      var next :- PatchFrom(v, changes[0], d);
      PatchAll(next, changes[1..], d)
  }

  // ---- writing: comparing two views ----

  predicate BothOwn(was: Slot, now: Slot) {
    was.Own? && now.Own?
  }

  predicate Grows(n: Notation, a: seq<Json>, b: seq<Json>, path: seq<string>) {
    |a| <= |b| && forall i :: 0 <= i < |a| ==> n.same(path + [Decimal(i)], a[i], b[i])
  }

  /** The changes that lead from one slot to the other, at the path that both stand at. */
  function Visit(n: Notation, was: Slot, now: Slot, path: seq<string>): seq<Change>
    decreases BothOwn(was, now), if was.Own? then was.value else Null, 2, 0
  {
    if BothOwn(was, now) then
      var a, b := was.value, now.value;
      if n.same(path, a, b) then []
      else if a.Obj? && b.Obj? then VisitMembers(n, a, b, path, n.order(path, a.fields.Keys + b.fields.Keys))
      else if a.Arr? && b.Arr? && Grows(n, a.items, b.items, path) then [Change(path, Append(b.items[|a.items|..]))]
      else if a.Arr? && b.Arr? && |a.items| == |b.items| then VisitItems(n, a, b, path, 0)
      else [Change(path, Set(b))]
    else if was.Own? then
      [Change(path, if now.Absent? then Remove else Nothing)]
    else if now.Own? then [Change(path, Set(now.value))]
    else []
  }

  function VisitMembers(n: Notation, a: Json, b: Json, path: seq<string>, keys: seq<Key>): seq<Change>
    requires a.Obj? && b.Obj?
    decreases true, a, 1, |keys|
  {
    if |keys| == 0 then []
    else
      Visit(n, Lookup(a, keys[0]), Lookup(b, keys[0]), path + [keys[0]])
      + VisitMembers(n, a, b, path, keys[1..])
  }

  function VisitItems(n: Notation, a: Json, b: Json, path: seq<string>, i: nat): seq<Change>
    requires a.Arr? && b.Arr? && |a.items| == |b.items| && i <= |a.items|
    decreases true, a, 1, |a.items| - i
  {
    if i == |a.items| then []
    else
      Visit(n, Own(a.items[i]), Own(b.items[i]), path + [Decimal(i)])
      + VisitItems(n, a, b, path, i + 1)
  }

  function RequestChanges(n: Notation, before: Json, after: Json): seq<Change>
    requires before.Obj? && after.Obj?
  {
    Visit(n, Own(before), Own(after), [])
  }

  // ---- what a reader reaches ----

  /**
   * The view a reader gets from `a` and the changes towards `b`: it is `b`, except that a removed member
   * with an inherited name stays. Its new value reads as a function, which the written change cannot carry.
   */
  function Reached(a: Json, b: Json): Json
    decreases a
  {
    if a.Obj? && b.Obj? then
      Obj(map k: Key | k in b.fields.Keys + (a.fields.Keys * INHERITED) ::
            if k in b.fields then (if k in a.fields then Reached(a.fields[k], b.fields[k]) else b.fields[k])
            else a.fields[k])
    else if a.Arr? && b.Arr? && |a.items| == |b.items| then
      Arr(seq(|a.items|, i requires 0 <= i < |a.items| => Reached(a.items[i], b.items[i])))
    else b
  }

  /** No member with an inherited name is removed, at any pair of places that the comparison visits. */
  predicate Clean(a: Json, b: Json)
    decreases a
  {
    if a.Obj? && b.Obj? then
      forall k :: k in a.fields ==>
        if k in b.fields then Clean(a.fields[k], b.fields[k]) else k !in INHERITED
    else if a.Arr? && b.Arr? && |a.items| == |b.items| then
      forall i :: 0 <= i < |a.items| ==> Clean(a.items[i], b.items[i])
    else true
  }

  /** `s` is `a`, apart from further members with inherited names. */
  predicate Covers(s: Json, a: Json)
    decreases a
  {
    match a
    case Obj(fields) =>
      && s.Obj?
      && (forall k :: k in fields ==> k in s.fields && Covers(s.fields[k], fields[k]))
      && (forall k :: k in s.fields && k !in fields ==> k in INHERITED)
    case Arr(items) =>
      s.Arr? && |s.items| == |items| && forall i :: 0 <= i < |items| ==> Covers(s.items[i], items[i])
    case _ => s == a
  }

  lemma {:induction false} CoversItself(a: Json)
    ensures Covers(a, a)
    decreases a
  {
    match a
    case Obj(fields) => forall k | k in fields ensures Covers(fields[k], fields[k]) { CoversItself(fields[k]); }
    case Arr(items) => forall i | 0 <= i < |items| ensures Covers(items[i], items[i]) { CoversItself(items[i]); }
    case _ =>
  }

  lemma {:induction false} ReachedItself(a: Json)
    ensures Reached(a, a) == a
    decreases a
  {
    match a
    case Obj(fields) =>
      forall k | k in fields ensures Reached(fields[k], fields[k]) == fields[k] { ReachedItself(fields[k]); }
    case Arr(items) =>
      forall i | 0 <= i < |items| ensures Reached(items[i], items[i]) == items[i] { ReachedItself(items[i]); }
    case _ =>
  }

  /** The reader reaches exactly the new view when, and only when, no inherited name is removed. */
  lemma {:induction false} ReachedExactly(a: Json, b: Json)
    ensures Reached(a, b) == b <==> Clean(a, b)
    decreases a
  {
    if a.Obj? && b.Obj? {
      var r := Reached(a, b).fields;
      forall k | k in a.fields && k in b.fields ensures r[k] == b.fields[k] <==> Clean(a.fields[k], b.fields[k]) {
        ReachedExactly(a.fields[k], b.fields[k]);
      }
      if Clean(a, b) {
        assert r == b.fields;
      } else {
        var k :| k in a.fields && !(if k in b.fields then Clean(a.fields[k], b.fields[k]) else k !in INHERITED);
        assert k in r && !(k in b.fields && r[k] == b.fields[k]);
      }
    } else if a.Arr? && b.Arr? && |a.items| == |b.items| {
      var r := Reached(a, b).items;
      forall i | 0 <= i < |a.items| ensures r[i] == b.items[i] <==> Clean(a.items[i], b.items[i]) {
        ReachedExactly(a.items[i], b.items[i]);
      }
      if Clean(a, b) {
        assert r == b.items;
      }
    }
  }

  // ---- patching step by step ----

  lemma {:induction false} PatchConcat(v: Json, xs: seq<Change>, ys: seq<Change>, d: nat)
    requires Deeper(xs, d) && Deeper(ys, d) && PatchAll(v, xs, d).Success?
    ensures Deeper(xs + ys, d) && PatchAll(v, xs + ys, d) == PatchAll(PatchAll(v, xs, d).value, ys, d)
    decreases |xs|
  {
    if |xs| == 0 {
      assert xs + ys == ys;
    } else {
      assert (xs + ys)[1..] == xs[1..] + ys;
      PatchConcat(PatchFrom(v, xs[0], d).value, xs[1..], ys, d);
    }
  }

  /** Changes below one member patch that member alone. */
  lemma {:induction false} PatchBelow(v: Json, key: string, changes: seq<Change>, d: nat)
    requires Deeper(changes, d + 1) && (forall c :: c in changes ==> c.path[d] == key)
    requires Container(v) && Child(v, key).Some?
    requires PatchAll(Child(v, key).value, changes, d + 1).Success?
    ensures PatchAll(v, changes, d) == Success(SetChild(v, key, PatchAll(Child(v, key).value, changes, d + 1).value))
    decreases |changes|
  {
    var child := Child(v, key).value;
    if |changes| == 0 {
      assert SetChild(v, key, child) == v;
    } else {
      var next := PatchFrom(child, changes[0], d + 1).value;
      var v' := SetChild(v, key, next);
      assert PatchFrom(v, changes[0], d) == Success(v');
      PatchBelow(v', key, changes[1..], d);
      SetTwice(v, key, next, PatchAll(next, changes[1..], d + 1).value);
    }
  }

  lemma SetTwice(v: Json, key: string, x: Json, y: Json)
    requires Container(v) && Child(v, key).Some?
    ensures SetChild(SetChild(v, key, x), key, y) == SetChild(v, key, y)
  {
  }

  /** Every change of a comparison stands at the path of the comparison or below it. */
  predicate Under(changes: seq<Change>, path: seq<string>) {
    forall c :: c in changes ==> path <= c.path
  }

  lemma {:induction false} VisitUnder(n: Notation, was: Slot, now: Slot, path: seq<string>)
    ensures Under(Visit(n, was, now, path), path)
    decreases BothOwn(was, now), if was.Own? then was.value else Null, 2, 0
  {
    if BothOwn(was, now) {
      var a, b := was.value, now.value;
      if a.Obj? && b.Obj? {
        MembersUnder(n, a, b, path, n.order(path, a.fields.Keys + b.fields.Keys));
      } else if a.Arr? && b.Arr? && |a.items| == |b.items| {
        ItemsUnder(n, a, b, path, 0);
      }
    }
  }

  lemma {:induction false} MembersUnder(n: Notation, a: Json, b: Json, path: seq<string>, keys: seq<Key>)
    requires a.Obj? && b.Obj?
    ensures var cs := VisitMembers(n, a, b, path, keys); Under(cs, path) && Deeper(cs, |path|)
    decreases true, a, 1, |keys|
  {
    if |keys| > 0 {
      VisitUnder(n, Lookup(a, keys[0]), Lookup(b, keys[0]), path + [keys[0]]);
      MembersUnder(n, a, b, path, keys[1..]);
    }
  }

  lemma {:induction false} ItemsUnder(n: Notation, a: Json, b: Json, path: seq<string>, i: nat)
    requires a.Arr? && b.Arr? && |a.items| == |b.items| && i <= |a.items|
    ensures var cs := VisitItems(n, a, b, path, i); Under(cs, path) && Deeper(cs, |path|)
    decreases true, a, 1, |a.items| - i
  {
    if i < |a.items| {
      VisitUnder(n, Own(a.items[i]), Own(b.items[i]), path + [Decimal(i)]);
      ItemsUnder(n, a, b, path, i + 1);
    }
  }

  /**
   * How the patched value `r` relates to the target, given that it was patched from `s` with the changes from `a` to
   * `b`.
   */
  predicate Patched(r: Json, s: Json, a: Json, b: Json) {
    Covers(r, b) && (s == a ==> r == Reached(a, b))
  }

  predicate PatchesChild(s: Json, key: string, a: Json, b: Json, r: Result<Json, ViewError>)
    requires Child(s, key).Some?
  {
    && r.Success?
    && Child(r.value, key).Some?
    && r.value == SetChild(s, key, Child(r.value, key).value)
    && Patched(Child(r.value, key).value, Child(s, key).value, a, b)
  }

  /** Changes at or below a member that patch it correctly patch the whole correctly. */
  lemma SharedBelow(s: Json, key: string, a: Json, b: Json, cs: seq<Change>, path: seq<string>)
    requires Container(s) && Child(s, key).Some?
    requires Under(cs, path + [key]) && Deeper(cs, |path| + 1)
    requires PatchAll(Child(s, key).value, cs, |path| + 1).Success?
    requires Patched(PatchAll(Child(s, key).value, cs, |path| + 1).value, Child(s, key).value, a, b)
    ensures Deeper(cs, |path|) && PatchesChild(s, key, a, b, PatchAll(s, cs, |path|))
  {
    assert forall c :: c in cs ==> c.path[|path|] == (path + [key])[|path|] == key;
    PatchBelow(s, key, cs, |path|);
  }

  /** So does one change of the member itself. */
  lemma SharedOnce(s: Json, key: string, a: Json, b: Json, edit: Edit, r: Json, path: seq<string>)
    requires Container(s) && Child(s, key).Some? && Write(s, key, edit) == Success(SetChild(s, key, r))
    requires Patched(r, Child(s, key).value, a, b)
    ensures var cs := [Change(path + [key], edit)];
            Deeper(cs, |path|) && PatchesChild(s, key, a, b, PatchAll(s, cs, |path|))
  {
    PatchOnce(s, key, edit, path);
  }

  /** And no change, where nothing has changed. */
  lemma SharedSame(s: Json, key: string, a: Json, path: seq<string>)
    requires Container(s) && Child(s, key).Some? && Covers(Child(s, key).value, a)
    ensures PatchesChild(s, key, a, a, PatchAll(s, [], |path|))
  {
    ReachedItself(a);
    assert SetChild(s, key, Child(s, key).value) == s;
  }

  lemma ItemsPatched(r: Json, s: Json, a: Json, b: Json)
    requires r.Arr? && s.Arr? && a.Arr? && b.Arr? && |r.items| == |s.items| == |a.items| == |b.items|
    requires forall j :: 0 <= j < |b.items| ==> Patched(r.items[j], s.items[j], a.items[j], b.items[j])
    ensures Patched(r, s, a, b)
  {
    if s == a {
      assert r.items == Reached(a, b).items;
    }
  }

  /** One member or element that both views own: the changes turn it into its new value and touch nothing else. */
  lemma {:induction false} PatchShared(n: Notation, s: Json, key: string, a: Json, b: Json, path: seq<string>)
    requires Faithful(n) && Container(s) && Child(s, key).Some? && Covers(Child(s, key).value, a)
    ensures var cs := Visit(n, Own(a), Own(b), path + [key]);
            Deeper(cs, |path|) && PatchesChild(s, key, a, b, PatchAll(s, cs, |path|))
    decreases a, 2, 0
  {
    var below := path + [key];
    var cs := Visit(n, Own(a), Own(b), below);
    var child := Child(s, key).value;
    if n.same(below, a, b) {
      SharedSame(s, key, a, path);
    } else if a.Obj? && b.Obj? {
      PatchObject(n, child, a, b, below);
      VisitUnder(n, Own(a), Own(b), below);
      SharedBelow(s, key, a, b, cs, path);
    } else if a.Arr? && b.Arr? && Grows(n, a.items, b.items, below) {
      GrownItems(n, child, a, b, below);
      SharedOnce(s, key, a, b, Append(b.items[|a.items|..]), Arr(child.items + b.items[|a.items|..]), path);
    } else if a.Arr? && b.Arr? && |a.items| == |b.items| {
      PatchItems(n, child, a, b, below, 0);
      VisitUnder(n, Own(a), Own(b), below);
      ItemsPatched(PatchAll(child, cs, |below|).value, child, a, b);
      SharedBelow(s, key, a, b, cs, path);
    } else {
      CoversItself(b);
      SharedOnce(s, key, a, b, Set(b), b, path);
    }
  }

  /** An array that still starts with the old items ends up as the new one once the further items are appended. */
  lemma GrownItems(n: Notation, child: Json, a: Json, b: Json, path: seq<string>)
    requires Faithful(n) && a.Arr? && b.Arr? && Grows(n, a.items, b.items, path) && Covers(child, a)
    ensures Patched(Arr(child.items + b.items[|a.items|..]), child, a, b)
  {
    assert forall i :: 0 <= i < |a.items| ==> a.items[i] == b.items[i];
    var grown := child.items + b.items[|a.items|..];
    forall i | 0 <= i < |b.items| ensures Covers(grown[i], b.items[i]) {
      CoversItself(b.items[i]);
    }
    if child == a {
      assert grown == b.items;
      if |a.items| == |b.items| {
        assert a.items == b.items;
        ReachedItself(a);
      }
    }
  }

  lemma PatchOnce(s: Json, key: string, edit: Edit, path: seq<string>)
    requires Container(s)
    ensures PatchAll(s, [Change(path + [key], edit)], |path|) == Write(s, key, edit)
  {
    var cs := [Change(path + [key], edit)];
    assert cs[0].path[|path|] == key;
    assert PatchFrom(s, cs[0], |path|) == Write(s, key, edit);
    assert cs[1..] == [];
  }

  /** The member `k` before, after and as the reader has it. */
  predicate MemberPatched(r: Json, s: Json, a: Json, b: Json, k: Key)
    requires r.Obj? && s.Obj? && a.Obj? && b.Obj?
  {
    && (k in b.fields ==> k in r.fields && Covers(r.fields[k], b.fields[k]))
    && (k in r.fields && k !in b.fields ==> k in INHERITED)
    && (Lookup(s, k) == Lookup(a, k) ==>
          if k in b.fields then
            r.fields[k] == (if k in a.fields then Reached(a.fields[k], b.fields[k]) else b.fields[k])
          else if k in a.fields && k in INHERITED then k in r.fields && r.fields[k] == a.fields[k]
          else k !in r.fields)
  }

  predicate MemberCovered(s: Json, a: Json, k: Key)
    requires s.Obj? && a.Obj?
  {
    && (k in a.fields ==> k in s.fields && Covers(s.fields[k], a.fields[k]))
    && (k in s.fields && k !in a.fields ==> k in INHERITED)
  }

  ghost predicate SameElsewhere(r: Json, s: Json, k: Key)
    requires r.Obj? && s.Obj?
  {
    forall other: Key :: other != k ==> Lookup(r, other) == Lookup(s, other)
  }

  /** The changes of one member, whichever of the two views owns it. */
  lemma {:induction false} PatchMember(n: Notation, s: Json, a: Json, b: Json, path: seq<string>, k: Key)
    requires Faithful(n) && s.Obj? && a.Obj? && b.Obj? && MemberCovered(s, a, k)
    requires k in a.fields || k in b.fields
    ensures var cs := Visit(n, Lookup(a, k), Lookup(b, k), path + [k]);
            && Deeper(cs, |path|)
            && var r := PatchAll(s, cs, |path|);
               r.Success? && r.value.Obj? && MemberPatched(r.value, s, a, b, k) && SameElsewhere(r.value, s, k)
    decreases a, 0, 0
  {
    var cs := Visit(n, Lookup(a, k), Lookup(b, k), path + [k]);
    if k in a.fields && k in b.fields {
      PatchShared(n, s, k, a.fields[k], b.fields[k], path);
    } else {
      PatchOnce(s, k, cs[0].edit, path);
      if k in b.fields {
        CoversItself(b.fields[k]);
      }
    }
  }

  lemma {:induction false} PatchMembers(n: Notation, s: Json, a: Json, b: Json, path: seq<string>, keys: seq<Key>)
    requires Faithful(n) && s.Obj? && a.Obj? && b.Obj?
    requires forall i, j :: 0 <= i < j < |keys| ==> keys[i] != keys[j]
    requires forall k :: k in keys ==> MemberCovered(s, a, k) && (k in a.fields || k in b.fields)
    ensures var cs := VisitMembers(n, a, b, path, keys);
            && Deeper(cs, |path|)
            && var r := PatchAll(s, cs, |path|);
               && r.Success? && r.value.Obj?
               && (forall k :: k in keys ==> MemberPatched(r.value, s, a, b, k))
               && (forall k: Key :: k !in keys ==> Lookup(r.value, k) == Lookup(s, k))
    decreases a, 1, |keys|
  {
    if |keys| > 0 {
      var first := Visit(n, Lookup(a, keys[0]), Lookup(b, keys[0]), path + [keys[0]]);
      var rest := VisitMembers(n, a, b, path, keys[1..]);
      PatchMember(n, s, a, b, path, keys[0]);
      var s' := PatchAll(s, first, |path|).value;
      forall k | k in keys[1..] ensures MemberCovered(s', a, k) {
        assert Lookup(s', k) == Lookup(s, k);
      }
      PatchMembers(n, s', a, b, path, keys[1..]);
      PatchConcat(s, first, rest, |path|);
      var r := PatchAll(s', rest, |path|).value;
      forall k | k in keys ensures MemberPatched(r, s, a, b, k) {
        if k == keys[0] {
          assert Lookup(r, k) == Lookup(s', k);
        } else {
          assert k in keys[1..] && Lookup(s', k) == Lookup(s, k);
        }
      }
    }
  }

  /** All members patched, all others as they were: the object covers the new one. */
  lemma ObjectCovered(s: Json, a: Json, b: Json, keys: seq<Key>, r: Json)
    requires s.Obj? && a.Obj? && b.Obj? && r.Obj? && Covers(s, a) && Lists(keys, a.fields.Keys + b.fields.Keys)
    requires forall k :: k in keys ==> MemberPatched(r, s, a, b, k)
    requires forall k: Key :: k !in keys ==> Lookup(r, k) == Lookup(s, k)
    ensures Covers(r, b)
  {
    forall k | k in b.fields ensures k in r.fields && Covers(r.fields[k], b.fields[k]) {
      assert k in keys && MemberPatched(r, s, a, b, k);
    }
    forall k | k in r.fields && k !in b.fields ensures k in INHERITED {
      if k in keys {
        assert MemberPatched(r, s, a, b, k);
      } else {
        assert Lookup(r, k) == Lookup(s, k);
      }
    }
  }

  /** And started from the old one itself, it is exactly what a reader reaches. */
  lemma ObjectReached(a: Json, b: Json, keys: seq<Key>, r: Json)
    requires a.Obj? && b.Obj? && r.Obj? && Lists(keys, a.fields.Keys + b.fields.Keys)
    requires forall k :: k in keys ==> MemberPatched(r, a, a, b, k)
    requires forall k: Key :: k !in keys ==> Lookup(r, k) == Lookup(a, k)
    ensures r == Reached(a, b)
  {
    var goal := Reached(a, b).fields;
    forall k: Key ensures Lookup(r, k) == Lookup(Reached(a, b), k) {
      if k in keys {
        assert MemberPatched(r, a, a, b, k);
      } else {
        assert Lookup(r, k) == Lookup(a, k);
      }
    }
    assert r.fields == goal by {
      forall k: Key ensures k in r.fields <==> k in goal {
        assert Lookup(r, k) == Lookup(Reached(a, b), k);
      }
      forall k: Key | k in goal ensures r.fields[k] == goal[k] {
        assert Lookup(r, k) == Lookup(Reached(a, b), k);
      }
    }
  }

  lemma {:induction false} PatchObject(n: Notation, s: Json, a: Json, b: Json, path: seq<string>)
    requires Faithful(n) && a.Obj? && b.Obj? && Covers(s, a)
    ensures var cs := VisitMembers(n, a, b, path, n.order(path, a.fields.Keys + b.fields.Keys));
            && Deeper(cs, |path|)
            && var r := PatchAll(s, cs, |path|);
               r.Success? && Patched(r.value, s, a, b)
    decreases a, 1, |n.order(path, a.fields.Keys + b.fields.Keys)| + 1
  {
    var keys := n.order(path, a.fields.Keys + b.fields.Keys);
    assert Lists(keys, a.fields.Keys + b.fields.Keys);
    PatchMembers(n, s, a, b, path, keys);
    var r := PatchAll(s, VisitMembers(n, a, b, path, keys), |path|).value;
    ObjectCovered(s, a, b, keys, r);
    if s == a {
      ObjectReached(a, b, keys, r);
    }
  }

  lemma {:induction false} PatchItems(n: Notation, s: Json, a: Json, b: Json, path: seq<string>, i: nat)
    requires Faithful(n) && s.Arr? && a.Arr? && b.Arr?
    requires |s.items| == |a.items| == |b.items| && i <= |a.items|
    requires forall j :: i <= j < |a.items| ==> Covers(s.items[j], a.items[j])
    ensures var cs := VisitItems(n, a, b, path, i);
            && Deeper(cs, |path|)
            && var r := PatchAll(s, cs, |path|);
               && r.Success? && r.value.Arr? && |r.value.items| == |b.items|
               && (forall j :: 0 <= j < i ==> r.value.items[j] == s.items[j])
               && (forall j :: i <= j < |b.items| ==> Patched(r.value.items[j], s.items[j], a.items[j], b.items[j]))
    decreases a, 1, |a.items| - i
  {
    if i < |a.items| {
      var first := Visit(n, Own(a.items[i]), Own(b.items[i]), path + [Decimal(i)]);
      var rest := VisitItems(n, a, b, path, i + 1);
      IndexOfDecimal(i, |s.items|);
      PatchShared(n, s, Decimal(i), a.items[i], b.items[i], path);
      var s' := PatchAll(s, first, |path|).value;
      PatchItems(n, s', a, b, path, i + 1);
      PatchConcat(s, first, rest, |path|);
    }
  }

  /**
   * Patching undoes comparing. A reader that holds `before`, or `before` with leftovers, follows the changes
   * towards `after` without an error; from `before` itself it ends at exactly `Reached(before, after)`.
   */
  lemma PatchChanges(n: Notation, s: Json, before: Json, after: Json)
    requires Faithful(n) && before.Obj? && after.Obj? && Covers(s, before)
    ensures var changes := RequestChanges(n, before, after);
            && Deeper(changes, 0)
            && var r := PatchAll(s, changes, 0);
               r.Success? && Covers(r.value, after) && (s == before ==> r.value == Reached(before, after))
  {
    if n.same([], before, after) {
      ReachedItself(before);
    } else {
      PatchObject(n, s, before, after, []);
    }
  }
}
