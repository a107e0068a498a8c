/** What a model sees of a long context: summaries replace ranges until the target fits. */
module ContextWindow {
  import opened Basics

  datatype Kind = Turn | Secondary

  /** A recorded summary of the source range from `start` up to but not including `end`. */
  datatype Record = Record(kind: Kind, start: int, end: int, createdAt: int, text: string)

  /** One entry of a selected context: a source entry with its place, or a summary. */
  datatype Piece<T> = Kept(index: nat, item: T) | Replaced(record: Record)

  datatype Selection<T> = Selection(pieces: seq<Piece<T>>, hybrid: bool, tokens: nat, needsSecondary: bool)

  datatype Policy = Policy(warningRatio: real, targetRatio: real)

  predicate PolicyOk(p: Policy) {
    0.0 < p.targetRatio < p.warningRatio < 1.0
  }

  function Limit(window: nat, ratio: real): int {
    (window as real * ratio).Floor
  }

  // ---- the order of replacement ----

  predicate ValidRecord(n: nat, r: Record) {
    0 <= r.start < r.end <= n
  }

  predicate AllValid(n: nat, records: seq<Record>) {
    forall i :: 0 <= i < |records| ==> ValidRecord(n, records[i])
  }

  function Filter(records: seq<Record>, p: Record -> bool): (r: seq<Record>)
    ensures forall i :: 0 <= i < |r| ==> p(r[i]) && r[i] in records
  {
    if |records| == 0 then []
    else
      Filter(records[..|records| - 1], p) + if p(records[|records| - 1]) then [records[|records| - 1]] else []
  }

  /** The secondary summary that reaches furthest, the newest of those, the first recorded of those. */
  predicate Outranks(a: Record, b: Record) {
    a.end > b.end || (a.end == b.end && a.createdAt > b.createdAt)
  }

  function Latest(records: seq<Record>): (r: Option<Record>)
    ensures r.None? <==> |records| == 0
    ensures r.Some? ==> r.value in records && forall i :: 0 <= i < |records| ==> !Outranks(records[i], r.value)
  {
    if |records| == 0 then None
    else
      var front := Latest(records[..|records| - 1]);
      var last := records[|records| - 1];
      if front.None? || Outranks(last, front.value) then Some(last) else front
  }

  predicate SortsBefore(a: Record, b: Record) {
    a.start < b.start || (a.start == b.start && a.end < b.end)
  }

  predicate Sorted(records: seq<Record>) {
    forall i, j :: 0 <= i < j < |records| ==> !SortsBefore(records[j], records[i])
  }

  /** Puts a record behind everything that does not sort after it. */
  function Insert(records: seq<Record>, r: Record): seq<Record> {
    if |records| == 0 then [r]
    else if SortsBefore(r, records[|records| - 1]) then Insert(records[..|records| - 1], r) + [records[|records| - 1]]
    else records + [r]
  }

  function Sort(records: seq<Record>): seq<Record> {
    if |records| == 0 then [] else Insert(Sort(records[..|records| - 1]), records[|records| - 1])
  }

  /** Takes the records that begin where the ones before them have ended. */
  function Greedy(records: seq<Record>, covered: int): seq<Record> {
    if |records| == 0 then []
    else if records[0].start < covered then Greedy(records[1..], covered)
    else [records[0]] + Greedy(records[1..], records[0].end)
  }

  function Valids(n: nat, records: seq<Record>): (r: seq<Record>)
    ensures AllValid(n, r)
  {
    Filter(records, (r: Record) => ValidRecord(n, r))
  }

  function Secondaries(valid: seq<Record>): (r: seq<Record>)
    ensures forall i :: 0 <= i < |r| ==> r[i] in valid
  {
    Filter(valid, (r: Record) => r.kind.Secondary? && r.start == 0)
  }

  function TurnsFrom(valid: seq<Record>, covered: int): (r: seq<Record>)
    ensures forall i :: 0 <= i < |r| ==> r[i] in valid
  {
    Filter(valid, (r: Record) => r.kind.Turn? && r.start >= covered)
  }

  function Turns(valid: seq<Record>, covered: int): seq<Record> {
    Sort(TurnsFrom(valid, covered))
  }

  /** The furthest secondary summary, then the turn summaries behind it, oldest first and without overlap. */
  function Order(n: nat, records: seq<Record>): seq<Record> {
    var valid := Valids(n, records);
    var latest := Latest(Secondaries(valid));
    if latest.Some? then [latest.value] + Greedy(Turns(valid, latest.value.end), latest.value.end)
    else Greedy(Turns(valid, 0), 0)
  }

  // ---- replacing ----

  function Slice<T>(full: seq<T>, from: nat, to: nat): (r: seq<Piece<T>>)
    requires from <= to <= |full|
    ensures |r| == to - from && forall i :: 0 <= i < |r| ==> r[i] == Kept(from + i, full[from + i])
  {
    seq(to - from, i requires 0 <= i < to - from => Kept(from + i, full[from + i]))
  }

  /** Records that follow each other inside the context. */
  predicate Disjoint(n: nat, records: seq<Record>) {
    && (forall i :: 0 <= i < |records| ==> ValidRecord(n, records[i]))
    && (forall i, j :: 0 <= i < j < |records| ==> records[i].end <= records[j].start)
  }

  function ReplaceFrom<T>(full: seq<T>, records: seq<Record>, cursor: nat): seq<Piece<T>>
    requires cursor <= |full| && Disjoint(|full|, records)
    requires |records| > 0 ==> cursor <= records[0].start
    decreases |records|
  {
    if |records| == 0 then Slice(full, cursor, |full|)
    else
      Slice(full, cursor, records[0].start) + [Replaced(records[0])] + ReplaceFrom(full, records[1..], records[0].end)
  }

  function Replace<T>(full: seq<T>, records: seq<Record>): seq<Piece<T>>
    requires Disjoint(|full|, records)
  {
    ReplaceFrom(full, records, 0)
  }

  function Start<T>(p: Piece<T>): int {
    if p.Kept? then p.index else p.record.start
  }

  function End<T>(p: Piece<T>): int {
    if p.Kept? then p.index + 1 else p.record.end
  }

  /**
   * The pieces cover the places from `from` to `to` one after the other, without gap or overlap; kept ones are
   * verbatim.
   */
  predicate Tiles<T(==)>(full: seq<T>, pieces: seq<Piece<T>>, from: int, to: int) {
    && (|pieces| == 0 ==> from == to)
    && (|pieces| > 0 ==> Start(pieces[0]) == from && End(pieces[|pieces| - 1]) == to)
    && (forall i :: 0 <= i < |pieces| - 1 ==> End(pieces[i]) == Start(pieces[i + 1]))
    && (forall i :: 0 <= i < |pieces| && pieces[i].Kept? ==>
          pieces[i].index < |full| && pieces[i].item == full[pieces[i].index])
  }

  function Summaries<T>(pieces: seq<Piece<T>>): seq<Record> {
    if |pieces| == 0 then []
    else Summaries(pieces[..|pieces| - 1])
         + if pieces[|pieces| - 1].Replaced? then [pieces[|pieces| - 1].record] else []
  }

  // ---- properties of the order ----

  lemma {:induction false} InsertMembers(records: seq<Record>, r: Record, x: Record)
    ensures x in Insert(records, r) <==> x in records || x == r
    decreases |records|
  {
    if |records| > 0 && SortsBefore(r, records[|records| - 1]) {
      InsertMembers(records[..|records| - 1], r, x);
      assert records == records[..|records| - 1] + [records[|records| - 1]];
    }
  }

  lemma {:induction false} InsertSorted(records: seq<Record>, r: Record)
    requires Sorted(records)
    ensures Sorted(Insert(records, r))
    decreases |records|
  {
    if |records| > 0 && SortsBefore(r, records[|records| - 1]) {
      var front, last := records[..|records| - 1], records[|records| - 1];
      InsertSorted(front, r);
      var rest := Insert(front, r);
      forall i | 0 <= i < |rest| ensures !SortsBefore(last, rest[i]) {
        InsertMembers(front, r, rest[i]);
        assert rest[i] in rest;
      }
    }
  }

  lemma {:induction false} SortSorted(records: seq<Record>)
    ensures Sorted(Sort(records))
    decreases |records|
  {
    if |records| > 0 {
      SortSorted(records[..|records| - 1]);
      InsertSorted(Sort(records[..|records| - 1]), records[|records| - 1]);
    }
  }

  lemma {:induction false} SortMembers(records: seq<Record>, x: Record)
    ensures x in Sort(records) <==> x in records
    decreases |records|
  {
    if |records| > 0 {
      var front := records[..|records| - 1];
      SortMembers(front, x);
      InsertMembers(Sort(front), records[|records| - 1], x);
      assert records == front + [records[|records| - 1]];
    }
  }

  /** What greedy selection keeps is disjoint, and begins no earlier than what is already covered. */
  lemma {:induction false} GreedyDisjoint(n: nat, records: seq<Record>, covered: int)
    requires AllValid(n, records)
    ensures var r := Greedy(records, covered);
            Disjoint(n, r) && (|r| > 0 ==> r[0].start >= covered)
    decreases |records|
  {
    if |records| > 0 {
      if records[0].start < covered {
        GreedyDisjoint(n, records[1..], covered);
      } else {
        GreedyDisjoint(n, records[1..], records[0].end);
        PrependDisjoint(n, records[0], Greedy(records[1..], records[0].end));
      }
    }
  }

  lemma PrependDisjoint(n: nat, r: Record, rest: seq<Record>)
    requires ValidRecord(n, r) && Disjoint(n, rest) && (|rest| > 0 ==> r.end <= rest[0].start)
    ensures Disjoint(n, [r] + rest)
  {
    var all := [r] + rest;
    forall i, j | 0 <= i < j < |all| ensures all[i].end <= all[j].start {
      if i > 0 {
        assert all[i] == rest[i - 1] && all[j] == rest[j - 1];
      } else if j > 1 {
        assert rest[0].end <= rest[j - 1].start;
      }
    }
  }

  /** Over sorted records, a record is left out only if it overlaps one that is kept, or what was covered before. */
  lemma {:induction false} GreedyMaximal(records: seq<Record>, covered: int, i: nat)
    requires Sorted(records) && i < |records| && records[i] !in Greedy(records, covered)
    ensures records[i].start < covered || exists k: Record :: k in Greedy(records, covered) && Overtakes(k, records[i])
    decreases |records|
  {
    if records[0].start < covered {
      if i > 0 {
        GreedyMaximal(records[1..], covered, i - 1);
      }
    } else {
      var rest := Greedy(records[1..], records[0].end);
      assert Greedy(records, covered) == [records[0]] + rest;
      if i > 0 && records[i].start >= covered {
        GreedyMaximal(records[1..], records[0].end, i - 1);
        if records[i].start < records[0].end {
          assert Overtakes(records[0], records[i]);
        } else {
          var k :| k in rest && Overtakes(k, records[i]);
          assert k in Greedy(records, covered);
        }
      }
    }
  }

  predicate Overtakes(k: Record, r: Record) {
    k.start <= r.start < k.end
  }

  lemma TurnsValid(n: nat, valid: seq<Record>, covered: int)
    requires AllValid(n, valid)
    ensures AllValid(n, Turns(valid, covered)) && Sorted(Turns(valid, covered))
  {
    var filtered := TurnsFrom(valid, covered);
    SortSorted(filtered);
    var sorted := Sort(filtered);
    forall i | 0 <= i < |sorted| ensures ValidRecord(n, sorted[i]) {
      SortMembers(filtered, sorted[i]);
      assert sorted[i] in filtered;
    }
  }

  /** For any list of summaries, the replacement order follows the context without overlap. */
  lemma OrderDisjoint(n: nat, records: seq<Record>)
    ensures Disjoint(n, Order(n, records))
  {
    var valid := Valids(n, records);
    var secondary := Secondaries(valid);
    var latest := Latest(secondary);
    var covered := if latest.Some? then latest.value.end else 0;
    TurnsValid(n, valid, covered);
    GreedyDisjoint(n, Turns(valid, covered), covered);
    if latest.Some? {
      PrependDisjoint(n, latest.value, Greedy(Turns(valid, covered), covered));
    }
  }

  lemma PrefixDisjoint(n: nat, records: seq<Record>, k: nat)
    requires Disjoint(n, records) && k <= |records|
    ensures Disjoint(n, records[..k])
  {
  }

  // ---- tiling ----

  lemma TilesJoin<T>(full: seq<T>, a: seq<Piece<T>>, b: seq<Piece<T>>, from: int, mid: int, to: int)
    requires Tiles(full, a, from, mid) && Tiles(full, b, mid, to)
    ensures Tiles(full, a + b, from, to)
  {
    var all := a + b;
    forall i | 0 <= i < |all| - 1 ensures End(all[i]) == Start(all[i + 1]) {
      if i + 1 < |a| {
        assert all[i] == a[i] && all[i + 1] == a[i + 1];
      } else if i >= |a| {
        assert all[i] == b[i - |a|] && all[i + 1] == b[i - |a| + 1];
      }
    }
    if |b| == 0 {
      assert all == a;
    }
  }

  lemma {:induction false} SummariesConcat<T>(a: seq<Piece<T>>, b: seq<Piece<T>>)
    ensures Summaries(a + b) == Summaries(a) + Summaries(b)
    decreases |b|
  {
    if |b| == 0 {
      assert a + b == a;
    } else {
      assert (a + b)[..|a| + |b| - 1] == a + b[..|b| - 1];
      SummariesConcat(a, b[..|b| - 1]);
    }
  }

  lemma {:induction false} KeptOnly<T>(pieces: seq<Piece<T>>)
    requires forall i :: 0 <= i < |pieces| ==> pieces[i].Kept?
    ensures Summaries(pieces) == []
    decreases |pieces|
  {
    if |pieces| > 0 {
      KeptOnly(pieces[..|pieces| - 1]);
    }
  }

  lemma JoinAround<T>(full: seq<T>, before: seq<Piece<T>>, r: Record, rest: seq<Piece<T>>, from: int, to: int)
    requires Tiles(full, before, from, r.start) && Tiles(full, rest, r.end, to)
    ensures Tiles(full, before + [Replaced(r)] + rest, from, to)
  {
    TilesJoin(full, before, [Replaced(r)], from, r.start, r.end);
    TilesJoin(full, before + [Replaced(r)], rest, from, r.end, to);
  }

  lemma SummariesAround<T>(full: seq<T>, from: nat, r: Record, rest: seq<Piece<T>>)
    requires from <= r.start <= |full|
    ensures Summaries(Slice(full, from, r.start) + [Replaced(r)] + rest) == [r] + Summaries(rest)
  {
    var before := Slice(full, from, r.start);
    var here: seq<Piece<T>> := [Replaced(r)];
    KeptOnly(before);
    assert here[..0] == [];
    SummariesConcat(before, here);
    SummariesConcat(before + here, rest);
  }

  lemma SliceTiles<T>(full: seq<T>, from: nat, to: nat)
    requires from <= to <= |full|
    ensures Tiles(full, Slice(full, from, to), from, to)
  {
  }

  lemma TailDisjoint(n: nat, records: seq<Record>)
    requires Disjoint(n, records) && |records| > 0
    ensures Disjoint(n, records[1..]) && 0 <= records[0].start < records[0].end <= n
    ensures |records| > 1 ==> records[0].end <= records[1..][0].start
  {
  }

  predicate Reaches(n: nat, records: seq<Record>, cursor: nat) {
    cursor <= n && Disjoint(n, records) && (|records| > 0 ==> cursor <= records[0].start)
  }

  /** Replacing disjoint records tiles the context. */
  lemma {:induction false} ReplaceTiles<T>(full: seq<T>, records: seq<Record>, cursor: nat)
    requires Reaches(|full|, records, cursor)
    ensures Tiles(full, ReplaceFrom(full, records, cursor), cursor, |full|)
    decreases |records|
  {
    if |records| == 0 {
      SliceTiles(full, cursor, |full|);
    } else {
      TailDisjoint(|full|, records);
      ReplaceTiles(full, records[1..], records[0].end);
      SliceTiles(full, cursor, records[0].start);
      JoinAround(full, Slice(full, cursor, records[0].start), records[0],
                 ReplaceFrom(full, records[1..], records[0].end), cursor, |full|);
    }
  }

  /** Exactly the given records stand in for source ranges. */
  lemma {:induction false} ReplaceSummaries<T>(full: seq<T>, records: seq<Record>, cursor: nat)
    requires Reaches(|full|, records, cursor)
    ensures Summaries(ReplaceFrom(full, records, cursor)) == records
    decreases |records|
  {
    if |records| == 0 {
      KeptOnly(Slice(full, cursor, |full|));
    } else {
      var first, later := records[0], records[1..];
      assert records == [first] + later;
      TailDisjoint(|full|, records);
      ReplaceSummaries(full, later, first.end);
      SummariesAround(full, cursor, first, ReplaceFrom(full, later, first.end));
    }
  }

  lemma WarningAboveTarget(window: nat, p: Policy)
    requires PolicyOk(p)
    ensures Limit(window, p.targetRatio) <= Limit(window, p.warningRatio)
  {
    assert window as real * p.targetRatio <= window as real * p.warningRatio;
  }

  /** No replacement by fewer than `k` records reaches the target. */
  predicate NoneFits<T>(full: seq<T>, order: seq<Record>, k: nat, estimate: seq<Piece<T>> -> nat, target: int)
    requires Disjoint(|full|, order) && k <= |order| + 1
  {
    forall j :: 0 <= j < k ==> EstimateAt(full, order, j, estimate) > target
  }

  function EstimateAt<T>(full: seq<T>, order: seq<Record>, j: nat, estimate: seq<Piece<T>> -> nat): nat
    requires Disjoint(|full|, order) && j <= |order|
  {
    estimate(Replace(full, order[..j]))
  }

  /**
   * What a selection is, for any estimator and any list of summaries: the full context while that is below the
   * warning line; else the tiling by the shortest prefix of the replacement order that reaches the target, or by
   * the whole order, with a request for secondary compaction, when no prefix does.
   */
  predicate Selects<T(==)>(full: seq<T>, order: seq<Record>, window: nat, p: Policy, estimate: seq<Piece<T>> -> nat,
                           s: Selection<T>)
    requires Disjoint(|full|, order)
  {
    var target := Limit(window, p.targetRatio);
    var k := |Summaries(s.pieces)|;
    && s.tokens == estimate(s.pieces)
    && Tiles(full, s.pieces, 0, |full|)
    && Summaries(s.pieces) <= order
    && (s.hybrid <==> estimate(Slice(full, 0, |full|)) > Limit(window, p.warningRatio))
    && (!s.hybrid ==> s.pieces == Slice(full, 0, |full|) && !s.needsSecondary)
    && (s.hybrid ==>
          && NoneFits(full, order, if s.needsSecondary then |order| + 1 else k, estimate, target)
          && (if s.needsSecondary then k == |order| else s.tokens <= target))
  }

  /** A context that is above the warning line is above the target, too. */
  lemma FullAbove<T>(full: seq<T>, order: seq<Record>, window: nat, p: Policy, estimate: seq<Piece<T>> -> nat)
    requires PolicyOk(p) && Disjoint(|full|, order)
    requires estimate(Slice(full, 0, |full|)) > Limit(window, p.warningRatio)
    ensures NoneFits(full, order, 1, estimate, Limit(window, p.targetRatio))
  {
    WarningAboveTarget(window, p);
    assert order[..0] == [];
  }

  class ContextWindowManager {
    const window: nat
    const policy: Policy

    constructor (window: nat, policy: Policy)
      requires window > 0 && PolicyOk(policy)
      ensures this.window == window && this.policy == policy
    {
      this.window, this.policy := window, policy;
    }

    method ReplaceRanges<T>(full: seq<T>, records: seq<Record>) returns (pieces: seq<Piece<T>>)
      requires Disjoint(|full|, records)
      ensures pieces == Replace(full, records)
    {
      pieces := [];
      var cursor := 0;
      for i := 0 to |records|
        invariant 0 <= cursor <= |full| && (i < |records| ==> cursor <= records[i].start)
        invariant Disjoint(|full|, records[i..])
        invariant pieces + ReplaceFrom(full, records[i..], cursor) == Replace(full, records)
      {
        assert records[i..][0] == records[i] && records[i..][1..] == records[i + 1..];
        pieces := pieces + Slice(full, cursor, records[i].start);
        pieces := pieces + [Replaced(records[i])];
        cursor := records[i].end;
      }
      pieces := pieces + Slice(full, cursor, |full|);
    }

    method ReplacementOrder(n: nat, records: seq<Record>) returns (order: seq<Record>)
      ensures order == Order(n, records)
    {
      var valid := Valids(n, records);
      var latest := Latest(Secondaries(valid));
      var covered := if latest.Some? then latest.value.end else 0;
      var turns := WithoutOverlap(Turns(valid, covered), covered);
      order := if latest.Some? then [latest.value] + turns else turns;
    }

    method WithoutOverlap(turns: seq<Record>, start: int) returns (kept: seq<Record>)
      ensures kept == Greedy(turns, start)
    {
      kept := [];
      var covered := start;
      for i := 0 to |turns|
        invariant kept + Greedy(turns[i..], covered) == Greedy(turns, start)
      {
        assert turns[i..][0] == turns[i] && turns[i..][1..] == turns[i + 1..];
        if turns[i].start < covered {
          continue;
        }
        kept := kept + [turns[i]];
        covered := turns[i].end;
      }
    }

    /** Replaces one more summary at a time until the estimate reaches the target. */
    method Shrink<T>(full: seq<T>, order: seq<Record>, estimate: seq<Piece<T>> -> nat, target: int)
      returns (k: nat, fits: bool)
      requires Disjoint(|full|, order) && NoneFits(full, order, 1, estimate, target)
      ensures k <= |order| && NoneFits(full, order, if fits then k else |order| + 1, estimate, target)
      ensures if fits then EstimateAt(full, order, k, estimate) <= target else k == |order|
    {
      k := 0;
      while k < |order|
        invariant k <= |order| && NoneFits(full, order, k + 1, estimate, target)
      {
        k := k + 1;
        PrefixDisjoint(|full|, order, k);
        var candidate := ReplaceRanges(full, order[..k]);
        if estimate(candidate) <= target {
          return k, true;
        }
      }
      return k, false;
    }

    method Select<T>(full: seq<T>, records: seq<Record>, estimate: seq<Piece<T>> -> nat) returns (s: Selection<T>)
      requires PolicyOk(policy)
      ensures Disjoint(|full|, Order(|full|, records))
      ensures Selects(full, Order(|full|, records), window, policy, estimate, s)
    {
      OrderDisjoint(|full|, records);
      var order := ReplacementOrder(|full|, records);
      var whole := Slice(full, 0, |full|);
      KeptOnly(whole);
      if estimate(whole) <= Limit(window, policy.warningRatio) {
        return Selection(whole, false, estimate(whole), false);
      }
      FullAbove(full, order, window, policy, estimate);
      var k, fits := Shrink(full, order, estimate, Limit(window, policy.targetRatio));
      PrefixDisjoint(|full|, order, k);
      ReplaceTiles(full, order[..k], 0);
      ReplaceSummaries(full, order[..k], 0);
      var pieces := ReplaceRanges(full, order[..k]);
      return Selection(pieces, true, estimate(pieces), !fits);
    }
  }
}
