/** The summaries that a task records as it goes: of single turns and of whole prefixes. */
module TurnLog {
  import opened Basics
  import opened ContextWindow

  /** The turn summaries, in the order recorded, follow each other up to the cursor; secondary ones may lie anywhere. */
  predicate Chained(records: seq<Record>, cursor: nat) {
    && (forall i :: 0 <= i < |records| && records[i].kind.Turn? ==> 0 <= records[i].start <= records[i].end <= cursor)
    && (forall i, j :: 0 <= i < j < |records| && records[i].kind.Turn? && records[j].kind.Turn? ==>
          records[i].end <= records[j].start)
  }

  class Turns {
    var length: nat
    var cursor: nat
    var summaries: seq<Record>

    constructor ()
      ensures Valid() && length == 0 && cursor == 0 && summaries == []
    {
      length, cursor, summaries := 0, 0, [];
    }

    predicate Valid()
      reads this
    {
      cursor <= length && Chained(summaries, cursor)
    }

    method Append()
      requires Valid()
      modifies this`length
      ensures Valid() && length == old(length) + 1
    {
      length := length + 1;
    }

    /** The cursor moves on whether or not the model gave a summary, so no later one reaches back over this turn. */
    method CompleteModelTurn(text: Option<string>, now: int)
      requires Valid()
      modifies this`cursor, this`summaries
      ensures Valid() && cursor == length
      ensures summaries == old(summaries) + if text.Some? then [Record(Turn, old(cursor), length, now, text.value)]
              else []
    {
      if text.Some? {
        summaries := summaries + [Record(Turn, cursor, length, now, text.value)];
      }
      cursor := length;
    }

    /** A compaction covers a prefix of the context; a range beyond it is refused. The cursor stays. */
    method RecordSecondary(text: string, end: int, now: int) returns (ok: bool)
      requires Valid()
      modifies this`summaries
      ensures Valid() && ok == (0 <= end <= length)
      ensures summaries == old(summaries) + if ok then [Record(Secondary, 0, end, now, text)] else []
    {
      if end < 0 || end > length {
        return false;
      }
      summaries := summaries + [Record(Secondary, 0, end, now, text)];
      return true;
    }
  }

  lemma {:induction false} FilterKeeps(records: seq<Record>, p: Record -> bool, r: Record)
    requires r in records && p(r)
    ensures r in Filter(records, p)
    decreases |records|
  {
    if records[|records| - 1] != r {
      FilterKeeps(records[..|records| - 1], p, r);
    }
  }

  lemma {:induction false} GreedyMembers(records: seq<Record>, covered: int, k: Record)
    requires k in Greedy(records, covered)
    ensures k in records
    decreases |records|
  {
    if records[0].start < covered {
      GreedyMembers(records[1..], covered, k);
    } else if k != records[0] {
      GreedyMembers(records[1..], records[0].end, k);
    }
  }

  /** Where the replacement order begins with turns: behind the secondary summary that it takes, if any. */
  function CoveredFirst(n: nat, records: seq<Record>): int {
    var latest := Latest(Secondaries(Valids(n, records)));
    if latest.Some? then latest.value.end else 0
  }

  /**
   * Recorded turns never compete with each other: one that is not empty takes part in the replacement order exactly
   * if the secondary summary that the order takes does not reach into it or beyond it.
   */
  lemma RecordedKept(records: seq<Record>, cursor: nat, n: nat, i: nat)
    requires Chained(records, cursor) && cursor <= n
    requires i < |records| && records[i].kind.Turn? && records[i].start < records[i].end
    ensures records[i] in Order(n, records) <==> CoveredFirst(n, records) <= records[i].start
  {
    var r, covered := records[i], CoveredFirst(n, records);
    var valid := Valids(n, records);
    var kept := Greedy(ContextWindow.Turns(valid, covered), covered);
    TurnKept(records, cursor, n, i);
    var latest := Latest(Secondaries(valid));
    if latest.Some? {
      LatestKind(valid);
      assert Order(n, records) == [latest.value] + kept;
      assert latest.value != r;
    }
  }

  lemma LatestKind(valid: seq<Record>)
    requires Latest(Secondaries(valid)).Some?
    ensures Latest(Secondaries(valid)).value.kind.Secondary?
  {
    var secondary := Secondaries(valid);
    var k :| 0 <= k < |secondary| && secondary[k] == Latest(secondary).value;
    SecondaryKind(valid, k);
  }

  lemma TurnKept(records: seq<Record>, cursor: nat, n: nat, i: nat)
    requires Chained(records, cursor) && cursor <= n
    requires i < |records| && records[i].kind.Turn? && records[i].start < records[i].end
    ensures var covered := CoveredFirst(n, records);
            records[i] in Greedy(ContextWindow.Turns(Valids(n, records), covered), covered) <==>
              covered <= records[i].start
  {
    var r, covered := records[i], CoveredFirst(n, records);
    var valid := Valids(n, records);
    var sorted := ContextWindow.Turns(valid, covered);
    if covered <= r.start {
      SortSorted(TurnsFrom(valid, covered));
      FilterKeeps(records, (x: Record) => ValidRecord(n, x), r);
      FilterKeeps(valid, (x: Record) => x.kind.Turn? && x.start >= covered, r);
      SortMembers(TurnsFrom(valid, covered), r);
      var place :| 0 <= place < |sorted| && sorted[place] == r;
      if r !in Greedy(sorted, covered) {
        GreedyMaximal(sorted, covered, place);
        var k: Record :| k in Greedy(sorted, covered) && Overtakes(k, r);
        RecordedApart(records, cursor, n, k, i);
        assert false;
      }
    } else if r in Greedy(sorted, covered) {
      GreedyMembers(sorted, covered, r);
      SortMembers(TurnsFrom(valid, covered), r);
      var k :| 0 <= k < |TurnsFrom(valid, covered)| && TurnsFrom(valid, covered)[k] == r;
      TurnsBegin(valid, covered, k);
      assert false;
    }
  }

  lemma TurnsBegin(valid: seq<Record>, covered: int, k: nat)
    requires k < |TurnsFrom(valid, covered)|
    ensures TurnsFrom(valid, covered)[k].kind.Turn? && TurnsFrom(valid, covered)[k].start >= covered
  {
  }

  lemma SecondaryKind(valid: seq<Record>, i: nat)
    requires i < |Secondaries(valid)|
    ensures Secondaries(valid)[i].kind.Secondary?
  {
  }

  lemma ValidsMembers(n: nat, records: seq<Record>, r: Record)
    requires r in Valids(n, records)
    ensures r in records
  {
  }

  /** A kept turn that overtakes a recorded turn is that turn itself. */
  lemma RecordedApart(records: seq<Record>, cursor: nat, n: nat, k: Record, i: nat)
    requires Chained(records, cursor) && i < |records| && records[i].kind.Turn? && records[i].start < records[i].end
    requires Overtakes(k, records[i])
    requires var covered := CoveredFirst(n, records);
             k in Greedy(ContextWindow.Turns(Valids(n, records), covered), covered)
    ensures k == records[i]
  {
    var valid, covered := Valids(n, records), CoveredFirst(n, records);
    GreedyMembers(ContextWindow.Turns(valid, covered), covered, k);
    SortMembers(TurnsFrom(valid, covered), k);
    var a :| 0 <= a < |TurnsFrom(valid, covered)| && TurnsFrom(valid, covered)[a] == k;
    TurnsBegin(valid, covered, a);
    ValidsMembers(n, records, k);
    var j :| 0 <= j < |records| && records[j] == k;
  }
}
