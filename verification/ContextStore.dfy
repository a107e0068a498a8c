/** The compare-and-swap store: a checkpoint, append-only records, once-only receipts. */
module ContextStore {
  import opened Basics
  import opened ContextModel

  datatype Stored = Stored(
    state: Option<Checkpoint>,
    records: map<Token, Record>,
    receipts: map<ReceiptKey, Intent>)

  datatype Receipt = Receipt(key: ReceiptKey, intent: Intent)

  function Publish(records: map<Token, Record>, writes: seq<Write>): Result<map<Token, Record>, Error>
    decreases |writes|
  {
    if |writes| == 0 then Success(records)
    else
      :- Need(writes[0].ref !in records, StorageConflict);
      Publish(records[writes[0].ref := writes[0].record], writes[1..])
  }

  function Sign(receipts: map<ReceiptKey, Intent>, added: seq<Receipt>): Result<map<ReceiptKey, Intent>, Error>
    decreases |added|
  {
    if |added| == 0 then Success(receipts)
    else
      :- Need(added[0].key !in receipts, StorageConflict);
      Sign(receipts[added[0].key := added[0].intent], added[1..])
  }

  function RevisionOf(s: Option<Checkpoint>): Option<nat> {
    if s.Some? then Some(s.value.revision) else None
  }

  function AfterCommit(s: Stored, expected: Option<nat>, checkpoint: Checkpoint, writes: seq<Write>,
                       added: seq<Receipt>)
    : Result<Stored, Error>
  {
    if RevisionOf(s.state) != expected then Failure(StorageConflict)
    else
      :- Need(checkpoint.revision == if expected.None? then 0 else expected.value + 1, StorageConflict);
      var records :- Publish(s.records, writes);
      var receipts :- Sign(s.receipts, added);
      Success(Stored(Some(checkpoint), records, receipts))
  }

  /** Publishing succeeds exactly when no reference is reused; it then adds the records and changes no old one. */
  lemma {:induction false} PublishMeaning(records: map<Token, Record>, writes: seq<Write>)
    ensures Publish(records, writes).Success? <==>
              && (forall i :: 0 <= i < |writes| ==> writes[i].ref !in records)
              && (forall i, j :: 0 <= i < j < |writes| ==> writes[i].ref != writes[j].ref)
    ensures Publish(records, writes).Success? ==>
              var r := Publish(records, writes).value;
              && (forall t :: t in records ==> t in r && r[t] == records[t])
              && (forall i :: 0 <= i < |writes| ==> writes[i].ref in r && r[writes[i].ref] == writes[i].record)
              && (forall t :: t in r && t !in records ==> exists i :: 0 <= i < |writes| && writes[i].ref == t)
    decreases |writes|
  {
    if |writes| > 0 {
      var first, rest := writes[0], writes[1..];
      var records' := records[first.ref := first.record];
      PublishMeaning(records', rest);
      assert forall i :: 0 <= i < |rest| ==> rest[i] == writes[i + 1];
      if (forall i :: 0 <= i < |writes| ==> writes[i].ref !in records)
         && (forall i, j :: 0 <= i < j < |writes| ==> writes[i].ref != writes[j].ref) {
        forall i | 0 <= i < |rest| ensures rest[i].ref !in records' {
          assert writes[0].ref != writes[i + 1].ref;
        }
      }
      if Publish(records, writes).Success? {
        var r := Publish(records, writes).value;
        forall i, j | 0 <= i < j < |writes| ensures writes[i].ref != writes[j].ref {
          assert rest[j - 1].ref !in records';
          if i > 0 {
            assert rest[i - 1].ref != rest[j - 1].ref;
          }
        }
        forall i | 0 <= i < |writes|
          ensures writes[i].ref !in records && writes[i].ref in r && r[writes[i].ref] == writes[i].record
        {
          if i > 0 {
            assert rest[i - 1].ref !in records';
          } else {
            assert first.ref in records';
          }
        }
        forall t | t in r && t !in records ensures exists i :: 0 <= i < |writes| && writes[i].ref == t {
          if t in records' {
            assert writes[0].ref == t;
          } else {
            var i :| 0 <= i < |rest| && rest[i].ref == t;
            assert writes[i + 1].ref == t;
          }
        }
      }
    }
  }

  class InMemoryStore {
    var state: Option<Checkpoint>
    var records: map<Token, Record>
    var receipts: map<ReceiptKey, Intent>
    /** The fresh-name source: identities from here on have never been published. */
    var next: Id

    constructor ()
      ensures Value() == Stored(None, map[], map[]) && next == 0
    {
      state, records, receipts, next := None, map[], map[], 0;
    }

    function Value(): Stored
      reads this
    {
      Stored(state, records, receipts)
    }

    /** All or nothing: working copies of both maps are filled first and replace the old ones together. */
    method Commit(expected: Option<nat>, checkpoint: Checkpoint, writes: seq<Write>, added: seq<Receipt>)
      returns (error: Option<Error>)
      modifies this`state, this`records, this`receipts
      ensures match AfterCommit(old(Value()), expected, checkpoint, writes, added)
              case Success(s) => error.None? && Value() == s
              case Failure(e) => error == Some(e) && Value() == old(Value())
    {
      if RevisionOf(state) != expected {
        return Some(StorageConflict);
      }
      if checkpoint.revision != (if expected.None? then 0 else expected.value + 1) {
        return Some(StorageConflict);
      }
      var newRecords := records;
      var newReceipts := receipts;
      for i := 0 to |writes|
        invariant Publish(records, writes) == Publish(newRecords, writes[i..])
      {
        assert writes[i..][0] == writes[i] && writes[i..][1..] == writes[i + 1..];
        if writes[i].ref in newRecords {
          return Some(StorageConflict);
        }
        newRecords := newRecords[writes[i].ref := writes[i].record];
      }
      for i := 0 to |added|
        invariant Sign(receipts, added) == Sign(newReceipts, added[i..])
      {
        assert added[i..][0] == added[i] && added[i..][1..] == added[i + 1..];
        if added[i].key in newReceipts {
          return Some(StorageConflict);
        }
        newReceipts := newReceipts[added[i].key := added[i].intent];
      }
      records, receipts, state := newRecords, newReceipts, Some(checkpoint);
      return None;
    }
  }
}
