/** The order of a session log: reading sorts by sequence number (src/assistant/store/filesystem/session.py). */
module LogOrder {
  import opened SessionLog
  import opened Sequences

  /** `sorted(records, key=sequence)`, stable. */
  function InsertBySequence(sorted: seq<Record>, r: Record): seq<Record> {
    if sorted == [] then [r]
    else if sorted[0].sequence <= r.sequence then [sorted[0]] + InsertBySequence(sorted[1..], r)
    else [r] + sorted
  }

  function SortBySequence(records: seq<Record>): seq<Record> {
    if records == [] then []
    else InsertBySequence(SortBySequence(records[..|records| - 1]), records[|records| - 1])
  }

  /** Sequence numbers strictly increase, as the store assigns them. */
  ghost predicate InOrder(records: seq<Record>) {
    forall i, j :: 0 <= i < j < |records| ==> records[i].sequence < records[j].sequence
  }

  lemma {:induction false} InsertLast(records: seq<Record>, r: Record)
    requires forall i :: 0 <= i < |records| ==> records[i].sequence <= r.sequence
    ensures InsertBySequence(records, r) == records + [r]
  {
    if records != [] {
      InsertLast(records[1..], r);
    }
  }

  lemma {:induction false} SortedStays(records: seq<Record>)
    requires InOrder(records)
    ensures SortBySequence(records) == records
  {
    if records != [] {
      var n := |records| - 1;
      SortedStays(records[..n]);
      InsertLast(records[..n], records[n]);
    }
  }

  lemma {:induction false} InsertMembers(records: seq<Record>, r: Record, p: Record -> bool)
    ensures forall x :: x in InsertBySequence(records, r) <==> x in records || x == r
    ensures |Filter(InsertBySequence(records, r), p)| == |Filter(records, p)| + if p(r) then 1 else 0
  {
    if records != [] && records[0].sequence <= r.sequence {
      InsertMembers(records[1..], r, p);
      assert records == [records[0]] + records[1..];
      assert InsertBySequence(records, r)[1..] == InsertBySequence(records[1..], r);
    }
  }

  /** Sorting neither loses nor adds a record. */
  lemma {:induction false} SortMembers(records: seq<Record>, p: Record -> bool)
    ensures forall x :: x in SortBySequence(records) <==> x in records
    ensures |Filter(SortBySequence(records), p)| == |Filter(records, p)|
  {
    if records != [] {
      var (front, r) := (records[..|records| - 1], records[|records| - 1]);
      SortMembers(front, p);
      InsertMembers(SortBySequence(front), r, p);
      assert records == front + [r];
      FilterSplit(front, [r], p);
    }
  }
}
