/** One startup scan repairs everything, loses nothing, and leaves nothing for a second one. */
module RecoveryLaws {
  import opened LogOrder
  import opened Recovery
  import opened Sequences
  import opened SessionLog
  import opened Strings

  // ---------------------------------------------------------------- what is appended

  lemma SetsAppend(a: seq<Record>, b: seq<Record>)
    ensures Turns(a + b) == Turns(a) + Turns(b)
    ensures Ended(a + b) == Ended(a) + Ended(b)
    ensures Answered(a + b) == Answered(a) + Answered(b)
  {
    assert forall r :: r in a + b <==> r in a || r in b;
  }

  lemma {:induction false} TerminalsAre(turns: seq<string>, next: int)
    ensures |Terminals(turns, next)| == |turns|
    ensures Turns(Terminals(turns, next)) == Ended(Terminals(turns, next)) == SetOf(turns)
    ensures Answered(Terminals(turns, next)) == {}
    ensures forall r :: r in Terminals(turns, next) ==> r.body.TurnTerminal?
  {
    if turns != [] {
      var (r, rest) := (Record(next, turns[0], TurnTerminal), Terminals(turns[1..], next + 1));
      TerminalsAre(turns[1..], next + 1);
      SetsAppend([r], rest);
      assert SetOf(turns) == {turns[0]} + SetOf(turns[1..]);
      assert Turns([r]) == {turns[0]} == Ended([r]) by {
        assert r in [r];
      }
    }
  }

  lemma {:induction false} InterruptedAre(calls: seq<Record>, next: int)
    requires forall r :: r in calls ==> IsNamedCall(r)
    ensures |Interrupted(calls, next)| == |calls|
    ensures Turns(Interrupted(calls, next)) == Turns(calls) && Ended(Interrupted(calls, next)) == {}
    ensures Answered(Interrupted(calls, next)) == CallIds(calls)
    ensures forall r :: r in Interrupted(calls, next) ==> r.body.ToolResult?
  {
    if calls != [] {
      var (r, rest) := (InterruptedResult(calls[0], next), Interrupted(calls[1..], next + 1));
      InterruptedAre(calls[1..], next + 1);
      SetsAppend([r], rest);
      assert calls == [calls[0]] + calls[1..];
      SetsAppend([calls[0]], calls[1..]);
      FirstInterrupted(calls[0], next);
      assert CallIds(calls) == {calls[0].body.callId} + CallIds(calls[1..]);
    }
  }

  lemma FirstInterrupted(call: Record, next: int)
    requires IsNamedCall(call)
    ensures var r := InterruptedResult(call, next);
            Turns([r]) == Turns([call]) == {call.turn} && Ended([r]) == {} && Answered([r]) == {call.body.callId}
  {
    var r := InterruptedResult(call, next);
    assert r in [r] && call in [call] && IsNamedResult(r);
  }

  function CallIds(calls: seq<Record>): set<string> {
    set r | r in calls && IsNamedCall(r) :: r.body.callId
  }

  lemma Refill<T>(all: set<T>, some: set<T>)
    ensures all + (all - some) == all
    ensures some <= all ==> some + (all - some) == all
    ensures all - (some + (all - some)) == {}
  {}

  /** After the terminals every turn has ended. */
  lemma TerminalsEndTurns(records: seq<Record>)
    ensures var after := records + MissingTerminals(records);
            Turns(after) == Turns(records) == Ended(after)
  {
    TerminalsAre(Sorted(Incomplete(records)), NextSequence(records));
    SetsAppend(records, MissingTerminals(records));
    assert SetOf(Sorted(Incomplete(records))) == Incomplete(records);
    assert Ended(records) <= Turns(records);
    Refill(Turns(records), Ended(records));
    assert Turns(MissingTerminals(records)) == Incomplete(records) == Ended(MissingTerminals(records));
  }

  lemma {:induction false} CallsUnchanged(records: seq<Record>, added: seq<Record>)
    requires forall r :: r in added ==> !r.body.AssistantToolCall?
    ensures CallsById(records + added) == CallsById(records)
  {
    if added == [] {
      assert records + added == records;
    } else {
      var (front, r) := (added[..|added| - 1], added[|added| - 1]);
      assert r in added;
      CallsUnchanged(records, front);
      assert (records + added)[..|records + added| - 1] == records + front;
    }
  }

  lemma OrphansAfterTerminals(records: seq<Record>)
    ensures Orphans(records + MissingTerminals(records)) == Orphans(records)
  {
    TerminalsAre(Sorted(Incomplete(records)), NextSequence(records));
    SetsAppend(records, MissingTerminals(records));
    Absorb(Answered(records), {});
    CallsUnchanged(records, MissingTerminals(records));
  }

  lemma OrphanCallAt(records: seq<Record>, i: int)
    requires 0 <= i < |OrphanCalls(records)|
    ensures var (id, call) := (Sorted(Orphans(records))[i], OrphanCalls(records)[i]);
            id in Orphans(records) && call in records && IsNamedCall(call) && call.body.callId == id
  {
    assert Sorted(Orphans(records))[i] in Sorted(Orphans(records));
  }

  lemma OrphanIdsAre(records: seq<Record>)
    ensures CallIds(OrphanCalls(records)) <= Orphans(records)
    ensures Turns(OrphanCalls(records)) <= Turns(records)
  {
    var calls := OrphanCalls(records);
    forall r | r in calls ensures r in records && IsNamedCall(r) && r.body.callId in Orphans(records) {
      var i :| 0 <= i < |calls| && calls[i] == r;
      OrphanCallAt(records, i);
    }
  }

  lemma OrphanIsCalled(records: seq<Record>, id: string)
    requires id in Orphans(records)
    ensures id in CallIds(OrphanCalls(records))
  {
    var (ids, calls) := (Sorted(Orphans(records)), OrphanCalls(records));
    var i :| 0 <= i < |ids| && ids[i] == id;
    OrphanCallAt(records, i);
    assert calls[i] in calls;
  }

  lemma OrphanCallsAre(records: seq<Record>)
    ensures CallIds(OrphanCalls(records)) == Orphans(records)
    ensures Turns(OrphanCalls(records)) <= Turns(records)
  {
    OrphanIdsAre(records);
    forall id | id in Orphans(records) ensures id in CallIds(OrphanCalls(records)) {
      OrphanIsCalled(records, id);
    }
  }

  lemma Absorb<T>(all: set<T>, some: set<T>)
    requires some <= all
    ensures all + some == all && all + {} == all
  {}

  lemma ResultsAnswerCalls(records: seq<Record>)
    ensures Orphans(records + MissingResults(records)) == {}
  {
    InterruptedAre(OrphanCalls(records), NextSequence(records));
    OrphanCallsAre(records);
    SetsAppend(records, MissingResults(records));
    CallsUnchanged(records, MissingResults(records));
    Refill(CallsById(records).Keys, Answered(records));
  }

  lemma ResultsKeepTurns(records: seq<Record>)
    ensures var after := records + MissingResults(records);
            Turns(after) == Turns(records) && Ended(after) == Ended(records)
  {
    InterruptedAre(OrphanCalls(records), NextSequence(records));
    OrphanCallsAre(records);
    SetsAppend(records, MissingResults(records));
    Absorb(Turns(records), Turns(OrphanCalls(records)));
    Absorb(Ended(records), {});
  }

  /** After one scan every turn has ended and every call with an id has a result. */
  lemma ScanCompletes(records: seq<Record>)
    ensures Complete(records + Repairs(records))
  {
    var ended := records + MissingTerminals(records);
    TerminalsEndTurns(records);
    ResultsAnswerCalls(ended);
    ResultsKeepTurns(ended);
    RepairsTogether(records);
  }

  lemma RepairsTogether(records: seq<Record>)
    ensures var ended := records + MissingTerminals(records);
            records + Repairs(records) == ended + MissingResults(ended)
  {
    var terminals := MissingTerminals(records);
    Assoc(records, terminals, MissingResults(records + terminals));
  }

  /** The scan adds one record for each incomplete turn and one for each orphan call. */
  lemma RepairsAreCounted(records: seq<Record>)
    ensures |Repairs(records)| == |Incomplete(records)| + |Orphans(records)|
  {
    var ended := records + MissingTerminals(records);
    TerminalsAre(Sorted(Incomplete(records)), NextSequence(records));
    InterruptedAre(OrphanCalls(ended), NextSequence(ended));
    OrphansAfterTerminals(records);
  }

  /** Nothing is added exactly when the log is complete, so a second scan finds nothing. */
  lemma ScanIsFixpoint(records: seq<Record>)
    ensures Repairs(records) == [] <==> Complete(records)
    ensures Repairs(records + Repairs(records)) == []
  {
    RepairsAreCounted(records);
    ScanCompletes(records);
    RepairsAreCounted(records + Repairs(records));
  }

  // ---------------------------------------------------------------- sequence numbers

  /** Numbered on from `next`, one by one. */
  ghost predicate NumberedFrom(records: seq<Record>, next: int) {
    forall i :: 0 <= i < |records| ==> records[i].sequence == next + i
  }

  lemma {:induction false} TerminalsNumbered(turns: seq<string>, next: int)
    ensures NumberedFrom(Terminals(turns, next), next)
  {
    if turns != [] {
      TerminalsNumbered(turns[1..], next + 1);
    }
  }

  lemma {:induction false} InterruptedNumbered(calls: seq<Record>, next: int)
    requires forall r :: r in calls ==> IsNamedCall(r)
    ensures NumberedFrom(Interrupted(calls, next), next)
  {
    if calls != [] {
      InterruptedNumbered(calls[1..], next + 1);
    }
  }

  lemma NextAfter(records: seq<Record>, added: seq<Record>)
    requires records != [] && NumberedFrom(added, NextSequence(records))
    ensures NextSequence(records + added) == NextSequence(records) + |added|
  {
    if added == [] {
      assert records + added == records;
    } else {
      assert (records + added)[|records + added| - 1] == added[|added| - 1];
    }
  }

  lemma NumberedTogether(a: seq<Record>, b: seq<Record>, next: int)
    requires NumberedFrom(a, next) && NumberedFrom(b, next + |a|)
    ensures NumberedFrom(a + b, next)
  {}

  lemma RepairsAreNumbered(records: seq<Record>)
    requires records != []
    ensures NumberedFrom(Repairs(records), NextSequence(records))
  {
    var terminals := MissingTerminals(records);
    var ended := records + terminals;
    TerminalsNumbered(Sorted(Incomplete(records)), NextSequence(records));
    NextAfter(records, terminals);
    InterruptedNumbered(OrphanCalls(ended), NextSequence(ended));
    NumberedTogether(terminals, MissingResults(ended), NextSequence(records));
  }

  lemma NumberedOnStaysInOrder(records: seq<Record>, added: seq<Record>)
    requires records != [] && InOrder(records) && NumberedFrom(added, NextSequence(records))
    ensures InOrder(records + added)
  {
    var after := records + added;
    forall i, j | 0 <= i < j < |after| ensures after[i].sequence < after[j].sequence {
      assert i < |records| ==> records[i].sequence < NextSequence(records);
    }
  }

  /** The old log stays as it is, and sequence numbers still strictly increase. */
  lemma ScanKeepsOrder(records: seq<Record>)
    requires records != [] && InOrder(records)
    ensures records <= records + Repairs(records)
    ensures InOrder(records + Repairs(records))
  {
    RepairsAreNumbered(records);
    NumberedOnStaysInOrder(records, Repairs(records));
  }

  ghost predicate Ascends(records: seq<Record>) {
    forall i, j :: 0 <= i < j < |records| ==> records[i].sequence <= records[j].sequence
  }

  lemma {:induction false} SortedAscends(records: seq<Record>)
    ensures Ascends(SortBySequence(records))
  {
    if records != [] {
      SortedAscends(records[..|records| - 1]);
      InsertAscends(SortBySequence(records[..|records| - 1]), records[|records| - 1]);
    }
  }

  lemma {:induction false} InsertAscends(records: seq<Record>, r: Record)
    requires Ascends(records)
    ensures Ascends(InsertBySequence(records, r))
    ensures forall x :: x in InsertBySequence(records, r) <==> x in records || x == r
  {
    if records != [] && records[0].sequence <= r.sequence {
      InsertAscends(records[1..], r);
      var t := InsertBySequence(records[1..], r);
      assert forall x :: x in records <==> x == records[0] || x in records[1..];
      forall j | 0 <= j < |t| ensures records[0].sequence <= t[j].sequence {
        assert t[j] in t;
      }
    }
  }

  /** Records appended to a file with higher numbers, in order, are read after everything else. */
  lemma {:induction false} SortSnoc(records: seq<Record>, r: Record)
    ensures SortBySequence(records + [r]) == InsertBySequence(SortBySequence(records), r)
  {
    assert (records + [r])[..|records + [r]| - 1] == records;
  }

  lemma {:induction false} SortedBelow(file: seq<Record>, r: Record)
    requires forall i :: 0 <= i < |file| ==> file[i].sequence < r.sequence
    ensures forall i :: 0 <= i < |SortBySequence(file)| ==> SortBySequence(file)[i].sequence <= r.sequence
  {
    SortMembers(file, x => true);
    forall i | 0 <= i < |SortBySequence(file)| ensures SortBySequence(file)[i].sequence <= r.sequence {
      assert SortBySequence(file)[i] in SortBySequence(file);
    }
  }

  lemma {:induction false} AppendedComesLast(file: seq<Record>, added: seq<Record>)
    requires InOrder(added)
    requires forall i, j :: 0 <= i < |file| && 0 <= j < |added| ==> file[i].sequence < added[j].sequence
    ensures SortBySequence(file + added) == SortBySequence(file) + added
  {
    if added == [] {
      assert file + added == file;
    } else {
      var (front, r) := (added[..|added| - 1], added[|added| - 1]);
      assert added == front + [r];
      AppendedComesLast(file, front);
      SortedBelow(file, r);
      OneComesLast(file, front, r);
    }
  }

  lemma {:induction false} OneComesLast(file: seq<Record>, front: seq<Record>, r: Record)
    requires SortBySequence(file + front) == SortBySequence(file) + front
    requires forall i :: 0 <= i < |SortBySequence(file)| ==> SortBySequence(file)[i].sequence <= r.sequence
    requires forall i :: 0 <= i < |front| ==> front[i].sequence <= r.sequence
    ensures SortBySequence(file + (front + [r])) == SortBySequence(file) + (front + [r])
  {
    Assoc(file, front, [r]);
    SortSnoc(file + front, r);
    InsertLast(SortBySequence(file) + front, r);
    Assoc(SortBySequence(file), front, [r]);
  }

  lemma {:induction false} SortedBelowNext(file: seq<Record>)
    requires file != []
    ensures SortBySequence(file) != []
    ensures forall i :: 0 <= i < |file| ==> file[i].sequence < NextSequence(SortBySequence(file))
  {
    var log := SortBySequence(file);
    SortMembers(file, x => true);
    SortedAscends(file);
    assert file[0] in file;
    forall i | 0 <= i < |file| ensures file[i].sequence < NextSequence(log) {
      assert file[i] in file;
      BelowNext(log, file[i]);
    }
  }

  lemma BelowNext(log: seq<Record>, r: Record)
    requires Ascends(log) && r in log
    ensures r.sequence < NextSequence(log)
  {
    var k :| 0 <= k < |log| && log[k] == r;
  }

  /** What is read after the repairs of a log are appended to its file: the log, then the repairs. */
  lemma {:induction false} RepairedFileReads(file: seq<Record>)
    requires file != []
    ensures SortBySequence(file + Repairs(SortBySequence(file)))
         == SortBySequence(file) + Repairs(SortBySequence(file))
  {
    SortedBelowNext(file);
    RepairsAreNumbered(SortBySequence(file));
    AppendedComesLast(file, Repairs(SortBySequence(file)));
  }
}
