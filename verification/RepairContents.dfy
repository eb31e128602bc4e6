/** What recovery writes: which records are repairs, and of what. */
module RepairContents {
  import opened Options
  import opened Recovery
  import RecoveryLaws
  import opened SessionLog
  import opened Strings

  /** The last call with this id. */
  ghost predicate IsLastCall(records: seq<Record>, k: int, id: string) {
    && 0 <= k < |records| && records[k].body.AssistantToolCall? && records[k].body.callId == id
    && forall j :: k < j < |records| && records[j].body.AssistantToolCall? ==> records[j].body.callId != id
  }

  lemma {:induction false} CallIsLast(records: seq<Record>, id: string) returns (k: int)
    requires id in CallsById(records)
    ensures IsLastCall(records, k, id) && id != "" && CallsById(records)[id] == records[k]
  {
    var n := |records| - 1;
    var (front, r) := (records[..n], records[n]);
    assert records == front + [r];
    Recovery.OneMoreRecord(front, r);
    if r.body.AssistantToolCall? && r.body.callId == id {
      k := n;
    } else {
      k := CallIsLast(front, id);
    }
  }

  ghost predicate HasResult(records: seq<Record>, id: string) {
    exists r :: r in records && r.body.ToolResult? && r.body.callId == id
  }

  ghost predicate HasEnd(records: seq<Record>, turn: string) {
    exists r :: r in records && r.turn == turn && r.body.TurnTerminal?
  }

  /** A log is complete when every turn has ended and every call with an id has a result. */
  lemma {:induction false} CompleteIff(records: seq<Record>)
    ensures Complete(records) <==>
              && (forall r :: r in records ==> HasEnd(records, r.turn))
              && (forall r :: r in records && r.body.AssistantToolCall? && r.body.callId != "" ==> HasResult(records, r.body.callId))
  {
    if Complete(records) {
      forall r | r in records ensures HasEnd(records, r.turn) {
        assert r.turn in Turns(records) && r.turn !in Incomplete(records);
      }
      forall r | r in records && r.body.AssistantToolCall? && r.body.callId != "" ensures HasResult(records, r.body.callId) {
        assert IsNamedCall(r) && r.body.callId !in Orphans(records);
      }
    } else if t :| t in Incomplete(records) {
      var r :| r in records && r.turn == t;
      assert !HasEnd(records, r.turn);
    } else {
      var id :| id in Orphans(records);
      var r := CallsById(records)[id];
      assert r in records && !HasResult(records, id);
    }
  }

  // ---------------------------------------------------------------- repairs

  /** The end of a turn of the log that has none. */
  ghost predicate EndsATurn(records: seq<Record>, r: Record) {
    && r.body == TurnTerminal && !HasEnd(records, r.turn)
    && exists q :: q in records && q.turn == r.turn
  }

  /** A result for the last call with an id that has none: no value, and "interrupted" as error. */
  ghost predicate InterruptsACall(records: seq<Record>, r: Record) {
    exists k, id :: IsLastCall(records, k, id) && id != "" && !HasResult(records, id) && r.turn == records[k].turn
                    && r.body == ToolResult(id, records[k].body.toolName, JNull, Some("interrupted"))
  }

  lemma {:induction false} TerminalsEnd(turns: seq<string>, next: int)
    ensures forall r :: r in Terminals(turns, next) ==> r.body == TurnTerminal && r.turn in turns
  {
    if turns != [] {
      TerminalsEnd(turns[1..], next + 1);
    }
  }

  lemma EndedHasEnd(records: seq<Record>, turn: string)
    ensures HasEnd(records, turn) <==> turn in Ended(records)
  {}

  lemma AnsweredHasResult(records: seq<Record>, id: string)
    requires id != ""
    ensures HasResult(records, id) <==> id in Answered(records)
  {
    if r :| r in records && r.body.ToolResult? && r.body.callId == id {
      assert IsNamedResult(r);
    }
  }

  lemma TerminalsAreRepairs(records: seq<Record>, r: Record)
    requires r in MissingTerminals(records)
    ensures EndsATurn(records, r)
  {
    TerminalsEnd(Sorted(Incomplete(records)), NextSequence(records));
    assert r.turn in Incomplete(records);
    EndedHasEnd(records, r.turn);
  }

  /** The record says of this call that it was interrupted. */
  predicate Interrupts(call: Record, r: Record) {
    && call.body.AssistantToolCall? && r.turn == call.turn
    && r.body == ToolResult(call.body.callId, call.body.toolName, JNull, Some("interrupted"))
  }

  lemma {:induction false} InterruptedFrom(calls: seq<Record>, next: int, r: Record) returns (i: int)
    requires forall c :: c in calls ==> IsNamedCall(c)
    requires r in Interrupted(calls, next)
    ensures 0 <= i < |calls| && Interrupts(calls[i], r)
  {
    assert calls[0] in calls && forall c :: c in calls[1..] ==> c in calls;
    if r == InterruptedResult(calls[0], next) {
      i := 0;
    } else {
      i := InterruptedFrom(calls[1..], next + 1, r);
      i := i + 1;
    }
  }

  lemma {:induction false} ResultsAreRepairs(records: seq<Record>, r: Record)
    requires r in MissingResults(records)
    ensures InterruptsACall(records, r)
  {
    var i := InterruptedFrom(OrphanCalls(records), NextSequence(records), r);
    OrphanIsLast(records, i, OrphanCalls(records)[i], r);
  }

  lemma {:induction false} OrphanIsLast(records: seq<Record>, i: int, call: Record, r: Record)
    requires 0 <= i < |OrphanCalls(records)| && OrphanCalls(records)[i] == call && Interrupts(call, r)
    ensures InterruptsACall(records, r)
  {
    var id := Sorted(Orphans(records))[i];
    RecoveryLaws.OrphanCallAt(records, i);
    assert call == CallsById(records)[id];
    var k := CallIsLast(records, id);
    AnsweredHasResult(records, id);
    assert IsLastCall(records, k, id) && !HasResult(records, id);
  }

  /** Appended turn ends change neither calls nor results. */
  lemma {:induction false} EndsHideNothing(records: seq<Record>, ends: seq<Record>, r: Record)
    requires forall e :: e in ends ==> e.body == TurnTerminal
    requires InterruptsACall(records + ends, r)
    ensures InterruptsACall(records, r)
  {
    var all := records + ends;
    var k, id :| IsLastCall(all, k, id) && id != "" && !HasResult(all, id) && r.turn == all[k].turn
      && r.body == ToolResult(id, all[k].body.toolName, JNull, Some("interrupted"));
    assert forall i :: |records| <= i < |all| ==> all[i] == ends[i - |records|] && all[i] in ends;
    assert forall i :: 0 <= i < |records| ==> all[i] == records[i];
    assert k < |records|;
    assert forall q :: q in records ==> q in all;
    assert IsLastCall(records, k, id) && !HasResult(records, id);
  }

  /** Whatever a scan adds ends a turn that had no end or answers a call that had no result. */
  lemma {:induction false} RepairsAre(records: seq<Record>, r: Record)
    requires r in Repairs(records)
    ensures EndsATurn(records, r) || InterruptsACall(records, r)
  {
    var ends := MissingTerminals(records);
    if r in ends {
      TerminalsAreRepairs(records, r);
    } else {
      TerminalsEnd(Sorted(Incomplete(records)), NextSequence(records));
      ResultsAreRepairs(records + ends, r);
      EndsHideNothing(records, ends, r);
    }
  }
}
