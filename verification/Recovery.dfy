/** The startup scan that repairs session logs (src/assistant/store/facade.py). */
module Recovery {
  import opened Options
  import opened Sequences
  import opened SessionLog
  import opened Strings

  // ---------------------------------------------------------------- what is missing

  function Turns(records: seq<Record>): set<string> {
    set r | r in records :: r.turn
  }

  function Ended(records: seq<Record>): set<string> {
    set r | r in records && r.body.TurnTerminal? :: r.turn
  }

  function Incomplete(records: seq<Record>): set<string> {
    Turns(records) - Ended(records)
  }

  predicate IsNamedCall(r: Record) { r.body.AssistantToolCall? && r.body.callId != "" }
  predicate IsNamedResult(r: Record) { r.body.ToolResult? && r.body.callId != "" }

  /** The last call of each id; calls without an id cannot be answered. */
  function CallsById(records: seq<Record>): (calls: map<string, Record>)
    ensures forall id :: id in calls ==> calls[id] in records && IsNamedCall(calls[id]) && calls[id].body.callId == id
    ensures forall r :: r in records && IsNamedCall(r) ==> r.body.callId in calls
  {
    if records == [] then map[]
    else
      var (front, r) := (records[..|records| - 1], records[|records| - 1]);
      assert records == front + [r];
      if IsNamedCall(r) then CallsById(front)[r.body.callId := r] else CallsById(front)
  }

  function Answered(records: seq<Record>): set<string> {
    set r | r in records && IsNamedResult(r) :: r.body.callId
  }

  function Orphans(records: seq<Record>): set<string> {
    CallsById(records).Keys - Answered(records)
  }

  /** Every turn has ended and every call with an id has a result. */
  predicate Complete(records: seq<Record>) {
    Incomplete(records) == {} && Orphans(records) == {}
  }

  // ---------------------------------------------------------------- repairs

  function NextSequence(records: seq<Record>): int {
    if records == [] then 0 else records[|records| - 1].sequence + 1
  }

  function Terminals(turns: seq<string>, next: int): seq<Record> {
    if turns == [] then [] else [Record(next, turns[0], TurnTerminal)] + Terminals(turns[1..], next + 1)
  }

  function InterruptedResult(call: Record, sequence: int): Record
    requires IsNamedCall(call)
  {
    Record(sequence, call.turn, ToolResult(call.body.callId, call.body.toolName, JNull, Some("interrupted")))
  }

  function Interrupted(calls: seq<Record>, next: int): seq<Record>
    requires forall r :: r in calls ==> IsNamedCall(r)
  {
    if calls == [] then [] else [InterruptedResult(calls[0], next)] + Interrupted(calls[1..], next + 1)
  }

  /** The calls of the given ids. */
  function CallsOf(ids: seq<string>, calls: map<string, Record>): (r: seq<Record>)
    requires forall id :: id in ids ==> id in calls && IsNamedCall(calls[id])
    ensures |r| == |ids| && forall i :: 0 <= i < |ids| ==> r[i] == calls[ids[i]]
    ensures forall c :: c in r ==> IsNamedCall(c)
  {
    if ids == [] then [] else [calls[ids[0]]] + CallsOf(ids[1..], calls)
  }

  function OrphanCalls(records: seq<Record>): (calls: seq<Record>)
    ensures forall r :: r in calls ==> IsNamedCall(r)
    ensures |calls| == |Orphans(records)|
  {
    CallsOf(Sorted(Orphans(records)), CallsById(records))
  }

  function MissingTerminals(records: seq<Record>): seq<Record> {
    Terminals(Sorted(Incomplete(records)), NextSequence(records))
  }

  function MissingResults(records: seq<Record>): seq<Record> {
    Interrupted(OrphanCalls(records), NextSequence(records))
  }

  /** All that one scan appends to a log: terminals first, then results. */
  function Repairs(records: seq<Record>): seq<Record> {
    var terminals := MissingTerminals(records);
    terminals + MissingResults(records + terminals)
  }

  // ---------------------------------------------------------------- loops

  method EndTurns(turns: seq<string>, next: int) returns (synthetic: seq<Record>)
    ensures synthetic == Terminals(turns, next)
  {
    synthetic := [];
    var nextSeq := next;
    var i := 0;
    while i < |turns|
      invariant 0 <= i <= |turns|
      invariant synthetic + Terminals(turns[i..], nextSeq) == Terminals(turns, next)
    {
      assert turns[i..][1..] == turns[i + 1..];
      Assoc(synthetic, [Record(nextSeq, turns[i], TurnTerminal)], Terminals(turns[i + 1..], nextSeq + 1));
      synthetic := synthetic + [Record(nextSeq, turns[i], TurnTerminal)];
      nextSeq := nextSeq + 1;
      i := i + 1;
    }
  }

  method CreateSyntheticTerminals(existing: seq<Record>, incomplete: set<string>) returns (synthetic: seq<Record>)
    ensures synthetic == Terminals(Sorted(incomplete), NextSequence(existing))
  {
    synthetic := EndTurns(Sorted(incomplete), NextSequence(existing));
  }

  method CollectTurns(records: seq<Record>) returns (turnIds: set<string>, terminalTurns: set<string>)
    ensures turnIds == Turns(records) && terminalTurns == Ended(records)
  {
    turnIds, terminalTurns := {}, {};
    var i := 0;
    while i < |records|
      invariant 0 <= i <= |records|
      invariant turnIds == Turns(records[..i]) && terminalTurns == Ended(records[..i])
    {
      assert records[..i + 1] == records[..i] + [records[i]];
      turnIds := turnIds + {records[i].turn};
      if records[i].body.TurnTerminal? {
        terminalTurns := terminalTurns + {records[i].turn};
      }
      i := i + 1;
    }
    assert records[..i] == records;
  }

  lemma {:induction false} OneMoreRecord(front: seq<Record>, r: Record)
    ensures CallsById(front + [r])
         == if IsNamedCall(r) then CallsById(front)[r.body.callId := r] else CallsById(front)
    ensures Answered(front + [r]) == Answered(front) + if IsNamedResult(r) then {r.body.callId} else {}
  {
    assert (front + [r])[..|front + [r]| - 1] == front;
    assert forall x :: x in front + [r] <==> x in front || x == r;
  }

  /** One turn of the loop over the records. */
  method AddCall(r: Record, calls: map<string, Record>, answered: set<string>)
    returns (toolCalls: map<string, Record>, resultIds: set<string>)
    ensures toolCalls == if IsNamedCall(r) then calls[r.body.callId := r] else calls
    ensures resultIds == answered + if IsNamedResult(r) then {r.body.callId} else {}
  {
    toolCalls, resultIds := calls, answered;
    if r.body.AssistantToolCall? {
      if r.body.callId != "" {
        toolCalls := toolCalls[r.body.callId := r];
      }
    } else if r.body.ToolResult? {
      if r.body.callId != "" {
        resultIds := resultIds + {r.body.callId};
      }
    }
  }

  method CollectCalls(records: seq<Record>) returns (toolCalls: map<string, Record>, resultIds: set<string>)
    ensures toolCalls == CallsById(records) && resultIds == Answered(records)
  {
    toolCalls, resultIds := map[], {};
    var i := 0;
    while i < |records|
      invariant 0 <= i <= |records|
      invariant toolCalls == CallsById(records[..i]) && resultIds == Answered(records[..i])
    {
      assert records[..i + 1] == records[..i] + [records[i]];
      OneMoreRecord(records[..i], records[i]);
      toolCalls, resultIds := AddCall(records[i], toolCalls, resultIds);
      i := i + 1;
    }
    assert records[..i] == records;
  }

  method InterruptCalls(calls: seq<Record>, next: int) returns (synthetic: seq<Record>)
    requires forall r :: r in calls ==> IsNamedCall(r)
    ensures synthetic == Interrupted(calls, next)
  {
    synthetic := [];
    var nextSeq := next;
    var i := 0;
    while i < |calls|
      invariant 0 <= i <= |calls|
      invariant synthetic + Interrupted(calls[i..], nextSeq) == Interrupted(calls, next)
    {
      assert calls[i..][1..] == calls[i + 1..];
      Assoc(synthetic, [InterruptedResult(calls[i], nextSeq)], Interrupted(calls[i + 1..], nextSeq + 1));
      synthetic := synthetic + [InterruptedResult(calls[i], nextSeq)];
      nextSeq := nextSeq + 1;
      i := i + 1;
    }
  }

  method CreateOrphanToolResults(records: seq<Record>) returns (synthetic: seq<Record>)
    ensures synthetic == MissingResults(records)
  {
    var toolCalls, resultIds := CollectCalls(records);
    var orphanIds := toolCalls.Keys - resultIds;
    if orphanIds == {} {
      assert OrphanCalls(records) == [];
      return [];
    }
    var ids := Sorted(orphanIds);
    synthetic := InterruptCalls(CallsOf(ids, toolCalls), NextSequence(records));
  }
}
