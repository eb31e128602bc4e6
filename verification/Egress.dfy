/** Chunked sending that resumes after failures (src/assistant/channels/telegram/egress.py). */
module Egress {
  import opened Options

  const MAX_LENGTH := 4096

  // ---------------------------------------------------------------- splitting

  function Concat(chunks: seq<string>): string {
    if chunks == [] then "" else Concat(chunks[..|chunks| - 1]) + chunks[|chunks| - 1]
  }

  /** `text.rfind("\n", start, end)` */
  method FindLastNewline(text: string, start: nat, end: nat) returns (at: int)
    requires start <= end <= |text|
    ensures at == -1 || start <= at < end
    ensures at >= 0 ==> text[at] == '\n'
    ensures forall i :: start <= i < end && i > at ==> text[i] != '\n'
  {
    at := end;
    while at > start
      invariant start <= at <= end
      invariant forall i :: at <= i < end ==> text[i] != '\n'
    {
      at := at - 1;
      if text[at] == '\n' {
        return;
      }
    }
    at := -1;
  }

  /**
   * Where a chunk that is not the last ends: behind the last newline among the next 4096 characters,
   * unless that is the first of them; else after all of them.
   */
  predicate BreaksWell(text: string, start: nat, end: nat)
    requires start < end <= |text|
  {
    var limit := start + 4096;
    limit < |text|
    && if exists i :: start < i < limit && text[i] == '\n'
       then end <= limit && text[end - 1] == '\n' && end - 1 > start && (forall i :: end <= i < limit ==> text[i] != '\n')
       else end == limit
  }

  /** Where the chunk from `start` on ends. */
  method ChunkEnd(text: string, start: nat) returns (end: nat)
    requires start < |text|
    ensures start < end <= |text| && end <= start + 4096
    ensures end < |text| ==> BreaksWell(text, start, end)
    ensures start + 4096 >= |text| ==> end == |text|
  {
    end := if start + MAX_LENGTH < |text| then start + MAX_LENGTH else |text|;
    if end < |text| {
      var splitAt := FindLastNewline(text, start, end);
      if splitAt > start {
        end := splitAt + 1;
      }
    }
  }

  /** The chunks are the text, cut where a chunk ends. */
  ghost predicate WellCut(text: string, start: nat, chunks: seq<string>)
    requires start <= |text|
    decreases |chunks|
  {
    if chunks == [] then start == |text|
    else
      var end := start + |chunks[0]|;
      && start < end <= |text| && chunks[0] == text[start..end] && end <= start + 4096
      && (end < |text| ==> BreaksWell(text, start, end))
      && WellCut(text, end, chunks[1..])
  }

  /** `_split_text` */
  method SplitText(text: string) returns (chunks: seq<string>)
    ensures Concat(chunks) == text
    ensures chunks != []
    ensures forall i :: 0 <= i < |chunks| ==> |chunks[i]| <= 4096
    ensures text != "" ==> forall i :: 0 <= i < |chunks| ==> chunks[i] != ""
    ensures |text| <= 4096 ==> chunks == [text]
    ensures text != "" ==> WellCut(text, 0, chunks)
  {
    if |text| <= MAX_LENGTH {
      chunks := [text];
      assert chunks[..0] == [] && chunks[1..] == [];
      assert Concat(chunks) == "" + text;
      return;
    }
    chunks := [];
    var start := 0;
    ghost var cuts: seq<nat> := [0];
    while start < |text|
      invariant 0 <= start <= |text|
      invariant Concat(chunks) == text[..start]
      invariant start > 0 ==> chunks != []
      invariant forall i :: 0 <= i < |chunks| ==> 0 < |chunks[i]| <= 4096
      invariant |cuts| == |chunks| + 1 && cuts[0] == 0 && cuts[|chunks|] == start
      invariant forall i :: 0 <= i < |chunks| ==> CutAt(text, cuts[i], cuts[i + 1], chunks[i])
    {
      var end := ChunkEnd(text, start);
      var chunk := text[start..end];
      assert (chunks + [chunk])[..|chunks|] == chunks;
      assert text[..end] == text[..start] + chunk;
      chunks, cuts := chunks + [chunk], cuts + [end];
      start := end;
    }
    assert text[..start] == text;
    CutsAreWell(text, chunks, cuts);
  }

  ghost predicate CutAt(text: string, start: nat, end: nat, chunk: string) {
    && start < end <= |text| && chunk == text[start..end] && end <= start + 4096
    && (end < |text| ==> BreaksWell(text, start, end))
  }

  lemma {:induction false} CutsAreWell(text: string, chunks: seq<string>, cuts: seq<nat>)
    requires |cuts| == |chunks| + 1 && cuts[0] <= |text| == cuts[|chunks|]
    requires forall i :: 0 <= i < |chunks| ==> CutAt(text, cuts[i], cuts[i + 1], chunks[i])
    ensures WellCut(text, cuts[0], chunks)
    decreases |chunks|
  {
    if chunks != [] {
      assert CutAt(text, cuts[0], cuts[1], chunks[0]);
      forall i | 0 <= i < |chunks[1..]| ensures CutAt(text, cuts[1..][i], cuts[1..][i + 1], chunks[1..][i]) {
        assert CutAt(text, cuts[i + 1], cuts[i + 2], chunks[i + 1]);
      }
      CutsAreWell(text, chunks[1..], cuts[1..]);
    }
  }

  // ---------------------------------------------------------------- sending

  /** What the Bot API does with one call. */
  datatype Outcome = Delivered | RetryAfter | NetworkError | OtherError

  datatype Message<M> = Message(text: string, markup: Option<M>)

  function Failures(script: nat -> Outcome, calls: nat): nat {
    if calls == 0 then 0 else Failures(script, calls - 1) + if script(calls - 1).Delivered? then 0 else 1
  }

  predicate Fatal(script: nat -> Outcome, calls: nat) {
    exists i :: 0 <= i < calls && script(i).OtherError?
  }

  /**
   * `send`, with the outcome of each call given by a script. Deliveries are the first chunks in order,
   * each once, and the markup goes with the last chunk; True means all of them. The error is raised exactly when an error is fatal, or failures
   * have used up all attempts.
   */
  method Send<M>(chunks: seq<string>, markup: Option<M>, maxAttempts: int, script: nat -> Outcome)
    returns (delivered: seq<Message<M>>, calls: nat, sent: bool)
    ensures |delivered| <= |chunks|
    ensures forall i :: 0 <= i < |delivered| ==>
              delivered[i] == Message(chunks[i], if i == |chunks| - 1 then markup else None)
    ensures sent ==> |delivered| == |chunks|
    ensures !sent && maxAttempts > 0 ==> |delivered| < |chunks|
    ensures calls == |delivered| + Failures(script, calls)
    ensures sent <==> maxAttempts > 0 && !Fatal(script, calls) && Failures(script, calls) < maxAttempts
    ensures !sent && maxAttempts > 0 ==>
              calls > 0 && (script(calls - 1).OtherError? || Failures(script, calls) == maxAttempts)
    ensures calls <= |chunks| + if maxAttempts > 0 then maxAttempts else 0
  {
    delivered, calls := [], 0;
    var sentChunks := 0;
    var attempt := 1;
    while attempt <= maxAttempts
      invariant if maxAttempts > 0 then 1 <= attempt <= maxAttempts + 1 else attempt == 1
      invariant sentChunks == |delivered| <= |chunks|
      invariant forall i :: 0 <= i < |delivered| ==>
                  delivered[i] == Message(chunks[i], if i == |chunks| - 1 then markup else None)
      invariant calls == sentChunks + Failures(script, calls) && Failures(script, calls) == attempt - 1
      invariant !Fatal(script, calls)
      invariant attempt > 1 ==> calls > 0 && sentChunks < |chunks|
      decreases maxAttempts - attempt
    {
      var outcome := Delivered;
      while sentChunks < |chunks| && outcome.Delivered?
        invariant sentChunks == |delivered| <= |chunks|
        invariant forall i :: 0 <= i < |delivered| ==>
                    delivered[i] == Message(chunks[i], if i == |chunks| - 1 then markup else None)
        invariant calls == sentChunks + Failures(script, calls)
        invariant if outcome.Delivered? then Failures(script, calls) == attempt - 1 && !Fatal(script, calls)
                  else && Failures(script, calls) == attempt && calls > 0 && outcome == script(calls - 1)
                       && !Fatal(script, calls - 1) && sentChunks < |chunks|
        decreases |chunks| - sentChunks, outcome.Delivered?
      {
        var isLast := sentChunks == |chunks| - 1;
        outcome := script(calls);
        calls := calls + 1;
        if outcome.Delivered? {
          delivered := delivered + [Message(chunks[sentChunks], if isLast then markup else None)];
          sentChunks := sentChunks + 1;
        }
      }
      if outcome.Delivered? {
        return delivered, calls, true;
      }
      if outcome.OtherError? {
        assert Fatal(script, calls);
        return delivered, calls, false;
      }
      attempt := attempt + 1;
    }
    sent := false;
  }
}
