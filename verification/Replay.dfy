/**
 * Session records become messages for the model (`records_to_messages`,
 * src/assistant/core/orchestrator/payloads.py): a text and the tool calls after it form one
 * assistant message, a run of results one user message.
 */
module Replay {
  import opened SessionLog

  predicate IsCall(r: Record) { r.body.AssistantToolCall? }
  predicate IsResult(r: Record) { r.body.ToolResult? }
  predicate IsMemory(r: Record)
    requires IsCall(r) || IsResult(r)
  {
    r.body.toolName == MEMORY_TOOL_NAME
  }

  /** The length of the longest prefix of tool calls. */
  function CallRun(recs: seq<Record>): (n: nat)
    ensures n <= |recs|
    ensures forall i :: 0 <= i < n ==> IsCall(recs[i])
    ensures n < |recs| ==> !IsCall(recs[n])
  {
    if recs != [] && IsCall(recs[0]) then 1 + CallRun(recs[1..]) else 0
  }

  /** The length of the longest prefix of tool results. */
  function ResultRun(recs: seq<Record>): (n: nat)
    ensures n <= |recs|
    ensures forall i :: 0 <= i < n ==> IsResult(recs[i])
    ensures n < |recs| ==> !IsResult(recs[n])
  {
    if recs != [] && IsResult(recs[0]) then 1 + ResultRun(recs[1..]) else 0
  }

  /** `_record_to_tool_use_block`: unreadable arguments count as no arguments. */
  function ToolUse(c: Codec, r: Record): Block
    requires IsCall(r)
  {
    UseBlock(r.body.callId, r.body.toolName,
             match c.loads(r.body.argumentsJson) case Some(j) => j case None => JObject([]))
  }

  function Uses(c: Codec, calls: seq<Record>): seq<Block>
    requires forall i :: 0 <= i < |calls| ==> IsCall(calls[i])
  {
    if calls == [] then []
    else (if IsMemory(calls[0]) then [] else [ToolUse(c, calls[0])]) + Uses(c, calls[1..])
  }

  function ResultOf(c: Codec, r: Record): Block
    requires IsResult(r)
  {
    ResultBlock(r.body.callId, r.body.toolName,
                if r.body.result.JNull? then "" else c.dumps(r.body.result), r.body.error.Some?)
  }

  /** `seen[tid] = block` on a dict that remembers when a key first came in. */
  function Put(seen: seq<Block>, b: Block): seq<Block>
    requires b.ResultBlock? && forall i :: 0 <= i < |seen| ==> seen[i].ResultBlock?
    ensures forall i :: 0 <= i < |Put(seen, b)| ==> Put(seen, b)[i].ResultBlock?
  {
    if seen == [] then [b]
    else if seen[0].id == b.id then [b] + seen[1..]
    else [seen[0]] + Put(seen[1..], b)
  }

  /** The blocks of a run of results, one per call id. */
  function Collect(c: Codec, results: seq<Record>, seen: seq<Block>): seq<Block>
    requires forall i :: 0 <= i < |results| ==> IsResult(results[i])
    requires forall i :: 0 <= i < |seen| ==> seen[i].ResultBlock?
    ensures forall i :: 0 <= i < |Collect(c, results, seen)| ==> Collect(c, results, seen)[i].ResultBlock?
  {
    if results == [] then seen
    else if IsMemory(results[0]) then Collect(c, results[1..], seen)
    else Collect(c, results[1..], Put(seen, ResultOf(c, results[0])))
  }

  function PlainText(role: Role, content: string): seq<LLMMessage> {
    if content == "" then [] else [LLMMessage(role, content, [])]
  }

  function WithBlocks(role: Role, blocks: seq<Block>): seq<LLMMessage> {
    if blocks == [] then [] else [LLMMessage(role, "", blocks)]
  }

  /** An assistant message: lone text stays text, anything else becomes blocks. */
  function AssistantTurn(content: string, uses: seq<Block>): seq<LLMMessage> {
    if uses == [] then PlainText(Assistant, content)
    else WithBlocks(Assistant, (if content == "" then [] else [TextBlock(content)]) + uses)
  }

  /** How many records form the first group of a non-empty log. */
  function GroupSize(recs: seq<Record>): (n: nat)
    requires recs != []
    ensures 1 <= n <= |recs|
  {
    match recs[0].body
    case AssistantMessage(_, _) => 1 + CallRun(recs[1..])
    case AssistantToolCall(_, _, _) => CallRun(recs)
    case ToolResult(_, _, _, _) => ResultRun(recs)
    case _ => 1
  }

  /** The message of the first group, if it has one. */
  function GroupMessage(c: Codec, recs: seq<Record>): seq<LLMMessage>
    requires recs != []
  {
    match recs[0].body
    case UserMessage(content) => PlainText(User, content)
    case CompactionSummary(content) => PlainText(User, content)
    case AssistantMessage(content, _) => AssistantTurn(content, Uses(c, recs[1..][..CallRun(recs[1..])]))
    case AssistantToolCall(_, _, _) => WithBlocks(Assistant, Uses(c, recs[..CallRun(recs)]))
    case ToolResult(_, _, _, _) => WithBlocks(User, Collect(c, recs[..ResultRun(recs)], []))
    case _ => []
  }

  function Messages(c: Codec, recs: seq<Record>): seq<LLMMessage>
    decreases |recs|
  {
    if recs == [] then [] else GroupMessage(c, recs) + Messages(c, recs[GroupSize(recs)..])
  }

  // ---------------------------------------------------------------- the loops of the source

  /** The inner loop over tool calls, from index `i`. */
  method GroupCalls(c: Codec, records: seq<Record>, i: nat, before: seq<Block>)
    returns (blocks: seq<Block>, j: nat)
    requires i <= |records|
    ensures j == i + CallRun(records[i..]) <= |records|
    ensures blocks == before + Uses(c, records[i..][..CallRun(records[i..])])
  {
    blocks, j := before, i;
    ghost var run := records[i..][..CallRun(records[i..])];
    while j < |records| && IsCall(records[j])
      invariant i <= j <= i + |run|
      invariant blocks + Uses(c, run[j - i..]) == before + Uses(c, run)
    {
      assert run[j - i] == records[j];
      if records[j].body.toolName != MEMORY_TOOL_NAME {
        blocks := blocks + [ToolUse(c, records[j])];
      }
      j := j + 1;
    }
  }

  /** The inner loop over results, from index `i`. */
  method GroupResults(c: Codec, records: seq<Record>, i: nat)
    returns (blocks: seq<Block>, j: nat)
    requires i <= |records|
    ensures j == i + ResultRun(records[i..]) <= |records|
    ensures blocks == Collect(c, records[i..][..ResultRun(records[i..])], [])
  {
    blocks, j := [], i;
    ghost var run := records[i..][..ResultRun(records[i..])];
    while j < |records| && IsResult(records[j])
      invariant i <= j <= i + |run|
      invariant forall k :: 0 <= k < |blocks| ==> blocks[k].ResultBlock?
      invariant Collect(c, run[j - i..], blocks) == Collect(c, run, [])
    {
      assert run[j - i] == records[j];
      if records[j].body.toolName != MEMORY_TOOL_NAME {
        blocks := Put(blocks, ResultOf(c, records[j]));
      }
      j := j + 1;
    }
  }

  /** One turn of the outer loop, at index `i`. */
  method NextGroup(c: Codec, records: seq<Record>, i: nat) returns (messages: seq<LLMMessage>, j: nat)
    requires i < |records|
    ensures messages == GroupMessage(c, records[i..])
    ensures j == i + GroupSize(records[i..]) <= |records|
  {
    messages, j := [], i + 1;
    match records[i].body {
      case UserMessage(content) =>
        if content != "" {
          messages := [LLMMessage(User, content, [])];
        }
      case CompactionSummary(content) =>
        if content != "" {
          messages := [LLMMessage(User, content, [])];
        }
      case AssistantMessage(content, _) =>
        var blocks;
        blocks, j := GroupCalls(c, records, i + 1, if content == "" then [] else [TextBlock(content)]);
        assert records[i + 1..] == records[i..][1..];
        ghost var uses := Uses(c, records[i..][1..][..CallRun(records[i..][1..])]);
        UsesAreUses(c, records[i..][1..][..CallRun(records[i..][1..])]);
        assert uses == [] ==> blocks == if content == "" then [] else [TextBlock(content)];
        assert content == "" ==> blocks == uses;
        assert content != "" && uses != [] ==> |blocks| > 1;
        if |blocks| == 1 && blocks[0].TextBlock? {
          messages := [LLMMessage(Assistant, blocks[0].text, [])];
        } else if blocks != [] {
          messages := [LLMMessage(Assistant, "", blocks)];
        }
        assert messages == AssistantTurn(content, uses);
      case AssistantToolCall(_, _, _) =>
        var blocks;
        blocks, j := GroupCalls(c, records, i, []);
        assert blocks == Uses(c, records[i..][..CallRun(records[i..])]);
        if blocks != [] {
          messages := [LLMMessage(Assistant, "", blocks)];
        }
      case ToolResult(_, _, _, _) =>
        var blocks;
        blocks, j := GroupResults(c, records, i);
        if blocks != [] {
          messages := [LLMMessage(User, "", blocks)];
        }
      case _ =>
    }
  }

  lemma {:induction false} UsesAreUses(c: Codec, calls: seq<Record>)
    requires forall i :: 0 <= i < |calls| ==> IsCall(calls[i])
    ensures forall i :: 0 <= i < |Uses(c, calls)| ==> Uses(c, calls)[i].UseBlock?
  {
    if calls != [] {
      UsesAreUses(c, calls[1..]);
    }
  }

  method RecordsToMessages(c: Codec, records: seq<Record>) returns (messages: seq<LLMMessage>)
    ensures messages == Messages(c, records)
  {
    messages := [];
    var i := 0;
    while i < |records|
      invariant 0 <= i <= |records|
      invariant messages + Messages(c, records[i..]) == Messages(c, records)
      decreases |records| - i
    {
      var more, j := NextGroup(c, records, i);
      assert records[i..][GroupSize(records[i..])..] == records[j..];
      messages := messages + more;
      i := j;
    }
  }
}
