/** What replay shows of each record, and what the agent's history says of each message. */
module ReplayContents {
  import opened Options
  import opened SessionLog
  import opened Sequences
  import opened Strings
  import opened Replay
  import opened ReplayLaws
  import opened History
  import opened Cancellation

  // ---------------------------------------------------------------- records as messages

  /** User messages and summaries of earlier turns speak for the user; other records without calls show nothing. */
  lemma {:induction false} PlainRecordIsShown(c: Codec, r: Record)
    ensures var text := match r.body case UserMessage(t) => t case CompactionSummary(t) => t case _ => "";
            r.body.UserMessage? || r.body.CompactionSummary? || r.body.SystemMessage? || r.body.TurnSummary? || r.body.TurnTerminal? ==>
              Messages(c, [r]) == if text == "" then [] else [LLMMessage(User, text, [])]
  {
    if r.body.UserMessage? || r.body.CompactionSummary? || r.body.SystemMessage? || r.body.TurnSummary? || r.body.TurnTerminal? {
      OneGroup(c, [r]);
    }
  }

  /** A tool call shows its arguments as parsed, or none if they cannot be parsed. */
  lemma CallIsShown(c: Codec, r: Record)
    requires IsCall(r)
    ensures var (body, block) := (r.body, ToolUse(c, r));
            && block.UseBlock? && block.id == body.callId && block.name == body.toolName
            && (c.loads(body.argumentsJson).Some? ==> c.loads(body.argumentsJson) == Some(block.input))
            && (c.loads(body.argumentsJson).None? ==> block.input == JObject([]))
  {}

  /** A result shows as compact JSON, nothing as no text, and whether there was an error. */
  lemma ResultIsShown(c: Codec, r: Record)
    requires IsResult(r)
    ensures var (body, block) := (r.body, ResultOf(c, r));
            && block.ResultBlock? && block.id == body.callId && block.name == body.toolName
            && (block.isError <==> body.error != None)
            && (body.result == JNull ==> block.content == "")
            && (body.result != JNull ==> block.content == c.dumps(body.result))
  {}

  /** The uses of a run of calls: one block for each call of another tool than the memory tool, in order. */
  lemma {:induction false} UsesAre(c: Codec, calls: seq<Record>)
    requires forall i :: 0 <= i < |calls| ==> IsCall(calls[i])
    ensures forall b :: b in Uses(c, calls) ==>
              exists r :: r in calls && r.body.AssistantToolCall? && r.body.toolName != "memory_propose_update" && b == ToolUse(c, r)
    ensures forall r :: r in calls && r.body.AssistantToolCall? && r.body.toolName != "memory_propose_update" ==>
              ToolUse(c, r) in Uses(c, calls)
  {
    if calls != [] {
      var (first, rest) := (calls[0], Uses(c, calls[1..]));
      UsesAre(c, calls[1..]);
      assert forall r :: r in calls <==> r == first || r in calls[1..];
      if first.body.toolName != "memory_propose_update" {
        assert Uses(c, calls) == [ToolUse(c, first)] + rest;
        assert forall b :: b in Uses(c, calls) <==> b == ToolUse(c, first) || b in rest;
      } else {
        assert Uses(c, calls) == rest;
      }
    }
  }

  /** A text and the calls after it are one message: the text first, as text alone if no call is shown. */
  lemma {:induction false} SaidAndCalledIsShown(c: Codec, text: Record, calls: seq<Record>)
    requires text.body.AssistantMessage? && forall i :: 0 <= i < |calls| ==> IsCall(calls[i])
    ensures var said := text.body.content;
            Messages(c, [text] + calls)
            == if Uses(c, calls) == [] then (if said == "" then [] else [LLMMessage(Assistant, said, [])])
               else [LLMMessage(Assistant, "", (if said == "" then [] else [TextBlock(said)]) + Uses(c, calls))]
  {
    var recs := [text] + calls;
    WholeCalls(calls);
    assert recs[1..] == calls && calls[..|calls|] == calls;
    OneGroup(c, recs);
  }

  lemma {:induction false} WholeCalls(calls: seq<Record>)
    requires forall i :: 0 <= i < |calls| ==> IsCall(calls[i])
    ensures CallRun(calls) == |calls|
  {
    if calls != [] {
      WholeCalls(calls[1..]);
    }
  }

  /** Calls without a text before them are a message of their own. */
  lemma {:induction false} CalledIsShown(c: Codec, calls: seq<Record>)
    requires calls != [] && forall i :: 0 <= i < |calls| ==> IsCall(calls[i])
    ensures Messages(c, calls) == if Uses(c, calls) == [] then [] else [LLMMessage(Assistant, "", Uses(c, calls))]
  {
    WholeCalls(calls);
    assert calls[..|calls|] == calls;
    OneGroup(c, calls);
  }

  // ---------------------------------------------------------------- messages as history

  /** Plain text of the user is a prompt, plain text of the assistant a response, unless it is blank. */
  lemma {:induction false} PlainIsHistory(m: LLMMessage)
    requires m.blocks == []
    ensures HistoryOf(m) == if Strip(m.content) == "" then []
                            else if m.role == User then [Request([PromptPart(m.content)])]
                            else [Response([TextPart(m.content)])]
  {
    assert [TextPart(m.content)] + [] == [TextPart(m.content)];
    if Strip(m.content) == "" {
      assert Reply([], []) == [];
    }
  }

  lemma {:induction false} ResultBlocksAre(blocks: seq<Block>)
    requires forall i :: 0 <= i < |blocks| ==> blocks[i].ResultBlock?
    ensures |Returns(blocks)| == |blocks|
    ensures forall i :: 0 <= i < |blocks| ==>
              Returns(blocks)[i] == ReturnPart(blocks[i].id, blocks[i].name, Text(blocks[i].content), Success)
  {
    if blocks != [] {
      ResultBlocksAre(blocks[1..]);
      assert Returns(blocks) == ReturnOf(blocks[0]) + Returns(blocks[1..]);
    }
  }

  /** Results of tools become one request with a return for each, in order. */
  lemma {:induction false} ResultsAreHistory(m: LLMMessage)
    requires m.role == User && m.blocks != [] && forall i :: 0 <= i < |m.blocks| ==> m.blocks[i].ResultBlock?
    ensures |HistoryOf(m)| == 1 && HistoryOf(m)[0].Request? && |HistoryOf(m)[0].asked| == |m.blocks|
    ensures forall i :: 0 <= i < |m.blocks| ==>
              HistoryOf(m)[0].asked[i] == ReturnPart(m.blocks[i].id, m.blocks[i].name, Text(m.blocks[i].content), Success)
  {
    ResultBlocksAre(m.blocks);
  }

  lemma {:induction false} OthersReturnNothing(a: seq<Block>, b: Block, rest: seq<Block>)
    requires !b.ResultBlock?
    ensures Returns(a + ([b] + rest)) == Returns(a + rest)
  {
    if a == [] {
      assert a + ([b] + rest) == [b] + rest && a + rest == rest && ([b] + rest)[1..] == rest;
    } else {
      assert (a + ([b] + rest))[1..] == a[1..] + ([b] + rest) && (a + rest)[1..] == a[1..] + rest;
      OthersReturnNothing(a[1..], b, rest);
    }
  }

  /** Text beside results of tools is ignored. */
  lemma {:induction false} ResultsWin(m: LLMMessage, a: seq<Block>, b: Block, rest: seq<Block>)
    requires m.role == User && m.blocks == a + ([b] + rest) && !b.ResultBlock?
    requires exists i :: 0 <= i < |a + rest| && (a + rest)[i].ResultBlock?
    ensures HistoryOf(m) == HistoryOf(m.(blocks := a + rest)) == [Request(Returns(a + rest))]
  {
    OthersReturnNothing(a, b, rest);
    HasReturns(a + rest);
  }

  lemma {:induction false} HasReturns(blocks: seq<Block>)
    ensures Returns(blocks) == [] <==> forall i :: 0 <= i < |blocks| ==> !blocks[i].ResultBlock?
  {
    if blocks != [] {
      HasReturns(blocks[1..]);
    }
  }

  lemma {:induction false} LastTextIs(front: seq<Block>, last: string, before: string)
    ensures LastText(front + [TextBlock(last)], before) == last
    decreases |front|
  {
    var blocks := front + [TextBlock(last)];
    if front == [] {
      assert blocks[1..] == [];
    } else {
      assert blocks[1..] == front[1..] + [TextBlock(last)];
      LastTextIs(front[1..], last, if front[0].TextBlock? then front[0].text else before);
    }
  }

  /** Without results, the last text of the user is the prompt. */
  lemma {:induction false} LastTextIsPrompt(m: LLMMessage, front: seq<Block>, last: string)
    requires m.role == User && m.blocks == front + [TextBlock(last)]
    requires forall i :: 0 <= i < |front| ==> !front[i].ResultBlock?
    ensures HistoryOf(m) == if Strip(last) == "" then [] else [Request([PromptPart(last)])]
  {
    HasReturns(m.blocks);
    LastTextIs(front, last, "");
  }

  lemma {:induction false} TwoTextsAndACall(use: Block, a: string, b: string)
    requires a != "" && b != "" && use.UseBlock?
    ensures BlockTexts([use, TextBlock(a), TextBlock(b)]) == [a, b]
    ensures BlockCalls([use, TextBlock(a), TextBlock(b)]) == [CallOf(use)]
  {
    var blocks := [use, TextBlock(a), TextBlock(b)];
    assert blocks[1..] == [TextBlock(a), TextBlock(b)] && blocks[1..][1..] == [TextBlock(b)];
    assert [TextBlock(b)][1..] == [];
    assert BlockTexts([TextBlock(b)]) == [b] + [] && BlockTexts([TextBlock(a), TextBlock(b)]) == [a] + [b];
    assert BlockTexts(blocks) == [] + [a, b];
    assert BlockCalls([TextBlock(b)]) == [] + [] && BlockCalls([TextBlock(a), TextBlock(b)]) == [] + BlockCalls([TextBlock(b)]);
    assert BlockCalls(blocks) == [CallOf(use)] + [];
  }

  /** The assistant's texts become one, with an empty line between them, and its calls follow. */
  lemma {:induction false} RepliesAre(a: string, b: string, use: Block)
    requires a != "" && b != "" && use.UseBlock?
    ensures var fields := if use.input.JObject? then use.input.fields else [];
            HistoryOf(LLMMessage(Assistant, "", [use, TextBlock(a), TextBlock(b)]))
            == [Response([TextPart(a + "\n\n" + b), CallPart(use.id, use.name, DictArgs(fields))])]
  {
    TwoTextsAndACall(use, a, b);
    assert [a, b][1..] == [b] && Join("\n\n", [a, b]) == a + "\n\n" + b;
    assert [TextPart(a + "\n\n" + b)] + [CallOf(use)] == [TextPart(a + "\n\n" + b), CallOf(use)];
  }

  // ---------------------------------------------------------------- cancelled calls

  lemma {:induction false} CancelledAre(open: seq<ResponsePart>)
    requires forall i :: 0 <= i < |open| ==> open[i].CallPart?
    ensures |Cancelled(open)| == |open|
    ensures forall i :: 0 <= i < |open| ==>
              Cancelled(open)[i] == ReturnPart(open[i].id, open[i].name,
                                               Text("{\"status\": \"cancelled\", \"reason\": \"user_cancelled\"}"), Denied)
  {
    if open != [] {
      CancelledAre(open[1..]);
    }
  }

  lemma {:induction false} OpenAre(parts: seq<ResponsePart>, completed: set<string>)
    ensures forall p :: p in OpenIn(parts, completed) <==> p in parts && p.CallPart? && p.id !in completed
  {
    if parts != [] {
      OpenAre(parts[1..], completed);
      assert forall p :: p in parts <==> p == parts[0] || p in parts[1..];
    }
  }

  /** Some message of the turn called `p`. */
  ghost predicate CalledIn(ms: seq<ModelMessage>, p: ResponsePart) {
    exists m :: m in ms && m.Response? && p in m.parts
  }

  lemma {:induction false} PendingAre(ms: seq<ModelMessage>, completed: set<string>)
    ensures forall p :: p in Pending(ms, completed) <==> p.CallPart? && p.id !in completed && CalledIn(ms, p)
  {
    if ms != [] {
      PendingAre(ms[1..], completed);
      if ms[0].Response? {
        OpenAre(ms[0].parts, completed);
      }
      assert forall m :: m in ms <==> m == ms[0] || m in ms[1..];
      forall p ensures p in Pending(ms, completed) <==> p.CallPart? && p.id !in completed && CalledIn(ms, p) {
        PendingOne(ms, completed, p);
      }
    }
  }

  lemma {:induction false} PendingOne(ms: seq<ModelMessage>, completed: set<string>, p: ResponsePart)
    requires ms != []
    requires ms[0].Response? ==> (p in OpenIn(ms[0].parts, completed) <==> p in ms[0].parts && p.CallPart? && p.id !in completed)
    requires p in Pending(ms[1..], completed) <==> p.CallPart? && p.id !in completed && CalledIn(ms[1..], p)
    ensures p in Pending(ms, completed) <==> p.CallPart? && p.id !in completed && CalledIn(ms, p)
  {
    assert forall m :: m in ms <==> m == ms[0] || m in ms[1..];
    assert CalledIn(ms, p) <==> (ms[0].Response? && p in ms[0].parts) || CalledIn(ms[1..], p);
  }

  /** A call of the turn to which no request returns. */
  ghost predicate IsOpen(ms: seq<ModelMessage>, p: ResponsePart) {
    p.CallPart? && CalledIn(ms, p) && p.id !in Completed(ms)
  }

  /** It says of a call without a return that it was cancelled. */
  ghost predicate Cancels(ms: seq<ModelMessage>, r: RequestPart) {
    && r.ReturnPart? && r.content == Text("{\"status\": \"cancelled\", \"reason\": \"user_cancelled\"}") && r.outcome == Denied
    && exists p: ResponsePart :: IsOpen(ms, p) && p.id == r.id && p.name == r.name
  }

  /** What is injected: for each call without a return one that says it was cancelled, and nothing else. */
  lemma {:induction false} InjectedIs(ms: seq<ModelMessage>)
    ensures Inject(ms) == ms || (|Inject(ms)| == |ms| + 1 && Inject(ms)[..|ms|] == ms && Inject(ms)[|ms|].Request?)
    ensures Inject(ms) == ms <==> forall p: ResponsePart :: !IsOpen(ms, p)
    ensures Inject(ms) != ms ==> forall r: RequestPart :: r in Inject(ms)[|ms|].asked <==> Cancels(ms, r)
  {
    var open := Pending(ms, Completed(ms));
    PendingAre(ms, Completed(ms));
    CancelledAre(open);
    if open != [] {
      assert open[0] in open && IsOpen(ms, open[0]);
      InjectedReturns(ms, open, Cancelled(open));
    } else {
      forall p: ResponsePart ensures !IsOpen(ms, p) {
        assert p !in open;
      }
    }
  }

  lemma {:induction false} InjectedReturns(ms: seq<ModelMessage>, open: seq<ResponsePart>, cancelled: seq<RequestPart>)
    requires |cancelled| == |open|
    requires forall p: ResponsePart :: p in open <==> IsOpen(ms, p)
    requires forall i :: 0 <= i < |open| ==> open[i].CallPart?
    requires forall i :: 0 <= i < |open| ==>
               cancelled[i] == ReturnPart(open[i].id, open[i].name,
                                          Text("{\"status\": \"cancelled\", \"reason\": \"user_cancelled\"}"), Denied)
    ensures forall r: RequestPart :: r in cancelled <==> Cancels(ms, r)
  {
    forall r: RequestPart | r in cancelled ensures Cancels(ms, r) {
      var i :| 0 <= i < |cancelled| && cancelled[i] == r;
      assert IsOpen(ms, open[i]);
    }
    forall r: RequestPart | Cancels(ms, r) ensures r in cancelled {
      var p: ResponsePart :| IsOpen(ms, p) && p.id == r.id && p.name == r.name;
      var i :| 0 <= i < |open| && open[i] == p;
      assert cancelled[i] == r;
    }
  }

  lemma {:induction false} ReturnedAre(asked: seq<RequestPart>)
    ensures forall id :: id in ReturnedIn(asked) <==> exists r :: r in asked && r.ReturnPart? && r.id == id
  {
    if asked != [] {
      ReturnedAre(asked[1..]);
      assert forall r :: r in asked <==> r == asked[0] || r in asked[1..];
    }
  }

  /** A call is completed if any request of the turn returns to it, whatever the outcome. */
  lemma {:induction false} CompletedAre(ms: seq<ModelMessage>, id: string)
    ensures id in Completed(ms) <==> exists m, r :: m in ms && m.Request? && r in m.asked && r.ReturnPart? && r.id == id
  {
    if ms != [] {
      CompletedAre(ms[1..], id);
      assert forall m :: m in ms <==> m == ms[0] || m in ms[1..];
      if ms[0].Request? {
        ReturnedAre(ms[0].asked);
      }
    }
  }
}
