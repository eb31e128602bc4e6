/** Messages for the model become agent history (`_llm_messages_to_history`, src/assistant/agent/message_converters.py). */
module History {
  import opened SessionLog
  import opened Sequences
  import opened Strings

  function ReturnOf(b: Block): seq<RequestPart> {
    if b.ResultBlock? then [ReturnPart(b.id, b.name, Text(b.content), Success)] else []
  }

  function Returns(blocks: seq<Block>): seq<RequestPart> {
    if blocks == [] then [] else ReturnOf(blocks[0]) + Returns(blocks[1..])
  }

  /** The last text block wins. */
  function LastText(blocks: seq<Block>, text: string): string {
    if blocks == [] then text
    else LastText(blocks[1..], if blocks[0].TextBlock? then blocks[0].text else text)
  }

  function TextsOf(b: Block): seq<string> {
    if b.TextBlock? && b.text != "" then [b.text] else []
  }

  function BlockTexts(blocks: seq<Block>): seq<string> {
    if blocks == [] then []
    else TextsOf(blocks[0]) + BlockTexts(blocks[1..])
  }

  /** A tool_use input that is not an object counts as no arguments. */
  function CallOf(b: Block): ResponsePart
    requires b.UseBlock?
  {
    CallPart(b.id, b.name, DictArgs(if b.input.JObject? then b.input.fields else []))
  }

  function CallsOf(b: Block): seq<ResponsePart> {
    if b.UseBlock? then [CallOf(b)] else []
  }

  function BlockCalls(blocks: seq<Block>): seq<ResponsePart> {
    if blocks == [] then []
    else CallsOf(blocks[0]) + BlockCalls(blocks[1..])
  }

  function Prompt(text: string): seq<ModelMessage> {
    if Strip(text) == "" then [] else [Request([PromptPart(text)])]
  }

  function Reply(texts: seq<string>, calls: seq<ResponsePart>): seq<ModelMessage> {
    var parts := (if texts == [] then [] else [TextPart(Join("\n\n", texts))]) + calls;
    if parts == [] then [] else [Response(parts)]
  }

  function HistoryOf(m: LLMMessage): seq<ModelMessage> {
    match m.role
    case User =>
      if m.blocks == [] then Prompt(m.content)
      else if Returns(m.blocks) != [] then [Request(Returns(m.blocks))]
      else Prompt(LastText(m.blocks, ""))
    case Assistant =>
      if m.blocks == [] then Reply(if Strip(m.content) == "" then [] else [m.content], [])
      else Reply(BlockTexts(m.blocks), BlockCalls(m.blocks))
  }

  function Histories(ms: seq<LLMMessage>): seq<ModelMessage> {
    if ms == [] then [] else HistoryOf(ms[0]) + Histories(ms[1..])
  }

  method SortUserBlocks(blocks: seq<Block>) returns (toolReturnParts: seq<RequestPart>, textContent: string)
    ensures toolReturnParts == Returns(blocks)
    ensures textContent == LastText(blocks, "")
  {
    toolReturnParts, textContent := [], "";
    var j := 0;
    while j < |blocks|
      invariant 0 <= j <= |blocks|
      invariant toolReturnParts + Returns(blocks[j..]) == Returns(blocks)
      invariant LastText(blocks[j..], textContent) == LastText(blocks, "")
    {
      var part := blocks[j];
      assert blocks[j..][1..] == blocks[j + 1..];
      Assoc(toolReturnParts, ReturnOf(part), Returns(blocks[j + 1..]));
      if part.ResultBlock? {
        toolReturnParts := toolReturnParts + [ReturnPart(part.id, part.name, Text(part.content), Success)];
      } else if part.TextBlock? {
        textContent := part.text;
      }
      j := j + 1;
    }
  }

  method UserHistory(m: LLMMessage) returns (history: seq<ModelMessage>)
    requires m.role == User
    ensures history == HistoryOf(m)
  {
    if m.blocks == [] {
      return if Strip(m.content) != "" then [Request([PromptPart(m.content)])] else [];
    }
    var toolReturnParts, textContent := SortUserBlocks(m.blocks);
    if toolReturnParts != [] {
      history := [Request(toolReturnParts)];
    } else if Strip(textContent) != "" {
      history := [Request([PromptPart(textContent)])];
    } else {
      history := [];
    }
  }

  /** Texts and calls sorted out block by block. */
  function SortedOut(blocks: seq<Block>, texts: seq<string>, calls: seq<ResponsePart>): (seq<string>, seq<ResponsePart>)
    decreases |blocks|
  {
    if blocks == [] then (texts, calls)
    else SortedOut(blocks[1..], texts + TextsOf(blocks[0]), calls + CallsOf(blocks[0]))
  }

  lemma {:induction false} SortedOutIs(blocks: seq<Block>, texts: seq<string>, calls: seq<ResponsePart>)
    ensures SortedOut(blocks, texts, calls) == (texts + BlockTexts(blocks), calls + BlockCalls(blocks))
    decreases |blocks|
  {
    if blocks == [] {
      assert texts + [] == texts && calls + [] == calls;
    } else {
      SortedOutIs(blocks[1..], texts + TextsOf(blocks[0]), calls + CallsOf(blocks[0]));
      Assoc(texts, TextsOf(blocks[0]), BlockTexts(blocks[1..]));
      Assoc(calls, CallsOf(blocks[0]), BlockCalls(blocks[1..]));
    }
  }

  method SortAssistantBlocks(blocks: seq<Block>) returns (textParts: seq<string>, toolCallParts: seq<ResponsePart>)
    ensures textParts == BlockTexts(blocks)
    ensures toolCallParts == BlockCalls(blocks)
  {
    textParts, toolCallParts := [], [];
    var j := 0;
    while j < |blocks|
      invariant 0 <= j <= |blocks|
      invariant SortedOut(blocks[j..], textParts, toolCallParts) == SortedOut(blocks, [], [])
    {
      var part := blocks[j];
      assert blocks[j..][1..] == blocks[j + 1..];
      ghost var texts, calls := textParts + TextsOf(part), toolCallParts + CallsOf(part);
      if part.TextBlock? {
        if part.text != "" {
          textParts := textParts + [part.text];
        }
      } else if part.UseBlock? {
        toolCallParts := toolCallParts + [CallOf(part)];
      }
      assert textParts == texts && toolCallParts == calls;
      j := j + 1;
    }
    SortedOutIs(blocks, [], []);
  }

  method AssistantHistory(m: LLMMessage) returns (history: seq<ModelMessage>)
    requires m.role == Assistant
    ensures history == HistoryOf(m)
  {
    var textParts: seq<string>, toolCallParts: seq<ResponsePart> := [], [];
    if m.blocks == [] {
      if Strip(m.content) != "" {
        textParts := [m.content];
      }
    } else {
      textParts, toolCallParts := SortAssistantBlocks(m.blocks);
    }
    var parts: seq<ResponsePart> := if textParts == [] then [] else [TextPart(Join("\n\n", textParts))];
    parts := parts + toolCallParts;
    history := if parts == [] then [] else [Response(parts)];
  }

  method LlmMessagesToHistory(messages: seq<LLMMessage>) returns (history: seq<ModelMessage>)
    ensures history == Histories(messages)
  {
    history := [];
    var i := 0;
    while i < |messages|
      invariant 0 <= i <= |messages|
      invariant history + Histories(messages[i..]) == Histories(messages)
    {
      var more;
      match messages[i].role {
        case User => more := UserHistory(messages[i]);
        case Assistant => more := AssistantHistory(messages[i]);
      }
      assert messages[i..][1..] == messages[i + 1..];
      Assoc(history, more, Histories(messages[i + 1..]));
      history := history + more;
      i := i + 1;
    }
  }

  lemma {:induction false} HistoriesSplit(a: seq<LLMMessage>, b: seq<LLMMessage>)
    ensures Histories(a + b) == Histories(a) + Histories(b)
  {
    if a == [] {
      assert a + b == b;
    } else {
      assert (a + b)[1..] == a[1..] + b;
      HistoriesSplit(a[1..], b);
    }
  }
}
