/**
 * The order of calls and results survives storage and replay: what the model sees of a turn is the
 * sequence of its calls and real results, memory tools left out.
 */
module ReplayOrder {
  import opened Options
  import opened SessionLog
  import opened RecordBuilder
  import opened Sequences
  import opened Strings
  import opened Replay

  /** A call or a result as the model sees it. */
  datatype Token = Use(id: string) | Res(id: string)

  function BlockTokens(blocks: seq<Block>): seq<Token> {
    if blocks == [] then []
    else (match blocks[0]
          case TextBlock(_) => []
          case UseBlock(id, _, _) => [Use(id)]
          case ResultBlock(id, _, _, _) => [Res(id)])
         + BlockTokens(blocks[1..])
  }

  function Tokens(ms: seq<LLMMessage>): seq<Token> {
    if ms == [] then [] else BlockTokens(ms[0].blocks) + Tokens(ms[1..])
  }

  function RecordToken(r: Record): seq<Token> {
    match r.body
    case AssistantToolCall(id, name, _) => if name == MEMORY_TOOL_NAME then [] else [Use(id)]
    case ToolResult(id, name, _, _) => if name == MEMORY_TOOL_NAME then [] else [Res(id)]
    case _ => []
  }

  function RecordTokens(recs: seq<Record>): seq<Token> {
    if recs == [] then [] else RecordToken(recs[0]) + RecordTokens(recs[1..])
  }

  // ---------------------------------------------------------------- events of model messages

  datatype Event = Called(id: string, name: string) | Returned(id: string, name: string, outcome: Outcome)

  function CallEvents(parts: seq<ResponsePart>): seq<Event> {
    if parts == [] then []
    else (if parts[0].CallPart? then [Called(parts[0].id, parts[0].name)] else []) + CallEvents(parts[1..])
  }

  function ReturnEvents(asked: seq<RequestPart>): seq<Event> {
    if asked == [] then []
    else (if asked[0].ReturnPart? then [Returned(asked[0].id, asked[0].name, asked[0].outcome)] else [])
         + ReturnEvents(asked[1..])
  }

  function MessageEvents(m: ModelMessage): seq<Event> {
    match m
    case Response(parts) => CallEvents(parts)
    case Request(asked) => ReturnEvents(asked)
  }

  function Events(ms: seq<ModelMessage>): seq<Event> {
    if ms == [] then [] else MessageEvents(ms[0]) + Events(ms[1..])
  }

  /** A retried return is not a result, and memory tools stay hidden. */
  function Shown(e: Event): seq<Token> {
    if e.name == MEMORY_TOOL_NAME then []
    else match e
         case Called(id, _) => [Use(id)]
         case Returned(id, _, outcome) => if outcome == Retried then [] else [Res(id)]
  }

  function AllShown(es: seq<Event>): seq<Token> {
    if es == [] then [] else Shown(es[0]) + AllShown(es[1..])
  }

  // ---------------------------------------------------------------- concatenation

  lemma {:induction false} BlockTokensSplit(a: seq<Block>, b: seq<Block>)
    ensures BlockTokens(a + b) == BlockTokens(a) + BlockTokens(b)
  {
    if a == [] {
      assert a + b == b;
    } else {
      assert (a + b)[1..] == a[1..] + b;
      BlockTokensSplit(a[1..], b);
    }
  }

  lemma {:induction false} RecordTokensSplit(a: seq<Record>, b: seq<Record>)
    ensures RecordTokens(a + b) == RecordTokens(a) + RecordTokens(b)
  {
    if a == [] {
      assert a + b == b;
    } else {
      assert (a + b)[1..] == a[1..] + b;
      RecordTokensSplit(a[1..], b);
    }
  }

  lemma {:induction false} FirstRecord(r: Record, rest: seq<Record>)
    ensures RecordTokens([r] + rest) == RecordToken(r) + RecordTokens(rest)
  {
    assert ([r] + rest)[1..] == rest;
  }

  lemma {:induction false} FirstEvent(e: Event, rest: seq<Event>)
    ensures AllShown([e] + rest) == Shown(e) + AllShown(rest)
  {
    assert ([e] + rest)[1..] == rest;
  }

  lemma {:induction false} AllShownSplit(a: seq<Event>, b: seq<Event>)
    ensures AllShown(a + b) == AllShown(a) + AllShown(b)
  {
    if a == [] {
      assert a + b == b;
    } else {
      assert (a + b)[1..] == a[1..] + b;
      AllShownSplit(a[1..], b);
    }
  }

  lemma {:induction false} EventsSplit(a: seq<ModelMessage>, b: seq<ModelMessage>)
    ensures Events(a + b) == Events(a) + Events(b)
  {
    if a == [] {
      assert a + b == b;
    } else {
      assert (a + b)[1..] == a[1..] + b;
      EventsSplit(a[1..], b);
    }
  }

  // ---------------------------------------------------------------- storage keeps the order

  lemma {:induction false} CallTokens(c: Codec, turn: string, parts: seq<ResponsePart>)
    ensures RecordTokens(CallRecords(c, turn, parts)) == AllShown(CallEvents(parts))
  {
    if parts != [] {
      CallTokens(c, turn, parts[1..]);
      if parts[0].CallPart? {
        var r := Record(0, turn, AssistantToolCall(parts[0].id, parts[0].name, ArgsAsJson(c, parts[0].args)));
        FirstRecord(r, CallRecords(c, turn, parts[1..]));
        FirstEvent(Called(parts[0].id, parts[0].name), CallEvents(parts[1..]));
      } else {
        assert CallRecords(c, turn, parts) == CallRecords(c, turn, parts[1..]);
        assert CallEvents(parts) == CallEvents(parts[1..]);
      }
    }
  }

  lemma {:induction false} ResultTokens(c: Codec, turn: string, asked: seq<RequestPart>, skipMemory: bool)
    ensures RecordTokens(ResultRecords(c, turn, asked, skipMemory)) == AllShown(ReturnEvents(asked))
  {
    if asked != [] {
      ResultTokens(c, turn, asked[1..], skipMemory);
      if asked[0].ReturnPart? {
        FirstEvent(Returned(asked[0].id, asked[0].name, asked[0].outcome), ReturnEvents(asked[1..]));
        if Stored(asked[0], skipMemory) {
          var r := Record(0, turn, ToolResult(asked[0].id, asked[0].name, ParseResult(c, asked[0].content), None));
          FirstRecord(r, ResultRecords(c, turn, asked[1..], skipMemory));
        } else {
          assert ResultRecords(c, turn, asked, skipMemory) == ResultRecords(c, turn, asked[1..], skipMemory);
        }
      } else {
        assert ResultRecords(c, turn, asked, skipMemory) == ResultRecords(c, turn, asked[1..], skipMemory);
        assert ReturnEvents(asked) == ReturnEvents(asked[1..]);
      }
    }
  }

  lemma MessageTokens(c: Codec, turn: string, m: ModelMessage, usage: Option<int>, skipMemory: bool)
    ensures RecordTokens(MessageRecords(c, turn, m, usage, skipMemory)) == AllShown(MessageEvents(m))
  {
    match m
    case Response(parts) =>
      CallTokens(c, turn, parts);
      var calls := CallRecords(c, turn, parts);
      if Texts(parts) != [] {
        FirstRecord(Record(0, turn, AssistantMessage(Strip(Join(" ", NonEmpty(Texts(parts)))), usage)), calls);
      } else {
        assert MessageRecords(c, turn, m, usage, skipMemory) == calls;
      }
    case Request(asked) =>
      ResultTokens(c, turn, asked, skipMemory);
  }

  /** The records of a turn show exactly its calls and real results, in order. */
  lemma {:induction false} StorageKeepsOrder(
    c: Codec, turn: string, ms: seq<ModelMessage>, usage: Option<int>, skipMemory: bool)
    ensures RecordTokens(Build(c, turn, ms, usage, skipMemory)) == AllShown(Events(ms))
  {
    if ms != [] {
      var usage' := UsageAfter(ms[0], usage);
      StorageKeepsOrder(c, turn, ms[1..], usage', skipMemory);
      RecordTokensSplit(MessageRecords(c, turn, ms[0], usage, skipMemory),
                        Build(c, turn, ms[1..], usage', skipMemory));
      MessageTokens(c, turn, ms[0], usage, skipMemory);
      AllShownSplit(MessageEvents(ms[0]), Events(ms[1..]));
    }
  }

  // ---------------------------------------------------------------- replay keeps the order

  /** No id is answered twice. */
  ghost predicate AnsweredAtMostOnce(tokens: seq<Token>) {
    forall id :: Count(tokens, Res(id)) <= 1
  }

  lemma AtMostOnceParts(a: seq<Token>, b: seq<Token>)
    requires AnsweredAtMostOnce(a + b)
    ensures AnsweredAtMostOnce(a) && AnsweredAtMostOnce(b)
  {
    forall id ensures Count(a, Res(id)) <= 1 && Count(b, Res(id)) <= 1 {
      CountSplit(a, b, Res(id));
    }
  }

  lemma {:induction false} PutNew(seen: seq<Block>, b: Block)
    requires b.ResultBlock? && forall i :: 0 <= i < |seen| ==> seen[i].ResultBlock?
    requires Res(b.id) !in BlockTokens(seen)
    ensures Put(seen, b) == seen + [b]
  {
    if seen != [] {
      assert BlockTokens(seen)[0] == Res(seen[0].id);
      assert BlockTokens(seen)[1..] == BlockTokens(seen[1..]);
      PutNew(seen[1..], b);
    }
  }

  lemma {:induction false} NotSeenYet(seen: seq<Block>, run: seq<Record>, id: string)
    requires AnsweredAtMostOnce(BlockTokens(seen) + RecordTokens(run))
    requires run != [] && RecordToken(run[0]) == [Res(id)]
    ensures Res(id) !in BlockTokens(seen)
  {
    assert RecordTokens(run)[0] == Res(id);
    CountSplit(BlockTokens(seen), RecordTokens(run), Res(id));
    CountPresent(BlockTokens(seen), Res(id));
    CountPresent(RecordTokens(run), Res(id));
  }

  lemma {:induction false} OneResult(b: Block)
    requires b.ResultBlock?
    ensures BlockTokens([b]) == [Res(b.id)]
  {
    assert [b][1..] == [];
  }

  lemma {:induction false} FirstResultTokens(run: seq<Record>)
    requires run != [] && IsResult(run[0]) && !IsMemory(run[0])
    ensures RecordTokens(run) == [Res(run[0].body.callId)] + RecordTokens(run[1..])
  {}

  lemma {:induction false} FirstResultPut(c: Codec, run: seq<Record>, seen: seq<Block>)
    requires forall i :: 0 <= i < |run| ==> IsResult(run[i])
    requires forall i :: 0 <= i < |seen| ==> seen[i].ResultBlock?
    requires run != [] && !IsMemory(run[0]) && AnsweredAtMostOnce(BlockTokens(seen) + RecordTokens(run))
    ensures BlockTokens(Put(seen, ResultOf(c, run[0]))) + RecordTokens(run[1..]) == BlockTokens(seen) + RecordTokens(run)
  {
    var b := ResultOf(c, run[0]);
    NotSeenYet(seen, run, b.id);
    PutNew(seen, b);
    BlockTokensSplit(seen, [b]);
    OneResult(b);
    FirstResultTokens(run);
    Assoc(BlockTokens(seen), [Res(b.id)], RecordTokens(run[1..]));
  }

  lemma {:induction false} CollectKeepsOrder(c: Codec, run: seq<Record>, seen: seq<Block>)
    requires forall i :: 0 <= i < |run| ==> IsResult(run[i])
    requires forall i :: 0 <= i < |seen| ==> seen[i].ResultBlock?
    requires AnsweredAtMostOnce(BlockTokens(seen) + RecordTokens(run))
    ensures BlockTokens(Collect(c, run, seen)) == BlockTokens(seen) + RecordTokens(run)
  {
    if run != [] {
      if !IsMemory(run[0]) {
        FirstResultPut(c, run, seen);
        CollectKeepsOrder(c, run[1..], Put(seen, ResultOf(c, run[0])));
      } else {
        assert RecordTokens(run) == RecordTokens(run[1..]);
        CollectKeepsOrder(c, run[1..], seen);
      }
    }
  }

  lemma {:induction false} UsesKeepOrder(c: Codec, calls: seq<Record>)
    requires forall i :: 0 <= i < |calls| ==> IsCall(calls[i])
    ensures BlockTokens(Uses(c, calls)) == RecordTokens(calls)
  {
    if calls != [] {
      UsesKeepOrder(c, calls[1..]);
      if !IsMemory(calls[0]) {
        BlockTokensSplit([ToolUse(c, calls[0])], Uses(c, calls[1..]));
        assert BlockTokens([ToolUse(c, calls[0])]) == [Use(calls[0].body.callId)] + BlockTokens([]);
      } else {
        assert Uses(c, calls) == Uses(c, calls[1..]);
      }
    }
  }

  lemma {:induction false} TokensOfOne(role: Role, blocks: seq<Block>)
    ensures Tokens(WithBlocks(role, blocks)) == BlockTokens(blocks)
  {
    if blocks != [] {
      assert WithBlocks(role, blocks)[1..] == [];
    }
  }

  lemma {:induction false} TokensOfAssistant(content: string, uses: seq<Block>)
    ensures Tokens(AssistantTurn(content, uses)) == BlockTokens(uses)
  {
    if uses == [] {
      assert content != "" ==> PlainText(Assistant, content)[1..] == [];
    } else {
      var text := if content == "" then [] else [TextBlock(content)];
      BlockTokensSplit(text, uses);
      TokensOfOne(Assistant, text + uses);
    }
  }

  lemma GroupKeepsOrder(c: Codec, recs: seq<Record>)
    requires recs != []
    requires AnsweredAtMostOnce(RecordTokens(recs[..GroupSize(recs)]))
    ensures Tokens(GroupMessage(c, recs)) == RecordTokens(recs[..GroupSize(recs)])
  {
    var group := recs[..GroupSize(recs)];
    match recs[0].body
    case AssistantMessage(content, _) =>
      var run := recs[1..][..CallRun(recs[1..])];
      assert group[1..] == run;
      UsesKeepOrder(c, run);
      TokensOfAssistant(content, Uses(c, run));
    case AssistantToolCall(_, _, _) =>
      UsesKeepOrder(c, group);
      TokensOfOne(Assistant, Uses(c, group));
    case ToolResult(_, _, _, _) =>
      assert BlockTokens([]) + RecordTokens(group) == RecordTokens(group);
      CollectKeepsOrder(c, group, []);
      TokensOfOne(User, Collect(c, group, []));
    case _ =>
      assert group[1..] == [];
  }

  lemma {:induction false} TokensSplit(a: seq<LLMMessage>, b: seq<LLMMessage>)
    ensures Tokens(a + b) == Tokens(a) + Tokens(b)
  {
    if a == [] {
      assert a + b == b;
    } else {
      assert (a + b)[1..] == a[1..] + b;
      TokensSplit(a[1..], b);
    }
  }

  /** When no id is answered twice, replay shows every shown call and result, in log order. */
  lemma {:induction false} ReplayKeepsOrder(c: Codec, recs: seq<Record>)
    requires AnsweredAtMostOnce(RecordTokens(recs))
    ensures Tokens(Messages(c, recs)) == RecordTokens(recs)
    decreases |recs|
  {
    if recs != [] {
      var n := GroupSize(recs);
      assert recs == recs[..n] + recs[n..];
      RecordTokensSplit(recs[..n], recs[n..]);
      AtMostOnceParts(RecordTokens(recs[..n]), RecordTokens(recs[n..]));
      GroupKeepsOrder(c, recs);
      ReplayKeepsOrder(c, recs[n..]);
      TokensSplit(GroupMessage(c, recs), Messages(c, recs[n..]));
    }
  }
}
