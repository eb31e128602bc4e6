/** New model messages become session records (src/assistant/agent/session_record_builder.py). */
module RecordBuilder {
  import opened Options
  import opened SessionLog
  import opened Sequences
  import opened Strings

  /** `args_as_json_str`: empty arguments of any kind print as an empty object. */
  function ArgsAsJson(c: Codec, args: Args): string {
    match args
    case NoArgs => "{}"
    case RawArgs(text) => if text == "" then "{}" else text
    case DictArgs(fields) => if fields == [] then "{}" else c.dumps(JObject(fields))
  }

  /** `_coerce_tool_result` on a JSON value. */
  function Coerce(j: Json): Json {
    match j
    case JObject(_) => j
    case JArray(_) => JObject([("results", j)])
    case _ => JObject([("result", j)])
  }

  function ParseText(c: Codec, text: string): Json {
    match c.loads(text)
    case Some(j) => Coerce(j)
    case None => JObject([("result", JString(text))])
  }

  /** `_parse_tool_result_content` */
  function ParseResult(c: Codec, content: Content): Json {
    match content
    case Text(text) => ParseText(c, text)
    case Value(JString(text)) => ParseText(c, text)
    case Value(json) => Coerce(json)
    case Opaque(shown) => JObject([("result", JString(shown))])
  }

  /** A Python value names no key twice. */
  predicate ProperContent(content: Content) {
    content.Value? ==> Proper(content.json)
  }

  lemma {:induction false} CoercedIsProper(j: Json)
    requires Proper(j)
    ensures Coerce(j).JObject? && Proper(Coerce(j)) && Coerce(Coerce(j)) == Coerce(j)
  {}

  lemma ParsedIsProper(c: Codec, content: Content)
    requires Lossless(c) && ProperContent(content)
    ensures ParseResult(c, content).JObject? && Proper(ParseResult(c, content))
  {
    var text := match content case Text(text) => text case Value(JString(text)) => text case _ => "";
    if c.loads(text).Some? {
      CoercedIsProper(c.loads(text).value);
    }
    if content.Value? {
      CoercedIsProper(content.json);
    }
  }

  /** Printing a stored result and parsing it again changes nothing: replay is stable. */
  lemma ParseResultStable(c: Codec, content: Content)
    requires Lossless(c) && ProperContent(content)
    ensures ParseResult(c, content).JObject? && Proper(ParseResult(c, content))
    ensures ParseResult(c, Text(c.dumps(ParseResult(c, content)))) == ParseResult(c, content)
  {
    ParsedIsProper(c, content);
    assert c.loads(c.dumps(ParseResult(c, content))) == Some(ParseResult(c, content));
  }

  function Texts(parts: seq<ResponsePart>): seq<string> {
    if parts == [] then []
    else (if parts[0].TextPart? then [parts[0].content] else []) + Texts(parts[1..])
  }

  function NonEmpty(texts: seq<string>): seq<string> {
    if texts == [] then []
    else (if texts[0] != "" then [texts[0]] else []) + NonEmpty(texts[1..])
  }

  function CallRecords(c: Codec, turn: string, parts: seq<ResponsePart>): seq<Record> {
    if parts == [] then []
    else (match parts[0]
          case CallPart(id, name, args) =>
            [Record(0, turn, AssistantToolCall(id, name, ArgsAsJson(c, args)))]
          case _ => [])
         + CallRecords(c, turn, parts[1..])
  }

  /** Is this part stored as a result? Retried calls never are, memory results only on demand. */
  predicate Stored(part: RequestPart, skipMemory: bool) {
    part.ReturnPart? && part.outcome != Retried && !(skipMemory && part.name == MEMORY_TOOL_NAME)
  }

  function ResultRecords(c: Codec, turn: string, parts: seq<RequestPart>, skipMemory: bool): seq<Record> {
    if parts == [] then []
    else (if Stored(parts[0], skipMemory)
          then [Record(0, turn, ToolResult(parts[0].id, parts[0].name,
                                           ParseResult(c, parts[0].content), None))]
          else [])
         + ResultRecords(c, turn, parts[1..], skipMemory)
  }

  /** The records of one message; only the first text of a turn carries the turn's usage. */
  function MessageRecords(c: Codec, turn: string, m: ModelMessage, usage: Option<int>, skipMemory: bool)
    : seq<Record>
  {
    match m
    case Response(parts) =>
      (if Texts(parts) == [] then []
       else [Record(0, turn, AssistantMessage(Strip(Join(" ", NonEmpty(Texts(parts)))), usage))])
      + CallRecords(c, turn, parts)
    case Request(asked) => ResultRecords(c, turn, asked, skipMemory)
  }

  function UsageAfter(m: ModelMessage, usage: Option<int>): Option<int> {
    if m.Response? && Texts(m.parts) != [] then None else usage
  }

  /** `_new_messages_to_session_records` */
  function Build(c: Codec, turn: string, ms: seq<ModelMessage>, usage: Option<int>, skipMemory: bool)
    : seq<Record>
  {
    if ms == [] then []
    else MessageRecords(c, turn, ms[0], usage, skipMemory)
         + Build(c, turn, ms[1..], UsageAfter(ms[0], usage), skipMemory)
  }

  method AppendCalls(c: Codec, turn: string, parts: seq<ResponsePart>, before: seq<Record>)
    returns (records: seq<Record>)
    ensures records == before + CallRecords(c, turn, parts)
  {
    records := before;
    var j := 0;
    while j < |parts|
      invariant 0 <= j <= |parts|
      invariant records + CallRecords(c, turn, parts[j..]) == before + CallRecords(c, turn, parts)
    {
      if parts[j].CallPart? {
        records := records + [Record(0, turn, AssistantToolCall(
          parts[j].id, parts[j].name, ArgsAsJson(c, parts[j].args)))];
      }
      j := j + 1;
    }
  }

  method AppendResults(c: Codec, turn: string, asked: seq<RequestPart>, skipMemory: bool, before: seq<Record>)
    returns (records: seq<Record>)
    ensures records == before + ResultRecords(c, turn, asked, skipMemory)
  {
    records := before;
    var j := 0;
    while j < |asked|
      invariant 0 <= j <= |asked|
      invariant records + ResultRecords(c, turn, asked[j..], skipMemory)
             == before + ResultRecords(c, turn, asked, skipMemory)
    {
      if Stored(asked[j], skipMemory) {
        records := records + [Record(0, turn, ToolResult(
          asked[j].id, asked[j].name, ParseResult(c, asked[j].content), None))];
      }
      j := j + 1;
    }
  }

  method AppendMessage(c: Codec, turn: string, msg: ModelMessage, usage: Option<int>, skipMemory: bool,
                       assistantIdx: nat, before: seq<Record>)
    returns (records: seq<Record>, idx: nat)
    ensures var rest := if assistantIdx == 0 then usage else None;
            && records == before + MessageRecords(c, turn, msg, rest, skipMemory)
            && (if idx == 0 then usage else None) == UsageAfter(msg, rest)
  {
    records, idx := before, assistantIdx;
    match msg {
      case Response(parts) =>
        var texts := Texts(parts);
        if texts != [] {
          records := records + [Record(0, turn, AssistantMessage(
            Strip(Join(" ", NonEmpty(texts))), if assistantIdx == 0 then usage else None))];
          idx := idx + 1;
        }
        ghost var withText := records;
        records := AppendCalls(c, turn, parts, records);
        assert records == before + (withText[|before|..] + CallRecords(c, turn, parts));
      case Request(asked) =>
        records := AppendResults(c, turn, asked, skipMemory, records);
    }
  }

  method NewMessagesToSessionRecords(
    c: Codec, turn: string, newMessages: seq<ModelMessage>, usage: Option<int>, skipMemory: bool)
    returns (records: seq<Record>)
    ensures records == Build(c, turn, newMessages, usage, skipMemory)
  {
    records := [];
    var assistantIdx := 0;
    var i := 0;
    while i < |newMessages|
      invariant 0 <= i <= |newMessages|
      invariant records + Build(c, turn, newMessages[i..], if assistantIdx == 0 then usage else None, skipMemory)
             == Build(c, turn, newMessages, usage, skipMemory)
    {
      ghost var rest := if assistantIdx == 0 then usage else None;
      ghost var mine := MessageRecords(c, turn, newMessages[i], rest, skipMemory);
      ghost var more := Build(c, turn, newMessages[i + 1..], UsageAfter(newMessages[i], rest), skipMemory);
      assert newMessages[i..][1..] == newMessages[i + 1..];
      Assoc(records, mine, more);
      records, assistantIdx := AppendMessage(c, turn, newMessages[i], usage, skipMemory, assistantIdx, records);
      i := i + 1;
    }
  }

  function UsageThrough(ms: seq<ModelMessage>, usage: Option<int>): Option<int> {
    if ms == [] then usage else UsageThrough(ms[1..], UsageAfter(ms[0], usage))
  }

  /** Building distributes over concatenation; the usage goes to the first text of the whole. */
  lemma {:induction false} BuildAppend(
    c: Codec, turn: string, a: seq<ModelMessage>, b: seq<ModelMessage>, usage: Option<int>, skipMemory: bool)
    ensures Build(c, turn, a + b, usage, skipMemory)
         == Build(c, turn, a, usage, skipMemory) + Build(c, turn, b, UsageThrough(a, usage), skipMemory)
  {
    if a == [] {
      assert a + b == b;
    } else {
      assert (a + b)[1..] == a[1..] + b;
      var usage' := UsageAfter(a[0], usage);
      BuildAppend(c, turn, a[1..], b, usage', skipMemory);
      Assoc(MessageRecords(c, turn, a[0], usage, skipMemory), Build(c, turn, a[1..], usage', skipMemory),
            Build(c, turn, b, UsageThrough(a, usage), skipMemory));
    }
  }
}
