/** What the records of a turn hold: everything the agent said, called and was answered, and no more. */
module RecordContents {
  import opened Options
  import opened SessionLog
  import opened RecordBuilder
  import opened Sequences
  import opened Strings

  // ---------------------------------------------------------------- tool results

  /** What a tool returned: JSON, parsed if it came as text; other text and other objects as strings. */
  function Returned(c: Codec, content: Content): Json {
    match content
    case Text(text) => if c.loads(text).Some? then c.loads(text).value else JString(text)
    case Value(JString(text)) => if c.loads(text).Some? then c.loads(text).value else JString(text)
    case Value(json) => json
    case Opaque(shown) => JString(shown)
  }

  /** An object is stored as it is; anything else alone in an object, a list as "results". */
  lemma ResultIsStored(c: Codec, content: Content)
    ensures Returned(c, content).JObject? ==> ParseResult(c, content) == Returned(c, content)
    ensures !Returned(c, content).JObject? ==>
              ParseResult(c, content)
              == JObject([(if Returned(c, content).JArray? then "results" else "result", Returned(c, content))])
  {}

  /** The record of one stored return. */
  ghost predicate IsRecordOf(c: Codec, turn: string, p: RequestPart, r: Record)
    requires p.ReturnPart?
  {
    && r.turn == turn && r.body.ToolResult? && r.body.callId == p.id && r.body.toolName == p.name
    && r.body.error == None && r.body.result == ParseResult(c, p.content)
  }

  predicate IsKept(p: RequestPart, skipMemory: bool) {
    p.ReturnPart? && p.outcome != Retried && !(skipMemory && p.name == "memory_propose_update")
  }

  lemma {:induction false} ResultRecordsHold(c: Codec, turn: string, asked: seq<RequestPart>, skipMemory: bool)
    ensures forall p :: p in asked && IsKept(p, skipMemory) ==>
              exists r :: r in ResultRecords(c, turn, asked, skipMemory) && IsRecordOf(c, turn, p, r)
    ensures forall r :: r in ResultRecords(c, turn, asked, skipMemory) ==>
              exists p :: p in asked && IsKept(p, skipMemory) && IsRecordOf(c, turn, p, r)
  {
    if asked != [] {
      var (p, rest) := (asked[0], ResultRecords(c, turn, asked[1..], skipMemory));
      ResultRecordsHold(c, turn, asked[1..], skipMemory);
      assert forall q :: q in asked <==> q == p || q in asked[1..];
      if IsKept(p, skipMemory) {
        var r := Record(0, turn, ToolResult(p.id, p.name, ParseResult(c, p.content), None));
        assert ResultRecords(c, turn, asked, skipMemory) == [r] + rest;
        assert IsRecordOf(c, turn, p, r) && r in [r] + rest;
        assert forall x :: x in [r] + rest <==> x == r || x in rest;
      } else {
        assert ResultRecords(c, turn, asked, skipMemory) == rest;
      }
    }
  }

  // ---------------------------------------------------------------- calls and texts

  /** The record of one call, arguments included: what was streamed, or what parses to the dict. */
  ghost predicate IsCallOf(c: Codec, turn: string, p: ResponsePart, r: Record)
    requires p.CallPart?
  {
    && r.turn == turn && r.body.AssistantToolCall? && r.body.callId == p.id && r.body.toolName == p.name
    && (p.args.RawArgs? && p.args.text != "" ==> r.body.argumentsJson == p.args.text)
    && (p.args.DictArgs? && p.args.fields != [] ==> r.body.argumentsJson == c.dumps(JObject(p.args.fields)))
    && (p.args in {NoArgs, RawArgs(""), DictArgs([])} ==> r.body.argumentsJson == "{}")
  }

  lemma {:induction false} CallRecordsHold(c: Codec, turn: string, parts: seq<ResponsePart>)
    ensures forall p :: p in parts && p.CallPart? ==>
              exists r :: r in CallRecords(c, turn, parts) && IsCallOf(c, turn, p, r)
    ensures forall r :: r in CallRecords(c, turn, parts) ==>
              exists p :: p in parts && p.CallPart? && IsCallOf(c, turn, p, r)
  {
    if parts != [] {
      var (p, rest) := (parts[0], CallRecords(c, turn, parts[1..]));
      CallRecordsHold(c, turn, parts[1..]);
      assert forall q :: q in parts <==> q == p || q in parts[1..];
      if p.CallPart? {
        var r := Record(0, turn, AssistantToolCall(p.id, p.name, ArgsAsJson(c, p.args)));
        assert CallRecords(c, turn, parts) == [r] + rest;
        assert IsCallOf(c, turn, p, r) && r in [r] + rest;
        assert forall x :: x in [r] + rest <==> x == r || x in rest;
      } else {
        assert CallRecords(c, turn, parts) == rest;
      }
    }
  }

  // ---------------------------------------------------------------- all records of a turn

  /** The messages whose records come from these. */
  ghost predicate FromMessage(c: Codec, turn: string, m: ModelMessage, skipMemory: bool, r: Record) {
    match m
    case Response(parts) =>
      || (r.turn == turn && r.body.AssistantMessage? && exists p :: p in parts && p.TextPart?)
      || (exists p :: p in parts && p.CallPart? && IsCallOf(c, turn, p, r))
    case Request(asked) => exists p :: p in asked && IsKept(p, skipMemory) && IsRecordOf(c, turn, p, r)
  }

  lemma {:induction false} TextsAre(parts: seq<ResponsePart>)
    ensures Texts(parts) != [] <==> exists p :: p in parts && p.TextPart?
  {
    if parts != [] {
      TextsAre(parts[1..]);
      assert forall q :: q in parts <==> q == parts[0] || q in parts[1..];
    }
  }

  lemma {:induction false} MessageRecordsHold(
    c: Codec, turn: string, m: ModelMessage, usage: Option<int>, skipMemory: bool)
    ensures forall r :: r in MessageRecords(c, turn, m, usage, skipMemory) ==> FromMessage(c, turn, m, skipMemory, r)
    ensures m.Request? ==> forall p :: p in m.asked && IsKept(p, skipMemory) ==>
              exists r :: r in MessageRecords(c, turn, m, usage, skipMemory) && IsRecordOf(c, turn, p, r)
    ensures m.Response? ==> forall p :: p in m.parts && p.CallPart? ==>
              exists r :: r in MessageRecords(c, turn, m, usage, skipMemory) && IsCallOf(c, turn, p, r)
  {
    match m
    case Response(parts) =>
      CallRecordsHold(c, turn, parts);
      TextsAre(parts);
    case Request(asked) =>
      ResultRecordsHold(c, turn, asked, skipMemory);
  }

  /** Every record of a turn comes from one of its messages, and carries the turn's id. */
  lemma {:induction false} NothingIsInvented(
    c: Codec, turn: string, ms: seq<ModelMessage>, usage: Option<int>, skipMemory: bool, r: Record)
    requires r in Build(c, turn, ms, usage, skipMemory)
    ensures r.turn == turn && exists m :: m in ms && FromMessage(c, turn, m, skipMemory, r)
  {
    MessageRecordsHold(c, turn, ms[0], usage, skipMemory);
    if r in MessageRecords(c, turn, ms[0], usage, skipMemory) {
      assert ms[0] in ms && FromMessage(c, turn, ms[0], skipMemory, r);
    } else {
      NothingIsInvented(c, turn, ms[1..], UsageAfter(ms[0], usage), skipMemory, r);
      var m :| m in ms[1..] && FromMessage(c, turn, m, skipMemory, r);
      assert m in ms;
    }
  }

  predicate Within(some: seq<Record>, all: seq<Record>) {
    forall r :: r in some ==> r in all
  }

  lemma PartsAreWithin(a: seq<Record>, b: seq<Record>)
    ensures Within(a, a + b) && Within(b, a + b)
  {}

  lemma WithinAll(a: seq<Record>, b: seq<Record>, all: seq<Record>)
    requires Within(a, b) && Within(b, all)
    ensures Within(a, all)
  {}

  lemma {:induction false} FirstAndRest(
    c: Codec, turn: string, ms: seq<ModelMessage>, usage: Option<int>, skipMemory: bool)
    requires ms != []
    ensures Build(c, turn, ms, usage, skipMemory)
         == MessageRecords(c, turn, ms[0], usage, skipMemory)
            + Build(c, turn, ms[1..], UsageAfter(ms[0], usage), skipMemory)
  {}

  lemma {:induction false} MessageIsStored(
    c: Codec, turn: string, ms: seq<ModelMessage>, usage: Option<int>, skipMemory: bool, i: int)
    returns (later: Option<int>)
    requires 0 <= i < |ms|
    ensures Within(MessageRecords(c, turn, ms[i], later, skipMemory), Build(c, turn, ms, usage, skipMemory))
  {
    var (first, rest) := (MessageRecords(c, turn, ms[0], usage, skipMemory),
                          Build(c, turn, ms[1..], UsageAfter(ms[0], usage), skipMemory));
    FirstAndRest(c, turn, ms, usage, skipMemory);
    PartsAreWithin(first, rest);
    if i == 0 {
      later := usage;
    } else {
      later := MessageIsStored(c, turn, ms[1..], UsageAfter(ms[0], usage), skipMemory, i - 1);
      WithinAll(MessageRecords(c, turn, ms[i], later, skipMemory), rest, first + rest);
    }
  }

  /** Every call and every kept return of a turn has its record. */
  lemma {:induction false} NothingIsLost(
    c: Codec, turn: string, ms: seq<ModelMessage>, usage: Option<int>, skipMemory: bool, i: int)
    requires 0 <= i < |ms|
    ensures ms[i].Request? ==> forall p :: p in ms[i].asked && IsKept(p, skipMemory) ==>
              exists r :: r in Build(c, turn, ms, usage, skipMemory) && IsRecordOf(c, turn, p, r)
    ensures ms[i].Response? ==> forall p :: p in ms[i].parts && p.CallPart? ==>
              exists r :: r in Build(c, turn, ms, usage, skipMemory) && IsCallOf(c, turn, p, r)
  {
    var later := MessageIsStored(c, turn, ms, usage, skipMemory, i);
    MessageRecordsHold(c, turn, ms[i], later, skipMemory);
    WithinHolds(c, turn, ms[i], skipMemory, MessageRecords(c, turn, ms[i], later, skipMemory),
                Build(c, turn, ms, usage, skipMemory));
  }

  lemma WithinHolds(
    c: Codec, turn: string, m: ModelMessage, skipMemory: bool, some: seq<Record>, all: seq<Record>)
    requires Within(some, all)
    requires m.Request? ==> forall p :: p in m.asked && IsKept(p, skipMemory) ==>
               exists r :: r in some && IsRecordOf(c, turn, p, r)
    requires m.Response? ==> forall p :: p in m.parts && p.CallPart? ==>
               exists r :: r in some && IsCallOf(c, turn, p, r)
    ensures m.Request? ==> forall p :: p in m.asked && IsKept(p, skipMemory) ==>
              exists r :: r in all && IsRecordOf(c, turn, p, r)
    ensures m.Response? ==> forall p :: p in m.parts && p.CallPart? ==>
              exists r :: r in all && IsCallOf(c, turn, p, r)
  {}

  /** The text of a return that is not JSON can be read back from its record. */
  lemma {:induction false} PlainTextIsReadBack(
    c: Codec, turn: string, ms: seq<ModelMessage>, usage: Option<int>, skipMemory: bool, i: int, p: RequestPart)
    requires 0 <= i < |ms| && ms[i].Request? && p in ms[i].asked && IsKept(p, skipMemory)
    requires p.content.Text? && c.loads(p.content.text).None?
    ensures exists r :: r in Build(c, turn, ms, usage, skipMemory) && r.body.ToolResult? && r.body.callId == p.id
                        && r.body.result == JObject([("result", JString(p.content.text))])
  {
    NothingIsLost(c, turn, ms, usage, skipMemory, i);
    ResultIsStored(c, p.content);
    var r :| r in Build(c, turn, ms, usage, skipMemory) && IsRecordOf(c, turn, p, r);
  }

  // ---------------------------------------------------------------- the text record

  lemma {:induction false} OneText(text: string)
    ensures Join(" ", NonEmpty([text])) == text
  {
    assert [text][1..] == [];
    assert NonEmpty([text]) == if text == "" then [] else [text] + [];
  }

  lemma {:induction false} TwoTexts(a: string, b: string)
    requires a != "" && b != ""
    ensures Join(" ", NonEmpty([a, b])) == a + " " + b
  {
    assert [a, b][1..] == [b] && [b][1..] == [];
    assert NonEmpty([b]) == [b] + [] && NonEmpty([a, b]) == [a] + [b];
    assert ([a] + [b])[1..] == [b];
  }

  /** The record of what was said in a response. */
  function SaidRecord(turn: string, parts: seq<ResponsePart>, usage: Option<int>): Record {
    Record(0, turn, AssistantMessage(Strip(Join(" ", NonEmpty(Texts(parts)))), usage))
  }

  /** What was said comes first, then the calls. */
  lemma {:induction false} SaidComesFirst(
    c: Codec, turn: string, parts: seq<ResponsePart>, usage: Option<int>, skipMemory: bool)
    requires Texts(parts) != []
    ensures MessageRecords(c, turn, Response(parts), usage, skipMemory)
         == [SaidRecord(turn, parts, usage)] + CallRecords(c, turn, parts)
  {}

  /** A single text is stored without outer space, two with a space between them. */
  lemma {:induction false} SaidIs(turn: string, parts: seq<ResponsePart>, usage: Option<int>, a: string, b: string)
    ensures Texts(parts) == [a] ==> SaidRecord(turn, parts, usage).body == AssistantMessage(Strip(a), usage)
    ensures Texts(parts) == [a, b] && a != "" && b != "" ==>
              SaidRecord(turn, parts, usage).body == AssistantMessage(Strip(a + " " + b), usage)
  {
    OneText(a);
    if a != "" && b != "" {
      TwoTexts(a, b);
    }
  }

  predicate CarriesUsage(r: Record) {
    r.body.AssistantMessage? && r.body.inputTokens.Some?
  }

  lemma {:induction false} NoUsage(c: Codec, turn: string, ms: seq<ModelMessage>, skipMemory: bool)
    ensures forall r :: r in Build(c, turn, ms, None, skipMemory) ==> !CarriesUsage(r)
  {
    if ms != [] {
      NoUsage(c, turn, ms[1..], skipMemory);
      MessageUsage(c, turn, ms[0], None, skipMemory);
    }
  }

  lemma {:induction false} MessageUsage(c: Codec, turn: string, m: ModelMessage, usage: Option<int>, skipMemory: bool)
    ensures forall i :: 0 <= i < |MessageRecords(c, turn, m, usage, skipMemory)|
                        && MessageRecords(c, turn, m, usage, skipMemory)[i].body.AssistantMessage? ==>
              i == 0 && MessageRecords(c, turn, m, usage, skipMemory)[i].body.inputTokens == usage
                     && UsageAfter(m, usage) == None
    ensures (forall r :: r in MessageRecords(c, turn, m, usage, skipMemory) ==> !r.body.AssistantMessage?) ==>
              UsageAfter(m, usage) == usage
  {
    var records := MessageRecords(c, turn, m, usage, skipMemory);
    match m
    case Response(parts) =>
      CallRecordsHold(c, turn, parts);
      forall i | 0 <= i < |CallRecords(c, turn, parts)| ensures !CallRecords(c, turn, parts)[i].body.AssistantMessage? {
        assert CallRecords(c, turn, parts)[i] in CallRecords(c, turn, parts);
      }
      if Texts(parts) != [] {
        assert records[0] in records;
      }
    case Request(asked) =>
      ResultRecordsHold(c, turn, asked, skipMemory);
      forall i | 0 <= i < |records| ensures !records[i].body.AssistantMessage? {
        assert records[i] in records;
      }
  }

  /** Usage on the first text of `records` and on no other. */
  ghost predicate UsageOnFirst(records: seq<Record>, usage: Option<int>) {
    forall i :: 0 <= i < |records| && records[i].body.AssistantMessage? ==>
      records[i].body.inputTokens == if TextBefore(records, i) then None else usage
  }

  ghost predicate TextBefore(records: seq<Record>, i: int)
    requires i <= |records|
  {
    exists j :: 0 <= j < i && records[j].body.AssistantMessage?
  }

  lemma FirstHasUsage(first: seq<Record>, rest: seq<Record>, usage: Option<int>, later: Option<int>)
    requires forall i :: 0 <= i < |first| && first[i].body.AssistantMessage? ==>
               i == 0 && first[i].body.inputTokens == usage && later == None
    requires (forall r :: r in first ==> !r.body.AssistantMessage?) ==> later == usage
    requires UsageOnFirst(rest, later)
    requires later == None ==> forall r :: r in rest ==> !CarriesUsage(r)
    ensures UsageOnFirst(first + rest, usage)
  {
    var (all, n) := (first + rest, |first|);
    forall i | 0 <= i < |all| && all[i].body.AssistantMessage?
      ensures all[i].body.inputTokens == if TextBefore(all, i) then None else usage
    {
      if i < n {
        assert all[i] == first[i];
      } else {
        assert all[i] == rest[i - n] && rest[i - n] in rest;
        if j :| 0 <= j < n && first[j].body.AssistantMessage? {
          assert all[j] == first[j];
        } else {
          NoneInFirst(first);
          UsageTail(all, first, rest, i);
        }
      }
    }
  }

  /** The turn's usage is on its first text record and on no other. */
  lemma {:induction false} UsageIsOnFirstText(
    c: Codec, turn: string, ms: seq<ModelMessage>, usage: Option<int>, skipMemory: bool)
    ensures UsageOnFirst(Build(c, turn, ms, usage, skipMemory), usage)
  {
    if ms != [] {
      var (first, later) := (MessageRecords(c, turn, ms[0], usage, skipMemory), UsageAfter(ms[0], usage));
      MessageUsage(c, turn, ms[0], usage, skipMemory);
      UsageIsOnFirstText(c, turn, ms[1..], later, skipMemory);
      if later == None {
        NoUsage(c, turn, ms[1..], skipMemory);
      }
      FirstHasUsage(first, Build(c, turn, ms[1..], later, skipMemory), usage, later);
      FirstAndRest(c, turn, ms, usage, skipMemory);
    }
  }

  lemma NoneInFirst(first: seq<Record>)
    requires forall j :: 0 <= j < |first| ==> !first[j].body.AssistantMessage?
    ensures forall r :: r in first ==> !r.body.AssistantMessage?
  {}

  lemma UsageTail(records: seq<Record>, first: seq<Record>, rest: seq<Record>, i: int)
    requires records == first + rest && |first| <= i < |records|
    requires forall j :: 0 <= j < |first| ==> !first[j].body.AssistantMessage?
    ensures (exists j :: 0 <= j < i && records[j].body.AssistantMessage?)
       <==> (exists j :: 0 <= j < i - |first| && rest[j].body.AssistantMessage?)
  {
    if j :| 0 <= j < i && records[j].body.AssistantMessage? {
      assert forall k :: 0 <= k < |first| ==> records[k] == first[k];
      assert rest[j - |first|] == records[j];
    }
    if j :| 0 <= j < i - |first| && rest[j].body.AssistantMessage? {
      assert records[|first| + j] == rest[j];
    }
  }
}
