/**
 * The whole log pipeline: messages are stored as records, grouped again and turned back into agent
 * history. What comes back is the original in canonical form, whatever the form it was streamed in:
 * messages that leave no record vanish, and neighbours that replay cannot tell apart are one message.
 */
module RoundTrip {
  import opened Options
  import opened SessionLog
  import opened RecordBuilder
  import opened Sequences
  import opened Strings
  import opened Replay
  import opened ReplayLaws
  import opened History

  // ---------------------------------------------------------------- canonical form

  function ArgFields(c: Codec, args: Args): seq<(string, Json)> {
    match c.loads(ArgsAsJson(c, args))
    case Some(JObject(fields)) => fields
    case _ => []
  }

  /** The calls the model will see again, arguments parsed. */
  function CanonicalCalls(c: Codec, parts: seq<ResponsePart>): seq<ResponsePart> {
    if parts == [] then []
    else (if parts[0].CallPart? && parts[0].name != MEMORY_TOOL_NAME
          then [CallPart(parts[0].id, parts[0].name, DictArgs(ArgFields(c, parts[0].args)))] else [])
         + CanonicalCalls(c, parts[1..])
  }

  function ResponseText(parts: seq<ResponsePart>): string {
    Strip(Join(" ", NonEmpty(Texts(parts))))
  }

  /** One stripped text, if any is left, and then the calls. */
  function CanonicalParts(c: Codec, parts: seq<ResponsePart>): seq<ResponsePart> {
    (if ResponseText(parts) == "" then [] else [TextPart(ResponseText(parts))]) + CanonicalCalls(c, parts)
  }

  /** The results the model will see again, as compact JSON objects. */
  function CanonicalReturns(c: Codec, asked: seq<RequestPart>): seq<RequestPart> {
    if asked == [] then []
    else (if Stored(asked[0], true)
          then [ReturnPart(asked[0].id, asked[0].name, Text(c.dumps(ParseResult(c, asked[0].content))), Success)]
          else [])
         + CanonicalReturns(c, asked[1..])
  }

  /** `seen[id] = part` on a dict that remembers when a key first came in. */
  function PutPart(seen: seq<RequestPart>, p: RequestPart): seq<RequestPart> {
    if seen == [] then [p]
    else if seen[0].ReturnPart? && p.ReturnPart? && seen[0].id == p.id then [p] + seen[1..]
    else [seen[0]] + PutPart(seen[1..], p)
  }

  function PutParts(seen: seq<RequestPart>, parts: seq<RequestPart>): seq<RequestPart>
    decreases |parts|
  {
    if parts == [] then seen else PutParts(PutPart(seen, parts[0]), parts[1..])
  }

  /** One result for each call, the last one. */
  function LastReturns(c: Codec, asked: seq<RequestPart>): seq<RequestPart> {
    PutParts([], CanonicalReturns(c, asked))
  }

  function CanonicalMessage(c: Codec, m: ModelMessage): ModelMessage {
    match m
    case Response(parts) => Response(CanonicalParts(c, parts))
    case Request(asked) => Request(LastReturns(c, asked))
  }

  /** Something of the message is left to see. */
  predicate Visible(c: Codec, m: ModelMessage) {
    match m
    case Response(parts) => CanonicalParts(c, parts) != []
    case Request(asked) => LastReturns(c, asked) != []
  }

  /** Message by message; what nothing is left of vanishes. */
  function Canonical(c: Codec, ms: seq<ModelMessage>): seq<ModelMessage> {
    if ms == [] then []
    else (if Visible(c, ms[0]) then [CanonicalMessage(c, ms[0])] else []) + Canonical(c, ms[1..])
  }

  // ---------------------------------------------------------------- what replay cannot tell apart

  /** The message leaves no record. */
  predicate Silent(m: ModelMessage, skipMemory: bool) {
    match m
    case Response(parts) => forall i :: 0 <= i < |parts| ==> parts[i].ThinkingPart?
    case Request(asked) => forall i :: 0 <= i < |asked| ==> !Stored(asked[i], skipMemory)
  }

  /** Results follow results, or calls without a text of their own follow a response. */
  predicate Sticks(a: ModelMessage, b: ModelMessage) {
    if b.Request? then a.Request? else a.Response? && Texts(b.parts) == []
  }

  function Joined(a: ModelMessage, b: ModelMessage): ModelMessage
    requires Sticks(a, b)
  {
    if a.Request? then Request(a.asked + b.asked) else Response(a.parts + b.parts)
  }

  /** The messages as replay sees them: silent ones dropped, and those joined that then stick together. */
  function Glued(ms: seq<ModelMessage>, skipMemory: bool): seq<ModelMessage> {
    if ms == [] then []
    else
      var rest := Glued(ms[1..], skipMemory);
      if Silent(ms[0], skipMemory) then rest
      else if rest != [] && Sticks(ms[0], rest[0]) then [Joined(ms[0], rest[0])] + rest[1..]
      else [ms[0]] + rest
  }

  /** No message is silent, and no two neighbours stick together. */
  predicate Separate(ms: seq<ModelMessage>, skipMemory: bool) {
    && (forall i :: 0 <= i < |ms| ==> !Silent(ms[i], skipMemory))
    && (forall i :: 0 < i < |ms| ==> !Sticks(ms[i - 1], ms[i]))
  }

  lemma {:induction false} GluedFirst(m: ModelMessage, rest: seq<ModelMessage>, skipMemory: bool)
    requires Separate(rest, skipMemory) && !Silent(m, skipMemory)
    ensures rest != [] && Sticks(m, rest[0]) ==> Separate([Joined(m, rest[0])] + rest[1..], skipMemory)
    ensures rest == [] || !Sticks(m, rest[0]) ==> Separate([m] + rest, skipMemory)
  {
    if rest != [] && Sticks(m, rest[0]) {
      JoinedIsHeard(m, rest[0], skipMemory);
    }
  }

  lemma JoinedIsHeard(a: ModelMessage, b: ModelMessage, skipMemory: bool)
    requires Sticks(a, b) && !Silent(a, skipMemory)
    ensures !Silent(Joined(a, b), skipMemory)
  {
    match a
    case Response(parts) =>
      var i :| 0 <= i < |parts| && !parts[i].ThinkingPart?;
      assert Joined(a, b).parts[i] == parts[i];
    case Request(asked) =>
      var i :| 0 <= i < |asked| && Stored(asked[i], skipMemory);
      assert Joined(a, b).asked[i] == asked[i];
  }

  lemma {:induction false} GluedIsSeparate(ms: seq<ModelMessage>, skipMemory: bool)
    ensures Separate(Glued(ms, skipMemory), skipMemory)
  {
    if ms != [] {
      GluedIsSeparate(ms[1..], skipMemory);
      if !Silent(ms[0], skipMemory) {
        GluedFirst(ms[0], Glued(ms[1..], skipMemory), skipMemory);
      }
    }
  }

  /** Messages that are separate already stay as they are. */
  lemma {:induction false} SeparateStays(ms: seq<ModelMessage>, skipMemory: bool)
    requires Separate(ms, skipMemory)
    ensures Glued(ms, skipMemory) == ms
  {
    if ms != [] {
      SeparateTail(ms, skipMemory);
      SeparateStays(ms[1..], skipMemory);
    }
  }

  lemma SeparateTail(ms: seq<ModelMessage>, skipMemory: bool)
    requires Separate(ms, skipMemory) && ms != []
    ensures Separate(ms[1..], skipMemory) && !Silent(ms[0], skipMemory)
    ensures ms[1..] != [] ==> !Sticks(ms[0], ms[1..][0])
  {
    forall i | 0 < i < |ms[1..]| ensures !Sticks(ms[1..][i - 1], ms[1..][i]) {
      assert !Sticks(ms[i], ms[i + 1]);
    }
  }

  // ---------------------------------------------------------------- gluing keeps the records

  lemma {:induction false} TextsSplit(a: seq<ResponsePart>, b: seq<ResponsePart>)
    ensures Texts(a + b) == Texts(a) + Texts(b)
  {
    if a == [] {
      assert a + b == b;
    } else {
      assert (a + b)[1..] == a[1..] + b;
      TextsSplit(a[1..], b);
      Assoc(if a[0].TextPart? then [a[0].content] else [], Texts(a[1..]), Texts(b));
    }
  }

  function CallRecord(c: Codec, turn: string, part: ResponsePart): seq<Record> {
    match part
    case CallPart(id, name, args) => [Record(0, turn, AssistantToolCall(id, name, ArgsAsJson(c, args)))]
    case _ => []
  }

  lemma {:induction false} CallRecordsSplit(c: Codec, turn: string, a: seq<ResponsePart>, b: seq<ResponsePart>)
    ensures CallRecords(c, turn, a + b) == CallRecords(c, turn, a) + CallRecords(c, turn, b)
  {
    if a == [] {
      assert a + b == b;
    } else {
      assert (a + b)[1..] == a[1..] + b;
      CallRecordsSplit(c, turn, a[1..], b);
      Assoc(CallRecord(c, turn, a[0]), CallRecords(c, turn, a[1..]), CallRecords(c, turn, b));
    }
  }

  function ResultRecord(c: Codec, turn: string, part: RequestPart, skipMemory: bool): seq<Record> {
    if Stored(part, skipMemory)
    then [Record(0, turn, ToolResult(part.id, part.name, ParseResult(c, part.content), None))] else []
  }

  lemma {:induction false} ResultRecordsSplit(
    c: Codec, turn: string, a: seq<RequestPart>, b: seq<RequestPart>, skipMemory: bool)
    ensures ResultRecords(c, turn, a + b, skipMemory)
         == ResultRecords(c, turn, a, skipMemory) + ResultRecords(c, turn, b, skipMemory)
  {
    if a == [] {
      assert a + b == b;
    } else {
      assert (a + b)[1..] == a[1..] + b;
      ResultRecordsSplit(c, turn, a[1..], b, skipMemory);
      Assoc(ResultRecord(c, turn, a[0], skipMemory), ResultRecords(c, turn, a[1..], skipMemory),
            ResultRecords(c, turn, b, skipMemory));
    }
  }

  /** The text record of a response, if it has one. */
  function TextRecord(turn: string, parts: seq<ResponsePart>, usage: Option<int>): seq<Record> {
    if Texts(parts) == [] then []
    else [Record(0, turn, AssistantMessage(ResponseText(parts), usage))]
  }

  lemma {:induction false} ResponseRecordsAre(c: Codec, turn: string, parts: seq<ResponsePart>, usage: Option<int>, skipMemory: bool)
    ensures MessageRecords(c, turn, Response(parts), usage, skipMemory)
         == TextRecord(turn, parts, usage) + CallRecords(c, turn, parts)
  {}

  lemma {:induction false} JoinedRecords(
    c: Codec, turn: string, a: ModelMessage, b: ModelMessage, usage: Option<int>, later: Option<int>, skipMemory: bool)
    requires Sticks(a, b)
    ensures MessageRecords(c, turn, Joined(a, b), usage, skipMemory)
         == MessageRecords(c, turn, a, usage, skipMemory) + MessageRecords(c, turn, b, later, skipMemory)
    ensures UsageAfter(Joined(a, b), usage) == UsageAfter(a, usage) && UsageAfter(b, later) == later
  {
    match a
    case Response(parts) =>
      TextsSplit(parts, b.parts);
      assert Texts(parts) + [] == Texts(parts);
      CallRecordsSplit(c, turn, parts, b.parts);
      ResponseRecordsAre(c, turn, parts, usage, skipMemory);
      ResponseRecordsAre(c, turn, b.parts, later, skipMemory);
      ResponseRecordsAre(c, turn, parts + b.parts, usage, skipMemory);
      assert [] + CallRecords(c, turn, b.parts) == CallRecords(c, turn, b.parts);
      Assoc(TextRecord(turn, parts, usage), CallRecords(c, turn, parts), CallRecords(c, turn, b.parts));
    case Request(asked) =>
      ResultRecordsSplit(c, turn, asked, b.asked, skipMemory);
  }

  lemma {:induction false} SilentParts(c: Codec, turn: string, parts: seq<ResponsePart>)
    ensures (forall i :: 0 <= i < |parts| ==> parts[i].ThinkingPart?)
       <==> Texts(parts) == [] && CallRecords(c, turn, parts) == []
  {
    if parts != [] {
      SilentParts(c, turn, parts[1..]);
      assert parts == [parts[0]] + parts[1..];
      assert forall i :: 0 <= i < |parts[1..]| ==> parts[1..][i] == parts[i + 1];
    }
  }

  lemma {:induction false} SilentResults(c: Codec, turn: string, asked: seq<RequestPart>, skipMemory: bool)
    ensures (forall i :: 0 <= i < |asked| ==> !Stored(asked[i], skipMemory))
       <==> ResultRecords(c, turn, asked, skipMemory) == []
  {
    if asked != [] {
      SilentResults(c, turn, asked[1..], skipMemory);
      assert asked == [asked[0]] + asked[1..];
      assert forall i :: 0 <= i < |asked[1..]| ==> asked[1..][i] == asked[i + 1];
    }
  }

  lemma {:induction false} SilentIff(c: Codec, turn: string, m: ModelMessage, usage: Option<int>, skipMemory: bool)
    ensures Silent(m, skipMemory) <==> MessageRecords(c, turn, m, usage, skipMemory) == []
    ensures Silent(m, skipMemory) ==> UsageAfter(m, usage) == usage
  {
    match m
    case Response(parts) =>
      SilentParts(c, turn, parts);
      ResponseRecordsAre(c, turn, parts, usage, skipMemory);
    case Request(asked) =>
      SilentResults(c, turn, asked, skipMemory);
  }

  lemma {:induction false} BuildFirst(
    c: Codec, turn: string, m: ModelMessage, rest: seq<ModelMessage>, usage: Option<int>, skipMemory: bool)
    ensures Build(c, turn, [m] + rest, usage, skipMemory)
         == MessageRecords(c, turn, m, usage, skipMemory) + Build(c, turn, rest, UsageAfter(m, usage), skipMemory)
  {
    assert ([m] + rest)[1..] == rest;
  }

  /** Gluing changes no record. */
  lemma {:induction false} GluedRecords(
    c: Codec, turn: string, ms: seq<ModelMessage>, usage: Option<int>, skipMemory: bool)
    ensures Build(c, turn, Glued(ms, skipMemory), usage, skipMemory) == Build(c, turn, ms, usage, skipMemory)
  {
    if ms != [] {
      var (m, rest, later) := (ms[0], Glued(ms[1..], skipMemory), UsageAfter(ms[0], usage));
      assert ms == [m] + ms[1..];
      BuildFirst(c, turn, m, ms[1..], usage, skipMemory);
      GluedRecords(c, turn, ms[1..], later, skipMemory);
      SilentIff(c, turn, m, usage, skipMemory);
      if Silent(m, skipMemory) {
        var records := Build(c, turn, rest, usage, skipMemory);
        assert [] + records == records;
      } else if rest != [] && Sticks(m, rest[0]) {
        GluedPair(c, turn, m, rest, usage, skipMemory);
      } else {
        BuildFirst(c, turn, m, rest, usage, skipMemory);
      }
    }
  }

  lemma {:induction false} GluedPair(
    c: Codec, turn: string, m: ModelMessage, rest: seq<ModelMessage>, usage: Option<int>, skipMemory: bool)
    requires rest != [] && Sticks(m, rest[0])
    ensures Build(c, turn, [Joined(m, rest[0])] + rest[1..], usage, skipMemory)
         == MessageRecords(c, turn, m, usage, skipMemory) + Build(c, turn, rest, UsageAfter(m, usage), skipMemory)
  {
    var later := UsageAfter(m, usage);
    assert rest == [rest[0]] + rest[1..];
    JoinedRecords(c, turn, m, rest[0], usage, later, skipMemory);
    BuildFirst(c, turn, rest[0], rest[1..], later, skipMemory);
    BuildFirst(c, turn, Joined(m, rest[0]), rest[1..], usage, skipMemory);
    Assoc(MessageRecords(c, turn, m, usage, skipMemory), MessageRecords(c, turn, rest[0], later, skipMemory),
          Build(c, turn, rest[1..], later, skipMemory));
  }

  // ---------------------------------------------------------------- one response

  lemma {:induction false} CallRecordsRoundTrip(c: Codec, turn: string, parts: seq<ResponsePart>)
    ensures forall i :: 0 <= i < |CallRecords(c, turn, parts)| ==> IsCall(CallRecords(c, turn, parts)[i])
    ensures CallRun(CallRecords(c, turn, parts)) == |CallRecords(c, turn, parts)|
    ensures BlockCalls(Uses(c, CallRecords(c, turn, parts))) == CanonicalCalls(c, parts)
    ensures BlockTexts(Uses(c, CallRecords(c, turn, parts))) == []
  {
    if parts != [] {
      var rest := CallRecords(c, turn, parts[1..]);
      CallRecordsRoundTrip(c, turn, parts[1..]);
      if parts[0].CallPart? {
        var r := Record(0, turn, AssistantToolCall(parts[0].id, parts[0].name, ArgsAsJson(c, parts[0].args)));
        FirstCall(c, r, rest);
      } else {
        assert CallRecords(c, turn, parts) == rest;
        assert CanonicalCalls(c, parts) == CanonicalCalls(c, parts[1..]);
      }
    }
  }

  lemma {:induction false} FirstCall(c: Codec, r: Record, rest: seq<Record>)
    requires IsCall(r) && forall i :: 0 <= i < |rest| ==> IsCall(rest[i])
    ensures forall i :: 0 <= i < |[r] + rest| ==> IsCall(([r] + rest)[i])
    ensures CallRun([r] + rest) == 1 + CallRun(rest)
    ensures BlockCalls(Uses(c, [r] + rest))
         == (if IsMemory(r) then [] else [CallOf(ToolUse(c, r))]) + BlockCalls(Uses(c, rest))
    ensures BlockTexts(Uses(c, [r] + rest)) == BlockTexts(Uses(c, rest))
  {
    assert ([r] + rest)[1..] == rest;
    if IsMemory(r) {
      assert Uses(c, [r] + rest) == Uses(c, rest);
    } else {
      assert Uses(c, [r] + rest) == [ToolUse(c, r)] + Uses(c, rest);
      assert Uses(c, [r] + rest)[1..] == Uses(c, rest);
    }
  }

  lemma {:induction false} StripRightKeepsStart(s: string)
    ensures StripRight(s) == "" || (s != "" && StripRight(s)[0] == s[0])
    ensures StripRight(s) == "" || !IsSpace(StripRight(s)[|StripRight(s)| - 1])
  {
    if s != [] && IsSpace(s[|s| - 1]) {
      StripRightKeepsStart(s[..|s| - 1]);
    }
  }

  lemma {:induction false} StripLeftStart(s: string)
    ensures StripLeft(s) == "" || !IsSpace(StripLeft(s)[0])
  {
    if s != [] && IsSpace(s[0]) {
      StripLeftStart(s[1..]);
    }
  }

  lemma StripTwice(s: string)
    ensures Strip(Strip(s)) == Strip(s)
  {
    StripLeftStart(s);
    StripRightKeepsStart(StripLeft(s));
  }

  /** A response with these parts, or nothing. */
  function IfAny(parts: seq<ResponsePart>): seq<ModelMessage> {
    if parts == [] then [] else [Response(parts)]
  }

  lemma {:induction false} AssistantRoundTrip(text: string, uses: seq<Block>, calls: seq<ResponsePart>)
    requires Strip(text) == text
    requires forall i :: 0 <= i < |uses| ==> uses[i].UseBlock?
    requires BlockCalls(uses) == calls && BlockTexts(uses) == []
    ensures Histories(AssistantTurn(text, uses)) == IfAny((if text == "" then [] else [TextPart(text)]) + calls)
  {
    var ms := AssistantTurn(text, uses);
    var parts := (if text == "" then [] else [TextPart(text)]) + calls;
    if uses == [] {
      assert parts == if text == "" then [] else [TextPart(text)];
      assert ms == if text == "" then [] else [LLMMessage(Assistant, text, [])];
    } else {
      var blocks := (if text == "" then [] else [TextBlock(text)]) + uses;
      assert text == "" ==> blocks == uses;
      assert text != "" ==> blocks[1..] == uses;
      assert BlockTexts(blocks) == if text == "" then [] else [text];
      assert BlockCalls(blocks) == calls;
      assert ms == [LLMMessage(Assistant, "", blocks)];
    }
    if ms != [] {
      assert HistoryOf(ms[0]) == IfAny(parts);
      assert ms[1..] == [];
      assert Histories(ms) == HistoryOf(ms[0]) + [];
    }
  }

  lemma {:induction false} CallsRoundTrip(c: Codec, turn: string, parts: seq<ResponsePart>)
    requires CallRecords(c, turn, parts) != []
    ensures Histories(Messages(c, CallRecords(c, turn, parts))) == IfAny(CanonicalCalls(c, parts))
  {
    var calls := CallRecords(c, turn, parts);
    CallRecordsRoundTrip(c, turn, parts);
    UsesAreUses(c, calls);
    assert IsCall(calls[0]) && GroupSize(calls) == |calls|;
    OneGroup(c, calls);
    assert calls[..|calls|] == calls;
    var uses := Uses(c, calls);
    assert [] + uses == uses;
    assert WithBlocks(Assistant, uses) == AssistantTurn("", uses);
    assert [] + CanonicalCalls(c, parts) == CanonicalCalls(c, parts);
    AssistantRoundTrip("", uses, CanonicalCalls(c, parts));
  }

  lemma {:induction false} TextRoundTrip(c: Codec, turn: string, parts: seq<ResponsePart>, usage: Option<int>)
    ensures var recs := [Record(0, turn, AssistantMessage(ResponseText(parts), usage))] + CallRecords(c, turn, parts);
            Histories(Messages(c, recs)) == IfAny(CanonicalParts(c, parts))
  {
    var calls := CallRecords(c, turn, parts);
    var recs := [Record(0, turn, AssistantMessage(ResponseText(parts), usage))] + calls;
    CallRecordsRoundTrip(c, turn, parts);
    UsesAreUses(c, calls);
    assert recs[1..] == calls && calls[..|calls|] == calls;
    OneGroup(c, recs);
    StripTwice(Join(" ", NonEmpty(Texts(parts))));
    AssistantRoundTrip(ResponseText(parts), Uses(c, calls), CanonicalCalls(c, parts));
  }

  lemma {:induction false} ResponseRoundTrip(c: Codec, turn: string, parts: seq<ResponsePart>, usage: Option<int>, skipMemory: bool)
    requires MessageRecords(c, turn, Response(parts), usage, skipMemory) != []
    ensures Histories(Messages(c, MessageRecords(c, turn, Response(parts), usage, skipMemory)))
         == IfAny(CanonicalParts(c, parts))
  {
    var calls := CallRecords(c, turn, parts);
    ResponseRecordsAre(c, turn, parts, usage, skipMemory);
    if Texts(parts) == [] {
      assert [] + calls == calls;
      assert ResponseText(parts) == "" && CanonicalParts(c, parts) == CanonicalCalls(c, parts);
      CallsRoundTrip(c, turn, parts);
    } else {
      TextRoundTrip(c, turn, parts, usage);
    }
  }

  /** Where the records of a response begin and end. */
  lemma {:induction false} ResponseEnds(c: Codec, turn: string, parts: seq<ResponsePart>, usage: Option<int>, skipMemory: bool)
    requires MessageRecords(c, turn, Response(parts), usage, skipMemory) != []
    ensures var recs := MessageRecords(c, turn, Response(parts), usage, skipMemory);
            !IsResult(recs[0]) && !IsResult(recs[|recs| - 1]) && (IsCall(recs[0]) <==> Texts(parts) == [])
  {
    ResponseRecordsAre(c, turn, parts, usage, skipMemory);
    CallRecordsRoundTrip(c, turn, parts);
  }

  // ---------------------------------------------------------------- one request

  lemma {:induction false} ResultRecordsAre(c: Codec, turn: string, asked: seq<RequestPart>, skipMemory: bool)
    ensures forall r :: r in ResultRecords(c, turn, asked, skipMemory) ==> IsResult(r)
  {
    if asked != [] {
      var rest := ResultRecords(c, turn, asked[1..], skipMemory);
      ResultRecordsAre(c, turn, asked[1..], skipMemory);
      assert ResultRecords(c, turn, asked, skipMemory) == ResultRecord(c, turn, asked[0], skipMemory) + rest;
    }
  }

  /** The dict of blocks and the dict of parts move together. */
  lemma {:induction false} PutReturns(seen: seq<Block>, b: Block)
    requires b.ResultBlock? && forall i :: 0 <= i < |seen| ==> seen[i].ResultBlock?
    ensures Returns(Put(seen, b)) == PutPart(Returns(seen), ReturnOf(b)[0])
  {
    if seen == [] {
      OneReturn(b);
    } else {
      var rest := seen[1..];
      assert Returns(seen) == ReturnOf(seen[0]) + Returns(rest) && Returns(seen)[1..] == Returns(rest);
      if seen[0].id == b.id {
        ReturnsFirst(b, rest);
      } else {
        PutReturns(rest, b);
        ReturnsFirst(seen[0], Put(rest, b));
      }
    }
  }

  lemma {:induction false} ReturnsFirst(b: Block, rest: seq<Block>)
    ensures Returns([b] + rest) == ReturnOf(b) + Returns(rest)
  {
    assert ([b] + rest)[1..] == rest;
  }

  lemma {:induction false} OneReturn(b: Block)
    ensures Returns([b]) == ReturnOf(b)
  {
    assert [b][1..] == [];
  }

  lemma {:induction false} CollectRoundTrip(
    c: Codec, turn: string, asked: seq<RequestPart>, skipMemory: bool, seen: seq<Block>)
    requires forall i :: 0 <= i < |seen| ==> seen[i].ResultBlock?
    requires forall i :: 0 <= i < |ResultRecords(c, turn, asked, skipMemory)| ==>
               IsResult(ResultRecords(c, turn, asked, skipMemory)[i])
    ensures Returns(Collect(c, ResultRecords(c, turn, asked, skipMemory), seen))
         == PutParts(Returns(seen), CanonicalReturns(c, asked))
    decreases |asked|, 1
  {
    if asked != [] {
      var rest := ResultRecords(c, turn, asked[1..], skipMemory);
      ResultRecordsAre(c, turn, asked[1..], skipMemory);
      if Stored(asked[0], skipMemory) {
        var r := Record(0, turn, ToolResult(asked[0].id, asked[0].name, ParseResult(c, asked[0].content), None));
        assert ResultRecords(c, turn, asked, skipMemory) == [r] + rest;
        assert ([r] + rest)[1..] == rest;
        CollectFirst(c, turn, asked, skipMemory, seen, r);
      } else {
        assert ResultRecords(c, turn, asked, skipMemory) == rest;
        assert CanonicalReturns(c, asked) == CanonicalReturns(c, asked[1..]);
        CollectRoundTrip(c, turn, asked[1..], skipMemory, seen);
      }
    }
  }

  lemma {:induction false} CollectFirst(
    c: Codec, turn: string, asked: seq<RequestPart>, skipMemory: bool, seen: seq<Block>, r: Record)
    requires forall i :: 0 <= i < |seen| ==> seen[i].ResultBlock?
    requires asked != [] && Stored(asked[0], skipMemory)
    requires r == Record(0, turn, ToolResult(asked[0].id, asked[0].name, ParseResult(c, asked[0].content), None))
    requires var rest := ResultRecords(c, turn, asked[1..], skipMemory);
             forall i :: 0 <= i < |rest| ==> IsResult(rest[i])
    ensures var seen' := if IsMemory(r) then seen else Put(seen, ResultOf(c, r));
            var rest := ResultRecords(c, turn, asked[1..], skipMemory);
            Returns(Collect(c, rest, seen')) == PutParts(Returns(seen), CanonicalReturns(c, asked))
    decreases |asked|, 0
  {
    if IsMemory(r) {
      assert CanonicalReturns(c, asked) == CanonicalReturns(c, asked[1..]);
      CollectRoundTrip(c, turn, asked[1..], skipMemory, seen);
    } else {
      var b := ResultOf(c, r);
      var (all, rest) := (CanonicalReturns(c, asked), CanonicalReturns(c, asked[1..]));
      PutReturns(seen, b);
      CollectRoundTrip(c, turn, asked[1..], skipMemory, Put(seen, b));
      assert all == [ReturnOf(b)[0]] + rest && all[1..] == rest;
    }
  }

  lemma {:induction false} RequestRoundTrip(c: Codec, turn: string, asked: seq<RequestPart>, usage: Option<int>, skipMemory: bool)
    requires MessageRecords(c, turn, Request(asked), usage, skipMemory) != []
    ensures Histories(Messages(c, MessageRecords(c, turn, Request(asked), usage, skipMemory)))
         == if LastReturns(c, asked) == [] then [] else [Request(LastReturns(c, asked))]
  {
    var recs := ResultRecords(c, turn, asked, skipMemory);
    ResultRecordsAre(c, turn, asked, skipMemory);
    WholeRun(recs);
    OneGroup(c, recs);
    CollectRoundTrip(c, turn, asked, skipMemory, []);
    var blocks := Collect(c, recs, []);
    assert Returns(blocks) == LastReturns(c, asked);
    var ms := WithBlocks(User, blocks);
    if blocks != [] {
      assert Returns(blocks) == ReturnOf(blocks[0]) + Returns(blocks[1..]) && ms[1..] == [];
      assert Histories(ms) == [Request(Returns(blocks))] + [];
    }
  }

  // ---------------------------------------------------------------- a turn and a session

  lemma {:induction false} MessageRoundTrip(
    c: Codec, turn: string, m: ModelMessage, usage: Option<int>, skipMemory: bool)
    requires !Silent(m, skipMemory)
    ensures Histories(Messages(c, MessageRecords(c, turn, m, usage, skipMemory)))
         == if Visible(c, m) then [CanonicalMessage(c, m)] else []
  {
    SilentIff(c, turn, m, usage, skipMemory);
    match m
    case Response(parts) => ResponseRoundTrip(c, turn, parts, usage, skipMemory);
    case Request(asked) => RequestRoundTrip(c, turn, asked, usage, skipMemory);
  }

  /** The first and the last record of a message. */
  lemma {:induction false} MessageEnds(c: Codec, turn: string, m: ModelMessage, usage: Option<int>, skipMemory: bool)
    requires !Silent(m, skipMemory)
    ensures var recs := MessageRecords(c, turn, m, usage, skipMemory);
            && recs != [] && IsResult(recs[0]) == m.Request? == IsResult(recs[|recs| - 1])
            && (IsCall(recs[0]) <==> m.Response? && Texts(m.parts) == [])
  {
    SilentIff(c, turn, m, usage, skipMemory);
    match m
    case Response(parts) => ResponseEnds(c, turn, parts, usage, skipMemory);
    case Request(asked) => ResultRecordsAre(c, turn, asked, skipMemory);
  }

  /** Messages that are separate come back one by one. */
  lemma {:induction false} SeparateRoundTrip(
    c: Codec, turn: string, ms: seq<ModelMessage>, usage: Option<int>, skipMemory: bool)
    requires Separate(ms, skipMemory)
    ensures Histories(Messages(c, Build(c, turn, ms, usage, skipMemory))) == Canonical(c, ms)
  {
    if ms != [] {
      var usage' := UsageAfter(ms[0], usage);
      var first := MessageRecords(c, turn, ms[0], usage, skipMemory);
      var rest := Build(c, turn, ms[1..], usage', skipMemory);
      SeparateTail(ms, skipMemory);
      MessageRoundTrip(c, turn, ms[0], usage, skipMemory);
      SeparateRoundTrip(c, turn, ms[1..], usage', skipMemory);
      NoMerge(c, turn, ms, usage, skipMemory);
      MessagesSplit(c, first, rest);
      HistoriesSplit(Messages(c, first), Messages(c, rest));
    }
  }

  lemma {:induction false} NoMerge(c: Codec, turn: string, ms: seq<ModelMessage>, usage: Option<int>, skipMemory: bool)
    requires Separate(ms, skipMemory) && ms != []
    ensures Apart(MessageRecords(c, turn, ms[0], usage, skipMemory),
                  Build(c, turn, ms[1..], UsageAfter(ms[0], usage), skipMemory))
  {
    SeparateTail(ms, skipMemory);
    MessageEnds(c, turn, ms[0], usage, skipMemory);
    if ms[1..] != [] {
      MessageEnds(c, turn, ms[1], UsageAfter(ms[0], usage), skipMemory);
      assert ms[1..] == [ms[1]] + ms[2..];
      BuildFirst(c, turn, ms[1], ms[2..], UsageAfter(ms[0], usage), skipMemory);
    }
  }

  /**
   * Storing, grouping and converting any turn gives back the canonical form of its messages, glued
   * together where nothing stored separates them.
   */
  lemma {:induction false} TurnRoundTrip(
    c: Codec, turn: string, ms: seq<ModelMessage>, usage: Option<int>, skipMemory: bool)
    ensures Histories(Messages(c, Build(c, turn, ms, usage, skipMemory))) == Canonical(c, Glued(ms, skipMemory))
  {
    GluedRecords(c, turn, ms, usage, skipMemory);
    GluedIsSeparate(ms, skipMemory);
    SeparateRoundTrip(c, turn, Glued(ms, skipMemory), usage, skipMemory);
  }

  /** A finished turn in the log: what the user said and what the agent did. */
  datatype Turn = Turn(id: string, said: string, did: seq<ModelMessage>, usage: Option<int>)

  function TurnLog(c: Codec, t: Turn): seq<Record> {
    [Record(0, t.id, UserMessage(t.said))] + Build(c, t.id, t.did, t.usage, true) + [Record(0, t.id, TurnTerminal)]
  }

  function Log(c: Codec, turns: seq<Turn>): seq<Record> {
    if turns == [] then [] else TurnLog(c, turns[0]) + Log(c, turns[1..])
  }

  function Replayed(c: Codec, turns: seq<Turn>): seq<ModelMessage> {
    if turns == [] then [] else Prompt(turns[0].said) + Canonical(c, Glued(turns[0].did, true)) + Replayed(c, turns[1..])
  }

  lemma {:induction false} OnePrompt(c: Codec, turn: string, said: string)
    ensures Histories(Messages(c, [Record(0, turn, UserMessage(said))])) == Prompt(said)
    ensures Messages(c, [Record(0, turn, TurnTerminal)]) == []
  {
    var recs := [Record(0, turn, UserMessage(said))];
    OneGroup(c, recs);
    OneGroup(c, [Record(0, turn, TurnTerminal)]);
    var ms := PlainText(User, said);
    if said != "" {
      assert ms[1..] == [];
      assert Histories(ms) == Prompt(said) + [];
    }
  }

  lemma {:induction false} TurnLogMessages(c: Codec, t: Turn)
    ensures Messages(c, TurnLog(c, t))
         == Messages(c, [Record(0, t.id, UserMessage(t.said))]) + Messages(c, Build(c, t.id, t.did, t.usage, true))
  {
    var (user, did, end) := ([Record(0, t.id, UserMessage(t.said))], Build(c, t.id, t.did, t.usage, true),
                             [Record(0, t.id, TurnTerminal)]);
    OnePrompt(c, t.id, t.said);
    assert Apart(user + did, end) && Apart(user, did);
    MessagesSplit(c, user + did, end);
    MessagesSplit(c, user, did);
    assert Messages(c, user + did) + [] == Messages(c, user + did);
  }

  lemma {:induction false} TurnLogRoundTrip(c: Codec, t: Turn)
    ensures Histories(Messages(c, TurnLog(c, t))) == Prompt(t.said) + Canonical(c, Glued(t.did, true))
  {
    TurnLogMessages(c, t);
    OnePrompt(c, t.id, t.said);
    TurnRoundTrip(c, t.id, t.did, t.usage, true);
    HistoriesSplit(Messages(c, [Record(0, t.id, UserMessage(t.said))]),
                   Messages(c, Build(c, t.id, t.did, t.usage, true)));
  }

  /** The same for any session: turns neither merge nor get lost. */
  lemma {:induction false} SessionRoundTrip(c: Codec, turns: seq<Turn>)
    ensures Histories(Messages(c, Log(c, turns))) == Replayed(c, turns)
  {
    if turns != [] {
      TurnLogRoundTrip(c, turns[0]);
      SessionRoundTrip(c, turns[1..]);
      MessagesSplit(c, TurnLog(c, turns[0]), Log(c, turns[1..]));
      HistoriesSplit(Messages(c, TurnLog(c, turns[0])), Messages(c, Log(c, turns[1..])));
    }
  }

  // ---------------------------------------------------------------- normal form

  /** Calls with parsed arguments, no memory call among them. */
  predicate NormalCalls(parts: seq<ResponsePart>) {
    forall i :: 0 <= i < |parts| ==>
      && parts[i].CallPart? && parts[i].args.DictArgs? && parts[i].name != MEMORY_TOOL_NAME
      && Proper(JObject(parts[i].args.fields))
  }

  /** At most one text, stripped and not blank, and then calls. */
  predicate NormalResponse(parts: seq<ResponsePart>) {
    || NormalCalls(parts)
    || (parts != [] && parts[0].TextPart? && parts[0].content != "" && Strip(parts[0].content) == parts[0].content
        && NormalCalls(parts[1..]))
  }

  ghost predicate PrintedObject(c: Codec, content: Content) {
    content.Text? && exists fields :: Proper(JObject(fields)) && content.text == c.dumps(JObject(fields))
  }

  /** Successful results only, each a compact JSON object. */
  ghost predicate NormalRequest(c: Codec, asked: seq<RequestPart>) {
    forall i :: 0 <= i < |asked| ==>
      && asked[i].ReturnPart? && asked[i].outcome == Success && asked[i].name != MEMORY_TOOL_NAME
      && PrintedObject(c, asked[i].content)
  }

  ghost predicate Normal(c: Codec, m: ModelMessage) {
    match m
    case Response(parts) => NormalResponse(parts)
    case Request(asked) => NormalRequest(c, asked)
  }

  lemma ArgsRoundTrip(c: Codec, fields: seq<(string, Json)>)
    requires Lossless(c) && Proper(JObject(fields))
    ensures ArgFields(c, DictArgs(fields)) == fields
  {
    assert c.loads(c.dumps(JObject(fields))) == Some(JObject(fields));
  }

  lemma {:induction false} NormalCallsStay(c: Codec, parts: seq<ResponsePart>)
    requires Lossless(c) && NormalCalls(parts)
    ensures CanonicalCalls(c, parts) == parts && Texts(parts) == []
  {
    if parts != [] {
      ArgsRoundTrip(c, parts[0].args.fields);
      NormalCallsStay(c, parts[1..]);
    }
  }

  lemma NormalResponseStays(c: Codec, parts: seq<ResponsePart>)
    requires Lossless(c) && NormalResponse(parts)
    ensures CanonicalParts(c, parts) == parts
  {
    if NormalCalls(parts) {
      NormalCallsStay(c, parts);
    } else {
      var text := parts[0].content;
      NormalCallsStay(c, parts[1..]);
      assert Texts(parts) == [text] + [];
      assert NonEmpty([text]) == [text] + [];
      assert parts == [TextPart(text)] + parts[1..];
    }
  }

  lemma {:induction false} PrintedObjectStays(c: Codec, content: Content)
    requires Lossless(c) && PrintedObject(c, content)
    ensures Text(c.dumps(ParseResult(c, content))) == content
  {
    var fields :| Proper(JObject(fields)) && content.text == c.dumps(JObject(fields));
    assert c.loads(c.dumps(JObject(fields))) == Some(JObject(fields));
  }

  lemma {:induction false} FirstReturn(c: Codec, asked: seq<RequestPart>)
    requires asked != [] && Stored(asked[0], true)
    ensures CanonicalReturns(c, asked)
         == [ReturnPart(asked[0].id, asked[0].name, Text(c.dumps(ParseResult(c, asked[0].content))), Success)]
            + CanonicalReturns(c, asked[1..])
  {}

  lemma {:induction false} NormalRequestStays(c: Codec, asked: seq<RequestPart>)
    requires Lossless(c) && NormalRequest(c, asked)
    ensures CanonicalReturns(c, asked) == asked
  {
    if asked != [] {
      var first := asked[0];
      NormalRequestStays(c, asked[1..]);
      PrintedObjectStays(c, first.content);
      FirstReturn(c, asked);
      assert first == ReturnPart(first.id, first.name, first.content, Success);
      assert asked == [first] + asked[1..];
    }
  }

  predicate IdsDistinct(parts: seq<RequestPart>) {
    forall i, j :: 0 <= i < j < |parts| && parts[i].ReturnPart? && parts[j].ReturnPart? ==> parts[i].id != parts[j].id
  }

  lemma {:induction false} PutNewPart(seen: seq<RequestPart>, p: RequestPart)
    requires p.ReturnPart? && forall i :: 0 <= i < |seen| && seen[i].ReturnPart? ==> seen[i].id != p.id
    ensures PutPart(seen, p) == seen + [p]
  {
    if seen != [] {
      PutNewPart(seen[1..], p);
    }
  }

  lemma {:induction false} DistinctStay(seen: seq<RequestPart>, parts: seq<RequestPart>)
    requires IdsDistinct(seen + parts) && forall i :: 0 <= i < |parts| ==> parts[i].ReturnPart?
    ensures PutParts(seen, parts) == seen + parts
    decreases |parts|
  {
    if parts == [] {
      assert seen + parts == seen;
    } else {
      var all := seen + parts;
      assert all[|seen|] == parts[0] && forall i :: 0 <= i < |seen| ==> all[i] == seen[i];
      PutNewPart(seen, parts[0]);
      assert seen + [parts[0]] + parts[1..] == all;
      DistinctStay(seen + [parts[0]], parts[1..]);
    }
  }

  lemma {:induction false} PutMembers(seen: seq<RequestPart>, p: RequestPart)
    requires p.ReturnPart? && IdsDistinct(seen) && forall i :: 0 <= i < |seen| ==> seen[i].ReturnPart?
    ensures forall q :: q in PutPart(seen, p) ==> q == p || (q in seen && q.ReturnPart? && q.id != p.id)
  {
    if seen != [] {
      TailDistinct(seen);
      if seen[0].id != p.id {
        PutMembers(seen[1..], p);
      }
    }
  }

  lemma TailDistinct(parts: seq<RequestPart>)
    requires IdsDistinct(parts) && parts != [] && parts[0].ReturnPart?
    ensures IdsDistinct(parts[1..])
    ensures forall q :: q in parts[1..] ==> q in parts && (q.ReturnPart? ==> q.id != parts[0].id)
  {
    assert forall i :: 0 <= i < |parts[1..]| ==> parts[1..][i] == parts[i + 1];
  }

  lemma DistinctFirst(first: RequestPart, rest: seq<RequestPart>)
    requires first.ReturnPart? && IdsDistinct(rest)
    requires forall q :: q in rest && q.ReturnPart? ==> q.id != first.id
    ensures IdsDistinct([first] + rest)
  {
    var all := [first] + rest;
    forall i, j | 0 <= i < j < |all| && all[i].ReturnPart? && all[j].ReturnPart? ensures all[i].id != all[j].id {
      assert all[j] == rest[j - 1] && all[j] in rest;
      assert i > 0 ==> all[i] == rest[i - 1];
    }
  }

  lemma {:induction false} PutKeepsIds(seen: seq<RequestPart>, p: RequestPart)
    requires p.ReturnPart? && IdsDistinct(seen) && forall i :: 0 <= i < |seen| ==> seen[i].ReturnPart?
    ensures IdsDistinct(PutPart(seen, p)) && forall q :: q in PutPart(seen, p) ==> q.ReturnPart?
    ensures forall q :: q in PutPart(seen, p) ==> q == p || (q in seen && q.id != p.id)
  {
    PutMembers(seen, p);
    if seen != [] {
      TailDistinct(seen);
      if seen[0].id == p.id {
        DistinctFirst(p, seen[1..]);
      } else {
        PutKeepsIds(seen[1..], p);
        DistinctFirst(seen[0], PutPart(seen[1..], p));
      }
    }
  }

  /** Of each call the last result is left: distinct ids, and every part left was among the results. */
  lemma {:induction false} PutPartsDistinct(seen: seq<RequestPart>, parts: seq<RequestPart>)
    requires IdsDistinct(seen) && forall i :: 0 <= i < |seen| ==> seen[i].ReturnPart?
    requires forall i :: 0 <= i < |parts| ==> parts[i].ReturnPart?
    ensures IdsDistinct(PutParts(seen, parts))
    ensures forall q :: q in PutParts(seen, parts) ==> q in seen || q in parts
    decreases |parts|
  {
    if parts != [] {
      PutKeepsIds(seen, parts[0]);
      PutPartsDistinct(PutPart(seen, parts[0]), parts[1..]);
    }
  }

  /** `q` is the last of these results with its id. */
  ghost predicate IsLast(parts: seq<RequestPart>, q: RequestPart) {
    q.ReturnPart? && exists k :: IsLastAt(parts, q, k)
  }

  predicate IsLastAt(parts: seq<RequestPart>, q: RequestPart, k: int)
    requires q.ReturnPart?
  {
    && 0 <= k < |parts| && parts[k] == q
    && (forall j :: k < j < |parts| && parts[j].ReturnPart? ==> parts[j].id != q.id)
  }

  predicate Unanswered(parts: seq<RequestPart>, q: RequestPart) {
    q.ReturnPart? && forall j :: 0 <= j < |parts| && parts[j].ReturnPart? ==> parts[j].id != q.id
  }

  lemma {:induction false} IsLastFirst(parts: seq<RequestPart>, q: RequestPart)
    requires parts != []
    ensures IsLast(parts[1..], q) ==> IsLast(parts, q)
    ensures Unanswered(parts[1..], q) ==> if parts[0] == q then IsLast(parts, q)
                                          else (parts[0].ReturnPart? && parts[0].id == q.id) || Unanswered(parts, q)
  {
    var rest := parts[1..];
    if IsLast(rest, q) {
      var k :| IsLastAt(rest, q, k);
      forall j | k + 1 < j < |parts| && parts[j].ReturnPart? ensures parts[j].id != q.id {
        assert parts[j] == rest[j - 1];
      }
      assert IsLastAt(parts, q, k + 1);
    }
    if Unanswered(rest, q) {
      forall j | 0 < j < |parts| && parts[j].ReturnPart? ensures parts[j].id != q.id {
        assert parts[j] == rest[j - 1];
      }
      if parts[0] == q {
        assert IsLastAt(parts, q, 0);
      }
    }
  }

  lemma {:induction false} PutPartsKeepLast(seen: seq<RequestPart>, parts: seq<RequestPart>)
    requires IdsDistinct(seen) && forall i :: 0 <= i < |seen| ==> seen[i].ReturnPart?
    requires forall i :: 0 <= i < |parts| ==> parts[i].ReturnPart?
    ensures forall q :: q in PutParts(seen, parts) ==> IsLast(parts, q) || (q in seen && Unanswered(parts, q))
    decreases |parts|
  {
    if parts != [] {
      var p := parts[0];
      PutKeepsIds(seen, p);
      PutPartsKeepLast(PutPart(seen, p), parts[1..]);
      forall q | q in PutParts(seen, parts) ensures IsLast(parts, q) || (q in seen && Unanswered(parts, q)) {
        IsLastFirst(parts, q);
      }
    }
  }

  lemma {:induction false} ReturnsOnly(c: Codec, asked: seq<RequestPart>)
    ensures forall i :: 0 <= i < |CanonicalReturns(c, asked)| ==> CanonicalReturns(c, asked)[i].ReturnPart?
  {
    if asked != [] {
      ReturnsOnly(c, asked[1..]);
    }
  }

  lemma {:induction false} PutKeepsAnswers(seen: seq<RequestPart>, p: RequestPart, id: string)
    ensures Answers(PutPart(seen, p), id) <==> Answers(seen, id) || Answers([p], id)
  {
    if seen == [] {
      assert PutPart(seen, p) == [p];
    } else {
      PutKeepsAnswers(seen[1..], p, id);
      AnswersFirst(seen, id);
      AnswersFirst(PutPart(seen, p), id);
      assert PutPart(seen, p)[1..] == if seen[0].ReturnPart? && p.ReturnPart? && seen[0].id == p.id then seen[1..] else PutPart(seen[1..], p);
    }
  }

  /** Is there a result for this call? */
  predicate Answers(parts: seq<RequestPart>, id: string) {
    exists i :: 0 <= i < |parts| && parts[i].ReturnPart? && parts[i].id == id
  }

  lemma AnswersFirst(parts: seq<RequestPart>, id: string)
    requires parts != []
    ensures Answers(parts, id) <==> (parts[0].ReturnPart? && parts[0].id == id) || Answers(parts[1..], id)
  {
    assert forall i :: 0 < i < |parts| ==> parts[i] == parts[1..][i - 1];
    if Answers(parts[1..], id) {
      var i :| 0 <= i < |parts[1..]| && parts[1..][i].ReturnPart? && parts[1..][i].id == id;
      assert parts[i + 1] == parts[1..][i];
    }
  }

  lemma {:induction false} PutPartsAnswer(seen: seq<RequestPart>, parts: seq<RequestPart>, id: string)
    ensures Answers(PutParts(seen, parts), id) <==> Answers(seen, id) || Answers(parts, id)
    decreases |parts|
  {
    if parts != [] {
      PutKeepsAnswers(seen, parts[0], id);
      PutPartsAnswer(PutPart(seen, parts[0]), parts[1..], id);
      AnswersFirst(parts, id);
      AnswersFirst([parts[0]], id);
      assert [parts[0]][1..] == [];
    }
  }

  /** What is left of a request: for each call it answers exactly one result, the last. */
  lemma {:induction false} LastReturnsAre(c: Codec, asked: seq<RequestPart>)
    ensures IdsDistinct(LastReturns(c, asked))
    ensures forall q :: q in LastReturns(c, asked) ==> IsLast(CanonicalReturns(c, asked), q)
    ensures forall id :: Answers(LastReturns(c, asked), id) <==> Answers(CanonicalReturns(c, asked), id)
  {
    ReturnsOnly(c, asked);
    PutPartsDistinct([], CanonicalReturns(c, asked));
    PutPartsKeepLast([], CanonicalReturns(c, asked));
    forall id ensures Answers(LastReturns(c, asked), id) <==> Answers(CanonicalReturns(c, asked), id) {
      PutPartsAnswer([], CanonicalReturns(c, asked), id);
    }
  }

  /** A normal request that answers no call twice stays as it is. */
  lemma {:induction false} NormalRequestIsLast(c: Codec, asked: seq<RequestPart>)
    requires Lossless(c) && NormalRequest(c, asked) && IdsDistinct(asked)
    ensures LastReturns(c, asked) == asked
  {
    NormalRequestStays(c, asked);
    assert [] + asked == asked;
    DistinctStay([], asked);
  }

  /** In normal form, something in every message, and no call answered twice in one. */
  ghost predicate NormalMessage(c: Codec, m: ModelMessage) {
    Normal(c, m) && if m.Response? then m.parts != [] else m.asked != [] && IdsDistinct(m.asked)
  }

  lemma {:induction false} NormalMessageStays(c: Codec, m: ModelMessage)
    requires Lossless(c) && NormalMessage(c, m)
    ensures Visible(c, m) && CanonicalMessage(c, m) == m
  {
    match m
    case Response(parts) => NormalResponseStays(c, parts);
    case Request(asked) => NormalRequestIsLast(c, asked);
  }

  /** The canonical form of a normal turn is the turn itself. */
  lemma {:induction false} NormalStays(c: Codec, ms: seq<ModelMessage>)
    requires Lossless(c) && forall i :: 0 <= i < |ms| ==> NormalMessage(c, ms[i])
    ensures Canonical(c, ms) == ms
  {
    if ms != [] {
      NormalMessageStays(c, ms[0]);
      NormalStays(c, ms[1..]);
    }
  }

  lemma {:induction false} CanonicalCallsNormal(c: Codec, parts: seq<ResponsePart>)
    requires Lossless(c)
    ensures NormalCalls(CanonicalCalls(c, parts))
  {
    if parts != [] {
      CanonicalCallsNormal(c, parts[1..]);
    }
  }

  /** The tools returned Python values. */
  predicate ProperReturns(asked: seq<RequestPart>) {
    forall i :: 0 <= i < |asked| && asked[i].ReturnPart? ==> ProperContent(asked[i].content)
  }

  lemma {:induction false} CanonicalReturnsNormal(c: Codec, asked: seq<RequestPart>)
    requires Lossless(c) && ProperReturns(asked)
    ensures NormalRequest(c, CanonicalReturns(c, asked))
  {
    if asked != [] {
      CanonicalReturnsNormal(c, asked[1..]);
      if Stored(asked[0], true) {
        ParseResultStable(c, asked[0].content);
        var result := ParseResult(c, asked[0].content);
        assert PrintedObject(c, Text(c.dumps(result))) by {
          assert result == JObject(result.fields);
        }
      }
    }
  }

  lemma {:induction false} LastReturnsNormal(c: Codec, asked: seq<RequestPart>)
    requires Lossless(c) && ProperReturns(asked)
    ensures NormalRequest(c, LastReturns(c, asked)) && IdsDistinct(LastReturns(c, asked))
  {
    var all := CanonicalReturns(c, asked);
    CanonicalReturnsNormal(c, asked);
    PutPartsDistinct([], all);
    var last := LastReturns(c, asked);
    forall i | 0 <= i < |last|
      ensures last[i].ReturnPart? && last[i].outcome == Success && last[i].name != MEMORY_TOOL_NAME
      ensures PrintedObject(c, last[i].content)
    {
      assert last[i] in all;
      var k :| 0 <= k < |all| && all[k] == last[i];
    }
  }

  lemma {:induction false} CanonicalPartsNormal(c: Codec, parts: seq<ResponsePart>)
    requires Lossless(c)
    ensures NormalResponse(CanonicalParts(c, parts))
  {
    CanonicalCallsNormal(c, parts);
    StripTwice(Join(" ", NonEmpty(Texts(parts))));
    if ResponseText(parts) == "" {
      assert CanonicalParts(c, parts) == CanonicalCalls(c, parts);
    } else {
      assert CanonicalParts(c, parts)[1..] == CanonicalCalls(c, parts);
    }
  }

  /** What replay gives back of a message is normal, so a second trip does not change it. */
  lemma {:induction false} CanonicalIsNormal(c: Codec, m: ModelMessage)
    requires Lossless(c) && Visible(c, m) && (m.Request? ==> ProperReturns(m.asked))
    ensures NormalMessage(c, CanonicalMessage(c, m))
    ensures CanonicalMessage(c, CanonicalMessage(c, m)) == CanonicalMessage(c, m)
  {
    match m {
      case Response(parts) => CanonicalPartsNormal(c, parts);
      case Request(asked) => LastReturnsNormal(c, asked);
    }
    NormalMessageStays(c, CanonicalMessage(c, m));
  }

  /** Responses and requests take turns. */
  predicate Alternating(ms: seq<ModelMessage>) {
    forall i :: 0 < i < |ms| ==> ms[i].Response? != ms[i - 1].Response?
  }

  lemma {:induction false} NormalIsHeard(c: Codec, m: ModelMessage, skipMemory: bool)
    requires NormalMessage(c, m)
    ensures !Silent(m, skipMemory)
  {
    match m
    case Response(parts) => assert !parts[0].ThinkingPart?;
    case Request(asked) => assert Stored(asked[0], skipMemory);
  }

  /** A normal turn comes back from the log exactly as it went in. */
  lemma {:induction false} NormalTurnRoundTrip(c: Codec, turn: string, ms: seq<ModelMessage>, usage: Option<int>, skipMemory: bool)
    requires Lossless(c) && Alternating(ms)
    requires forall i :: 0 <= i < |ms| ==> NormalMessage(c, ms[i])
    ensures Histories(Messages(c, Build(c, turn, ms, usage, skipMemory))) == ms
  {
    forall i | 0 <= i < |ms| ensures !Silent(ms[i], skipMemory) {
      NormalIsHeard(c, ms[i], skipMemory);
    }
    SeparateStays(ms, skipMemory);
    TurnRoundTrip(c, turn, ms, usage, skipMemory);
    NormalStays(c, ms);
  }
}
