/** What grouping keeps of a log: every tool call, the last result per run, the order of both. */
module ReplayLaws {
  import opened SessionLog
  import opened Replay

  // ---------------------------------------------------------------- every call, in log order

  function Calls(recs: seq<Record>): (calls: seq<Record>)
    ensures forall i :: 0 <= i < |calls| ==> IsCall(calls[i])
  {
    if recs == [] then []
    else (if IsCall(recs[0]) then [recs[0]] else []) + Calls(recs[1..])
  }

  /** The tool_use blocks of a list of blocks. */
  function UsesOf(blocks: seq<Block>): seq<Block> {
    if blocks == [] then []
    else (if blocks[0].UseBlock? then [blocks[0]] else []) + UsesOf(blocks[1..])
  }

  /** The tool_use blocks of all messages, in order. */
  function AllUses(ms: seq<LLMMessage>): seq<Block> {
    if ms == [] then [] else UsesOf(ms[0].blocks) + AllUses(ms[1..])
  }

  lemma {:induction false} CallsSplit(a: seq<Record>, b: seq<Record>)
    ensures Calls(a + b) == Calls(a) + Calls(b)
  {
    if a == [] {
      assert a + b == b;
    } else {
      assert (a + b)[1..] == a[1..] + b;
      CallsSplit(a[1..], b);
    }
  }

  lemma {:induction false} CallsOfRun(recs: seq<Record>, calls: bool)
    requires forall i :: 0 <= i < |recs| ==> if calls then IsCall(recs[i]) else !IsCall(recs[i])
    ensures Calls(recs) == if calls then recs else []
  {
    if recs != [] {
      CallsOfRun(recs[1..], calls);
    }
  }

  lemma {:induction false} AllUsesSplit(a: seq<LLMMessage>, b: seq<LLMMessage>)
    ensures AllUses(a + b) == AllUses(a) + AllUses(b)
  {
    if a == [] {
      assert a + b == b;
    } else {
      assert (a + b)[1..] == a[1..] + b;
      AllUsesSplit(a[1..], b);
    }
  }

  lemma {:induction false} UsesOfUses(blocks: seq<Block>, uses: bool)
    requires forall i :: 0 <= i < |blocks| ==> blocks[i].UseBlock? == uses
    ensures UsesOf(blocks) == if uses then blocks else []
  {
    if blocks != [] {
      UsesOfUses(blocks[1..], uses);
    }
  }

  lemma {:induction false} GroupKeepsCalls(c: Codec, recs: seq<Record>)
    requires recs != []
    ensures AllUses(GroupMessage(c, recs)) == Uses(c, Calls(recs[..GroupSize(recs)]))
  {
    var group := recs[..GroupSize(recs)];
    match recs[0].body
    case AssistantMessage(content, _) =>
      var run := recs[1..][..CallRun(recs[1..])];
      assert group == [recs[0]] + run;
      CallsSplit([recs[0]], run);
      CallsOfRun([recs[0]], false);
      CallsOfRun(run, true);
      assert Calls(group) == run;
      UsesAreUses(c, run);
      UsesOfUses(Uses(c, run), true);
      UsesWithText(content, Uses(c, run));
    case AssistantToolCall(_, _, _) =>
      CallsOfRun(group, true);
      UsesAreUses(c, group);
      UsesOfUses(Uses(c, group), true);
      OneMessage(Assistant, Uses(c, group));
    case ToolResult(_, _, _, _) =>
      CallsOfRun(group, false);
      UsesOfUses(Collect(c, group, []), false);
      OneMessage(User, Collect(c, group, []));
    case _ => assert group == [recs[0]];
  }

  lemma {:induction false} OneMessage(role: Role, blocks: seq<Block>)
    ensures AllUses(WithBlocks(role, blocks)) == UsesOf(blocks)
  {
    if blocks != [] {
      var ms := WithBlocks(role, blocks);
      assert ms[1..] == [];
      assert AllUses(ms) == UsesOf(blocks) + [];
    }
  }

  lemma {:induction false} UsesWithText(content: string, uses: seq<Block>)
    requires UsesOf(uses) == uses
    ensures AllUses(AssistantTurn(content, uses)) == uses
  {
    if uses != [] {
      var blocks := (if content == "" then [] else [TextBlock(content)]) + uses;
      assert content == "" ==> blocks == uses;
      assert content != "" ==> blocks[1..] == uses;
      OneMessage(Assistant, blocks);
    } else {
      assert forall ms: seq<LLMMessage> :: |ms| == 1 && ms[0].blocks == [] ==> AllUses(ms) == [] + [];
    }
  }

  lemma {:induction false} UsesSplit(c: Codec, a: seq<Record>, b: seq<Record>)
    requires forall i :: 0 <= i < |a| ==> IsCall(a[i])
    requires forall i :: 0 <= i < |b| ==> IsCall(b[i])
    requires forall i :: 0 <= i < |a + b| ==> IsCall((a + b)[i])
    ensures Uses(c, a + b) == Uses(c, a) + Uses(c, b)
  {
    if a == [] {
      assert a + b == b;
    } else {
      assert (a + b)[1..] == a[1..] + b;
      UsesSplit(c, a[1..], b);
    }
  }

  /** For any log, the tool_use blocks sent are exactly its non-memory calls, in log order. */
  lemma {:induction false} EveryCallIsReplayed(c: Codec, recs: seq<Record>)
    ensures AllUses(Messages(c, recs)) == Uses(c, Calls(recs))
    decreases |recs|
  {
    if recs != [] {
      var n := GroupSize(recs);
      assert recs == recs[..n] + recs[n..];
      CallsSplit(recs[..n], recs[n..]);
      UsesSplit(c, Calls(recs[..n]), Calls(recs[n..]));
      GroupKeepsCalls(c, recs);
      EveryCallIsReplayed(c, recs[n..]);
      AllUsesSplit(GroupMessage(c, recs), Messages(c, recs[n..]));
    }
  }

  // ---------------------------------------------------------------- groups do not merge

  /** Records on the two sides of a cut between `a` and `b` belong to different groups. */
  predicate Apart(a: seq<Record>, b: seq<Record>) {
    a == [] || b == [] ||
    var last := a[|a| - 1];
    && !(IsCall(b[0]) && (IsCall(last) || last.body.AssistantMessage?))
    && !(IsResult(b[0]) && IsResult(last))
  }

  lemma {:induction false} RunsStop(a: seq<Record>, b: seq<Record>)
    requires a != [] ==> b == [] || (IsCall(b[0]) ==> !IsCall(a[|a| - 1]))
    requires a != [] ==> b == [] || (IsResult(b[0]) ==> !IsResult(a[|a| - 1]))
    ensures a != [] || b == [] || !IsCall(b[0]) ==> CallRun(a + b) == CallRun(a)
    ensures a != [] || b == [] || !IsResult(b[0]) ==> ResultRun(a + b) == ResultRun(a)
  {
    if a == [] {
      assert a + b == b;
    } else {
      assert (a + b)[1..] == a[1..] + b;
      if |a| > 1 {
        RunsStop(a[1..], b);
      } else {
        assert a[1..] + b == b;
      }
    }
  }

  lemma GroupStops(c: Codec, a: seq<Record>, b: seq<Record>)
    requires a != [] && Apart(a, b)
    ensures GroupSize(a + b) == GroupSize(a)
    ensures GroupMessage(c, a + b) == GroupMessage(c, a)
  {
    var n := GroupSize(a);
    if a[0].body.AssistantMessage? {
      TextGroupStops(c, a, b);
    } else if IsCall(a[0]) || IsResult(a[0]) {
      RunsStop(a, b);
      assert (a + b)[..n] == a[..n];
    }
  }

  lemma {:induction false} TextGroupIs(c: Codec, text: Record, rest: seq<Record>)
    requires text.body.AssistantMessage?
    ensures GroupSize([text] + rest) == 1 + CallRun(rest)
    ensures GroupMessage(c, [text] + rest) == AssistantTurn(text.body.content, Uses(c, rest[..CallRun(rest)]))
  {
    assert ([text] + rest)[1..] == rest;
  }

  lemma ApartAfterText(a: seq<Record>, b: seq<Record>)
    requires a != [] && Apart(a, b) && a[0].body.AssistantMessage?
    ensures a[1..] != [] ==> b == [] || (IsCall(b[0]) ==> !IsCall(a[1..][|a[1..]| - 1]))
    ensures a[1..] != [] ==> b == [] || (IsResult(b[0]) ==> !IsResult(a[1..][|a[1..]| - 1]))
    ensures a[1..] != [] || b == [] || !IsCall(b[0])
  {}

  lemma {:induction false} TextGroupStops(c: Codec, a: seq<Record>, b: seq<Record>)
    requires a != [] && Apart(a, b) && a[0].body.AssistantMessage?
    ensures GroupSize(a + b) == GroupSize(a)
    ensures GroupMessage(c, a + b) == GroupMessage(c, a)
  {
    var (text, rest) := (a[0], a[1..]);
    assert a == [text] + rest && a + b == [text] + (rest + b);
    ApartAfterText(a, b);
    RunsStop(rest, b);
    TextGroupIs(c, text, rest);
    TextGroupIs(c, text, rest + b);
    assert (rest + b)[..CallRun(rest)] == rest[..CallRun(rest)];
  }

  /** Grouping distributes over concatenation wherever the cut does not split a group. */
  lemma {:induction false} MessagesSplit(c: Codec, a: seq<Record>, b: seq<Record>)
    requires Apart(a, b)
    ensures Messages(c, a + b) == Messages(c, a) + Messages(c, b)
    decreases |a|
  {
    if a == [] {
      assert a + b == b;
    } else {
      GroupStops(c, a, b);
      var n := GroupSize(a);
      assert (a + b)[n..] == a[n..] + b;
      MessagesSplit(c, a[n..], b);
    }
  }

  // ---------------------------------------------------------------- the last result per run

  /** No shown record of the run answers call `id`. */
  predicate Unanswered(run: seq<Record>, id: string)
    requires forall i :: 0 <= i < |run| ==> IsResult(run[i])
  {
    forall j :: 0 <= j < |run| && !IsMemory(run[j]) ==> run[j].body.callId != id
  }

  /** `b` shows the record at position `i` of the run, and no later one has the same id. */
  predicate LastAt(c: Codec, run: seq<Record>, b: Block, i: nat)
    requires forall i :: 0 <= i < |run| ==> IsResult(run[i])
  {
    i < |run| && !IsMemory(run[i]) && ResultOf(c, run[i]) == b && b.ResultBlock?
    && Unanswered(run[i + 1..], b.id)
  }

  ghost predicate IsLast(c: Codec, run: seq<Record>, b: Block)
    requires forall i :: 0 <= i < |run| ==> IsResult(run[i])
  {
    exists i: nat :: LastAt(c, run, b, i)
  }

  ghost predicate DistinctIds(blocks: seq<Block>)
    requires forall i :: 0 <= i < |blocks| ==> blocks[i].ResultBlock?
  {
    forall i, j :: 0 <= i < j < |blocks| ==> blocks[i].id != blocks[j].id
  }

  lemma {:induction false} PutKeepsDistinct(seen: seq<Block>, b: Block)
    requires b.ResultBlock? && forall i :: 0 <= i < |seen| ==> seen[i].ResultBlock?
    requires DistinctIds(seen)
    ensures DistinctIds(Put(seen, b))
    ensures forall x :: x in Put(seen, b) <==> x == b || (x in seen && x.id != b.id)
  {
    if seen != [] {
      PutKeepsDistinct(seen[1..], b);
      assert seen == [seen[0]] + seen[1..];
      var rest := Put(seen[1..], b);
      if seen[0].id == b.id {
        assert Put(seen, b) == [b] + seen[1..];
      } else {
        assert Put(seen, b) == [seen[0]] + rest;
      }
    }
  }

  lemma UnansweredTail(run: seq<Record>, id: string)
    requires run != [] && forall i :: 0 <= i < |run| ==> IsResult(run[i])
    ensures Unanswered(run, id) <==>
              (IsMemory(run[0]) || run[0].body.callId != id) && Unanswered(run[1..], id)
  {
    assert run == [run[0]] + run[1..];
  }

  lemma LastOfTail(c: Codec, run: seq<Record>, b: Block)
    requires run != [] && forall i :: 0 <= i < |run| ==> IsResult(run[i])
    ensures IsLast(c, run, b) <==> IsLast(c, run[1..], b) || LastAt(c, run, b, 0)
  {
    var rest := run[1..];
    if i: nat :| LastAt(c, rest, b, i) {
      assert run[i + 2..] == rest[i + 1..];
      assert LastAt(c, run, b, i + 1);
    }
    if i: nat :| LastAt(c, run, b, i) && i > 0 {
      assert run[i + 1..] == rest[i..];
      assert LastAt(c, rest, b, i - 1);
    }
  }

  /** In `Collect(run, seen)`: the run's last results, and old blocks the run does not replace. */
  ghost predicate Kept(c: Codec, run: seq<Record>, seen: seq<Block>, b: Block)
    requires forall i :: 0 <= i < |run| ==> IsResult(run[i])
  {
    IsLast(c, run, b) || (b in seen && b.ResultBlock? && Unanswered(run, b.id))
  }

  lemma {:induction false} CollectKeepsLast(c: Codec, run: seq<Record>, seen: seq<Block>)
    requires forall i :: 0 <= i < |run| ==> IsResult(run[i])
    requires forall i :: 0 <= i < |seen| ==> seen[i].ResultBlock?
    requires DistinctIds(seen)
    ensures DistinctIds(Collect(c, run, seen))
    ensures forall b :: b in Collect(c, run, seen) <==> Kept(c, run, seen, b)
  {
    if run != [] {
      var seen' := if IsMemory(run[0]) then seen else Put(seen, ResultOf(c, run[0]));
      if !IsMemory(run[0]) {
        PutKeepsDistinct(seen, ResultOf(c, run[0]));
      }
      CollectKeepsLast(c, run[1..], seen');
      forall b ensures Kept(c, run, seen, b) <==> Kept(c, run[1..], seen', b) {
        KeptTail(c, run, seen, b);
      }
    } else {
      forall b | b in seen ensures b.ResultBlock? {}
    }
  }

  lemma {:induction false} KeptTail(c: Codec, run: seq<Record>, seen: seq<Block>, b: Block)
    requires run != [] && forall i :: 0 <= i < |run| ==> IsResult(run[i])
    requires forall i :: 0 <= i < |seen| ==> seen[i].ResultBlock?
    requires DistinctIds(seen)
    ensures var seen' := if IsMemory(run[0]) then seen else Put(seen, ResultOf(c, run[0]));
            Kept(c, run, seen, b) <==> Kept(c, run[1..], seen', b)
  {
    LastOfTail(c, run, b);
    assert run[0 + 1..] == run[1..];
    if b.ResultBlock? {
      UnansweredTail(run, b.id);
    }
    if !IsMemory(run[0]) {
      PutKeepsDistinct(seen, ResultOf(c, run[0]));
    }
  }

  /**
   * A maximal run of results becomes one message (none when only memory results are in it) with
   * one block per id, and that block carries the last result of the run for the id.
   */
  lemma {:induction false} ResultRunIsReplayed(c: Codec, a: seq<Record>, run: seq<Record>, b: seq<Record>)
    requires run != [] && forall i :: 0 <= i < |run| ==> IsResult(run[i])
    requires a == [] || !IsResult(a[|a| - 1])
    requires b == [] || !IsResult(b[0])
    ensures var blocks := Collect(c, run, []);
            && Messages(c, a + run + b) == Messages(c, a) + WithBlocks(User, blocks) + Messages(c, b)
            && DistinctIds(blocks)
            && (forall x :: x in blocks <==> IsLast(c, run, x))
  {
    RunMessages(c, a, run, b);
    CollectKeepsLast(c, run, []);
  }

  lemma {:induction false} RunMessages(c: Codec, a: seq<Record>, run: seq<Record>, b: seq<Record>)
    requires run != [] && forall i :: 0 <= i < |run| ==> IsResult(run[i])
    requires a == [] || !IsResult(a[|a| - 1])
    requires b == [] || !IsResult(b[0])
    ensures Messages(c, a + run + b)
         == Messages(c, a) + WithBlocks(User, Collect(c, run, [])) + Messages(c, b)
  {
    assert (a + run)[|a + run| - 1] == run[|run| - 1];
    MessagesSplit(c, a + run, b);
    MessagesSplit(c, a, run);
    WholeRun(run);
    OneGroup(c, run);
  }

  /** A log that is one group gives one message at most. */
  lemma {:induction false} OneGroup(c: Codec, recs: seq<Record>)
    requires recs != [] && GroupSize(recs) == |recs|
    ensures Messages(c, recs) == GroupMessage(c, recs)
    ensures IsResult(recs[0]) && ResultRun(recs) == |recs| ==>
              GroupMessage(c, recs) == WithBlocks(User, Collect(c, recs, []))
  {
    assert recs[..|recs|] == recs && recs[|recs|..] == [];
    assert Messages(c, []) == [];
  }

  lemma {:induction false} WholeRun(run: seq<Record>)
    requires forall i :: 0 <= i < |run| ==> IsResult(run[i])
    ensures ResultRun(run) == |run|
  {
    if run != [] {
      WholeRun(run[1..]);
    }
  }

  // ---------------------------------------------------------------- memory tools never appear

  predicate NoMemory(blocks: seq<Block>) {
    forall i :: 0 <= i < |blocks| && !blocks[i].TextBlock? ==> blocks[i].name != MEMORY_TOOL_NAME
  }

  lemma {:induction false} UsesHideMemory(c: Codec, calls: seq<Record>)
    requires forall i :: 0 <= i < |calls| ==> IsCall(calls[i])
    ensures NoMemory(Uses(c, calls))
  {
    if calls != [] {
      UsesHideMemory(c, calls[1..]);
    }
  }

  lemma {:induction false} CollectHidesMemory(c: Codec, run: seq<Record>)
    requires forall i :: 0 <= i < |run| ==> IsResult(run[i])
    ensures NoMemory(Collect(c, run, []))
  {
    CollectKeepsLast(c, run, []);
    var blocks := Collect(c, run, []);
    forall i | 0 <= i < |blocks| ensures blocks[i].name != MEMORY_TOOL_NAME {
      assert blocks[i] in blocks;
      assert IsLast(c, run, blocks[i]);
    }
  }

  lemma {:induction false} GroupHidesMemory(c: Codec, recs: seq<Record>)
    requires recs != []
    ensures forall i :: 0 <= i < |GroupMessage(c, recs)| ==> NoMemory(GroupMessage(c, recs)[i].blocks)
  {
    match recs[0].body
    case AssistantMessage(_, _) => UsesHideMemory(c, recs[1..][..CallRun(recs[1..])]);
    case AssistantToolCall(_, _, _) => UsesHideMemory(c, recs[..CallRun(recs)]);
    case ToolResult(_, _, _, _) => CollectHidesMemory(c, recs[..ResultRun(recs)]);
    case _ =>
  }

  /** No message ever shows a memory tool, neither its calls nor its results. */
  lemma {:induction false} MemoryNeverAppears(c: Codec, recs: seq<Record>)
    ensures forall i :: 0 <= i < |Messages(c, recs)| ==> NoMemory(Messages(c, recs)[i].blocks)
    decreases |recs|
  {
    if recs != [] {
      var rest := recs[GroupSize(recs)..];
      GroupHidesMemory(c, recs);
      MemoryNeverAppears(c, rest);
      assert Messages(c, recs) == GroupMessage(c, recs) + Messages(c, rest);
    }
  }
}
