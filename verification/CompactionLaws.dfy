/** What compaction keeps, when it can come again, and how many summaries a log can hold. */
module CompactionLaws {
  import opened Options
  import opened LogOrder
  import opened SessionLog
  import opened Sequences
  import opened Compaction

  // ---------------------------------------------------------------- the token figure

  lemma {:induction false} LatestAppend(records: seq<Record>, r: Record, sequence: int, tokens: int)
    ensures var before := Latest(records, sequence, tokens);
            var after := Latest(records + [r], sequence, tokens);
            after == if r.body.AssistantMessage? && r.body.inputTokens.Some? && r.sequence > before.0
                     then (r.sequence, r.body.inputTokens.value) else before
    decreases |records|
  {
    if records == [] {
      assert (records + [r])[1..] == [];
    } else {
      assert (records + [r])[1..] == records[1..] + [r];
      var x := records[0];
      if x.body.AssistantMessage? && x.body.inputTokens.Some? && x.sequence > sequence {
        LatestAppend(records[1..], r, x.sequence, x.body.inputTokens.value);
      } else {
        LatestAppend(records[1..], r, sequence, tokens);
      }
    }
  }

  /** The token figure is that of the usage record with the highest sequence, or 0 without one. */
  lemma {:induction false} TokensAreLatest(records: seq<Record>) returns (i: int)
    ensures -1 <= i < |records|
    ensures forall j :: 0 <= j < |records| && HasUsage(records[j]) ==>
              i >= 0 && records[j].sequence <= records[i].sequence
    ensures if i < 0 then Latest(records, -1, 0) == (-1, 0)
            else HasUsage(records[i])
                 && Latest(records, -1, 0) == (records[i].sequence, records[i].body.inputTokens.value)
  {
    if records == [] {
      return -1;
    }
    var n := |records| - 1;
    assert records == records[..n] + [records[n]];
    i := TokensAreLatest(records[..n]);
    LatestAppend(records[..n], records[n], -1, 0);
    var last := records[n];
    if last.body.AssistantMessage? && last.body.inputTokens.Some? && last.sequence > Latest(records[..n], -1, 0).0 {
      i := n;
    }
    forall j | 0 <= j < |records| && HasUsage(records[j]) ensures i >= 0 && records[j].sequence <= records[i].sequence {
      if j < n {
        assert records[j] == records[..n][j];
      }
    }
  }

  // ---------------------------------------------------------------- the kept window

  lemma {:induction false} FilterInOrder(records: seq<Record>, p: Record -> bool)
    requires InOrder(records)
    ensures InOrder(Filter(records, p))
  {
    if records != [] {
      FilterInOrder(records[1..], p);
      FilterMembers(records[1..], p);
      var rest := Filter(records[1..], p);
      forall j | 0 <= j < |rest| ensures records[0].sequence < rest[j].sequence {
        assert rest[j] in records[1..];
      }
    }
  }

  predicate Distinct(turns: seq<string>) {
    forall i, j :: 0 <= i < j < |turns| ==> turns[i] != turns[j]
  }

  lemma {:induction false} OrderedTurnsAre(records: seq<Record>)
    ensures Distinct(OrderedTurns(records))
    ensures forall t :: t in OrderedTurns(records) <==> t in TurnIds(records)
  {
    if records != [] {
      var n := |records| - 1;
      OrderedTurnsAre(records[..n]);
      assert records == records[..n] + [records[n]];
    }
  }

  lemma {:induction false} DistinctSize(turns: seq<string>)
    requires Distinct(turns)
    ensures |set t | t in turns| == |turns|
  {
    if turns != [] {
      DistinctSize(turns[1..]);
      assert (set t | t in turns) == {turns[0]} + (set t | t in turns[1..]);
    }
  }

  /** The kept turns are turns of the records, as many as asked for if there are that many. */
  lemma RecentTurnsSize(records: seq<Record>, keep: nat)
    ensures RecentTurns(records, keep) <= TurnIds(records)
    ensures |RecentTurns(records, keep)| == if |TurnIds(records)| <= keep then |TurnIds(records)| else keep
  {
    var sorted := SortBySequence(records);
    var ordered := OrderedTurns(sorted);
    SortMembers(records, IsChat);
    OrderedTurnsAre(sorted);
    DistinctSize(ordered);
    assert TurnIds(sorted) == TurnIds(records);
    assert TurnIds(records) == set t | t in ordered;
    var recent := LastOf(ordered, keep);
    assert forall i :: 0 <= i < |recent| ==> recent[i] == ordered[|ordered| - |recent| + i];
    DistinctSize(recent);
  }

  /** `t` appears before `u` does. */
  ghost predicate AppearsBefore(records: seq<Record>, t: string, u: string) {
    forall q :: 0 <= q < |records| && records[q].turn == u ==>
      exists p :: 0 <= p < q && records[p].turn == t
  }

  lemma {:induction false} OrderIsAppearance(records: seq<Record>, i: int, j: int)
    requires 0 <= i < j < |OrderedTurns(records)|
    ensures AppearsBefore(records, OrderedTurns(records)[i], OrderedTurns(records)[j])
  {
    var n := |records| - 1;
    var (front, ordered) := (records[..n], OrderedTurns(records));
    OrderedTurnsAre(front);
    assert records == front + [records[n]];
    if j < |OrderedTurns(front)| {
      OrderIsAppearance(front, i, j);
    }
    var (t, u) := (ordered[i], ordered[j]);
    assert t in TurnIds(front);
    var r :| r in front && r.turn == t;
    var p0 :| 0 <= p0 < n && front[p0] == r;
    forall q | 0 <= q < n && j >= |OrderedTurns(front)| ensures records[q].turn != u {
      assert front[q] in front;
    }
    forall q | 0 <= q < |records| && records[q].turn == u ensures exists p :: 0 <= p < q && records[p].turn == t {
      if q < n {
        assert front[q].turn == u;
        var p :| 0 <= p < q && front[p].turn == t;
        assert records[p].turn == t;
      } else {
        assert records[p0].turn == t;
      }
    }
  }

  /** The kept turns are the last ones: every older turn appeared before every kept one. */
  lemma KeptTurnsAreLast(records: seq<Record>, keep: nat, t: string, u: string)
    requires InOrder(records)
    requires t in TurnIds(records) && t !in RecentTurns(records, keep) && u in RecentTurns(records, keep)
    ensures AppearsBefore(records, t, u)
  {
    SortedStays(records);
    OrderedTurnsAre(records);
    var ordered := OrderedTurns(records);
    var recent := LastOf(ordered, keep);
    var i :| 0 <= i < |ordered| && ordered[i] == t;
    var k :| 0 <= k < |recent| && recent[k] == u;
    var cut := |ordered| - |recent|;
    forall x | cut <= x < |ordered| ensures ordered[x] in recent {
      assert recent[x - cut] == ordered[x];
    }
    OrderIsAppearance(records, i, cut + k);
  }

  // ---------------------------------------------------------------- an automatic compaction

  /** System messages and summaries carry no turn ids of their own. */
  ghost predicate Silent(records: seq<Record>) {
    forall r :: r in records && !IsChat(r) ==> !Counts(r.turn)
  }

  lemma {:induction false} ChatTurns(records: seq<Record>)
    ensures Silent(records) ==> TurnIds(Filter(records, IsChat)) == TurnIds(records)
    ensures TurnIds(Filter(records, IsChat)) <= TurnIds(records)
  {
    FilterMembers(records, IsChat);
  }

  lemma SetMinus<T>(a: set<T>, b: set<T>)
    requires a <= b
    ensures |b| == |a| + |b - a|
  {
    assert a + (b - a) == b;
  }

  lemma {:induction false} TurnsInside(chat: seq<Record>, turns: set<string>)
    requires turns <= TurnIds(chat)
    ensures TurnIds(Filter(chat, InTurns(turns))) == turns
    ensures TurnIds(Filter(chat, NotInTurns(turns))) == TurnIds(chat) - turns
  {
    FilterMembers(chat, InTurns(turns));
    FilterMembers(chat, NotInTurns(turns));
    var (kept, older) := (Filter(chat, InTurns(turns)), Filter(chat, NotInTurns(turns)));
    forall t | t in TurnIds(chat) ensures t in turns ==> t in TurnIds(kept) {
      var r :| r in chat && r.turn == t;
      assert t in turns ==> r in kept;
    }
    forall t | t in TurnIds(chat) - turns ensures t in TurnIds(older) {
      var r :| r in chat && r.turn == t;
      assert r in older;
    }
  }

  lemma {:induction false} SplitTurns(cfg: Config, records: seq<Record>)
    ensures var (chat, older, kept) := (Filter(records, IsChat), Summarised(cfg, records), Kept(cfg, records));
            && TurnIds(kept) == RecentTurns(chat, cfg.keepTurns)
            && TurnIds(older) == TurnIds(chat) - TurnIds(kept)
            && |TurnIds(older)| + |TurnIds(kept)| == |TurnIds(chat)|
            && |TurnIds(kept)| == if |TurnIds(chat)| <= cfg.keepTurns then |TurnIds(chat)| else cfg.keepTurns
  {
    var chat := Filter(records, IsChat);
    RecentTurnsSize(chat, cfg.keepTurns);
    TurnsInside(chat, RecentTurns(chat, cfg.keepTurns));
    SetMinus(RecentTurns(chat, cfg.keepTurns), TurnIds(chat));
  }

  /** Turn ids that only system messages and summaries carry. */
  function SystemOnly(records: seq<Record>): set<string> {
    TurnIds(records) - TurnIds(Filter(records, IsChat))
  }

  /**
   * The number of turns a compaction summarises: all but those that are kept and those that only
   * system messages carry.
   */
  lemma {:induction false} SummarisedTurns(cfg: Config, records: seq<Record>)
    ensures var chat := |TurnIds(records)| - |SystemOnly(records)|;
            |TurnIds(Summarised(cfg, records))| == if chat <= cfg.keepTurns then 0 else chat - cfg.keepTurns
  {
    ChatTurns(records);
    SplitTurns(cfg, records);
    SetMinus(TurnIds(Filter(records, IsChat)), TurnIds(records));
  }

  /** At least `minTurns` whole turns are summarised, and exactly `keepTurns` whole ones are kept. */
  ghost predicate LeavesEnough(cfg: Config, records: seq<Record>) {
    && |TurnIds(Summarised(cfg, records))| >= cfg.minTurns
    && |TurnIds(Kept(cfg, records))| == cfg.keepTurns
    && TurnIds(Summarised(cfg, records)) !! TurnIds(Kept(cfg, records))
  }

  /** A compaction leaves enough exactly when there are enough turns without the system messages' own. */
  lemma {:induction false} EnoughIff(cfg: Config, records: seq<Record>)
    ensures LeavesEnough(cfg, records) <==>
              |TurnIds(records)| - |SystemOnly(records)| >= cfg.minTurns + cfg.keepTurns
  {
    ChatTurns(records);
    SplitTurns(cfg, records);
    SetMinus(TurnIds(Filter(records, IsChat)), TurnIds(records));
  }

  /** An automatic compaction leaves enough if system messages have no turn ids of their own. */
  lemma {:induction false} TriggerLeavesEnough(cfg: Config, records: seq<Record>)
    requires Triggers(cfg, records) && SystemOnly(records) == {}
    ensures LeavesEnough(cfg, records)
  {
    EnoughIff(cfg, records);
  }

  const CHATTY_SYSTEM := [Record(0, "t1", SystemMessage("a")), Record(1, "t2", SystemMessage("b"))]
  const ONE_REPLY := Record(2, "t3", AssistantMessage("hello", Some(100000)))

  const CHATTY_CONFIG := Config(true, 100000, 2, 3, 1)

  lemma ThreeTurnIds(records: seq<Record>, a: Record, b: Record, c: Record)
    requires a in records && b in records && c in records
    requires a.turn == "t1" && b.turn == "t2" && c.turn == "t3"
    requires forall r :: r in records ==> r.turn in {"t1", "t2", "t3"}
    ensures |TurnIds(records)| == 3
  {
    assert "t1"[1] != "t2"[1] && "t3"[1] != "t2"[1] && "t3"[1] != "t1"[1];
    assert Counts("t1") && Counts("t2") && Counts("t3");
    assert TurnIds(records) == {"t1", "t2", "t3"};
    assert {"t1", "t2", "t3"} == {"t1", "t2"} + {"t3"} && |{"t1", "t2"}| == 2;
  }

  lemma ChattyTriggers()
    ensures Triggers(CHATTY_CONFIG, CHATTY_SYSTEM + [ONE_REPLY])
  {
    var records := CHATTY_SYSTEM + [ONE_REPLY];
    ThreeTurnIds(records, records[0], records[1], records[2]);
    LatestAppend(CHATTY_SYSTEM, ONE_REPLY, -1, 0);
  }

  lemma {:induction false} OneTurnIsKept(r: Record)
    requires Counts(r.turn)
    ensures RecentTurns([r], 1) == {r.turn}
  {
    assert TurnIds([r]) == {r.turn} by {
      assert r in [r];
    }
    RecentTurnsSize([r], 1);
    SetMinus(RecentTurns([r], 1), {r.turn});
  }

  lemma ChattyChat()
    ensures Filter(CHATTY_SYSTEM + [ONE_REPLY], IsChat) == [ONE_REPLY]
  {
    FilterSplit(CHATTY_SYSTEM, [ONE_REPLY], IsChat);
    FilterAll(CHATTY_SYSTEM, IsChat, false);
    FilterAll([ONE_REPLY], IsChat, true);
  }

  /** With turn ids of their own on system messages the trigger can fire with nothing to summarise. */
  lemma SystemTurnsTriggerInVain(s: Summary)
    ensures Triggers(CHATTY_CONFIG, CHATTY_SYSTEM + [ONE_REPLY])
    ensures Summarised(CHATTY_CONFIG, CHATTY_SYSTEM + [ONE_REPLY]) == []
    ensures Compacted(CHATTY_CONFIG, CHATTY_SYSTEM + [ONE_REPLY], s, true) == None
  {
    ChattyTriggers();
    ChattyChat();
    assert Counts("t3");
    OneTurnIsKept(ONE_REPLY);
    FilterAll([ONE_REPLY], NotInTurns({"t3"}), false);
  }

  // ---------------------------------------------------------------- the order of the new log

  /** System messages, then summaries, numbered from 0; then chat, in order. */
  ghost predicate Tidy(records: seq<Record>, head: nat) {
    && head <= |records| && InOrder(records)
    && (forall i :: 0 <= i < head ==> !IsChat(records[i]) && records[i].sequence == i)
    && (forall i :: head <= i < |records| ==> IsChat(records[i]) && records[i].sequence >= head)
    && (forall i, j :: 0 <= i < j < head && IsSystem(records[j]) ==> IsSystem(records[i]))
  }

  lemma {:induction false} FilterFirst(r: Record, rest: seq<Record>, p: Record -> bool)
    ensures Filter([r] + rest, p) == (if p(r) then [r] else []) + Filter(rest, p)
  {
    assert ([r] + rest)[1..] == rest;
  }

  lemma {:induction false} SystemsFirst(records: seq<Record>)
    requires forall r :: r in records ==> !IsChat(r)
    requires forall i, j :: 0 <= i < j < |records| && IsSystem(records[j]) ==> IsSystem(records[i])
    ensures Filter(records, IsSystem) + Filter(records, IsSummary) == records
  {
    if records != [] {
      var (first, rest) := (records[0], records[1..]);
      assert records == [first] + rest && first in records;
      if IsSystem(first) {
        SystemsFirst(rest);
        FilterFirst(first, rest, IsSystem);
        FilterFirst(first, rest, IsSummary);
        assert [] + Filter(rest, IsSummary) == Filter(rest, IsSummary);
        Assoc([first], Filter(rest, IsSystem), Filter(rest, IsSummary));
      } else {
        NoSystems(records);
      }
    }
  }

  lemma {:induction false} NoSystems(records: seq<Record>)
    requires forall r :: r in records ==> !IsChat(r)
    requires records != [] && !IsSystem(records[0])
    requires forall i, j :: 0 <= i < j < |records| && IsSystem(records[j]) ==> IsSystem(records[i])
    ensures Filter(records, IsSystem) + Filter(records, IsSummary) == records
  {
    forall r | r in records ensures !IsSystem(r) && IsSummary(r) {
      var j :| 0 <= j < |records| && records[j] == r;
    }
    FilterAll(records, IsSystem, false);
    FilterAll(records, IsSummary, true);
    assert [] + records == records;
  }

  lemma {:induction false} FilterFront(front: seq<Record>, chat: seq<Record>, p: Record -> bool)
    requires forall r :: r in chat ==> !p(r)
    ensures Filter(front + chat, p) == Filter(front, p)
  {
    FilterSplit(front, chat, p);
    FilterAll(chat, p, false);
  }

  lemma {:induction false} HeadAndChat(records: seq<Record>, head: nat)
    requires Tidy(records, head)
    ensures Head(records) == records[..head]
    ensures Filter(records, IsChat) == records[head..]
  {
    var (front, chat) := (records[..head], records[head..]);
    assert records == front + chat;
    assert forall r :: r in chat ==> IsChat(r);
    FilterFront(front, chat, IsSystem);
    FilterFront(front, chat, IsSummary);
    SystemsFirst(front);
    assert Filter(records, IsChat) == chat by {
      FilterSplit(front, chat, IsChat);
      FilterAll(front, IsChat, false);
      FilterAll(chat, IsChat, true);
    }
  }

  lemma {:induction false} KeptIsChat(cfg: Config, records: seq<Record>)
    requires InOrder(records)
    ensures InOrder(Kept(cfg, records))
    ensures forall i :: 0 <= i < |Kept(cfg, records)| ==>
              IsChat(Kept(cfg, records)[i]) && Kept(cfg, records)[i] in Filter(records, IsChat)
  {
    var chat := Filter(records, IsChat);
    FilterInOrder(records, IsChat);
    FilterMembers(records, IsChat);
    FilterInOrder(chat, InTurns(RecentTurns(chat, cfg.keepTurns)));
    FilterMembers(chat, InTurns(RecentTurns(chat, cfg.keepTurns)));
  }

  lemma TidyParts(front: seq<Record>, summary: Record, kept: seq<Record>)
    requires Tidy(front, |front|)
    requires IsSummary(summary) && summary.sequence == |front|
    requires InOrder(kept) && forall i :: 0 <= i < |kept| ==> IsChat(kept[i])
    ensures Tidy(front + [summary] + kept, |front| + 1) <==> kept == [] || kept[0].sequence > |front|
  {
    if kept == [] || kept[0].sequence > |front| {
      PartsAreTidy(front, summary, kept);
    } else {
      assert (front + [summary] + kept)[|front| + 1] == kept[0];
    }
  }

  lemma PartsAreTidy(front: seq<Record>, summary: Record, kept: seq<Record>)
    requires Tidy(front, |front|)
    requires IsSummary(summary) && summary.sequence == |front|
    requires InOrder(kept) && forall i :: 0 <= i < |kept| ==> IsChat(kept[i])
    requires kept == [] || kept[0].sequence > |front|
    ensures Tidy(front + [summary] + kept, |front| + 1)
  {
    var (after, h) := (front + [summary] + kept, |front|);
    forall i | 0 <= i < |after|
      ensures after[i] == if i < h then front[i] else if i == h then summary else kept[i - h - 1] {}
    forall i | 0 <= i < |kept| ensures kept[i].sequence > h {}
  }

  lemma FrontIsTidy(records: seq<Record>, head: nat)
    requires Tidy(records, head)
    ensures Tidy(records[..head], |records[..head]|)
  {}

  lemma SameHead(cfg: Config, records: seq<Record>, head: nat, s: Summary, enforceLimit: bool)
    requires Tidy(records, head) && Compacted(cfg, records, s, enforceLimit).Some?
    ensures Compacted(cfg, records, s, enforceLimit).value
         == records[..head] + [Record(head, s.turn, CompactionSummary(s.text.value))] + Kept(cfg, records)
  {
    HeadAndChat(records, head);
    assert |Head(records)| == head;
  }

  /**
   * The new log is the old head, the new summary and the kept records as they were. It is in order
   * again exactly when the first kept record comes after the number the summary takes.
   */
  lemma CompactedLog(cfg: Config, records: seq<Record>, head: nat, s: Summary, enforceLimit: bool)
    requires Tidy(records, head) && Compacted(cfg, records, s, enforceLimit).Some?
    ensures Compacted(cfg, records, s, enforceLimit).value
         == records[..head] + [Record(head, s.turn, CompactionSummary(s.text.value))] + Kept(cfg, records)
    ensures var (after, kept) := (Compacted(cfg, records, s, enforceLimit).value, Kept(cfg, records));
            Tidy(after, head + 1) <==> kept == [] || kept[0].sequence > head
  {
    SameHead(cfg, records, head, s, enforceLimit);
    FrontIsTidy(records, head);
    KeptIsChat(cfg, records);
    TidyParts(records[..head], Record(head, s.turn, CompactionSummary(s.text.value)), Kept(cfg, records));
  }

  /** A compaction that has more turns of chat than it keeps leaves the log in order. */
  lemma {:induction false} CompactionStaysTidy(cfg: Config, records: seq<Record>, head: nat, s: Summary, enforceLimit: bool)
    requires Tidy(records, head) && Compacted(cfg, records, s, enforceLimit).Some?
    requires |TurnIds(Filter(records, IsChat))| > cfg.keepTurns
    ensures Tidy(Compacted(cfg, records, s, enforceLimit).value, head + 1)
  {
    CompactedLog(cfg, records, head, s, enforceLimit);
    KeptStartsLater(cfg, records, head);
  }

  lemma {:induction false} KeptStartsLater(cfg: Config, records: seq<Record>, head: nat)
    requires Tidy(records, head) && |TurnIds(Filter(records, IsChat))| > cfg.keepTurns
    ensures Kept(cfg, records) != [] ==> Kept(cfg, records)[0].sequence > head
  {
    HeadAndChat(records, head);
    var chat := records[head..];
    FirstIsNotKept(chat, cfg.keepTurns);
    var recent := RecentTurns(chat, cfg.keepTurns);
    LaterThanFirst(chat, recent);
    assert chat != [] ==> chat[0] == records[head];
  }

  lemma {:induction false} LaterThanFirst(chat: seq<Record>, recent: set<string>)
    requires InOrder(chat) && chat != [] && chat[0].turn !in recent
    ensures var kept := Filter(chat, InTurns(recent));
            kept != [] ==> kept[0].sequence > chat[0].sequence
  {
    FilterMembers(chat, InTurns(recent));
    var kept := Filter(chat, InTurns(recent));
    if kept != [] {
      assert kept[0] in chat && kept[0] != chat[0];
    }
  }

  lemma FirstIsNotKept(chat: seq<Record>, keep: nat)
    requires InOrder(chat) && |TurnIds(chat)| > keep
    ensures chat != [] && chat[0].turn !in RecentTurns(chat, keep)
  {
    SortedStays(chat);
    RecentTurnsSize(chat, keep);
    var recent := RecentTurns(chat, keep);
    SetMinus(recent, TurnIds(chat));
    var t :| t in TurnIds(chat) - recent;
    if chat[0].turn in recent {
      KeptTurnsAreLast(chat, keep, t, chat[0].turn);
    }
  }

  /** So does every automatic one if system messages have no turn ids of their own. */
  lemma {:induction false} AutoStaysTidy(cfg: Config, records: seq<Record>, head: nat, s: Summary)
    requires Tidy(records, head) && Triggers(cfg, records) && cfg.minTurns >= 1
    requires SystemOnly(records) == {}
    requires Compacted(cfg, records, s, true).Some?
    ensures Tidy(Compacted(cfg, records, s, true).value, head + 1)
  {
    EnoughIff(cfg, records);
    SplitTurns(cfg, records);
    CompactionStaysTidy(cfg, records, head, s, true);
  }

  /** A reply with `n` tokens, and the terminal that recovery adds to a compaction's turn. */
  function ReplyAndEnd(n: int): seq<Record> {
    [Record(2, "t3", AssistantMessage("hello", Some(n))), Record(3, "compaction-1", TurnTerminal)]
  }

  lemma {:induction false} ReplyAndEndTriggers(n: int)
    requires n >= 100000
    ensures Triggers(CHATTY_CONFIG, CHATTY_SYSTEM + ReplyAndEnd(n))
  {
    var (reply, end) := (ReplyAndEnd(n)[0], ReplyAndEnd(n)[1]);
    var front := CHATTY_SYSTEM + [reply];
    var records := CHATTY_SYSTEM + ReplyAndEnd(n);
    assert records == front + [end];
    LatestAppend(CHATTY_SYSTEM, reply, -1, 0);
    LatestAppend(front, end, -1, 0);
    assert "compaction-1"[..|SYNTHETIC_PREFIX|] == SYNTHETIC_PREFIX && !Counts(end.turn);
    ThreeTurnIds(front, front[0], front[1], front[2]);
    SameTurns(front, end);
  }

  lemma SameTurns(front: seq<Record>, r: Record)
    requires !Counts(r.turn)
    ensures TurnIds(front + [r]) == TurnIds(front)
  {
    assert forall x :: x in front + [r] <==> x in front || x == r;
  }

  lemma {:induction false} ReplyIsKept(n: int)
    ensures RecentTurns(ReplyAndEnd(n), 1) == {"t3"}
  {
    var recs := ReplyAndEnd(n);
    assert "compaction-1"[..|SYNTHETIC_PREFIX|] == SYNTHETIC_PREFIX && !Counts(recs[1].turn) && Counts("t3");
    SortedStays(recs);
    assert recs[..1] == [recs[0]] && [recs[0]][..0] == [];
    assert OrderedTurns([recs[0]]) == [] + ["t3"];
    assert OrderedTurns(recs) == ["t3"];
  }

  lemma {:induction false} ReplyIsDivided(cfg: Config, records: seq<Record>, n: int)
    requires cfg.keepTurns == 1 && Filter(records, IsChat) == ReplyAndEnd(n)
    ensures Summarised(cfg, records) != []
    ensures Kept(cfg, records) != [] && Kept(cfg, records)[0].sequence == 2
  {
    var (reply, end) := (ReplyAndEnd(n)[0], ReplyAndEnd(n)[1]);
    ReplyIsKept(n);
    assert ReplyAndEnd(n) == [reply] + [end];
    FilterFirst(reply, [end], InTurns({"t3"}));
    FilterFirst(reply, [end], NotInTurns({"t3"}));
    FilterAll([end], InTurns({"t3"}), false);
    FilterAll([end], NotInTurns({"t3"}), true);
  }

  /** A first compaction that keeps the record right after the system messages. */
  lemma {:induction false} SameNumber(cfg: Config, records: seq<Record>, head: nat, s: Summary)
    requires Tidy(records, head) && Filter(records, IsSummary) == [] && cfg.maxCompactions > 0
    requires s.text.Some? && Summarised(cfg, records) != []
    requires Kept(cfg, records) != [] && Kept(cfg, records)[0].sequence == head
    ensures Compacted(cfg, records, s, true).Some? && !InOrder(Compacted(cfg, records, s, true).value)
  {
    SameHead(cfg, records, head, s, true);
    var after := Compacted(cfg, records, s, true).value;
    assert after[head].sequence == after[head + 1].sequence;
  }

  lemma ChattyIsTidy(n: int)
    ensures Tidy(CHATTY_SYSTEM + ReplyAndEnd(n), 2)
  {}

  lemma {:induction false} OnlySystems(n: int)
    ensures Filter(CHATTY_SYSTEM + ReplyAndEnd(n), IsChat) == ReplyAndEnd(n)
    ensures Filter(CHATTY_SYSTEM + ReplyAndEnd(n), IsSummary) == []
  {
    FilterSplit(CHATTY_SYSTEM, ReplyAndEnd(n), IsChat);
    FilterAll(CHATTY_SYSTEM, IsChat, false);
    FilterAll(ReplyAndEnd(n), IsChat, true);
    FilterAll(CHATTY_SYSTEM + ReplyAndEnd(n), IsSummary, false);
  }

  /**
   * An automatic compaction of a log in order whose result is not: system messages carry the turns
   * that make it trigger, and the summary takes the number of the reply that is kept.
   */
  lemma {:induction false} AutoCanUnorder(cfg: Config, records: seq<Record>, s: Summary, n: int)
    requires cfg == CHATTY_CONFIG && records == CHATTY_SYSTEM + ReplyAndEnd(n)
    requires s.text.Some? && n >= 100000
    ensures Triggers(cfg, records) && Tidy(records, 2)
    ensures Compacted(cfg, records, s, true).Some? && !InOrder(Compacted(cfg, records, s, true).value)
  {
    ReplyAndEndTriggers(n);
    ChattyIsTidy(n);
    OnlySystems(n);
    ReplyIsDivided(cfg, records, n);
    SameNumber(cfg, records, 2, s);
  }
}
