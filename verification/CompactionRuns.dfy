/** Whole runs of a session log: turns are appended, compactions come automatically or on demand. */
module CompactionRuns {
  import opened Options
  import opened LogOrder
  import opened SessionLog
  import opened Sequences
  import opened Compaction
  import opened CompactionLaws

  datatype Event = Append(record: Record) | Auto(summary: Summary) | Manual(summary: Summary)

  /** Only chat is appended, and a summary gets a turn id of its own kind. */
  predicate Legal(e: Event) {
    match e
    case Append(r) => IsChat(r)
    case Auto(s) => IsSynthetic(s.turn)
    case Manual(s) => IsSynthetic(s.turn)
  }

  function Numbered(log: seq<Record>, r: Record): Record {
    r.(sequence := if log == [] then 0 else log[|log| - 1].sequence + 1)
  }

  function OrSame(after: Option<seq<Record>>, log: seq<Record>): seq<Record> {
    match after case Some(l) => l case None => log
  }

  /** The log as read; an automatic compaction happens only when it triggers. */
  function Step(cfg: Config, log: seq<Record>, e: Event): seq<Record> {
    match e
    case Append(r) => log + [Numbered(log, r)]
    case Auto(s) => if Triggers(cfg, log) then SortBySequence(OrSame(Compacted(cfg, log, s, true), log)) else log
    case Manual(s) => SortBySequence(OrSame(Compacted(cfg, log, s, false), log))
  }

  function Run(cfg: Config, log: seq<Record>, events: seq<Event>): seq<Record> {
    if events == [] then log
    else Step(cfg, Run(cfg, log, events[..|events| - 1]), events[|events| - 1])
  }

  function Appended(events: seq<Event>): set<string> {
    set e | e in events && e.Append? && Counts(e.record.turn) :: e.record.turn
  }

  function Manuals(events: seq<Event>): nat {
    if events == [] then 0
    else Manuals(events[..|events| - 1]) + if events[|events| - 1].Manual? then 1 else 0
  }

  // ---------------------------------------------------------------- the turns of a log

  lemma HeadMembers(log: seq<Record>)
    ensures forall r :: r in Head(log) <==> r in log && !IsChat(r)
  {
    FilterMembers(log, IsSystem);
    FilterMembers(log, IsSummary);
  }

  lemma KeptMembers(cfg: Config, log: seq<Record>)
    ensures forall r :: r in Kept(cfg, log) ==> r in log && IsChat(r)
  {
    var chat := Filter(log, IsChat);
    FilterMembers(log, IsChat);
    FilterMembers(chat, InTurns(RecentTurns(chat, cfg.keepTurns)));
  }

  /** The records of a compacted log. */
  lemma CompactedMembers(cfg: Config, log: seq<Record>, s: Summary, enforceLimit: bool)
    requires Compacted(cfg, log, s, enforceLimit).Some?
    ensures forall r :: r in Compacted(cfg, log, s, enforceLimit).value <==>
                r == NewSummary(log, s) || (r in log && !IsChat(r)) || r in Kept(cfg, log)
  {
    HeadMembers(log);
    var (head, summary, kept) := (Head(log), NewSummary(log, s), Kept(cfg, log));
    assert forall r :: r in head + [summary] + kept <==> r in head || r == summary || r in kept;
  }

  lemma KeptTurnsBound(cfg: Config, log: seq<Record>)
    ensures TurnIds(Kept(cfg, log)) <= TurnIds(log)
    ensures |TurnIds(Kept(cfg, log))| <= cfg.keepTurns
  {
    KeptMembers(cfg, log);
    SplitTurns(cfg, log);
  }

  /** A compaction leaves no turns but kept ones and those of system messages. */
  lemma CompactedTurns(cfg: Config, log: seq<Record>, s: Summary, enforceLimit: bool)
    requires IsSynthetic(s.turn) && Compacted(cfg, log, s, enforceLimit).Some?
    ensures var after := Compacted(cfg, log, s, enforceLimit).value;
            && TurnIds(after) <= TurnIds(log)
            && |TurnIds(after)| <= cfg.keepTurns + |SystemOnly(after)|
            && (Silent(log) ==> SystemOnly(after) == {})
  {
    var (after, kept) := (Compacted(cfg, log, s, enforceLimit).value, Kept(cfg, log));
    CompactedMembers(cfg, log, s, enforceLimit);
    KeptMembers(cfg, log);
    KeptTurnsBound(cfg, log);
    assert !Counts(NewSummary(log, s).turn);
    FilterMembers(after, IsChat);
    assert TurnIds(Filter(after, IsChat)) == TurnIds(kept);
    ChatTurns(after);
    SetMinus(TurnIds(kept), TurnIds(after));
  }

  lemma {:induction false} SortKeepsTurns(log: seq<Record>)
    ensures TurnIds(SortBySequence(log)) == TurnIds(log)
    ensures |Filter(SortBySequence(log), IsSummary)| == |Filter(log, IsSummary)|
  {
    SortMembers(log, IsSummary);
  }

  lemma StepTurns(cfg: Config, log: seq<Record>, e: Event)
    requires Legal(e)
    ensures TurnIds(Step(cfg, log, e)) <= TurnIds(log) + Appended([e])
  {
    match e
    case Append(r) =>
      assert e in [e];
      assert forall x :: x in log + [Numbered(log, r)] <==> x in log || x == Numbered(log, r);
    case Auto(s) =>
      if Triggers(cfg, log) && Compacted(cfg, log, s, true).Some? {
        CompactedTurns(cfg, log, s, true);
      }
      SortKeepsTurns(OrSame(Compacted(cfg, log, s, true), log));
    case Manual(s) =>
      if Compacted(cfg, log, s, false).Some? {
        CompactedTurns(cfg, log, s, false);
      }
      SortKeepsTurns(OrSame(Compacted(cfg, log, s, false), log));
  }

  lemma {:induction false} RunTurns(cfg: Config, log: seq<Record>, events: seq<Event>)
    requires forall e :: e in events ==> Legal(e)
    ensures TurnIds(Run(cfg, log, events)) <= TurnIds(log) + Appended(events)
  {
    if events != [] {
      var (front, e) := (events[..|events| - 1], events[|events| - 1]);
      assert events == front + [e];
      RunTurns(cfg, log, front);
      StepTurns(cfg, Run(cfg, log, front), e);
    }
  }

  /**
   * Between two automatic compactions at least `minTurns` turns are new, whatever happens between
   * them, not counting turns that only system messages carry; if system messages have no turn ids of
   * their own, there are none of these.
   */
  lemma {:induction false} AutosAreApart(cfg: Config, log: seq<Record>, s: Summary, events: seq<Event>)
    requires IsSynthetic(s.turn) && Compacted(cfg, log, s, true).Some?
    requires forall e :: e in events ==> Legal(e)
    ensures var after := Compacted(cfg, log, s, true).value;
            && (Triggers(cfg, Run(cfg, after, events)) ==>
                  |Appended(events) - TurnIds(after)| + |SystemOnly(after)| >= cfg.minTurns)
            && (Silent(log) ==> SystemOnly(after) == {})
  {
    CompactedTurns(cfg, log, s, true);
    var after := Compacted(cfg, log, s, true).value;
    RunTurns(cfg, after, events);
    var (kept, added, all) := (TurnIds(after), Appended(events) - TurnIds(after), TurnIds(Run(cfg, after, events)));
    assert all <= kept + added;
    SubsetSize(all, kept, added);
  }

  lemma SubsetSize<T>(all: set<T>, a: set<T>, b: set<T>)
    requires all <= a + b && a !! b
    ensures |all| <= |a| + |b|
  {
    SetMinus(all, a + b);
  }

  // ---------------------------------------------------------------- the number of summaries

  lemma {:induction false} CompactedSummaries(cfg: Config, log: seq<Record>, s: Summary, enforceLimit: bool)
    requires Compacted(cfg, log, s, enforceLimit).Some?
    ensures |Filter(Compacted(cfg, log, s, enforceLimit).value, IsSummary)| == |Filter(log, IsSummary)| + 1
  {
    var (systems, summaries) := (Filter(log, IsSystem), Filter(log, IsSummary));
    var (summary, kept) := (NewSummary(log, s), Kept(cfg, log));
    FilterMembers(log, IsSystem);
    FilterMembers(log, IsSummary);
    KeptMembers(cfg, log);
    FilterAll(systems, IsSummary, false);
    FilterAll(summaries, IsSummary, true);
    FilterAll([summary], IsSummary, true);
    FilterAll(kept, IsSummary, false);
    FilterSplit(systems, summaries, IsSummary);
    FilterSplit(Head(log), [summary], IsSummary);
    FilterSplit(Head(log) + [summary], kept, IsSummary);
  }

  lemma {:induction false} StepSummaries(cfg: Config, log: seq<Record>, e: Event, manuals: nat)
    requires Legal(e) && |Filter(log, IsSummary)| <= cfg.maxCompactions + manuals
    ensures |Filter(Step(cfg, log, e), IsSummary)| <= cfg.maxCompactions + manuals + if e.Manual? then 1 else 0
  {
    match e
    case Append(r) =>
      FilterSplit(log, [Numbered(log, r)], IsSummary);
    case Auto(s) =>
      if Triggers(cfg, log) && Compacted(cfg, log, s, true).Some? {
        CompactedSummaries(cfg, log, s, true);
      }
      SortKeepsTurns(OrSame(Compacted(cfg, log, s, true), log));
    case Manual(s) =>
      if Compacted(cfg, log, s, false).Some? {
        CompactedSummaries(cfg, log, s, false);
      }
      SortKeepsTurns(OrSame(Compacted(cfg, log, s, false), log));
  }

  /** A log never holds more than `maxCompactions` summaries beyond those made on demand. */
  lemma {:induction false} SummariesAreBounded(cfg: Config, events: seq<Event>)
    requires forall e :: e in events ==> Legal(e)
    ensures |Filter(Run(cfg, [], events), IsSummary)| <= cfg.maxCompactions + Manuals(events)
  {
    if events != [] {
      var (front, e) := (events[..|events| - 1], events[|events| - 1]);
      SummariesAreBounded(cfg, front);
      StepSummaries(cfg, Run(cfg, [], front), e, Manuals(front));
    }
  }

  // ---------------------------------------------------------------- compaction and the token figure

  /** The usage record with the highest sequence number. */
  ghost predicate IsLatest(records: seq<Record>, k: Record) {
    k in records && HasUsage(k) && forall r :: r in records && HasUsage(r) ==> r.sequence <= k.sequence
  }

  /** No two usage records share a number. */
  ghost predicate DistinctUsage(records: seq<Record>) {
    forall r, q :: r in records && q in records && HasUsage(r) && HasUsage(q) && r.sequence == q.sequence ==> r == q
  }

  lemma {:induction false} LatestIs(records: seq<Record>, k: Record)
    requires IsLatest(records, k) && DistinctUsage(records)
    ensures Latest(records, -1, 0) == (k.sequence, k.body.inputTokens.value)
  {
    var i := TokensAreLatest(records);
    assert records[i] in records;
  }

  lemma {:induction false} NoLatest(records: seq<Record>)
    ensures Latest(records, -1, 0) == (-1, 0) || exists k :: IsLatest(records, k)
    ensures (exists r :: r in records && HasUsage(r)) <==> exists k :: IsLatest(records, k)
  {
    var i := TokensAreLatest(records);
    assert forall r :: r in records && HasUsage(r) ==> exists j :: 0 <= j < |records| && records[j] == r;
    if i >= 0 {
      assert records[i] in records;
      assert IsLatest(records, records[i]);
    }
  }

  /** The token figure depends on the usage records only. */
  lemma {:induction false} SameUsage(a: seq<Record>, b: seq<Record>)
    requires DistinctUsage(a) && forall r :: HasUsage(r) ==> (r in a <==> r in b)
    ensures Latest(a, -1, 0) == Latest(b, -1, 0)
  {
    NoLatest(a);
    NoLatest(b);
    if k :| IsLatest(a, k) {
      LatestIs(a, k);
      LatestIs(b, k);
    }
  }

  lemma {:induction false} InOrderIsDistinct(records: seq<Record>)
    requires InOrder(records)
    ensures DistinctUsage(records)
  {}

  lemma {:induction false} LatestSkips(a: seq<Record>, b: seq<Record>)
    requires forall r :: r in a ==> !r.body.AssistantMessage?
    ensures Latest(a + b, -1, 0) == Latest(b, -1, 0)
  {
    if a == [] {
      assert a + b == b;
    } else {
      assert a[0] in a && (a + b)[1..] == a[1..] + b;
      LatestSkips(a[1..], b);
    }
  }

  /** After any compaction the token figure is that of the kept records; so it is 0 if no turn is kept. */
  lemma {:induction false} FigureIsThatOfKept(cfg: Config, log: seq<Record>, s: Summary, enforceLimit: bool)
    requires Compacted(cfg, log, s, enforceLimit).Some?
    ensures Latest(Compacted(cfg, log, s, enforceLimit).value, -1, 0) == Latest(Kept(cfg, log), -1, 0)
    ensures cfg.keepTurns == 0 ==> TotalTokens(Compacted(cfg, log, s, enforceLimit).value) == 0
  {
    HeadMembers(log);
    LatestSkips(Head(log) + [NewSummary(log, s)], Kept(cfg, log));
    if cfg.keepTurns == 0 {
      NothingKept(cfg, log);
    }
  }

  /** Reading the new log, which sorts it, does not change the figure. */
  lemma {:induction false} FigureIsRead(cfg: Config, log: seq<Record>, s: Summary, enforceLimit: bool)
    requires InOrder(log) && Compacted(cfg, log, s, enforceLimit).Some?
    ensures var after := Compacted(cfg, log, s, enforceLimit).value;
            Latest(SortBySequence(after), -1, 0) == Latest(after, -1, 0)
  {
    var after := Compacted(cfg, log, s, enforceLimit).value;
    CompactedMembers(cfg, log, s, enforceLimit);
    KeptMembers(cfg, log);
    InOrderIsDistinct(log);
    SortMembers(after, IsChat);
    SameUsage(after, SortBySequence(after));
  }

  lemma {:induction false} NothingKept(cfg: Config, log: seq<Record>)
    requires cfg.keepTurns == 0
    ensures Kept(cfg, log) == []
  {
    var chat := Filter(log, IsChat);
    RecentTurnsSize(chat, 0);
    assert RecentTurns(chat, 0) == {};
    FilterAll(chat, InTurns({}), false);
  }

  /**
   * Compaction leaves the token figure with the record it came from exactly when the turn of that
   * record is one of those it keeps.  Then only the turn count holds the next automatic compaction
   * back; otherwise the figure comes from an older record, or is 0.
   */
  lemma {:induction false} FigureSurvivesIff(cfg: Config, log: seq<Record>, s: Summary, enforceLimit: bool)
    requires InOrder(log) && Compacted(cfg, log, s, enforceLimit).Some?
    ensures Latest(Compacted(cfg, log, s, enforceLimit).value, -1, 0) == Latest(log, -1, 0) <==>
              forall k :: IsLatest(log, k) ==> k.turn in RecentTurns(Filter(log, IsChat), cfg.keepTurns)
  {
    var recent := RecentTurns(Filter(log, IsChat), cfg.keepTurns);
    FigureIsThatOfKept(cfg, log, s, enforceLimit);
    KeptMembers(cfg, log);
    InOrderIsDistinct(log);
    NoLatest(log);
    if k :| IsLatest(log, k) {
      KeptIff(cfg, log, k);
      LatestStays(log, Kept(cfg, log), k);
      assert forall j :: IsLatest(log, j) ==> j == k;
    } else {
      LatestIsNone(log, Kept(cfg, log));
    }
  }

  lemma {:induction false} KeptIff(cfg: Config, log: seq<Record>, r: Record)
    requires r in log && IsChat(r)
    ensures r in Kept(cfg, log) <==> r.turn in RecentTurns(Filter(log, IsChat), cfg.keepTurns)
  {
    FilterMembers(log, IsChat);
    FilterMembers(Filter(log, IsChat), InTurns(RecentTurns(Filter(log, IsChat), cfg.keepTurns)));
  }

  lemma {:induction false} LatestStays(log: seq<Record>, kept: seq<Record>, k: Record)
    requires IsLatest(log, k) && DistinctUsage(log) && forall r :: r in kept ==> r in log
    ensures Latest(kept, -1, 0) == Latest(log, -1, 0) <==> k in kept
  {
    LatestIs(log, k);
    NoLatest(kept);
    if k in kept {
      LatestIs(kept, k);
    } else if j :| IsLatest(kept, j) {
      LatestIs(kept, j);
    }
  }

  lemma {:induction false} LatestIsNone(log: seq<Record>, kept: seq<Record>)
    requires (forall k :: !IsLatest(log, k)) && forall r :: r in kept ==> r in log
    ensures Latest(kept, -1, 0) == Latest(log, -1, 0)
  {
    NoLatest(log);
    NoLatest(kept);
  }

  /** Three turns, the last of which used `n` tokens. */
  function ThreeTurns(n: int): seq<Record> {
    [Record(0, "t1", UserMessage("a")), Record(1, "t2", UserMessage("b")),
     Record(2, "t3", UserMessage("c")), Record(3, "t3", AssistantMessage("d", Some(n)))]
  }

  lemma {:induction false} LastUsage(front: seq<Record>, last: Record)
    requires HasUsage(last) && forall r :: r in front ==> !r.body.AssistantMessage?
    ensures TotalTokens(front + [last]) == last.body.inputTokens.value
  {
    LatestSkips(front, [last]);
    LatestAppend([], last, -1, 0);
    assert [] + [last] == [last];
  }

  lemma ThreeTurnsTrigger(n: int)
    requires n >= 100000
    ensures Triggers(CHATTY_CONFIG, ThreeTurns(n))
  {
    ThreeTurnIds(ThreeTurns(n), ThreeTurns(n)[0], ThreeTurns(n)[1], ThreeTurns(n)[2]);
    LastUsage(ThreeTurns(n)[..3], ThreeTurns(n)[3]);
    assert ThreeTurns(n) == ThreeTurns(n)[..3] + [ThreeTurns(n)[3]];
  }

  lemma ThreeTurnsKept(n: int)
    ensures RecentTurns(ThreeTurns(n), 1) == {"t3"}
  {
    var ordered := ["t1", "t2", "t3"];
    SortedStays(ThreeTurns(n));
    assert "t1"[1] != "t2"[1] && "t3"[1] != "t2"[1] && "t3"[1] != "t1"[1];
    assert Counts("t1") && Counts("t2") && Counts("t3");
    var r := ThreeTurns(n);
    assert r[..3][..2] == r[..2] && r[..2][..1] == r[..1] && r[..1][..0] == [];
    assert OrderedTurns(r[..1]) == ["t1"];
    assert OrderedTurns(r[..2]) == ["t1", "t2"];
    assert OrderedTurns(r[..3]) == ordered;
    assert OrderedTurns(r) == ordered;
    assert LastOf(ordered, 1) == ["t3"];
  }

  lemma {:induction false} TurnsSplit(older: seq<Record>, kept: seq<Record>, turns: set<string>)
    requires forall r :: r in older ==> r.turn !in turns
    requires forall r :: r in kept ==> r.turn in turns
    ensures Filter(older + kept, InTurns(turns)) == kept && Filter(older + kept, NotInTurns(turns)) == older
  {
    FilterSplit(older, kept, InTurns(turns));
    FilterSplit(older, kept, NotInTurns(turns));
    FilterAll(older, InTurns(turns), false);
    FilterAll(older, NotInTurns(turns), true);
    FilterAll(kept, InTurns(turns), true);
    FilterAll(kept, NotInTurns(turns), false);
  }

  /** The first compaction of a log without system messages. */
  lemma {:induction false} FirstCompaction(cfg: Config, older: seq<Record>, kept: seq<Record>, s: Summary)
    requires forall r :: r in older + kept ==> IsChat(r)
    requires forall r :: r in older ==> r.turn !in RecentTurns(older + kept, cfg.keepTurns)
    requires forall r :: r in kept ==> r.turn in RecentTurns(older + kept, cfg.keepTurns)
    requires cfg.maxCompactions > 0 && s.text.Some? && older != []
    ensures Compacted(cfg, older + kept, s, true) == Some([Record(0, s.turn, CompactionSummary(s.text.value))] + kept)
  {
    var log := older + kept;
    FilterAll(log, IsSystem, false);
    FilterAll(log, IsSummary, false);
    FilterAll(log, IsChat, true);
    TurnsSplit(older, kept, RecentTurns(log, cfg.keepTurns));
    assert Head(log) == [];
    assert [] + [NewSummary(log, s)] == [NewSummary(log, s)];
  }

  /** The log that a compaction of `ThreeTurns` leaves. */
  function ThreeTurnsLater(n: int, s: Summary): seq<Record>
    requires s.text.Some?
  {
    [Record(0, s.turn, CompactionSummary(s.text.value)), ThreeTurns(n)[2], ThreeTurns(n)[3]]
  }

  lemma ThreeTurnsDivide(n: int, older: seq<Record>, kept: seq<Record>)
    requires older == ThreeTurns(n)[..2] && kept == ThreeTurns(n)[2..]
    ensures older + kept == ThreeTurns(n) && older != []
    ensures forall r :: r in older + kept ==> IsChat(r)
    ensures forall r :: r in older ==> r.turn !in {"t3"}
    ensures forall r :: r in kept ==> r.turn in {"t3"}
  {
    assert forall r :: r in older ==> r.turn[1] != "t3"[1];
  }

  lemma {:induction false} ThreeTurnsCompacted(n: int, older: seq<Record>, kept: seq<Record>, s: Summary)
    requires older + kept == ThreeTurns(n) && older != [] && s.text.Some?
    requires forall r :: r in older + kept ==> IsChat(r)
    requires forall r :: r in older ==> r.turn !in {"t3"}
    requires forall r :: r in kept ==> r.turn in {"t3"}
    ensures Compacted(CHATTY_CONFIG, older + kept, s, true)
         == Some([Record(0, s.turn, CompactionSummary(s.text.value))] + kept)
  {
    ThreeTurnsKept(n);
    FirstCompaction(CHATTY_CONFIG, older, kept, s);
  }

  lemma ThreeTurnsFigure(n: int, s: Summary)
    requires s.text.Some?
    ensures TotalTokens(ThreeTurnsLater(n, s)) == n
  {
    LastUsage(ThreeTurnsLater(n, s)[..2], ThreeTurns(n)[3]);
    assert ThreeTurnsLater(n, s) == ThreeTurnsLater(n, s)[..2] + [ThreeTurns(n)[3]];
  }

  /** A compaction that the figure of `n` tokens triggered leaves it at `n`, at or above the threshold. */
  lemma FigureSurvivesExample(n: int, s: Summary)
    requires n >= 100000 && s.text.Some?
    ensures Triggers(CHATTY_CONFIG, ThreeTurns(n))
    ensures Compacted(CHATTY_CONFIG, ThreeTurns(n), s, true) == Some(ThreeTurnsLater(n, s))
    ensures TotalTokens(ThreeTurnsLater(n, s)) == n
  {
    ThreeTurnsTrigger(n);
    ThreeTurnsDivide(n, ThreeTurns(n)[..2], ThreeTurns(n)[2..]);
    ThreeTurnsCompacted(n, ThreeTurns(n)[..2], ThreeTurns(n)[2..], s);
    assert ThreeTurnsLater(n, s) == [ThreeTurnsLater(n, s)[0]] + ThreeTurns(n)[2..];
    ThreeTurnsFigure(n, s);
  }
}
