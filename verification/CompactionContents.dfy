/** What a compaction summarises, keeps and writes, when it triggers and when it declines. */
module CompactionContents {
  import opened Compaction
  import CompactionLaws
  import CompactionRuns
  import opened Options
  import opened Sequences
  import opened SessionLog

  /** The distinct turns of a log, synthetic and missing ones not counted. */
  function RealTurns(records: seq<Record>): set<string> {
    set r | r in records && r.turn != "" && !("compaction-" <= r.turn) :: r.turn
  }

  lemma RealTurnsAre(records: seq<Record>)
    ensures TurnIds(records) == RealTurns(records)
  {}

  /** A compaction triggers on the token figure and the number of turns, if enabled. */
  lemma TriggersIff(cfg: Config, records: seq<Record>)
    ensures Triggers(cfg, records) <==>
              cfg.enabled && TotalTokens(records) >= cfg.tokenThreshold
              && |RealTurns(records)| >= cfg.minTurns + cfg.keepTurns
  {
    RealTurnsAre(records);
  }

  predicate IsConversation(r: Record) {
    !r.body.SystemMessage? && !r.body.CompactionSummary?
  }

  /** All conversation is either kept or summarised, turn by turn. */
  lemma {:induction false} KeptOrSummarised(cfg: Config, records: seq<Record>, r: Record)
    ensures var recent := RecentTurns(Filter(records, IsChat), cfg.keepTurns);
            && (r in Kept(cfg, records) <==> r in records && IsConversation(r) && r.turn in recent)
            && (r in Summarised(cfg, records) <==> r in records && IsConversation(r) && r.turn !in recent)
  {
    var chat := Filter(records, IsChat);
    FilterMembers(records, IsChat);
    FilterMembers(chat, InTurns(RecentTurns(chat, cfg.keepTurns)));
    FilterMembers(chat, NotInTurns(RecentTurns(chat, cfg.keepTurns)));
  }

  /** It declines at the limit (unless on demand), with nothing to summarise, or without a summary. */
  lemma {:induction false} DeclinesIff(cfg: Config, records: seq<Record>, s: Summary, enforceLimit: bool)
    ensures Compacted(cfg, records, s, enforceLimit) == None <==>
              || (enforceLimit && |Filter(records, IsSummary)| >= cfg.maxCompactions)
              || (forall r :: r !in Summarised(cfg, records))
              || s.text == None
  {
    if Summarised(cfg, records) != [] {
      assert Summarised(cfg, records)[0] in Summarised(cfg, records);
    }
  }

  /**
   * A new log holds the system messages and summaries as they were, the new summary with its text and
   * turn, and the kept records as they were; nothing else.
   */
  lemma {:induction false} NewLogHolds(cfg: Config, records: seq<Record>, s: Summary, enforceLimit: bool, r: Record)
    requires Compacted(cfg, records, s, enforceLimit).Some?
    ensures r in Compacted(cfg, records, s, enforceLimit).value <==>
              || (r in records && !IsConversation(r))
              || r == Record(|Filter(records, IsSystem)| + |Filter(records, IsSummary)|, s.turn, CompactionSummary(s.text.value))
              || r in Kept(cfg, records)
  {
    CompactionRuns.CompactedMembers(cfg, records, s, enforceLimit);
  }

  lemma FourParts(a: seq<Record>, b: seq<Record>, c: Record, d: seq<Record>)
    ensures var all := a + b + [c] + d;
            && |all| == |a| + |b| + 1 + |d| && all[..|a|] == a && all[|a|..|a| + |b|] == b
            && all[|a| + |b|] == c && all[|a| + |b| + 1..] == d
  {}

  lemma {:induction false} CompactedIs(cfg: Config, records: seq<Record>, s: Summary, enforceLimit: bool)
    requires Compacted(cfg, records, s, enforceLimit).Some?
    ensures Compacted(cfg, records, s, enforceLimit).value
         == Filter(records, IsSystem) + Filter(records, IsSummary) + [NewSummary(records, s)] + Kept(cfg, records)
  {}

  /** In it, system messages come first, then summaries, the new one last, then what is kept. */
  lemma {:induction false} NewLogIs(cfg: Config, records: seq<Record>, s: Summary, enforceLimit: bool)
    requires Compacted(cfg, records, s, enforceLimit).Some?
    ensures var (after, systems) := (Compacted(cfg, records, s, enforceLimit).value, Filter(records, IsSystem));
            var summaries := Filter(records, IsSummary);
            && |after| == |systems| + |summaries| + 1 + |Kept(cfg, records)|
            && after[..|systems|] == systems
            && after[|systems|..|systems| + |summaries|] == summaries
            && after[|systems| + |summaries|].body == CompactionSummary(s.text.value)
            && after[|systems| + |summaries| + 1..] == Kept(cfg, records)
  {
    CompactedIs(cfg, records, s, enforceLimit);
    FourParts(Filter(records, IsSystem), Filter(records, IsSummary), NewSummary(records, s), Kept(cfg, records));
  }
}
