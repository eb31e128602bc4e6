/**
 * Chat compaction: when it triggers, what it summarises and what it keeps
 * (src/assistant/core/orchestrator/service.py and token_usage.py).
 */
module Compaction {
  import opened Options
  import opened LogOrder
  import opened SessionLog
  import opened Sequences

  /** Validated by the configuration schema: at least 2, 1 and 0. */
  datatype Config = Config(enabled: bool, tokenThreshold: int, minTurns: nat, maxCompactions: nat, keepTurns: nat)

  const SYNTHETIC_PREFIX := "compaction-"

  predicate IsSynthetic(turn: string) {
    SYNTHETIC_PREFIX <= turn
  }

  /** Records without a turn id and synthetic turns do not count. */
  predicate Counts(turn: string) {
    turn != "" && !IsSynthetic(turn)
  }

  predicate IsSystem(r: Record) { r.body.SystemMessage? }
  predicate IsSummary(r: Record) { r.body.CompactionSummary? }
  predicate IsChat(r: Record) { !IsSystem(r) && !IsSummary(r) }

  function TurnIds(records: seq<Record>): set<string> {
    set r | r in records && Counts(r.turn) :: r.turn
  }

  // ---------------------------------------------------------------- the token figure

  predicate HasUsage(r: Record) {
    r.body.AssistantMessage? && r.body.inputTokens.Some? && r.sequence > -1
  }

  function Latest(records: seq<Record>, sequence: int, tokens: int): (int, int) {
    if records == [] then (sequence, tokens)
    else
      var r := records[0];
      if r.body.AssistantMessage? && r.body.inputTokens.Some? && r.sequence > sequence
      then Latest(records[1..], r.sequence, r.body.inputTokens.value)
      else Latest(records[1..], sequence, tokens)
  }

  function TotalTokens(records: seq<Record>): int {
    Latest(records, -1, 0).1
  }

  method CalculateSessionTotalTokens(records: seq<Record>) returns (lastInputTokens: int)
    ensures lastInputTokens == TotalTokens(records)
  {
    lastInputTokens := 0;
    var lastSequence := -1;
    var i := 0;
    while i < |records|
      invariant 0 <= i <= |records|
      invariant Latest(records[i..], lastSequence, lastInputTokens) == Latest(records, -1, 0)
    {
      var r := records[i];
      if r.body.AssistantMessage? && r.body.inputTokens.Some? && r.sequence > lastSequence {
        lastSequence, lastInputTokens := r.sequence, r.body.inputTokens.value;
      }
      i := i + 1;
    }
  }

  // ---------------------------------------------------------------- the kept window

  /** The turns of the records, each once, in order of first appearance. */
  function OrderedTurns(records: seq<Record>): seq<string> {
    if records == [] then []
    else
      var (front, turn) := (OrderedTurns(records[..|records| - 1]), records[|records| - 1].turn);
      if Counts(turn) && turn !in front then front + [turn] else front
  }

  function LastOf(turns: seq<string>, n: nat): seq<string> {
    if |turns| <= n then turns else turns[|turns| - n..]
  }

  function RecentTurns(records: seq<Record>, keep: nat): set<string> {
    var recent := LastOf(OrderedTurns(SortBySequence(records)), keep);
    set t | t in recent
  }

  /** `_ordered_recent_turn_ids` */
  method OrderedRecentTurnIds(chatRecords: seq<Record>, keepRecentTurns: nat) returns (kept: set<string>)
    ensures kept == RecentTurns(chatRecords, keepRecentTurns)
  {
    if keepRecentTurns == 0 {
      return {};
    }
    var ordered: seq<string>, seen: set<string> := [], {};
    var sorted := SortBySequence(chatRecords);
    var i := 0;
    while i < |sorted|
      invariant 0 <= i <= |sorted|
      invariant ordered == OrderedTurns(sorted[..i])
      invariant seen == set t | t in ordered
    {
      var tid := sorted[i].turn;
      assert sorted[..i + 1][..i] == sorted[..i];
      if Counts(tid) && tid !in seen {
        seen := seen + {tid};
        ordered := ordered + [tid];
      }
      i := i + 1;
    }
    assert sorted[..i] == sorted;
    var recent := LastOf(ordered, keepRecentTurns);
    kept := set t | t in recent;
  }

  function InTurns(turns: set<string>): Record -> bool {
    (r: Record) => r.turn in turns
  }

  function NotInTurns(turns: set<string>): Record -> bool {
    (r: Record) => r.turn !in turns
  }

  // ---------------------------------------------------------------- the two operations

  /** `_should_compact_session` */
  predicate Triggers(cfg: Config, records: seq<Record>) {
    && cfg.enabled
    && TotalTokens(records) >= cfg.tokenThreshold
    && |TurnIds(records)| >= cfg.minTurns + cfg.keepTurns
  }

  /** What the summariser makes of the older records, or nothing when it fails, and the new turn id. */
  datatype Summary = Summary(text: Option<string>, turn: string)

  function Kept(cfg: Config, records: seq<Record>): seq<Record> {
    var chat := Filter(records, IsChat);
    Filter(chat, InTurns(RecentTurns(chat, cfg.keepTurns)))
  }

  function Summarised(cfg: Config, records: seq<Record>): seq<Record> {
    var chat := Filter(records, IsChat);
    Filter(chat, NotInTurns(RecentTurns(chat, cfg.keepTurns)))
  }

  /** What a compaction always preserves: system messages and earlier summaries. */
  function Head(records: seq<Record>): (head: seq<Record>)
    ensures |head| == |Filter(records, IsSystem)| + |Filter(records, IsSummary)|
  {
    Filter(records, IsSystem) + Filter(records, IsSummary)
  }

  function NewSummary(records: seq<Record>, s: Summary): Record
    requires s.text.Some?
  {
    Record(|Head(records)|, s.turn, CompactionSummary(s.text.value))
  }

  /** The log after `_compact_session`, or nothing when it declines. */
  function Compacted(cfg: Config, records: seq<Record>, s: Summary, enforceLimit: bool): Option<seq<Record>> {
    if enforceLimit && |Filter(records, IsSummary)| >= cfg.maxCompactions then None
    else if Summarised(cfg, records) == [] || s.text.None? then None
    else Some(Head(records) + [NewSummary(records, s)] + Kept(cfg, records))
  }

  /** The stored log of one session. */
  class SessionFile {
    var records: seq<Record>

    constructor (records: seq<Record>)
      ensures this.records == records
    {
      this.records := records;
    }

    /** Reading sorts by sequence; `replace_session` is atomic. */
    method CompactSession(cfg: Config, s: Summary, enforceLimit: bool) returns (compacted: bool)
      modifies this
      ensures var after := Compacted(cfg, SortBySequence(old(records)), s, enforceLimit);
              && compacted == after.Some?
              && records == if compacted then after.value else old(records)
    {
      var after := CompactRecords(cfg, SortBySequence(records), s, enforceLimit);
      compacted := after.Some?;
      if compacted {
        records := after.value;
      }
    }
  }

  method CompactRecords(cfg: Config, all: seq<Record>, s: Summary, enforceLimit: bool)
    returns (after: Option<seq<Record>>)
    ensures after == Compacted(cfg, all, s, enforceLimit)
  {
    var previousSummaries := Filter(all, IsSummary);
    if enforceLimit && |previousSummaries| >= cfg.maxCompactions {
      return None;
    }
    var systemRecords := Filter(all, IsSystem);
    var chatRecords := Filter(all, IsChat);
    var keptTurnIds := OrderedRecentTurnIds(chatRecords, cfg.keepTurns);
    var toSummarise := Filter(chatRecords, NotInTurns(keptTurnIds));
    var keptRecords := Filter(chatRecords, InTurns(keptTurnIds));
    if toSummarise == [] || s.text.None? {
      return None;
    }
    var summary := Record(|systemRecords| + |previousSummaries|, s.turn, CompactionSummary(s.text.value));
    return Some(systemRecords + previousSummaries + [summary] + keptRecords);
  }
}
