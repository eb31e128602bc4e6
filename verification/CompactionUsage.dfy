/**
 * Compaction and usage together: archiving covers the whole session, but the kept turns stay, so what
 * they report is counted twice from then on (src/assistant/core/orchestrator/service.py).
 */
module CompactionUsage {
  import opened Compaction
  import CompactionLaws
  import CompactionRuns
  import opened Options
  import opened Sequences
  import Stored = SessionLog
  import opened Usage
  import opened UsageLaws

  // ---------------------------------------------------------------- two views of one log

  /** What the usage report sees of a stored record. */
  predicate Shows(e: Entry, r: Stored.Record) {
    match r.body
    case UserMessage(_) => e.UserMessage? && e.turn == r.turn
    case AssistantMessage(_, tokens) =>
      e.AssistantMessage? && e.turn == r.turn && (tokens.Some? ==> e.usage.Some? && e.usage.value.input == tokens.value)
    case _ => e.OtherEntry?
  }

  predicate SameLog(entries: seq<Entry>, records: seq<Stored.Record>) {
    |entries| == |records| && forall i :: 0 <= i < |entries| ==> Shows(entries[i], records[i])
  }

  /** `Filter(records, p)` as the usage report sees it. */
  function Along(entries: seq<Entry>, records: seq<Stored.Record>, p: Stored.Record -> bool): (picked: seq<Entry>)
    requires |entries| == |records|
    ensures |picked| == |Filter(records, p)|
    ensures SameLog(entries, records) ==> SameLog(picked, Filter(records, p))
  {
    if entries == [] then []
    else (if p(records[0]) then [entries[0]] else []) + Along(entries[1..], records[1..], p)
  }

  /** The kept records as the usage report sees them. */
  function KeptEntries(cfg: Config, entries: seq<Entry>, records: seq<Stored.Record>): seq<Entry>
    requires |entries| == |records|
  {
    var chat := Filter(records, IsChat);
    Along(Along(entries, records, IsChat), chat, InTurns(RecentTurns(chat, cfg.keepTurns)))
  }

  /** The whole compacted log as the usage report sees it. */
  function CompactedEntries(cfg: Config, entries: seq<Entry>, records: seq<Stored.Record>): seq<Entry>
    requires |entries| == |records|
  {
    Along(entries, records, IsSystem) + Along(entries, records, IsSummary) + [OtherEntry] + KeptEntries(cfg, entries, records)
  }

  lemma SameParts(a: seq<Entry>, b: seq<Entry>, ra: seq<Stored.Record>, rb: seq<Stored.Record>)
    requires SameLog(a, ra) && SameLog(b, rb)
    ensures SameLog(a + b, ra + rb)
  {}

  lemma CompactedShows(cfg: Config, entries: seq<Entry>, records: seq<Stored.Record>, s: Summary, enforceLimit: bool)
    requires SameLog(entries, records) && Compacted(cfg, records, s, enforceLimit).Some?
    ensures SameLog(CompactedEntries(cfg, entries, records), Compacted(cfg, records, s, enforceLimit).value)
  {
    var (systems, summaries) := (Along(entries, records, IsSystem), Along(entries, records, IsSummary));
    SameParts(systems, summaries, Filter(records, IsSystem), Filter(records, IsSummary));
    SameParts(systems + summaries, [OtherEntry], Head(records), [NewSummary(records, s)]);
    SameParts(systems + summaries + [OtherEntry], KeptEntries(cfg, entries, records),
              Head(records) + [NewSummary(records, s)], Kept(cfg, records));
  }

  // ---------------------------------------------------------------- only kept records report anything

  lemma {:induction false} OthersHaveNoUsers(others: seq<Entry>, kept: seq<Entry>)
    requires forall e :: e in others ==> e.OtherEntry?
    ensures TurnUsers(others + kept) == TurnUsers(kept)
  {
    if kept != [] {
      var n := |kept| - 1;
      assert (others + kept)[..|others| + n] == others + kept[..n];
      OthersHaveNoUsers(others, kept[..n]);
    } else if others != [] {
      var n := |others| - 1;
      assert (others + kept)[..n] == others[..n] + [] && others[n] in others;
      OthersHaveNoUsers(others[..n], []);
    }
  }

  lemma {:induction false} OthersHaveNoLines(
    r: Rates, rule: Rule, users: map<string, string>, user: string, others: seq<Entry>, kept: seq<Entry>)
    requires forall e :: e in others ==> e.OtherEntry?
    ensures AllLines(r, rule, users, user, others + kept) == AllLines(r, rule, users, user, kept)
  {
    if others == [] {
      assert others + kept == kept;
    } else {
      assert others[0] in others && (others + kept)[1..] == others[1..] + kept;
      OthersHaveNoLines(r, rule, users, user, others[1..], kept);
      assert AllLines(r, rule, users, user, others + kept) == [] + AllLines(r, rule, users, user, others[1..] + kept);
    }
  }

  lemma {:induction false} OthersReportNothing(r: Rates, id: string, user: string, others: seq<Entry>, kept: seq<Entry>)
    requires forall e :: e in others ==> e.OtherEntry?
    ensures SessionLines(r, ByReport, Session(id, others + kept), user) == SessionLines(r, ByReport, Session(id, kept), user)
  {
    OthersHaveNoUsers(others, kept);
    OthersHaveNoLines(r, ByReport, TurnUsers(kept), user, others, kept);
    assert forall i :: 0 <= i < |kept| ==> (others + kept)[|others| + i] == kept[i];
    assert forall i :: 0 <= i < |others| ==> (others + kept)[i] == others[i] && others[i] in others;
    BelongsAlike(r, id, user, others, kept);
  }

  lemma BelongsAlike(r: Rates, id: string, user: string, others: seq<Entry>, kept: seq<Entry>)
    requires forall e :: e in others ==> e.OtherEntry?
    ensures BelongsTo(r, Session(id, others + kept), user) <==> BelongsTo(r, Session(id, kept), user)
  {
    var all := others + kept;
    assert forall i :: 0 <= i < |kept| ==> all[|others| + i] == kept[i];
    forall i | 0 <= i < |others| ensures all[i].OtherEntry? {
      assert others[i] in others;
    }
    forall i | 0 <= i < |all| && all[i].UserMessage? && all[i].userId == Some(user) ensures BelongsTo(r, Session(id, kept), user) {
      assert all[i] == kept[i - |others|];
    }
  }

  lemma {:induction false} HeadIsOther(cfg: Config, entries: seq<Entry>, records: seq<Stored.Record>)
    requires SameLog(entries, records)
    ensures forall e :: e in Along(entries, records, IsSystem) + Along(entries, records, IsSummary) + [OtherEntry] ==> e.OtherEntry?
  {
    FilterMembers(records, IsSystem);
    FilterMembers(records, IsSummary);
    ShowsOther(Along(entries, records, IsSystem), Filter(records, IsSystem));
    ShowsOther(Along(entries, records, IsSummary), Filter(records, IsSummary));
  }

  lemma {:induction false} ShowsOther(entries: seq<Entry>, records: seq<Stored.Record>)
    requires SameLog(entries, records) && forall r :: r in records ==> !IsChat(r)
    ensures forall e :: e in entries ==> e.OtherEntry?
  {
    forall i | 0 <= i < |entries| ensures entries[i].OtherEntry? {
      assert !IsChat(records[i]);
    }
  }

  /**
   * After any compaction that archived the session for `user`, the user's totals are what they were,
   * and once more what the kept turns report, and what the blank records add as after any archiving.
   */
  lemma {:induction false} KeptTurnsCountTwice(
    cfg: Config, records: seq<Stored.Record>, s: Summary, enforceLimit: bool, r: Rates, sessions: seq<Session>,
    archive: Archive, id: string, user: string, window: int -> bool)
    requires user != "" && SessionIndex(sessions, id) < |sessions|
    requires SameLog(EntriesOf(sessions, id), records) && Compacted(cfg, records, s, enforceLimit).Some?
    ensures var (entries, archive') := (EntriesOf(sessions, id), ArchivedFor(r, sessions, archive, id, user));
            var kept := SessionTotal(r, Session(id, KeptEntries(cfg, entries, records)), user, window);
            var blank := Total(SessionLines(r, AsBlank, Session(id, entries), user), window);
            && SameLog(CompactedEntries(cfg, entries, records), Compacted(cfg, records, s, enforceLimit).value)
            && Shown(r, Replaced(sessions, id, CompactedEntries(cfg, entries, records)), archive', user, window)
               == Plus(Shown(r, sessions, archive, user, window), Plus(kept, blank))
  {
    var entries := EntriesOf(sessions, id);
    CompactedShows(cfg, entries, records, s, enforceLimit);
    HeadIsOther(cfg, entries, records);
    OthersReportNothing(r, id, user, Along(entries, records, IsSystem) + Along(entries, records, IsSummary) + [OtherEntry],
                        KeptEntries(cfg, entries, records));
    ArchiveThenReplace(r, sessions, archive, id, user, CompactedEntries(cfg, entries, records), window);
  }

  // ---------------------------------------------------------------- an example

  /** What the usage report sees of `CompactionRuns.ThreeTurns`, if one user asked in all turns. */
  function Older(user: string): seq<Entry> {
    [UserMessage("t1", Some(user)), UserMessage("t2", Some(user))]
  }

  function LastTurn(user: string, n: int): seq<Entry> {
    [UserMessage("t3", Some(user)), AssistantMessage("t3", None, Some(Tokens(n, 7)), "", 0)]
  }

  lemma {:induction false} AlongAll(entries: seq<Entry>, records: seq<Stored.Record>, p: Stored.Record -> bool, keep: bool)
    requires |entries| == |records| && forall r :: r in records ==> p(r) == keep
    ensures Along(entries, records, p) == if keep then entries else []
  {
    if entries != [] {
      assert records[0] in records;
      AlongAll(entries[1..], records[1..], p, keep);
    }
  }

  lemma {:induction false} AlongSplit(
    a: seq<Entry>, b: seq<Entry>, ra: seq<Stored.Record>, rb: seq<Stored.Record>, p: Stored.Record -> bool)
    requires |a| == |ra| && |b| == |rb|
    ensures Along(a + b, ra + rb, p) == Along(a, ra, p) + Along(b, rb, p)
  {
    if a == [] {
      assert a + b == b && ra + rb == rb;
    } else {
      assert (a + b)[1..] == a[1..] + b && (ra + rb)[1..] == ra[1..] + rb;
      AlongSplit(a[1..], b, ra[1..], rb, p);
      Assoc(if p(ra[0]) then [a[0]] else [], Along(a[1..], ra[1..], p), Along(b, rb, p));
    }
  }

  lemma {:induction false} AllChat(cfg: Config, entries: seq<Entry>, records: seq<Stored.Record>)
    requires |entries| == |records| && forall r :: r in records ==> IsChat(r)
    ensures KeptEntries(cfg, entries, records) == Along(entries, records, InTurns(RecentTurns(records, cfg.keepTurns)))
  {
    AlongAll(entries, records, IsChat, true);
    FilterAll(records, IsChat, true);
  }

  /** Only the records of the second part are in these turns. */
  lemma {:induction false} OnlySecond(
    a: seq<Entry>, b: seq<Entry>, ra: seq<Stored.Record>, rb: seq<Stored.Record>, turns: set<string>)
    requires |a| == |ra| && |b| == |rb|
    requires forall r :: r in ra ==> r.turn !in turns
    requires forall r :: r in rb ==> r.turn in turns
    ensures Along(a + b, ra + rb, InTurns(turns)) == b
  {
    AlongSplit(a, b, ra, rb, InTurns(turns));
    AlongAll(a, ra, InTurns(turns), false);
    AlongAll(b, rb, InTurns(turns), true);
  }

  /** A log of chat of which only the second part is kept. */
  lemma {:induction false} KeepsSecond(
    cfg: Config, a: seq<Entry>, b: seq<Entry>, ra: seq<Stored.Record>, rb: seq<Stored.Record>, turns: set<string>)
    requires |a| == |ra| && |b| == |rb| && RecentTurns(ra + rb, cfg.keepTurns) == turns
    requires forall r :: r in ra + rb ==> IsChat(r)
    requires forall r :: r in ra ==> r.turn !in turns
    requires forall r :: r in rb ==> r.turn in turns
    ensures KeptEntries(cfg, a + b, ra + rb) == b
  {
    AllChat(cfg, a + b, ra + rb);
    OnlySecond(a, b, ra, rb, turns);
  }

  lemma ThreeTurnsShown(user: string, n: int)
    ensures SameLog(Older(user) + LastTurn(user, n), CompactionRuns.ThreeTurns(n))
  {}

  lemma ThreeTurnsEntries(user: string, n: int)
    ensures KeptEntries(CompactionLaws.CHATTY_CONFIG, Older(user) + LastTurn(user, n), CompactionRuns.ThreeTurns(n))
         == LastTurn(user, n)
  {
    var (older, kept) := (CompactionRuns.ThreeTurns(n)[..2], CompactionRuns.ThreeTurns(n)[2..]);
    CompactionRuns.ThreeTurnsDivide(n, older, kept);
    CompactionRuns.ThreeTurnsKept(n);
    KeepsSecond(CompactionLaws.CHATTY_CONFIG, Older(user), LastTurn(user, n), older, kept, {"t3"});
  }

  lemma {:induction false} AsksHaveNoLines(
    r: Rates, rule: Rule, users: map<string, string>, user: string, asks: seq<Entry>, rest: seq<Entry>)
    requires forall e :: e in asks ==> e.UserMessage?
    ensures AllLines(r, rule, users, user, asks + rest) == AllLines(r, rule, users, user, rest)
  {
    if asks == [] {
      assert asks + rest == rest;
    } else {
      assert asks[0] in asks && (asks + rest)[1..] == asks[1..] + rest;
      AsksHaveNoLines(r, rule, users, user, asks[1..], rest);
      assert AllLines(r, rule, users, user, asks + rest) == [] + AllLines(r, rule, users, user, asks[1..] + rest);
    }
  }

  /** The reply of the last turn is the user's, and it is not a blank record. */
  lemma {:induction false} LastTurnLines(r: Rates, rule: Rule, user: string, n: int, older: seq<Entry>)
    requires user != "" && forall e :: e in older ==> e.UserMessage?
    ensures SessionLines(r, rule, Session("s", older + LastTurn(user, n)), user)
         == if rule.AsBlank? then [] else LineOf(r, LastTurn(user, n)[1])
  {
    var (all, ask, reply) := (older + LastTurn(user, n), LastTurn(user, n)[0], LastTurn(user, n)[1]);
    var users := TurnUsers(all);
    TurnUsersAfter(older, ask, reply);
    assert LastTurn(user, n) == LastTurn(user, n) + [] == [ask, reply] + [];
    AskAndReply(r, rule, users, user, ask, reply, []);
    AsksHaveNoLines(r, rule, users, user, older, LastTurn(user, n));
    assert all[|older|] == ask;
  }

  lemma {:induction false} ReplyTotal(r: Rates, lines: seq<Line>, user: string, n: int)
    requires lines == LineOf(r, LastTurn(user, n)[1])
    ensures Total(lines, Always()).input == n
  {
    OneLine(lines[0], Always());
    assert lines == [lines[0]];
  }

  lemma {:induction false} OneSessionShown(r: Rates, s: Session, user: string)
    ensures Shown(r, [s], map[], user, Always()) == SessionTotal(r, s, user, Always())
  {
    var lines := SessionLines(r, ByReport, s, user);
    assert [s][1..] == [] && lines + [] == lines;
    assert LiveLines(r, [s], user) == lines;
    assert ArchiveOf(r, map[], user) == [];
  }

  lemma {:induction false} LastTurnTotals(r: Rates, user: string, n: int)
    requires user != ""
    ensures SessionTotal(r, Session("s", LastTurn(user, n)), user, Always()).input == n
    ensures Total(SessionLines(r, AsBlank, Session("s", Older(user) + LastTurn(user, n)), user), Always()) == ZERO
    ensures Shown(r, [Session("s", Older(user) + LastTurn(user, n))], map[], user, Always()).input == n
  {
    LastTurnLines(r, ByReport, user, n, []);
    LastTurnLines(r, ByReport, user, n, Older(user));
    LastTurnLines(r, AsBlank, user, n, Older(user));
    assert [] + LastTurn(user, n) == LastTurn(user, n);
    ReplyTotal(r, LineOf(r, LastTurn(user, n)[1]), user, n);
    OneSessionShown(r, Session("s", Older(user) + LastTurn(user, n)), user);
    NothingTotal(Always());
  }

  lemma PlusInput(a: Bucket, b: Bucket, n: int)
    requires a.input == n && b.input == n
    ensures Plus(a, Plus(b, ZERO)).input == 2 * n
  {}

  lemma {:induction false} Doubles(
    cfg: Config, log: seq<Stored.Record>, s: Summary, r: Rates, sessions: seq<Session>, id: string, user: string,
    window: int -> bool, n: int)
    requires user != "" && SessionIndex(sessions, id) < |sessions|
    requires SameLog(EntriesOf(sessions, id), log) && Compacted(cfg, log, s, true).Some?
    requires SessionTotal(r, Session(id, KeptEntries(cfg, EntriesOf(sessions, id), log)), user, window).input == n
    requires Total(SessionLines(r, AsBlank, Session(id, EntriesOf(sessions, id)), user), window) == ZERO
    requires Shown(r, sessions, map[], user, window).input == n
    ensures var (later, archive) := (CompactedEntries(cfg, EntriesOf(sessions, id), log),
                                     ArchivedFor(r, sessions, map[], id, user));
            && SameLog(later, Compacted(cfg, log, s, true).value)
            && Shown(r, Replaced(sessions, id, later), archive, user, window).input == 2 * n
  {
    KeptTurnsCountTwice(cfg, log, s, true, r, sessions, map[], id, user, window);
    PlusInput(Shown(r, sessions, map[], user, window),
              SessionTotal(r, Session(id, KeptEntries(cfg, EntriesOf(sessions, id), log)), user, window), n);
  }

  /**
   * An automatic compaction of three turns, the last of which spent `n` input tokens: before it the
   * user is shown `n`, after it twice as many.
   */
  lemma CompactionDoublesUsage(r: Rates, s: Summary, user: string, n: int)
    requires s.text.Some? && user != "" && n >= 100000
    ensures var (cfg, log) := (CompactionLaws.CHATTY_CONFIG, CompactionRuns.ThreeTurns(n));
            var sessions := [Session("s", Older(user) + LastTurn(user, n))];
            var later := CompactedEntries(cfg, Older(user) + LastTurn(user, n), log);
            && Triggers(cfg, log) && Compacted(cfg, log, s, true).Some?
            && SameLog(later, Compacted(cfg, log, s, true).value)
            && Shown(r, sessions, map[], user, Always()).input == n
            && Shown(r, Replaced(sessions, "s", later), ArchivedFor(r, sessions, map[], "s", user), user, Always()).input == 2 * n
  {
    var (cfg, log, entries) := (CompactionLaws.CHATTY_CONFIG, CompactionRuns.ThreeTurns(n), Older(user) + LastTurn(user, n));
    CompactionRuns.FigureSurvivesExample(n, s);
    ThreeTurnsShown(user, n);
    ThreeTurnsEntries(user, n);
    LastTurnTotals(r, user, n);
    var sessions := [Session("s", entries)];
    assert SessionIndex(sessions, "s") == 0 && EntriesOf(sessions, "s") == entries;
    Doubles(cfg, log, s, r, sessions, "s", user, Always(), n);
  }
}
