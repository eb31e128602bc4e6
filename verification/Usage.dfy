/** Token and cost totals over live sessions and the archive (src/assistant/channels/telegram/usage.py). */
module Usage {
  import opened Options
  import opened Sequences

  datatype Tokens = Tokens(input: int, output: int)

  /** The stored records that matter here; `day` counts days, an empty model means the default one. */
  datatype Entry =
    | UserMessage(turn: string, userId: Option<string>)
    | AssistantMessage(turn: string, userId: Option<string>, usage: Option<Tokens>, model: string, day: int)
    | OtherEntry

  datatype Session = Session(id: string, entries: seq<Entry>)

  /** One archived line. */
  datatype Line = Line(day: int, input: int, output: int, cost: real)

  datatype Bucket = Bucket(input: int, output: int, cost: real)

  const ZERO := Bucket(0, 0, 0.0)

  function Plus(a: Bucket, b: Bucket): Bucket {
    Bucket(a.input + b.input, a.output + b.output, a.cost + b.cost)
  }

  /**
   * What is not modelled: the price list, the chat id in a session id, and the file name made from a
   * user id.
   */
  datatype Rates = Rates(price: (int, int, string) -> real, chatOf: string -> Option<string>,
                         fileOf: string -> string, defaultModel: string)

  // ---------------------------------------------------------------- attribution

  predicate BelongsTo(r: Rates, s: Session, user: string) {
    || r.chatOf(s.id) == Some(user)
    || exists i :: 0 <= i < |s.entries| && s.entries[i].UserMessage? && s.entries[i].userId == Some(user)
  }

  /** The last non-empty user id of each turn. */
  function TurnUsers(entries: seq<Entry>): map<string, string> {
    if entries == [] then map[]
    else
      var (front, e) := (TurnUsers(entries[..|entries| - 1]), entries[|entries| - 1]);
      if e.UserMessage? && e.userId.Some? && e.userId.value != "" then front[e.turn := e.userId.value] else front
  }

  function TurnUser(users: map<string, string>, turn: string): Option<string> {
    if turn in users then Some(users[turn]) else None
  }

  /** Whose record the report takes it to be: the turn's only if the record names nobody. */
  function ReportOwner(users: map<string, string>, e: Entry): Option<string>
    requires e.AssistantMessage?
  {
    if e.userId.Some? then e.userId else TurnUser(users, e.turn)
  }

  /** Whose record the archive takes it to be: the turn's also if the record names "". */
  function ArchiveOwner(users: map<string, string>, e: Entry): Option<string>
    requires e.AssistantMessage?
  {
    if e.userId.Some? && e.userId.value != "" then e.userId else TurnUser(users, e.turn)
  }

  /** The line of a record with usage in it. */
  function LineOf(r: Rates, e: Entry): seq<Line> {
    if !e.AssistantMessage? || e.usage.None? || e.usage == Some(Tokens(0, 0)) then []
    else
      var (u, model) := (e.usage.value, if e.model == "" then r.defaultModel else e.model);
      [Line(e.day, u.input, u.output, r.price(u.input, u.output, model))]
  }

  /** How a record counts for a user: in the report, in the archive, or in the archive only. */
  datatype Rule = ByReport | ByArchive | AsBlank

  /** A blank record names "" as its user, in a turn of this user. */
  predicate Attributed(rule: Rule, users: map<string, string>, user: string, e: Entry)
    requires e.AssistantMessage?
  {
    match rule
    case ByReport => ReportOwner(users, e) == Some(user)
    case ByArchive => ArchiveOwner(users, e) == Some(user)
    case AsBlank => e.userId == Some("") && TurnUser(users, e.turn) == Some(user)
  }

  function EntryLines(r: Rates, rule: Rule, users: map<string, string>, user: string, e: Entry): seq<Line> {
    if e.AssistantMessage? && Attributed(rule, users, user, e) then LineOf(r, e) else []
  }

  function AllLines(r: Rates, rule: Rule, users: map<string, string>, user: string, entries: seq<Entry>): seq<Line> {
    if entries == [] then []
    else EntryLines(r, rule, users, user, entries[0]) + AllLines(r, rule, users, user, entries[1..])
  }

  function SessionLines(r: Rates, rule: Rule, s: Session, user: string): seq<Line> {
    if BelongsTo(r, s, user) then AllLines(r, rule, TurnUsers(s.entries), user, s.entries) else []
  }

  // ---------------------------------------------------------------- totals

  /** The sum of the lines whose day is in the window. */
  function Total(lines: seq<Line>, window: int -> bool): Bucket {
    if lines == [] then ZERO
    else
      var l := lines[|lines| - 1];
      var front := Total(lines[..|lines| - 1], window);
      if window(l.day) then Plus(front, Bucket(l.input, l.output, l.cost)) else front
  }

  function LiveLines(r: Rates, sessions: seq<Session>, user: string): seq<Line> {
    if sessions == [] then [] else SessionLines(r, ByReport, sessions[0], user) + LiveLines(r, sessions[1..], user)
  }

  type Archive = map<string, seq<Line>>

  function ArchiveOf(r: Rates, archive: Archive, user: string): seq<Line> {
    if r.fileOf(user) in archive then archive[r.fileOf(user)] else []
  }

  /** What the user sees for a window: live sessions first, then the archive. */
  function Shown(r: Rates, sessions: seq<Session>, archive: Archive, user: string, window: int -> bool): Bucket {
    Total(LiveLines(r, sessions, user) + ArchiveOf(r, archive, user), window)
  }

  function Today(today: int): int -> bool {
    (day: int) => day == today
  }

  function Since(monthStart: int): int -> bool {
    (day: int) => day >= monthStart
  }

  function Always(): int -> bool {
    (day: int) => true
  }

  function SessionIndex(sessions: seq<Session>, id: string): (i: nat)
    ensures i <= |sessions| && (i < |sessions| ==> sessions[i].id == id)
    ensures forall j :: 0 <= j < i ==> sessions[j].id != id
  {
    if sessions == [] || sessions[0].id == id then 0 else 1 + SessionIndex(sessions[1..], id)
  }

  function EntriesOf(sessions: seq<Session>, id: string): seq<Entry> {
    var i := SessionIndex(sessions, id);
    if i < |sessions| then sessions[i].entries else []
  }

  function Appended(archive: Archive, file: string, lines: seq<Line>): Archive {
    if lines == [] then archive
    else archive[file := (if file in archive then archive[file] else []) + lines]
  }

  // ---------------------------------------------------------------- loops

  method CollectTurnUsers(entries: seq<Entry>) returns (mapping: map<string, string>)
    ensures mapping == TurnUsers(entries)
  {
    mapping := map[];
    var i := 0;
    while i < |entries|
      invariant 0 <= i <= |entries|
      invariant mapping == TurnUsers(entries[..i])
    {
      var e := entries[i];
      assert entries[..i + 1][..i] == entries[..i];
      if e.UserMessage? && e.userId.Some? && e.userId.value != "" {
        mapping := mapping[e.turn := e.userId.value];
      }
      i := i + 1;
    }
    assert entries[..i] == entries;
  }

  method CollectArchiveLines(r: Rates, s: Session, user: string) returns (lines: seq<Line>)
    ensures lines == SessionLines(r, ByArchive, s, user)
  {
    lines := [];
    if !BelongsTo(r, s, user) {
      return;
    }
    var turnToUser := CollectTurnUsers(s.entries);
    var i := 0;
    while i < |s.entries|
      invariant 0 <= i <= |s.entries|
      invariant lines + AllLines(r, ByArchive, turnToUser, user, s.entries[i..]) == AllLines(r, ByArchive, turnToUser, user, s.entries)
    {
      var e := s.entries[i];
      assert s.entries[i..][1..] == s.entries[i + 1..];
      Assoc(lines, EntryLines(r, ByArchive, turnToUser, user, e), AllLines(r, ByArchive, turnToUser, user, s.entries[i + 1..]));
      lines := lines + EntryLines(r, ByArchive, turnToUser, user, e);
      i := i + 1;
    }
  }

  datatype Buckets = Buckets(session: Bucket, day: Bucket, month: Bucket)

  /** The three buckets over some lines; only the current session's lines go into its bucket. */
  function Sums(lines: seq<Line>, current: seq<Line>, today: int, monthStart: int): Buckets {
    Buckets(Total(current, Always()), Total(lines, Today(today)), Total(lines, Since(monthStart)))
  }

  function AddedTo(b: Buckets, l: Line, isCurrent: bool, today: int, monthStart: int): Buckets {
    var add := Bucket(l.input, l.output, l.cost);
    Buckets(if isCurrent then Plus(b.session, add) else b.session,
            if l.day == today then Plus(b.day, add) else b.day,
            if l.day >= monthStart then Plus(b.month, add) else b.month)
  }

  lemma {:induction false} SumsNext(
    before: seq<Line>, current: seq<Line>, l: Line, isCurrent: bool, today: int, monthStart: int)
    ensures Sums(before + [l], if isCurrent then current + [l] else current, today, monthStart)
         == AddedTo(Sums(before, current, today, monthStart), l, isCurrent, today, monthStart)
  {
    AddLine(before, l, Today(today));
    AddLine(before, l, Since(monthStart));
    AddLine(current, l, Always());
  }

  method AddLines(b: Buckets, lines: seq<Line>, isCurrent: bool, today: int, monthStart: int,
                  ghost before: seq<Line>, ghost current: seq<Line>)
    returns (sums: Buckets)
    requires b == Sums(before, current, today, monthStart)
    ensures sums == Sums(before + lines, if isCurrent then current + lines else current, today, monthStart)
  {
    sums := b;
    var i := 0;
    ghost var (done, mine) := (before, current);
    assert before + lines[..0] == before && current + lines[..0] == current;
    while i < |lines|
      invariant 0 <= i <= |lines|
      invariant done == before + lines[..i] && mine == if isCurrent then current + lines[..i] else current
      invariant sums == Sums(done, mine, today, monthStart)
    {
      var l := lines[i];
      var add := Bucket(l.input, l.output, l.cost);
      assert lines[..i + 1] == lines[..i] + [l];
      SumsNext(done, mine, l, isCurrent, today, monthStart);
      sums := Buckets(if isCurrent then Plus(sums.session, add) else sums.session,
                      if l.day == today then Plus(sums.day, add) else sums.day,
                      if l.day >= monthStart then Plus(sums.month, add) else sums.month);
      done, mine := done + [l], if isCurrent then mine + [l] else mine;
      i := i + 1;
    }
    assert lines[..i] == lines;
  }

  lemma {:induction false} AddLine(lines: seq<Line>, l: Line, window: int -> bool)
    ensures Total(lines + [l], window) == Next(lines, l, window)
  {
    assert (lines + [l])[..|lines|] == lines;
  }

  function Next(lines: seq<Line>, l: Line, window: int -> bool): Bucket {
    if window(l.day) then Plus(Total(lines, window), Bucket(l.input, l.output, l.cost)) else Total(lines, window)
  }

  /** The sessions of the store and the archive; without a directory nothing is archived. */
  class UsageStatsService {
    const rates: Rates
    const hasArchive: bool
    var sessions: seq<Session>
    var archive: Archive

    constructor (rates: Rates, hasArchive: bool, sessions: seq<Session>, archive: Archive)
      ensures this.rates == rates && this.hasArchive == hasArchive
      ensures this.sessions == sessions && this.archive == archive
    {
      this.rates, this.hasArchive, this.sessions, this.archive := rates, hasArchive, sessions, archive;
    }

    method ArchiveSessionUsage(id: string, user: string)
      modifies this`archive
      ensures var lines := SessionLines(rates, ByArchive, Session(id, EntriesOf(sessions, id)), user);
              archive == if hasArchive then Appended(old(archive), rates.fileOf(user), lines) else old(archive)
    {
      if !hasArchive {
        return;
      }
      var entries := EntriesOf(sessions, id);
      if entries == [] {
        return;
      }
      var lines := CollectArchiveLines(rates, Session(id, entries), user);
      if lines != [] {
        var file := rates.fileOf(user);
        archive := archive[file := (if file in archive then archive[file] else []) + lines];
      }
    }

    /** The archive as far as it is in use. */
    function Readable(): Archive
      reads this`archive
    {
      if hasArchive then archive else map[]
    }

    method BuildUsageResponse(user: string, current: string, today: int, monthStart: int) returns (sums: Buckets)
      requires forall i, j :: 0 <= i < j < |sessions| ==> sessions[i].id != sessions[j].id
      ensures sums.day == Shown(rates, sessions, Readable(), user, Today(today))
      ensures sums.month == Shown(rates, sessions, Readable(), user, Since(monthStart))
      ensures sums.session
           == Total(SessionLines(rates, ByReport, Session(current, EntriesOf(sessions, current)), user), Always())
    {
      sums := SumSessions(rates, sessions, user, current, today, monthStart);
      ghost var lines := LiveLines(rates, sessions, user);
      ghost var mine := SessionLines(rates, ByReport, Session(current, EntriesOf(sessions, current)), user);
      if hasArchive {
        sums := AddLines(sums, ArchiveOf(rates, archive, user), false, today, monthStart, lines, mine);
      } else {
        assert lines + [] == lines;
      }
    }
  }

  /** The current session's lines, once the loop over sessions has passed it. */
  ghost function MineSoFar(r: Rates, sessions: seq<Session>, current: string, user: string, i: nat): seq<Line> {
    if SessionIndex(sessions, current) < i then SessionLines(r, ByReport, Session(current, EntriesOf(sessions, current)), user)
    else []
  }

  lemma MineNext(r: Rates, sessions: seq<Session>, current: string, user: string, i: nat)
    requires i < |sessions| && forall i, j :: 0 <= i < j < |sessions| ==> sessions[i].id != sessions[j].id
    ensures MineSoFar(r, sessions, current, user, i + 1)
         == if sessions[i].id == current then MineSoFar(r, sessions, current, user, i) + SessionLines(r, ByReport, sessions[i], user)
            else MineSoFar(r, sessions, current, user, i)
  {
    if sessions[i].id == current {
      OnlySession(sessions, current, i);
      assert [] + SessionLines(r, ByReport, sessions[i], user) == SessionLines(r, ByReport, sessions[i], user);
    }
  }

  method SumSessions(r: Rates, sessions: seq<Session>, user: string, current: string, today: int, monthStart: int)
    returns (sums: Buckets)
    requires forall i, j :: 0 <= i < j < |sessions| ==> sessions[i].id != sessions[j].id
    ensures sums == Sums(LiveLines(r, sessions, user),
                         SessionLines(r, ByReport, Session(current, EntriesOf(sessions, current)), user), today, monthStart)
  {
    sums := Buckets(ZERO, ZERO, ZERO);
    ghost var lines: seq<Line> := [];
    var i := 0;
    while i < |sessions|
      invariant 0 <= i <= |sessions|
      invariant sums == Sums(lines, MineSoFar(r, sessions, current, user, i), today, monthStart)
      invariant lines + LiveLines(r, sessions[i..], user) == LiveLines(r, sessions, user)
    {
      var s := sessions[i];
      assert sessions[i..][1..] == sessions[i + 1..];
      Assoc(lines, SessionLines(r, ByReport, s, user), LiveLines(r, sessions[i + 1..], user));
      MineNext(r, sessions, current, user, i);
      sums := AddSession(r, s, user, s.id == current, today, monthStart, sums, lines,
                         MineSoFar(r, sessions, current, user, i));
      lines := lines + SessionLines(r, ByReport, s, user);
      i := i + 1;
    }
    NoSession(r, sessions, current, user);
    assert lines + [] == lines;
  }

  lemma {:induction false} OnlySession(sessions: seq<Session>, id: string, i: int)
    requires 0 <= i < |sessions| && sessions[i].id == id
    requires forall i, j :: 0 <= i < j < |sessions| ==> sessions[i].id != sessions[j].id
    ensures SessionIndex(sessions, id) == i && Session(id, EntriesOf(sessions, id)) == sessions[i]
  {}

  lemma {:induction false} NoSession(r: Rates, sessions: seq<Session>, id: string, user: string)
    ensures SessionIndex(sessions, id) == |sessions| ==>
              SessionLines(r, ByReport, Session(id, EntriesOf(sessions, id)), user) == []
  {}

  method AddSession(r: Rates, s: Session, user: string, isCurrent: bool, today: int, monthStart: int, b: Buckets,
                    ghost before: seq<Line>, ghost current: seq<Line>)
    returns (sums: Buckets)
    requires b == Sums(before, current, today, monthStart)
    ensures var lines := SessionLines(r, ByReport, s, user);
            sums == Sums(before + lines, if isCurrent then current + lines else current, today, monthStart)
  {
    sums := b;
    if !BelongsTo(r, s, user) {
      assert before + [] == before && current + [] == current;
      return;
    }
    var turnToUser := CollectTurnUsers(s.entries);
    ghost var all := AllLines(r, ByReport, turnToUser, user, s.entries);
    ghost var lines: seq<Line> := [];
    assert before + lines == before && current + lines == current;
    var i := 0;
    while i < |s.entries|
      invariant 0 <= i <= |s.entries|
      invariant lines + AllLines(r, ByReport, turnToUser, user, s.entries[i..]) == all
      invariant sums == Sums(before + lines, if isCurrent then current + lines else current, today, monthStart)
    {
      ghost var mine := EntryLines(r, ByReport, turnToUser, user, s.entries[i]);
      assert s.entries[i..][1..] == s.entries[i + 1..];
      Assoc(lines, mine, AllLines(r, ByReport, turnToUser, user, s.entries[i + 1..]));
      Assoc(before, lines, mine);
      Assoc(current, lines, mine);
      sums := AddLines(sums, EntryLines(r, ByReport, turnToUser, user, s.entries[i]), isCurrent, today, monthStart,
                       before + lines, if isCurrent then current + lines else current);
      lines := lines + mine;
      i := i + 1;
    }
    assert lines + [] == lines;
  }
}
