/** Totals across /reset and compaction: what archiving a session conserves, and what it counts twice. */
module UsageLaws {
  import opened Options
  import opened Usage

  // ---------------------------------------------------------------- sums of buckets

  lemma PlusZero(a: Bucket)
    ensures Plus(ZERO, a) == a && Plus(a, ZERO) == a
  {
    assert a == Bucket(a.input, a.output, a.cost);
  }

  lemma {:induction false} TotalSplit(a: seq<Line>, b: seq<Line>, window: int -> bool)
    ensures Total(a + b, window) == Plus(Total(a, window), Total(b, window))
  {
    if b == [] {
      assert a + b == a;
    } else {
      var n := |b| - 1;
      assert (a + b)[..|a + b| - 1] == a + b[..n];
      TotalSplit(a, b[..n], window);
    }
  }

  function EntryTotal(r: Rates, rule: Rule, users: map<string, string>, user: string, e: Entry, window: int -> bool)
    : Bucket
  {
    Total(EntryLines(r, rule, users, user, e), window)
  }

  function EntriesTotal(
    r: Rates, rule: Rule, users: map<string, string>, user: string, entries: seq<Entry>, window: int -> bool): Bucket
  {
    if entries == [] then ZERO
    else Plus(EntryTotal(r, rule, users, user, entries[0], window),
              EntriesTotal(r, rule, users, user, entries[1..], window))
  }

  lemma {:induction false} LinesTotal(
    r: Rates, rule: Rule, users: map<string, string>, user: string, entries: seq<Entry>, window: int -> bool)
    ensures Total(AllLines(r, rule, users, user, entries), window)
         == EntriesTotal(r, rule, users, user, entries, window)
  {
    if entries != [] {
      LinesTotal(r, rule, users, user, entries[1..], window);
      TotalSplit(EntryLines(r, rule, users, user, entries[0]), AllLines(r, rule, users, user, entries[1..]), window);
    }
  }

  /** A record the archive takes is either one the report takes too or a blank one. */
  lemma ArchivedEitherWay(r: Rates, users: map<string, string>, user: string, e: Entry)
    requires user != ""
    ensures EitherWay(EntryLines(r, ByArchive, users, user, e), EntryLines(r, ByReport, users, user, e),
                      EntryLines(r, AsBlank, users, user, e))
  {}

  predicate EitherWay(a: seq<Line>, b: seq<Line>, c: seq<Line>) {
    (a == b && c == []) || (a == c && b == [])
  }

  lemma {:induction false} TotalEitherWay(a: seq<Line>, b: seq<Line>, c: seq<Line>, window: int -> bool)
    requires EitherWay(a, b, c)
    ensures Total(a, window) == Plus(Total(b, window), Total(c, window))
  {
    PlusZero(Total(a, window));
  }

  lemma OneArchived(r: Rates, users: map<string, string>, user: string, e: Entry, window: int -> bool)
    requires user != ""
    ensures EntryTotal(r, ByArchive, users, user, e, window)
         == Plus(EntryTotal(r, ByReport, users, user, e, window), EntryTotal(r, AsBlank, users, user, e, window))
  {
    ArchivedEitherWay(r, users, user, e);
    TotalEitherWay(EntryLines(r, ByArchive, users, user, e), EntryLines(r, ByReport, users, user, e),
                   EntryLines(r, AsBlank, users, user, e), window);
  }

  lemma {:induction false} EntriesFirst(
    r: Rates, rule: Rule, users: map<string, string>, user: string, entries: seq<Entry>, window: int -> bool)
    requires entries != []
    ensures EntriesTotal(r, rule, users, user, entries, window)
         == Plus(EntryTotal(r, rule, users, user, entries[0], window),
                 EntriesTotal(r, rule, users, user, entries[1..], window))
  {}

  lemma Combine(a: Bucket, b: Bucket, c: Bucket, a': Bucket, b': Bucket, c': Bucket)
    requires a == Plus(b, c) && a' == Plus(b', c')
    ensures Plus(a, a') == Plus(Plus(b, b'), Plus(c, c'))
  {}

  /** The archive counts what the report counts and the blank records besides. */
  lemma {:induction false} ArchivedIsReportedAndBlank(
    r: Rates, users: map<string, string>, user: string, entries: seq<Entry>, window: int -> bool)
    requires user != ""
    ensures EntriesTotal(r, ByArchive, users, user, entries, window)
         == Plus(EntriesTotal(r, ByReport, users, user, entries, window),
                 EntriesTotal(r, AsBlank, users, user, entries, window))
  {
    if entries == [] {
      PlusZero(ZERO);
    } else {
      var (e, rest) := (entries[0], entries[1..]);
      ArchivedIsReportedAndBlank(r, users, user, rest, window);
      OneArchived(r, users, user, e, window);
      EntriesFirst(r, ByArchive, users, user, entries, window);
      EntriesFirst(r, ByReport, users, user, entries, window);
      EntriesFirst(r, AsBlank, users, user, entries, window);
      var (a, b, c) := (EntryTotal(r, ByArchive, users, user, e, window), EntryTotal(r, ByReport, users, user, e, window),
                        EntryTotal(r, AsBlank, users, user, e, window));
      Combine(a, b, c, EntriesTotal(r, ByArchive, users, user, rest, window),
              EntriesTotal(r, ByReport, users, user, rest, window),
              EntriesTotal(r, AsBlank, users, user, rest, window));
    }
  }

  lemma {:induction false} AllArchivedTotal(
    r: Rates, users: map<string, string>, user: string, entries: seq<Entry>, window: int -> bool)
    requires user != ""
    ensures Total(AllLines(r, ByArchive, users, user, entries), window)
         == Plus(Total(AllLines(r, ByReport, users, user, entries), window),
                 Total(AllLines(r, AsBlank, users, user, entries), window))
  {
    LinesTotal(r, ByReport, users, user, entries, window);
    LinesTotal(r, ByArchive, users, user, entries, window);
    LinesTotal(r, AsBlank, users, user, entries, window);
    ArchivedIsReportedAndBlank(r, users, user, entries, window);
  }

  lemma {:induction false} OwnLines(r: Rates, rule: Rule, s: Session, user: string)
    requires BelongsTo(r, s, user)
    ensures SessionLines(r, rule, s, user) == AllLines(r, rule, TurnUsers(s.entries), user, s.entries)
  {}

  lemma NothingTotal(window: int -> bool)
    ensures Total([], window) == ZERO && Plus(ZERO, ZERO) == ZERO
  {}

  lemma {:induction false} ArchiveTotal(r: Rates, s: Session, user: string, window: int -> bool)
    requires user != ""
    ensures Total(SessionLines(r, ByArchive, s, user), window)
         == Plus(Total(SessionLines(r, ByReport, s, user), window), Total(SessionLines(r, AsBlank, s, user), window))
  {
    if BelongsTo(r, s, user) {
      OwnLines(r, ByArchive, s, user);
      OwnLines(r, ByReport, s, user);
      OwnLines(r, AsBlank, s, user);
      AllArchivedTotal(r, TurnUsers(s.entries), user, s.entries, window);
    } else {
      NothingTotal(window);
    }
  }

  // ---------------------------------------------------------------- replacing a session

  /** The sessions with new records in one of them; none at all means the session is gone. */
  function Replaced(sessions: seq<Session>, id: string, entries: seq<Entry>): seq<Session> {
    if sessions == [] then []
    else if sessions[0].id == id then (if entries == [] then [] else [Session(id, entries)]) + sessions[1..]
    else [sessions[0]] + Replaced(sessions[1..], id, entries)
  }

  function SessionTotal(r: Rates, s: Session, user: string, window: int -> bool): Bucket {
    Total(SessionLines(r, ByReport, s, user), window)
  }

  function LiveTotal(r: Rates, sessions: seq<Session>, user: string, window: int -> bool): Bucket {
    if sessions == [] then ZERO
    else Plus(SessionTotal(r, sessions[0], user, window), LiveTotal(r, sessions[1..], user, window))
  }

  lemma {:induction false} LiveLinesTotal(r: Rates, sessions: seq<Session>, user: string, window: int -> bool)
    ensures Total(LiveLines(r, sessions, user), window) == LiveTotal(r, sessions, user, window)
  {
    if sessions != [] {
      LiveLinesTotal(r, sessions[1..], user, window);
      TotalSplit(SessionLines(r, ByReport, sessions[0], user), LiveLines(r, sessions[1..], user), window);
    }
  }

  lemma NoEntries(r: Rates, id: string, user: string, window: int -> bool)
    ensures SessionTotal(r, Session(id, []), user, window) == ZERO
  {}

  lemma {:induction false} LiveFirst(r: Rates, s: Session, rest: seq<Session>, user: string, window: int -> bool)
    ensures LiveTotal(r, [s] + rest, user, window)
         == Plus(SessionTotal(r, s, user, window), LiveTotal(r, rest, user, window))
  {
    assert ([s] + rest)[1..] == rest;
  }

  lemma {:induction false} ReplacedIs(sessions: seq<Session>, id: string, entries: seq<Entry>)
    requires sessions != []
    ensures Replaced(sessions, id, entries)
         == if sessions[0].id != id then [sessions[0]] + Replaced(sessions[1..], id, entries)
            else if entries == [] then sessions[1..]
            else [Session(id, entries)] + sessions[1..]
  {
    assert [] + sessions[1..] == sessions[1..];
  }

  lemma {:induction false} ReplacedFirst(
    r: Rates, sessions: seq<Session>, id: string, entries: seq<Entry>, user: string, window: int -> bool)
    requires sessions != [] && sessions[0].id == id
    ensures LiveTotal(r, Replaced(sessions, id, entries), user, window)
         == Plus(SessionTotal(r, Session(id, entries), user, window), LiveTotal(r, sessions[1..], user, window))
  {
    ReplacedIs(sessions, id, entries);
    if entries == [] {
      NoEntries(r, id, user, window);
      PlusZero(LiveTotal(r, sessions[1..], user, window));
    } else {
      LiveFirst(r, Session(id, entries), sessions[1..], user, window);
    }
  }

  lemma Swap(a: Bucket, b: Bucket, c: Bucket)
    ensures Plus(Plus(a, b), c) == Plus(Plus(c, b), a)
  {}

  lemma Shift(first: Bucket, after: Bucket, gone: Bucket, live: Bucket, added: Bucket)
    requires Plus(after, gone) == Plus(live, added)
    ensures Plus(Plus(first, after), gone) == Plus(Plus(first, live), added)
  {}

  lemma {:induction false} ReplacedTotal(
    r: Rates, sessions: seq<Session>, id: string, entries: seq<Entry>, user: string, window: int -> bool)
    requires SessionIndex(sessions, id) < |sessions|
    ensures Plus(LiveTotal(r, Replaced(sessions, id, entries), user, window),
                 SessionTotal(r, Session(id, EntriesOf(sessions, id)), user, window))
         == Plus(LiveTotal(r, sessions, user, window), SessionTotal(r, Session(id, entries), user, window))
  {
    var (first, rest) := (sessions[0], sessions[1..]);
    if first.id == id {
      ReplacedFirst(r, sessions, id, entries, user, window);
      assert first == Session(id, EntriesOf(sessions, id));
      Swap(SessionTotal(r, Session(id, entries), user, window), LiveTotal(r, rest, user, window),
           SessionTotal(r, first, user, window));
    } else {
      ReplacedTotal(r, rest, id, entries, user, window);
      ReplacedIs(sessions, id, entries);
      LiveFirst(r, first, Replaced(rest, id, entries), user, window);
      assert EntriesOf(sessions, id) == EntriesOf(rest, id);
      Shift(SessionTotal(r, first, user, window), LiveTotal(r, Replaced(rest, id, entries), user, window),
            SessionTotal(r, Session(id, EntriesOf(sessions, id)), user, window), LiveTotal(r, rest, user, window),
            SessionTotal(r, Session(id, entries), user, window));
    }
  }

  /** The archive after the session's usage was archived for `user`. */
  function ArchivedFor(r: Rates, sessions: seq<Session>, archive: Archive, id: string, user: string): Archive {
    Appended(archive, r.fileOf(user), SessionLines(r, ByArchive, Session(id, EntriesOf(sessions, id)), user))
  }

  lemma {:induction false} AppendedLines(r: Rates, archive: Archive, user: string, lines: seq<Line>)
    ensures ArchiveOf(r, Appended(archive, r.fileOf(user), lines), user) == ArchiveOf(r, archive, user) + lines
  {}

  lemma {:induction false} AppendedTotal(r: Rates, archive: Archive, user: string, lines: seq<Line>, window: int -> bool)
    ensures Total(ArchiveOf(r, Appended(archive, r.fileOf(user), lines), user), window)
         == Plus(Total(ArchiveOf(r, archive, user), window), Total(lines, window))
  {
    AppendedLines(r, archive, user, lines);
    TotalSplit(ArchiveOf(r, archive, user), lines, window);
  }

  lemma {:induction false} ShownTotal(r: Rates, sessions: seq<Session>, archive: Archive, user: string, window: int -> bool)
    ensures Shown(r, sessions, archive, user, window)
         == Plus(LiveTotal(r, sessions, user, window), Total(ArchiveOf(r, archive, user), window))
  {
    LiveLinesTotal(r, sessions, user, window);
    TotalSplit(LiveLines(r, sessions, user), ArchiveOf(r, archive, user), window);
  }

  /** The arithmetic: `live` loses `gone` and gains `added`, the archive gains `gone` and `blank`. */
  lemma Balance(live: Bucket, live': Bucket, archived: Bucket, gone: Bucket, added: Bucket, blank: Bucket)
    requires Plus(live', gone) == Plus(live, added)
    ensures Plus(live', Plus(archived, Plus(gone, blank))) == Plus(Plus(live, archived), Plus(added, blank))
  {}

  /**
   * Archiving a session and then giving it new records moves the user's totals by exactly what the
   * new records report and by the blank records the archive counts and the report does not.
   */
  lemma {:induction false} ArchiveThenReplace(
    r: Rates, sessions: seq<Session>, archive: Archive, id: string, user: string, entries: seq<Entry>,
    window: int -> bool)
    requires user != "" && SessionIndex(sessions, id) < |sessions|
    ensures Shown(r, Replaced(sessions, id, entries), ArchivedFor(r, sessions, archive, id, user), user, window)
         == Plus(Shown(r, sessions, archive, user, window),
                 Plus(SessionTotal(r, Session(id, entries), user, window),
                      Total(SessionLines(r, AsBlank, Session(id, EntriesOf(sessions, id)), user), window)))
  {
    var before := Session(id, EntriesOf(sessions, id));
    ShownTotal(r, sessions, archive, user, window);
    ShownTotal(r, Replaced(sessions, id, entries), ArchivedFor(r, sessions, archive, id, user), user, window);
    ReplacedTotal(r, sessions, id, entries, user, window);
    AppendedTotal(r, archive, user, SessionLines(r, ByArchive, before, user), window);
    ArchiveTotal(r, before, user, window);
    Balance(LiveTotal(r, sessions, user, window), LiveTotal(r, Replaced(sessions, id, entries), user, window),
            Total(ArchiveOf(r, archive, user), window), SessionTotal(r, before, user, window),
            SessionTotal(r, Session(id, entries), user, window), Total(SessionLines(r, AsBlank, before, user), window));
  }

  // ---------------------------------------------------------------- reset

  ghost predicate NonNegative(entries: seq<Entry>) {
    forall i :: 0 <= i < |entries| && entries[i].AssistantMessage? && entries[i].usage.Some? ==>
      entries[i].usage.value.input >= 0 && entries[i].usage.value.output >= 0
  }

  /** Does the archive attribute this record to the user while the report does not? */
  predicate IsBlank(users: map<string, string>, user: string, e: Entry, window: int -> bool) {
    && e.AssistantMessage? && e.userId == Some("") && TurnUser(users, e.turn) == Some(user)
    && e.usage.Some? && e.usage != Some(Tokens(0, 0)) && window(e.day)
  }

  /** A sum of non-negative token counts. */
  predicate IsCount(b: Bucket) {
    b.input >= 0 && b.output >= 0 && (b.input == 0 && b.output == 0 ==> b == ZERO)
  }

  lemma OneLine(l: Line, window: int -> bool)
    ensures Total([l], window) == if window(l.day) then Bucket(l.input, l.output, l.cost) else ZERO
  {
    assert [l][..0] == [];
    PlusZero(Bucket(l.input, l.output, l.cost));
  }

  lemma OneBlank(r: Rates, users: map<string, string>, user: string, e: Entry, window: int -> bool)
    requires e.AssistantMessage? && e.usage.Some? ==> e.usage.value.input >= 0 && e.usage.value.output >= 0
    ensures IsCount(EntryTotal(r, AsBlank, users, user, e, window))
    ensures EntryTotal(r, AsBlank, users, user, e, window) == ZERO <==> !IsBlank(users, user, e, window)
  {
    if e.AssistantMessage? && LineOf(r, e) != [] {
      OneLine(LineOf(r, e)[0], window);
    }
  }

  lemma CountsAdd(a: Bucket, b: Bucket)
    requires IsCount(a) && IsCount(b)
    ensures IsCount(Plus(a, b)) && (Plus(a, b) == ZERO <==> a == ZERO && b == ZERO)
  {}

  predicate NoneBlank(users: map<string, string>, user: string, entries: seq<Entry>, window: int -> bool) {
    forall i :: 0 <= i < |entries| ==> !IsBlank(users, user, entries[i], window)
  }

  lemma NoneBlankFirst(users: map<string, string>, user: string, entries: seq<Entry>, window: int -> bool)
    requires entries != []
    ensures NoneBlank(users, user, entries, window) <==>
              !IsBlank(users, user, entries[0], window) && NoneBlank(users, user, entries[1..], window)
  {
    assert forall i :: 0 <= i < |entries[1..]| ==> entries[1..][i] == entries[i + 1];
    assert forall i :: 0 < i < |entries| ==> entries[i] == entries[1..][i - 1];
  }

  lemma {:induction false} BlankCounts(
    r: Rates, users: map<string, string>, user: string, entries: seq<Entry>, window: int -> bool)
    requires NonNegative(entries)
    ensures IsCount(EntriesTotal(r, AsBlank, users, user, entries, window))
    ensures EntriesTotal(r, AsBlank, users, user, entries, window) == ZERO <==> NoneBlank(users, user, entries, window)
  {
    if entries != [] {
      BlankCounts(r, users, user, entries[1..], window);
      OneBlank(r, users, user, entries[0], window);
      NoneBlankFirst(users, user, entries, window);
      EntriesFirst(r, AsBlank, users, user, entries, window);
      CountsAdd(EntryTotal(r, AsBlank, users, user, entries[0], window),
                EntriesTotal(r, AsBlank, users, user, entries[1..], window));
    }
  }

  lemma Unmoved(a: Bucket, b: Bucket)
    ensures Plus(a, b) == a <==> b == ZERO
  {
    if Plus(a, b) == a {
      assert b.input == 0 && b.output == 0 && b.cost == 0.0;
    }
  }

  lemma BlankTotal(r: Rates, s: Session, user: string, window: int -> bool)
    requires NonNegative(s.entries)
    ensures Total(SessionLines(r, AsBlank, s, user), window) == ZERO <==>
              !BelongsTo(r, s, user) || NoneBlank(TurnUsers(s.entries), user, s.entries, window)
  {
    if BelongsTo(r, s, user) {
      LinesTotal(r, AsBlank, TurnUsers(s.entries), user, s.entries, window);
      BlankCounts(r, TurnUsers(s.entries), user, s.entries, window);
    }
  }

  lemma {:induction false} ResetMoves(
    r: Rates, sessions: seq<Session>, archive: Archive, id: string, user: string, window: int -> bool)
    requires user != "" && SessionIndex(sessions, id) < |sessions|
    ensures var blank := Total(SessionLines(r, AsBlank, Session(id, EntriesOf(sessions, id)), user), window);
            var after := Shown(r, Replaced(sessions, id, []), ArchivedFor(r, sessions, archive, id, user), user, window);
            after == Plus(Shown(r, sessions, archive, user, window), blank)
  {
    ArchiveThenReplace(r, sessions, archive, id, user, [], window);
    NoEntries(r, id, user, window);
    PlusZero(Total(SessionLines(r, AsBlank, Session(id, EntriesOf(sessions, id)), user), window));
  }

  /**
   * Archiving and then clearing a session leaves the user's totals as they were, tokens and cost,
   * exactly when the session is not the user's or has no record in the window that names "" as its
   * user in a turn of this user.
   */
  lemma {:induction false} ResetConserves(
    r: Rates, sessions: seq<Session>, archive: Archive, id: string, user: string, window: int -> bool)
    requires user != "" && SessionIndex(sessions, id) < |sessions| && NonNegative(EntriesOf(sessions, id))
    ensures var (s, archive') := (Session(id, EntriesOf(sessions, id)), ArchivedFor(r, sessions, archive, id, user));
            Shown(r, Replaced(sessions, id, []), archive', user, window) == Shown(r, sessions, archive, user, window)
            <==> !BelongsTo(r, s, user) || NoneBlank(TurnUsers(s.entries), user, s.entries, window)
  {
    var s := Session(id, EntriesOf(sessions, id));
    var archive' := ArchivedFor(r, sessions, archive, id, user);
    var (before, blank) := (Shown(r, sessions, archive, user, window), Total(SessionLines(r, AsBlank, s, user), window));
    BlankTotal(r, s, user, window);
    Unmoved(before, blank);
    ResetMoves(r, sessions, archive, id, user, window);
  }

  /** For another user the totals drop by whatever the cleared session reported for them. */
  lemma {:induction false} ResetLosesOthers(
    r: Rates, sessions: seq<Session>, archive: Archive, id: string, owner: string, user: string, window: int -> bool)
    requires SessionIndex(sessions, id) < |sessions| && r.fileOf(owner) != r.fileOf(user)
    ensures var after := Shown(r, Replaced(sessions, id, []), ArchivedFor(r, sessions, archive, id, owner), user, window);
            var lost := SessionTotal(r, Session(id, EntriesOf(sessions, id)), user, window);
            Plus(after, lost) == Shown(r, sessions, archive, user, window)
  {
    var archive' := ArchivedFor(r, sessions, archive, id, owner);
    assert ArchiveOf(r, archive', user) == ArchiveOf(r, archive, user);
    ShownTotal(r, sessions, archive, user, window);
    ShownTotal(r, Replaced(sessions, id, []), archive', user, window);
    ReplacedTotal(r, sessions, id, [], user, window);
    NoEntries(r, id, user, window);
    Moved(LiveTotal(r, Replaced(sessions, id, []), user, window), Total(ArchiveOf(r, archive, user), window),
          SessionTotal(r, Session(id, EntriesOf(sessions, id)), user, window), LiveTotal(r, sessions, user, window));
  }

  lemma Moved(live': Bucket, archived: Bucket, gone: Bucket, live: Bucket)
    requires Plus(live', gone) == Plus(live, ZERO)
    ensures Plus(Plus(live', archived), gone) == Plus(live, archived)
  {}

  // ---------------------------------------------------------------- two resets that do not conserve

  lemma {:induction false} AskAndReply(
    r: Rates, rule: Rule, users: map<string, string>, user: string, ask: Entry, reply: Entry, rest: seq<Entry>)
    requires ask.UserMessage?
    ensures AllLines(r, rule, users, user, [ask, reply] + rest)
         == EntryLines(r, rule, users, user, reply) + AllLines(r, rule, users, user, rest)
  {
    var entries := [ask, reply] + rest;
    assert entries[1..] == [reply] + rest && entries[1..][1..] == rest;
    assert AllLines(r, rule, users, user, entries) == [] + AllLines(r, rule, users, user, entries[1..]);
  }

  lemma {:induction false} TurnUsersAfter(entries: seq<Entry>, ask: Entry, reply: Entry)
    requires ask.UserMessage? && ask.userId.Some? && ask.userId.value != "" && reply.AssistantMessage?
    ensures TurnUsers(entries + [ask, reply]) == TurnUsers(entries)[ask.turn := ask.userId.value]
  {
    var all := entries + [ask, reply];
    assert all[..|all| - 1] == entries + [ask];
    assert (entries + [ask])[..|entries|] == entries;
  }

  /** The reply of Ann's turn names "" as its user. */
  const BLANK_TURN := [UserMessage("t", Some("ann")), AssistantMessage("t", Some(""), Some(Tokens(5, 7)), "", 0)]

  lemma BlankTurnLines(r: Rates, rule: Rule)
    ensures SessionLines(r, rule, Session("s", BLANK_TURN), "ann")
         == if rule.ByReport? then [] else LineOf(r, BLANK_TURN[1])
  {
    var (ask, reply) := (BLANK_TURN[0], BLANK_TURN[1]);
    assert [] + BLANK_TURN == BLANK_TURN == BLANK_TURN + [] && TurnUsers([]) == map[];
    TurnUsersAfter([], ask, reply);
    AskAndReply(r, rule, TurnUsers(BLANK_TURN), "ann", ask, reply, []);
    assert BelongsTo(r, Session("s", BLANK_TURN), "ann");
  }

  /** Ann's 5 input tokens appear in her totals only when she resets the session. */
  lemma BlankReplyAppears(r: Rates)
    ensures var sessions := [Session("s", BLANK_TURN)];
            && Shown(r, sessions, map[], "ann", Always()) == ZERO
            && Shown(r, Replaced(sessions, "s", []), ArchivedFor(r, sessions, map[], "s", "ann"), "ann", Always())
               == Bucket(5, 7, r.price(5, 7, r.defaultModel))
  {
    var sessions := [Session("s", BLANK_TURN)];
    BlankTurnLines(r, ByReport);
    BlankTurnLines(r, ByArchive);
    assert EntriesOf(sessions, "s") == BLANK_TURN && LiveLines(r, sessions, "ann") == [];
    OneLine(LineOf(r, BLANK_TURN[1])[0], Always());
  }

  /** A turn of Ann's and one of Bob's in one group session. */
  const GROUP := [UserMessage("t", Some("ann")), AssistantMessage("t", None, Some(Tokens(3, 3)), "", 0)]
  const GROUP_REST := [UserMessage("u", Some("bob")), AssistantMessage("u", None, Some(Tokens(5, 7)), "", 0)]

  lemma GroupLines(r: Rates)
    ensures SessionLines(r, ByReport, Session("s", GROUP + GROUP_REST), "bob") == LineOf(r, GROUP_REST[1])
  {
    var (all, users) := (GROUP + GROUP_REST, TurnUsers(GROUP + GROUP_REST));
    TurnUsersAfter(GROUP, GROUP_REST[0], GROUP_REST[1]);
    TurnUsersAfter([], GROUP[0], GROUP[1]);
    assert [] + GROUP == GROUP && TurnUsers([]) == map[] && "t"[0] != "u"[0] && "ann"[0] != "bob"[0];
    AskAndReply(r, ByReport, users, "bob", GROUP[0], GROUP[1], GROUP_REST);
    AskAndReply(r, ByReport, users, "bob", GROUP_REST[0], GROUP_REST[1], []);
    assert GROUP_REST + [] == GROUP_REST;
    assert all[2] == GROUP_REST[0];
  }

  /** Ann resets the session, and Bob's 5 input tokens are gone from his totals. */
  lemma GroupResetLosesBob(r: Rates)
    requires r.fileOf("ann") != r.fileOf("bob")
    ensures var sessions := [Session("s", GROUP + GROUP_REST)];
            && Shown(r, sessions, map[], "bob", Always()) == Bucket(5, 7, r.price(5, 7, r.defaultModel))
            && Shown(r, Replaced(sessions, "s", []), ArchivedFor(r, sessions, map[], "s", "ann"), "bob", Always()) == ZERO
  {
    var sessions := [Session("s", GROUP + GROUP_REST)];
    GroupLines(r);
    assert EntriesOf(sessions, "s") == GROUP + GROUP_REST;
    assert LiveLines(r, sessions, "bob") == LineOf(r, GROUP_REST[1]);
    OneLine(LineOf(r, GROUP_REST[1])[0], Always());
  }
}
