/** What the usage report and the archive count: whose records, with what tokens and cost, on which days. */
module UsageContents {
  import opened Options
  import opened Usage
  import UsageLaws

  /** The last message of the turn that names its user names this one. */
  ghost predicate LastAsker(entries: seq<Entry>, turn: string, user: string) {
    exists k :: AsksAt(entries, turn, user, k)
      && forall j, other :: k < j < |entries| ==> !AsksAt(entries, turn, other, j)
  }

  predicate AsksAt(entries: seq<Entry>, turn: string, user: string, k: int) {
    && 0 <= k < |entries| && entries[k].UserMessage? && entries[k].turn == turn
    && entries[k].userId == Some(user) && user != ""
  }

  lemma {:induction false} OneMoreEntry(front: seq<Entry>, e: Entry, turn: string, user: string)
    ensures var all := front + [e];
            LastAsker(all, turn, user) <==>
              if e.UserMessage? && e.turn == turn && e.userId.Some? && e.userId.value != "" then e.userId.value == user
              else LastAsker(front, turn, user)
  {
    var (all, n) := (front + [e], |front|);
    forall k, u | 0 <= k < n ensures AsksAt(all, turn, u, k) <==> AsksAt(front, turn, u, k) {
      assert all[k] == front[k];
    }
    var names := e.UserMessage? && e.turn == turn && e.userId.Some? && e.userId.value != "";
    assert all[n] == e;
    if names {
      assert AsksAt(all, turn, e.userId.value, n);
    } else {
      assert forall u :: !AsksAt(all, turn, u, n);
      if LastAsker(front, turn, user) {
        var k :| AsksAt(front, turn, user, k) && forall j, other :: k < j < n ==> !AsksAt(front, turn, other, j);
        assert AsksAt(all, turn, user, k);
      }
      if LastAsker(all, turn, user) {
        var k :| AsksAt(all, turn, user, k) && forall j, other :: k < j < |all| ==> !AsksAt(all, turn, other, j);
        assert k < n && AsksAt(front, turn, user, k);
        forall j, other | k < j < n ensures !AsksAt(front, turn, other, j) {
          assert !AsksAt(all, turn, other, j);
        }
      }
    }
  }

  /** A turn belongs to the last user its messages name. */
  lemma {:induction false} TurnUserIs(entries: seq<Entry>, turn: string, user: string)
    ensures TurnUser(TurnUsers(entries), turn) == Some(user) <==> LastAsker(entries, turn, user)
  {
    if entries != [] {
      var (front, e) := (entries[..|entries| - 1], entries[|entries| - 1]);
      assert entries == front + [e];
      TurnUserIs(front, turn, user);
      OneMoreEntry(front, e, turn, user);
    }
  }

  /** The line of a counted reply. */
  function LineFor(r: Rates, day: int, input: int, output: int, model: string): Line {
    Line(day, input, output, r.price(input, output, if model == "" then r.defaultModel else model))
  }

  /**
   * A reply counts in the report for the user it names, or for the turn's if it names none; in the
   * archive also for the turn's if it names the empty one.
   */
  lemma {:induction false} CountsFor(
    r: Rates, entries: seq<Entry>, user: string, turn: string, named: Option<string>, input: int, output: int,
    model: string, day: int)
    requires user != "" && (input != 0 || output != 0)
    ensures var (e, line) := (AssistantMessage(turn, named, Some(Tokens(input, output)), model, day), LineFor(r, day, input, output, model));
            && EntryLines(r, ByReport, TurnUsers(entries), user, e)
               == (if named == Some(user) || (named == None && LastAsker(entries, turn, user)) then [line] else [])
            && EntryLines(r, ByArchive, TurnUsers(entries), user, e)
               == (if named == Some(user) || (named in {None, Some("")} && LastAsker(entries, turn, user)) then [line] else [])
  {
    TurnUserIs(entries, turn, user);
  }

  /** Replies without usage, or with none but zeros, and other records count nowhere. */
  lemma CountsNowhere(r: Rates, rule: Rule, users: map<string, string>, user: string, e: Entry)
    requires e.AssistantMessage? ==> e.usage == None || e.usage == Some(Tokens(0, 0))
    ensures EntryLines(r, rule, users, user, e) == []
  {}

  /** A session counts for the user of its chat and for every user its messages name. */
  lemma BelongsIff(r: Rates, s: Session, user: string)
    ensures BelongsTo(r, s, user) <==>
              r.chatOf(s.id) == Some(user)
              || (exists e :: e in s.entries && e.UserMessage? && e.userId == Some(user))
    ensures !BelongsTo(r, s, user) ==> forall rule :: SessionLines(r, rule, s, user) == []
  {
    if e :| e in s.entries && e.UserMessage? && e.userId == Some(user) {
      var i :| 0 <= i < |s.entries| && s.entries[i] == e;
    }
  }

  lemma {:induction false} AllLinesAre(
    r: Rates, rule: Rule, users: map<string, string>, user: string, entries: seq<Entry>, i: int)
    requires 0 <= i < |entries|
    ensures AllLines(r, rule, users, user, entries)
         == AllLines(r, rule, users, user, entries[..i]) + EntryLines(r, rule, users, user, entries[i])
            + AllLines(r, rule, users, user, entries[i + 1..])
  {
    if i == 0 {
      assert entries[..0] == [];
      assert [] + EntryLines(r, rule, users, user, entries[0]) == EntryLines(r, rule, users, user, entries[0]);
    } else {
      AllLinesAre(r, rule, users, user, entries[1..], i - 1);
      assert entries[..i][1..] == entries[1..][..i - 1] && entries[..i] != [];
      assert entries[1..][i..] == entries[i + 1..];
      AllLinesFirst(r, rule, users, user, entries, i);
    }
  }

  lemma {:induction false} AllLinesFirst(
    r: Rates, rule: Rule, users: map<string, string>, user: string, entries: seq<Entry>, i: int)
    requires 0 < i < |entries|
    requires AllLines(r, rule, users, user, entries[1..])
          == AllLines(r, rule, users, user, entries[..i][1..]) + EntryLines(r, rule, users, user, entries[i])
             + AllLines(r, rule, users, user, entries[i + 1..])
    ensures AllLines(r, rule, users, user, entries)
         == AllLines(r, rule, users, user, entries[..i]) + EntryLines(r, rule, users, user, entries[i])
            + AllLines(r, rule, users, user, entries[i + 1..])
  {
    assert entries[..i][0] == entries[0];
  }

  // ---------------------------------------------------------------- sums and windows

  /** A total adds up the lines of the days in its window. */
  lemma {:induction false} TotalAdds(line: Line, rest: seq<Line>, window: int -> bool)
    ensures Total([], window) == Bucket(0, 0, 0.0)
    ensures var t := Total(rest, window);
            Total([line] + rest, window)
            == if window(line.day) then Bucket(line.input + t.input, line.output + t.output, line.cost + t.cost) else t
  {
    UsageLaws.OneLine(line, window);
    UsageLaws.TotalSplit([line], rest, window);
  }

  /** Today is one day, this month all days from its first on, a session has no window. */
  lemma WindowsAre(today: int, monthStart: int, day: int)
    ensures Today(today)(day) <==> day == today
    ensures Since(monthStart)(day) <==> day >= monthStart
    ensures Always()(day)
  {}
}
