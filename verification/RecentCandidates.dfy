/** The fallback of retrieval: when nothing is selected, the most recently used artifacts. */
module RecentCandidates {
  import opened MemoryIndex
  import opened IndexLaws
  import opened RecencyOrder
  import opened Retrieval
  import IndexRuns

  ghost predicate EntryIdsDistinct(entries: seq<Entry>) {
    forall i, j :: 0 <= i < j < |entries| ==> entries[i].id != entries[j].id
  }

  lemma {:induction false} InsertKeepsIds(sorted: seq<Entry>, e: Entry)
    requires EntryIdsDistinct(sorted) && forall x :: x in sorted ==> x.id != e.id
    ensures EntryIdsDistinct(Insert(sorted, e))
    ensures |Insert(sorted, e)| == |sorted| + 1 && forall x :: x in Insert(sorted, e) <==> x in sorted || x == e
  {
    if sorted != [] {
      var (first, rest) := (sorted[0], sorted[1..]);
      assert forall x :: x in sorted <==> x == first || x in rest;
      assert forall x :: x in rest ==> x.id != first.id;
      if first.stamp >= e.stamp {
        assert forall i, j :: 0 <= i < j < |rest| ==> rest[i] == sorted[i + 1] && rest[j] == sorted[j + 1];
        InsertKeepsIds(rest, e);
        FirstIsNew(first, Insert(rest, e));
      } else {
        FirstIsNew(e, sorted);
      }
    }
  }

  lemma FirstIsNew(first: Entry, rest: seq<Entry>)
    requires EntryIdsDistinct(rest) && forall x :: x in rest ==> x.id != first.id
    ensures EntryIdsDistinct([first] + rest)
  {
    var all := [first] + rest;
    forall i, j | 0 <= i < j < |all| ensures all[i].id != all[j].id {
      assert all[j] == rest[j - 1] && all[j] in rest;
      assert i > 0 ==> all[i] == rest[i - 1];
    }
  }

  lemma {:induction false} SortKeepsIds(entries: seq<Entry>)
    requires EntryIdsDistinct(entries)
    ensures EntryIdsDistinct(SortByRecency(entries)) && |SortByRecency(entries)| == |entries|
    ensures forall x :: x in SortByRecency(entries) <==> x in entries
  {
    if entries != [] {
      var (front, last) := (entries[..|entries| - 1], entries[|entries| - 1]);
      assert entries == front + [last];
      SortKeepsIds(front);
      InsertKeepsIds(SortByRecency(front), last);
    }
  }

  lemma OneMoreId(front: seq<Entry>, last: Entry)
    requires last.id != "" && forall x :: x in front ==> x.id != last.id
    ensures Ids(front + [last]) == Ids(front) + {last.id} && last.id !in Ids(front)
  {
    assert forall x :: x in front + [last] <==> x in front || x == last;
  }

  lemma AddOne(a: set<string>, x: string)
    requires x !in a
    ensures |a + {x}| == |a| + 1
  {}

  lemma FrontIds(front: seq<Entry>, last: Entry)
    requires EntryIdsDistinct(front + [last]) && forall x :: x in front + [last] ==> x.id != ""
    ensures EntryIdsDistinct(front) && last.id != ""
    ensures forall x :: x in front ==> x.id != "" && x.id != last.id
  {
    var all := front + [last];
    assert all[|front|] == last && forall i :: 0 <= i < |front| ==> all[i] == front[i];
    assert forall x :: x in front ==> x in all;
  }

  lemma {:induction false} IdsAreMany(entries: seq<Entry>)
    requires EntryIdsDistinct(entries) && forall x :: x in entries ==> x.id != ""
    ensures |Ids(entries)| == |entries|
  {
    if entries != [] {
      var (front, last) := (entries[..|entries| - 1], entries[|entries| - 1]);
      assert entries == front + [last];
      FrontIds(front, last);
      IdsAreMany(front);
      OneMoreId(front, last);
      AddOne(Ids(front), last.id);
    } else {
      assert Ids(entries) == {};
    }
  }

  /** The fallback takes the ids of the first 50 entries; an entry without an id gives none. */
  lemma RecentIdsAre(entries: seq<Entry>, id: string)
    ensures id in Ids(Recent(entries)) <==>
              (id != "" && exists i :: 0 <= i < |entries| && i < 50 && entries[i].id == id)
  {
    var recent := Recent(entries);
    if id in Ids(recent) {
      var e :| e in recent && e.id == id;
      var i :| 0 <= i < |recent| && recent[i] == e;
      assert entries[i].id == id;
    }
    if i :| 0 <= i < |entries| && i < 50 && entries[i].id == id {
      assert recent[i] == entries[i];
    }
  }

  function Least(a: nat, b: nat): nat { if a < b then a else b }

  /** These are the ids of the newest artifacts: 50 of them, or all. */
  ghost predicate AreNewest(ids: set<string>, artifacts: seq<Artifact>) {
    && |ids| == Least(50, |artifacts|)
    && (forall id :: id in ids ==> exists a :: a in artifacts && a.id == id)
    && (forall a, b :: a in artifacts && b in artifacts && a.id in ids && b.id !in ids ==> a.stamp >= b.stamp)
  }

  lemma FrontOfDistinct(sorted: seq<Entry>, n: nat)
    requires EntryIdsDistinct(sorted) && n <= |sorted| && forall x :: x in sorted ==> x.id != ""
    ensures EntryIdsDistinct(sorted[..n]) && forall x :: x in sorted[..n] ==> x.id != ""
  {
    assert forall i :: 0 <= i < n ==> sorted[..n][i] == sorted[i];
    assert forall x :: x in sorted[..n] ==> x in sorted;
  }

  /** An entry is among the first `n` exactly if its id is. */
  lemma PlaceOfId(sorted: seq<Entry>, n: nat, k: int)
    requires EntryIdsDistinct(sorted) && n <= |sorted| && 0 <= k < |sorted| && sorted[k].id != ""
    ensures sorted[k].id in Ids(sorted[..n]) <==> k < n
  {
    var first := sorted[..n];
    assert forall i :: 0 <= i < n ==> first[i] == sorted[i];
    if sorted[k].id in Ids(first) {
      var e :| e in first && e.id == sorted[k].id;
      var i :| 0 <= i < n && first[i] == e;
    }
    if k < n {
      assert first[k] in first;
    }
  }

  lemma {:induction false} FirstAreNewest(sorted: seq<Entry>, n: nat)
    requires Descending(sorted) && EntryIdsDistinct(sorted) && n <= |sorted| && forall x :: x in sorted ==> x.id != ""
    ensures |Ids(sorted[..n])| == n
    ensures forall x, y :: x in sorted && y in sorted && x.id in Ids(sorted[..n]) && y.id !in Ids(sorted[..n]) ==> x.stamp >= y.stamp
  {
    FrontOfDistinct(sorted, n);
    IdsAreMany(sorted[..n]);
    forall x, y | x in sorted && y in sorted && x.id in Ids(sorted[..n]) && y.id !in Ids(sorted[..n])
      ensures x.stamp >= y.stamp
    {
      var i :| 0 <= i < |sorted| && sorted[i] == x;
      var j :| 0 <= j < |sorted| && sorted[j] == y;
      PlaceOfId(sorted, n, i);
      PlaceOfId(sorted, n, j);
    }
  }

  lemma EntriesAre(artifacts: seq<Artifact>)
    requires DistinctIds(artifacts) && forall a :: a in artifacts ==> a.id != ""
    ensures EntryIdsDistinct(Entries(artifacts)) && |Entries(artifacts)| == |artifacts|
    ensures forall x :: x in Entries(artifacts) ==> x.id != "" && exists a :: a in artifacts && a.id == x.id && a.stamp == x.stamp
    ensures forall a :: a in artifacts ==> Entry(a.id, a.stamp) in Entries(artifacts)
  {
    var entries := Entries(artifacts);
    forall x | x in entries ensures x.id != "" && exists a :: a in artifacts && a.id == x.id && a.stamp == x.stamp {
      var i :| 0 <= i < |entries| && entries[i] == x;
      assert artifacts[i] in artifacts;
    }
    forall a | a in artifacts ensures Entry(a.id, a.stamp) in entries {
      var i :| 0 <= i < |artifacts| && artifacts[i] == a;
      assert entries[i] == Entry(a.id, a.stamp);
    }
  }

  lemma {:induction false} RecentAreNewest(artifacts: seq<Artifact>)
    requires DistinctIds(artifacts) && forall a :: a in artifacts ==> a.id != ""
    ensures AreNewest(Ids(Recent(SortByRecency(Entries(artifacts)))), artifacts)
  {
    var entries := Entries(artifacts);
    var sorted := SortByRecency(entries);
    EntriesAre(artifacts);
    SortKeepsIds(entries);
    SortIsStable(entries);
    var n := Least(50, |sorted|);
    assert Recent(sorted) == sorted[..n];
    FirstAreNewest(sorted, n);
    forall a, b | a in artifacts && b in artifacts && a.id in Ids(sorted[..n]) && b.id !in Ids(sorted[..n])
      ensures a.stamp >= b.stamp
    {
      assert Entry(a.id, a.stamp) in sorted && Entry(b.id, b.stamp) in sorted;
    }
  }

  /** When a query selects no artifact, the candidates are the newest ones. */
  lemma {:induction false} FallbackIsNewest(lower: string -> string, ops: seq<IndexRuns.Op>, q: Query)
    requires IndexRuns.Proper(ops)
    requires forall a :: a in IndexRuns.Live(ops) ==> a.id != "" && !Selects(lower, q, a)
    ensures AreNewest(Candidates(lower, IndexRuns.Run(lower, ops), q), IndexRuns.Live(ops))
  {
    var live := IndexRuns.Live(ops);
    LookupIsScan(lower, ops, q);
    IndexRuns.LiveDistinct(ops);
    forall i | 0 <= i < |live| ensures !Selects(lower, q, live[i]) {
      assert live[i] in live;
    }
    RecentAreNewest(live);
  }

  lemma {:induction false} ScanIs(lower: string -> string, q: Query, artifacts: seq<Artifact>, id: string)
    ensures id in Scan(lower, q, artifacts) <==> exists a :: a in artifacts && a.id == id && Selects(lower, q, a)
  {
    if a :| a in artifacts && a.id == id && Selects(lower, q, a) {
      var i :| 0 <= i < |artifacts| && artifacts[i] == a;
    }
  }

  /** Otherwise they are exactly what the query selects. */
  lemma {:induction false} SelectedAreCandidates(lower: string -> string, ops: seq<IndexRuns.Op>, q: Query, id: string)
    requires IndexRuns.Proper(ops)
    requires exists a :: a in IndexRuns.Live(ops) && Selects(lower, q, a)
    ensures id in Candidates(lower, IndexRuns.Run(lower, ops), q)
       <==> exists a :: a in IndexRuns.Live(ops) && a.id == id && Selects(lower, q, a)
  {
    var live := IndexRuns.Live(ops);
    var a :| a in live && Selects(lower, q, a);
    LookupIsScan(lower, ops, q);
    ScanIs(lower, q, live, a.id);
    ScanIs(lower, q, live, id);
    assert ScanOrRecent(lower, q, live) == Scan(lower, q, live);
  }
}
