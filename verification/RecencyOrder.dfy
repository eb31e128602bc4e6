/** The recency list: a stable sort that incremental insertion and filtering keep. */
module RecencyOrder {
  import opened MemoryIndex
  import Sequences

  ghost predicate Descending(s: seq<Entry>) {
    forall i, j :: 0 <= i < j < |s| ==> s[i].stamp >= s[j].stamp
  }

  /** The entries with one stamp, in order. */
  function OfStamp(s: seq<Entry>, stamp: int): seq<Entry> {
    if s == [] then [] else (if s[0].stamp == stamp then [s[0]] else []) + OfStamp(s[1..], stamp)
  }

  /** What a stable descending sort promises. */
  ghost predicate StableSort(s: seq<Entry>, sorted: seq<Entry>) {
    Descending(sorted) && forall v :: OfStamp(sorted, v) == OfStamp(s, v)
  }

  lemma {:induction false} OfStampSplit(a: seq<Entry>, b: seq<Entry>, v: int)
    ensures OfStamp(a + b, v) == OfStamp(a, v) + OfStamp(b, v)
  {
    if a == [] {
      assert a + b == b;
    } else {
      assert (a + b)[1..] == a[1..] + b;
      OfStampSplit(a[1..], b, v);
      Sequences.Assoc(if a[0].stamp == v then [a[0]] else [], OfStamp(a[1..], v), OfStamp(b, v));
    }
  }

  lemma {:induction false} NoneOfStamp(s: seq<Entry>, v: int)
    ensures OfStamp(s, v) == [] <==> forall i :: 0 <= i < |s| ==> s[i].stamp != v
  {
    if s != [] {
      NoneOfStamp(s[1..], v);
    }
  }

  lemma {:induction false} InsertDescends(s: seq<Entry>, e: Entry)
    requires Descending(s)
    ensures Descending(Insert(s, e))
    ensures forall x :: x in Insert(s, e) <==> x in s || x == e
  {
    if s != [] && s[0].stamp >= e.stamp {
      InsertDescends(s[1..], e);
      var t := Insert(s[1..], e);
      assert forall x :: x in s <==> x == s[0] || x in s[1..];
      forall j | 0 <= j < |t| ensures s[0].stamp >= t[j].stamp {
        assert t[j] in t;
      }
    }
  }

  lemma {:induction false} InsertIsStable(s: seq<Entry>, e: Entry, v: int)
    requires Descending(s)
    ensures OfStamp(Insert(s, e), v) == OfStamp(s, v) + OfStamp([e], v)
  {
    if s == [] {
      assert Insert(s, e) == s + [e];
    } else if s[0].stamp >= e.stamp {
      InsertIsStable(s[1..], e, v);
      assert Insert(s, e)[1..] == Insert(s[1..], e);
      Sequences.Assoc(if s[0].stamp == v then [s[0]] else [], OfStamp(s[1..], v), OfStamp([e], v));
    } else {
      OfStampSplit([e], s, v);
      if v == e.stamp {
        NoneOfStamp(s, v);
      } else {
        NoneOfStamp([e], v);
        assert [] + OfStamp(s, v) == OfStamp(s, v) + [];
      }
    }
  }

  /** The sort is stable: descending, equal stamps in their original order. */
  lemma {:induction false} SortIsStable(s: seq<Entry>)
    ensures StableSort(s, SortByRecency(s))
  {
    if s != [] {
      var (front, e) := (s[..|s| - 1], s[|s| - 1]);
      SortIsStable(front);
      InsertDescends(SortByRecency(front), e);
      assert s == front + [e];
      forall v ensures OfStamp(SortByRecency(s), v) == OfStamp(s, v) {
        InsertIsStable(SortByRecency(front), e, v);
        OfStampSplit(front, [e], v);
      }
    }
  }

  lemma {:induction false} SameClassesSameOrder(a: seq<Entry>, b: seq<Entry>)
    requires Descending(a) && Descending(b)
    requires forall v :: OfStamp(a, v) == OfStamp(b, v)
    ensures a == b
  {
    EmptyTogether(a, b);
    EmptyTogether(b, a);
    if a != [] {
      SameHead(a, b);
      forall v ensures OfStamp(a[1..], v) == OfStamp(b[1..], v) {
        assert OfStamp(a, v) == OfStamp(b, v);
        if a[0].stamp == v {
          assert OfStamp(a, v)[1..] == OfStamp(a[1..], v);
          assert OfStamp(b, v)[1..] == OfStamp(b[1..], v);
        } else {
          assert OfStamp(a, v) == OfStamp(a[1..], v);
          assert OfStamp(b, v) == OfStamp(b[1..], v);
        }
      }
      SameClassesSameOrder(a[1..], b[1..]);
    }
  }

  lemma EmptyTogether(a: seq<Entry>, b: seq<Entry>)
    requires forall v :: OfStamp(a, v) == OfStamp(b, v)
    ensures a == [] ==> b == []
  {
    if b != [] {
      var v := b[0].stamp;
      assert OfStamp(a, v) == OfStamp(b, v);
      NoneOfStamp(b, v);
    }
  }

  lemma {:induction false} SameHead(a: seq<Entry>, b: seq<Entry>)
    requires a != [] && b != [] && Descending(a) && Descending(b)
    requires forall v :: OfStamp(a, v) == OfStamp(b, v)
    ensures a[0] == b[0]
  {
    var (v, w) := (a[0].stamp, b[0].stamp);
    assert OfStamp(a, v) == OfStamp(b, v) && OfStamp(a, w) == OfStamp(b, w);
    NoneOfStamp(b, v);
    NoneOfStamp(a, w);
    assert OfStamp(a, v)[0] == a[0];
    assert OfStamp(b, w)[0] == b[0];
  }

  /** There is only one stable sort, so it does not matter how the sorting is done. */
  lemma {:induction false} StableSortIsUnique(s: seq<Entry>, sorted: seq<Entry>)
    requires StableSort(s, sorted)
    ensures sorted == SortByRecency(s)
  {
    SortIsStable(s);
    SameClassesSameOrder(sorted, SortByRecency(s));
  }

  /** Sorting a sorted list with one more entry is sorting everything at once. */
  lemma {:induction false} SortIncrementally(s: seq<Entry>, e: Entry)
    ensures SortByRecency(SortByRecency(s) + [e]) == SortByRecency(s + [e])
  {
    var t := SortByRecency(s);
    SortIsStable(s);
    SortIsStable(t + [e]);
    forall v ensures OfStamp(SortByRecency(t + [e]), v) == OfStamp(s + [e], v) {
      OfStampSplit(t, [e], v);
      OfStampSplit(s, [e], v);
    }
    StableSortIsUnique(s + [e], SortByRecency(t + [e]));
  }

  lemma {:induction false} FilterMembers(s: seq<Entry>, id: string)
    ensures forall x :: x in WithoutEntry(s, id) <==> x in s && x.id != id
  {
    if s != [] {
      FilterMembers(s[1..], id);
      assert forall x :: x in s <==> x == s[0] || x in s[1..];
    }
  }

  lemma {:induction false} FilterKeepsOrder(s: seq<Entry>, id: string)
    requires Descending(s)
    ensures Descending(WithoutEntry(s, id))
  {
    if s != [] {
      FilterKeepsOrder(s[1..], id);
      FilterMembers(s[1..], id);
      var t := WithoutEntry(s[1..], id);
      if s[0].id == id {
        assert WithoutEntry(s, id) == t;
      } else {
        FirstDescends(s, t);
      }
    }
  }

  lemma FirstDescends(s: seq<Entry>, t: seq<Entry>)
    requires s != [] && Descending(s) && Descending(t) && forall x :: x in t ==> x in s[1..]
    ensures Descending([s[0]] + t)
  {
    forall j | 0 <= j < |t| ensures s[0].stamp >= t[j].stamp {
      assert t[j] in s[1..];
    }
  }

  lemma {:induction false} FilterCommutes(s: seq<Entry>, id: string, v: int)
    ensures OfStamp(WithoutEntry(s, id), v) == WithoutEntry(OfStamp(s, v), id)
  {
    if s != [] {
      FilterCommutes(s[1..], id, v);
      var t := WithoutEntry(s[1..], id);
      if s[0].id == id {
        assert WithoutEntry(s, id) == t;
      } else {
        assert WithoutEntry(s, id)[1..] == t;
      }
      if s[0].stamp == v {
        assert OfStamp(s, v)[1..] == OfStamp(s[1..], v);
      } else {
        assert OfStamp(s, v) == OfStamp(s[1..], v);
      }
    }
  }

  /** Filtering the sorted list is sorting the filtered one. */
  lemma {:induction false} FilterSorted(s: seq<Entry>, id: string)
    ensures WithoutEntry(SortByRecency(s), id) == SortByRecency(WithoutEntry(s, id))
  {
    SortIsStable(s);
    FilterKeepsOrder(SortByRecency(s), id);
    forall v ensures OfStamp(WithoutEntry(SortByRecency(s), id), v) == OfStamp(WithoutEntry(s, id), v) {
      FilterCommutes(SortByRecency(s), id, v);
      FilterCommutes(s, id, v);
    }
    StableSortIsUnique(WithoutEntry(s, id), WithoutEntry(SortByRecency(s), id));
  }
}
