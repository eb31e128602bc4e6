/** What is said about sequences in several places. */
module Sequences {
  lemma Assoc<T>(a: seq<T>, b: seq<T>, c: seq<T>)
    ensures (a + b) + c == a + (b + c)
  {}

  function SetOf<T>(s: seq<T>): set<T> {
    set x | x in s
  }

  /** How often `t` occurs. */
  function Count<T(==)>(s: seq<T>, t: T): nat {
    if s == [] then 0 else (if s[0] == t then 1 else 0) + Count(s[1..], t)
  }

  lemma {:induction false} CountSplit<T>(a: seq<T>, b: seq<T>, t: T)
    ensures Count(a + b, t) == Count(a, t) + Count(b, t)
  {
    if a == [] {
      assert a + b == b;
    } else {
      assert (a + b)[1..] == a[1..] + b;
      CountSplit(a[1..], b, t);
    }
  }

  lemma {:induction false} CountPresent<T>(s: seq<T>, t: T)
    ensures t in s <==> Count(s, t) > 0
  {
    if s != [] {
      CountPresent(s[1..], t);
    }
  }

  /** `[x for x in s if p(x)]` */
  function Filter<T>(s: seq<T>, p: T -> bool): seq<T> {
    if s == [] then [] else (if p(s[0]) then [s[0]] else []) + Filter(s[1..], p)
  }

  lemma {:induction false} FilterSplit<T>(a: seq<T>, b: seq<T>, p: T -> bool)
    ensures Filter(a + b, p) == Filter(a, p) + Filter(b, p)
  {
    if a == [] {
      assert a + b == b;
    } else {
      assert (a + b)[1..] == a[1..] + b;
      FilterSplit(a[1..], b, p);
      Assoc(if p(a[0]) then [a[0]] else [], Filter(a[1..], p), Filter(b, p));
    }
  }

  lemma {:induction false} FilterMembers<T>(s: seq<T>, p: T -> bool)
    ensures forall x :: x in Filter(s, p) <==> x in s && p(x)
  {
    if s != [] {
      FilterMembers(s[1..], p);
      assert forall x :: x in s <==> x == s[0] || x in s[1..];
    }
  }

  lemma {:induction false} FilterAll<T>(s: seq<T>, p: T -> bool, keep: bool)
    requires forall x :: x in s ==> p(x) == keep
    ensures Filter(s, p) == if keep then s else []
  {
    if s != [] {
      assert s[0] in s;
      FilterAll(s[1..], p, keep);
    }
  }
}
