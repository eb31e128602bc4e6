/** Strings as Python has them: `strip`, `join`, code-point order and `sorted` on a set. */
module Strings {
  predicate IsSpace(c: char) {
    c in [' ', '\t', '\n', '\r', '\U{0B}', '\U{0C}']
  }

  function StripLeft(s: string): string {
    if s != [] && IsSpace(s[0]) then StripLeft(s[1..]) else s
  }

  function StripRight(s: string): string {
    if s != [] && IsSpace(s[|s| - 1]) then StripRight(s[..|s| - 1]) else s
  }

  /** `str.strip()` */
  function Strip(s: string): string {
    StripRight(StripLeft(s))
  }

  /** `sep.join(parts)` */
  function Join(sep: string, parts: seq<string>): string {
    if parts == [] then ""
    else if |parts| == 1 then parts[0]
    else parts[0] + sep + Join(sep, parts[1..])
  }

  // ---------------------------------------------------------------- order

  predicate AtMost(a: string, b: string) {
    a == "" || (b != "" && (a[0] < b[0] || (a[0] == b[0] && AtMost(a[1..], b[1..]))))
  }

  lemma {:induction false} AtMostIsTotal(a: string, b: string)
    ensures AtMost(a, b) || AtMost(b, a)
    ensures AtMost(a, b) && AtMost(b, a) ==> a == b
  {
    if a != "" && b != "" {
      AtMostIsTotal(a[1..], b[1..]);
      assert a == [a[0]] + a[1..] && b == [b[0]] + b[1..];
    }
  }

  lemma {:induction false} AtMostIsTransitive(a: string, b: string, c: string)
    requires AtMost(a, b) && AtMost(b, c)
    ensures AtMost(a, c)
  {
    if a != "" && b != "" && c != "" && a[0] == b[0] && b[0] == c[0] {
      AtMostIsTransitive(a[1..], b[1..], c[1..]);
    }
  }

  predicate IsLeast(m: string, s: set<string>) {
    m in s && forall x :: x in s ==> AtMost(m, x)
  }

  lemma {:induction false} HasLeast(s: set<string>)
    requires s != {}
    ensures exists m :: IsLeast(m, s)
    decreases |s|
  {
    var x :| x in s;
    AtMostIsTotal(x, x);
    if s == {x} {
      assert IsLeast(x, s);
    } else {
      HasLeast(s - {x});
      var m :| IsLeast(m, s - {x});
      AtMostIsTotal(m, x);
      var least := if AtMost(m, x) then m else x;
      forall y | y in s ensures AtMost(least, y) {
        if y != x && least == x {
          AtMostIsTransitive(x, m, y);
        }
      }
      assert IsLeast(least, s);
    }
  }

  lemma LeastIsUnique(s: set<string>)
    ensures forall m, n :: IsLeast(m, s) && IsLeast(n, s) ==> m == n
  {
    forall m, n | IsLeast(m, s) && IsLeast(n, s) ensures m == n {
      AtMostIsTotal(m, n);
    }
  }

  /** `sorted(s)` */
  function Sorted(s: set<string>): (r: seq<string>)
    ensures forall x :: x in r <==> x in s
    ensures |r| == |s|
    decreases |s|
  {
    if s == {} then []
    else
      HasLeast(s);
      LeastIsUnique(s);
      var m :| IsLeast(m, s);
      [m] + Sorted(s - {m})
  }

  /** The result is in order and lists nothing twice. */
  lemma {:induction false} SortedAscends(s: set<string>)
    ensures forall i, j :: 0 <= i < j < |Sorted(s)| ==> AtMost(Sorted(s)[i], Sorted(s)[j]) && Sorted(s)[i] != Sorted(s)[j]
    decreases |s|
  {
    if s != {} {
      HasLeast(s);
      LeastIsUnique(s);
      var m :| IsLeast(m, s);
      SortedAscends(s - {m});
      var rest := Sorted(s - {m});
      forall j | 0 <= j < |rest| ensures AtMost(m, rest[j]) && m != rest[j] {
        assert rest[j] in s - {m};
      }
    }
  }
}
