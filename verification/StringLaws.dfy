/** What stripping and the order of strings promise. */
module StringLaws {
  import opened Strings

  predicate Blank(s: string) {
    forall i :: 0 <= i < |s| ==> s[i] in " \t\n\r\U{0B}\U{0C}"
  }

  lemma OneMoreBlank(c: char, s: string)
    requires IsSpace(c) && Blank(s)
    ensures Blank([c] + s) && Blank(s + [c])
  {}

  lemma {:induction false} StripLeftIs(s: string) returns (a: string)
    ensures Blank(a) && s == a + StripLeft(s)
    ensures StripLeft(s) != "" ==> !IsSpace(StripLeft(s)[0])
  {
    if s != [] && IsSpace(s[0]) {
      a := StripLeftIs(s[1..]);
      OneMoreBlank(s[0], a);
      assert s == [s[0]] + s[1..];
      a := [s[0]] + a;
    } else {
      a := "";
    }
  }

  lemma {:induction false} StripRightIs(s: string) returns (b: string)
    ensures Blank(b) && s == StripRight(s) + b
    ensures StripRight(s) != "" ==> !IsSpace(StripRight(s)[|StripRight(s)| - 1])
  {
    if s != [] && IsSpace(s[|s| - 1]) {
      var front := s[..|s| - 1];
      b := StripRightIs(front);
      OneMoreBlank(s[|s| - 1], b);
      assert s == front + [s[|s| - 1]];
      b := b + [s[|s| - 1]];
    } else {
      b := "";
    }
  }

  lemma SpaceIs(c: char)
    ensures IsSpace(c) <==> c in " \t\n\r\U{0B}\U{0C}"
  {}

  /** Stripping takes away white space at both ends, all of it and nothing else. */
  lemma {:induction false} StripIs(s: string) returns (a: string, b: string)
    ensures Blank(a) && Blank(b) && s == a + Strip(s) + b
    ensures Strip(s) != "" ==> Strip(s)[0] !in " \t\n\r\U{0B}\U{0C}"
                               && Strip(s)[|Strip(s)| - 1] !in " \t\n\r\U{0B}\U{0C}"
  {
    a := StripLeftIs(s);
    b := StripRightIs(StripLeft(s));
    assert a + (Strip(s) + b) == a + Strip(s) + b;
    if Strip(s) != "" {
      SpaceIs(Strip(s)[0]);
      SpaceIs(Strip(s)[|Strip(s)| - 1]);
      assert StripLeft(s)[0] == Strip(s)[0];
    }
  }

  /** Strings compare at their first difference; a beginning comes before the whole. */
  lemma {:induction false} AtMostIs(common: string, a: string, b: string)
    ensures AtMost(common, common + a)
    ensures a != "" && b != "" && a[0] != b[0] ==> (AtMost(common + a, common + b) <==> a[0] < b[0])
    ensures a != "" ==> !AtMost(common + a, common)
  {
    if common != "" {
      AtMostIs(common[1..], a, b);
      assert (common + a)[1..] == common[1..] + a && (common + b)[1..] == common[1..] + b;
    } else {
      assert common + a == a && common + b == b;
    }
  }

  /** Joined are the parts with the separator between them. */
  lemma {:induction false} JoinIs(sep: string, first: string, rest: seq<string>)
    ensures Join(sep, []) == "" && Join(sep, [first]) == first
    ensures rest != [] ==> Join(sep, [first] + rest) == first + sep + Join(sep, rest)
  {
    assert ([first] + rest)[1..] == rest;
  }
}
