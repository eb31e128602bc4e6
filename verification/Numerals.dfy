/** Numbers as Python prints them in base 10 and 16, and reads them back in base 16. */
module Numerals {
  import opened Options
  import opened Strings

  const DIGITS := "0123456789abcdef"

  /** The digits of `n`, most significant first. */
  function PrintNat(n: nat, b: nat): (s: string)
    requires 2 <= b <= 16
    ensures s != ""
  {
    if n < b then [DIGITS[n]] else PrintNat(n / b, b) + [DIGITS[n % b]]
  }

  /** `str(n)` for base 10, `format(n, "x")` for base 16 */
  function PrintInt(n: int, b: nat): (s: string)
    requires 2 <= b <= 16
    ensures s != ""
  {
    if n < 0 then "-" + PrintNat(-n, b) else PrintNat(n, b)
  }

  function DigitValue(c: char): Option<nat> {
    if '0' <= c <= '9' then Some((c as int) - ('0' as int))
    else if 'a' <= c <= 'f' then Some((c as int) - ('a' as int) + 10)
    else if 'A' <= c <= 'F' then Some((c as int) - ('A' as int) + 10)
    else None
  }

  /** Hexadecimal digits, with single underscores between them. */
  function Grouped(s: string): Option<nat> {
    if s == "" then None
    else match DigitValue(s[|s| - 1])
         case None => None
         case Some(d) =>
           if |s| == 1 then Some(d)
           else match Grouped(if s[|s| - 2] == '_' then s[..|s| - 2] else s[..|s| - 1])
                case None => None
                case Some(high) => Some(16 * high + d)
  }

  function Unsigned(s: string): Option<nat> {
    if |s| >= 2 && s[0] == '0' && s[1] in ['x', 'X']
    then Grouped(if |s| > 2 && s[2] == '_' then s[3..] else s[2..])
    else Grouped(s)
  }

  /** `int(s, 16)`; None stands for ValueError. */
  function ParseHex(s: string): Option<int> {
    var t := Strip(s);
    if t != "" && t[0] == '-' then Negated(Unsigned(t[1..]))
    else Unsigned(if t != "" && t[0] == '+' then t[1..] else t)
  }

  function Negated(n: Option<int>): Option<int> {
    match n case Some(v) => Some(-v) case None => None
  }

  // ---------------------------------------------------------------- reading back

  predicate AllDigits(s: string) {
    forall i :: 0 <= i < |s| ==> DigitValue(s[i]).Some?
  }

  lemma DigitsHaveValues(d: nat)
    requires d < 16
    ensures DigitValue(DIGITS[d]) == Some(d)
  {}

  lemma MoreDigits(high: string, c: char)
    requires AllDigits(high) && DigitValue(c).Some?
    ensures AllDigits(high + [c])
  {}

  lemma {:induction false} PrintedIsDigits(n: nat, b: nat)
    requires 2 <= b <= 16
    ensures AllDigits(PrintNat(n, b))
  {
    if n < b {
      DigitsHaveValues(n);
    } else {
      PrintedIsDigits(n / b, b);
      DigitsHaveValues(n % b);
      MoreDigits(PrintNat(n / b, b), DIGITS[n % b]);
    }
  }

  lemma DivideAndBack(n: nat, b: nat)
    requires b >= 2
    ensures n == b * (n / b) + n % b
  {}

  lemma {:induction false} LastDigit(n: nat, b: nat)
    requires 2 <= b <= 16 && n >= b
    ensures var s := PrintNat(n, b); |s| > 1 && s[..|s| - 1] == PrintNat(n / b, b)
    ensures DigitValue(PrintNat(n, b)[|PrintNat(n, b)| - 1]) == Some(n % b)
  {
    DigitsHaveValues(n % b);
  }

  lemma {:induction false} GroupedInverts(n: nat)
    ensures Grouped(PrintNat(n, 16)) == Some(n)
  {
    if n < 16 {
      DigitsHaveValues(n);
    } else {
      LastDigit(n, 16);
      GroupedInverts(n / 16);
      PrintedIsDigits(n / 16, 16);
      DivideAndBack(n, 16);
      var (high, s) := (PrintNat(n / 16, 16), PrintNat(n, 16));
      assert s[|s| - 2] == high[|high| - 1] && DigitValue(high[|high| - 1]).Some?;
    }
  }

  lemma NothingToStrip(s: string)
    requires s != "" && !IsSpace(s[0]) && !IsSpace(s[|s| - 1])
    ensures Strip(s) == s
  {}

  lemma {:induction false} UnsignedInverts(n: nat)
    ensures Unsigned(PrintNat(n, 16)) == Some(n)
  {
    GroupedInverts(n);
    PrintedIsDigits(n, 16);
  }

  /** Reading a printed number gives it back. */
  lemma ParseInverts(n: int)
    ensures ParseHex(PrintInt(n, 16)) == Some(n)
  {
    var m: nat := if n < 0 then -n else n;
    var s := PrintNat(m, 16);
    PrintedIsDigits(m, 16);
    UnsignedInverts(m);
    assert DigitValue(s[0]).Some? && DigitValue(s[|s| - 1]).Some?;
    NothingToStrip(s);
    if n < 0 {
      var t := "-" + s;
      assert t[|t| - 1] == s[|s| - 1] && t[1..] == s;
      NothingToStrip(t);
    }
  }

  lemma SameParts(m: nat, n: nat, b: nat)
    requires b >= 2 && m / b == n / b && m % b == n % b
    ensures m == n
  {
    DivideAndBack(m, b);
    DivideAndBack(n, b);
  }

  lemma {:induction false} SameLastDigit(m: nat, n: nat, b: nat)
    requires 2 <= b <= 16 && m >= b && n >= b && PrintNat(m, b) == PrintNat(n, b)
    ensures m % b == n % b && PrintNat(m / b, b) == PrintNat(n / b, b)
  {
    LastDigit(m, b);
    LastDigit(n, b);
  }

  lemma {:induction false} OneDigit(m: nat, n: nat, b: nat)
    requires 2 <= b <= 16 && m < b && PrintNat(m, b) == PrintNat(n, b)
    ensures m == n
  {
    DigitsHaveValues(m);
    if n >= b {
      LastDigit(n, b);
    } else {
      DigitsHaveValues(n);
    }
  }

  /** Different numbers print differently, in any base; `k` bounds the depth. */
  lemma {:induction false} PrintNatInjective(m: nat, n: nat, b: nat, k: nat)
    requires 2 <= b <= 16 && PrintNat(m, b) == PrintNat(n, b) && |PrintNat(m, b)| <= k
    ensures m == n
    decreases k
  {
    if m < b {
      OneDigit(m, n, b);
    } else if n < b {
      OneDigit(n, m, b);
    } else {
      SameLastDigit(m, n, b);
      LastDigit(m, b);
      PrintNatInjective(m / b, n / b, b, k - 1);
      SameParts(m, n, b);
    }
  }

  lemma PrintInjective(m: int, n: int, b: nat)
    requires 2 <= b <= 16 && PrintInt(m, b) == PrintInt(n, b)
    ensures m == n
  {
    var i: nat := if m < 0 then -m else m;
    var j: nat := if n < 0 then -n else n;
    PrintedIsDigits(i, b);
    PrintedIsDigits(j, b);
    assert DigitValue(PrintNat(i, b)[0]).Some? && DigitValue(PrintNat(j, b)[0]).Some?;
    assert (m < 0) == (n < 0);
    if m < 0 {
      assert PrintInt(m, b)[1..] == PrintNat(i, b) && PrintInt(n, b)[1..] == PrintNat(j, b);
    }
    PrintNatInjective(i, j, b, |PrintNat(i, b)|);
  }

  /** A printed number has no colon in it. */
  lemma NoColon(n: int, b: nat)
    requires 2 <= b <= 16
    ensures forall i :: 0 <= i < |PrintInt(n, b)| ==> PrintInt(n, b)[i] != ':'
  {
    var m: nat := if n < 0 then -n else n;
    PrintedIsDigits(m, b);
    forall i | 0 <= i < |PrintNat(m, b)| ensures PrintNat(m, b)[i] != ':' {
      assert DigitValue(PrintNat(m, b)[i]).Some?;
    }
  }
}
