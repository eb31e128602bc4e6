/** What printed numbers look like, and what `int(s, 16)` reads. */
module NumeralLaws {
  import opened Numerals
  import opened Options
  import opened Strings

  /** The value of a lower-case digit; 16 for any other character. */
  function DigitOf(c: char): nat {
    if '0' <= c <= '9' then (c as int) - ('0' as int)
    else if 'a' <= c <= 'f' then (c as int) - ('a' as int) + 10
    else 16
  }

  function ValueIn(s: string, b: nat): nat {
    if s == "" then 0 else b * ValueIn(s[..|s| - 1], b) + DigitOf(s[|s| - 1])
  }

  lemma DigitIs(d: nat)
    requires d < 16
    ensures DigitOf(DIGITS[d]) == d
  {}

  lemma {:induction false} OneDigit(high: string, d: nat, b: nat)
    requires d < 16
    ensures ValueIn(high + [DIGITS[d]], b) == b * ValueIn(high, b) + d
  {
    DigitIs(d);
    assert (high + [DIGITS[d]])[..|high|] == high;
  }

  lemma HighIsLess(n: nat, b: nat)
    requires 2 <= b <= n
    ensures 0 < n / b < n
  {}

  /** A number is printed in positional notation. */
  lemma {:induction false} PrintedHasValue(n: nat, b: nat)
    requires 2 <= b <= 16
    ensures ValueIn(PrintNat(n, b), b) == n
  {
    if n < b {
      OneDigit("", n, b);
      assert "" + [DIGITS[n]] == [DIGITS[n]];
    } else {
      HighIsLess(n, b);
      PrintedHasValue(n / b, b);
      OneDigit(PrintNat(n / b, b), n % b, b);
      DivideAndBack(n, b);
    }
  }

  /** It is printed in lower-case digits of its base, without leading zeros. */
  lemma {:induction false} PrintedIs(n: nat, b: nat)
    requires 2 <= b <= 16
    ensures forall i :: 0 <= i < |PrintNat(n, b)| ==> DigitOf(PrintNat(n, b)[i]) < b
    ensures if n == 0 then PrintNat(n, b) == "0" else PrintNat(n, b)[0] != '0'
  {
    if n < b {
      DigitIs(n);
    } else {
      HighIsLess(n, b);
      PrintedIs(n / b, b);
      DigitIs(n % b);
    }
  }

  /** A sign, a prefix, upper case, white space around and single underscores between digits are read. */
  lemma ParsesLikePython()
    ensures DigitValue('F') == Some(15) && DigitValue('a') == Some(10) && DigitValue('g') == None
    ensures Grouped("f") == Some(15) && Grouped("") == None && Grouped("_") == None
    ensures Grouped("1_0") == Some(16) && Grouped("1__0") == None && Grouped("_1") == None && Grouped("10") == Some(16)
    ensures Unsigned("0x10") == Some(16) && Unsigned("0X_1") == Some(1) && Unsigned("0x") == None && Unsigned("x1") == None
  {
    assert "1_0"[..1] == "1" && "1__0"[..2] == "1_" && "_1"[..1] == "_" && "10"[..1] == "1";
    assert "0x10"[2..] == "10" && "0X_1"[3..] == "1" && "0x"[2..] == "" && "x1"[..1] == "x";
  }

  /** The sign decides, behind white space that does not count. */
  lemma SignsAre(s: string)
    requires Strip(s) != ""
    ensures Strip(s)[0] == '-' ==> ParseHex(s) == Negated(Unsigned(Strip(s)[1..]))
    ensures Strip(s)[0] == '+' ==> ParseHex(s) == Unsigned(Strip(s)[1..])
    ensures Strip(s)[0] !in "+-" ==> ParseHex(s) == Unsigned(Strip(s))
  {}
}
