/**
 * The few string operations of Python the workflows rely on: `str` of an
 * integer, slicing a prefix `s[:n]`, and `lower()` (on ASCII letters).
 */
module Text {

  predicate IsDigit(ch: char) {
    '0' <= ch <= '9'
  }

  function DigitChar(d: nat): (ch: char)
    requires d < 10
    ensures IsDigit(ch)
  {
    ('0' as int + d) as char
  }

  function DigitValue(ch: char): nat
    requires IsDigit(ch)
  {
    ch as int - '0' as int
  }

  /** Decimal digits of `n`, most significant first, without leading zeros. */
  function NatToString(n: nat): (s: string)
    ensures |s| > 0
    ensures forall i :: 0 <= i < |s| ==> IsDigit(s[i])
    ensures n > 0 ==> s[0] != '0'
  {
    if n < 10 then [DigitChar(n)] else NatToString(n / 10) + [DigitChar(n % 10)]
  }

  /** Python's `str(n)` for an `int`: a minus sign only for negative values. */
  function IntToString(n: int): (s: string)
    ensures |s| > 0
    ensures (s[0] == '-') <==> n < 0
    ensures forall i :: 0 <= i < |s| ==> IsDigit(s[i]) || (i == 0 && n < 0 && s[i] == '-')
    ensures n > 0 ==> s[0] != '0'
    ensures n < 0 ==> |s| > 1 && s[1] != '0'
  {
    if n < 0 then "-" + NatToString(-n) else NatToString(n)
  }

  /** The value of a string of decimal digits (non-digits count as 0). */
  function ParseNat(s: string): nat {
    if |s| == 0 then 0
    else 10 * ParseNat(s[..|s| - 1]) + (if IsDigit(s[|s| - 1]) then DigitValue(s[|s| - 1]) else 0)
  }

  function ParseInt(s: string): int {
    var magnitude: int := if |s| > 0 && s[0] == '-' then ParseNat(s[1..]) else ParseNat(s);
    if |s| > 0 && s[0] == '-' then -magnitude else magnitude
  }

  lemma {:induction false} ParseNatToString(n: nat)
    ensures ParseNat(NatToString(n)) == n
  {
    if n >= 10 {
      var s := NatToString(n);
      assert s[..|s| - 1] == NatToString(n / 10);
      ParseNatToString(n / 10);
    }
  }

  /** `str` on integers is undone by parsing: distinct integers print differently. */
  lemma ParseIntToString(n: int)
    ensures ParseInt(IntToString(n)) == n
  {
    if n < 0 {
      assert IntToString(n)[1..] == NatToString(-n);
      ParseNatToString(-n);
    } else {
      ParseNatToString(n);
    }
  }

  function Min(a: int, b: int): int {
    if a <= b then a else b
  }

  /** Python's slice `s[:n]` for `n >= 0`. */
  function Prefix(s: string, n: nat): (r: string)
    ensures |r| == Min(|s|, n)
    ensures r <= s
  {
    if |s| <= n then s else s[..n]
  }

  /** `str.lower()` on one character; only ASCII capitals are mapped. */
  function LowerChar(ch: char): (r: char)
    ensures 'A' <= ch <= 'Z' ==> 'a' <= r <= 'z' && r as int == ch as int + 32
    ensures !('A' <= ch <= 'Z') ==> r == ch
  {
    if 'A' <= ch <= 'Z' then (ch as int - 'A' as int + 'a' as int) as char else ch
  }

  function ToLower(s: string): (r: string)
    ensures |r| == |s|
    ensures forall i :: 0 <= i < |s| ==> r[i] == LowerChar(s[i])
  {
    if |s| == 0 then [] else [LowerChar(s[0])] + ToLower(s[1..])
  }

  /** Index of the first `ch` in `s`, or `|s|` when there is none. */
  function IndexOf(s: string, ch: char): (i: nat)
    ensures i <= |s|
    ensures i < |s| ==> s[i] == ch
    ensures forall j :: 0 <= j < i ==> s[j] != ch
  {
    if |s| == 0 then 0 else if s[0] == ch then 0 else 1 + IndexOf(s[1..], ch)
  }

  lemma {:induction false} IndexOfAfter(a: string, b: string, ch: char)
    requires forall j :: 0 <= j < |a| ==> a[j] != ch
    ensures IndexOf(a + b, ch) == |a| + IndexOf(b, ch)
  {
    if |a| > 0 {
      assert (a + b)[1..] == a[1..] + b;
      IndexOfAfter(a[1..], b, ch);
    } else {
      assert a + b == b;
    }
  }
}
