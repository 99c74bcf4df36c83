/** Decimal numerals: writing a natural number in decimal (as Python's
    f-strings do) and Python's `int(str)` on ASCII text: surrounding
    whitespace is ignored, one optional sign, and digits that may be grouped
    by single underscores. */
module Numerals {
  import opened Common

  function DigitChar(d: nat): (c: char)
    requires d < 10
    ensures IsDigit(c) && c as int - '0' as int == d
  {
    ('0' as int + d) as char
  }

  function DigitValue(c: char): (d: nat)
    requires IsDigit(c)
    ensures d < 10
  {
    c as int - '0' as int
  }

  /** The decimal numeral of `n`, without leading zeros. */
  function NatToDecimal(n: nat): (s: string)
    ensures s != [] && forall i :: 0 <= i < |s| ==> IsDigit(s[i])
    ensures n >= 10 ==> s[0] != '0'
  {
    if n < 10 then [DigitChar(n)] else NatToDecimal(n / 10) + [DigitChar(n % 10)]
  }

  /** Digits, possibly grouped: non-empty, starting and ending with a digit,
      and never two underscores in a row. */
  predicate DigitGroups(s: string) {
    && s != [] && IsDigit(s[0]) && IsDigit(s[|s| - 1])
    && (forall i :: 0 <= i < |s| ==> IsDigit(s[i]) || s[i] == '_')
    && (forall i :: 0 <= i < |s| - 1 ==> s[i] == '_' ==> IsDigit(s[i + 1]))
  }

  /** The value of the digits of `s`, underscores skipped. */
  function DigitsValue(s: string): nat
    requires forall i :: 0 <= i < |s| ==> IsDigit(s[i]) || s[i] == '_'
  {
    if s == [] then 0
    else if s[|s| - 1] == '_' then DigitsValue(s[..|s| - 1])
    else DigitsValue(s[..|s| - 1]) * 10 + DigitValue(s[|s| - 1])
  }

  /** `int(s)` for a string `s`; `None` where Python raises `ValueError`. */
  function ParseInt(s: string): (r: Option<int>)
    ensures r.Some? ==> HasText(s)
  {
    var t := Trim(s);
    if t == [] then None
    else
      var sign, digits := if t[0] == '-' then -1 else 1, if t[0] == '-' || t[0] == '+' then t[1..] else t;
      if DigitGroups(digits) then
        assert t[|t| - 1] == s[|t| - 1 + (|s| - |TrimStart(s)|)];
        Some(sign * DigitsValue(digits))
      else None
  }

  /** `s.split(c)[0]`: everything before the first `c`. */
  function BeforeFirst(s: string, c: char): (r: string)
    ensures r <= s && c !in r
    ensures |r| == |s| || s[|r|] == c
  {
    if s == [] || s[0] == c then [] else [s[0]] + BeforeFirst(s[1..], c)
  }

  // ---------------------------------------------------------------------------
  // Properties

  lemma TrimDigits(s: string)
    requires forall i :: 0 <= i < |s| ==> IsDigit(s[i])
    ensures Trim(s) == s
  {
    if s != [] {
      var c, d := s[0], s[|s| - 1];
      assert IsDigit(c) && IsDigit(d);
      assert !IsWhitespace(c) && !IsWhitespace(d);
      assert TrimStart(s) == s;
      assert TrimEnd(s) == s;
    }
  }

  lemma {:induction false} DigitsValueOfDecimal(n: nat)
    ensures DigitsValue(NatToDecimal(n)) == n
  {
    var s := NatToDecimal(n);
    if n >= 10 {
      DigitsValueOfDecimal(n / 10);
      assert s[..|s| - 1] == NatToDecimal(n / 10);
    }
  }

  /** Reading back a written number gives the number. */
  lemma ParseDecimal(n: nat)
    ensures ParseInt(NatToDecimal(n)) == Some(n)
  {
    var s := NatToDecimal(n);
    TrimDigits(s);
    DigitsValueOfDecimal(n);
    assert DigitGroups(s);
  }

  /** The prefix before the first separator of `a + [c] + b`, when `a` has
      no separator, is `a`. */
  lemma {:induction false} BeforeFirstConcat(a: string, c: char, b: string)
    requires c !in a
    ensures BeforeFirst(a + [c] + b, c) == a
  {
    if a != [] {
      assert (a + [c] + b)[1..] == a[1..] + [c] + b;
      BeforeFirstConcat(a[1..], c, b);
    }
  }

  predicate NoDigit(s: string) {
    forall i :: 0 <= i < |s| ==> !IsDigit(s[i])
  }

  /** `int()` accepts no text without a digit. */
  lemma NoDigitNoInt(s: string)
    requires NoDigit(s)
    ensures ParseInt(s).None?
  {
    var t := Trim(s);
    if t != [] {
      var u := TrimStart(s);
      assert t == u[..|t|] && u == s[|s| - |u|..];
      var digits := if t[0] == '-' || t[0] == '+' then t[1..] else t;
      if digits != [] {
        var k := if t[0] == '-' || t[0] == '+' then 1 else 0;
        assert digits[0] == t[k] == s[|s| - |u| + k];
      }
    }
  }

  /** Worked example: the year of an ISO sale date. */
  lemma SaleYearOfIsoDate(d: string)
    requires d == "2015-06-30"
    ensures BeforeFirst(d, '-') == "2015"
  {
    assert BeforeFirst(d[4..], '-') == [];
    assert BeforeFirst(d[3..], '-') == "5";
    assert BeforeFirst(d[2..], '-') == "15";
    assert BeforeFirst(d[1..], '-') == "015";
  }

  /** Worked example: a year written and read back. */
  lemma DecimalOf2015(n: nat, s: string)
    requires n == 2015 && s == "2015"
    ensures NatToDecimal(n) == s
    ensures ParseInt(s) == Some(n)
  {
    var n1, n2, n3 := n / 10, n / 100, n / 1000;
    assert n1 == 201 && n2 == 20 && n3 == 2;
    assert n1 / 10 == n2 && n2 / 10 == n3;
    assert NatToDecimal(n3) == ['2'];
    assert NatToDecimal(n2) == NatToDecimal(n3) + ['0'];
    assert NatToDecimal(n1) == NatToDecimal(n2) + ['1'];
    assert NatToDecimal(n) == NatToDecimal(n1) + ['5'];
    ParseDecimal(n);
  }
}
