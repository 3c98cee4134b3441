/** The decimal text of an integer, as string concatenation in JavaScript gives it for
    the offsets and years it is used on (`'...&offset=' + offset`, `queryYear + '-01-01'`),
    and the inverse reading.  The integers are unbounded: JavaScript's exponent form from
    1e21 up and its loss of precision above 2^53 are not modelled. */
module Decimal {

  /** The decimal digit character for `d`. */
  function DigitChar(d: nat): (c: char)
    requires d < 10
    ensures '0' <= c <= '9'
    ensures DigitValue(c) == d
  {
    (48 + d) as char
  }

  /** The numeric value of a decimal digit character. */
  function DigitValue(c: char): (d: nat)
    ensures d < 10
  {
    if '0' <= c <= '9' then (c as int - '0' as int) else 0
  }

  predicate IsDigits(s: string) {
    |s| > 0 && forall i :: 0 <= i < |s| ==> '0' <= s[i] <= '9'
  }

  /** The shortest decimal spelling of a natural number, most significant digit first:
      only zero itself starts with `0`. */
  function NatToString(n: nat): (s: string)
    ensures IsDigits(s)
    ensures s[0] == '0' ==> n == 0
  {
    if n < 10 then [DigitChar(n)] else NatToString(n / 10) + [DigitChar(n % 10)]
  }

  /** An integer in decimal, with a minus sign for negative values, as JavaScript prints
      integers of magnitude below 1e21. */
  function IntToString(i: int): (s: string)
    ensures |s| > 0
    ensures i >= 0 <==> s[0] != '-'
    ensures i >= 0 ==> IsDigits(s) && (s[0] == '0' ==> i == 0)
    ensures i < 0 ==> IsDigits(s[1..]) && s[1] != '0'
  {
    if i < 0 then "-" + NatToString(-i) else NatToString(i)
  }

  /** Reads a run of decimal digits back as a number. */
  function ParseNat(s: string): nat {
    if |s| == 0 then 0 else ParseNat(s[..|s| - 1]) * 10 + DigitValue(s[|s| - 1])
  }

  /** Reads an optionally signed run of decimal digits back as an integer. */
  function ParseInt(s: string): int {
    if |s| > 0 && s[0] == '-' then -(ParseNat(s[1..]) as int) else ParseNat(s)
  }

  lemma {:induction false} ParseNatToString(n: nat)
    ensures ParseNat(NatToString(n)) == n
  {
    var s := NatToString(n);
    if n >= 10 {
      var prefix := NatToString(n / 10);
      var last := DigitChar(n % 10);
      assert s == prefix + [last];
      assert s[..|s| - 1] == prefix && s[|s| - 1] == last;
      ParseNatToString(n / 10);
      assert ParseNat(s) == (n / 10) * 10 + n % 10;
    }
  }

  /** `DigitChar` undoes `DigitValue` on digit characters. */
  lemma DigitCharValue(c: char)
    requires '0' <= c <= '9'
    ensures DigitChar(DigitValue(c)) == c
  {
  }

  /** A run of digits that does not start with `0` reads as a positive number. */
  lemma {:induction false} ParseNatPositive(s: string)
    requires IsDigits(s) && s[0] != '0'
    ensures ParseNat(s) > 0
  {
    if |s| > 1 {
      var p := s[..|s| - 1];
      assert p[0] == s[0];
      ParseNatPositive(p);
    }
  }

  /** The spelling is the only one: a run of digits with no leading zero (other than
      `0` itself) that reads as `n` is `NatToString(n)`. */
  lemma {:induction false} NatToStringUnique(s: string, n: nat)
    requires IsDigits(s) && (s[0] == '0' ==> |s| == 1) && ParseNat(s) == n
    ensures s == NatToString(n)
  {
    var d := s[|s| - 1];
    DigitCharValue(d);
    if |s| == 1 {
      assert ParseNat(s) == ParseNat(s[..0]) * 10 + DigitValue(d);
      assert s == [d];
    } else {
      var p := s[..|s| - 1];
      assert p[0] == s[0];
      ParseNatPositive(p);
      assert n == ParseNat(p) * 10 + DigitValue(d);
      assert n / 10 == ParseNat(p) && n % 10 == DigitValue(d);
      NatToStringUnique(p, n / 10);
      assert s == p + [d];
    }
  }

  /** The offsets and years of the unit tests print as JavaScript prints them. */
  lemma ExampleIntToString()
    ensures IntToString(26) == "26" && IntToString(2014) == "2014" && IntToString(0) == "0"
    ensures IntToString(-7) == "-7"
  {
    assert NatToString(2) == "2" && NatToString(20) == "20" && NatToString(201) == "201";
  }

  /** Printing an integer loses nothing: it can always be read back. */
  lemma {:induction false} ParseIntToString(i: int)
    ensures ParseInt(IntToString(i)) == i
  {
    var s := IntToString(i);
    if i < 0 {
      var n := NatToString(-i);
      assert s == "-" + n;
      assert s[1..] == n;
      ParseNatToString(-i);
      assert ParseInt(s) == -(ParseNat(n) as int);
    } else {
      assert s == NatToString(i) && s[0] != '-';
      ParseNatToString(i);
    }
  }

  /** Distinct integers are printed differently. */
  lemma {:induction false} IntToStringInjective(i: int, j: int)
    ensures IntToString(i) == IntToString(j) <==> i == j
  {
    if IntToString(i) == IntToString(j) {
      ParseIntToString(i);
      ParseIntToString(j);
    }
  }
}
