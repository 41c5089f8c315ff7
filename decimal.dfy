/**
 * Decimal text of non-negative integers: how JavaScript writes an array index
 * or a placeholder number (`$${i + 1}`), and how it recognises a property key
 * as an array index.
 */
module Decimal {
  import opened Results

  predicate IsDigit(c: char) {
    '0' <= c <= '9'
  }

  predicate AllDigits(s: string) {
    forall i :: 0 <= i < |s| ==> IsDigit(s[i])
  }

  function DigitChar(d: nat): (c: char)
    requires d < 10
    ensures IsDigit(c) && c as int - '0' as int == d
  {
    "0123456789"[d]
  }

  function DigitValue(c: char): nat
    requires IsDigit(c)
  {
    c as int - '0' as int
  }

  /** The decimal text of n, most significant digit first. */
  function NatToString(n: nat): (r: string)
    ensures |r| >= 1 && AllDigits(r)
    ensures r[0] == '0' <==> n == 0
  {
    if n < 10 then [DigitChar(n)] else NatToString(n / 10) + [DigitChar(n % 10)]
  }

  function DigitsValue(s: string): nat
    requires AllDigits(s)
  {
    if s == [] then 0 else DigitsValue(s[..|s| - 1]) * 10 + DigitValue(s[|s| - 1])
  }

  /** A canonical numeric key: digits only, and no leading zero unless it is "0". */
  predicate IsCanonical(s: string) {
    |s| >= 1 && AllDigits(s) && (s[0] == '0' ==> |s| == 1)
  }

  /** The index a property key denotes, when it denotes one. */
  function ParseCanonical(s: string): Option<nat> {
    if IsCanonical(s) then Some(DigitsValue(s)) else None
  }

  lemma {:induction false} DigitsValueOfNatToString(n: nat)
    ensures DigitsValue(NatToString(n)) == n
  {
    if n >= 10 {
      var prefix := NatToString(n / 10);
      var r := NatToString(n);
      assert r[..|r| - 1] == prefix;
      DigitsValueOfNatToString(n / 10);
    }
  }

  /** Writing an index and reading it back gives the index. */
  lemma ParseNatToString(n: nat)
    ensures ParseCanonical(NatToString(n)) == Some(n)
  {
    DigitsValueOfNatToString(n);
  }

  lemma {:induction false} DigitsValuePositive(s: string)
    requires |s| >= 1 && AllDigits(s) && s[0] != '0'
    ensures DigitsValue(s) >= 1
  {
    if |s| > 1 {
      DigitsValuePositive(s[..|s| - 1]);
    }
  }

  /** Reading a canonical key and writing the index back gives the key. */
  lemma {:induction false} NatToStringOfParse(s: string)
    requires IsCanonical(s)
    ensures ParseCanonical(s).Some? && NatToString(ParseCanonical(s).value) == s
  {
    var n := DigitsValue(s);
    if |s| > 1 {
      var init := s[..|s| - 1];
      assert IsCanonical(init);
      DigitsValuePositive(init);
      NatToStringOfParse(init);
      assert n / 10 == DigitsValue(init) && n % 10 == DigitValue(s[|s| - 1]);
      assert NatToString(n) == init + [s[|s| - 1]];
      assert init + [s[|s| - 1]] == s;
    } else {
      assert s[..|s| - 1] == [];
      assert n == DigitsValue(s[..|s| - 1]) * 10 + DigitValue(s[0]);
      assert DigitChar(n) as int == s[0] as int;
    }
  }

  /** Distinct indices have distinct keys. */
  lemma NatToStringInjective(m: nat, n: nat)
    ensures NatToString(m) == NatToString(n) ==> m == n
  {
    ParseNatToString(m);
    ParseNatToString(n);
  }
}
