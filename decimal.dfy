/**
 * Decimal rendering of integers, as JavaScript's `Number.prototype.toString()`
 * produces it for an integer-valued number, and the one parser whose accepted
 * strings are exactly those renderings.
 */
module Decimal {
  import opened Wrappers

  predicate IsDigit(c: char) {
    '0' <= c <= '9'
  }

  function DigitChar(d: nat): (c: char)
    requires d < 10
    ensures IsDigit(c) && c as int - '0' as int == d
  {
    ('0' as int + d) as char
  }

  function DigitValue(c: char): (d: nat)
    requires IsDigit(c)
    ensures d < 10 && DigitChar(d) == c
  {
    c as int - '0' as int
  }

  predicate AllDigits(s: string) {
    forall i :: 0 <= i < |s| ==> IsDigit(s[i])
  }

  /** At least one digit, no sign, and no leading zero unless the string is "0". */
  predicate Canonical(s: string) {
    |s| >= 1 && AllDigits(s) && (s[0] == '0' ==> |s| == 1)
  }

  /** The digits of `n`, most significant first. */
  function NatDigits(n: nat): (s: string)
    ensures Canonical(s)
    ensures s[0] == '0' <==> n == 0
  {
    if n < 10 then [DigitChar(n)] else NatDigits(n / 10) + [DigitChar(n % 10)]
  }

  /** The number a string of digits denotes. */
  function Value(s: string): nat
    requires AllDigits(s)
  {
    if s == [] then 0 else Value(s[..|s| - 1]) * 10 + DigitValue(s[|s| - 1])
  }

  /** `n.toString()` for an integer `n`: a minus sign for negatives, then the digits. */
  function Render(n: int): string {
    if n < 0 then "-" + NatDigits(-n) else NatDigits(n)
  }

  /** Accepts exactly the strings `Render` produces: no "+", no "-0", no leading zeros. */
  function Parse(s: string): Option<int> {
    if |s| >= 2 && s[0] == '-' && Canonical(s[1..]) && s[1] != '0' then Some(-(Value(s[1..]) as int))
    else if Canonical(s) then Some(Value(s))
    else None
  }

  lemma {:induction false} ValueOfNatDigits(n: nat)
    ensures Value(NatDigits(n)) == n
  {
    var s := NatDigits(n);
    if n < 10 {
      assert s[..|s| - 1] == [];
    } else {
      assert s[..|s| - 1] == NatDigits(n / 10);
      ValueOfNatDigits(n / 10);
    }
  }

  lemma {:induction false} ValuePositive(s: string)
    requires |s| >= 1 && AllDigits(s) && s[0] != '0'
    ensures Value(s) >= 1
  {
    if |s| > 1 {
      ValuePositive(s[..|s| - 1]);
    } else {
      assert s[..|s| - 1] == [];
    }
  }

  lemma {:induction false} NatDigitsOfValue(s: string)
    requires Canonical(s)
    ensures NatDigits(Value(s)) == s
  {
    var p, c := s[..|s| - 1], s[|s| - 1];
    if |s| == 1 {
      assert p == [];
      assert NatDigits(Value(s)) == [DigitChar(DigitValue(c))];
    } else {
      assert Canonical(p) && p[0] == s[0];
      ValuePositive(p);
      NatDigitsOfValue(p);
      var v := Value(s);
      assert v == Value(p) * 10 + DigitValue(c);
      assert v / 10 == Value(p) && v % 10 == DigitValue(c);
      assert s == p + [c];
    }
  }

  /** Parsing a rendering gives back the integer. */
  lemma ParseRender(n: int)
    ensures Parse(Render(n)) == Some(n)
  {
    if n < 0 {
      var d := NatDigits(-n);
      var s := "-" + d;
      assert s == Render(n);
      assert s[1..] == d && s[1] == d[0] != '0';
      ValueOfNatDigits(-n);
      assert Parse(s) == Some(-(Value(d) as int));
    } else {
      var s := NatDigits(n);
      assert IsDigit(s[0]);
      ValueOfNatDigits(n);
      assert Parse(s) == Some(Value(s));
    }
  }

  /** Whatever `Parse` accepts is the rendering of the integer it yields. */
  lemma RenderParse(s: string)
    ensures Parse(s).Some? ==> Render(Parse(s).value) == s
  {
    if |s| >= 2 && s[0] == '-' && Canonical(s[1..]) && s[1] != '0' {
      ValuePositive(s[1..]);
      NatDigitsOfValue(s[1..]);
      assert s == "-" + s[1..];
    } else if Canonical(s) {
      NatDigitsOfValue(s);
    }
  }

  /** A string is the rendering of `n` exactly when it parses to `n`. */
  lemma RenderIff(n: int, s: string)
    ensures Render(n) == s <==> Parse(s) == Some(n)
  {
    ParseRender(n);
    RenderParse(s);
  }

  /** Distinct integers have distinct renderings. */
  lemma RenderInjective(m: int, n: int)
    ensures Render(m) == Render(n) <==> m == n
  {
    ParseRender(m);
    ParseRender(n);
  }
}
