/** An abstraction of the two number conversions the core relies on:
    strconv.ParseFloat on the numerals the tokenizer produces, and the
    decimal formatting of `%d` used to build task identifiers. Numbers are
    mathematical reals; IEEE-754 rounding is not modelled. */
module Strconv {
  import opened Errors

  predicate IsDigit(c: char) { '0' <= c <= '9' }

  /** A character the tokenizer accumulates into a number. */
  predicate IsNumChar(c: char) { IsDigit(c) || c == '.' }

  function DigitCount(s: string): nat
  {
    if s == [] then 0 else (if IsDigit(s[0]) then 1 else 0) + DigitCount(s[1..])
  }

  function DotCount(s: string): nat
  {
    if s == [] then 0 else (if s[0] == '.' then 1 else 0) + DotCount(s[1..])
  }

  /** The strings ParseFloat accepts in this model: digits and dots only,
      at least one digit, at most one dot ("1", "1.", ".5", "1.25"). */
  predicate IsNumeral(s: string)
  {
    (forall i :: 0 <= i < |s| ==> IsNumChar(s[i])) && DigitCount(s) >= 1 && DotCount(s) <= 1
  }

  /** The index of the first '.', or |s| when there is none. */
  function DotIndex(s: string): (k: nat)
    ensures k <= |s|
    ensures forall i :: 0 <= i < k ==> s[i] != '.'
    ensures k < |s| ==> s[k] == '.'
  {
    if s == [] || s[0] == '.' then 0 else 1 + DotIndex(s[1..])
  }

  function Pow10(k: nat): (p: nat)
    ensures p >= 1
  {
    if k == 0 then 1 else 10 * Pow10(k - 1)
  }

  /** The value of a string of decimal digits, most significant first. */
  function DigitsValue(s: string): nat
    requires forall i :: 0 <= i < |s| ==> IsDigit(s[i])
  {
    if s == [] then 0
    else
      var last := s[|s| - 1];
      assert IsDigit(last);
      10 * DigitsValue(s[..|s| - 1]) + (last as int - '0' as int)
  }

  /** The value of a numeral: integer part plus fractional digits over a
      power of ten. */
  function NumeralValue(s: string): real
    requires IsNumeral(s)
  {
    var d := DotIndex(s);
    var intPart, frac := s[..d], if d < |s| then s[d + 1..] else [];
    assert forall i :: 0 <= i < |frac| ==> frac[i] == s[d + 1 + i];
    assert forall i :: 0 <= i < |frac| ==> IsDigit(frac[i]) by {
      forall i | 0 <= i < |frac| ensures IsDigit(frac[i]) {
        OneDot(s, d, d + 1 + i);
      }
    }
    DigitsValue(intPart) as real + DigitsValue(frac) as real / Pow10(|frac|) as real
  }

  /** A numeral has no dot after its first one. */
  lemma {:induction false} OneDot(s: string, d: nat, j: nat)
    requires IsNumeral(s) && d == DotIndex(s) && d < j < |s|
    ensures IsDigit(s[j])
  {
    if !IsDigit(s[j]) {
      DotsAfter(s, d, j);
    }
  }

  lemma {:induction false} DotsAfter(s: string, d: nat, j: nat)
    requires d < j < |s| && s[d] == '.' && s[j] == '.'
    ensures DotCount(s) >= 2
  {
    if d == 0 {
      DotCountAt(s[1..], j - 1);
    } else {
      DotsAfter(s[1..], d - 1, j - 1);
    }
  }

  lemma {:induction false} DotCountAt(s: string, j: nat)
    requires j < |s| && s[j] == '.'
    ensures DotCount(s) >= 1
  {
    if j > 0 {
      DotCountAt(s[1..], j - 1);
    }
  }

  /** strconv.ParseFloat(s, 64), restricted to the digit/dot grammar: it
      succeeds exactly on numerals. (Go's own grammar is wider: signs,
      exponents, "inf"; none of these reach it from the tokenizer.) */
  function ParseFloat(s: string): (r: Option<real>)
    ensures r.Some? <==> IsNumeral(s)
    ensures r.Some? ==> r.value >= 0.0
  {
    if IsNumeral(s) then Some(NumeralValue(s)) else None
  }

  /** fmt.Sprintf("%d", n) for a natural number. */
  function FormatInt(n: nat): (s: string)
    ensures |s| >= 1
    ensures forall i :: 0 <= i < |s| ==> IsDigit(s[i])
    ensures (|s| == 1) == (n < 10)
  {
    if n < 10 then [('0' as int + n) as char]
    else FormatInt(n / 10) + [('0' as int + n % 10) as char]
  }

  /** Reading back a formatted number gives the number. */
  lemma {:induction false} DigitsValueFormatInt(n: nat)
    ensures DigitsValue(FormatInt(n)) == n
  {
    if n >= 10 {
      var s := FormatInt(n);
      assert s[..|s| - 1] == FormatInt(n / 10);
      DigitsValueFormatInt(n / 10);
    }
  }

  /** Round trip: ParseFloat(fmt.Sprintf("%d", n)) == n. */
  lemma ParseFloatFormatInt(n: nat)
    ensures ParseFloat(FormatInt(n)) == Some(n as real)
  {
    var s := FormatInt(n);
    DigitsNumeral(s);
    assert DotIndex(s) == |s|;
    assert s[..|s|] == s;
    DigitsValueFormatInt(n);
  }

  /** A non-empty string of digits is a numeral. */
  lemma {:induction false} DigitsNumeral(s: string)
    requires |s| >= 1 && forall i :: 0 <= i < |s| ==> IsDigit(s[i])
    ensures IsNumeral(s) && DotCount(s) == 0 && DigitCount(s) == |s|
  {
    if |s| > 1 {
      DigitsNumeral(s[1..]);
    }
  }

  /** Different numbers print differently, so task identifiers never clash. */
  lemma {:induction false} FormatIntInjective(n: nat, m: nat)
    requires FormatInt(n) == FormatInt(m)
    ensures n == m
  {
    if n >= 10 && m >= 10 {
      var s := FormatInt(n);
      assert s[..|s| - 1] == FormatInt(n / 10);
      assert FormatInt(m)[..|s| - 1] == FormatInt(m / 10);
      FormatIntInjective(n / 10, m / 10);
    }
  }

  /** No operator or bracket character is a numeral. */
  lemma ParseFloatSymbol(c: char)
    requires c in "+-*/()"
    ensures ParseFloat([c]) == None
  {
  }

  /** A single digit is a numeral worth that digit. */
  lemma ParseFloatDigit(c: char)
    requires IsDigit(c)
    ensures ParseFloat([c]) == Some((c as int - '0' as int) as real)
  {
    assert [c][1..] == [];
    assert DigitCount([c]) == 1 && DotCount([c]) == 0;
    assert DotIndex([c]) == 1;
  }

  /** A digit, a dot and a digit: a numeral with one decimal place. */
  lemma ParseFloatOneDecimal(a: char, b: char)
    requires IsDigit(a) && IsDigit(b)
    ensures ParseFloat([a, '.', b]) == Some((a as int - '0' as int) as real + (b as int - '0' as int) as real / 10.0)
  {
    var s := [a, '.', b];
    DigitsNumeral([b]);
    assert ['.', b][1..] == [b];
    assert DigitCount(['.', b]) == 1 && DotCount(['.', b]) == 1;
    assert s[1..] == ['.', b];
    assert DigitCount(s) == 2 && DotCount(s) == 1;
    assert IsNumeral(s);
    assert s[1..][0] == '.';
    assert DotIndex(s) == 1;
    assert s[..1] == [a] && s[2..] == [b];
    OneDigitValue(a);
    OneDigitValue(b);
    assert Pow10(1) == 10;
    assert NumeralValue(s) == DigitsValue([a]) as real + DigitsValue([b]) as real / 10.0;
  }

  /** A single digit is worth its own value. */
  lemma OneDigitValue(c: char)
    requires IsDigit(c)
    ensures DigitsValue([c]) == c as int - '0' as int
  {
    assert [c][..0] == [];
  }
}
