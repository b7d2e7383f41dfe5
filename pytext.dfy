/**
 * The two Python string builtins the launcher relies on: `str.lower`
 * (restricted to ASCII letters) and the decimal text of a non-negative
 * integer produced by `str(n)` and by f-string interpolation.
 */
module PyText {

  predicate IsUpperAscii(c: char) { 'A' <= c <= 'Z' }

  predicate IsLowerAscii(c: char) { 'a' <= c <= 'z' }

  /** Lower-cases one ASCII letter; every other character is kept. */
  function LowerChar(c: char): (d: char)
    ensures IsUpperAscii(c) ==> IsLowerAscii(d) && d as int == c as int + 32
    ensures !IsUpperAscii(c) ==> d == c
  {
    if IsUpperAscii(c) then (c as int + 32) as char else c
  }

  /** Upper-cases one ASCII letter; every other character is kept. */
  function UpperChar(c: char): (d: char)
    ensures IsLowerAscii(c) ==> IsUpperAscii(d) && LowerChar(d) == c
    ensures !IsLowerAscii(c) ==> d == c
  {
    if IsLowerAscii(c) then (c as int - 32) as char else c
  }

  /** `s.lower()`: the string with every character lower-cased, same length. */
  function Lower(s: string): (r: string)
    ensures |r| == |s|
    ensures forall i :: 0 <= i < |s| ==> r[i] == LowerChar(s[i])
  {
    if s == [] then [] else [LowerChar(s[0])] + Lower(s[1..])
  }

  /**
   * Every string obtained from `w` by upper-casing any choice of its
   * characters: the strings that compare equal to `w` ignoring ASCII case.
   */
  function CaseVariants(w: string): set<string>
  {
    if w == [] then {[]}
    else set c, rest | c in {w[0], UpperChar(w[0])} && rest in CaseVariants(w[1..]) :: [c] + rest
  }

  /** The two characters that lower-case to an already lower-case `d`. */
  lemma LowerCharPreimage(c: char, d: char)
    requires LowerChar(d) == d
    ensures LowerChar(c) == d <==> c == d || c == UpperChar(d)
  {
  }

  /** For a lower-case word `w`, `v.lower() == w` exactly when `v` is a case variant of `w`. */
  lemma {:induction false} LowerIffCaseVariant(v: string, w: string)
    requires Lower(w) == w
    ensures Lower(v) == w <==> v in CaseVariants(w)
    decreases |w|
  {
    if w == [] {
      assert Lower(v) == [] <==> v == [];
    } else {
      assert LowerChar(w[0]) == w[0];
      assert Lower(w[1..]) == w[1..] by {
        assert Lower(w) == [LowerChar(w[0])] + Lower(w[1..]);
      }
      if Lower(v) == w {
        assert v != [];
        assert Lower(v) == [LowerChar(v[0])] + Lower(v[1..]);
        LowerIffCaseVariant(v[1..], w[1..]);
        LowerCharPreimage(v[0], w[0]);
        assert v == [v[0]] + v[1..];
        assert v in CaseVariants(w);
      }
      if v in CaseVariants(w) {
        var c, rest :| c in {w[0], UpperChar(w[0])} && rest in CaseVariants(w[1..]) && v == [c] + rest;
        LowerIffCaseVariant(rest, w[1..]);
        LowerCharPreimage(c, w[0]);
        assert v[1..] == rest;
        assert Lower(v) == [LowerChar(c)] + Lower(rest);
      }
    }
  }

  predicate IsDigit(c: char) { '0' <= c <= '9' }

  predicate AllDigits(s: string) { forall i :: 0 <= i < |s| ==> IsDigit(s[i]) }

  function DigitChar(d: nat): (c: char)
    requires d < 10
    ensures IsDigit(c)
  {
    ('0' as int + d) as char
  }

  function DigitValue(c: char): (d: nat)
    requires IsDigit(c)
    ensures d < 10 && DigitChar(d) == c
  {
    c as int - '0' as int
  }

  /** `str(n)` for a non-negative integer: its decimal digits, no leading zero. */
  function Decimal(n: nat): (s: string)
    ensures |s| >= 1 && AllDigits(s)
    ensures s[0] == '0' ==> n == 0
    decreases n
  {
    if n < 10 then [DigitChar(n)] else Decimal(n / 10) + [DigitChar(n % 10)]
  }

  /** The number the decimal digits `s` denote: the inverse of Decimal. */
  function ParseDecimal(s: string): nat
    requires AllDigits(s)
    decreases |s|
  {
    if s == [] then 0 else ParseDecimal(s[..|s| - 1]) * 10 + DigitValue(s[|s| - 1])
  }

  lemma {:induction false} DecimalRoundTrip(n: nat)
    ensures ParseDecimal(Decimal(n)) == n
    decreases n
  {
    var s := Decimal(n);
    if n < 10 {
      assert s[..|s| - 1] == [];
    } else {
      DecimalRoundTrip(n / 10);
      assert s[..|s| - 1] == Decimal(n / 10);
      assert DigitValue(s[|s| - 1]) == n % 10;
    }
  }
}
