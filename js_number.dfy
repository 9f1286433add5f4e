/** JavaScript's `Number(string)` conversion, for the decimal literals a configuration file holds:
    surrounding white space is ignored, a blank string is 0, an optional sign is followed by digits
    with at most one decimal point, and anything else is NaN. Values are exact reals. */
module JsNumber {
  import opened JsString

  /** A number as `Number(string)` produces it in this model. */
  datatype Number = NaN | Finite(value: real)

  predicate IsDigit(c: char) {
    '0' <= c <= '9'
  }

  predicate AllDigits(s: string) {
    forall i :: 0 <= i < |s| ==> IsDigit(s[i])
  }

  /** The value of a string of decimal digits, most significant first. */
  function DigitsValue(ds: string): nat
    requires AllDigits(ds)
  {
    if ds == [] then 0 else 10 * DigitsValue(ds[..|ds| - 1]) + (ds[|ds| - 1] as int - '0' as int)
  }

  function Pow10(n: nat): (r: nat)
    ensures r >= 1
  {
    if n == 0 then 1 else 10 * Pow10(n - 1)
  }

  /** Index of the first `c` in `s`, or `|s|` when there is none. */
  function IndexOf(s: string, c: char): (k: nat)
    ensures k <= |s|
    ensures k < |s| ==> s[k] == c
    ensures forall i :: 0 <= i < k ==> s[i] != c
  {
    if s == [] || s[0] == c then 0 else 1 + IndexOf(s[1..], c)
  }

  /** An unsigned decimal literal: digits, optionally a point and more digits, with at least one
      digit in all (so "5", "5.", ".5" and "5.25" are numbers, "." and "" are not). */
  function UnsignedDecimal(s: string): (n: Number)
    ensures n.Finite? ==> n.value >= 0.0
  {
    var k := IndexOf(s, '.');
    var whole := s[..k];
    var fraction := if k < |s| then s[k + 1..] else "";
    if AllDigits(whole) && AllDigits(fraction) && |whole| + |fraction| > 0 then
      Finite(DigitsValue(whole) as real + DigitsValue(fraction) as real / Pow10(|fraction|) as real)
    else
      NaN
  }

  /** `Number(s)` for a string `s`. */
  function StringToNumber(s: string): Number {
    var t := Trim(s);
    if t == [] then Finite(0.0)
    else if t[0] == '-' then
      match UnsignedDecimal(t[1..])
      case NaN => NaN
      case Finite(v) => Finite(-v)
    else if t[0] == '+' then UnsignedDecimal(t[1..])
    else UnsignedDecimal(t)
  }

  function DigitChar(d: nat): (c: char)
    requires d < 10
    ensures IsDigit(c) && c as int - '0' as int == d
  {
    ('0' as int + d) as char
  }

  /** The decimal rendering of a natural number, without leading zeros. */
  function ShowNat(n: nat): (s: string)
    ensures |s| >= 1 && AllDigits(s)
  {
    if n < 10 then [DigitChar(n)] else ShowNat(n / 10) + [DigitChar(n % 10)]
  }

  /** Reading back the digits of a rendered number gives the number. */
  lemma {:induction false} ShowNatValue(n: nat)
    ensures DigitsValue(ShowNat(n)) == n
  {
    var s := ShowNat(n);
    if n >= 10 {
      ShowNatValue(n / 10);
      assert s[..|s| - 1] == ShowNat(n / 10);
    }
  }

  /** Round trip: `Number` of a rendered natural number is that number. */
  lemma StringToNumberShowNat(n: nat)
    ensures StringToNumber(ShowNat(n)) == Finite(n as real)
  {
    var s := ShowNat(n);
    TrimUnpadded(s);
    assert s[0] != '-' && s[0] != '+';
    UnsignedDigits(s);
    ShowNatValue(n);
  }

  /** A string that neither starts nor ends with white space is its own trim. */
  lemma TrimUnpadded(s: string)
    requires s != [] && !IsWhiteSpace(s[0]) && !IsWhiteSpace(s[|s| - 1])
    ensures Trim(s) == s
  {
    assert TrimStart(s) == s;
    assert TrimEnd(s) == s;
  }

  /** A non-empty run of digits is read as the integer it spells. */
  lemma UnsignedDigits(s: string)
    requires s != [] && AllDigits(s)
    ensures UnsignedDecimal(s) == Finite(DigitsValue(s) as real)
  {
    IndexOfAbsent(s, '.');
    assert s[..|s|] == s;
    var fraction: string := "";
    assert AllDigits(fraction) && DigitsValue(fraction) == 0 && Pow10(|fraction|) == 1;
  }

  /** A literal `whole.fraction` of digit strings, at least one of them non-empty, converts to
      the whole part plus the fraction scaled down by its number of digits. */
  lemma {:induction false} UnsignedDecimalPoint(whole: string, fraction: string)
    requires AllDigits(whole) && AllDigits(fraction) && |whole| + |fraction| > 0
    ensures UnsignedDecimal(whole + "." + fraction)
         == Finite(DigitsValue(whole) as real + DigitsValue(fraction) as real / Pow10(|fraction|) as real)
  {
    var s := whole + "." + fraction;
    var k := |whole|;
    assert s[k] == '.';
    forall i | 0 <= i < k
      ensures s[i] != '.'
    {
      assert s[i] == whole[i] && IsDigit(whole[i]);
    }
    IndexOfFirst(s, '.', k);
    assert s[..k] == whole;
    assert s[k + 1..] == fraction;
  }

  /** The index of `c` is `k` when `s[k]` is the first `c`. */
  lemma {:induction false} IndexOfFirst(s: string, c: char, k: nat)
    requires k < |s| && s[k] == c && forall i :: 0 <= i < k ==> s[i] != c
    ensures IndexOf(s, c) == k
  {
    if k > 0 {
      IndexOfFirst(s[1..], c, k - 1);
    }
  }

  /** A character that does not occur is found at the end. */
  lemma {:induction false} IndexOfAbsent(s: string, c: char)
    requires forall i :: 0 <= i < |s| ==> s[i] != c
    ensures IndexOf(s, c) == |s|
  {
    if s != [] {
      IndexOfAbsent(s[1..], c);
    }
  }

  /** A blank string converts to 0, not to NaN. */
  lemma BlankIsZero(s: string)
    requires forall i :: 0 <= i < |s| ==> IsWhiteSpace(s[i])
    ensures StringToNumber(s) == Finite(0.0)
  {
  }

  /** A literal that starts with a letter is NaN. */
  lemma LetterIsNaN(s: string)
    requires s != [] && 'a' <= s[0] <= 'z'
    ensures StringToNumber(s) == NaN
  {
    assert !IsWhiteSpace(s[0]);
    assert TrimStart(s) == s;
    var t := Trim(s);
    assert t != [] && t[0] == s[0];
    var k := IndexOf(t, '.');
    assert t[..k][0] == s[0];
  }
}
