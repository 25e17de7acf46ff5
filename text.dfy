/**
 * The string transforms the request handlers apply to feature names:
 * `name.replace('_', ' ')`, Python's `str.title()` (over ASCII letters),
 * and `str(n)` for the integer bounds quoted in error messages.
 */
module Text {

  // ---------------------------------------------------------------- replace

  /** `s.replace('_', ' ')`: every underscore becomes a space, every other character stays. */
  function Spaced(s: string): (r: string)
    ensures |r| == |s|
    ensures forall i :: 0 <= i < |s| ==> r[i] == (if s[i] == '_' then ' ' else s[i])
    ensures '_' !in r
  {
    if s == [] then []
    else [if s[0] == '_' then ' ' else s[0]] + Spaced(s[1..])
  }

  // ---------------------------------------------------------------- title

  predicate IsUpper(c: char) { 'A' <= c <= 'Z' }

  predicate IsLower(c: char) { 'a' <= c <= 'z' }

  /** A character with case; `str.title()` starts a new word after every character that has none. */
  predicate IsCased(c: char) { IsUpper(c) || IsLower(c) }

  function ToUpper(c: char): char
  {
    if IsLower(c) then (c as int - 32) as char else c
  }

  function ToLower(c: char): char
  {
    if IsUpper(c) then (c as int + 32) as char else c
  }

  /**
   * What `str.title()` puts at position `i`: a character that follows a cased
   * character is lowered, any other one is raised.
   */
  function TitleCharAt(s: string, i: nat): char
    requires i < |s|
  {
    if i > 0 && IsCased(s[i - 1]) then ToLower(s[i]) else ToUpper(s[i])
  }

  /**
   * The left-to-right scan of `str.title()`, carrying whether the previous
   * input character was cased.
   */
  function TitleScan(s: string, previousCased: bool): (r: string)
    ensures |r| == |s|
    ensures forall i :: 0 <= i < |s| ==>
      r[i] == (if (if i == 0 then previousCased else IsCased(s[i - 1])) then ToLower(s[i]) else ToUpper(s[i]))
  {
    if s == [] then []
    else [if previousCased then ToLower(s[0]) else ToUpper(s[0])] + TitleScan(s[1..], IsCased(s[0]))
  }

  /** `s.title()`. */
  function Title(s: string): (r: string)
    ensures |r| == |s|
    ensures forall i :: 0 <= i < |s| ==> r[i] == TitleCharAt(s, i)
  {
    TitleScan(s, false)
  }

  /** Case mapping keeps casedness and never makes or removes an underscore or a space. */
  lemma CaseMappingKeepsKind(c: char)
    ensures IsCased(ToUpper(c)) == IsCased(c) && IsCased(ToLower(c)) == IsCased(c)
    ensures ToUpper(c) == '_' <==> c == '_'
    ensures ToLower(c) == '_' <==> c == '_'
    ensures ToUpper(ToUpper(c)) == ToUpper(c) && ToLower(ToLower(c)) == ToLower(c)
  {
  }

  /** Title-casing an already title-cased string changes nothing. */
  lemma TitleIdempotent(s: string)
    ensures Title(Title(s)) == Title(s)
  {
    var t := Title(s);
    forall i | 0 <= i < |s|
      ensures Title(t)[i] == t[i]
    {
      CaseMappingKeepsKind(s[i]);
      if i > 0 { CaseMappingKeepsKind(s[i - 1]); }
    }
  }

  /** Title-casing moves no underscore: it keeps exactly the positions of `_` in its input. */
  lemma TitleKeepsUnderscores(s: string)
    ensures forall i :: 0 <= i < |s| ==> (Title(s)[i] == '_' <==> s[i] == '_')
  {
    forall i | 0 <= i < |s|
      ensures Title(s)[i] == '_' <==> s[i] == '_'
    {
      CaseMappingKeepsKind(s[i]);
    }
  }

  /**
   * The label a feature name gets as a table row or a page title,
   * `name.replace('_', ' ').title()`: as long as the name, free of
   * underscores, and stable under a second title-casing.
   */
  function Label(name: string): (r: string)
    ensures |r| == |name|
    ensures '_' !in r
    ensures Title(r) == r
  {
    TitleKeepsUnderscores(Spaced(name));
    TitleIdempotent(Spaced(name));
    Title(Spaced(name))
  }

  // ---------------------------------------------------------------- str(int)

  predicate IsDigit(c: char) { '0' <= c <= '9' }

  predicate AllDigits(s: string) { forall i :: 0 <= i < |s| ==> IsDigit(s[i]) }

  function DigitChar(d: nat): (c: char)
    requires d < 10
    ensures IsDigit(c)
  {
    ('0' as int + d) as char
  }

  function DigitValue(c: char): (d: nat)
    requires IsDigit(c)
    ensures d < 10
  {
    c as int - '0' as int
  }

  /** The decimal digits of `n`, most significant first, without leading zeros. */
  function NatToDecimal(n: nat): (r: string)
    ensures |r| > 0 && AllDigits(r)
    ensures r[0] == '0' ==> r == "0"
  {
    if n < 10 then [DigitChar(n)] else NatToDecimal(n / 10) + [DigitChar(n % 10)]
  }

  /**
   * Python's `str(n)` for an `int`: a minus sign exactly when `n` is negative,
   * then the digits of its magnitude, without leading zeros.
   */
  function IntToDecimal(n: int): (r: string)
    ensures |r| > 0
    ensures r[0] == '-' <==> n < 0
    ensures var digits := if n < 0 then r[1..] else r;
      |digits| > 0 && AllDigits(digits) && (digits[0] == '0' ==> digits == "0") &&
      DecimalValue(digits) == (if n < 0 then -n else n)
  {
    var magnitude: nat := if n < 0 then -n else n;
    DecimalRoundTrip(magnitude);
    if n < 0 then "-" + NatToDecimal(magnitude) else NatToDecimal(magnitude)
  }

  /** The number a run of decimal digits denotes. */
  function DecimalValue(s: string): nat
    requires AllDigits(s)
  {
    if s == [] then 0 else 10 * DecimalValue(s[..|s| - 1]) + DigitValue(s[|s| - 1])
  }

  /** Reading back the digits `NatToDecimal` writes gives the number written. */
  lemma {:induction false} DecimalRoundTrip(n: nat)
    ensures DecimalValue(NatToDecimal(n)) == n
  {
    if n >= 10 {
      DecimalRoundTrip(n / 10);
      var s := NatToDecimal(n);
      assert s[..|s| - 1] == NatToDecimal(n / 10);
    }
  }
}
