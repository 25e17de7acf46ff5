/**
 * Range validation of the submitted feature values and the error message a
 * rejected request gets back.
 */
module Validation {
  import opened Wrappers
  import opened Text

  /** A closed numeric range `(min_val, max_val)`, as Python integers. */
  datatype Range = Range(lo: int, hi: int)

  /** The handler's test `min_val <= value <= max_val`: both ends included. */
  predicate InRange(v: real, r: Range)
  {
    r.lo as real <= v <= r.hi as real
  }

  /** Every feature has a range to be checked against. */
  predicate Covers(features: seq<string>, ranges: map<string, Range>)
  {
    forall i :: 0 <= i < |features| ==> features[i] in ranges
  }

  /** Value `i` lies in the range of feature `i`. */
  predicate Accepted(features: seq<string>, ranges: map<string, Range>, values: seq<real>, i: nat)
    requires |values| == |features| && Covers(features, ranges) && i < |features|
  {
    InRange(values[i], ranges[features[i]])
  }

  /**
   * The position of the first value, in feature order, that lies outside its
   * range; `None` when every value is inside.
   */
  function FirstOutOfRange(features: seq<string>, ranges: map<string, Range>, values: seq<real>): (r: Option<nat>)
    requires |values| == |features| && Covers(features, ranges)
    ensures r.None? <==> forall i :: 0 <= i < |features| ==> Accepted(features, ranges, values, i)
    ensures r.Some? ==>
      r.value < |features| && !Accepted(features, ranges, values, r.value) &&
      forall j :: 0 <= j < r.value ==> Accepted(features, ranges, values, j)
    decreases |features|
  {
    if features == [] then None
    else
      var k := |features| - 1;
      var front := FirstOutOfRange(features[..k], ranges, values[..k]);
      assert forall j :: 0 <= j < k ==>
        (Accepted(features[..k], ranges, values[..k], j) <==> Accepted(features, ranges, values, j));
      if front.Some? then front
      else if InRange(values[k], ranges[features[k]]) then None
      else assert !Accepted(features, ranges, values, k); Some(k)
  }

  /**
   * The validation loop: walks the values in feature order and stops at the
   * first one outside its range.
   */
  method Validate(features: seq<string>, ranges: map<string, Range>, values: seq<real>) returns (bad: Option<nat>)
    requires |values| == |features| && Covers(features, ranges)
    ensures bad == FirstOutOfRange(features, ranges, values)
  {
    var i := 0;
    while i < |features|
      invariant 0 <= i <= |features|
      invariant forall j :: 0 <= j < i ==> Accepted(features, ranges, values, j)
    {
      var (minVal, maxVal) := (ranges[features[i]].lo, ranges[features[i]].hi);
      if !(minVal as real <= values[i] <= maxVal as real) {
        assert !Accepted(features, ranges, values, i);
        return Some(i);
      }
      i := i + 1;
    }
    return None;
  }

  // ---------------------------------------------------------------- the message

  const MessagePrefix: string := "<h1>Error: "
  const MessageMiddle: string := " must be between "
  const MessageAnd: string := " and "
  const MessageSuffix: string := ".</h1><br><a href='/'>Back</a>"

  /** The handler's f-string with the displayed name and both bounds filled in. */
  function MessageText(shown: string, r: Range): string
  {
    MessagePrefix + shown + MessageMiddle + IntToDecimal(r.lo)
      + MessageAnd + IntToDecimal(r.hi) + MessageSuffix
  }

  /**
   * The page a rejected request gets: the feature with `_` spaced out, then
   * both bounds; exactly that name and those bounds can be read back from it.
   */
  function RangeMessage(feature: string, r: Range): (m: string)
    ensures ParseRangeMessage(m) == Some((Spaced(feature), r))
  {
    ParseRangeMessageInverts(Spaced(feature), r);
    MessageText(Spaced(feature), r)
  }

  function StripSuffix(s: string, suffix: string): (r: Option<string>)
    ensures r.Some? <==> |suffix| <= |s| && s[|s| - |suffix|..] == suffix
    ensures r.Some? ==> s == r.value + suffix
  {
    if |suffix| <= |s| && s[|s| - |suffix|..] == suffix then Some(s[..|s| - |suffix|]) else None
  }

  function StripPrefix(s: string, prefix: string): (r: Option<string>)
    ensures r.Some? <==> |prefix| <= |s| && s[..|prefix|] == prefix
    ensures r.Some? ==> s == prefix + r.value
  {
    if |prefix| <= |s| && s[..|prefix|] == prefix then Some(s[|prefix|..]) else None
  }

  /** How many decimal digits `s` ends with. */
  function TrailingDigits(s: string): (n: nat)
    ensures n <= |s|
    ensures forall i :: |s| - n <= i < |s| ==> IsDigit(s[i])
    ensures n < |s| ==> !IsDigit(s[|s| - n - 1])
  {
    if s == [] || !IsDigit(s[|s| - 1]) then 0
    else 1 + TrailingDigits(s[..|s| - 1])
  }

  /** Reads the integer `str(n)` wrote at the end of `s`; gives what is before it and `n`. */
  function ParseTrailingInt(s: string): Option<(string, int)>
  {
    var n := TrailingDigits(s);
    if n == 0 then None
    else
      var rest := s[..|s| - n];
      var magnitude := DecimalValue(s[|s| - n..]);
      if |rest| > 0 && rest[|rest| - 1] == '-' then Some((rest[..|rest| - 1], -(magnitude as int)))
      else Some((rest, magnitude as int))
  }

  /** Recovers the displayed feature name and the bounds from a range message. */
  function ParseRangeMessage(m: string): Option<(string, Range)>
  {
    var body := StripSuffix(m, MessageSuffix);
    if body.None? then None else
    var hi := ParseTrailingInt(body.value);
    if hi.None? then None else
    var beforeHi := StripSuffix(hi.value.0, MessageAnd);
    if beforeHi.None? then None else
    var lo := ParseTrailingInt(beforeHi.value);
    if lo.None? then None else
    var beforeLo := StripSuffix(lo.value.0, MessageMiddle);
    if beforeLo.None? then None else
    var shown := StripPrefix(beforeLo.value, MessagePrefix);
    if shown.None? then None else
    Some((shown.value, Range(lo.value.1, hi.value.1)))
  }

  lemma {:induction false} TrailingDigitsOfDecimal(a: string, d: string)
    requires AllDigits(d)
    requires a == [] || !IsDigit(a[|a| - 1])
    ensures TrailingDigits(a + d) == |d|
    decreases |d|
  {
    if d == [] {
      assert a + d == a;
    } else {
      var d' := d[..|d| - 1];
      TrailingDigitsOfDecimal(a, d');
      assert (a + d)[..|a + d| - 1] == a + d';
    }
  }

  /** Digits written after text that ends in a non-digit read back as the text and the digits. */
  lemma SplitTrailingDigits(a: string, d: string)
    requires AllDigits(d) && |d| > 0
    requires a == [] || !IsDigit(a[|a| - 1])
    ensures var s := a + d; var n := TrailingDigits(s);
      n == |d| && s[..|s| - n] == a && s[|s| - n..] == d
  {
    TrailingDigitsOfDecimal(a, d);
    var s := a + d;
    assert s[..|a|] == a;
    assert s[|a|..] == d;
  }

  lemma ParseTrailingNat(a: string, n: nat)
    requires |a| > 0 && !IsDigit(a[|a| - 1])
    ensures var s := a + NatToDecimal(n); var k := TrailingDigits(s);
      k > 0 && s[..|s| - k] == a && DecimalValue(s[|s| - k..]) == n
  {
    SplitTrailingDigits(a, NatToDecimal(n));
    DecimalRoundTrip(n);
  }

  lemma ParseTrailingPositive(a: string, n: nat)
    requires |a| > 0 && !IsDigit(a[|a| - 1]) && a[|a| - 1] != '-'
    ensures ParseTrailingInt(a + NatToDecimal(n)) == Some((a, n))
  {
    ParseTrailingNat(a, n);
  }

  lemma ParseTrailingNegative(a: string, n: nat)
    requires |a| > 0 && !IsDigit(a[|a| - 1]) && a[|a| - 1] != '-'
    ensures ParseTrailingInt(a + "-" + NatToDecimal(n)) == Some((a, -(n as int)))
  {
    var a' := a + "-";
    ParseTrailingNat(a', n);
    assert a'[..|a'| - 1] == a;
  }

  /** `str(n)` written after text that ends in neither a digit nor a minus reads back as `n`. */
  lemma ParseTrailingIntOfDecimal(a: string, n: int)
    requires |a| > 0 && !IsDigit(a[|a| - 1]) && a[|a| - 1] != '-'
    ensures ParseTrailingInt(a + IntToDecimal(n)) == Some((a, n))
  {
    var s := a + IntToDecimal(n);
    if n < 0 {
      var m: nat := -n;
      assert s == a + "-" + NatToDecimal(m);
      ParseTrailingNegative(a, m);
    } else {
      ParseTrailingPositive(a, n);
    }
  }

  /**
   * A range message for any displayed name reads back as that name and the
   * range: nothing the name contains can be mistaken for a bound.
   */
  lemma ParseRangeMessageInverts(shown: string, r: Range)
    ensures ParseRangeMessage(MessageText(shown, r)) == Some((shown, r))
  {
    var a := MessagePrefix + shown + MessageMiddle;
    var b := a + IntToDecimal(r.lo) + MessageAnd;
    var c := b + IntToDecimal(r.hi);
    assert MessageText(shown, r) == c + MessageSuffix;
    assert StripSuffix(c + MessageSuffix, MessageSuffix) == Some(c) by {
      assert (c + MessageSuffix)[|c + MessageSuffix| - |MessageSuffix|..] == MessageSuffix;
    }
    ParseTrailingIntOfDecimal(b, r.hi);
    assert StripSuffix(b, MessageAnd) == Some(a + IntToDecimal(r.lo)) by {
      assert b[|b| - |MessageAnd|..] == MessageAnd;
    }
    ParseTrailingIntOfDecimal(a, r.lo);
    assert StripSuffix(a, MessageMiddle) == Some(MessagePrefix + shown) by {
      assert a[|a| - |MessageMiddle|..] == MessageMiddle;
    }
    assert StripPrefix(MessagePrefix + shown, MessagePrefix) == Some(shown) by {
      assert (MessagePrefix + shown)[..|MessagePrefix|] == MessagePrefix;
    }
  }
}
