/**
 * `RatingStars`: five stars, star k filled when k is at most the value,
 * followed by the label "value/5".
 */
module RatingStars {
  import opened Datastore

  /** The fill of stars 1..5, in order. */
  function Stars(value: int): (s: seq<bool>)
    ensures |s| == 5
    ensures forall i :: 0 <= i < 5 ==> (s[i] <==> i + 1 <= value)
  {
    seq(5, i => i + 1 <= value)
  }

  /** Filled stars form a prefix: no empty star precedes a filled one. */
  lemma FilledPrefix(value: int)
    ensures forall i, j :: 0 <= i < j < 5 && Stars(value)[j] ==> Stars(value)[i]
  {
  }

  predicate Filled(b: bool) { b }

  function Clamp(value: int): int {
    if value < 0 then 0 else if value > 5 then 5 else value
  }

  /** The number of filled stars is the value clamped to 0..5. */
  lemma FilledCount(value: int)
    ensures Count(Stars(value), Filled) == Clamp(value)
  {
    var s := Stars(value);
    assert s[5..] == [];
    assert Count(s[4..], Filled) == (if 5 <= value then 1 else 0) by { assert s[4..][1..] == s[5..]; }
    assert Count(s[3..], Filled) == (if 4 <= value then 1 else 0) + Count(s[4..], Filled) by { assert s[3..][1..] == s[4..]; }
    assert Count(s[2..], Filled) == (if 3 <= value then 1 else 0) + Count(s[3..], Filled) by { assert s[2..][1..] == s[3..]; }
    assert Count(s[1..], Filled) == (if 2 <= value then 1 else 0) + Count(s[2..], Filled) by { assert s[1..][1..] == s[2..]; }
  }

  // ----- The label -----

  predicate IsDigit(c: char) { '0' <= c <= '9' }

  function Digit(d: nat): (c: char)
    requires d < 10
    ensures IsDigit(c)
  {
    (48 + d) as char
  }

  /** The decimal numeral of a natural number, without leading zeros. */
  function NatToString(n: nat): (s: string)
    ensures |s| >= 1 && (forall i :: 0 <= i < |s| ==> IsDigit(s[i]))
    ensures |s| > 1 ==> s[0] != '0'
  {
    if n < 10 then [Digit(n)] else NatToString(n / 10) + [Digit(n % 10)]
  }

  /** JavaScript's `String(n)` for an integer. */
  function IntToString(n: int): (s: string)
    ensures |s| >= 1
  {
    if n < 0 then "-" + NatToString(-n) else NatToString(n)
  }

  function DigitValue(c: char): (d: nat)
    requires IsDigit(c)
    ensures d < 10 && Digit(d) == c
  {
    c as int - 48
  }

  function ParseNat(s: string): nat
    requires forall i :: 0 <= i < |s| ==> IsDigit(s[i])
  {
    if s == [] then 0 else ParseNat(s[..|s| - 1]) * 10 + DigitValue(s[|s| - 1])
  }

  /** An optional minus sign followed by at least one digit. */
  predicate IsNumeral(s: string) {
    var start := if |s| >= 1 && s[0] == '-' then 1 else 0;
    && |s| > start
    && forall i :: start <= i < |s| ==> IsDigit(s[i])
  }

  function ParseInt(s: string): int
    requires IsNumeral(s)
  {
    if s[0] == '-' then -(ParseNat(s[1..]) as int) else ParseNat(s)
  }

  lemma {:induction false} NatRoundTrip(n: nat)
    ensures ParseNat(NatToString(n)) == n
  {
    if n >= 10 {
      NatRoundTrip(n / 10);
      var s := NatToString(n);
      assert s[..|s| - 1] == NatToString(n / 10);
    }
  }

  /** Reading the numeral back gives the number. */
  lemma IntRoundTrip(n: int)
    ensures IsNumeral(IntToString(n)) && ParseInt(IntToString(n)) == n
  {
    var s := IntToString(n);
    if n < 0 {
      NatRoundTrip(-n);
      assert s[1..] == NatToString(-n);
    } else {
      NatRoundTrip(n);
    }
  }

  /** `{value}/5`. */
  function Label(value: int): (l: string)
    ensures |l| >= 3 && l[|l| - 2..] == "/5"
  {
    IntToString(value) + "/5"
  }

  /** The label names the value: the numeral before "/5" reads back as it. */
  lemma LabelRoundTrip(value: int)
    ensures var l := Label(value);
            IsNumeral(l[..|l| - 2]) && ParseInt(l[..|l| - 2]) == value
  {
    var l := Label(value);
    assert l[..|l| - 2] == IntToString(value);
    IntRoundTrip(value);
  }
}
