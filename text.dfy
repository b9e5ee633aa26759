/**
 * String helpers the Swift code gets from its standard library: decimal
 * rendering of integers (`String(n)`, `%d`), zero padding (`%02d`),
 * truncating division (`/` and `%` on `Int`), prefix tests and ASCII
 * lower-casing.
 */
module Text {
  import opened Wrappers

  predicate IsDigit(c: char) {
    '0' <= c <= '9'
  }

  predicate AllDigits(s: string) {
    forall i :: 0 <= i < |s| ==> IsDigit(s[i])
  }

  function DigitChar(d: nat): (c: char)
    requires d < 10
    ensures IsDigit(c) && DigitValue(c) == d
  {
    "0123456789"[d]
  }

  function DigitValue(c: char): nat
    requires IsDigit(c)
  {
    (c as int) - ('0' as int)
  }

  /** The decimal rendering of a natural number, without leading zeros. */
  function NatToString(n: nat): (s: string)
    ensures 1 <= |s| && AllDigits(s)
    ensures n < 10 <==> |s| == 1
    decreases n
  {
    if n < 10 then [DigitChar(n)] else NatToString(n / 10) + [DigitChar(n % 10)]
  }

  /** Swift's `String(n)` and `%d` for a signed integer. */
  function IntToString(n: int): (s: string)
    ensures 1 <= |s|
  {
    if n < 0 then "-" + NatToString(-n) else NatToString(n)
  }

  /** The value of a string of decimal digits (0 for the empty string). */
  function ParseDigits(s: string): nat
    requires AllDigits(s)
  {
    if s == [] then 0 else ParseDigits(s[..|s| - 1]) * 10 + DigitValue(s[|s| - 1])
  }

  /** Reads back an optionally signed decimal integer. */
  function ParseInt(s: string): Option<int> {
    if 2 <= |s| && s[0] == '-' && AllDigits(s[1..]) then Some(0 - ParseDigits(s[1..]))
    else if 1 <= |s| && AllDigits(s) then Some(ParseDigits(s))
    else None
  }

  lemma {:induction false} ParseNatToString(n: nat)
    ensures ParseDigits(NatToString(n)) == n
    decreases n
  {
    if n >= 10 {
      var s := NatToString(n);
      var prefix := NatToString(n / 10);
      assert s[..|s| - 1] == prefix;
      ParseNatToString(n / 10);
    }
  }

  /** Reading back the decimal rendering gives the integer again. */
  lemma IntToStringRoundTrip(n: int)
    ensures ParseInt(IntToString(n)) == Some(n)
  {
    if n < 0 {
      NegativeRoundTrip(n);
    } else {
      var digits := NatToString(n);
      assert IsDigit(digits[0]);
      ParseNatToString(n);
      assert ParseInt(digits) == Some(ParseDigits(digits));
    }
  }

  lemma NegativeRoundTrip(n: int)
    requires n < 0
    ensures ParseInt(IntToString(n)) == Some(n)
  {
    var digits := NatToString(-n);
    var s := "-" + digits;
    assert s[1..] == digits;
    ParseNatToString(-n);
    assert ParseInt(s) == Some(0 - ParseDigits(digits));
  }

  /** Distinct integers have distinct renderings. */
  lemma IntToStringInjective(a: int, b: int)
    requires IntToString(a) == IntToString(b)
    ensures a == b
  {
    IntToStringRoundTrip(a);
    IntToStringRoundTrip(b);
  }

  /** Swift's `Int` division `/`, which truncates toward zero. */
  function TDiv(a: int, b: int): (q: int)
    requires b > 0
    ensures a >= 0 ==> q == a / b
    ensures a < 0 ==> q == -((-a) / b)
  {
    if a >= 0 then a / b else -((-a) / b)
  }

  /** Swift's `%`: the remainder takes the sign of the dividend. */
  function TMod(a: int, b: int): (r: int)
    requires b > 0
    ensures a == b * TDiv(a, b) + r
    ensures a >= 0 ==> r == a % b
    ensures a < 0 ==> -b < r <= 0
  {
    a - b * TDiv(a, b)
  }

  /** `String(format: "%02d", n)`: zero padded to at least two characters. */
  function Pad2(n: int): (s: string)
    ensures 0 <= n < 100 ==> |s| == 2 && AllDigits(s) && ParseDigits(s) == n
  {
    if 0 <= n < 10 then
      var s := "0" + NatToString(n);
      assert s[..|s| - 1] == "0";
      assert ParseDigits("0") == 0 by { assert "0"[..0] == []; }
      s
    else
      if 10 <= n < 100 then
        assert NatToString(n) == NatToString(n / 10) + [DigitChar(n % 10)];
        ParseNatToString(n);
        IntToString(n)
      else IntToString(n)
  }

  /** `String(format: "%d:%02d", d / 60, d % 60)` with Swift's truncating `/` and `%`. */
  function Clock(d: int): string {
    IntToString(TDiv(d, 60)) + ":" + Pad2(TMod(d, 60))
  }

  /** The seconds an `m:ss` clock denotes, given the text before and after its colon. */
  function ClockValue(minutes: string, seconds: string): Option<nat> {
    if 1 <= |minutes| && AllDigits(minutes) && |seconds| == 2 && AllDigits(seconds)
       && ParseDigits(seconds) < 60
    then Some(ParseDigits(minutes) * 60 + ParseDigits(seconds))
    else None
  }

  /** Reads an `m:ss` clock string (digits, a colon, two digits) back into a number of seconds. */
  function ParseClock(s: string): Option<nat> {
    if |s| >= 4 && s[|s| - 3] == ':' then ClockValue(s[..|s| - 3], s[|s| - 2..]) else None
  }

  /** Where the colon of `minutes:seconds` sits when the seconds have two characters. */
  lemma ClockSplit(minutes: string, seconds: string)
    requires 1 <= |minutes| && |seconds| == 2
    ensures var s := minutes + ":" + seconds;
      && |s| >= 4 && s[|s| - 3] == ':'
      && s[..|s| - 3] == minutes && s[|s| - 2..] == seconds
  {
    var s := minutes + ":" + seconds;
    assert s[..|s| - 3] == minutes;
    assert s[|s| - 2..] == seconds;
  }

  lemma ClockShape(d: int)
    requires d >= 0
    ensures Clock(d) == NatToString(d / 60) + ":" + Pad2(d % 60)
  {
    assert TDiv(d, 60) == d / 60 && TMod(d, 60) == d % 60;
  }

  /** A clock string is read by splitting it at its colon. */
  lemma ParseClockParts(minutes: string, seconds: string)
    requires 1 <= |minutes| && |seconds| == 2
    ensures ParseClock(minutes + ":" + seconds) == ClockValue(minutes, seconds)
  {
    ClockSplit(minutes, seconds);
  }

  /** Minutes and fewer than sixty seconds, written as a clock, read back to their total. */
  lemma ClockPartsRoundTrip(q: nat, r: nat)
    requires r < 60
    ensures ParseClock(NatToString(q) + ":" + Pad2(r)) == Some(q * 60 + r)
  {
    var m, sec := NatToString(q), Pad2(r);
    ParseClockParts(m, sec);
    ParseNatToString(q);
    assert ClockValue(m, sec) == Some(q * 60 + r);
  }

  /** The clock string of a non-negative duration is the whole minutes, a colon and two more characters. */
  lemma ClockMinutes(d: int)
    requires d >= 0
    ensures |Clock(d)| >= 4 && Clock(d)[|Clock(d)| - 3] == ':'
    ensures Clock(d)[..|Clock(d)| - 3] == NatToString(d / 60)
  {
    ClockShape(d);
    ClockSplit(NatToString(d / 60), Pad2(d % 60));
  }

  /** The clock string of a non-negative duration reads back to it. */
  lemma ClockReadsBack(d: int)
    requires d >= 0
    ensures ParseClock(Clock(d)) == Some(d)
  {
    ClockShape(d);
    ClockPartsRoundTrip(d / 60, d % 60);
  }

  /**
   * For a non-negative number of seconds the clock string is the whole
   * minutes, a colon and exactly two digits of seconds, and it reads back
   * to the same number of seconds.
   */
  lemma ClockRoundTrip(d: int)
    requires d >= 0
    ensures |Clock(d)| >= 4 && Clock(d)[|Clock(d)| - 3] == ':'
    ensures Clock(d)[..|Clock(d)| - 3] == NatToString(d / 60)
    ensures ParseClock(Clock(d)) == Some(d)
  {
    ClockMinutes(d);
    ClockReadsBack(d);
  }

  function LowerChar(c: char): char {
    if 'A' <= c <= 'Z' then ((c as int) + 32) as char else c
  }

  /** `String.lowercased()`, restricted to the ASCII letters. */
  function Lower(s: string): (r: string)
    ensures |r| == |s|
    ensures forall i :: 0 <= i < |s| ==> r[i] == LowerChar(s[i])
  {
    seq(|s|, i requires 0 <= i < |s| => LowerChar(s[i]))
  }

  /** `String.hasPrefix`. */
  predicate StartsWith(s: string, prefix: string) {
    |prefix| <= |s| && s[..|prefix|] == prefix
  }
}
