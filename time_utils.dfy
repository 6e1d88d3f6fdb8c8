/** `secondsToHMS`: a whole number of seconds printed as hours, minutes and seconds. */
module TimeUtils {
  import Decimal

  /** JavaScript's `%` on integers: the remainder of truncating division,
      which takes the sign of the dividend. */
  function JsRem(a: int, b: int): (r: int)
    requires b > 0
    ensures a >= 0 ==> r == a % b
    ensures a < 0 ==> -b < r <= 0
    ensures a < 0 ==> r == (if a % b == 0 then 0 else a % b - b)
  {
    if a >= 0 then a % b
    else
      var m := (-a) % b;
      if m == 0 then
        RemainderUnique(a, b, -((-a) / b), 0);
        0
      else
        RemainderUnique(a, b, -((-a) / b) - 1, b - m);
        -m
  }

  /** Dafny's remainder is the only one in 0..b-1. */
  lemma RemainderUnique(a: int, b: int, k: int, m: int)
    requires b > 0 && a == k * b + m && 0 <= m < b
    ensures a % b == m
  {
    var q, r := a / b, a % b;
    assert (q - k) * b == m - r;
    if q > k {
      MultipleAtLeast(q - k, b);
    } else if q < k {
      MultipleAtLeast(k - q, b);
    }
  }

  /** A positive multiple of b is at least b. */
  lemma {:induction false} MultipleAtLeast(d: int, b: int)
    requires d >= 1 && b > 0
    ensures d * b >= b
    decreases d
  {
    if d > 1 {
      MultipleAtLeast(d - 1, b);
      assert d * b == (d - 1) * b + b;
    }
  }

  datatype Hms = Hms(hours: int, minutes: int, seconds: int)

  /** The three numbers `secondsToHMS` prints. `Math.floor(x / d)` for an
      integer `x` and a positive `d` is Dafny's `x / d`. */
  function Components(seconds: int): (t: Hms)
    ensures seconds >= 0 ==> 0 <= t.hours && 0 <= t.minutes < 60 && 0 <= t.seconds < 60
    ensures seconds < 0 ==> t.hours < 0 && -60 <= t.minutes <= 0 && -60 < t.seconds <= 0
  {
    Hms(seconds / 3600, JsRem(seconds, 3600) / 60, JsRem(seconds, 60))
  }

  function SecondsToHMS(seconds: int): (s: string)
    ensures |s| >= 8 && s[|s| - 1] == 's'
    ensures seconds < 0 <==> s[0] == '-'
  {
    var t := Components(seconds);
    Decimal.IntToString(t.hours) + "h " + Decimal.IntToString(t.minutes) + "m " +
    Decimal.IntToString(t.seconds) + "s"
  }

  /** For a non-negative count the components add back up to it, minutes and
      seconds are below 60, and the hours are the whole hours in it. */
  lemma ComponentsOfNat(seconds: nat)
    ensures var t := Components(seconds);
      && t.hours * 3600 + t.minutes * 60 + t.seconds == seconds
      && 0 <= t.minutes < 60
      && 0 <= t.seconds < 60
      && t.hours == seconds / 3600
      && (t.hours == 0 <==> seconds < 3600)
  {
    var r := seconds % 3600;
    assert seconds == (seconds / 3600) * 3600 + r;
    assert r == (r / 60) * 60 + r % 60;
    assert seconds % 60 == r % 60 by {
      assert seconds == ((seconds / 3600) * 60 + r / 60) * 60 + r % 60;
    }
  }

  /** The components are the only hours/minutes/seconds split with minutes
      and seconds below 60. */
  lemma ComponentsUnique(seconds: nat, h: int, m: int, s: int)
    requires h * 3600 + m * 60 + s == seconds
    requires 0 <= m < 60 && 0 <= s < 60
    ensures Components(seconds) == Hms(h, m, s)
  {
    ComponentsOfNat(seconds);
    var t := Components(seconds);
    assert (t.hours - h) * 3600 == (m - t.minutes) * 60 + (s - t.seconds);
    assert t.hours == h;
    assert (t.minutes - m) * 60 == s - t.seconds;
  }

  /** For a non-negative count the output is exactly `<h>h <m>m <s>s` with
      the decimal numerals of a split whose minutes and seconds are below 60. */
  lemma {:induction false} SecondsToHMSFormat(seconds: nat, h: nat, m: nat, s: nat)
    requires h * 3600 + m * 60 + s == seconds
    requires m < 60 && s < 60
    ensures SecondsToHMS(seconds) ==
      Decimal.NatToString(h) + "h " + Decimal.NatToString(m) + "m " + Decimal.NatToString(s) + "s"
  {
    ComponentsUnique(seconds, h, m, s);
  }

  /** The examples of the unit tests. */
  lemma Examples()
    ensures SecondsToHMS(3661) == "1h 1m 1s"
    ensures SecondsToHMS(3600) == "1h 0m 0s"
    ensures SecondsToHMS(45) == "0h 0m 45s"
    ensures SecondsToHMS(0) == "0h 0m 0s"
  {
    SecondsToHMSFormat(3661, 1, 1, 1);
    SecondsToHMSFormat(3600, 1, 0, 0);
    SecondsToHMSFormat(45, 0, 0, 45);
    SecondsToHMSFormat(0, 0, 0, 0);
    NumeralExamples();
  }

  /** The numerals the examples print. */
  lemma NumeralExamples()
    ensures Decimal.NatToString(0) == "0" && Decimal.NatToString(1) == "1"
    ensures Decimal.NatToString(45) == "45"
  {
    assert Decimal.NatToString(45) == Decimal.NatToString(4) + ['5'];
  }

  /** A negative count gives negative components, as JavaScript's `%` and
      `Math.floor` do: -1 prints as "-1h -1m -1s". */
  lemma NegativeSecondsExample()
    ensures Components(-1) == Hms(-1, -1, -1)
    ensures SecondsToHMS(-1) == "-1h -1m -1s"
  {
    assert JsRem(-1, 3600) == -1 && JsRem(-1, 60) == -1;
    assert Decimal.IntToString(-1) == "-1";
  }
}
