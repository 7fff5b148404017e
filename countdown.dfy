/**
 * `formatCountdown`, written identically on the home page and on the
 * launches page: whole seconds split into days, hours and minutes, with the
 * seconds left over dropped.
 */
module Countdown {

  const SecondsPerDay: nat := 86400
  const SecondsPerHour: nat := 3600
  const SecondsPerMinute: nat := 60

  datatype Countdown = Countdown(days: int, hours: int, minutes: int)

  /**
   * JavaScript's `a % b` for `b > 0`: the remainder takes the sign of `a`
   * (Dafny's `%` never returns a negative remainder).
   */
  function JsRem(a: int, b: nat): (r: int)
    requires b > 0
    ensures a >= 0 ==> r == a % b
    ensures -(b as int) < r < b
    ensures a < 0 ==> r <= 0
    ensures (a - r) % b == 0
  {
    if a >= 0 then
      assert a - a % b == (a / b) * b;
      MultipleModIsZero(a / b, b);
      a % b
    else
      var r := -((-a) % b);
      NegativeRemainderCongruent(a, b);
      assert a - r == a + (-a) % b;
      r
  }

  /** Adding back the remainder of `-a` to `a` gives a whole multiple of `b`. */
  lemma NegativeRemainderCongruent(a: int, b: nat)
    requires b > 0
    ensures (a + (-a) % b) % b == 0
  {
    var q := (-a) / b;
    assert a + (-a) % b == (-q) * b;
    MultipleModIsZero(-q, b);
  }

  /** A whole multiple of `b` leaves no remainder. */
  lemma MultipleModIsZero(k: int, b: nat)
    requires b > 0
    ensures (k * b) % b == 0
  {
    var d := k - (k * b) / b;
    assert (k * b) % b == d * b;
  }

  /**
   * `Math.floor(a / b)` for `b > 0`: Dafny's `/` rounds down when the
   * divisor is positive, so the two agree on every integer `a`.
   */
  function FloorDiv(a: int, b: nat): (q: int)
    requires b > 0
    ensures q * b <= a < q * b + b
  {
    a / b
  }

  function FormatCountdown(seconds: int): Countdown
  {
    Countdown(
      FloorDiv(seconds, SecondsPerDay),
      FloorDiv(JsRem(seconds, SecondsPerDay), SecondsPerHour),
      FloorDiv(JsRem(seconds, SecondsPerHour), SecondsPerMinute))
  }

  /**
   * For a non-negative count the three fields and the dropped seconds add up
   * to the input again, hours stay below a day and minutes below an hour.
   */
  lemma {:induction false} CountdownDecomposes(seconds: int)
    requires seconds >= 0
    ensures var c := FormatCountdown(seconds);
      && 0 <= c.days
      && 0 <= c.hours < 24
      && 0 <= c.minutes < 60
      && c.days * 86400 + c.hours * 3600 + c.minutes * 60 <= seconds
      && seconds < c.days * 86400 + c.hours * 3600 + c.minutes * 60 + 60
  {
    var d := seconds / 86400;
    var a := seconds % 86400;
    var h := a / 3600;
    var b := a % 3600;
    assert seconds == (d * 24 + h) * 3600 + b;
    RemainderOfHours(d * 24 + h, b);
  }

  /** The remainder by an hour ignores whole hours. */
  lemma RemainderOfHours(q: int, r: int)
    requires 0 <= r < 3600
    ensures (q * 3600 + r) % 3600 == r
  {
  }

  /** The seconds that the display drops are exactly `seconds % 60`. */
  lemma CountdownRemainder(seconds: int)
    requires seconds >= 0
    ensures var c := FormatCountdown(seconds);
      c.days * 86400 + c.hours * 3600 + c.minutes * 60 + seconds % 60 == seconds
  {
    var c := FormatCountdown(seconds);
    CountdownDecomposes(seconds);
    var q := c.days * 1440 + c.hours * 60 + c.minutes;
    var rest := seconds - q * 60;
    assert 0 <= rest < 60;
    RemainderOfMinutes(q, rest);
  }

  /** The remainder by a minute ignores whole minutes. */
  lemma RemainderOfMinutes(q: int, r: int)
    requires 0 <= r < 60
    ensures (q * 60 + r) % 60 == r
  {
  }

  /** One day, one hour, one minute and one second. */
  lemma CountdownExample()
    ensures FormatCountdown(90061) == Countdown(1, 1, 1)
    ensures FormatCountdown(0) == Countdown(0, 0, 0)
  {
  }

  /**
   * A negative count is not rejected: one second in the past shows
   * -1 days, -1 hours and -1 minutes, because `%` keeps the sign and
   * `Math.floor` rounds the negative quotients down.
   */
  lemma CountdownOfNegative()
    ensures FormatCountdown(-1) == Countdown(-1, -1, -1)
    ensures FormatCountdown(-3600) == Countdown(-1, -1, 0)
  {
  }
}
