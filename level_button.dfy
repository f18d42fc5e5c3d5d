/**
 * A level button of the level-selection screen (`LevelButton`): the time
 * formatter for the best-time label, and the visibility and interactable
 * rules of `Setup`.
 *
 * `FormatTime` splits a time in seconds into whole minutes, whole seconds of
 * the minute and centiseconds, using C#'s float `%` (truncating, the sign of
 * the dividend) and `FloorToInt`, and prints "MM:SS.CC" when there are whole
 * minutes, else "SS.CC", each field with at least two digits.
 */
module LevelButton {

  // ---------------------------------------------------------------------
  // Arithmetic of the formatter
  // ---------------------------------------------------------------------

  /**
   * Truncation toward zero: the integer next to `x` on the side of zero, so
   * a non-negative `x` is at most one above it and a negative one at most
   * one below it.
   */
  function Trunc(x: real): (r: int)
    ensures x >= 0.0 ==> 0 <= r && r as real <= x < r as real + 1.0
    ensures x < 0.0 ==> r <= 0 && r as real - 1.0 < x <= r as real
  {
    if x >= 0.0 then x.Floor else -((-x).Floor)
  }

  /** C#'s float remainder for a positive modulus: `a - m * trunc(a / m)`. */
  function FMod(a: real, m: real): real
    requires m > 0.0
  {
    a - m * Trunc(a / m) as real
  }

  /** The remainder has the dividend's sign and is smaller than the modulus in size. */
  lemma FModRange(a: real, m: real)
    requires m > 0.0
    ensures a >= 0.0 ==> 0.0 <= FMod(a, m) < m
    ensures a < 0.0 ==> -m < FMod(a, m) <= 0.0
  {
    var x := a / m;
    var q := Trunc(x) as real;
    assert FMod(a, m) == a - m * q;
    Quotient(a, m);
    if a >= 0.0 {
      if x < 0.0 {
        MulLe(m, x, 0.0);
        assert false;
      }
      RemBelow(a, m, x, q);
    } else {
      if x >= 0.0 {
        MulLe(m, 0.0, x);
        assert false;
      }
      RemAbove(a, m, x, q);
    }
  }

  lemma Quotient(a: real, m: real)
    requires m > 0.0
    ensures m * (a / m) == a
  {
  }

  /** Rounding the quotient down leaves a remainder in [0, m). */
  lemma RemBelow(a: real, m: real, x: real, q: real)
    requires m > 0.0 && m * x == a && q <= x < q + 1.0
    ensures 0.0 <= a - m * q < m
  {
    var r := x - q;
    assert a - m * q == m * r;
    MulLe(m, 0.0, r);
    MulLe(m, r, 1.0);
  }

  /** Rounding the quotient up leaves a remainder in (-m, 0]. */
  lemma RemAbove(a: real, m: real, x: real, q: real)
    requires m > 0.0 && m * x == a && q - 1.0 < x <= q
    ensures -m < a - m * q <= 0.0
  {
    var r := q - x;
    assert m * q - a == m * r;
    MulLe(m, 0.0, r);
    MulLe(m, r, 1.0);
  }

  lemma MulLe(m: real, x: real, y: real)
    requires m > 0.0 && x <= y
    ensures m * x <= m * y
    ensures x < y ==> m * x < m * y
  {
    assert m * y - m * x == m * (y - x);
  }

  /** Removing a whole number does not change where the floor falls. */
  lemma FloorMinusInt(x: real, k: int)
    ensures (x - k as real).Floor == x.Floor - k
  {
  }

  /** The three numbers printed: `FloorToInt(t / 60)`, `FloorToInt(t % 60)`, `FloorToInt((t * 100) % 100)`. */
  datatype Clock = Clock(minutes: int, seconds: int, centis: int)

  function ClockOf(t: real): Clock
  {
    Clock((t / 60.0).Floor, FMod(t, 60.0).Floor, FMod(t * 100.0, 100.0).Floor)
  }

  /**
   * For a non-negative time the seconds are 0 to 59 and the centiseconds 0
   * to 99, and together with the minutes they count exactly the whole
   * centiseconds of the time: the label is the time truncated to the
   * centisecond.
   */
  lemma ClockExact(t: real)
    requires t >= 0.0
    ensures var c := ClockOf(t);
            && c.minutes >= 0 && 0 <= c.seconds < 60 && 0 <= c.centis < 100
            && 60 * c.minutes + c.seconds == t.Floor
            && 6000 * c.minutes + 100 * c.seconds + c.centis == (t * 100.0).Floor
  {
    var c := ClockOf(t);
    FModRange(t, 60.0);
    FModRange(t * 100.0, 100.0);
    assert FMod(t, 60.0) == t - 60.0 * c.minutes as real;
    FloorMinusInt(t, 60 * c.minutes);
    assert (t * 100.0) / 100.0 == t;
    assert FMod(t * 100.0, 100.0) == t * 100.0 - 100.0 * t.Floor as real;
    FloorMinusInt(t * 100.0, 100 * t.Floor);
  }

  // ---------------------------------------------------------------------
  // Printing with at least two digits
  // ---------------------------------------------------------------------

  function DigitChar(d: nat): char
    requires d <= 9
  {
    ('0' as int + d) as char
  }

  predicate IsDigit(c: char)
  {
    '0' <= c <= '9'
  }

  /** The decimal digits of a number, most significant first, without leading zeros. */
  function Digits(n: nat): (s: string)
    ensures |s| >= 1
    ensures forall i :: 0 <= i < |s| ==> IsDigit(s[i])
  {
    if n < 10 then [DigitChar(n)] else Digits(n / 10) + [DigitChar(n % 10)]
  }

  function DigitValue(c: char): nat
    requires IsDigit(c)
  {
    c as int - '0' as int
  }

  /** The number a string of digits denotes. */
  function Value(s: string): nat
    requires forall i :: 0 <= i < |s| ==> IsDigit(s[i])
  {
    if |s| == 0 then 0 else 10 * Value(s[..|s| - 1]) + DigitValue(s[|s| - 1])
  }

  /** Reading the digits back gives the number. */
  lemma {:induction false} DigitsValue(n: nat)
    ensures Value(Digits(n)) == n
    ensures n < 10 <==> |Digits(n)| == 1
    ensures 10 <= n < 100 ==> |Digits(n)| == 2
  {
    if n >= 10 {
      DigitsValue(n / 10);
      var s := Digits(n);
      assert s[..|s| - 1] == Digits(n / 10);
    }
  }

  /** The custom format "00": at least two digits, a minus sign before a negative number. */
  function Pad2(n: int): (s: string)
  {
    var body := if n >= 0 then Digits(n) else Digits(-n);
    var padded := if |body| < 2 then "0" + body else body;
    if n >= 0 then padded else "-" + padded
  }

  /**
   * A non-negative number prints as digits only, at least two of them,
   * exactly two below 100, and reads back as the number.
   */
  lemma Pad2Value(n: nat)
    ensures forall i :: 0 <= i < |Pad2(n)| ==> IsDigit(Pad2(n)[i])
    ensures |Pad2(n)| >= 2 && (n < 100 <==> |Pad2(n)| == 2)
    ensures Value(Pad2(n)) == n
  {
    DigitsValue(n);
    var d := Digits(n);
    if |d| < 2 {
      var p := "0" + d;
      assert p[..|p| - 1] == "0";
      assert Value("0") == 0;
    }
    if n >= 100 {
      DigitsValue(n / 10);
      DigitsValue(n / 100);
      assert |Digits(n / 10)| >= 2;
    }
  }

  /** `FormatTime`: "MM:SS.CC" with whole minutes, else "SS.CC". */
  function FormatTime(t: real): string
  {
    var c := ClockOf(t);
    if c.minutes > 0 then Pad2(c.minutes) + ":" + Pad2(c.seconds) + "." + Pad2(c.centis)
    else Pad2(c.seconds) + "." + Pad2(c.centis)
  }

  /** Two fields below 100 joined by a dot: five characters, each field reading back. */
  lemma TwoFields(x: nat, y: nat)
    requires x < 100 && y < 100
    ensures var tail := Pad2(x) + "." + Pad2(y);
            && |tail| == 5 && tail[2] == '.'
            && tail[..2] == Pad2(x) && tail[3..] == Pad2(y)
            && Value(tail[..2]) == x && Value(tail[3..]) == y
  {
    Pad2Value(x);
    Pad2Value(y);
    var tail := Pad2(x) + "." + Pad2(y);
    assert tail[..2] == Pad2(x);
    assert tail[3..] == Pad2(y);
  }

  /** Whole minutes appear exactly from one minute on. */
  lemma MinutesFrom(t: real)
    requires t >= 0.0
    ensures ClockOf(t).minutes > 0 <==> t >= 60.0
  {
    if t < 60.0 {
      assert t / 60.0 < 1.0;
    } else {
      assert t / 60.0 >= 1.0;
    }
  }

  /**
   * Below a minute a non-negative time prints as five characters "SS.CC";
   * from a minute on it carries a minutes field and a colon. Either way
   * the last five characters are the seconds and centiseconds, two digits
   * each, and every field reads back as the number of `ClockExact`.
   */
  lemma FormatTimeLayout(t: real)
    requires t >= 0.0
    ensures var c := ClockOf(t);
            var tail := Pad2(c.seconds) + "." + Pad2(c.centis);
            && |tail| == 5 && tail[2] == '.'
            && Value(tail[..2]) == c.seconds && Value(tail[3..]) == c.centis
            && (t < 60.0 ==> FormatTime(t) == tail)
            && (t >= 60.0 ==> FormatTime(t) == Pad2(c.minutes) + ":" + tail && Value(Pad2(c.minutes)) == c.minutes)
  {
    var c := ClockOf(t);
    ClockExact(t);
    MinutesFrom(t);
    TwoFields(c.seconds, c.centis);
    if t >= 60.0 {
      Pad2Value(c.minutes);
    }
  }

  // ---------------------------------------------------------------------
  // Setup
  // ---------------------------------------------------------------------

  /** Which optional widgets are assigned in the inspector. */
  datatype Widgets = Widgets(bestTimeText: bool, completedIndicator: bool, lockedOverlay: bool)

  class LevelButtonView {
    const widgets: Widgets

    var bestTimeShown: bool
    var bestTimeLabel: string
    var completedShown: bool
    var lockedShown: bool
    var interactable: bool

    constructor (w: Widgets)
      ensures widgets == w
      ensures !bestTimeShown && bestTimeLabel == [] && !completedShown && !lockedShown && interactable
    {
      widgets := w;
      bestTimeShown, bestTimeLabel := false, [];
      completedShown, lockedShown, interactable := false, false, true;
    }

    /**
     * The visibility rules of `Setup`: the best time is shown, formatted,
     * exactly when positive; the completed indicator is shown exactly when
     * the level is completed; the locked overlay exactly when it is locked;
     * and the button is interactable exactly when it is unlocked. A widget
     * that is not assigned keeps its state.
     */
    method Setup(isUnlocked: bool, isCompleted: bool, bestTime: real)
      modifies this
      ensures widgets.bestTimeText ==> bestTimeShown == (bestTime > 0.0)
      ensures widgets.bestTimeText && bestTime > 0.0 ==> bestTimeLabel == "Best: " + FormatTime(bestTime)
      ensures !(widgets.bestTimeText && bestTime > 0.0) ==> bestTimeLabel == old(bestTimeLabel)
      ensures !widgets.bestTimeText ==> bestTimeShown == old(bestTimeShown)
      ensures completedShown == if widgets.completedIndicator then isCompleted else old(completedShown)
      ensures lockedShown == if widgets.lockedOverlay then !isUnlocked else old(lockedShown)
      ensures interactable == isUnlocked
    {
      if widgets.bestTimeText {
        if bestTime > 0.0 {
          bestTimeLabel := "Best: " + FormatTime(bestTime);
          bestTimeShown := true;
        } else {
          bestTimeShown := false;
        }
      }
      if widgets.completedIndicator {
        completedShown := isCompleted;
      }
      if widgets.lockedOverlay {
        lockedShown := !isUnlocked;
      }
      interactable := isUnlocked;
    }
  }
}
