/** The clock texts of the tracker: the editor's "MM:SS.CC" field and its parser,
    the page's "M:SS" clock and its "M:SS.mmm" label. Dafny's `/` by a positive
    divisor rounds down, exactly as `Math.floor(a / b)` does; JavaScript's `%`
    keeps the sign of its left operand and is written out as JsRem. */
module TimeFormat {
  import opened Types
  import opened Strings

  /** JavaScript's `a % b` for a positive divisor. */
  function JsRem(a: int, b: int): (r: int)
    requires b > 0
    ensures a >= 0 ==> r == a % b
    ensures -b < r < b
  {
    if a >= 0 then a % b else -((-a) % b)
  }

  /** `n.toString().padStart(width, '0')` */
  function Padded(n: int, width: nat): string {
    PadStart(IntToString(n), width)
  }

  /** The editor's `formatTimeInput`: minutes, seconds and centiseconds, each at least two digits. */
  function FormatTimeInput(ms: int): string {
    var totalSeconds := ms / 1000;
    var minutes := totalSeconds / 60;
    var seconds := JsRem(totalSeconds, 60);
    var centis := JsRem(ms, 1000) / 10;
    Padded(minutes, 2) + ":" + Padded(seconds, 2) + "." + Padded(centis, 2)
  }

  /** The numbers `parseTimeInput` reads from its text: None when the text does not
      split on ':' into exactly two parts; otherwise `parseInt(..) || 0` of the
      minutes, of the seconds before the first '.', and of the part after it
      (a missing part is `parseInt(undefined)`, NaN, so 0). */
  function TimeFields(s: string): (r: Option<(int, int, int)>)
    ensures r.None? <==> |Split(s, ":")| != 2
  {
    var parts := Split(s, ":");
    if |parts| != 2 then None
    else
      var secondsParts := Split(parts[1], ".");
      Some((ParseIntOrZero(parts[0]), ParseIntOrZero(secondsParts[0]),
            if |secondsParts| > 1 then ParseIntOrZero(secondsParts[1]) else 0))
  }

  /** The editor's `parseTimeInput`: 0 unless the text has exactly one ':'. */
  function ParseTimeInput(s: string): (r: int)
    ensures |Split(s, ":")| != 2 ==> r == 0
  {
    match TimeFields(s)
    case None => 0
    case Some((minutes, seconds, centis)) => (minutes * 60 + seconds) * 1000 + centis * 10
  }

  /** The page's `formatTime`: whole minutes, unpadded, and two-digit seconds. */
  function FormatClock(ms: int): string {
    var totalSeconds := ms / 1000;
    IntToString(totalSeconds / 60) + ":" + Padded(JsRem(totalSeconds, 60), 2)
  }

  /** The pages' `formatTimeWithMilliseconds`: "M:SS.mmm". */
  function FormatClockMillis(ms: int): string {
    var totalSeconds := ms / 1000;
    IntToString(totalSeconds / 60) + ":" + Padded(JsRem(totalSeconds, 60), 2) + "." + Padded(JsRem(ms, 1000), 3)
  }

  // ---- read-back lemmas -------------------------------------------------------

  /** A padded non-negative number is a run of digits that `parseInt` reads back. */
  lemma PaddedReadsBack(n: nat, width: nat)
    ensures |Padded(n, width)| >= 1 && AllDigits(Padded(n, width))
    ensures ParseIntOrZero(Padded(n, width)) == n
    ensures ':' !in Padded(n, width) && '.' !in Padded(n, width)
  {
    PadKeepsValue(NatToString(n), width);
    ParseDigits(Padded(n, width));
    DigitsExclude(Padded(n, width), ':');
    DigitsExclude(Padded(n, width), '.');
  }

  /** Splitting "a:b.c" whose three parts are digits finds the three parts. */
  lemma SplitClockText(a: string, b: string, c: string)
    requires AllDigits(a) && AllDigits(b) && AllDigits(c)
    ensures Split(a + ":" + b + "." + c, ":") == [a, b + "." + c]
    ensures Split(b + "." + c, ".") == [b, c]
  {
    DigitsExclude(a, ':');
    DigitsExclude(b, ':');
    DigitsExclude(c, ':');
    DigitsExclude(b, '.');
    DigitsExclude(c, '.');
    assert a + ":" + b + "." + c == a + [':'] + (b + "." + c);
    SplitAtFirst(a, ':', b + "." + c);
    SplitWithout(b + "." + c, ':');
    assert b + "." + c == b + ['.'] + c;
    SplitAtFirst(b, '.', c);
    SplitWithout(c, '.');
  }

  /** Splitting "a:b" whose two parts are digits finds the two parts, and `b` has no '.'. */
  lemma SplitClockShort(a: string, b: string)
    requires AllDigits(a) && AllDigits(b)
    ensures Split(a + ":" + b, ":") == [a, b]
    ensures Split(b, ".") == [b]
  {
    DigitsExclude(a, ':');
    DigitsExclude(b, ':');
    DigitsExclude(b, '.');
    assert a + ":" + b == a + [':'] + b;
    SplitAtFirst(a, ':', b);
    SplitWithout(b, ':');
    SplitWithout(b, '.');
  }

  /** Whole seconds, then minutes and seconds, put back together. */
  lemma ClockArithmetic(ms: nat)
    ensures ((ms / 1000 / 60) * 60 + (ms / 1000) % 60) * 1000 + ms % 1000 == ms
    ensures (ms % 1000) / 10 * 10 == ms % 1000 - ms % 10
  {
    var r := ms % 1000;
    assert ms == (ms / 1000) * 1000 + r;
    var q := ms / 1000;
    assert q == (q / 60) * 60 + q % 60;
    assert r == (r / 10) * 10 + r % 10;
    assert ms == 10 * (q * 100 + r / 10) + r % 10;
    assert ms % 10 == r % 10;
  }

  /** The fields `parseTimeInput` reads from the editor's own text are the minutes,
      seconds and centiseconds it was made from. */
  lemma {:induction false} TimeInputFields(ms: nat)
    ensures TimeFields(FormatTimeInput(ms)) == Some((ms / 1000 / 60, (ms / 1000) % 60, (ms % 1000) / 10))
  {
    var minutes, seconds, centis := ms / 1000 / 60, (ms / 1000) % 60, (ms % 1000) / 10;
    PaddedReadsBack(minutes, 2);
    PaddedReadsBack(seconds, 2);
    PaddedReadsBack(centis, 2);
    SplitClockText(Padded(minutes, 2), Padded(seconds, 2), Padded(centis, 2));
  }

  /** Round trip of the editor's time field: reading back a formatted time loses
      only the milliseconds below the centisecond. */
  lemma FormatThenParse(ms: nat)
    ensures ParseTimeInput(FormatTimeInput(ms)) == ms - ms % 10
  {
    TimeInputFields(ms);
    ClockArithmetic(ms);
  }

  /** Division by 10, 100 or 1000 is determined by its quotient and remainder. */
  lemma DivModUnique(n: int, d: int, q: int, r: int)
    requires d == 10 || d == 100 || d == 1000
    requires n == d * q + r && 0 <= r < d
    ensures n / d == q && n % d == r
  {
    if d == 10 {
      assert n == 10 * q + r;
    } else if d == 100 {
      assert n == 100 * q + r;
    } else {
      assert n == 1000 * q + r;
    }
  }

  /** For `ms >= 0`, the whole seconds and the centiseconds are functions of `ms / 10`. */
  lemma CentisecondParts(ms: nat)
    ensures ms / 1000 == (ms / 10) / 100 && (ms % 1000) / 10 == (ms / 10) % 100
  {
    var q := ms / 10;
    DivModUnique(ms, 10, q, ms % 10);
    DivModUnique(q, 100, q / 100, q % 100);
    DivModUnique(ms, 1000, q / 100, 10 * (q % 100) + ms % 10);
    DivModUnique(ms % 1000, 10, q % 100, ms % 10);
  }

  /** Times in the same centisecond show the same "MM:SS.CC" text. */
  lemma SameCentisecondSameText(a: nat, b: nat)
    requires a / 10 == b / 10
    ensures FormatTimeInput(a) == FormatTimeInput(b)
  {
    CentisecondParts(a);
    CentisecondParts(b);
    assert JsRem(a, 1000) / 10 == JsRem(b, 1000) / 10;
    assert a / 1000 == b / 1000;
  }

  /** Two non-negative times show the same "MM:SS.CC" text exactly when they agree
      down to the centisecond. */
  lemma TimeInputInjective(a: nat, b: nat)
    ensures FormatTimeInput(a) == FormatTimeInput(b) <==> a - a % 10 == b - b % 10
  {
    if FormatTimeInput(a) == FormatTimeInput(b) {
      FormatThenParse(a);
      FormatThenParse(b);
    }
    if a - a % 10 == b - b % 10 {
      assert a / 10 == b / 10;
      SameCentisecondSameText(a, b);
    }
  }

  /** The fields `parseTimeInput` reads from the "M:SS" clock: its minutes and seconds,
      and no centiseconds. */
  lemma {:induction false} ClockFields(ms: nat)
    ensures var f := TimeFields(FormatClock(ms));
      f.Some? && f.value.0 == ms / 1000 / 60 && f.value.1 == (ms / 1000) % 60 && f.value.2 == 0
  {
    var minutes, seconds := ms / 1000 / 60, (ms / 1000) % 60;
    PaddedReadsBack(minutes, 0);
    assert Padded(minutes, 0) == IntToString(minutes);
    PaddedReadsBack(seconds, 2);
    SplitClockShort(Padded(minutes, 0), Padded(seconds, 2));
  }

  /** The "M:SS" clock read back by `parseTimeInput` gives the whole seconds. */
  lemma ClockThenParse(ms: nat)
    ensures ParseTimeInput(FormatClock(ms)) == ms - ms % 1000
  {
    ClockFields(ms);
    ClockArithmetic(ms);
  }

  /** The "M:SS.mmm" label loses nothing: its minutes, seconds and milliseconds add back up to the time. */
  lemma {:induction false} ClockMillisLossless(ms: nat)
    ensures var f := TimeFields(FormatClockMillis(ms));
      f.Some? && (f.value.0 * 60 + f.value.1) * 1000 + f.value.2 == ms
  {
    var minutes, seconds, millis := ms / 1000 / 60, (ms / 1000) % 60, ms % 1000;
    PaddedReadsBack(minutes, 0);
    assert Padded(minutes, 0) == IntToString(minutes);
    PaddedReadsBack(seconds, 2);
    PaddedReadsBack(millis, 3);
    SplitClockText(Padded(minutes, 0), Padded(seconds, 2), Padded(millis, 3));
    ClockArithmetic(ms);
  }

  /** Different non-negative times never share a "M:SS.mmm" label. */
  lemma ClockMillisInjective(a: nat, b: nat)
    requires FormatClockMillis(a) == FormatClockMillis(b)
    ensures a == b
  {
    ClockMillisLossless(a);
    ClockMillisLossless(b);
  }
}
