/** The appointment time window of the booking calendar: reading an `HH:MM`
    start time, adding the service's duration in minutes with the minute
    overflow carried into the hours (and no wrap-around past midnight), and
    writing both ends back as zero-padded `HH:MM` strings. */
module TimeWindow {
  import opened Wrappers
  import opened Text

  /** The fixed list of start times the calendar offers on every day. */
  const AvailableTimes: seq<string> := ["10:50", "10:55", "11:00", "11:05", "14:00", "14:30", "15:00", "16:15"]

  /** An hour and a minute field, as read from or written to an `HH:MM` string.
      Neither field is reduced: an hour of 24 or more is kept as it is. */
  datatype Clock = Clock(hours: int, minutes: int)

  /** The position of a clock on the minute line, counting from midnight. */
  function MinutesOf(c: Clock): int {
    c.hours * 60 + c.minutes
  }

  /** `const [hours, minutes] = time.split(':').map(Number)`, for pieces that
      are runs of decimal digits. */
  function ParseTime(t: string): (r: Option<Clock>)
    ensures r.Some? ==> r.value.hours >= 0 && r.value.minutes >= 0
  {
    var pieces := Split(t, ':');
    if |pieces| < 2 then None
    else match (NumberOf(pieces[0]), NumberOf(pieces[1]))
      case (Some(h), Some(m)) => Some(Clock(h, m))
      case _ => None
  }

  /** `${h.toString().padStart(2, '0')}:${m.toString().padStart(2, '0')}`. */
  function FormatClock(c: Clock): (r: string)
    ensures |r| >= 5
    ensures 0 <= c.minutes < 100 ==>
      r[|r| - 3..] == [':', DigitChar(c.minutes / 10), DigitChar(c.minutes % 10)]
  {
    var hh, mm := PadStart2(ShowInt(c.hours)), PadStart2(ShowInt(c.minutes));
    if 0 <= c.minutes < 100 then
      TwoDigits(c.minutes);
      ColonThenPair(hh, mm);
      hh + ":" + mm
    else
      hh + ":" + mm
  }

  /** JavaScript's `a / b` before any rounding is applied by `Math.floor`:
      the quotient truncated toward zero. */
  function JsQuot(a: int, b: int): int
    requires b > 0
  {
    if a >= 0 then a / b else -((-a) / b)
  }

  /** JavaScript's `a % b`: what is left of `a` after the quotient truncated
      toward zero, so it takes the sign of `a`. */
  function JsRem(a: int, b: int): (r: int)
    requires b > 0
    ensures a == b * JsQuot(a, b) + r
    ensures a >= 0 ==> 0 <= r < b
    ensures a < 0 ==> -b < r <= 0
  {
    if a >= 0 then a % b else -((-a) % b)
  }

  /** The contract of `JsRem` determines its value: a division of `a` by `b`
      whose remainder has the sign of `a` and is smaller than `b` in
      magnitude is the truncating one. */
  lemma JsRemUnique(a: int, b: int, q: int, r: int)
    requires b > 0 && a == b * q + r
    requires a >= 0 ==> 0 <= r < b
    requires a < 0 ==> -b < r <= 0
    ensures q == JsQuot(a, b) && r == JsRem(a, b)
  {
    var p, j := JsQuot(a, b), JsRem(a, b);
    assert b * (q - p) == j - r by {
      assert b * (q - p) == b * q - b * p;
    }
    SmallMultiple(b, q - p);
  }

  /** The only multiple of `b` strictly between `-b` and `b` is zero. */
  lemma SmallMultiple(b: int, k: int)
    requires b > 0 && -b < b * k < b
    ensures k == 0
  {
    if k >= 1 {
      MulAtLeast(b, k);
    } else if k <= -1 {
      MulAtMost(b, k);
    }
  }

  lemma {:induction false} MulAtLeast(b: int, k: int)
    requires b > 0 && k >= 1
    ensures b * k >= b
    decreases k
  {
    if k > 1 {
      MulAtLeast(b, k - 1);
      assert b * k == b * (k - 1) + b;
    }
  }

  lemma {:induction false} MulAtMost(b: int, k: int)
    requires b > 0 && k <= -1
    ensures b * k <= -b
    decreases -k
  {
    if k < -1 {
      MulAtMost(b, k + 1);
      assert b * k == b * (k + 1) - b;
    }
  }

  /** The end of the window: `endMinutes = minutes + duracao`,
      `endHours = hours + Math.floor(endMinutes / 60)`, and the minute field
      `endMinutes % 60`. Whenever the minute sum is not negative, the end lies
      exactly `duracao` minutes after the start and its minute field is a
      proper minute. */
  function EndClock(start: Clock, duracao: int): (e: Clock)
    ensures start.minutes + duracao >= 0 ==> 0 <= e.minutes < 60
    ensures start.minutes + duracao >= 0 ==> MinutesOf(e) == MinutesOf(start) + duracao
    ensures start.minutes + duracao >= 0 ==> e.hours >= start.hours
  {
    var endMinutes := start.minutes + duracao;
    Clock(start.hours + endMinutes / 60, JsRem(endMinutes, 60))
  }

  /** The start and end strings stored with an appointment. */
  datatype Window = Window(start: string, end: string)

  /** Reads the selected start time and derives the window for a service of
      `duracao` minutes; `None` when the start time is not of the form the
      model reads. */
  function DeriveWindow(time: string, duracao: int): (r: Option<Window>)
    ensures r.Some? <==> ParseTime(time).Some?
    ensures r.Some? ==> ParseTime(r.value.start) == ParseTime(time)
    ensures r.Some? && duracao >= 0 ==> ParseTime(r.value.end) == Some(EndClock(ParseTime(time).value, duracao))
  {
    match ParseTime(time)
    case None => None
    case Some(c) =>
      FormatThenParse(c);
      if duracao >= 0 then
        EndTimeRoundTrip(c, duracao);
        Some(Window(FormatClock(c), FormatClock(EndClock(c, duracao))))
      else
        Some(Window(FormatClock(c), FormatClock(EndClock(c, duracao))))
  }

  // ---------------------------------------------------------------- lemmas

  /** A clock with fields below 100 is written as five characters `HH:MM`. */
  lemma ClockText(c: Clock)
    requires 0 <= c.hours < 100 && 0 <= c.minutes < 100
    ensures FormatClock(c) == [DigitChar(c.hours / 10), DigitChar(c.hours % 10), ':',
                               DigitChar(c.minutes / 10), DigitChar(c.minutes % 10)]
  {
    TwoDigits(c.hours);
    TwoDigits(c.minutes);
    AroundColon(PadStart2(ShowInt(c.hours)), PadStart2(ShowInt(c.minutes)));
  }

  /** Two two-character strings around a colon make five characters. */
  lemma AroundColon(a: string, b: string)
    requires |a| == 2 && |b| == 2
    ensures a + ":" + b == [a[0], a[1], ':', b[0], b[1]]
  {
  }

  /** A padded non-negative number reads back as itself. */
  lemma ReadPadded(n: nat)
    ensures NumberOf(PadStart2(ShowInt(n))) == Some(n)
  {
    if n < 10 {
      TwoDigits(n);
      ReadTwoDigits(n);
    } else {
      ReadShow(n);
    }
  }

  /** Splitting `a:b` at colons gives `a` and `b` when neither contains a colon. */
  lemma SplitAtColon(a: string, b: string)
    requires forall i | 0 <= i < |a| :: a[i] != ':'
    requires forall i | 0 <= i < |b| :: b[i] != ':'
    ensures Split(a + ":" + b, ':') == [a, b]
  {
    var s := a + ":" + b;
    IndexOfFirst(a, ':', b);
    assert s[..|a|] == a;
    assert s[|a| + 1..] == b;
    IndexOfAbsent(b, ':');
  }

  /** Writing a clock with non-negative fields and reading it back gives the clock. */
  lemma {:induction false} FormatThenParse(c: Clock)
    requires c.hours >= 0 && c.minutes >= 0
    ensures ParseTime(FormatClock(c)) == Some(c)
  {
    var hh, mm := PadStart2(ShowInt(c.hours)), PadStart2(ShowInt(c.minutes));
    assert AllDigits(hh) && AllDigits(mm);
    SplitAtColon(hh, mm);
    ReadPadded(c.hours);
    ReadPadded(c.minutes);
  }

  /** `t` is read as `c`, and writing `c` gives back `t`. */
  predicate ReadsAs(t: string, c: Clock) {
    ParseTime(t) == Some(c) && FormatClock(c) == t
  }

  /** A five-character `HH:MM` string reads as its clock and is reproduced by
      writing that clock. */
  lemma TextRoundTrip(c: Clock, t: string)
    requires 0 <= c.hours < 100 && 0 <= c.minutes < 100
    requires t == [DigitChar(c.hours / 10), DigitChar(c.hours % 10), ':',
                   DigitChar(c.minutes / 10), DigitChar(c.minutes % 10)]
    ensures ReadsAs(t, c)
  {
    ClockText(c);
    FormatThenParse(c);
  }

  /** The clocks of the fixed time list, entry by entry. */
  const AvailableClocks: seq<Clock> := [Clock(10, 50), Clock(10, 55), Clock(11, 0), Clock(11, 5),
                                         Clock(14, 0), Clock(14, 30), Clock(15, 0), Clock(16, 15)]

  /** Each entry of the fixed time list reads as the matching clock. */
  lemma FixedTimeEntry(i: nat)
    requires i < |AvailableTimes|
    ensures ReadsAs(AvailableTimes[i], AvailableClocks[i])
  {
    TextRoundTrip(AvailableClocks[i], AvailableTimes[i]);
  }

  /** Every entry of the fixed time list is read as a clock, and writing that
      clock again reproduces the entry exactly. */
  lemma FixedTimesRoundTrip()
    ensures forall i | 0 <= i < |AvailableTimes| ::
      ParseTime(AvailableTimes[i]) == Some(AvailableClocks[i])
      && FormatClock(AvailableClocks[i]) == AvailableTimes[i]
  {
    forall i | 0 <= i < |AvailableTimes|
      ensures ReadsAs(AvailableTimes[i], AvailableClocks[i])
    {
      FixedTimeEntry(i);
    }
  }

  /** For a non-negative minute sum the derived end time reads back as a clock
      lying exactly `duracao` minutes after the start, with a two-digit minute
      field in 0..59 and the hour never reduced modulo 24. */
  lemma {:induction false} EndTimeRoundTrip(start: Clock, duracao: int)
    requires start.hours >= 0 && start.minutes >= 0 && duracao >= 0
    ensures ParseTime(FormatClock(EndClock(start, duracao))) == Some(EndClock(start, duracao))
    ensures var e := EndClock(start, duracao);
      && 0 <= e.minutes < 60
      && MinutesOf(e) == MinutesOf(start) + duracao
      && e.hours == start.hours + (start.minutes + duracao) / 60
    ensures var text := FormatClock(EndClock(start, duracao));
      && |text| >= 5 && text[|text| - 3] == ':'
      && IsDigit(text[|text| - 2]) && IsDigit(text[|text| - 1])
  {
    var e := EndClock(start, duracao);
    FormatThenParse(e);
    var text := FormatClock(e);
    assert text[|text| - 3..][1] == text[|text| - 2];
    assert text[|text| - 3..][2] == text[|text| - 1];
  }

  /** A string ending in a colon and two characters has those three last. */
  lemma ColonThenPair(hh: string, mm: string)
    requires |mm| == 2
    ensures var text := hh + ":" + mm;
      && |text| == |hh| + 3 && text[|text| - 3] == ':'
      && text[|text| - 2] == mm[0] && text[|text| - 1] == mm[1]
  {
  }
}
