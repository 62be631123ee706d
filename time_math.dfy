/** Derived quantities of the life clock (time.ts): the per-scale
    numerators and denominators computed from calendar fields, and the
    duration formatter used by the header. */
module TimeMath {
  import opened JsText
  import opened Calendar
  import opened LifeMonitor

  /** A date-fns `Duration`: every component may be missing. */
  datatype Duration = Duration(
    years: Option<int>, months: Option<int>, days: Option<int>,
    hours: Option<int>, minutes: Option<int>, seconds: Option<int>)

  function OrZero(o: Option<int>): int {
    if o.Some? then o.value else 0
  }

  /** What the date library computes from the birth date, the expectancy
      and `now`: the end-of-life date (`addYears`), the elapsed and
      remaining calendar durations (`intervalToDuration`) and the three
      second counts (`differenceInSeconds`). */
  datatype DateFacts = DateFacts(
    eolDate: Date, elapsed: Duration, remaining: Duration,
    lifeDurationInSeconds: int, elapsedSeconds: int, remainingSeconds: int)

  datatype DerivedData = DerivedData(
    eolDate: Option<Date>,
    elapsed: Duration,
    remaining: Duration,
    lifeDurationInSeconds: int,
    elapsedSeconds: int,
    remainingSeconds: int,
    dayOfYear: int,
    totalDaysInYear: int,
    totalElapsedMonths: int,
    lifeExpectancyInMonths: int,
    secondsInHour: int,
    totalSecondsInHour: int,
    minutesInDay: int,
    totalMinutesInDay: int,
    hoursInMonth: int,
    totalHoursInMonth: int)

  function EmptyDuration(): Duration {
    Duration(None, None, None, None, None, None)
  }

  /** The derived data for one state and instant. Without a configuration
      every counter is 0, except the fixed hour and day totals. With one,
      each counter is a position inside its scale, and it decodes back into
      the calendar fields it was built from. */
  function CalculateDerivedData(state: LifeMonitorState, now: Instant, facts: DateFacts): (r: DerivedData)
    ensures r.totalSecondsInHour == 3600 && r.totalMinutesInDay == 1440
    ensures r.eolDate.None? <==> !Configured(state)
    ensures !Configured(state) ==>
      && r.elapsed == EmptyDuration() && r.remaining == EmptyDuration()
      && r.lifeDurationInSeconds == 0 && r.elapsedSeconds == 0 && r.remainingSeconds == 0
      && r.dayOfYear == 0 && r.totalDaysInYear == 0
      && r.totalElapsedMonths == 0 && r.lifeExpectancyInMonths == 0
      && r.secondsInHour == 0 && r.minutesInDay == 0
      && r.hoursInMonth == 0 && r.totalHoursInMonth == 0
    ensures Configured(state) ==>
      && r.eolDate == Some(facts.eolDate)
      && r.elapsed == facts.elapsed && r.remaining == facts.remaining
      && r.totalElapsedMonths == OrZero(facts.elapsed.years) * 12 + OrZero(facts.elapsed.months)
      && r.lifeExpectancyInMonths == state.lifeExpectancy.value * 12
      && r.totalDaysInYear == DaysInYear(now.year)
    ensures Configured(state) && ValidInstant(now) ==>
      && 0 <= r.secondsInHour < r.totalSecondsInHour
      && r.secondsInHour / 60 == now.minutes && r.secondsInHour % 60 == now.seconds
      && 0 <= r.minutesInDay < r.totalMinutesInDay
      && r.minutesInDay / 60 == now.hours && r.minutesInDay % 60 == now.minutes
      && 0 <= r.hoursInMonth < r.totalHoursInMonth
      && r.totalHoursInMonth == DaysInMonth(now.year, now.month) * 24
      && r.hoursInMonth / 24 + 1 == now.date && r.hoursInMonth % 24 == now.hours
      && r.dayOfYear == DayOfYear(now.year, now.month, now.date)
      && 1 <= r.dayOfYear <= r.totalDaysInYear
  {
    if !Configured(state) then
      DerivedData(None, EmptyDuration(), EmptyDuration(), 0, 0, 0, 0, 0, 0, 0, 0, 3600, 0, 1440, 0, 0)
    else
      var daysInMonth := DaysInMonth(now.year, now.month);
      var dayOfYear := if 1 <= now.month <= 12 then DayOfYear(now.year, now.month, now.date) else 0;
      assert ValidInstant(now) ==> 1 <= dayOfYear <= DaysInYear(now.year) by {
        if ValidInstant(now) { DayOfYearBounds(now.year, now.month, now.date); }
      }
      DerivedData(
        Some(facts.eolDate), facts.elapsed, facts.remaining,
        facts.lifeDurationInSeconds, facts.elapsedSeconds, facts.remainingSeconds,
        dayOfYear, DaysInYear(now.year),
        OrZero(facts.elapsed.years) * 12 + OrZero(facts.elapsed.months),
        state.lifeExpectancy.value * 12,
        now.minutes * 60 + now.seconds, 3600,
        now.hours * 60 + now.minutes, 1440,
        (now.date - 1) * 24 + now.hours, daysInMonth * 24)
  }

  /** Two-digit zero padding, as `String(n).padStart(2, '0')`. */
  function Pad(n: int, w: int): string {
    PadStart(IntToString(n), w, '0')
  }

  /** The calendar part `"{y}y {m}m {d}d"`, missing components read as 0. */
  function DatePart(d: Duration): string {
    IntToString(OrZero(d.years)) + "y " + IntToString(OrZero(d.months)) + "m "
      + IntToString(OrZero(d.days)) + "d"
  }

  /** The clock part `" HH:MM:SS.mmm"`. */
  function TimePart(d: Duration, milliseconds: int): string {
    " " + Pad(OrZero(d.hours), 2) + ":" + Pad(OrZero(d.minutes), 2) + ":"
      + Pad(OrZero(d.seconds), 2) + "." + Pad(milliseconds, 3)
  }

  function FormatDuration(d: Duration, withTime: bool, milliseconds: int): (r: string)
    ensures |DatePart(d)| <= |r| && r[..|DatePart(d)|] == DatePart(d)
    ensures withTime ==> r[|DatePart(d)|..] == TimePart(d, milliseconds)
    ensures !withTime ==> |r| == |DatePart(d)|
  {
    var str := DatePart(d);
    if withTime then str + TimePart(d, milliseconds) else str
  }

  /** Fields of the date part: the years' text, "y ", the months' text,
      "m ", the days' text and a final 'd', each text reading back as its
      (non-negative) count. */
  lemma DatePartReadsBack(d: Duration)
    requires OrZero(d.years) >= 0 && OrZero(d.months) >= 0 && OrZero(d.days) >= 0
    ensures var s := DatePart(d);
      var y, m, n := NatToString(OrZero(d.years)), NatToString(OrZero(d.months)), NatToString(OrZero(d.days));
      var a, b, c := |y|, |y| + 2 + |m|, |y| + 2 + |m| + 2 + |n|;
      && |s| == c + 1
      && s[..a] == y && s[a .. a + 2] == "y " && s[a + 2 .. b] == m
      && s[b .. b + 2] == "m " && s[b + 2 .. c] == n && s[c] == 'd'
      && ReadsAs(y, OrZero(d.years)) && ReadsAs(m, OrZero(d.months)) && ReadsAs(n, OrZero(d.days))
  {
    DatePartLayout(d);
    NatToStringReadsAs(OrZero(d.years));
    NatToStringReadsAs(OrZero(d.months));
    NatToStringReadsAs(OrZero(d.days));
  }

  /** The date part as its three digit texts and their unit letters. */
  lemma DatePartLayout(d: Duration)
    requires OrZero(d.years) >= 0 && OrZero(d.months) >= 0 && OrZero(d.days) >= 0
    ensures var s := DatePart(d);
      var y, m, n := NatToString(OrZero(d.years)), NatToString(OrZero(d.months)), NatToString(OrZero(d.days));
      var a, b, c := |y|, |y| + 2 + |m|, |y| + 2 + |m| + 2 + |n|;
      && |s| == c + 1
      && s[..a] == y && s[a .. a + 2] == "y " && s[a + 2 .. b] == m
      && s[b .. b + 2] == "m " && s[b + 2 .. c] == n && s[c] == 'd'
  {
    var y, m, n := NatToString(OrZero(d.years)), NatToString(OrZero(d.months)), NatToString(OrZero(d.days));
    DateLayout(DatePart(d), y, m, n);
  }

  /** Where the pieces of `y + "y " + m + "m " + n + "d"` sit. */
  lemma DateLayout(s: string, y: string, m: string, n: string)
    requires s == y + "y " + m + "m " + n + "d"
    ensures var a, b, c := |y|, |y| + 2 + |m|, |y| + 2 + |m| + 2 + |n|;
      && |s| == c + 1
      && s[..a] == y && s[a .. a + 2] == "y " && s[a + 2 .. b] == m
      && s[b .. b + 2] == "m " && s[b + 2 .. c] == n && s[c] == 'd'
  {
    var b := |y| + 2 + |m|;
    assert s == (y + "y " + m) + ("m " + n + "d");
    assert s[..b] == y + "y " + m;
    assert s[b..] == "m " + n + "d";
  }

  /** The date part starts with the years' text and "y ". */
  lemma DatePartStartsWith(d: Duration)
    ensures var head := IntToString(OrZero(d.years)) + "y ";
      |head| <= |DatePart(d)| && DatePart(d)[..|head|] == head
  {
  }

  /** With clock components in 0..99 and milliseconds in 0..999 the clock
      part is exactly 13 characters, and each zero-padded field reads back
      as its component. */
  lemma {:induction false} TimePartShape(d: Duration, milliseconds: int)
    requires 0 <= OrZero(d.hours) < 100 && 0 <= OrZero(d.minutes) < 100 && 0 <= OrZero(d.seconds) < 100
    requires 0 <= milliseconds < 1000
    ensures var t := TimePart(d, milliseconds);
      && |t| == 13
      && t[0] == ' ' && t[3] == ':' && t[6] == ':' && t[9] == '.'
      && ReadsAs(t[1..3], OrZero(d.hours))
      && ReadsAs(t[4..6], OrZero(d.minutes))
      && ReadsAs(t[7..9], OrZero(d.seconds))
      && ReadsAs(t[10..13], milliseconds)
  {
    var h, m, s := OrZero(d.hours), OrZero(d.minutes), OrZero(d.seconds);
    assert Pow10(2) == 100 && Pow10(3) == 1000;
    ZeroPadField(h, 2); ZeroPadField(m, 2); ZeroPadField(s, 2); ZeroPadField(milliseconds, 3);
    ClockLayout(Pad(h, 2), Pad(m, 2), Pad(s, 2), Pad(milliseconds, 3));
  }

  /** Positions of the four fields in `" HH:MM:SS.mmm"`. */
  lemma ClockLayout(ph: string, pm: string, ps: string, pms: string)
    requires |ph| == 2 && |pm| == 2 && |ps| == 2 && |pms| == 3
    ensures var t := " " + ph + ":" + pm + ":" + ps + "." + pms;
      && |t| == 13 && t[0] == ' ' && t[3] == ':' && t[6] == ':' && t[9] == '.'
      && t[1..3] == ph && t[4..6] == pm && t[7..9] == ps && t[10..13] == pms
  {
    var a := " " + ph + ":";
    var b := a + pm + ":";
    var c := b + ps + ".";
    var t := c + pms;
    assert t[10..13] == pms;
    assert t[..10] == c;
    assert c[7..9] == ps && c[..7] == b;
    assert b[4..6] == pm && b[..4] == a;
    assert a[1..3] == ph;
  }
}
