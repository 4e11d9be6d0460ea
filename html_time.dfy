/** `FormatInteractiveStartTime` of code/util/util_html.go (repeated word
    for word in code/webapp/params.go): the start of the default
    interactive window, in the text the web page's date-time picker is
    filled with.  The calendar fields of a `time.Time` in the local zone
    come from Go's `time` package and are the parameter `clock`. */
module HtmlTime {
  import opened Wrappers
  import opened Data
  import opened GoText

  /** The local calendar fields `t.Year()`, `t.Month()`, `t.Day()`,
      `t.Hour()` and `t.Minute()`. */
  datatype Clock = Clock(year: int, month: int, day: int, hour: int, minute: int)

  predicate ValidClock(c: Clock)
  {
    0 <= c.year && 1 <= c.month <= 12 && 1 <= c.day <= 31 && 0 <= c.hour < 24 && 0 <= c.minute < 60
  }

  const NanosPerMinute: int := 60 * NanosPerSecond

  /** `now.Add(time.Duration(-minutes*60) * time.Second)`. */
  function MinutesBefore(now: Time, minutes: int): (t: Time)
    ensures t <= now <==> minutes >= 0
    ensures now - t == minutes * NanosPerMinute
  {
    now + (-minutes * 60) * NanosPerSecond
  }

  /** `%02d`: at least two characters, padded with a leading zero. */
  function Pad2(n: int): (r: string)
    ensures 0 <= n < 100 ==> |r| == 2 && forall i :: 0 <= i < 2 ==> '0' <= r[i] <= '9'
    ensures n >= 10 ==> r == IntToString(n)
  {
    if 0 <= n < 10 then "0" + IntToString(n)
    else
      TwoDigits(n);
      IntToString(n)
  }

  lemma TwoDigits(n: int)
    ensures 10 <= n < 100 ==> |IntToString(n)| == 2
  {
    if 10 <= n < 100 {
      assert IntToString(n) == NatToString(n / 10) + [DigitChar(n % 10)];
    }
  }

  /** A two-digit field reads back as the number it renders. */
  lemma Pad2Parses(n: int)
    requires 0 <= n < 100
    ensures ParseNat(Pad2(n)) == n
  {
    ParseNatToString(n);
    if n < 10 {
      var s := Pad2(n);
      assert s[..1] == "0";
      assert ParseNat(s[..1]) == 0;
    }
  }

  /** The hour and suffix as written: only hours above 12 move to the
      afternoon. */
  function TwelveHourAsWritten(hour: int): (r: (int, string))
    ensures hour > 12 ==> r == (hour - 12, "PM")
    ensures hour <= 12 ==> r == (hour, "AM")
  {
    var ampm := "AM";
    if hour > 12 then (hour - 12, "PM") else (hour, ampm)
  }

  /** The hour and suffix of the 12-hour clock: midnight is 12 AM, noon is
      12 PM. */
  function TwelveHour(hour: int): (r: (int, string))
    ensures 0 <= hour < 24 ==> 1 <= r.0 <= 12 && r.1 == (if hour < 12 then "AM" else "PM")
  {
    if hour == 0 then (12, "AM")
    else if hour < 12 then (hour, "AM")
    else if hour == 12 then (12, "PM")
    else (hour - 12, "PM")
  }

  /** How a 12-hour reading is understood: 12 AM is hour 0, 12 PM hour 12. */
  function HourOfReading(h12: int, suffix: string): int
  {
    (if h12 == 12 then 0 else h12) + (if suffix == "PM" then 12 else 0)
  }

  /** The 12-hour form always shows an hour from 1 to 12 and reads back as
      the hour of the day it came from. */
  lemma TwelveHourReadsBack(hour: int)
    requires 0 <= hour < 24
    ensures 1 <= TwelveHour(hour).0 <= 12
    ensures TwelveHour(hour).1 == (if hour < 12 then "AM" else "PM")
    ensures HourOfReading(TwelveHour(hour).0, TwelveHour(hour).1) == hour
  {
  }

  /** As written, noon reads back as half past midnight's hour and
      midnight shows the hour 0. */
  lemma TwelveHourAsWrittenMisreads()
    ensures TwelveHourAsWritten(12) == (12, "AM")
    ensures HourOfReading(TwelveHourAsWritten(12).0, TwelveHourAsWritten(12).1) == 0
    ensures TwelveHourAsWritten(0).0 == 0
  {
  }

  /** The text `fmt.Sprintf("%02d/%02d/%d, %d:%02d %s", ...)` makes from the
      fields and a 12-hour reading. */
  function FormatClock(c: Clock, h: (int, string)): string
  {
    Pad2(c.day) + "/" + Pad2(c.month) + "/" + FormatAfterDate(c.year, FormatClockText(h, c.minute))
  }

  function FormatAfterDate(year: int, clockText: string): string
  {
    IntToString(year) + ", " + clockText
  }

  function FormatClockText(h: (int, string), minute: int): string
  {
    IntToString(h.0) + ":" + Pad2(minute) + " " + h.1
  }

  /** The start-time text as written. */
  function FormatInteractiveStartTimeAsWritten(now: Time, durationMinutes: int, clock: Time -> Clock): (r: string)
    ensures var c := clock(MinutesBefore(now, durationMinutes));
      r == FormatClock(c, TwelveHourAsWritten(c.hour))
  {
    var t := clock(MinutesBefore(now, durationMinutes));
    var hour := TwelveHourAsWritten(t.hour);
    FormatClock(t, hour)
  }

  /** The start-time text with the 12-hour clock the picker reads. */
  function FormatInteractiveStartTime(now: Time, durationMinutes: int, clock: Time -> Clock): (r: string)
    ensures ValidClock(clock(MinutesBefore(now, durationMinutes))) ==>
      ParseStartTime(r) == Some(clock(MinutesBefore(now, durationMinutes)))
  {
    var t := clock(MinutesBefore(now, durationMinutes));
    FormatClockParsesWhenValid(t);
    FormatClock(t, TwelveHour(t.hour))
  }

  lemma FormatClockParsesWhenValid(c: Clock)
    ensures ValidClock(c) ==> ParseStartTime(FormatClock(c, TwelveHour(c.hour))) == Some(c)
  {
    if ValidClock(c) {
      FormatClockParses(c);
    }
  }

  /** Reads a start-time text back into its fields, understanding the hour
      as a 12-hour reading; the reference to check the layout against. */
  function ParseStartTime(s: string): (r: Option<Clock>)
  {
    if |s| < 6 || s[2] != '/' || s[5] != '/' then None
    else
      match ParseAfterDate(s[6..])
      case None => None
      case Some((year, hour, minute)) => Some(Clock(year, ParseNat(s[3..5]), ParseNat(s[..2]), hour, minute))
  }

  /** Reads `YYYY, H:MM AM|PM`. */
  function ParseAfterDate(rest: string): Option<(int, int, int)>
  {
    match IndexOfChar(rest, ',')
    case None => None
    case Some(i) =>
      var tail := rest[i + 1..];
      if |tail| < 1 || tail[0] != ' ' then None
      else
        match ParseClockText(tail[1..])
        case None => None
        case Some((hour, minute)) => Some((ParseNat(rest[..i]), hour, minute))
  }

  /** Reads `H:MM AM|PM` into the hour of the day and the minute. */
  function ParseClockText(clockText: string): Option<(int, int)>
  {
    match IndexOfChar(clockText, ':')
    case None => None
    case Some(j) =>
      var minuteText := clockText[j + 1..];
      if |minuteText| != 5 || minuteText[2] != ' ' then None
      else
        var suffix := minuteText[3..];
        if suffix != "AM" && suffix != "PM" then None
        else Some((HourOfReading(ParseNat(clockText[..j]), suffix), ParseNat(minuteText[..2])))
  }

  lemma ClockTextParses(h: (int, string), minute: int)
    requires 1 <= h.0 <= 12 && (h.1 == "AM" || h.1 == "PM") && 0 <= minute < 60
    ensures ParseClockText(FormatClockText(h, minute)) == Some((HourOfReading(h.0, h.1), minute))
  {
    var hourText, m := IntToString(h.0), Pad2(minute);
    var clockText := FormatClockText(h, minute);
    assert clockText == hourText + ":" + (m + " " + h.1);
    assert clockText[..|hourText|] == hourText && IndexOfChar(clockText, ':') == Some(|hourText|) by {
      assert ':' !in hourText;
      assert clockText[|hourText|] == ':';
    }
    var minuteText := clockText[|hourText| + 1..];
    assert |minuteText| == 5 && minuteText[2] == ' ' && minuteText[..2] == m && minuteText[3..] == h.1 by {
      assert minuteText == m + " " + h.1;
    }
    Pad2Parses(minute);
    ParseNatToString(h.0);
  }

  lemma AfterDateParses(year: int, clockText: string)
    requires 0 <= year
    ensures ParseAfterDate(FormatAfterDate(year, clockText)) == match ParseClockText(clockText)
         case None => None
         case Some((hour, minute)) => Some((year, hour, minute))
  {
    var y := IntToString(year);
    var rest := y + ", " + clockText;
    assert ',' !in y;
    assert rest[..|y|] == y && rest[|y|] == ',';
    assert IndexOfChar(rest, ',') == Some(|y|);
    assert rest[|y| + 1..] == " " + clockText;
    assert (" " + clockText)[1..] == clockText;
    ParseNatToString(year);
  }

  lemma DateSlices(day: string, month: string, rest: string)
    requires |day| == 2 && |month| == 2
    ensures var s := day + "/" + month + "/" + rest;
      |s| >= 6 && s[2] == '/' && s[5] == '/' && s[..2] == day && s[3..5] == month && s[6..] == rest
  {
  }

  /** The text of a valid clock reads back as that clock. */
  lemma FormatClockParses(c: Clock)
    requires ValidClock(c)
    ensures ParseStartTime(FormatClock(c, TwelveHour(c.hour))) == Some(c)
  {
    var h := TwelveHour(c.hour);
    TwelveHourReadsBack(c.hour);
    var clockText := FormatClockText(h, c.minute);
    ClockTextParses(h, c.minute);
    var rest := FormatAfterDate(c.year, clockText);
    AfterDateParses(c.year, clockText);
    var day, month := Pad2(c.day), Pad2(c.month);
    var s := FormatClock(c, h);
    assert s == day + "/" + month + "/" + rest;
    DateSlices(day, month, rest);
    Pad2Parses(c.day);
    Pad2Parses(c.month);
  }

  /** The start time the page is given is `durationMinutes` before `now` and
      reads back as that moment's local fields. */
  lemma StartTimeReadsBack(now: Time, durationMinutes: int, clock: Time -> Clock)
    requires ValidClock(clock(MinutesBefore(now, durationMinutes)))
    ensures ParseStartTime(FormatInteractiveStartTime(now, durationMinutes, clock))
      == Some(clock(MinutesBefore(now, durationMinutes)))
  {
    var t := MinutesBefore(now, durationMinutes);
    var c := clock(t);
    var text := FormatInteractiveStartTime(now, durationMinutes, clock);
    assert text == FormatClock(c, TwelveHour(c.hour));
    FormatClockParses(c);
  }

  /** As written, a start time at half past noon reads back as half past
      midnight. */
  lemma StartTimeAsWrittenAtNoon(now: Time, durationMinutes: int, clock: Time -> Clock)
    requires clock(MinutesBefore(now, durationMinutes)) == Clock(2023, 5, 17, 12, 30)
    ensures ParseStartTime(FormatInteractiveStartTimeAsWritten(now, durationMinutes, clock))
      == Some(Clock(2023, 5, 17, 0, 30))
  {
    var c := Clock(2023, 5, 17, 12, 30);
    assert FormatInteractiveStartTimeAsWritten(now, durationMinutes, clock) == FormatClock(c, (12, "AM"));
    assert TwelveHour(0) == (12, "AM");
    FormatClockParses(c.(hour := 0));
  }
}
