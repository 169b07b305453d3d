/** Rendering of GTFS schedule times ("HH:MM:SS", hours may run past 24) as
    12-hour wall-clock strings shifted by a whole-hour zone offset. */
module ScheduleTime {
  import opened Common

  /** The hour the code hands to the "HH:mm:ss" parser: an hour above 23 is
      brought into 0..23 by subtracting whole days, the offset is added, and a
      negative sum gets one day added back. Nothing wraps a sum above 23. */
  function AdjustHour(h: int, offset: int): int {
    var base := if h > 23 then h % 24 else h;
    if base + offset < 0 then base + offset + 24 else base + offset
  }

  /** Exactly two ASCII digits with a value below 60, which is what the "mm"
      and "ss" fields of the strict parser accept. */
  predicate SexagesimalField(f: string) {
    |f| == 2 && AllDigits(f) && DigitsValue(f) < 60
  }

  /** Whether "%02d" of hour, followed by ":" + mm + ":" + ss, parses and
      resolves under the smart resolver: hours 0..23, plus 24:00:00, which
      resolves to the midnight that ends the day. */
  predicate Resolves(hour: int, mm: string, ss: string) {
    && SexagesimalField(mm)
    && SexagesimalField(ss)
    && (0 <= hour <= 23 || (hour == 24 && mm == "00" && ss == "00"))
  }

  /** The "hh:mm a" rendering of an hour-of-day and a minute field. */
  function Clock12(hod: int, mm: string): (r: string)
    requires 0 <= hod < 24
  {
    TwoDigits(if hod % 12 == 0 then 12 else hod % 12) + ":" + mm + " " + (if hod < 12 then "AM" else "PM")
  }

  /** What parseTime returns for a schedule time and an hour offset; None
      stands for the exceptions it throws (a missing token, a first token
      that is not an int, a time the formatter cannot parse). */
  function ScheduleTimeOf(time: string, offset: int): Option<string> {
    var toks := Tokens(time, ':');
    if |toks| == 0 then None
    else match ParseInt(toks[0])
      case None => None
      case Some(h) =>
        if |toks| < 3 then None
        else
          var hour := AdjustHour(h, offset);
          if Resolves(hour, toks[1], toks[2]) then Some(Clock12(hour % 24, toks[1])) else None
  }

  /** parseTime, with its hour-reduction loop. */
  method ParseTime(time: string, offset: int) returns (r: Option<string>)
    ensures r == ScheduleTimeOf(time, offset)
  {
    var toks := Tokens(time, ':');
    if |toks| == 0 {
      return None;
    }
    var first := ParseInt(toks[0]);
    if first.None? {
      return None;
    }
    var h := first.value;
    var replacement := h;
    if h > 23 {
      while replacement > 23
        invariant replacement >= 0
        invariant replacement % 24 == h % 24
      {
        replacement := replacement - 24;
      }
      assert replacement == h % 24;
      replacement := replacement + offset;
      if replacement < 0 {
        replacement := replacement + 24;
      }
    } else {
      replacement := h + offset;
      if replacement < 0 {
        replacement := replacement + 24;
      }
    }
    assert replacement == AdjustHour(h, offset);
    if |toks| < 3 {
      return None;
    }
    if Resolves(replacement, toks[1], toks[2]) {
      r := Some(Clock12(replacement % 24, toks[1]));
    } else {
      r := None;
    }
  }

  /** A successful result is exactly when there are three tokens, the first is
      an int, the other two are two-digit minute/second fields and the
      adjusted hour is 0..23 (or 24 at exactly :00:00). */
  lemma ScheduleTimeSucceedsIff(time: string, offset: int)
    ensures var toks := Tokens(time, ':');
      ScheduleTimeOf(time, offset).Some? <==>
        (&& |toks| >= 3
         && ParseInt(toks[0]).Some?
         && SexagesimalField(toks[1]) && SexagesimalField(toks[2])
         && var hour := AdjustHour(ParseInt(toks[0]).value, offset);
            0 <= hour <= 23 || (hour == 24 && toks[1] == "00" && toks[2] == "00"))
  {
  }

  /** Fewer than three ':'-separated tokens always fails, and so does an
      adjusted hour above 24 or any adjusted hour of 24 that is not 24:00:00. */
  lemma ScheduleTimeFailures(time: string, offset: int)
    ensures |Tokens(time, ':')| < 3 ==> ScheduleTimeOf(time, offset).None?
    ensures var toks := Tokens(time, ':');
      (|toks| >= 3 && ParseInt(toks[0]).Some? && AdjustHour(ParseInt(toks[0]).value, offset) > 24)
      ==> ScheduleTimeOf(time, offset).None?
    ensures var toks := Tokens(time, ':');
      (|toks| >= 3 && ParseInt(toks[0]).Some? && AdjustHour(ParseInt(toks[0]).value, offset) == 24
       && (toks[1] != "00" || toks[2] != "00"))
      ==> ScheduleTimeOf(time, offset).None?
  {
  }

  /** The adjusted hour is congruent to hour + offset modulo 24. */
  lemma AdjustHourCongruent(h: int, offset: int)
    ensures AdjustHour(h, offset) % 24 == (h + offset) % 24
  {
    var base := if h > 23 then h % 24 else h;
    var days := if h > 23 then h / 24 else 0;
    assert h == base + 24 * days;
    ShiftByDays(base + offset, days);
    ShiftByDays(base + offset, 1);
  }

  /** Whole days do not change the hour of the day. */
  lemma ShiftByDays(x: int, days: int)
    ensures (x + 24 * days) % 24 == x % 24
  {
  }

  /** On success the output is the 12-hour rendering of (hour + offset) mod 24,
      with the minute field copied from the input and the seconds dropped. */
  lemma ScheduleTimeValue(time: string, offset: int, s: string)
    requires ScheduleTimeOf(time, offset) == Some(s)
    ensures var toks := Tokens(time, ':');
      s == Clock12((ParseInt(toks[0]).value + offset) % 24, toks[1])
  {
    var toks := Tokens(time, ':');
    AdjustHourCongruent(ParseInt(toks[0]).value, offset);
  }

  /** On success the output reads "hh:mm AM" or "hh:mm PM" with hh in 01..12
      and mm the input's minute field. */
  lemma ScheduleTimeShape(time: string, offset: int, s: string)
    requires ScheduleTimeOf(time, offset) == Some(s)
    ensures |s| == 8 && s[2] == ':' && s[5] == ' '
    ensures AllDigits(s[..2]) && 1 <= DigitsValue(s[..2]) <= 12
    ensures s[3..5] == Tokens(time, ':')[1]
    ensures s[6..] == "AM" || s[6..] == "PM"
  {
    var toks := Tokens(time, ':');
    var hod := AdjustHour(ParseInt(toks[0]).value, offset) % 24;
    var h12 := if hod % 12 == 0 then 12 else hod % 12;
    assert s == TwoDigits(h12) + ":" + toks[1] + " " + (if hod < 12 then "AM" else "PM");
    assert s[..2] == TwoDigits(h12);
  }

  /** "a:b:c" with three non-empty colon-free parts tokenizes to the three parts. */
  lemma TimeTokens(a: string, b: string, c: string)
    requires a != [] && b != [] && c != []
    requires ':' !in a && ':' !in b && ':' !in c
    ensures Tokens(a + ":" + b + ":" + c, ':') == [a, b, c]
  {
    assert a + ":" + b + ":" + c == a + [':'] + (b + [':'] + c);
    TokensCons(a, ':', b + [':'] + c);
    TokensCons(b, ':', c);
    TokensSingle(c, ':');
  }

  lemma ExampleFields()
    ensures ParseInt("25") == Some(25)
    ensures SexagesimalField("30") && SexagesimalField("00")
  {
    assert "25"[..1] == "2";
    assert DigitsValue("2") == 2;
    assert "30"[..1] == "3";
    assert DigitsValue("3") == 3;
    assert "00"[..1] == "0";
    assert DigitsValue("0") == 0;
  }

  lemma ExampleClock()
    ensures Clock12(2, "30") == "02:30 AM"
  {
    assert TwoDigits(2) == "02";
  }

  /** GTFS "25:30:00" one hour ahead of the reference zone shows as 02:30 AM. */
  lemma PastMidnightExample(t: string)
    requires t == "25:30:00"
    ensures ScheduleTimeOf(t, 1) == Some("02:30 AM")
  {
    assert t == "25" + ":" + "30" + ":" + "00";
    TimeTokens("25", "30", "00");
    ExampleFields();
    ExampleClock();
    assert AdjustHour(25, 1) == 2;
  }

  /** A departure at 23:30 at a station one hour ahead of the reference zone is
      rejected: the hour becomes 24 and is not wrapped, and 24:30:00 does not
      parse. */
  lemma LateEveningAheadRejected(t: string)
    requires t == "23:30:00"
    ensures ScheduleTimeOf(t, 1) == None
  {
    assert t == "23" + ":" + "30" + ":" + "00";
    TimeTokens("23", "30", "00");
    assert "23"[..1] == "2";
    assert DigitsValue("2") == 2;
    assert ParseInt("23") == Some(23);
    assert AdjustHour(23, 1) == 24;
    assert "30" != "00";
  }
}
