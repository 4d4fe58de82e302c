/**
 * The order's scheduled date-time and the rules the edit window applies to it:
 * the "HH:mm" text the time box shows and parses, the keystroke filter on that box,
 * and the replacement of the date or of the time of day.
 */
module Schedule {
  import opened Wrappers
  import opened NetText

  const MinutesPerDay: int := 1440
  /** 100-nanosecond ticks in a minute, the resolution of `DateTime`. */
  const TicksPerMinute: int := 600_000_000

  /**
   * A `DateTime`: a day number, the minute of that day, and the ticks inside that
   * minute (its seconds and fractions of a second).
   */
  datatype DateTime = DateTime(day: int, minuteOfDay: int, tickOfMinute: int) {

    predicate Valid() {
      0 <= minuteOfDay < MinutesPerDay && 0 <= tickOfMinute < TicksPerMinute
    }

    /** This date-time is later than `other`. */
    predicate After(other: DateTime) {
      || day > other.day
      || (day == other.day && minuteOfDay > other.minuteOfDay)
      || (day == other.day && minuteOfDay == other.minuteOfDay && tickOfMinute > other.tickOfMinute)
    }

    function Hour(): int { minuteOfDay / 60 }

    function Minute(): int { minuteOfDay % 60 }
  }

  /**
   * The date picker's update: the selected day at the order's whole time of day, seconds
   * and fractions included, so selecting the day the order already has changes nothing.
   */
  function WithDate(current: DateTime, selected: DateTime): (r: DateTime)
    ensures r.day == selected.day
    ensures r.minuteOfDay == current.minuteOfDay && r.tickOfMinute == current.tickOfMinute
    ensures current.Valid() ==> r.Valid() && r.Hour() == current.Hour() && r.Minute() == current.Minute()
    ensures selected.day == current.day ==> r == current
  {
    DateTime(selected.day, current.minuteOfDay, current.tickOfMinute)
  }

  /** The time box's update: the same day at hours:minutes:00. */
  function WithTime(current: DateTime, hours: int, minutes: int): (r: DateTime)
    ensures r.day == current.day && r.tickOfMinute == 0
    ensures 0 <= hours <= 23 && 0 <= minutes <= 59 ==> r.Valid()
  {
    DateTime(current.day, hours * 60 + minutes, 0)
  }

  /** Setting the time of day keeps the day, and yields exactly hours:minutes with zero seconds. */
  lemma WithTimeShowsTime(current: DateTime, hours: int, minutes: int)
    requires 0 <= hours <= 23 && 0 <= minutes <= 59
    ensures var r := WithTime(current, hours, minutes);
      r.Valid() && r.day == current.day && r.Hour() == hours && r.Minute() == minutes && r.tickOfMinute == 0
  {
  }

  /** The date picker and the time box change independent parts: applying both in either order agrees. */
  lemma DateAndTimeCommute(current: DateTime, selected: DateTime, hours: int, minutes: int)
    ensures WithTime(WithDate(current, selected), hours, minutes) == WithDate(WithTime(current, hours, minutes), selected)
  {
  }

  /** Two digits, zero-padded, as the "HH" and "mm" format specifiers print them. */
  function Pad2(n: nat): (s: string)
    requires n < 100
    ensures |s| == 2 && AllDigits(s)
  {
    [DigitChar(n / 10), DigitChar(n % 10)]
  }

  /** The two digits read back as the number. */
  lemma Pad2Value(n: nat)
    requires n < 100
    ensures DigitsValue(Pad2(n)) == n
  {
    var s := Pad2(n);
    assert s[..1][..0] == [];
    assert DigitsValue(s[..1]) == DigitValue(s[0]) == n / 10;
    assert DigitsValue(s) == (n / 10) * 10 + n % 10;
  }

  lemma ParsePad2(n: nat)
    requires n < 100
    ensures TryParseInt(Pad2(n)) == Some(n)
  {
    Pad2Value(n);
    ParseDigits(Pad2(n));
  }

  /**
   * The "HH:mm" text of a date-time, which the time box starts with: two digits of the
   * hour, the time separator (taken to be ':') and two digits of the minute.
   */
  function FormatHHmm(dt: DateTime): (s: string)
    requires dt.Valid()
    ensures |s| == 5 && s[2] == ':'
    ensures AllDigits(s[..2]) && AllDigits(s[3..])
    ensures DigitsValue(s[..2]) == dt.Hour() && DigitsValue(s[3..]) == dt.Minute()
  {
    Pad2Value(dt.Hour());
    Pad2Value(dt.Minute());
    var s := Pad2(dt.Hour()) + ":" + Pad2(dt.Minute());
    assert s[..2] == Pad2(dt.Hour()) && s[3..] == Pad2(dt.Minute());
    s
  }

  /** What the time box's text-changed handler makes of its text. */
  datatype TimeEntry =
    | TooShort                            // fewer than five characters: ignored without a message
    | Invalid                             // rejected with a message
    | Accepted(hours: int, minutes: int)  // becomes the order's time of day

  /**
   * The checks of the time box's text-changed handler, in the order it makes them:
   * length at least five, then after trimming a ':' somewhere, exactly two pieces
   * around ':', both pieces integers, and the hours and minutes in range.
   */
  function ParseTimeText(text: string): (e: TimeEntry)
    ensures e.TooShort? <==> |text| < 5
    ensures e.Accepted? ==> 0 <= e.hours <= 23 && 0 <= e.minutes <= 59
    ensures e.Accepted? ==> Count(Trim(text, WhiteSpace), ':') == 1
  {
    if |text| < 5 then TooShort
    else
      var t := Trim(text, WhiteSpace);
      if ':' !in t then Invalid
      else
        var parts := Split(t, ':');
        if |parts| != 2 then Invalid
        else
          match (TryParseInt(parts[0]), TryParseInt(parts[1]))
          case (Some(h), Some(m)) =>
            if 0 <= h <= 23 && 0 <= m <= 59 then Accepted(h, m) else Invalid
          case _ => Invalid
  }

  /**
   * Exactly the texts of five or more characters whose trimmed form splits at ':' into
   * two pieces that parse as an hour and a minute in range are accepted, as that hour
   * and minute. The pieces need not be two digits each.
   */
  lemma ParseTimeTextAccepts(text: string, h: int, m: int)
    ensures ParseTimeText(text) == Accepted(h, m) <==>
      (var parts := Split(Trim(text, WhiteSpace), ':');
       && |text| >= 5 && |parts| == 2
       && TryParseInt(parts[0]) == Some(h) && TryParseInt(parts[1]) == Some(m)
       && 0 <= h <= 23 && 0 <= m <= 59)
  {
    CountPositive(Trim(text, WhiteSpace), ':');
  }

  /** An entry with a one-digit hour and a three-digit minute passes the handler's checks: "1:034" is 01:34. */
  lemma ParseLooseTime()
    ensures ParseTimeText("1:034") == Accepted(1, 34)
  {
    var s := "1:034";
    var a, b := s[..1], s[2..];
    assert s == a + [':'] + b;
    assert AllDigits(a) && AllDigits(b);
    assert DigitsValue(a) == 1 by {
      assert a[..0] == [];
    }
    assert DigitsValue(b) == 34 by {
      var b1, b2 := b[..1], b[..2];
      assert |b| == 3 && b[0] == '0' && b[1] == '3' && b[2] == '4';
      assert b2[..1] == b1 && b1[..0] == [] && b[..|b| - 1] == b2;
      assert DigitsValue(b1) == 0;
      assert DigitsValue(b2) == 3;
    }
    ParseDigits(a);
    ParseDigits(b);
    ParseDigitPieces(a, b, 1, 34);
  }

  /** Two runs of digits around a ':' survive trimming and split back into the two runs. */
  lemma DigitPiecesShape(a: string, b: string)
    requires AllDigits(a) && AllDigits(b)
    ensures var s := a + [':'] + b; Trim(s, WhiteSpace) == s && ':' in s && Split(s, ':') == [a, b]
  {
    var s := a + [':'] + b;
    assert s[|a|] == ':';
    assert ':' !in a && ':' !in b by {
      assert !IsDigit(':');
    }
    SplitAroundSeparator(a, b, ':');
    forall i | 0 <= i < |s| ensures !IsWhiteSpace(s[i]) {
      if i < |a| { assert IsDigit(a[i]); } else if i > |a| { assert s[i] == b[i - |a| - 1]; }
    }
    TrimNoWhite(s, WhiteSpace);
  }

  /** Two runs of digits around a ':', five characters or more, are read as hours and minutes. */
  lemma ParseDigitPieces(a: string, b: string, hours: int, minutes: int)
    requires |a| + |b| >= 4 && AllDigits(a) && AllDigits(b)
    requires TryParseInt(a) == Some(hours) && TryParseInt(b) == Some(minutes)
    requires 0 <= hours <= 23 && 0 <= minutes <= 59
    ensures ParseTimeText(a + [':'] + b) == Accepted(hours, minutes)
  {
    DigitPiecesShape(a, b);
  }

  /** The text the box shows for a date-time is accepted, as that date-time's hours and minutes. */
  lemma ParseFormattedTime(dt: DateTime)
    requires dt.Valid()
    ensures ParseTimeText(FormatHHmm(dt)) == Accepted(dt.Hour(), dt.Minute())
  {
    var h, m := dt.Hour(), dt.Minute();
    ParsePad2(h);
    ParsePad2(m);
    ParseDigitPieces(Pad2(h), Pad2(m), h, m);
    assert FormatHHmm(dt) == Pad2(h) + [':'] + Pad2(m);
  }

  /** The text with `t` inserted at position `at`. */
  function Insert(s: string, at: nat, t: string): string
    requires at <= |s|
  {
    s[..at] + t + s[at..]
  }

  /** Only digits and ':'. */
  predicate TimeChars(s: string) {
    forall i :: 0 <= i < |s| ==> IsDigit(s[i]) || s[i] == ':'
  }

  /**
   * The time box's keystroke filter: true when the typed `input` is let through
   * at the caret. It refuses a first character that is neither a digit nor ':',
   * a second ':' typed on its own, and anything that would make the text longer
   * than five characters.
   */
  function AcceptsTimeInput(text: string, caret: nat, input: string): (ok: bool)
    requires input != [] && caret <= |text|
    ensures ok ==> |Insert(text, caret, input)| <= 5 && (IsDigit(input[0]) || input[0] == ':')
    ensures ok && input == ":" ==> ':' !in text
    ensures ((IsDigit(input[0]) || input[0] == ':') && !(input == ":" && ':' in text)
             && |Insert(text, caret, input)| <= 5) ==> ok
  {
    CountPositive(text, ':');
    if !IsDigit(input[0]) && input[0] != ':' then false
    else if input == ":" && Count(text, ':') >= 1 then false
    else |Insert(text, caret, input)| <= 5
  }

  /**
   * Typing one character at a time through the filter keeps the box's text to at most
   * five digits-or-colons with at most one colon.
   */
  lemma TypingKeepsTimeShape(text: string, caret: nat, input: string)
    requires caret <= |text| && |input| == 1
    requires TimeChars(text) && Count(text, ':') <= 1
    requires AcceptsTimeInput(text, caret, input)
    ensures var t := Insert(text, caret, input); |t| <= 5 && TimeChars(t) && Count(t, ':') <= 1
  {
    var t := Insert(text, caret, input);
    assert text == text[..caret] + text[caret..];
    CountAppend(text[..caret], text[caret..], ':');
    CountAppend(text[..caret], input, ':');
    CountAppend(text[..caret] + input, text[caret..], ':');
    CountPositive(text, ':');
    assert Count(input, ':') == (if input[0] == ':' then 1 else 0);
    forall i | 0 <= i < |t| ensures IsDigit(t[i]) || t[i] == ':' {
      if i < caret { assert t[i] == text[i]; }
      else if i > caret { assert t[i] == text[i - 1]; }
    }
  }
}
