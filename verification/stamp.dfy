/** The two timestamps `Dump` derives from the wall clock: the date in Go's
    "2006-01-02" layout and the hour and minute in the "15-04" layout
    (pg_backup.go:76-77). The clock itself is a parameter; seconds play no
    part in either stamp, so a Clock holds the reading to the minute. */
module Stamp {
  import opened Decimal

  datatype Clock = Clock(year: nat, month: nat, day: nat, hour: nat, minute: nat)

  /** A reading the system clock can produce (the day is bounded by 31
      regardless of the month, which is all the formatting relies on). */
  predicate Valid(c: Clock) {
    && 1 <= c.month <= 12
    && 1 <= c.day <= 31
    && c.hour < 24
    && c.minute < 60
  }

  /** "YYYY-MM-DD": year padded to four digits, month and day to two. */
  function DateStamp(c: Clock): string {
    Pad(c.year, 4) + "-" + Pad(c.month, 2) + "-" + Pad(c.day, 2)
  }

  /** "HH-MM": 24-hour clock, both fields padded to two digits. */
  function ClockStamp(c: Clock): string {
    Pad(c.hour, 2) + "-" + Pad(c.minute, 2)
  }

  /** Reads a date stamp back: the last six characters are "-MM-DD", the
      year is everything before them. */
  function ParseDate(s: string): (nat, nat, nat) {
    if |s| < 6 then (0, 0, 0)
    else (Value(s[..|s| - 6]), Value(s[|s| - 5..|s| - 3]), Value(s[|s| - 2..]))
  }

  /** Reads an hour-minute stamp back from "HH-MM". */
  function ParseClock(s: string): (nat, nat) {
    if |s| < 5 then (0, 0) else (Value(s[..2]), Value(s[3..5]))
  }

  lemma DateStampRoundTrip(c: Clock)
    requires Valid(c)
    ensures ParseDate(DateStamp(c)) == (c.year, c.month, c.day)
  {
    var y, m, d := Pad(c.year, 4), Pad(c.month, 2), Pad(c.day, 2);
    var s := DateStamp(c);
    PadTwoWidth(c.month);
    PadTwoWidth(c.day);
    assert s == y + "-" + m + "-" + d;
    assert s[..|s| - 6] == y;
    assert s[|s| - 5..|s| - 3] == m;
    assert s[|s| - 2..] == d;
    PadRoundTrip(c.year, 4);
    PadRoundTrip(c.month, 2);
    PadRoundTrip(c.day, 2);
  }

  lemma ClockStampRoundTrip(c: Clock)
    requires Valid(c)
    ensures |ClockStamp(c)| == 5
    ensures ParseClock(ClockStamp(c)) == (c.hour, c.minute)
  {
    var h, m := Pad(c.hour, 2), Pad(c.minute, 2);
    var s := ClockStamp(c);
    PadTwoWidth(c.hour);
    PadTwoWidth(c.minute);
    assert s[..2] == h;
    assert s[3..5] == m;
    PadRoundTrip(c.hour, 2);
    PadRoundTrip(c.minute, 2);
  }

  /** Before the year 10000 the date stamp is exactly ten characters. */
  lemma DateStampLength(c: Clock)
    requires Valid(c) && c.year < 10000
    ensures |DateStamp(c)| == 10
  {
    PadTwoWidth(c.month);
    PadTwoWidth(c.day);
  }

  /** Neither stamp can contain the path separator, so each is a single path
      component. */
  lemma StampsHaveNoSlash(c: Clock)
    ensures '/' !in DateStamp(c)
    ensures '/' !in ClockStamp(c)
  {
  }

  /** Two valid readings give the same pair of stamps exactly when they fall
      in the same minute. */
  lemma StampsIdentifyMinute(c1: Clock, c2: Clock)
    requires Valid(c1) && Valid(c2)
    ensures (DateStamp(c1) == DateStamp(c2) && ClockStamp(c1) == ClockStamp(c2)) <==> c1 == c2
  {
    if DateStamp(c1) == DateStamp(c2) && ClockStamp(c1) == ClockStamp(c2) {
      DateStampRoundTrip(c1);
      DateStampRoundTrip(c2);
      ClockStampRoundTrip(c1);
      ClockStampRoundTrip(c2);
    }
  }
}
