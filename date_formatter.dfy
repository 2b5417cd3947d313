/** Date rendering: DD/MM/YYYY from a date's calendar fields, and the
    relative "Today / Yesterday / n days ago" label, which counts local
    midnights between two instants. Instants are milliseconds since the
    epoch; the local zone is a fixed offset from UTC. */
module DateFormatter {
  import opened Decimal

  /** `formatDateSlash`: day and month (`getMonth() + 1`) padded to two
      digits, then the full year. */
  function FormatDateSlash(day: int, monthIndex: int, year: int): (r: string)
    requires 1 <= day <= 31 && 0 <= monthIndex <= 11
    ensures |r| >= 7 && r[2] == '/' && r[5] == '/'
    ensures AllDigits(r[..2]) && ParseNat(r[..2]) == day
    ensures AllDigits(r[3..5]) && ParseNat(r[3..5]) == monthIndex + 1
    ensures r[6..] == IntToString(year) && ParseInt(r[6..]) == year
  {
    PadTwoKeepsValue(day);
    PadTwoKeepsValue(monthIndex + 1);
    IntToStringRoundTrip(year);
    var d := PadStart(NatToString(day), 2, '0');
    var m := PadStart(NatToString(monthIndex + 1), 2, '0');
    var r := d + "/" + m + "/" + IntToString(year);
    assert r[..2] == d && r[3..5] == m && r[6..] == IntToString(year);
    r
  }

  /** Days from the tenth on are rendered without a pad character. */
  lemma TwoDigitDayUnpadded(day: int, monthIndex: int, year: int)
    requires 10 <= day <= 31 && 0 <= monthIndex <= 11
    ensures FormatDateSlash(day, monthIndex, year)[..2] == NatToString(day)
  {
  }

  const DayMs: int := 1000 * 60 * 60 * 24

  /** `setHours(0, 0, 0, 0)`: the last local midnight at or before `t`. */
  function StartOfDay(t: int, offsetMs: int): (m: int)
    ensures m <= t < m + DayMs
    ensures (m + offsetMs) % DayMs == 0
  {
    t - (t + offsetMs) % DayMs
  }

  /** `Math.floor((nowAtMidnight - dateAtMidnight) / day)`. */
  function DayDifference(dateMs: int, nowMs: int, offsetMs: int): int {
    (StartOfDay(nowMs, offsetMs) - StartOfDay(dateMs, offsetMs)) / DayMs
  }

  /** The difference counts local calendar days: it is the number of the
      local day of `now` minus that of `date`. */
  lemma DayDifferenceCountsDays(dateMs: int, nowMs: int, offsetMs: int)
    ensures DayDifference(dateMs, nowMs, offsetMs)
         == (nowMs + offsetMs) / DayMs - (dateMs + offsetMs) / DayMs
  {
  }

  const TodayLabel: string := "Today"
  const YesterdayLabel: string := "Yesterday"
  const DaysAgoSuffix: string := " days ago"

  /** `formatDateRelative`; `dateOnly` is what `formatDateOnly` renders for
      the same date. */
  function FormatDateRelative(dateMs: int, nowMs: int, offsetMs: int, dateOnly: string): (r: string)
    ensures var n := (nowMs + offsetMs) / DayMs - (dateMs + offsetMs) / DayMs;
      && (n == 0 ==> r == TodayLabel)
      && (n == 1 ==> r == YesterdayLabel)
      && (n < 7 && n != 0 && n != 1 ==> r == IntToString(n) + DaysAgoSuffix)
      && (n >= 7 ==> r == dateOnly)
  {
    DayDifferenceCountsDays(dateMs, nowMs, offsetMs);
    var n := DayDifference(dateMs, nowMs, offsetMs);
    if n == 0 then TodayLabel
    else if n == 1 then YesterdayLabel
    else if n < 7 then IntToString(n) + DaysAgoSuffix
    else dateOnly
  }

  /** Two instants in the same local day are "Today" to each other, however
      many hours apart. */
  lemma SameLocalDayIsToday(dateMs: int, nowMs: int, offsetMs: int, dateOnly: string)
    requires StartOfDay(dateMs, offsetMs) == StartOfDay(nowMs, offsetMs)
    ensures FormatDateRelative(dateMs, nowMs, offsetMs, dateOnly) == TodayLabel
  {
  }

  /** A date a whole number of days before now (2 to 6) reads as that many
      days ago, the count rendered as one digit. */
  lemma RecentDaysAgo(nowMs: int, offsetMs: int, days: int, dateOnly: string)
    requires 2 <= days < 7
    ensures var r := FormatDateRelative(nowMs - days * DayMs, nowMs, offsetMs, dateOnly);
      |r| == 1 + |DaysAgoSuffix| && IsDigit(r[0]) && r[0] as int - '0' as int == days
  {
  }

  /** A date on a later local day than now is not caught by any branch
      before the "days ago" one: it reads as a negative number of days. */
  lemma FutureDateReadsNegative(nowMs: int, offsetMs: int, dateOnly: string)
    ensures FormatDateRelative(nowMs + DayMs, nowMs, offsetMs, dateOnly) == "-1" + DaysAgoSuffix
  {
    var a := nowMs + offsetMs;
    assert (a + DayMs) / DayMs == a / DayMs + 1;
    assert IntToString(-1) == "-1";
  }
}
