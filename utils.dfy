/** The time utilities of src/utils.js, with instants as integer
    milliseconds on the local clock and every day exactly `Day` long. */
module Utils {
  import opened Common

  /** `clamp(x, [lo])`: the lower-bound clamp that the scheduler and the
      writer use (src/utils.js does not define it; this is how it is used). */
  function Clamp(x: int, lo: int): (r: int)
    ensures r >= lo
    ensures r == x || r == lo
    ensures x >= lo ==> r == x
  {
    if x < lo then lo else x
  }

  const Day: int := 86_400_000

  /** The first millisecond of the local day containing `now`. */
  function StartOfDay(now: int): (r: int)
    ensures r <= now < r + Day
    ensures r % Day == 0
  {
    (now / Day) * Day
  }

  /** moment's `endOf('day')`: the last millisecond of the day. */
  function EndOfDay(now: int): int {
    StartOfDay(now) + Day - 1
  }

  /** `msUntilMidnight(now)`: the end of the day, plus one millisecond,
      minus `now`. It is positive, at most a day, and lands exactly on the
      first millisecond of the next day. */
  function MsUntilMidnight(now: int): (r: int)
    ensures 0 < r <= Day
    ensures now + r == StartOfDay(now) + Day
    ensures (now + r) % Day == 0
  {
    EndOfDay(now) + 1 - now
  }

  /** `now + msUntilMidnight(now)` is the next midnight: no other day starts
      in between. */
  lemma MsUntilMidnightIsNextMidnight(now: int, m: int)
    requires now < m && m % Day == 0
    ensures now + MsUntilMidnight(now) <= m
  {
  }

  /** At the first millisecond of a day the whole day remains. */
  lemma MsUntilMidnightAtMidnight(now: int)
    requires now % Day == 0
    ensures MsUntilMidnight(now) == Day
  {
  }

  /** A local calendar date, as moment reports it. */
  datatype Date = Date(year: nat, month: nat, day: nat)

  predicate ValidDate(d: Date) {
    1 <= d.month <= 12 && 1 <= d.day <= 31
  }

  /** `todayDateString(date)`: moment's format 'MM-DD-YYYY'. */
  function DateString(d: Date): string {
    ZeroFill(d.month, 2) + "-" + ZeroFill(d.day, 2) + "-" + ZeroFill(d.year, 4)
  }

  lemma ZeroFillWidth(n: nat, w: nat)
    requires 1 <= w && n < Pow10(w)
    ensures |ZeroFill(n, w)| == w
  {
    NatToStringLength(n, w);
  }

  /** The three fields of a date string sit at fixed positions. */
  lemma DateStringParts(d: Date)
    requires ValidDate(d)
    ensures var s := DateString(d);
            |s| >= 10 && s[2] == '-' && s[5] == '-'
            && s[..2] == ZeroFill(d.month, 2) && s[3..5] == ZeroFill(d.day, 2)
            && s[6..] == ZeroFill(d.year, 4)
  {
    ZeroFillWidth(d.month, 2);
    ZeroFillWidth(d.day, 2);
    var m, dd, y := ZeroFill(d.month, 2), ZeroFill(d.day, 2), ZeroFill(d.year, 4);
    var s := DateString(d);
    assert s == m + "-" + dd + "-" + y;
    assert s[..2] == m;
    assert s[3..5] == dd;
    assert s[6..] == y;
  }

  /** For a four-digit year the date string is ten characters:
      two-digit month, '-', two-digit day, '-', four-digit year. */
  lemma DateStringShape(d: Date)
    requires ValidDate(d) && d.year < 10000
    ensures var s := DateString(d);
            |s| == 10 && s[2] == '-' && s[5] == '-'
            && AllDigits(s[..2]) && AllDigits(s[3..5]) && AllDigits(s[6..])
            && DigitsValue(s[..2]) == d.month && DigitsValue(s[3..5]) == d.day
            && DigitsValue(s[6..]) == d.year
  {
    DateStringParts(d);
    ZeroFillWidth(d.year, 4);
  }

  /** Distinct dates give distinct strings, so comparing date strings (the
      same-day test of the daily rollover) compares dates. */
  lemma DateStringInjective(d1: Date, d2: Date)
    requires ValidDate(d1) && ValidDate(d2)
    requires DateString(d1) == DateString(d2)
    ensures d1 == d2
  {
    DateStringParts(d1);
    DateStringParts(d2);
  }
}
