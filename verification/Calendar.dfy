/** Dates as text, "YYYY-MM-DD" as `strptime` reads them in tools/executor.py, and the days they name. */
module Calendar {
  import opened Wrappers
  import opened Decimal
  import opened ClockText

  datatype YearMonthDay = YearMonthDay(year: int, month: int, day: int)

  predicate IsLeap(year: int) {
    year % 4 == 0 && (year % 100 != 0 || year % 400 == 0)
  }

  function DaysIn(year: int, month: int): int {
    if month == 2 then (if IsLeap(year) then 29 else 28)
    else if month in {4, 6, 9, 11} then 30
    else 31
  }

  predicate IsValid(d: YearMonthDay) {
    1 <= d.year <= 9999 && 1 <= d.month <= 12 && 1 <= d.day <= DaysIn(d.year, d.month)
  }

  type Day = d: YearMonthDay | IsValid(d) witness YearMonthDay(1, 1, 1)

  // ----- Text -----

  /** One or two digits; a leading zero is optional. */
  function ReadMonth(s: string): Option<int> {
    if IsDigits(s) && |s| <= 2 && 1 <= DigitsValue(s) <= 12 then Some(DigitsValue(s)) else None
  }

  /** Likewise, and a blank may stand for the leading zero. */
  function ReadDay(s: string): Option<int> {
    var digits := if |s| == 2 && s[0] == ' ' then s[1..] else s;
    if IsDigits(digits) && |digits| <= 2 && 1 <= DigitsValue(digits) <= 31 then Some(DigitsValue(digits)) else None
  }

  function ParseDate(s: string): Option<Day> {
    if |s| < 5 || s[4] != '-' || !IsDigits(s[..4]) then None
    else
      var parts := SplitFirst(s[5..], '-');
      if parts.None? then None
      else
        var month, day := ReadMonth(parts.value.0), ReadDay(parts.value.1);
        if month.None? || day.None? then None
        else
          var d := YearMonthDay(DigitsValue(s[..4]), month.value, day.value);
          if IsValid(d) then Some(d) else None
  }

  /** The padded form. */
  function ShowDate(d: Day): string {
    ShowPadded(d.year, 4) + "-" + Show02(d.month) + "-" + Show02(d.day)
  }

  lemma TwoDigits(n: int)
    requires 1 <= n <= 31
    ensures IsDigits(Show02(n)) && |Show02(n)| == 2 && DigitsValue(Show02(n)) == n
  {
    Show02ReadsBack(n);
    if n >= 10 {
      assert |ShowNat(n / 10)| == 1;
    }
  }

  /** Every padded date is read as its day. */
  lemma DatesReadBack(d: Day)
    ensures ParseDate(ShowDate(d)) == Some(d)
  {
    hide ShowPadded, Show02, DigitsValue, DaysIn;
    var s, rest := ShowDate(d), Show02(d.month) + "-" + Show02(d.day);
    PaddedReadsBack(d.year, 4);
    TwoDigits(d.month);
    AtMost31(d);
    TwoDigits(d.day);
    assert s == ShowPadded(d.year, 4) + "-" + rest;
    assert s[..4] == ShowPadded(d.year, 4) && s[4] == '-' && s[5..] == rest;
    SplitAtFirst(Show02(d.month), Show02(d.day), '-');
    var dayText := Show02(d.day);
    assert '0' <= dayText[0] <= '9';
  }

  lemma AtMost31(d: Day)
    ensures d.day <= 31
  {
  }

  /** Written the way the padded form writes it. */
  predicate IsPadded(s: string) {
    ParseDate(s).Some? && s == ShowDate(ParseDate(s).value)
  }

  // ----- Days as numbers -----

  /** The days of the months before this one. */
  function MonthStart(year: int, month: int): int
    decreases month
  {
    if month <= 1 then 0 else MonthStart(year, month - 1) + DaysIn(year, month - 1)
  }

  /** The days of the years before this one. */
  function YearStart(year: int): int
    decreases year
  {
    if year <= 1 then 0 else YearStart(year - 1) + MonthStart(year - 1, 13)
  }

  function DayNumber(d: YearMonthDay): int {
    YearStart(d.year) + MonthStart(d.year, d.month) + d.day
  }

  lemma {:induction false} LaterMonth(year: int, a: int, b: int)
    requires 1 <= a < b
    ensures MonthStart(year, a) + DaysIn(year, a) <= MonthStart(year, b)
    decreases b
  {
    if a < b - 1 {
      LaterMonth(year, a, b - 1);
    }
  }

  lemma {:induction false} MonthsBeforeNothing(year: int, month: int)
    ensures MonthStart(year, month) >= 0
    decreases month
  {
    if month > 1 {
      MonthsBeforeNothing(year, month - 1);
    }
  }

  lemma {:induction false} LaterYear(a: int, b: int)
    requires 1 <= a < b
    ensures YearStart(a) + MonthStart(a, 13) <= YearStart(b)
    decreases b
  {
    hide MonthStart;
    if a < b - 1 {
      LaterYear(a, b - 1);
      MonthsBeforeNothing(b - 1, 13);
    }
  }

  lemma EarlierYear(d: Day, e: Day)
    requires d.year < e.year
    ensures DayNumber(d) < DayNumber(e)
  {
    hide YearStart, MonthStart, DaysIn;
    LaterMonth(d.year, d.month, 13);
    LaterYear(d.year, e.year);
    MonthsBeforeNothing(e.year, e.month);
  }

  lemma EarlierMonth(d: Day, e: Day)
    requires d.year == e.year && d.month < e.month
    ensures DayNumber(d) < DayNumber(e)
  {
    hide YearStart, MonthStart, DaysIn;
    LaterMonth(d.year, d.month, e.month);
  }

  /** Different days have different numbers. */
  lemma DayNumbersAreInjective(d: Day, e: Day)
    requires DayNumber(d) == DayNumber(e)
    ensures d == e
  {
    hide YearStart, MonthStart, DaysIn, DayNumber;
    if d.year < e.year {
      EarlierYear(d, e);
    } else if e.year < d.year {
      EarlierYear(e, d);
    } else if d.month < e.month {
      EarlierMonth(d, e);
    } else if e.month < d.month {
      EarlierMonth(e, d);
    } else {
      SameMonth(d, e);
    }
  }

  lemma SameMonth(d: Day, e: Day)
    requires d.year == e.year && d.month == e.month && DayNumber(d) == DayNumber(e)
    ensures d == e
  {
  }

  // ----- The calendar itself -----

  /** The days before a year: 365 for each year, one more for every fourth, but not for every hundredth, but for every
      four hundredth. */
  lemma {:induction false} DaysBeforeYear(year: int)
    requires year >= 1
    ensures var n := year - 1; YearStart(year) == 365 * n + n / 4 - n / 100 + n / 400
    decreases year
  {
    hide MonthStart, IsLeap;
    if year > 1 {
      DaysBeforeYear(year - 1);
      DaysBeforeMonth(year - 1, 13);
      LeapSteps(year - 1);
    }
  }

  lemma LeapSteps(n: int)
    requires n >= 1
    ensures (if IsLeap(n) then 1 else 0) == n / 4 - (n - 1) / 4 - (n / 100 - (n - 1) / 100) + (n / 400 - (n - 1) / 400)
  {
    Carry(n, 4);
    Carry(n, 100);
    Carry(n, 400);
    if n % 400 == 0 {
      HundredDivides(n);
    }
    if n % 100 == 0 {
      FourDivides(n);
    }
  }

  lemma Carry(n: int, d: int)
    requires n >= 1 && d in {4, 100, 400}
    ensures n / d - (n - 1) / d == if n % d == 0 then 1 else 0
  {
  }

  lemma HundredDivides(n: int)
    requires n % 400 == 0
    ensures n % 100 == 0
  {
    var q := n / 400;
    assert n == 100 * (4 * q);
  }

  lemma FourDivides(n: int)
    requires n % 100 == 0
    ensures n % 4 == 0
  {
    var q := n / 100;
    assert n == 4 * (25 * q);
  }

  /** The days before each month, and after the last; from March on a leap year has one more. */
  lemma DaysBeforeMonth(year: int, month: int)
    requires 1 <= month <= 13
    ensures MonthStart(year, month) ==
            [0, 31, 59, 90, 120, 151, 181, 212, 243, 273, 304, 334, 365][month - 1]
            + if month > 2 && IsLeap(year) then 1 else 0
  {
    hide IsLeap;
    assert MonthStart(year, 1) == 0 && MonthStart(year, 2) == 31;
    var leap := if IsLeap(year) then 1 else 0;
    assert MonthStart(year, 3) == 59 + leap && MonthStart(year, 4) == 90 + leap && MonthStart(year, 5) == 120 + leap;
    assert MonthStart(year, 6) == 151 + leap && MonthStart(year, 7) == 181 + leap && MonthStart(year, 8) == 212 + leap;
    assert MonthStart(year, 9) == 243 + leap && MonthStart(year, 10) == 273 + leap;
    assert MonthStart(year, 11) == 304 + leap;
    assert MonthStart(year, 12) == 334 + leap && MonthStart(year, 13) == 365 + leap;
  }

  /** A day exists exactly if it lies between the starts of its month and of the next, in the years 1 to 9999. */
  lemma DaysThatExist(year: int, month: int, day: int)
    requires 1 <= month <= 12
    ensures IsValid(YearMonthDay(year, month, day)) <==>
              1 <= year <= 9999 && 1 <= day && MonthStart(year, month) + day <= MonthStart(year, month + 1)
    ensures forall m :: m < 1 || m > 12 ==> !IsValid(YearMonthDay(year, m, day))
  {
    hide DaysIn;
  }

  /** A month is read exactly from its number, with or without a leading zero. */
  lemma MonthsRead(s: string, n: int)
    ensures ReadMonth(s) == Some(n) <==> 1 <= n <= 12 && (s == ShowNat(n) || s == Show02(n))
  {
    SmallNumerals(s, n);
  }

  /** A day likewise, or with a blank before a single digit. */
  lemma DaysRead(s: string, n: int)
    ensures ReadDay(s) == Some(n) <==>
              1 <= n <= 31 && (s == ShowNat(n) || s == Show02(n) || (n < 10 && s == " " + ShowNat(n)))
  {
    hide DigitsValue, ShowNat, Show02;
    SmallNumerals(s, n);
    if |s| == 2 && s[0] == ' ' {
      SmallNumerals(s[1..], n);
      NumeralsAreDigits(n);
      assert s == " " + s[1..];
    } else if 1 <= n <= 31 {
      NumeralsAreDigits(n);
      if n < 10 {
        assert (" " + ShowNat(n))[0] == ' ';
      }
    }
  }

  lemma NumeralsAreDigits(n: int)
    ensures 1 <= n <= 31 ==>
              && '0' <= ShowNat(n)[0] <= '9' && '0' <= Show02(n)[0] <= '9' && |Show02(n)| == 2
              && |ShowNat(n)| == if n < 10 then 1 else 2
  {
    if 10 <= n <= 31 {
      assert |ShowNat(n / 10)| == 1;
    }
  }

  /** Digits of one length are told apart by their value. */
  lemma {:induction false} DigitsAreTheirValue(a: string, b: string)
    requires |a| == |b| && (forall i :: 0 <= i < |a| ==> '0' <= a[i] <= '9' && '0' <= b[i] <= '9')
    requires DigitsValue(a) == DigitsValue(b)
    ensures a == b
  {
    if a != "" {
      var n := |a| - 1;
      DigitsAreTheirValue(a[..n], b[..n]);
      assert a == a[..n] + [a[n]] && b == b[..n] + [b[n]];
    }
  }

  lemma OneDigit(s: string)
    requires IsDigits(s) && |s| == 1
    ensures DigitsValue(s) < 10
  {
    assert s[..0] == "";
  }

  /** Up to two digits that stand for a small number are its numeral, perhaps after a zero. */
  lemma SmallNumerals(s: string, n: int)
    ensures 1 <= n <= 31 ==>
              (IsDigits(s) && |s| <= 2 && DigitsValue(s) == n <==> s == ShowNat(n) || s == Show02(n))
  {
    hide DigitsValue, ShowNat, Show02;
    if 1 <= n <= 31 {
      ShowNatReadsBack(n);
      TwoDigits(n);
      NumeralsAreDigits(n);
      if IsDigits(s) && |s| <= 2 && DigitsValue(s) == n {
        if |s| == 1 {
          OneDigit(s);
          DigitsAreTheirValue(s, ShowNat(n));
        } else {
          DigitsAreTheirValue(s, Show02(n));
        }
      }
    }
  }

  // ----- Half-hours of the calendar -----

  /** The half-hour on the calendar that a date text and a time text name together, counted through. */
  function Moment(date: string, time: string): Option<int> {
    var d, t := ParseDate(date), ParseClock(time);
    if d.None? || t.None? then None else Some(DayNumber(d.value) * 48 + (t.value.0 * 60 + t.value.1) / 30)
  }

  /** A padded date and a time of day. */
  predicate IsCanonical(date: string, time: string) {
    && IsPadded(date)
    && ParseClock(time).Some?
    && 0 <= ParseClock(time).value.0 < 24 && 0 <= ParseClock(time).value.1 < 60
  }

  /** The half-hour of a time depends on its slot only, even where the minutes run over. */
  lemma HalfHourOfSlot(h: int, m: int)
    ensures (h * 60 + m) / 30 == 2 * h + Rounded(m, 30) / 30
  {
  }

  /** Two texts in the same text slot name the same half-hour. */
  lemma SlotsNameMoments(date: string, a: string, b: string)
    requires BucketTime(a, 30).Some? && BucketTime(a, 30) == BucketTime(b, 30)
    ensures Moment(date, a) == Moment(date, b)
  {
    hide ParseClock, FormatClock, ParseDate, DayNumber, Rounded;
    var s, t := ParseClock(a).value, ParseClock(b).value;
    FormatIsInjective(s.0, Rounded(s.1, 30), t.0, Rounded(t.1, 30));
    HalfHourOfSlot(s.0, s.1);
    HalfHourOfSlot(t.0, t.1);
  }

  /** Canonical texts that name the same half-hour are in the same text slot. */
  lemma CanonicalTextsAgree(date: string, time: string, date': string, time': string)
    requires IsCanonical(date, time) && IsCanonical(date', time')
    requires Moment(date, time) == Moment(date', time')
    ensures date == date' && BucketTime(time, 30) == BucketTime(time', 30)
  {
    hide ParseClock, FormatClock, ParseDate, DayNumber, ShowDate, Rounded;
    var s, t := ParseClock(time).value, ParseClock(time').value;
    var d, e := ParseDate(date).value, ParseDate(date').value;
    HalfHours(DayNumber(d), s.0, s.1, DayNumber(e), t.0, t.1);
    DayNumbersAreInjective(d, e);
  }

  lemma HalfHours(d: int, h: int, m: int, d': int, h': int, m': int)
    requires 0 <= h < 24 && 0 <= m < 60 && 0 <= h' < 24 && 0 <= m' < 60
    requires d * 48 + (h * 60 + m) / 30 == d' * 48 + (h' * 60 + m') / 30
    ensures d == d' && h == h' && Rounded(m, 30) == Rounded(m', 30)
  {
    assert (h * 60 + m) / 30 == 2 * h + m / 30;
    assert (h' * 60 + m') / 30 == 2 * h' + m' / 30;
  }
}
