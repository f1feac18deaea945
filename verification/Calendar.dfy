/** Gregorian day numbers, epoch minutes and days of the week, as the timestamps use them. */
module Calendar {
  import opened Base

  // ----- the civil calendar, as a reference -----

  datatype Date = Date(year: int, month: int, day: int)

  predicate IsLeap(y: int) { y % 4 == 0 && (y % 100 != 0 || y % 400 == 0) }

  function DaysInMonth(y: int, m: int): int {
    if m == 2 then (if IsLeap(y) then 29 else 28) else if m == 4 || m == 6 || m == 9 || m == 11 then 30 else 31
  }

  predicate ValidDate(t: Date) { 1 <= t.month <= 12 && 1 <= t.day <= DaysInMonth(t.year, t.month) }

  /** The next civil day. */
  function NextDay(t: Date): Date {
    if t.day < DaysInMonth(t.year, t.month) then Date(t.year, t.month, t.day + 1)
    else if t.month < 12 then Date(t.year, t.month + 1, 1)
    else Date(t.year + 1, 1, 1)
  }

  predicate Earlier(a: Date, b: Date) {
    a.year < b.year || (a.year == b.year && (a.month < b.month || (a.month == b.month && a.day < b.day)))
  }

  // ----- the source's arithmetic -----

  /** Division and remainder that truncate toward zero. */
  function TruncDiv(a: int, b: int): int
    requires b > 0
  {
    if a >= 0 then a / b else 0 - (0 - a) / b
  }

  function TruncRem(a: int, b: int): int
    requires b > 0
  {
    a - b * TruncDiv(a, b)
  }

  function U32(v: int): int { if 0 <= v < 0x1_0000_0000 then v else v % 0x1_0000_0000 }

  function DaysFromCivil(year: int, m: int, d: int): int {
    FromMarch(if m <= 2 then year - 1 else year, m + (if m > 2 then -3 else 9), d)
  }

  /** With years that begin in March. */
  function FromMarch(y: int, shiftedMonth: int, d: int): int {
    var era := TruncDiv(if y >= 0 then y else y - 399, 400);
    var yoe := U32(y - era * 400);
    var doy := U32(U32(153 * U32(shiftedMonth) + 2) / 5 + U32(d) - 1);
    var doe := U32(yoe * 365 + yoe / 4 - yoe / 100 + doy);
    era * 146_097 + doe - 719_468
  }

  function DayNumber(t: Date): int { DaysFromCivil(t.year, t.month, t.day) }

  /** With Monday as 0. */
  function DayOfWeek(days: int): int { TruncRem(days + 3, 7) }

  // ----- the day number counts civil days -----

  /** Days before the March-based year `y`. */
  function YearBase(y: int): int {
    var era, yoe := y / 400, y % 400;
    era * 146_097 + yoe * 365 + yoe / 4 - yoe / 100
  }

  function MonthBase(y: int, m: int): int
    requires 1 <= m <= 12
  {
    if m <= 2 then YearBase(y - 1) + (153 * (m + 9) + 2) / 5 else YearBase(y) + (153 * (m - 3) + 2) / 5
  }

  lemma FloorEra(y: int)
    ensures TruncDiv(if y >= 0 then y else y - 399, 400) == y / 400
  {
    if y < 0 {
      var q := y / 400;
      assert y == 400 * q + y % 400;
      assert (399 - y) / 400 == 0 - q;
    }
  }

  lemma NothingWraps(yoe: int, m: int, d: int)
    requires 0 <= yoe < 400 && 0 <= m <= 11 && 1 <= d <= 31
    ensures U32(U32(153 * U32(m) + 2) / 5 + U32(d) - 1) == (153 * m + 2) / 5 + d - 1
    ensures var doy := (153 * m + 2) / 5 + d - 1;
            U32(yoe * 365 + yoe / 4 - yoe / 100 + doy) == yoe * 365 + yoe / 4 - yoe / 100 + doy
  {
  }

  lemma FromMarchCounts(y: int, m: int, d: int)
    requires 0 <= m <= 11 && 1 <= d <= 31
    ensures FromMarch(y, m, d) == YearBase(y) + (153 * m + 2) / 5 + d - 1 - 719_468
  {
    FloorEra(y);
    assert y - y / 400 * 400 == y % 400;
    NothingWraps(y % 400, m, d);
  }

  lemma DayNumberInMonth(t: Date)
    requires ValidDate(t)
    ensures DayNumber(t) == MonthBase(t.year, t.month) + t.day - 1 - 719_468
  {
    if t.month <= 2 {
      FromMarchCounts(t.year - 1, t.month + 9, t.day);
    } else {
      FromMarchCounts(t.year, t.month - 3, t.day);
    }
  }

  lemma EraOf(y: int, era: int, yoe: int)
    requires y == 400 * era + yoe && 0 <= yoe < 400
    ensures y / 400 == era && y % 400 == yoe
  {
  }

  lemma LeapInEra(y: int, era: int, yoe: int)
    requires y == 400 * era + yoe && 0 <= yoe < 400
    ensures IsLeap(y) <==> yoe % 4 == 0 && (yoe % 100 != 0 || yoe == 0)
  {
    EraOf(y, era, yoe);
    SameRemainder(100 * era, yoe, 4);
    SameRemainder(4 * era, yoe, 100);
  }

  lemma SameRemainder(k: int, r: int, n: int)
    requires n == 4 || n == 100
    ensures (n * k + r) % n == r % n
  {
  }

  lemma QuarterStep(n: int)
    requires 0 <= n < 399
    ensures (n + 1) / 4 == n / 4 + (if (n + 1) % 4 == 0 then 1 else 0)
    ensures (n + 1) / 100 == n / 100 + (if (n + 1) % 100 == 0 then 1 else 0)
  {
  }

  lemma YearStep(y: int)
    ensures YearBase(y + 1) == YearBase(y) + 365 + (if IsLeap(y + 1) then 1 else 0)
  {
    var era, yoe := y / 400, y % 400;
    if yoe == 399 {
      EraOf(y + 1, era + 1, 0);
      LeapInEra(y + 1, era + 1, 0);
    } else {
      EraOf(y + 1, era, yoe + 1);
      LeapInEra(y + 1, era, yoe + 1);
      QuarterStep(yoe);
    }
  }

  /** Every month begins where the one before it ends. */
  lemma MonthStep(y: int, m: int)
    requires 1 <= m <= 12
    ensures MonthBase(y, m) + DaysInMonth(y, m) == if m < 12 then MonthBase(y, m + 1) else MonthBase(y + 1, 1)
  {
    YearStep(y - 1);
  }

  /** The day number rises by exactly one per civil day. */
  lemma DayNumberStep(t: Date)
    requires ValidDate(t)
    ensures ValidDate(NextDay(t)) && DayNumber(NextDay(t)) == DayNumber(t) + 1
  {
    DayNumberInMonth(t);
    DayNumberInMonth(NextDay(t));
    MonthStep(t.year, t.month);
  }

  lemma DayNumberOfEpoch()
    ensures DayNumber(Date(1970, 1, 1)) == 0
  {
    DayNumberInMonth(Date(1970, 1, 1));
  }

  // ----- order -----

  /** Months counted through the years. */
  function MonthStart(k: int): int { MonthBase(k / 12, k % 12 + 1) }

  function MonthLength(k: int): int { DaysInMonth(k / 12, k % 12 + 1) }

  lemma NextMonth(k: int)
    ensures MonthStart(k + 1) == MonthStart(k) + MonthLength(k) && MonthLength(k) > 0
  {
    MonthStep(k / 12, k % 12 + 1);
    if k % 12 == 11 { assert (k + 1) / 12 == k / 12 + 1 && (k + 1) % 12 == 0; }
    else { assert (k + 1) / 12 == k / 12 && (k + 1) % 12 == k % 12 + 1; }
  }

  lemma {:induction false} LaterMonth(j: int, k: int)
    requires j < k
    ensures MonthStart(j) + MonthLength(j) <= MonthStart(k)
    decreases k - j
  {
    NextMonth(j);
    if j + 1 < k {
      LaterMonth(j + 1, k);
      NextMonth(j + 1);
    }
  }

  lemma MonthIndex(t: Date, k: int)
    requires ValidDate(t) && k == 12 * t.year + t.month - 1
    ensures k / 12 == t.year && k % 12 + 1 == t.month
    ensures DayNumber(t) == MonthStart(k) + t.day - 1 - 719_468 && t.day <= MonthLength(k)
  {
    DayNumberInMonth(t);
  }

  /** Day numbers order exactly as dates do. */
  lemma DayNumbersOrder(a: Date, b: Date)
    requires ValidDate(a) && ValidDate(b)
    ensures DayNumber(a) < DayNumber(b) <==> Earlier(a, b)
    ensures DayNumber(a) == DayNumber(b) <==> a == b
  {
    var j, k := 12 * a.year + a.month - 1, 12 * b.year + b.month - 1;
    if j < k {
      InLaterMonth(a, b, j, k);
    } else if k < j {
      InLaterMonth(b, a, k, j);
    } else {
      DayNumberInMonth(a);
      DayNumberInMonth(b);
    }
  }

  lemma InLaterMonth(a: Date, b: Date, j: int, k: int)
    requires ValidDate(a) && ValidDate(b) && j == 12 * a.year + a.month - 1 && k == 12 * b.year + b.month - 1 && j < k
    ensures DayNumber(a) < DayNumber(b)
  {
    MonthIndex(a, j);
    MonthIndex(b, k);
    LaterMonth(j, k);
  }

  // ----- days of the week -----

  /** The weekday advances by one per civil day and is Thursday on 1 January 1970. The
      source's remainder gives it from 29 December 1969 on, and on Mondays before. */
  lemma WeekdayIff(days: int)
    ensures DayOfWeek(days) == (days + 3) % 7 <==> days >= -3 || (days + 3) % 7 == 0
    ensures (days + 4) % 7 == ((days + 3) % 7 + 1) % 7 && DayOfWeek(0) == 3
  {
    var a := days + 3;
    if a < 0 {
      var q := (0 - a) / 7;
      assert TruncRem(a, 7) == a + 7 * q;
      if a % 7 == 0 { assert a == 7 * (a / 7); }
    }
  }

  lemma FirstMonday(start: Date)
    requires start == Date(1969, 12, 29)
    ensures ValidDate(start) && DayNumber(start) == -3
  {
    DayNumberInMonth(start);
  }

  /** From 29 December 1969 on every civil day has the next day of the week. */
  lemma WeekdayAdvances(t: Date)
    requires ValidDate(t) && !Earlier(t, Date(1969, 12, 29))
    ensures DayOfWeek(DayNumber(NextDay(t))) == (DayOfWeek(DayNumber(t)) + 1) % 7
  {
    DayNumberStep(t);
    DayNumbersOrder(t, Date(1969, 12, 29));
    FirstMonday(Date(1969, 12, 29));
    WeekdayIff(DayNumber(t));
    WeekdayIff(DayNumber(NextDay(t)));
  }

  // ----- timestamps -----

  datatype DateTime = DateTime(epochMinute: int, hour: int, dayOfWeek: int)

  function DigitAt(s: string, i: nat): int
    requires i < |s|
  {
    s[i] as int - '0' as int
  }

  function Parse2(s: string, at: nat): Result<int> {
    if at + 2 > |s| || !IsDigit(s[at]) || !IsDigit(s[at + 1]) then Err("InvalidValue")
    else Ok(DigitAt(s, at) * 10 + DigitAt(s, at + 1))
  }

  function Parse4(s: string, at: nat): Result<int> {
    if at + 4 > |s| || !IsDigit(s[at]) || !IsDigit(s[at + 1]) || !IsDigit(s[at + 2]) || !IsDigit(s[at + 3])
    then Err("InvalidValue")
    else Ok(DigitAt(s, at) * 1000 + DigitAt(s, at + 1) * 100 + DigitAt(s, at + 2) * 10 + DigitAt(s, at + 3))
  }

  function ParseDateTime(iso: string): Result<DateTime> {
    if |iso| < 16 then Err("InvalidValue")
    else
      var y :- Parse4(iso, 0);
      var m :- Parse2(iso, 5);
      var d :- Parse2(iso, 8);
      var hh :- Parse2(iso, 11);
      var mm :- Parse2(iso, 14);
      var days := DaysFromCivil(y, m, d);
      Ok(DateTime(days * 1_440 + hh * 60 + mm, hh, DayOfWeek(days)))
  }

  /** Digits where a timestamp has its year, month, day, hour and minute; what is between them and
      behind them does not matter. */
  predicate HasDigits(iso: string) {
    |iso| >= 16 && AllDigits(iso[0..4]) && AllDigits(iso[5..7]) && AllDigits(iso[8..10]) && AllDigits(iso[11..13])
      && AllDigits(iso[14..16])
  }

  /** The number that a few digits spell. */
  function Number(s: string): int {
    if s == "" then 0 else Number(s[..|s| - 1]) * 10 + (s[|s| - 1] as int - '0' as int)
  }

  lemma {:induction false} TwoIff(s: string, at: nat, digits: string)
    requires at + 2 <= |s| && digits == s[at..at + 2]
    ensures Parse2(s, at) == if AllDigits(digits) then Ok(Number(digits)) else Err("InvalidValue")
  {
    assert digits[0] == s[at] && digits[1] == s[at + 1] && digits == [s[at], s[at + 1]];
    assert digits[..1] == [s[at]];
    assert Number(digits[..1]) == Number([]) * 10 + DigitAt(s, at);
  }

  lemma {:induction false} FourIff(s: string, at: nat, digits: string)
    requires at + 4 <= |s| && digits == s[at..at + 4]
    ensures Parse4(s, at) == if AllDigits(digits) then Ok(Number(digits)) else Err("InvalidValue")
  {
    assert digits == [s[at], s[at + 1], s[at + 2], s[at + 3]];
    assert digits[..3] == [s[at], s[at + 1], s[at + 2]] && digits[..3][..2] == [s[at], s[at + 1]];
    assert digits[..3][..2][..1] == [s[at]];
    assert Number(digits[..3][..2][..1]) == DigitAt(s, at);
    assert Number(digits[..3][..2]) == DigitAt(s, at) * 10 + DigitAt(s, at + 1);
  }

  /** Any other text is an error. */
  lemma {:induction false} TimestampIff(iso: string)
    ensures ParseDateTime(iso).Ok? <==> HasDigits(iso)
    ensures !HasDigits(iso) ==> ParseDateTime(iso) == Err("InvalidValue")
    ensures HasDigits(iso) ==>
              var days, hour := DaysFromCivil(Number(iso[0..4]), Number(iso[5..7]), Number(iso[8..10])),
                Number(iso[11..13]);
              ParseDateTime(iso) == Ok(DateTime(days * 1_440 + hour * 60 + Number(iso[14..16]), hour, DayOfWeek(days)))
  {
    if |iso| >= 16 {
      FourIff(iso, 0, iso[0..4]);
      TwoIff(iso, 5, iso[5..7]);
      TwoIff(iso, 8, iso[8..10]);
      TwoIff(iso, 11, iso[11..13]);
      TwoIff(iso, 14, iso[14..16]);
    }
  }

  /** A moment, down to the minute. */
  datatype Moment = Moment(date: Date, hour: int, minute: int)

  predicate ValidMoment(t: Moment) {
    ValidDate(t.date) && 0 <= t.date.year <= 9999 && 0 <= t.hour < 24 && 0 <= t.minute < 60
  }

  predicate Sooner(a: Moment, b: Moment) {
    Earlier(a.date, b.date) || (a.date == b.date && (a.hour < b.hour || (a.hour == b.hour && a.minute < b.minute)))
  }

  function Digit(n: int): char
    requires 0 <= n < 10
  {
    '0' + n as char
  }

  function Two(n: int): string
    requires 0 <= n < 100
  {
    [Digit(n / 10), Digit(n % 10)]
  }

  function Four(n: int): string
    requires 0 <= n < 10000
  {
    Two(n / 100) + Two(n % 100)
  }

  /** The timestamp of section 5.6 of RFC 3339, up to the minute. */
  function Render(t: Moment): string
    requires ValidMoment(t)
  {
    Four(t.date.year) + "-" + Two(t.date.month) + "-" + Two(t.date.day) + "T" + Two(t.hour) + ":" + Two(t.minute)
  }

  lemma TwoReads(s: string, at: nat, n: int)
    requires 0 <= n < 100 && at + 2 <= |s| && s[at..at + 2] == Two(n)
    ensures Parse2(s, at) == Ok(n)
  {
    assert s[at] == s[at..at + 2][0] && s[at + 1] == s[at..at + 2][1];
  }

  lemma FourReads(s: string, at: nat, n: int)
    requires 0 <= n < 10000 && at + 4 <= |s| && s[at..at + 4] == Four(n)
    ensures Parse4(s, at) == Ok(n)
  {
    var four := s[at..at + 4];
    assert s[at] == four[0] && s[at + 1] == four[1] && s[at + 2] == four[2] && s[at + 3] == four[3];
  }

  /** A rendered timestamp, whatever follows it, reads as its minute, hour and weekday. */
  lemma TimestampRoundTrip(t: Moment, rest: string)
    requires ValidMoment(t)
    ensures ParseDateTime(Render(t) + rest)
            == Ok(DateTime(DayNumber(t.date) * 1_440 + t.hour * 60 + t.minute, t.hour, DayOfWeek(DayNumber(t.date))))
  {
    var s := Render(t) + rest;
    assert s[0..4] == Four(t.date.year);
    assert s[5..7] == Two(t.date.month);
    assert s[8..10] == Two(t.date.day);
    assert s[11..13] == Two(t.hour);
    assert s[14..16] == Two(t.minute);
    FourReads(s, 0, t.date.year);
    TwoReads(s, 5, t.date.month);
    TwoReads(s, 8, t.date.day);
    TwoReads(s, 11, t.hour);
    TwoReads(s, 14, t.minute);
  }

  /** Epoch minutes order exactly as timestamps do. */
  lemma EpochMinutesOrder(a: Moment, b: Moment, r: string, s: string)
    requires ValidMoment(a) && ValidMoment(b)
    ensures ParseDateTime(Render(a) + r).Ok? && ParseDateTime(Render(b) + s).Ok?
    ensures ParseDateTime(Render(a) + r).value.epochMinute < ParseDateTime(Render(b) + s).value.epochMinute
            <==> Sooner(a, b)
  {
    TimestampRoundTrip(a, r);
    TimestampRoundTrip(b, s);
    DayNumbersOrder(a.date, b.date);
    DayNumbersOrder(b.date, a.date);
  }
}
