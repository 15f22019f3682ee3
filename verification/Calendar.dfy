// RFC 3339 full-dates held as text, and the day arithmetic the program does on them.
module Calendar {
  import opened Wrappers
  import opened Text

  datatype Civil = Civil(year: int, month: int, day: int)

  predicate Divides(k: int, y: int)
    requires k > 0
  {
    y % k == 0
  }

  predicate Leap(y: int) {
    Divides(4, y) && (!Divides(100, y) || Divides(400, y))
  }

  function DaysInMonth(y: int, m: int): (n: int)
    ensures 28 <= n <= 31
  {
    if m == 2 then (if Leap(y) then 29 else 28)
    else if m == 4 || m == 6 || m == 9 || m == 11 then 30
    else 31
  }

  predicate Real(c: Civil) {
    1 <= c.month <= 12 && 1 <= c.day <= DaysInMonth(c.year, c.month)
  }

  // How many multiples of k there are from 0 up to, and without, y.
  function Multiples(k: int, y: int): int
    requires k > 0
  {
    (y + k - 1) / k
  }

  function DaysBeforeYear(y: int): int {
    365 * y + Multiples(4, y) - Multiples(100, y) + Multiples(400, y)
  }

  function DaysBeforeMonth(y: int, m: int): int
    requires 1 <= m <= 13
  {
    if m == 1 then 0 else DaysBeforeMonth(y, m - 1) + DaysInMonth(y, m - 1)
  }

  // Days since 0000-01-01 of the proleptic Gregorian calendar.
  function DayNumber(c: Civil): int
    requires Real(c)
  {
    DaysBeforeYear(c.year) + DaysBeforeMonth(c.year, c.month) + c.day - 1
  }

  lemma YearLength(y: int)
    ensures DaysBeforeYear(y + 1) == DaysBeforeYear(y) + DaysBeforeMonth(y, 13)
    ensures DaysBeforeMonth(y, 13) == if Leap(y) then 366 else 365
  {
    hide DaysBeforeMonth, DaysBeforeYear, Leap;
    LeapDays(y);
    TwelveMonths(y);
  }

  lemma TwelveMonths(y: int)
    ensures DaysBeforeMonth(y, 13) == if Leap(y) then 366 else 365
  {
    hide Leap;
    assert DaysBeforeMonth(y, 2) == 31;
    assert DaysBeforeMonth(y, 4) == DaysBeforeMonth(y, 2) + DaysInMonth(y, 2) + 31;
    assert DaysBeforeMonth(y, 6) == DaysBeforeMonth(y, 4) + 61;
    assert DaysBeforeMonth(y, 8) == DaysBeforeMonth(y, 6) + 61;
    assert DaysBeforeMonth(y, 10) == DaysBeforeMonth(y, 8) + 61;
    assert DaysBeforeMonth(y, 12) == DaysBeforeMonth(y, 10) + 61;
  }

  lemma LeapDays(y: int)
    ensures DaysBeforeYear(y + 1) == DaysBeforeYear(y) + if Leap(y) then 366 else 365
  {
    hide Multiples, Divides;
    NextMultiple4(y);
    NextMultiple100(y);
    NextMultiple400(y);
    DividesDown(y);
  }

  lemma Quotient4(y: int, q: int, r: int)
    requires y == 4 * q + r && 0 <= r < 4
    ensures y / 4 == q && y % 4 == r
  {
  }

  lemma NextMultiple4(y: int)
    ensures Multiples(4, y + 1) == Multiples(4, y) + if Divides(4, y) then 1 else 0
  {
    var q, r := y / 4, y % 4;
    Quotient4(y + 3, if r == 0 then q else q + 1, if r == 0 then 3 else r - 1);
    Quotient4(y + 4, q + 1, r);
  }

  lemma Quotient100(y: int, q: int, r: int)
    requires y == 100 * q + r && 0 <= r < 100
    ensures y / 100 == q && y % 100 == r
  {
  }

  lemma NextMultiple100(y: int)
    ensures Multiples(100, y + 1) == Multiples(100, y) + if Divides(100, y) then 1 else 0
  {
    var q, r := y / 100, y % 100;
    Quotient100(y + 99, if r == 0 then q else q + 1, if r == 0 then 99 else r - 1);
    Quotient100(y + 100, q + 1, r);
  }

  lemma Quotient400(y: int, q: int, r: int)
    requires y == 400 * q + r && 0 <= r < 400
    ensures y / 400 == q && y % 400 == r
  {
  }

  lemma NextMultiple400(y: int)
    ensures Multiples(400, y + 1) == Multiples(400, y) + if Divides(400, y) then 1 else 0
  {
    var q, r := y / 400, y % 400;
    Quotient400(y + 399, if r == 0 then q else q + 1, if r == 0 then 399 else r - 1);
    Quotient400(y + 400, q + 1, r);
  }

  lemma DividesDown(y: int)
    ensures Divides(400, y) ==> Divides(100, y)
    ensures Divides(100, y) ==> Divides(4, y)
  {
    if y % 400 == 0 { Quotient100(y, 4 * (y / 400), 0); }
    if y % 100 == 0 { Quotient4(y, 25 * (y / 100), 0); }
  }

  lemma {:induction false} MonthsIncrease(y: int, m: int, n: int)
    requires 1 <= m < n <= 13
    ensures DaysBeforeMonth(y, m) + DaysInMonth(y, m) <= DaysBeforeMonth(y, n)
    ensures DaysBeforeMonth(y, m) >= 0
  {
    if m > 1 { MonthsIncrease(y, m - 1, m); }
    if n > m + 1 { MonthsIncrease(y, m, n - 1); }
  }

  lemma {:induction false} YearsIncrease(y: int, z: int)
    requires y < z
    ensures DaysBeforeYear(y + 1) <= DaysBeforeYear(z)
    decreases z - y
  {
    if y + 1 < z {
      YearLength(z - 1);
      YearsIncrease(y, z - 1);
    }
  }

  predicate Earlier(a: Civil, b: Civil) {
    a.year < b.year || (a.year == b.year && (a.month < b.month || (a.month == b.month && a.day < b.day)))
  }

  // Day numbers keep the order of (year, month, day), so no two dates share a number.
  lemma DayNumberKeepsOrder(a: Civil, b: Civil)
    requires Real(a) && Real(b)
    ensures DayNumber(a) < DayNumber(b) <==> Earlier(a, b)
    ensures DayNumber(a) == DayNumber(b) <==> a == b
  {
    if Earlier(a, b) {
      EarlierHasSmallerNumber(a, b);
    } else if Earlier(b, a) {
      EarlierHasSmallerNumber(b, a);
    }
  }

  lemma EarlierHasSmallerNumber(a: Civil, b: Civil)
    requires Real(a) && Real(b) && Earlier(a, b)
    ensures DayNumber(a) < DayNumber(b)
  {
    if a.year < b.year {
      YearsIncrease(a.year, b.year);
      YearLength(a.year);
      MonthsIncrease(a.year, a.month, 13);
      MonthsIncrease(b.year, b.month, 13);
    } else if a.month < b.month {
      MonthsIncrease(a.year, a.month, b.month);
    }
  }

  // The year, month and day a day number falls in.
  function YearOf(n: int): (y: int)
    ensures DaysBeforeYear(y) <= n < DaysBeforeYear(y + 1)
  {
    var y := n * 400 / 146097;
    assert 146097 * y <= 400 * n < 146097 * (y + 1);
    YearBounds(y - 1);
    YearBounds(y + 2);
    if DaysBeforeYear(y + 1) <= n then y + 1
    else if DaysBeforeYear(y) <= n then y
    else y - 1
  }

  lemma YearBounds(y: int)
    ensures 146097 * y - 396 <= 400 * DaysBeforeYear(y) <= 146097 * y + 699
  {
  }

  function MonthOf(y: int, rest: int, m: int): (r: int)
    requires 1 <= m <= 12 && DaysBeforeMonth(y, m) <= rest < DaysBeforeMonth(y, 13)
    ensures m <= r <= 12 && DaysBeforeMonth(y, r) <= rest < DaysBeforeMonth(y, r + 1)
    decreases 12 - m
  {
    if rest < DaysBeforeMonth(y, m + 1) then m else MonthOf(y, rest, m + 1)
  }

  function CivilOf(n: int): (c: Civil)
    ensures Real(c) && DayNumber(c) == n
  {
    var y := YearOf(n);
    YearLength(y);
    var rest := n - DaysBeforeYear(y);
    var m := MonthOf(y, rest, 1);
    Civil(y, m, rest - DaysBeforeMonth(y, m) + 1)
  }

  // ---- text ----

  function Digit(n: int): char
    requires 0 <= n <= 9
  {
    ('0' as int + n) as char
  }

  predicate IsDigit(c: char) {
    '0' <= c <= '9'
  }

  function DigitValue(c: char): (n: int)
    requires IsDigit(c)
    ensures 0 <= n <= 9 && Digit(n) == c
  {
    c as int - '0' as int
  }

  function Two(n: int): (s: string)
    requires 0 <= n <= 99
    ensures |s| == 2
  {
    [Digit(n / 10), Digit(n % 10)]
  }

  function Four(n: int): (s: string)
    requires 0 <= n <= 9999
    ensures |s| == 4
  {
    Two(n / 100) + Two(n % 100)
  }

  function Six(n: int): (s: string)
    requires 0 <= n <= 999999
    ensures |s| == 6
  {
    Two(n / 10000) + Four(n % 10000)
  }

  // The dates a JavaScript Date can hold: 100,000,000 days either side of 1970-01-01.
  const EPOCH := 719528

  predicate Representable(n: int) {
    -100_000_000 <= n - EPOCH <= 100_000_000
  }

  // The first ten characters of the ISO text. Years outside 0000-9999 are written with a sign and
  // six digits, so there the day of the month is cut off.
  function IsoText(c: Civil): (s: string)
    requires Real(c) && -999999 <= c.year <= 999999
    ensures |s| == 10
  {
    if 0 <= c.year <= 9999 then Four(c.year) + "-" + Two(c.month) + "-" + Two(c.day)
    else if c.year > 9999 then "+" + Six(c.year) + "-" + Two(c.month)
    else "-" + Six(-c.year) + "-" + Two(c.month)
  }

  predicate Digits(s: string) {
    forall i :: 0 <= i < |s| ==> IsDigit(s[i])
  }

  function TwoValue(s: string): (n: int)
    requires |s| == 2 && Digits(s)
    ensures 0 <= n <= 99 && Two(n) == s
  {
    10 * DigitValue(s[0]) + DigitValue(s[1])
  }

  lemma Hundreds(high: int, low: int)
    requires 0 <= high <= 99 && 0 <= low <= 99
    ensures (100 * high + low) / 100 == high && (100 * high + low) % 100 == low
  {
  }

  function FourValue(s: string): (n: int)
    requires |s| == 4 && Digits(s)
    ensures 0 <= n <= 9999 && Four(n) == s
  {
    assert s == s[..2] + s[2..];
    var high, low := TwoValue(s[..2]), TwoValue(s[2..]);
    Hundreds(high, low);
    100 * high + low
  }

  predicate DateShape(s: string) {
    |s| == 10 && Digits(s[..4]) && s[4] == '-' && Digits(s[5..7]) && s[7] == '-' && Digits(s[8..])
  }

  function Fields(s: string): Civil
    requires DateShape(s)
  {
    Civil(FourValue(s[..4]), TwoValue(s[5..7]), TwoValue(s[8..]))
  }

  // A four-digit-year date that survives the round trip through a Date.
  predicate ValidDate(s: string) {
    DateShape(s) && Real(Fields(s))
  }

  function DayOf(s: string): int
    requires ValidDate(s)
  {
    DayNumber(Fields(s))
  }

  lemma TextOfFields(s: string)
    requires ValidDate(s)
    ensures IsoText(Fields(s)) == s
  {
    assert s == s[..4] + "-" + s[5..7] + "-" + s[8..];
  }

  lemma FieldsOfText(c: Civil)
    requires Real(c) && 0 <= c.year <= 9999
    ensures ValidDate(IsoText(c)) && Fields(IsoText(c)) == c
  {
    var s := IsoText(c);
    assert s[..4] == Four(c.year) && s[5..7] == Two(c.month) && s[8..] == Two(c.day);
    FourDigits(c.year);
    TwoDigits(c.month);
    TwoDigits(c.day);
  }

  lemma TwoDigits(n: int)
    requires 0 <= n <= 99
    ensures Digits(Two(n)) && TwoValue(Two(n)) == n
  {
  }

  lemma FourDigits(n: int)
    requires 0 <= n <= 9999
    ensures Digits(Four(n)) && FourValue(Four(n)) == n
  {
    TwoDigits(n / 100);
    TwoDigits(n % 100);
    var s := Four(n);
    assert s[..2] == Two(n / 100) && s[2..] == Two(n % 100);
  }

  lemma TwoOrder(a: string, b: string)
    requires |a| == |b| == 2 && Digits(a) && Digits(b)
    ensures Less(a, b) <==> TwoValue(a) < TwoValue(b)
    ensures a == b <==> TwoValue(a) == TwoValue(b)
  {
    assert a == [a[0]] + [a[1]] && b == [b[0]] + [b[1]];
    if a[0] == b[0] {
      assert Less(a, b) == Less(a[1..], b[1..]);
      assert a[1..][0] == a[1] && b[1..][0] == b[1] && a[1..][1..] == b[1..][1..] == "";
      assert Less(a[1..], b[1..]) <==> a[1] < b[1];
    }
    assert DigitValue(a[0]) == DigitValue(b[0]) <==> a[0] == b[0];
    assert DigitValue(a[1]) == DigitValue(b[1]) <==> a[1] == b[1];
  }

  lemma SplitOrder(a: string, b: string, c: string, d: string)
    requires |a| == |b|
    ensures Less(a + c, b + d) <==> Less(a, b) || (a == b && Less(c, d))
  {
    if a == b {
      CommonPrefix(a, c, d);
      LessIsTotal(a, a);
    } else {
      FirstDifference(a, b, c, d);
    }
  }

  lemma {:induction false} FirstDifference(a: string, b: string, c: string, d: string)
    requires |a| == |b| && a != b
    ensures Less(a + c, b + d) <==> Less(a, b)
  {
    assert (a + c)[1..] == a[1..] + c && (b + d)[1..] == b[1..] + d;
    if a[0] == b[0] {
      assert a == [a[0]] + a[1..] && b == [b[0]] + b[1..];
      FirstDifference(a[1..], b[1..], c, d);
    }
  }

  // The four numbers a date's text is compared by.
  predicate FieldsBefore(a: string, b: string)
    requires DateShape(a) && DateShape(b)
  {
    var (a1, a2, a3, a4) := (a[..2], a[2..4], a[5..7], a[8..]);
    var (b1, b2, b3, b4) := (b[..2], b[2..4], b[5..7], b[8..]);
    Less(a1, b1) || (a1 == b1 && (Less(a2, b2) || (a2 == b2 && (Less(a3, b3) || (a3 == b3 && Less(a4, b4))))))
  }

  // Texts of one shape compare field by field.
  lemma TextOrderIsFieldOrder(a: string, b: string)
    requires DateShape(a) && DateShape(b)
    ensures Less(a, b) <==> FieldsBefore(a, b)
  {
    var aDay, bDay := "-" + a[8..], "-" + b[8..];
    var aMonth, bMonth := "-" + (a[5..7] + aDay), "-" + (b[5..7] + bDay);
    assert a == a[..2] + (a[2..4] + aMonth);
    assert b == b[..2] + (b[2..4] + bMonth);
    hide Less, DateShape;
    SplitOrder(a[..2], b[..2], a[2..4] + aMonth, b[2..4] + bMonth);
    SplitOrder(a[2..4], b[2..4], aMonth, bMonth);
    CommonPrefix("-", a[5..7] + aDay, b[5..7] + bDay);
    SplitOrder(a[5..7], b[5..7], aDay, bDay);
    CommonPrefix("-", a[8..], b[8..]);
  }

  lemma FieldOrderIsDateOrder(a: string, b: string)
    requires DateShape(a) && DateShape(b)
    ensures FieldsBefore(a, b) <==> Earlier(Fields(a), Fields(b))
  {
    assert Digits(a[..2]) && Digits(a[2..4]) && Digits(b[..2]) && Digits(b[2..4]) by {
      assert forall i :: 0 <= i < 2 ==> a[..2][i] == a[..4][i] && a[2..4][i] == a[..4][i + 2];
      assert forall i :: 0 <= i < 2 ==> b[..2][i] == b[..4][i] && b[2..4][i] == b[..4][i + 2];
    }
    assert a[..4][..2] == a[..2] && a[..4][2..] == a[2..4];
    assert b[..4][..2] == b[..2] && b[..4][2..] == b[2..4];
    hide Less, Digits;
    TwoOrder(a[..2], b[..2]);
    TwoOrder(a[2..4], b[2..4]);
    TwoOrder(a[5..7], b[5..7]);
    TwoOrder(a[8..], b[8..]);
  }

  // For four-digit years the order of the texts is the order of the days.
  lemma TextOrderIsDayOrder(a: string, b: string)
    requires ValidDate(a) && ValidDate(b)
    ensures Less(a, b) <==> DayOf(a) < DayOf(b)
    ensures a == b <==> DayOf(a) == DayOf(b)
  {
    hide Less, FieldsBefore, DateShape, DayNumber, IsoText, Real;
    DayNumberKeepsOrder(Fields(a), Fields(b));
    TextOfFields(a);
    TextOfFields(b);
    TextOrderIsFieldOrder(a, b);
    FieldOrderIsDateOrder(a, b);
  }

  // ---- day arithmetic on texts ----

  function SixValue(s: string): (n: int)
    requires |s| == 6 && Digits(s)
    ensures 0 <= n <= 999999
  {
    10000 * TwoValue(s[..2]) + FourValue(s[2..])
  }

  // The day a text denotes once the program appends a midnight UTC time to it: a full date, or the
  // cut-off text of a year outside 0000-9999, which reads as the first of its month.
  function Instant(value: string): Option<int> {
    if ValidDate(value) then Some(DayOf(value))
    else if |value| == 10 && Digits(value[1..7]) && value[7] == '-' && Digits(value[8..])
            && 1 <= TwoValue(value[8..]) <= 12 then
      if value[0] == '+' then Some(DayNumber(Civil(SixValue(value[1..7]), TwoValue(value[8..]), 1)))
      else if value[0] == '-' && SixValue(value[1..7]) > 0 then
        Some(DayNumber(Civil(-SixValue(value[1..7]), TwoValue(value[8..]), 1)))
      else None
    else None
  }

  lemma RepresentableYear(n: int)
    requires Representable(n)
    ensures -999999 <= YearOf(n) <= 999999
  {
    YearBounds(YearOf(n));
    YearBounds(YearOf(n) + 1);
  }

  // `addDays`. The empty text stands for the RangeError raised on a text that is no date or on a day
  // a Date cannot hold.
  function AddDays(value: string, days: int): string {
    match Instant(value)
    case None => ""
    case Some(day) =>
      if Representable(day + days) then
        RepresentableYear(day + days);
        IsoText(CivilOf(day + days))
      else ""
  }

  const LAST_DATE := "9999-12-31"
  const CUT_OFF := "+010000-01"

  // The day number of LAST_DATE.
  const LAST_DAY := 3652424

  lemma LastDate()
    ensures ValidDate(LAST_DATE) && DayOf(LAST_DATE) == LAST_DAY
  {
    FieldsOfText(Civil(9999, 12, 31));
    assert IsoText(Civil(9999, 12, 31)) == LAST_DATE by {
      assert Four(9999) == "9999" && Two(12) == "12" && Two(31) == "31";
    }
    YearLength(9999);
    assert DaysBeforeMonth(9999, 13) == DaysBeforeMonth(9999, 12) + DaysInMonth(9999, 12);
    assert DaysBeforeYear(10000) == 3652425;
  }

  lemma DayRange(s: string)
    requires ValidDate(s)
    ensures 0 <= DayOf(s) <= LAST_DAY
  {
    var c := Fields(s);
    MonthsIncrease(c.year, c.month, 13);
    YearLength(c.year);
    YearInRange(c);
  }

  lemma YearZero()
    ensures DaysBeforeYear(0) == 0 && DaysBeforeYear(10000) == LAST_DAY + 1
  {
  }

  lemma WithinYear(c: Civil)
    requires Real(c)
    ensures DaysBeforeYear(c.year) <= DayNumber(c) < DaysBeforeYear(c.year + 1)
  {
    MonthsIncrease(c.year, c.month, 13);
    YearLength(c.year);
  }

  lemma YearInRange(c: Civil)
    requires Real(c)
    ensures 0 <= c.year <= 9999 <==> 0 <= DayNumber(c) <= LAST_DAY
  {
    hide *;
    YearZero();
    WithinYear(c);
    if c.year < 0 { YearsIncrease(c.year, 0); }
    if c.year > 0 { YearsIncrease(0, c.year); YearsIncrease(-1, 0); YearsIncrease(-1, c.year); }
    if c.year > 9999 { YearsIncrease(9999, c.year); }
    if c.year < 9999 { YearsIncrease(c.year, 10000); }
  }

  // Adding days shifts the day number exactly as long as the result keeps a four-digit year.
  lemma AddDaysShifts(value: string, days: int)
    requires ValidDate(value)
    requires 0 <= DayOf(value) + days <= LAST_DAY
    ensures ValidDate(AddDays(value, days)) && DayOf(AddDays(value, days)) == DayOf(value) + days
  {
    hide DayNumber, IsoText, Fields, DateShape, Real, YearOf;
    var c := CivilOf(DayOf(value) + days);
    hide CivilOf;
    YearInRange(c);
    FieldsOfText(c);
    assert AddDays(value, days) == IsoText(c);
  }

  lemma SameDay(a: string, b: string)
    requires ValidDate(a) && ValidDate(b) && DayOf(a) == DayOf(b)
    ensures a == b
  {
    TextOrderIsDayOrder(a, b);
  }

  lemma AddDaysComposes(value: string, a: int, b: int)
    requires ValidDate(value)
    requires 0 <= DayOf(value) + a <= LAST_DAY && 0 <= DayOf(value) + a + b <= LAST_DAY
    ensures AddDays(AddDays(value, a), b) == AddDays(value, a + b)
  {
    hide DayOf, AddDays, ValidDate;
    AddDaysShifts(value, a);
    AddDaysShifts(AddDays(value, a), b);
    AddDaysShifts(value, a + b);
    SameDay(AddDays(AddDays(value, a), b), AddDays(value, a + b));
  }

  // ---- the planning dates ----

  datatype WorkCalendar = WorkCalendar(workingDates: seq<string>, holidays: seq<string>, weeklyHoliday: int)

  // `getUTCDay`: 0 is Sunday.
  function Weekday(day: int): (w: int)
    ensures 0 <= w <= 6
  {
    (day + 6) % 7
  }

  predicate Works(cal: WorkCalendar, date: string)
    requires ValidDate(date)
  {
    (date in cal.workingDates || Weekday(DayOf(date)) != cal.weeklyHoliday) && date !in cal.holidays
  }

  // Weekdays follow one another, and 5 January 2026 is a Monday.
  lemma WeekdaysTurn(day: int)
    ensures Weekday(day + 1) == if Weekday(day) == 6 then 0 else Weekday(day) + 1
    ensures ValidDate("2026-01-05") && Weekday(DayOf("2026-01-05")) == 1
  {
    var c := Civil(2026, 1, 5);
    assert Four(2026) == "2026" && Two(1) == "01" && Two(5) == "05";
    FieldsOfText(c);
    assert IsoText(c) == "2026-01-05";
    hide IsoText, Fields, DateShape, ValidDate;
    assert DayNumber(c) == DaysBeforeYear(2026) + 4;
  }

  // A holiday is never worked; a working date is, whatever its weekday; other dates are but for the weekly holiday.
  lemma WorkedDates(cal: WorkCalendar, date: string)
    requires ValidDate(date)
    ensures date in cal.holidays ==> !Works(cal, date)
    ensures date !in cal.holidays && date in cal.workingDates ==> Works(cal, date)
    ensures date !in cal.holidays && date !in cal.workingDates ==>
              (Works(cal, date) <==> Weekday(DayOf(date)) != cal.weeklyHoliday)
  {
  }

  // Thirty days have September, April, June and November; of two centuries' last years one is a leap year.
  lemma MonthsAsTheyAre(y: int)
    ensures forall m :: m in {4, 6, 9, 11} ==> DaysInMonth(y, m) == 30
    ensures forall m :: m in {1, 3, 5, 7, 8, 10, 12} ==> DaysInMonth(y, m) == 31
    ensures DaysInMonth(2023, 2) == 28 && DaysInMonth(2024, 2) == 29
    ensures DaysInMonth(1900, 2) == 28 && DaysInMonth(2000, 2) == 29
  {
  }

  ghost predicate IsPlanningDate(cal: WorkCalendar, start: string, horizon: string, date: string) {
    ValidDate(date) && AtMost(start, date) && AtMost(date, horizon) && Works(cal, date)
  }

  lemma HorizonHasNext(horizon: string)
    requires ValidDate(horizon)
    ensures DayOf(horizon) < LAST_DAY <==> horizon != LAST_DATE
    ensures Less(horizon, LAST_DATE) <==> horizon != LAST_DATE
    ensures 0 <= DayOf(horizon) <= LAST_DAY
  {
    hide *;
    LastDate();
    DayRange(horizon);
    TextOrderIsDayOrder(horizon, LAST_DATE);
  }

  // The planning dates from one date on.
  function DatesFrom(cal: WorkCalendar, date: string, horizon: string): seq<string>
    requires ValidDate(date) && ValidDate(horizon) && horizon != LAST_DATE
    decreases DayOf(horizon) + 1 - DayOf(date)
  {
    if Less(horizon, date) then []
    else
      TextOrderIsDayOrder(horizon, date);
      HorizonHasNext(horizon);
      DayRange(date);
      AddDaysShifts(date, 1);
      (if Works(cal, date) then [date] else []) + DatesFrom(cal, AddDays(date, 1), horizon)
  }

  // The loop that lists the planning dates. It is entered only for horizons it can pass; see
  // PlanningLoopEnds for the one it cannot.
  method PlanningDates(cal: WorkCalendar, start: string, horizon: string) returns (dates: seq<string>)
    requires ValidDate(start) && ValidDate(horizon) && horizon != LAST_DATE
    ensures forall i, j :: 0 <= i < j < |dates| ==> Less(dates[i], dates[j])
    ensures forall d :: d in dates <==> IsPlanningDate(cal, start, horizon, d)
    ensures dates == DatesFrom(cal, start, horizon)
  {
    hide DayOf, AddDays, ValidDate, Works, Less, Weekday;
    HorizonHasNext(horizon);
    dates := [];
    var date := start;
    forall d | ValidDate(d) && AtMost(start, d) ensures DayOf(start) <= DayOf(d) {
      TextOrderIsDayOrder(d, start);
    }
    while AtMost(date, horizon)
      invariant ValidDate(date) && DayOf(start) <= DayOf(date)
      invariant forall i, j :: 0 <= i < j < |dates| ==> Less(dates[i], dates[j])
      invariant forall d :: d in dates <==> IsPlanningDate(cal, start, horizon, d) && DayOf(d) < DayOf(date)
      invariant dates + DatesFrom(cal, date, horizon) == DatesFrom(cal, start, horizon)
      decreases DayOf(horizon) + 1 - DayOf(date)
    {
      TextOrderIsDayOrder(horizon, date);
      var next := AddDays(date, 1);
      DayRange(date);
      AddDaysShifts(date, 1);
      forall d | ValidDate(d)
        ensures Less(d, date) <==> DayOf(d) < DayOf(date)
        ensures d == date <==> DayOf(d) == DayOf(date)
      {
        TextOrderIsDayOrder(d, date);
      }
      TextOrderIsDayOrder(date, start);
      assert forall i :: 0 <= i < |dates| ==> dates[i] in dates && Less(dates[i], date);
      if Works(cal, date) {
        dates := dates + [date];
      }
      date := next;
    }
    TextOrderIsDayOrder(horizon, date);
    forall d | IsPlanningDate(cal, start, horizon, d) ensures DayOf(d) < DayOf(date) {
      TextOrderIsDayOrder(horizon, d);
    }
  }

  // The loop variable after n turns.
  function DateAfter(start: string, n: nat): string {
    if n == 0 then start else AddDays(DateAfter(start, n - 1), 1)
  }

  ghost predicate LoopEnds(start: string, horizon: string) {
    exists n: nat :: Less(horizon, DateAfter(start, n))
  }

  lemma {:induction false} DateAfterShifts(start: string, n: nat)
    requires ValidDate(start) && DayOf(start) + n <= LAST_DAY
    ensures ValidDate(DateAfter(start, n)) && DayOf(DateAfter(start, n)) == DayOf(start) + n
  {
    hide DayOf, AddDays, ValidDate;
    if n > 0 {
      DayRange(start);
      DateAfterShifts(start, n - 1);
      AddDaysShifts(DateAfter(start, n - 1), 1);
    }
  }

  lemma CutOffText()
    ensures IsoText(Civil(10000, 1, 1)) == CUT_OFF && IsoText(Civil(10000, 1, 2)) == CUT_OFF
    ensures CUT_OFF == "+" + Six(10000) + "-" + Two(1)
  {
    assert Two(1) == "01" && Two(0) == "00" && Four(0) == "0000" && Six(10000) == "010000";
  }

  lemma CutOffDays()
    ensures DayNumber(Civil(10000, 1, 1)) == LAST_DAY + 1 && DayNumber(Civil(10000, 1, 2)) == LAST_DAY + 2
  {
    YearZero();
    hide DaysBeforeYear;
  }

  lemma SixDigits(n: int)
    requires 0 <= n <= 999999
    ensures Digits(Six(n)) && SixValue(Six(n)) == n
  {
    var s := Six(n);
    assert s[..2] == Two(n / 10000) && s[2..] == Four(n % 10000);
    TwoDigits(n / 10000);
    FourDigits(n % 10000);
    assert forall i :: 2 <= i < 6 ==> s[i] == s[2..][i - 2];
  }

  // A text with a sign stands for the first day of its month.
  lemma SignedReads(text: string, year: int, month: int)
    requires 0 <= year <= 999999 && 1 <= month <= 12 && text == "+" + Six(year) + "-" + Two(month)
    ensures Instant(text) == Some(DayNumber(Civil(year, month, 1))) && !ValidDate(text)
  {
    SixDigits(year);
    TwoDigits(month);
    hide DayNumber, Six, Two, SixValue, TwoValue;
    assert |text| == 10 && text[0] == '+' && text[1..7] == Six(year) && text[7] == '-' && text[8..] == Two(month);
    assert text[..4][0] == '+';
  }

  lemma CutOffReads()
    ensures Instant(CUT_OFF) == Some(LAST_DAY + 1) && !ValidDate(CUT_OFF)
  {
    CutOffText();
    CutOffDays();
    hide *;
    SignedReads(CUT_OFF, 10000, 1);
  }

  // Past the last four-digit year the text is cut off and stops moving.
  lemma CutOffStays()
    ensures AddDays(LAST_DATE, 1) == CUT_OFF && AddDays(CUT_OFF, 1) == CUT_OFF
    ensures Less(CUT_OFF, LAST_DATE)
  {
    LastDate();
    CutOffText();
    CutOffDays();
    CutOffReads();
    hide DaysBeforeYear, DaysBeforeMonth, DayNumber, IsoText, Fields, DateShape, ValidDate, YearOf;
    DayNumberKeepsOrder(CivilOf(LAST_DAY + 1), Civil(10000, 1, 1));
    DayNumberKeepsOrder(CivilOf(LAST_DAY + 2), Civil(10000, 1, 2));
    assert Instant(LAST_DATE) == Some(LAST_DAY);
  }

  lemma {:induction false} LastHorizonIsNeverPassed(start: string, n: nat)
    requires ValidDate(start)
    ensures var d := DateAfter(start, n); (ValidDate(d) || d == CUT_OFF) && AtMost(d, LAST_DATE)
  {
    hide DayOf, AddDays, ValidDate, Less;
    CutOffStays();
    LessIsTotal(CUT_OFF, LAST_DATE);
    LessIsTotal(LAST_DATE, LAST_DATE);
    if n == 0 {
      HorizonHasNext(start);
      LessIsTotal(start, LAST_DATE);
    } else {
      LastHorizonIsNeverPassed(start, n - 1);
      var d := DateAfter(start, n - 1);
      if ValidDate(d) {
        HorizonHasNext(d);
        if d != LAST_DATE {
          AddDaysShifts(d, 1);
          HorizonHasNext(AddDays(d, 1));
          LessIsTotal(AddDays(d, 1), LAST_DATE);
        }
      }
    }
  }

  // The loop over the planning dates ends exactly when its horizon is not the last four-digit date.
  lemma PlanningLoopEnds(start: string, horizon: string)
    requires ValidDate(start) && ValidDate(horizon) && AtMost(start, horizon)
    ensures LoopEnds(start, horizon) <==> horizon != LAST_DATE
  {
    hide DayOf, AddDays, ValidDate, DateAfter, Less;
    HorizonHasNext(horizon);
    DayRange(start);
    if horizon == LAST_DATE {
      forall n: nat ensures AtMost(DateAfter(start, n), horizon) { LastHorizonIsNeverPassed(start, n); }
    } else {
      TextOrderIsDayOrder(horizon, start);
      var n := DayOf(horizon) + 1 - DayOf(start);
      DateAfterShifts(start, n);
      TextOrderIsDayOrder(horizon, DateAfter(start, n));
      assert Less(horizon, DateAfter(start, n));
    }
  }
}
