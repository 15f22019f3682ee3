// Date and time inputs in Indian Standard Time, stored as UTC instants in ISO form.
module IstTime {
  import opened Wrappers
  import opened Calendar
  import opened ResumableStore

  const DAY := 1440
  const OFFSET := 330

  // Minutes by which the clocks of Asia/Kolkata are ahead of UTC at an instant given in minutes, rounded down.
  type Zone = int -> int

  // `isIsoCalendarDate`
  predicate IsoDate(s: string) {
    ValidDate(s) && Fields(s).year >= 1
  }

  predicate ClockShape(t: string) {
    && |t| == 5 && Digits(t[..2]) && t[2] == ':' && Digits(t[3..])
    && TwoValue(t[..2]) <= 23 && TwoValue(t[3..]) <= 59
  }

  function ClockMinutes(t: string): (m: int)
    requires ClockShape(t)
    ensures 0 <= m < DAY
  {
    60 * TwoValue(t[..2]) + TwoValue(t[3..])
  }

  function Clock(m: int): (t: string)
    requires 0 <= m < DAY
    ensures |t| == 5
  {
    Two(m / 60) + ":" + Two(m % 60)
  }

  predicate InputShape(value: string) {
    |value| == 16 && IsoDate(value[..10]) && value[10] == 'T' && ClockShape(value[11..])
  }

  // Minutes of a local date and time, counted from the start of the year 0000.
  function LocalMinutes(value: string): int
    requires InputShape(value)
  {
    DayOf(value[..10]) * DAY + ClockMinutes(value[11..])
  }

  // `toISOString` of a whole minute in the years 0000 to 9999.
  function IsoInstant(minutes: int): string
    requires 0 <= minutes / DAY <= LAST_DAY
  {
    YearInRange(CivilOf(minutes / DAY));
    IsoText(CivilOf(minutes / DAY)) + "T" + Clock(minutes % DAY) + ":00.000Z"
  }

  // The instant such a text stands for.
  function ReadInstant(value: string): Option<int> {
    if |value| == 24 && IsoDate(value[..10]) && value[10] == 'T' && ClockShape(value[11..16])
      && value[16..] == ":00.000Z"
    then Some(DayOf(value[..10]) * DAY + ClockMinutes(value[11..16]))
    else None
  }

  // `istDateTimeInputToIso`
  function InputToIso(value: string): string {
    if !InputShape(value) then ""
    else
      DayRange(value[..10]);
      LaterThanStart(value);
      IsoInstant(LocalMinutes(value) - OFFSET)
  }

  // A year as a formatter writes it: without leading zeros, and counted backwards before the year 1.
  function NumericYear(year: int): string {
    if 1000 <= year <= 9999 then Four(year) else if year > 0 then Decimal(year) else Decimal(1 - year)
  }

  // Clocks are less than a day ahead or behind.
  ghost predicate Bounded(zone: Zone) {
    forall minutes :: -DAY < zone(minutes) < DAY
  }

  function InputText(minutes: int): string {
    var c := CivilOf(minutes / DAY);
    NumericYear(c.year) + "-" + Two(c.month) + "-" + Two(c.day) + "T" + Clock(minutes % DAY)
  }

  // `istDateTimeInputValue` of a stored instant
  function InputValue(zone: Zone, value: string): string {
    match ReadInstant(value)
    case None => ""
    case Some(minutes) => InputText(minutes + zone(minutes))
  }

  lemma LaterThanStart(value: string)
    requires InputShape(value)
    ensures 0 <= (LocalMinutes(value) - OFFSET) / DAY <= DayOf(value[..10])
  {
    var c := Fields(value[..10]);
    WithinYear(c);
    YearsFromOne(c.year);
  }

  lemma YearsFromOne(y: int)
    requires y >= 1
    ensures DaysBeforeYear(y) >= 366
  {
    if y > 1 { YearsIncrease(1, y); }
  }

  lemma ClockRoundTrip(m: int)
    requires 0 <= m < DAY
    ensures ClockShape(Clock(m)) && ClockMinutes(Clock(m)) == m
  {
    TwoDigits(m / 60);
    TwoDigits(m % 60);
    assert Clock(m)[..2] == Two(m / 60) && Clock(m)[3..] == Two(m % 60);
  }

  lemma ClockText(t: string)
    requires ClockShape(t)
    ensures Clock(ClockMinutes(t)) == t
  {
    Sixty(TwoValue(t[..2]), TwoValue(t[3..]));
    assert t == t[..2] + ":" + t[3..];
    hide TwoValue, Two;
  }

  lemma Sixty(hours: int, minutes: int)
    requires 0 <= minutes < 60
    ensures (60 * hours + minutes) / 60 == hours && (60 * hours + minutes) % 60 == minutes
  {
  }

  lemma ReadBack(minutes: int)
    requires 366 <= minutes / DAY <= LAST_DAY
    ensures ReadInstant(IsoInstant(minutes)) == Some(minutes)
  {
    hide DayNumber, IsoText, Clock, ClockShape, ClockMinutes, Calendar.Fields, YearOf, Real, DateShape, CivilOf,
      LAST_DAY;
    var c, text := CivilOf(minutes / DAY), IsoInstant(minutes);
    NotYearZero(c);
    FieldsOfText(c);
    ClockRoundTrip(minutes % DAY);
    assert text[..10] == IsoText(c) && text[11..16] == Clock(minutes % DAY) && text[16..] == ":00.000Z";
  }

  lemma NotYearZero(c: Civil)
    requires Real(c) && 366 <= DayNumber(c) <= LAST_DAY
    ensures 1 <= c.year <= 9999
  {
    YearInRange(c);
    WithinYear(c);
  }

  // A local date and time reads back from its own text, unless its year is written with less than four digits.
  lemma InputTextReads(value: string)
    requires InputShape(value)
    ensures InputText(LocalMinutes(value)) == value <==> Fields(value[..10]).year >= 1000
  {
    hide InputText, LocalMinutes, ClockShape, DateShape, Fields;
    if Fields(value[..10]).year >= 1000 {
      LaterInputReads(value);
    } else if InputText(LocalMinutes(value)) == value {
      NotBeforeStart(value);
      InputTextTells(LocalMinutes(value), value);
    }
  }

  lemma NotBeforeStart(value: string)
    requires InputShape(value)
    ensures LocalMinutes(value) >= 0
  {
    DayRange(value[..10]);
  }

  lemma LaterInputReads(value: string)
    requires InputShape(value) && Fields(value[..10]).year >= 1000
    ensures InputText(LocalMinutes(value)) == value
  {
    hide DayNumber, Clock, ClockShape, ClockMinutes, Calendar.Fields, YearOf, Real, DateShape, CivilOf;
    var date, day := value[..10], DayOf(value[..10]);
    var c := CivilOf(day);
    DayNumberKeepsOrder(c, Fields(date));
    TextOfFields(date);
    ClockText(value[11..]);
    assert LocalMinutes(value) / DAY == day && LocalMinutes(value) % DAY == ClockMinutes(value[11..]);
    assert value == date + "T" + value[11..];
    FourYear(date);
    RealBounds(c);
    assert IsoText(c) == NumericYear(c.year) + "-" + Two(c.month) + "-" + Two(c.day);
  }

  lemma RealBounds(c: Civil)
    requires Real(c)
    ensures 1 <= c.month <= 12 && 1 <= c.day <= 31
  {
  }

  lemma FourYear(date: string)
    requires ValidDate(date)
    ensures 0 <= Fields(date).year <= 9999
  {
  }

  lemma InputTextShape(minutes: int)
    requires 1000 <= CivilOf(minutes / DAY).year <= 9999
    ensures InputShape(InputText(minutes)) && LocalMinutes(InputText(minutes)) == minutes
    ensures Fields(InputText(minutes)[..10]).year >= 1000
  {
    var c, text := CivilOf(minutes / DAY), InputText(minutes);
    FieldsOfText(c);
    ClockRoundTrip(minutes % DAY);
    assert text[..10] == IsoText(c) && text[11..] == Clock(minutes % DAY);
  }

  // The day number of 1946-01-01. Since October 1945 the clocks of India have kept to five and a half hours.
  const MODERN_DAY := 710762

  ghost predicate ModernZone(zone: Zone) {
    forall minutes :: minutes >= MODERN_DAY * DAY - OFFSET ==> zone(minutes) == OFFSET
  }

  lemma ModernDay(date: string)
    requires ValidDate(date) && Fields(date).year >= 1946
    ensures DayOf(date) >= MODERN_DAY
  {
    var c := Fields(date);
    WithinYear(c);
    if c.year > 1946 { YearsIncrease(1946, c.year); }
    assert DaysBeforeYear(1946) == MODERN_DAY;
  }

  lemma EarlierDay(c: Civil)
    requires Real(c) && c.year < 1946
    ensures DayNumber(c) < MODERN_DAY
  {
    WithinYear(c);
    YearsIncrease(c.year, 1946);
    assert DaysBeforeYear(1946) == MODERN_DAY;
  }

  // An input comes back from its stored form exactly when its year has four digits and the clocks were five and a
  // half hours ahead then.
  lemma InputComesBack(zone: Zone, value: string)
    requires InputShape(value) && Bounded(zone)
    ensures InputValue(zone, InputToIso(value)) == value <==>
              Fields(value[..10]).year >= 1000 && zone(LocalMinutes(value) - OFFSET) == OFFSET
  {
    hide ReadInstant, IsoInstant, InputText, InputShape, LocalMinutes, ValidDate, Calendar.Fields, DayOf, Real;
    var minutes := LocalMinutes(value) - OFFSET;
    LaterThanStart(value);
    DayIsInEra(value);
    if minutes / DAY < 366 {
      FirstHours(value);
      YearZeroReadsNothing(minutes);
      NotEmpty(value);
    } else {
      ReadBack(minutes);
      InputTextReads(value);
      if InputValue(zone, InputToIso(value)) == value {
        assert minutes + zone(minutes) >= 0;
        InputTextTells(minutes + zone(minutes), value);
      }
    }
  }

  lemma KeptOffsetComesBack(zone: Zone, value: string)
    requires InputShape(value) && Fields(value[..10]).year >= 1000
    requires zone(LocalMinutes(value) - OFFSET) == OFFSET
    ensures InputValue(zone, InputToIso(value)) == value
  {
    hide ReadInstant, IsoInstant, InputText, InputShape, LocalMinutes, ValidDate, Calendar.Fields, DayOf, Real;
    var minutes := LocalMinutes(value) - OFFSET;
    LaterThanStart(value);
    DayIsInEra(value);
    if minutes / DAY < 366 { FirstHours(value); }
    ReadBack(minutes);
    InputTextReads(value);
  }

  lemma NotEmpty(value: string)
    requires InputShape(value)
    ensures value != ""
  {
  }

  lemma DayIsInEra(value: string)
    requires InputShape(value)
    ensures DayOf(value[..10]) <= LAST_DAY
  {
    DayRange(value[..10]);
  }

  // Only the first hours of the year 1 are stored as an instant of the year 0, which is not read.
  lemma FirstHours(value: string)
    requires InputShape(value) && (LocalMinutes(value) - OFFSET) / DAY < 366
    ensures Fields(value[..10]).year < 1000
  {
    hide ClockShape, DateShape;
    var c := Fields(value[..10]);
    WithinYear(c);
    if c.year >= 1000 { YearsIncrease(2, c.year); }
  }

  lemma YearZeroReadsNothing(minutes: int)
    requires 0 <= minutes / DAY < 366
    ensures ReadInstant(IsoInstant(minutes)) == None
  {
    hide DayNumber, IsoText, Clock, ClockShape, ClockMinutes, Calendar.Fields, YearOf, Real, DateShape, CivilOf;
    var c, text := CivilOf(minutes / DAY), IsoInstant(minutes);
    InYearZero(c);
    FieldsOfText(c);
    assert text[..10] == IsoText(c);
  }

  lemma InYearZero(c: Civil)
    requires Real(c) && 0 <= DayNumber(c) < 366
    ensures c.year == 0
  {
    YearInRange(c);
    WithinYear(c);
    if c.year >= 1 { YearsFromOne(c.year); }
  }

  lemma OddYearLength(year: int)
    requires 0 <= year < 1000 || year > 9999
    ensures |NumericYear(year)| != 4
  {
    if year > 0 {
      DecimalLength(year);
      DecimalLength(year / 10);
      DecimalLength(year / 10 / 10);
      DecimalLength(year / 10 / 10 / 10);
    }
  }

  lemma OddYearIsNoInput(minutes: int)
    requires var c := CivilOf(minutes / DAY); 0 <= c.year < 1000 || c.year > 9999
    ensures !InputShape(InputText(minutes))
  {
    var c, text := CivilOf(minutes / DAY), InputText(minutes);
    OddYearLength(c.year);
    assert |text| == |NumericYear(c.year)| + 12;
  }

  lemma DecimalLength(n: nat)
    ensures |Decimal(n)| == if n < 10 then 1 else 1 + |Decimal(n / 10)|
    ensures n >= 10 ==> |Decimal(n / 10)| >= 1
  {
  }

  // A text of an input's shape names one local minute only.
  lemma InputTextTells(minutes: int, value: string)
    requires InputShape(value) && InputText(minutes) == value && minutes >= 0
    ensures minutes == LocalMinutes(value) && Fields(value[..10]).year >= 1000
  {
    var c := CivilOf(minutes / DAY);
    NotNegativeYear(c);
    if 1000 <= c.year <= 9999 {
      InputTextShape(minutes);
    } else {
      OddYearIsNoInput(minutes);
    }
  }

  lemma NotNegativeYear(c: Civil)
    requires Real(c) && DayNumber(c) >= 0
    ensures c.year >= 0
  {
    if c.year < 0 {
      WithinYear(c);
      YearsIncrease(c.year, 0);
      YearZero();
    }
  }

  // What is stored: the same clock five hours and thirty minutes earlier, the day before when that is not today.
  lemma StoredText(c: Civil, before: Civil, hours: int, minutes: int)
    requires Real(c) && 1 <= c.year <= 9999 && 0 <= hours <= 23 && 0 <= minutes <= 59
    requires Real(before) && DayNumber(before) == DayNumber(c) - 1 && 0 <= before.year <= 9999
    ensures var ago := 60 * hours + minutes - 330;
            InputToIso(IsoText(c) + "T" + Two(hours) + ":" + Two(minutes))
            == if ago >= 0 then IsoText(c) + "T" + Two(ago / 60) + ":" + Two(ago % 60) + ":00.000Z"
               else IsoText(before) + "T" + Two((ago + 1440) / 60) + ":" + Two((ago + 1440) % 60) + ":00.000Z"
  {
    hide DayNumber, IsoText, Calendar.Fields, YearOf, Real, DateShape, CivilOf, LAST_DAY, Two, TwoValue;
    var value := IsoText(c) + "T" + Two(hours) + ":" + Two(minutes);
    InputOf(c, hours, minutes);
    DayRange(value[..10]);
    LaterThanStart(value);
    var ago := 60 * hours + minutes - 330;
    var stored := DayNumber(c) * DAY + ago;
    assert stored / DAY == DayNumber(c) - (if ago >= 0 then 0 else 1)
        && stored % DAY == ago + (if ago >= 0 then 0 else 1440);
    DayNumberKeepsOrder(CivilOf(stored / DAY), if ago >= 0 then c else before);
  }

  lemma InputOf(c: Civil, hours: int, minutes: int)
    requires Real(c) && 1 <= c.year <= 9999 && 0 <= hours <= 23 && 0 <= minutes <= 59
    ensures var value := IsoText(c) + "T" + Two(hours) + ":" + Two(minutes);
            InputShape(value) && value[..10] == IsoText(c)
              && LocalMinutes(value) == DayNumber(c) * 1440 + 60 * hours + minutes
  {
    hide DayNumber, YearOf, Real, CivilOf, LAST_DAY, Two, TwoValue, IsoText;
    var value := IsoText(c) + "T" + Two(hours) + ":" + Two(minutes);
    FieldsOfText(c);
    TwoDigits(hours);
    TwoDigits(minutes);
    assert value[..10] == IsoText(c);
    assert value[11..][..2] == Two(hours) && value[11..][3..] == Two(minutes);
  }

  // From 1946 on every input comes back, and every stored instant too, whatever UTC day it falls on.
  lemma ModernInputComesBack(zone: Zone, value: string)
    requires ModernZone(zone) && InputShape(value) && Fields(value[..10]).year >= 1946
    ensures InputValue(zone, InputToIso(value)) == value
  {
    hide InputValue, InputToIso, ClockShape, DateShape, Fields, ValidDate;
    ModernDay(value[..10]);
    ModernMinutes(value);
    KeptOffsetComesBack(zone, value);
  }

  lemma ModernMinutes(value: string)
    requires InputShape(value) && DayOf(value[..10]) >= MODERN_DAY
    ensures LocalMinutes(value) >= MODERN_DAY * DAY
  {
  }

  lemma ModernInstantComesBack(zone: Zone, minutes: int)
    requires ModernZone(zone) && MODERN_DAY * DAY - OFFSET <= minutes && (minutes + OFFSET) / DAY <= LAST_DAY
    ensures InputToIso(InputValue(zone, IsoInstant(minutes))) == IsoInstant(minutes)
  {
    hide ReadInstant, InputText, InputShape, LocalMinutes, IsoInstant, Calendar.Fields, DayNumber, Real, YearOf;
    ReadBack(minutes);
    var local := minutes + OFFSET;
    ModernYear(CivilOf(local / DAY));
    InputTextShape(local);
  }

  lemma ModernYear(c: Civil)
    requires Real(c) && MODERN_DAY <= DayNumber(c) <= LAST_DAY
    ensures 1946 <= c.year <= 9999
  {
    hide DayNumber, Real;
    YearInRange(c);
    if c.year < 1946 { EarlierDay(c); }
  }
}
