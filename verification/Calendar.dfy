/**
Timestamps as RFC 3339 text: the closed form from days to a date, against counting
days one by one in the Gregorian calendar.
*/
module Calendar {
  import opened Common
  import opened Decimal

  datatype Date = Date(year: nat, month: nat, day: nat)

  // ---- Counting day by day ----

  predicate Leap(year: nat) {
    year % 4 == 0 && (year % 100 != 0 || year % 400 == 0)
  }

  function DaysInMonth(year: nat, month: nat): nat {
    if month == 2 then (if Leap(year) then 29 else 28)
    else if month in {4, 6, 9, 11} then 30
    else 31
  }

  predicate ValidDate(d: Date) {
    1 <= d.month <= 12 && 1 <= d.day <= DaysInMonth(d.year, d.month)
  }

  function NextDay(d: Date): Date {
    if d.day < DaysInMonth(d.year, d.month) then d.(day := d.day + 1)
    else if d.month < 12 then Date(d.year, d.month + 1, 1)
    else Date(d.year + 1, 1, 1)
  }

  /** The date a number of days after 1 January 1970. */
  function DateAfter(days: nat): Date {
    if days == 0 then Date(1970, 1, 1) else NextDay(DateAfter(days - 1))
  }

  // ---- The closed form, in which no subtraction goes below zero ----

  /** The date of a day of a year that starts in March. */
  function FromMarch(year: nat, dayOfYear: nat): Date
    requires dayOfYear <= 365
  {
    var mp := (5 * dayOfYear + 2) / 153;
    var before: nat := dayOfYear - (153 * mp + 2) / 5;
    var month: nat := if mp < 10 then mp + 3 else mp - 9;
    Date(if month <= 2 then year + 1 else year, month, before + 1)
  }

  function YearOfEra(dayOfEra: nat): nat {
    var a: nat := dayOfEra - dayOfEra / 1460;
    var b: nat := a + dayOfEra / 36524 - dayOfEra / 146096;
    b / 365
  }

  /** Days before a year of an era. */
  function YearStart(yearOfEra: nat): nat {
    365 * yearOfEra + yearOfEra / 4 - yearOfEra / 100
  }

  // ---- Days as centuries, leap cycles and years of an era ----

  /** A day of a year that starts in March, in an era of four hundred such years. */
  datatype Position = Position(era: nat, century: nat, cycle: nat, rest: nat, day: nat)

  function Year(p: Position): nat {
    100 * p.century + 4 * p.cycle + p.rest
  }

  /** The year ends in a 29 February. */
  predicate EndsLeap(p: Position) {
    p.rest == 3 && (p.cycle < 24 || p.century == 3)
  }

  predicate ValidPosition(p: Position) {
    && p.century <= 3 && p.cycle <= 24 && p.rest <= 3
    && p.day <= if EndsLeap(p) then 365 else 364
  }

  function DayOfEra(p: Position): nat {
    36524 * p.century + 1461 * p.cycle + 365 * p.rest + p.day
  }

  function PositionIn(era: nat, doe: nat): Position
    requires doe < 146097
  {
    var century := if doe / 36524 > 3 then 3 else doe / 36524;
    var inCentury := doe - 36524 * century;
    var cycle := if inCentury / 1461 > 24 then 24 else inCentury / 1461;
    var inCycle := inCentury - 1461 * cycle;
    var rest := if inCycle / 365 > 3 then 3 else inCycle / 365;
    Position(era, century, cycle, rest, inCycle - 365 * rest)
  }

  lemma PositionIsValid(era: nat, doe: nat)
    requires doe < 146097
    ensures var p := PositionIn(era, doe); ValidPosition(p) && p.era == era && DayOfEra(p) == doe
  {
  }

  lemma CenturyIs(p: Position)
    requires ValidPosition(p)
    ensures DayOfEra(p) / 36524 - DayOfEra(p) / 146096 == p.century
    ensures Year(p) / 4 == 25 * p.century + p.cycle && Year(p) / 100 == p.century
  {
  }

  /** How far a day is past the four-year cycles before it, counted short by a day each. */
  function Slip(p: Position): nat {
    24 * p.century + p.cycle + 365 * p.rest + p.day
  }

  lemma CyclesAre(p: Position)
    requires ValidPosition(p)
    ensures DayOfEra(p) / 1460 == 25 * p.century + p.cycle + if Slip(p) >= 1460 then 1 else 0
  {
    assert DayOfEra(p) == 1460 * (25 * p.century + p.cycle) + Slip(p);
    assert Slip(p) < 2920;
  }

  lemma YearIs(n: int, day: int, year: nat)
    requires n == 365 * year + day && 0 <= day < 365
    ensures n / 365 == year
  {
  }

  /** The closed form finds the year of the era. */
  lemma YearOfEraIs(p: Position)
    requires ValidPosition(p)
    ensures YearOfEra(DayOfEra(p)) == Year(p) && DayOfEra(p) == YearStart(Year(p)) + p.day
  {
    CenturyIs(p);
    CyclesAre(p);
    var doe := DayOfEra(p);
    YearIs(doe - doe / 1460 + doe / 36524 - doe / 146096, p.day - if Slip(p) >= 1460 then 1 else 0, Year(p));
  }

  function DateAt(p: Position): Date
    requires ValidPosition(p)
  {
    FromMarch(MarchYear(p), p.day)
  }

  function FromEra(era: nat, doe: nat): Date
    requires doe < 146097
  {
    var yoe := YearOfEra(doe);
    var doy: nat := (DayOfYearFits(doe); doe - YearStart(yoe));
    FromMarch(yoe + era * 400, (DayOfYearFits(doe); doy))
  }

  function DaysToYmd(days: nat): Date {
    var z := days + 719468;
    FromEra(z / 146097, z % 146097)
  }

  lemma DayOfYearFits(doe: nat)
    requires doe < 146097
    ensures 0 <= doe - YearStart(YearOfEra(doe)) <= 365
  {
    PositionIsValid(0, doe);
    YearOfEraIs(PositionIn(0, doe));
  }

  lemma FromEraAt(p: Position)
    requires ValidPosition(p)
    ensures DayOfEra(p) < 146097 && FromEra(p.era, DayOfEra(p)) == DateAt(p)
  {
    YearOfEraIs(p);
  }

  lemma Divides(era: nat, doe: nat)
    requires doe < 146097
    ensures (146097 * era + doe) / 146097 == era && (146097 * era + doe) % 146097 == doe
  {
  }

  /** The closed form gives the date of the position, however the position was found. */
  lemma DaysToYmdAt(days: nat, p: Position)
    requires ValidPosition(p) && days + 719468 == 146097 * p.era + DayOfEra(p)
    ensures DaysToYmd(days) == DateAt(p)
  {
    FromEraAt(p);
    Divides(p.era, DayOfEra(p));
  }

  // ---- One day on ----

  function NextPosition(p: Position): Position {
    if p.day < (if EndsLeap(p) then 365 else 364) then p.(day := p.day + 1)
    else if p.rest < 3 then p.(rest := p.rest + 1, day := 0)
    else if p.cycle < 24 then Position(p.era, p.century, p.cycle + 1, 0, 0)
    else if p.century < 3 then Position(p.era, p.century + 1, 0, 0, 0)
    else Position(p.era + 1, 0, 0, 0, 0)
  }

  lemma NextPositionIsNext(p: Position)
    requires ValidPosition(p)
    ensures ValidPosition(NextPosition(p))
    ensures 146097 * NextPosition(p).era + DayOfEra(NextPosition(p)) == 146097 * p.era + DayOfEra(p) + 1
  {
  }

  /** The year that ends in February is the one that has the leap day. */
  lemma LeapYears(p: Position)
    requires ValidPosition(p)
    ensures EndsLeap(p) <==> Leap(400 * p.era + Year(p) + 1)
  {
    By4(100 * p.era + 25 * p.century + p.cycle, p.rest + 1);
    By100(4 * p.era + p.century, 4 * p.cycle + p.rest + 1);
    By400(p.era, Year(p) + 1);
  }

  lemma By4(a: nat, r: nat)
    requires 0 < r <= 4
    ensures (4 * a + r) % 4 == 0 <==> r == 4
  {
  }

  lemma By100(a: nat, r: nat)
    requires 0 < r <= 100
    ensures (100 * a + r) % 100 == 0 <==> r == 100
  {
  }

  lemma By400(a: nat, r: nat)
    requires 0 < r <= 400
    ensures (400 * a + r) % 400 == 0 <==> r == 400
  {
  }

  /** Within a year that starts in March, the next day of the year is the next day of the calendar. */
  lemma NextInYear(year: nat, day: nat)
    requires day < 364 || (day == 364 && Leap(year + 1))
    ensures FromMarch(year, day + 1) == NextDay(FromMarch(year, day))
  {
  }

  /** Its last day is the last of February, and the next year starts on 1 March. */
  lemma LastOfYear(year: nat)
    ensures NextDay(FromMarch(year, if Leap(year + 1) then 365 else 364)) == FromMarch(year + 1, 0)
  {
  }

  function MarchYear(p: Position): nat {
    400 * p.era + Year(p)
  }

  lemma NextYearFollows(p: Position)
    requires ValidPosition(p) && p.day == if EndsLeap(p) then 365 else 364
    ensures MarchYear(NextPosition(p)) == MarchYear(p) + 1 && NextPosition(p).day == 0
  {
  }

  function LastDay(leap: bool): nat {
    if leap then 365 else 364
  }

  lemma NextDateInYear(p: Position, leap: bool)
    requires ValidPosition(p) && leap == EndsLeap(p) == Leap(MarchYear(p) + 1) && p.day < LastDay(leap)
    ensures ValidPosition(NextPosition(p)) && DateAt(NextPosition(p)) == NextDay(DateAt(p))
  {
    assert NextPosition(p) == p.(day := p.day + 1);
    NextInYear(MarchYear(p), p.day);
  }

  lemma NextDateAcross(p: Position, leap: bool)
    requires ValidPosition(p) && leap == EndsLeap(p) == Leap(MarchYear(p) + 1) && p.day == LastDay(leap)
    ensures ValidPosition(NextPosition(p)) && DateAt(NextPosition(p)) == NextDay(DateAt(p))
  {
    NextYearFollows(p);
    LastOfYear(MarchYear(p));
  }

  lemma NextDateAt(p: Position)
    requires ValidPosition(p)
    ensures ValidPosition(NextPosition(p)) && DateAt(NextPosition(p)) == NextDay(DateAt(p))
  {
    LeapYears(p);
    if p.day < LastDay(EndsLeap(p)) {
      NextDateInYear(p, EndsLeap(p));
    } else {
      NextDateAcross(p, EndsLeap(p));
    }
  }

  /** Counting days reaches the date of the position that many days on. */
  lemma {:induction false} CountingReaches(days: nat) returns (p: Position)
    ensures ValidPosition(p) && days + 719468 == 146097 * p.era + DayOfEra(p)
    ensures DateAt(p) == DateAfter(days)
  {
    if days == 0 {
      p := Position(4, 3, 17, 1, 306);
      assert MarchYear(p) == 1969;
    } else {
      var before := CountingReaches(days - 1);
      NextPositionIsNext(before);
      NextDateAt(before);
      p := NextPosition(before);
    }
  }

  // ---- The theorems ----

  /** The closed form is the date found by counting days from 1 January 1970. */
  lemma ClosedFormCounts(days: nat)
    ensures DaysToYmd(days) == DateAfter(days)
  {
    var p := CountingReaches(days);
    DaysToYmdAt(days, p);
  }

  // ---- Back from a date to days ----

  function DaysInYear(year: nat): nat {
    if Leap(year) then 366 else 365
  }

  function DaysBeforeYear(year: nat): nat {
    if year <= 1970 then 0 else DaysBeforeYear(year - 1) + DaysInYear(year - 1)
  }

  function DaysBeforeMonth(year: nat, month: nat): nat {
    if month <= 1 then 0 else DaysBeforeMonth(year, month - 1) + DaysInMonth(year, month - 1)
  }

  /** Days from 1 January 1970 to a date, adding up years, months and days. */
  function DaysSince(d: Date): nat
    requires d.day >= 1
  {
    DaysBeforeYear(d.year) + DaysBeforeMonth(d.year, d.month) + d.day - 1
  }

  lemma MonthsMakeAYear(year: nat)
    ensures DaysBeforeMonth(year, 12) + 31 == DaysInYear(year)
  {
    var feb := DaysInMonth(year, 2);
    assert DaysBeforeMonth(year, 2) == 31;
    assert DaysBeforeMonth(year, 3) == 31 + feb;
    assert DaysBeforeMonth(year, 4) == 62 + feb;
    assert DaysBeforeMonth(year, 5) == 92 + feb;
    assert DaysBeforeMonth(year, 6) == 123 + feb;
    assert DaysBeforeMonth(year, 7) == 153 + feb;
    assert DaysBeforeMonth(year, 8) == 184 + feb;
    assert DaysBeforeMonth(year, 9) == 215 + feb;
    assert DaysBeforeMonth(year, 10) == 245 + feb;
    assert DaysBeforeMonth(year, 11) == 276 + feb;
  }

  lemma NextDayCounts(d: Date)
    requires ValidDate(d) && d.year >= 1970
    ensures ValidDate(NextDay(d)) && NextDay(d).year >= 1970 && DaysSince(NextDay(d)) == DaysSince(d) + 1
  {
    MonthsMakeAYear(d.year);
  }

  /** Every date is valid, and adding up to it gives the days counted. */
  lemma {:induction false} CountsBack(days: nat)
    ensures ValidDate(DateAfter(days)) && DateAfter(days).year >= 1970 && DaysSince(DateAfter(days)) == days
  {
    if days > 0 {
      CountsBack(days - 1);
      NextDayCounts(DateAfter(days - 1));
    }
  }

  // ---- The text ----

  datatype Moment = Moment(date: Date, hour: nat, minute: nat, second: nat)

  function Joined(a: string, b: string, c: string, mark: string): string {
    a + mark + b + mark + c
  }

  function Text(m: Moment): string {
    Joined(Padded(m.date.year, 4), Padded(m.date.month, 2), Padded(m.date.day, 2), "-")
    + "T" + Joined(Padded(m.hour, 2), Padded(m.minute, 2), Padded(m.second, 2), ":") + "Z"
  }

  function MomentOf(secs: nat): Moment {
    Moment(DaysToYmd(secs / 86400), (secs / 3600) % 24, (secs / 60) % 60, secs % 60)
  }

  function UnixToRfc3339(secs: int): string {
    if secs < 0 then "1970-01-01T00:00:00Z" else Text(MomentOf(secs))
  }

  /** The fields of a date and time in the form of RFC 3339, in UTC with no fraction. */
  function Fields(s: string): Option<Moment> {
    if |s| == 20
       && s[4] == '-' && s[7] == '-' && s[10] == 'T' && s[13] == ':' && s[16] == ':' && s[19] == 'Z'
       && AllDigits(s[0..4]) && AllDigits(s[5..7]) && AllDigits(s[8..10])
       && AllDigits(s[11..13]) && AllDigits(s[14..16]) && AllDigits(s[17..19])
    then Some(Moment(Date(Value(s[0..4]), Value(s[5..7]), Value(s[8..10])),
                     Value(s[11..13]), Value(s[14..16]), Value(s[17..19])))
    else None
  }

  /** The second a text stands for. */
  function Decode(s: string): Option<nat> {
    match Fields(s)
    case None => None
    case Some(m) =>
      if ValidDate(m.date) && m.date.year >= 1970 && m.hour < 24 && m.minute < 60 && m.second < 60 then
        Some(86400 * DaysSince(m.date) + 3600 * m.hour + 60 * m.minute + m.second)
      else None
  }

  lemma JoinedParts(a: string, b: string, c: string, mark: string)
    requires |b| == |c| == 2 && |mark| == 1
    ensures var j := Joined(a, b, c, mark);
            && |j| == |a| + 6
            && j[..|a|] == a && j[|a|] == mark[0] && j[|a| + 1..|a| + 3] == b
            && j[|a| + 3] == mark[0] && j[|a| + 4..] == c
  {
  }

  /** Two parts with a mark between them and one after, cut where they meet. */
  lemma TextParts(date: string, time: string)
    requires |date| == 10 && |time| == 8
    ensures var t := date + "T" + time + "Z";
            && |t| == 20 && t[10] == 'T' && t[19] == 'Z'
            && t[0..4] == date[..4] && t[4] == date[4] && t[5..7] == date[5..7] && t[7] == date[7] && t[8..10] == date[8..]
            && t[11..13] == time[..2] && t[13] == time[2] && t[14..16] == time[3..5] && t[16] == time[5]
            && t[17..19] == time[6..]
  {
  }

  lemma PaddedIs(k: nat, width: nat)
    requires 0 < width && k < Power(width)
    ensures |Padded(k, width)| == width && AllDigits(Padded(k, width)) && Value(Padded(k, width)) == k
  {
    PaddedFits(k, width);
    ValueOfPadded(k, width);
  }

  lemma TextFields(m: Moment)
    requires m.date.year < 10000 && m.date.month < 100 && m.date.day < 100
    requires m.hour < 100 && m.minute < 100 && m.second < 100
    ensures Fields(Text(m)) == Some(m)
  {
    assert Power(2) == 100 && Power(4) == 10000;
    PaddedIs(m.date.year, 4);
    PaddedIs(m.date.month, 2);
    PaddedIs(m.date.day, 2);
    PaddedIs(m.hour, 2);
    PaddedIs(m.minute, 2);
    PaddedIs(m.second, 2);
    JoinedParts(Padded(m.date.year, 4), Padded(m.date.month, 2), Padded(m.date.day, 2), "-");
    JoinedParts(Padded(m.hour, 2), Padded(m.minute, 2), Padded(m.second, 2), ":");
    TextParts(Joined(Padded(m.date.year, 4), Padded(m.date.month, 2), Padded(m.date.day, 2), "-"),
              Joined(Padded(m.hour, 2), Padded(m.minute, 2), Padded(m.second, 2), ":"));
  }

  /** A year of five digits or more makes the text too long. */
  lemma TextTooLong(m: Moment)
    requires m.date.year >= 10000
    ensures Fields(Text(m)).None?
  {
    assert Power(4) == 10000;
    DigitsNeed(m.date.year, 4);
    ValueOfPadded(m.date.month, 2);
    ValueOfPadded(m.date.day, 2);
    ValueOfPadded(m.hour, 2);
    ValueOfPadded(m.minute, 2);
    ValueOfPadded(m.second, 2);
  }

  lemma SecondsAddUp(secs: nat)
    ensures secs == 86400 * (secs / 86400) + 3600 * ((secs / 3600) % 24) + 60 * ((secs / 60) % 60) + secs % 60
  {
    assert secs / 3600 == (secs / 60) / 60;
    assert secs / 86400 == (secs / 3600) / 24;
  }

  /** Decoding the text of a moment the clock can show gives its second back. */
  lemma DecodesMoment(days: nat, m: Moment)
    requires m.date == DateAfter(days) && m.date.year <= 9999 && m.hour < 24 && m.minute < 60 && m.second < 60
    ensures Decode(Text(m)) == Some(86400 * days + 3600 * m.hour + 60 * m.minute + m.second)
  {
    CountsBack(days);
    TextFields(m);
  }

  lemma DecodesText(secs: nat, date: Date)
    requires date == DaysToYmd(secs / 86400)
    ensures date.year <= 9999 ==> Decode(Text(MomentOf(secs))) == Some(secs)
    ensures date.year > 9999 ==> Decode(Text(MomentOf(secs))).None?
  {
    var m := MomentOf(secs);
    if date.year <= 9999 {
      ClosedFormCounts(secs / 86400);
      DecodesMoment(secs / 86400, m);
      SecondsAddUp(secs);
    } else {
      TextTooLong(m);
    }
  }

  lemma EpochDigits()
    ensures Padded(1970, 4) == "1970" && Padded(1, 2) == "01" && Padded(0, 2) == "00"
  {
    assert Digits(1) == "1" && Digits(0) == "0";
    assert Digits(19) == "19";
    assert Digits(197) == "197";
    assert Digits(1970) == "1970";
  }

  lemma EpochText()
    ensures Text(Moment(Date(1970, 1, 1), 0, 0, 0)) == "1970-01-01T00:00:00Z"
  {
    EpochDigits();
  }

  lemma EpochMoment()
    ensures MomentOf(0) == Moment(Date(1970, 1, 1), 0, 0, 0)
  {
    EpochDate();
    assert 0 / 86400 == 0 && 0 / 3600 == 0 && 0 / 60 == 0;
  }

  lemma EpochDate()
    ensures DaysToYmd(0) == Date(1970, 1, 1)
  {
    var p := Position(4, 3, 17, 1, 306);
    DaysToYmdAt(0, p);
    assert MarchYear(p) == 1969;
  }

  // ---- The last second of year 9999 ----

  lemma {:induction false} YearsGrow(a: nat, b: nat)
    requires a <= b
    ensures DateAfter(a).year <= DateAfter(b).year
  {
    if a < b {
      YearsGrow(a, b - 1);
    }
  }

  /** The day that ends year 9999. */
  lemma LastOf9999(last: nat)
    requires last == 2932896
    ensures DateAfter(last) == Date(9999, 12, 31)
  {
    var p := Position(24, 3, 24, 3, 305);
    assert MarchYear(p) == 9999;
    DaysToYmdAt(last, p);
    ClosedFormCounts(last);
  }

  lemma YearHasFourDigits(days: nat, last: nat)
    requires last == 2932896
    ensures DateAfter(days).year <= 9999 <==> days <= last
  {
    LastOf9999(last);
    if days <= last {
      YearsGrow(days, last);
    } else {
      YearsGrow(last + 1, days);
    }
  }

  lemma SecondsToDays(secs: nat)
    ensures secs / 86400 <= 2932896 <==> secs < 253402300800
  {
  }

  lemma DecodesInTime(secs: nat, days: nat, last: nat)
    requires days == secs / 86400 && last == 2932896
    ensures Decode(Text(MomentOf(secs))) == Some(secs) <==> days <= last
  {
    DecodesText(secs, DaysToYmd(days));
    ClosedFormCounts(days);
    YearHasFourDigits(days, last);
  }

  /**
  The text stands for the same second exactly from the epoch to the last second of year
  9999. A second before the epoch reads as the epoch.
  */
  lemma TextRoundTrip(secs: int)
    ensures Decode(UnixToRfc3339(secs)) == Some(secs) <==> 0 <= secs < 253402300800
    ensures secs < 0 ==> UnixToRfc3339(secs) == UnixToRfc3339(0)
  {
    if secs < 0 {
      EpochText();
      EpochMoment();
      DecodesText(0, DaysToYmd(0));
    } else {
      SecondsToDays(secs);
      DecodesInTime(secs, secs / 86400, 2932896);
    }
  }
}
