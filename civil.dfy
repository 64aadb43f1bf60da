/** Calendar dates of day numbers, in the proleptic Gregorian calendar the
    date library uses (day 0 is 1 January 1970). */
module Civil {

  datatype CivilDate = CivilDate(year: int, month: int, day: int)

  /** A calendar month. */
  datatype YearMonth = YearMonth(year: int, month: int)

  predicate ValidMonth(ym: YearMonth)
  {
    1 <= ym.month <= 12
  }

  /** Months counted consecutively: January of year 0 is 0. */
  function MonthIndex(ym: YearMonth): int
  {
    ym.year * 12 + ym.month - 1
  }

  /** Distinct valid months have distinct indices. */
  lemma MonthIndexInjective(a: YearMonth, b: YearMonth)
    requires ValidMonth(a) && ValidMonth(b) && MonthIndex(a) == MonthIndex(b)
    ensures a == b
  {
    assert a.year == MonthIndex(a) / 12;
    assert b.year == MonthIndex(b) / 12;
  }

  /** The date of a day number: days are shifted to eras of 400 years that
      start on 1 March, so that the leap day ends each year of the era. */
  function CivilFromDays(days: int): (c: CivilDate)
    ensures 1 <= c.month <= 12
    ensures 1 <= c.day <= 31
  {
    var z := days + 719468;
    var era := z / 146097;
    var doe := z - era * 146097;
    var yoe := (doe - doe / 1460 + doe / 36524 - doe / 146096) / 365;
    var y := yoe + era * 400;
    var doy := doe - (365 * yoe + yoe / 4 - yoe / 100);
    assert 0 <= doy <= 365 by {
      DayOfYearBounds(doe);
    }
    var mp := (5 * doy + 2) / 153;
    var d := doy - (153 * mp + 2) / 5 + 1;
    var m := if mp < 10 then mp + 3 else mp - 9;
    CivilDate(if m <= 2 then y + 1 else y, m, d)
  }

  function YearMonthOf(days: int): (ym: YearMonth)
    ensures ValidMonth(ym)
  {
    var c := CivilFromDays(days);
    YearMonth(c.year, c.month)
  }

  /** Within an era, the year estimate when the day falls in century `c`,
      four-year block `b`, at day `s` of that block. */
  lemma YearEstimate(c: int, b: int, s: int)
    requires 0 <= c <= 3 && 0 <= b <= 24 && 0 <= s <= 1460 && (b == 24 ==> s <= 1459)
    ensures var doe := 36524 * c + 1461 * b + s;
            var t := doe - doe / 1460 + doe / 36524 - doe / 146096;
            var e := if 24 * c + b + s >= 1460 then 1 else 0;
            t == 365 * (100 * c + 4 * b) + (s - e) && 0 <= s - e < 1460
  {
    var doe := 36524 * c + 1461 * b + s;
    var e := if 24 * c + b + s >= 1460 then 1 else 0;
    assert doe == 1460 * (25 * c + b + e) + (24 * c + b + s - 1460 * e);
    assert doe / 1460 == 25 * c + b + e;
    assert doe / 36524 == c;
    assert doe / 146096 == 0;
  }

  /** The first day of year `100c + 4b + j` of an era. */
  lemma YearStart(c: int, b: int, j: int)
    requires 0 <= c <= 3 && 0 <= b <= 24 && 0 <= j <= 3
    ensures var yoe := 100 * c + 4 * b + j;
            365 * yoe + yoe / 4 - yoe / 100 == 36524 * c + 1461 * b + 365 * j
  {
    var yoe := 100 * c + 4 * b + j;
    assert yoe / 4 == 25 * c + b;
    assert yoe / 100 == c;
  }

  lemma DayOfYearBounds(doe: int)
    requires 0 <= doe < 146097
    ensures var yoe := (doe - doe / 1460 + doe / 36524 - doe / 146096) / 365;
            0 <= doe - (365 * yoe + yoe / 4 - yoe / 100) <= 365
  {
    if doe == 146096 {
      assert (doe - doe / 1460 + doe / 36524 - doe / 146096) / 365 == 399;
    } else {
      var c := doe / 36524;
      var r := doe % 36524;
      var b := r / 1461;
      var s := r % 1461;
      assert doe == 36524 * c + 1461 * b + s;
      YearEstimate(c, b, s);
      var e := if 24 * c + b + s >= 1460 then 1 else 0;
      var j := (s - e) / 365;
      var t := doe - doe / 1460 + doe / 36524 - doe / 146096;
      assert t / 365 == 100 * c + 4 * b + j;
      YearStart(c, b, j);
    }
  }

  /** Day 0 is 1 January 1970. */
  lemma Epoch()
    ensures CivilFromDays(0) == CivilDate(1970, 1, 1)
  {
    var z := 719468;
    assert z / 146097 == 4;
    var doe := z - 4 * 146097;
    assert doe == 135080;
    assert (doe - doe / 1460 + doe / 36524 - doe / 146096) / 365 == 369;
    assert doe - (365 * 369 + 369 / 4 - 369 / 100) == 306;
    assert (5 * 306 + 2) / 153 == 10;
  }
}
