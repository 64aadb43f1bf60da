/** The monthly trip calendar: which month is shown, the neighbouring months
    it links to, the per-day counts and statistics, and the per-day trip
    details. */
module CalendarView {
  import opened Base
  import opened Domain
  import opened Seqs
  import opened Grouping
  import opened Civil

  /** The month to show. A parameter that does not parse as an integer
      resets both the year and the month to today's; an absent parameter
      takes today's value for that part only. */
  function SelectMonth(yearParam: Param<int>, monthParam: Param<int>, today: YearMonth): (r: YearMonth)
    ensures yearParam.Malformed? || monthParam.Malformed? ==> r == today
    ensures !yearParam.Malformed? && !monthParam.Malformed? ==>
              r.year == (if yearParam.Given? then yearParam.value else today.year) &&
              r.month == (if monthParam.Given? then monthParam.value else today.month)
  {
    if yearParam.Malformed? || monthParam.Malformed? then today
    else
      YearMonth(if yearParam.Given? then yearParam.value else today.year,
                if monthParam.Given? then monthParam.value else today.month)
  }

  /** A well-formed year does not survive a malformed month. */
  lemma MalformedMonthResetsYear(y: int, today: YearMonth)
    requires y != today.year
    ensures SelectMonth(Given(y), Malformed, today).year != y
  {
  }

  /** The "previous" link: one month back on the month count. */
  function PrevMonth(ym: YearMonth): (r: YearMonth)
    ensures ValidMonth(ym) ==> ValidMonth(r) && MonthIndex(r) == MonthIndex(ym) - 1
    ensures ym.month == 1 ==> r == YearMonth(ym.year - 1, 12)
    ensures ym.month != 1 ==> r == YearMonth(ym.year, ym.month - 1)
  {
    if ym.month == 1 then YearMonth(ym.year - 1, 12) else YearMonth(ym.year, ym.month - 1)
  }

  /** The "next" link: one month forward on the month count. */
  function NextMonth(ym: YearMonth): (r: YearMonth)
    ensures ValidMonth(ym) ==> ValidMonth(r) && MonthIndex(r) == MonthIndex(ym) + 1
    ensures ym.month == 12 ==> r == YearMonth(ym.year + 1, 1)
    ensures ym.month != 12 ==> r == YearMonth(ym.year, ym.month + 1)
  {
    if ym.month == 12 then YearMonth(ym.year + 1, 1) else YearMonth(ym.year, ym.month + 1)
  }

  /** For a real month, the two links undo each other. */
  lemma PrevNextRoundTrip(ym: YearMonth)
    requires ValidMonth(ym)
    ensures PrevMonth(NextMonth(ym)) == ym
    ensures NextMonth(PrevMonth(ym)) == ym
  {
    MonthIndexInjective(PrevMonth(NextMonth(ym)), ym);
    MonthIndexInjective(NextMonth(PrevMonth(ym)), ym);
  }

  /** The date parts of a trip's instant. */
  function TripYearMonth(t: Trip): YearMonth
  {
    YearMonthOf(DateOf(t.tripDate))
  }

  function TripDay(t: Trip): int
  {
    CivilFromDays(DateOf(t.tripDate)).day
  }

  /** The trips in the shown month, in table order. */
  function MonthTrips(trips: seq<Trip>, ym: YearMonth): (r: seq<Trip>)
    ensures forall i :: 0 <= i < |r| ==> r[i] in trips && TripYearMonth(r[i]) == ym
    ensures forall i :: 0 <= i < |trips| ==> (trips[i] in r <==> TripYearMonth(trips[i]) == ym)
  {
    Filter(trips, (t: Trip) => TripYearMonth(t) == ym)
  }

  function TripDays(trips: seq<Trip>): (days: seq<int>)
    ensures |days| == |trips|
    ensures forall i :: 0 <= i < |trips| ==> 1 <= days[i] <= 31
  {
    MapRows(trips, TripDay)
  }

  datatype MonthStats = MonthStats(totalTrips: nat, activeDays: nat, busiestDay: nat)

  /** The statistics over the per-day counts of the month's trips. */
  function Stats(counts: seq<DayCount>): MonthStats
  {
    MonthStats(SumCounts(counts), |counts|, MaxCount(counts))
  }

  /** The total is the number of trips, and the active days are the
      distinct days they fall on. */
  lemma StatsCountTrips(monthTrips: seq<Trip>)
    ensures Stats(CountByDay(TripDays(monthTrips))).totalTrips == |monthTrips|
    ensures Stats(CountByDay(TripDays(monthTrips))).activeDays == |set d | d in TripDays(monthTrips)|
  {
    DistinctKeys(CountByDay(TripDays(monthTrips)));
  }

  /** The busiest-day count bounds every day's count. */
  lemma BusiestDayBoundsEveryDay(monthTrips: seq<Trip>, d: int)
    ensures Occurrences(TripDays(monthTrips), d) <= Stats(CountByDay(TripDays(monthTrips))).busiestDay
  {
    CountOfIsRecorded(CountByDay(TripDays(monthTrips)), d);
  }

  /** The busiest-day count is reached on a day with trips, and it is 0 only
      for a month without trips. */
  lemma BusiestDayIsReached(monthTrips: seq<Trip>)
    ensures monthTrips != [] ==>
              (exists d :: d in TripDays(monthTrips) &&
                 Occurrences(TripDays(monthTrips), d) == Stats(CountByDay(TripDays(monthTrips))).busiestDay)
    ensures Stats(CountByDay(TripDays(monthTrips))).busiestDay == 0 <==> monthTrips == []
  {
    MaxCountIsReached(TripDays(monthTrips));
  }

  /** What the tooltip shows for one trip. */
  datatype TripDetail = TripDetail(customer: string, vehicle: string, vendor: string, status: string, id: nat)

  function DetailOf(t: Trip): TripDetail
  {
    TripDetail(t.customer.name, VehicleText(t.vehicle), t.vehicle.vendor.name, StatusValue(t.status), t.id)
  }

  /** The trips on day `d`, in order. */
  function TripsOn(trips: seq<Trip>, d: int): seq<Trip>
  {
    Filter(trips, (t: Trip) => TripDay(t) == d)
  }

  /** The details listed under day `d`. */
  function DetailsOn(trips: seq<Trip>, d: int): seq<TripDetail>
  {
    MapRows(TripsOn(trips, d), DetailOf)
  }

  lemma DetailsOnAppend(trips: seq<Trip>, t: Trip, d: int)
    ensures DetailsOn(trips + [t], d) == DetailsOn(trips, d) + (if TripDay(t) == d then [DetailOf(t)] else [])
  {
    FilterAppend(trips, t, (x: Trip) => TripDay(x) == d);
  }

  lemma DaySetAppend(trips: seq<Trip>, t: Trip)
    ensures DaySet(trips + [t]) == DaySet(trips) + {TripDay(t)}
  {
    var u := trips + [t];
    forall x | x in DaySet(u) ensures x in DaySet(trips) + {TripDay(t)} {
      var k :| 0 <= k < |u| && TripDay(u[k]) == x;
      if k < |trips| { assert u[k] == trips[k]; }
    }
    forall x | x in DaySet(trips) ensures x in DaySet(u) {
      var k :| 0 <= k < |trips| && TripDay(trips[k]) == x;
      assert u[k] == trips[k];
    }
    assert u[|trips|] == t;
  }

  lemma DetailsOnMissing(trips: seq<Trip>, d: int)
    requires d !in DaySet(trips)
    ensures DetailsOn(trips, d) == []
  {
    forall k | 0 <= k < |trips| ensures TripDay(trips[k]) != d {
      assert TripDay(trips[k]) in DaySet(trips);
    }
  }

  /** The days the trips fall on. */
  function DaySet(trips: seq<Trip>): set<int>
  {
    set i | 0 <= i < |trips| :: TripDay(trips[i])
  }

  /** The `trip_details` loop: every trip is appended, in order, to the
      list of its day. */
  method BuildTripDetails(trips: seq<Trip>) returns (details: map<int, seq<TripDetail>>)
    ensures details.Keys == DaySet(trips)
    ensures forall d :: d in details ==> details[d] == DetailsOn(trips, d)
  {
    details := map[];
    for i := 0 to |trips|
      invariant details.Keys == DaySet(trips[..i])
      invariant forall d :: d in details ==> details[d] == DetailsOn(trips[..i], d)
    {
      var t := trips[i];
      var day := TripDay(t);
      if day !in details {
        details := details[day := []];
        DetailsOnMissing(trips[..i], day);
      }
      details := details[day := details[day] + [DetailOf(t)]];
      assert trips[..i + 1] == trips[..i] + [t];
      DaySetAppend(trips[..i], t);
      forall d | d in details ensures details[d] == DetailsOn(trips[..i + 1], d) {
        DetailsOnAppend(trips[..i], t, d);
      }
    }
    assert trips[..|trips|] == trips;
  }

  /** Every trip of the month is listed exactly once, under its own day. */
  lemma DetailsListEachTripOnce(trips: seq<Trip>, k: int)
    requires 0 <= k < |trips|
    ensures DetailOf(trips[k]) in DetailsOn(trips, TripDay(trips[k]))
    ensures forall d :: d != TripDay(trips[k]) ==> trips[k] !in TripsOn(trips, d)
  {
    var f := TripsOn(trips, TripDay(trips[k]));
    assert trips[k] in f;
    var j :| 0 <= j < |f| && f[j] == trips[k];
    assert DetailsOn(trips, TripDay(trips[k]))[j] == DetailOf(trips[k]);
  }

  datatype CalendarPage = CalendarPage(
    shown: YearMonth,
    prev: YearMonth,
    next: YearMonth,
    counts: seq<DayCount>,
    details: map<int, seq<TripDetail>>,
    stats: MonthStats)

  /** The years a date can have: 1 to 9999. */
  predicate DateYear(year: int)
  {
    1 <= year <= 9999
  }

  /** The error the month grid raises for a month outside 1..12. */
  function IllegalMonthMessage(month: int): string
  {
    "bad month number " + IntToString(month) + "; must be 1-12"
  }

  /** The error the year lookup raises when it builds the year's first day
      for a year no date can have. */
  function YearOutOfRangeMessage(year: int): string
  {
    "year " + IntToString(year) + " is out of range"
  }

  /** `calendar_view`. Reading the month's trips fails first for a year no
      date can have; building the month grid then fails for a month outside
      1..12; either failure fails the whole request. */
  method Calendar(trips: seq<Trip>, yearParam: Param<int>, monthParam: Param<int>, today: YearMonth)
    returns (r: Result<CalendarPage>)
    ensures var ym := SelectMonth(yearParam, monthParam, today);
            r.Err? <==> !DateYear(ym.year) || !ValidMonth(ym)
    ensures var ym := SelectMonth(yearParam, monthParam, today);
            r.Err? ==> r.error == if !DateYear(ym.year) then YearOutOfRangeMessage(ym.year) else IllegalMonthMessage(ym.month)
    ensures r.Ok? ==>
              var ym := SelectMonth(yearParam, monthParam, today);
              var monthTrips := MonthTrips(trips, ym);
              r.value.shown == ym && r.value.prev == PrevMonth(ym) && r.value.next == NextMonth(ym) &&
              r.value.counts == CountByDay(TripDays(monthTrips)) &&
              r.value.details.Keys == DaySet(monthTrips) &&
              (forall d :: d in r.value.details ==> r.value.details[d] == DetailsOn(monthTrips, d)) &&
              r.value.stats == Stats(CountByDay(TripDays(monthTrips)))
  {
    var ym := SelectMonth(yearParam, monthParam, today);
    if !DateYear(ym.year) {
      return Err(YearOutOfRangeMessage(ym.year));
    }
    var monthTrips := MonthTrips(trips, ym);
    var counts := CountByDay(TripDays(monthTrips));
    var details := BuildTripDetails(monthTrips);
    if !(1 <= ym.month <= 12) {
      return Err(IllegalMonthMessage(ym.month));
    }
    r := Ok(CalendarPage(ym, PrevMonth(ym), NextMonth(ym), counts, details, Stats(counts)));
  }
}
