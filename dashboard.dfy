/** The dashboard: widget counts, the agent-revenue totals, the
    trips-created chart for the chosen period, and the top-rated vendors. */
module Dashboard {
  import opened Base
  import opened Domain
  import opened Seqs
  import opened Grouping
  import opened Civil
  import opened TripMoney
  import opened CalendarView

  datatype Period = Week | Month | Year

  /** The `period` parameter: "month" and "year" select those periods, and
      anything else, absent included, selects the week. */
  function PeriodOf(param: Option<string>): (p: Period)
    ensures p == Month <==> param == Some("month")
    ensures p == Year <==> param == Some("year")
  {
    if param == Some("month") then Month else if param == Some("year") then Year else Week
  }

  /** The number of chart points. */
  function PointCount(p: Period): nat
  {
    match p
    case Week => 7
    case Month => 30
    case Year => 12
  }

  /** How far back, in days, the period's trips are taken from. */
  function WindowDays(p: Period): nat
  {
    match p
    case Week => 7
    case Month => 30
    case Year => 365
  }

  /** The trips created within the period. */
  function PeriodTrips(trips: seq<Trip>, p: Period, now: DateTime): (r: seq<Trip>)
    ensures forall i :: 0 <= i < |r| ==> r[i] in trips && r[i].createdAt >= now - WindowDays(p) * SecondsPerDay
    ensures forall i :: 0 <= i < |trips| ==>
              (trips[i] in r <==> trips[i].createdAt >= now - WindowDays(p) * SecondsPerDay)
    ensures (forall i :: 0 <= i < |trips| ==> trips[i].createdAt >= now - WindowDays(p) * SecondsPerDay) ==> r == trips
  {
    var inWindow := (t: Trip) => t.createdAt >= now - WindowDays(p) * SecondsPerDay;
    assert (forall i :: 0 <= i < |trips| ==> trips[i].createdAt >= now - WindowDays(p) * SecondsPerDay) ==>
           Filter(trips, inWindow) == trips by {
      if forall i :: 0 <= i < |trips| ==> trips[i].createdAt >= now - WindowDays(p) * SecondsPerDay {
        FilterAll(trips, inWindow);
      }
    }
    Filter(trips, inWindow)
  }

  /** Stepping an instant back by whole days steps its date back as many days. */
  lemma DateOfDaysBefore(now: DateTime, i: int)
    ensures DateOf(now - i * SecondsPerDay) == DateOf(now) - i
  {
    var d := DateOf(now);
    assert (d - i) * SecondsPerDay <= now - i * SecondsPerDay < (d - i) * SecondsPerDay + SecondsPerDay;
  }

  /** The day of a chart point: `now - i days` for i from n-1 down to 0. */
  function DayPoints(n: nat, now: DateTime): (r: seq<int>)
    ensures |r| == n
    ensures forall k :: 0 <= k < n ==> r[k] == DateOf(now) - (n - 1 - k)
  {
    var r := seq(n, (k: int) requires 0 <= k < n => DateOf(now - (n - 1 - k) * SecondsPerDay));
    forall k | 0 <= k < n ensures r[k] == DateOf(now) - (n - 1 - k) {
      DateOfDaysBefore(now, n - 1 - k);
    }
    r
  }

  /** One month point as written: the month of the instant `30*i` days
      before `now`. */
  function MonthPointAsWritten(now: DateTime, i: int): int
  {
    MonthIndex(YearMonthOf(DateOf(now - (30 * i) * SecondsPerDay)))
  }

  /** The month point `i` is the month of the day `30*i` days before today. */
  lemma MonthPointIsDaysBefore(now: DateTime, i: int)
    ensures MonthPointAsWritten(now, i) == MonthIndex(YearMonthOf(DateOf(now) - 30 * i))
  {
    DateOfDaysBefore(now, 30 * i);
  }

  /** The month points as written, for i from 11 down to 0. */
  function YearPointsAsWritten(now: DateTime): (r: seq<int>)
    ensures |r| == 12
    ensures forall k :: 0 <= k < 12 ==> r[k] == MonthPointAsWritten(now, 11 - k)
  {
    seq(12, (k: int) requires 0 <= k < 12 => MonthPointAsWritten(now, 11 - k))
  }

  /** Thirty-day steps do not follow months: at the end of January 2025 the
      last two points both fall in January, so one month is shown twice and
      another not at all. */
  lemma YearPointsRepeatAMonth()
    ensures var pts := YearPointsAsWritten(20119 * SecondsPerDay);
            pts[10] == pts[11] == MonthIndex(YearMonth(2025, 1))
    ensures YearPointsAsWritten(20119 * SecondsPerDay)[0] == MonthIndex(YearMonth(2024, 3))
  {
    var now := 20119 * SecondsPerDay;
    assert DateOf(now) == 20119;
    MonthPointIsDaysBefore(now, 0);
    MonthPointIsDaysBefore(now, 1);
    MonthPointIsDaysBefore(now, 11);
    LastDayOfJanuary2025();
    FirstDayOfJanuary2025();
    SeventhOfMarch2024();
  }

  /** Day 19789 is 7 March 2024: day 8772 of the era, day 6 of the year
      counted from March. */
  lemma SeventhOfMarch2024()
    ensures CivilFromDays(19789) == CivilDate(2024, 3, 7)
  {
    var z := 19789 + 719468;
    assert z / 146097 == 5;
    var doe := z - 5 * 146097;
    assert doe == 8772;
    assert (doe - doe / 1460 + doe / 36524 - doe / 146096) / 365 == 24;
    assert doe - (365 * 24 + 24 / 4 - 24 / 100) == 6;
    assert (5 * 6 + 2) / 153 == 0;
  }

  /** Day 20119 is 31 January 2025: era 5, day 9102 of the era, year 24 of
      the era, day 336 of that year. */
  lemma LastDayOfJanuary2025()
    ensures CivilFromDays(20119) == CivilDate(2025, 1, 31)
  {
    var z := 20119 + 719468;
    assert z / 146097 == 5;
    var doe := z - 5 * 146097;
    assert doe == 9102;
    assert (doe - doe / 1460 + doe / 36524 - doe / 146096) / 365 == 24;
    assert doe - (365 * 24 + 24 / 4 - 24 / 100) == 336;
    assert (5 * 336 + 2) / 153 == 10;
  }

  /** Day 20089 is 1 January 2025: day 9072 of the era, day 306 of the year. */
  lemma FirstDayOfJanuary2025()
    ensures CivilFromDays(20089) == CivilDate(2025, 1, 1)
  {
    var z := 20089 + 719468;
    assert z / 146097 == 5;
    var doe := z - 5 * 146097;
    assert doe == 9072;
    assert (doe - doe / 1460 + doe / 36524 - doe / 146096) / 365 == 24;
    assert doe - (365 * 24 + 24 / 4 - 24 / 100) == 306;
    assert (5 * 306 + 2) / 153 == 10;
  }

  /** The `n` calendar months ending with `ym`, oldest first. */
  function LastMonths(ym: YearMonth, n: nat): (r: seq<YearMonth>)
    ensures |r| == n
    ensures ValidMonth(ym) ==> forall k :: 0 <= k < n ==>
              ValidMonth(r[k]) && MonthIndex(r[k]) == MonthIndex(ym) - (n - 1 - k)
    decreases n
  {
    if n == 0 then [] else LastMonths(PrevMonth(ym), n - 1) + [ym]
  }

  /** The month points: the twelve calendar months ending with the current one. */
  function YearPoints(now: DateTime): (r: seq<int>)
    ensures |r| == 12
    ensures forall k :: 0 <= k < 12 ==> r[k] == MonthIndex(YearMonthOf(DateOf(now))) - (11 - k)
  {
    MapRows(LastMonths(YearMonthOf(DateOf(now)), 12), MonthIndex)
  }

  /** The key a created trip is grouped under: its date, or for the year its month. */
  function CreatedKey(p: Period, t: Trip): int
  {
    if p == Year then MonthIndex(YearMonthOf(DateOf(t.createdAt))) else DateOf(t.createdAt)
  }

  /** The chart's points as the view computes them: days for the week and
      the month, and for the year the 30-day steps. */
  function PointKeys(p: Period, now: DateTime): (r: seq<int>)
    ensures |r| == PointCount(p)
    ensures p != Year ==> forall k :: 0 <= k < |r| ==> r[k] == DateOf(now) - (PointCount(p) - 1 - k)
    ensures p == Year ==> forall k :: 0 <= k < |r| ==> r[k] == MonthPointAsWritten(now, 11 - k)
  {
    match p
    case Week => DayPoints(7, now)
    case Month => DayPoints(30, now)
    case Year => YearPointsAsWritten(now)
  }

  /** The chart's points with the year made of calendar months. */
  function CorrectedPointKeys(p: Period, now: DateTime): seq<int>
  {
    if p == Year then YearPoints(now) else PointKeys(p, now)
  }

  function CreatedKeys(trips: seq<Trip>, p: Period, now: DateTime): seq<int>
  {
    MapRows(PeriodTrips(trips, p, now), (t: Trip) => CreatedKey(p, t))
  }

  /** The chart: one key per point (the label's date or month) and the
      number of trips created on it. */
  datatype ChartData = ChartData(keys: seq<int>, series: seq<nat>)

  /** The series fill: each point looks its key up in the grouped counts,
      with 0 for a key that has no group. */
  function ChartOver(trips: seq<Trip>, p: Period, now: DateTime, keys: seq<int>): (c: ChartData)
    ensures c.keys == keys && |c.series| == |keys|
    ensures forall k :: 0 <= k < |c.series| ==> c.series[k] == Occurrences(CreatedKeys(trips, p, now), keys[k])
    ensures forall k :: 0 <= k < |c.series| && keys[k] !in CreatedKeys(trips, p, now) ==> c.series[k] == 0
  {
    var counts := CountByDay(CreatedKeys(trips, p, now));
    forall k | 0 <= k < |keys| && keys[k] !in CreatedKeys(trips, p, now)
      ensures CountOf(counts, keys[k]) == 0
    {
      CountOfMissing(counts, keys[k]);
    }
    ChartData(keys, MapRows(keys, (key: int) => CountOf(counts, key)))
  }

  /** The chart the view draws: one point per day of the week or the month,
      or per 30-day step back for the year, each with the number of trips
      created on its date or in its month. */
  function Chart(trips: seq<Trip>, p: Period, now: DateTime): (c: ChartData)
    ensures |c.keys| == |c.series| == PointCount(p)
    ensures c.keys == PointKeys(p, now)
    ensures forall k :: 0 <= k < |c.series| ==> c.series[k] == Occurrences(CreatedKeys(trips, p, now), c.keys[k])
    ensures forall k :: 0 <= k < |c.series| && c.keys[k] !in CreatedKeys(trips, p, now) ==> c.series[k] == 0
  {
    ChartOver(trips, p, now, PointKeys(p, now))
  }

  /** The chart with the year's points made of the twelve calendar months
      ending with the current one; the week and the month are unchanged. */
  function CorrectedChart(trips: seq<Trip>, p: Period, now: DateTime): (c: ChartData)
    ensures |c.keys| == |c.series| == PointCount(p)
    ensures p != Year ==> c == Chart(trips, p, now)
    ensures p == Year ==> forall k :: 0 <= k < 12 ==> c.keys[k] == MonthIndex(YearMonthOf(DateOf(now))) - (11 - k)
    ensures forall k :: 0 <= k < |c.series| ==> c.series[k] == Occurrences(CreatedKeys(trips, p, now), c.keys[k])
  {
    ChartOver(trips, p, now, CorrectedPointKeys(p, now))
  }

  /** The rows the dashboard's revenue sum takes: completed trips with a
      vendor price (a null difference is skipped by the sum). */
  predicate CountsTowardRevenue(t: Trip)
  {
    t.status == Completed && t.vendorPrice.Some?
  }

  function Margin(t: Trip): Money
  {
    if t.vendorPrice.Some? then t.totalPrice - t.vendorPrice.value else 0.0
  }

  /** `Sum(total_price - vendor_price)` over the completed trips, or 0.00
      when there is nothing to sum. */
  function AgentRevenueTotal(trips: seq<Trip>): (r: Money)
    ensures (forall i :: 0 <= i < |trips| ==> trips[i].status != Completed) ==> r == 0.0
  {
    var rows := Filter(trips, CountsTowardRevenue);
    assert (forall i :: 0 <= i < |trips| ==> trips[i].status != Completed) ==> rows == [] by {
      if rows != [] {
        assert rows[0] in trips;
      }
    }
    Sum(rows, Margin)
  }

  /** When every completed trip has a non-zero price and a non-zero vendor
      price, the dashboard total is the sum of the completed trips'
      `agent_revenue`. */
  lemma {:induction false} AgentRevenueTotalAgrees(trips: seq<Trip>)
    requires forall i :: 0 <= i < |trips| && trips[i].status == Completed ==>
               trips[i].totalPrice != 0.0 && trips[i].vendorPrice.Some? && trips[i].vendorPrice.value != 0.0
    ensures AgentRevenueTotal(trips) == Sum(Filter(trips, (t: Trip) => t.status == Completed), AgentRevenue)
  {
    if trips != [] {
      AgentRevenueTotalAgrees(trips[1..]);
    }
  }

  /** A completed trip whose vendor price is zero adds its whole price to the
      dashboard total, while its own `agent_revenue` is zero. */
  lemma ZeroVendorPriceCountsFully(t: Trip)
    requires t.status == Completed && t.vendorPrice == Some(0.0) && t.totalPrice != 0.0
    ensures AgentRevenueTotal([t]) == t.totalPrice
    ensures AgentRevenue(t) == 0.0
  {
    assert Filter([t], CountsTowardRevenue) == [t];
    assert Sum([t], Margin) == Margin(t) + Sum([t][1..], Margin);
  }

  /** The period's revenue: the dashboard total over the trips created in
      the period. When every trip falls in the period, it is the total. */
  function PeriodRevenue(trips: seq<Trip>, p: Period, now: DateTime): (r: Money)
    ensures (forall i :: 0 <= i < |trips| ==> trips[i].createdAt >= now - WindowDays(p) * SecondsPerDay) ==>
              r == AgentRevenueTotal(trips)
  {
    AgentRevenueTotal(PeriodTrips(trips, p, now))
  }

  /** A trip adds its margin to the period's revenue exactly when it was
      created in the period and counts toward revenue; otherwise it leaves
      the period's revenue unchanged. */
  lemma PeriodRevenueAppend(trips: seq<Trip>, t: Trip, p: Period, now: DateTime)
    ensures t.createdAt >= now - WindowDays(p) * SecondsPerDay && CountsTowardRevenue(t) ==>
              PeriodRevenue(trips + [t], p, now) == PeriodRevenue(trips, p, now) + Margin(t)
    ensures !(t.createdAt >= now - WindowDays(p) * SecondsPerDay && CountsTowardRevenue(t)) ==>
              PeriodRevenue(trips + [t], p, now) == PeriodRevenue(trips, p, now)
  {
    var inWindow := (x: Trip) => x.createdAt >= now - WindowDays(p) * SecondsPerDay;
    assert PeriodTrips(trips + [t], p, now) == Filter(trips + [t], inWindow);
    FilterAppend(trips, t, inWindow);
    var w := PeriodTrips(trips, p, now);
    if inWindow(t) {
      assert PeriodTrips(trips + [t], p, now) == w + [t];
      FilterAppend(w, t, CountsTowardRevenue);
      if CountsTowardRevenue(t) {
        SumAppend(Filter(w, CountsTowardRevenue), t, Margin);
      } else {
        assert Filter(w + [t], CountsTowardRevenue) == Filter(w, CountsTowardRevenue);
      }
    } else {
      assert PeriodTrips(trips + [t], p, now) == w;
    }
  }

  /** Whether a trip counts for the upcoming-trips widget. */
  predicate StillUpcoming(t: Trip, now: DateTime)
  {
    t.tripDate >= now && t.status == Upcoming
  }

  /** The upcoming-trips widget: trips still to come that are marked upcoming. */
  function UpcomingCount(trips: seq<Trip>, now: DateTime): (n: nat)
    ensures n <= |trips|
    ensures n == |trips| <==> forall i :: 0 <= i < |trips| ==> StillUpcoming(trips[i], now)
  {
    var r := Filter(trips, (t: Trip) => StillUpcoming(t, now));
    assert (forall i :: 0 <= i < |trips| ==> StillUpcoming(trips[i], now)) ==> r == trips by {
      if forall i :: 0 <= i < |trips| ==> StillUpcoming(trips[i], now) {
        FilterAll(trips, (t: Trip) => StillUpcoming(t, now));
      }
    }
    assert |r| == |trips| ==> forall i :: 0 <= i < |trips| ==> StillUpcoming(trips[i], now) by {
      if |r| == |trips| {
        FilterFullKeepsAll(trips, (t: Trip) => StillUpcoming(t, now));
      }
    }
    |r|
  }

  /** The widget counts each trip once: no trips count nothing, and one more
      trip adds one exactly when it is upcoming and still to come. */
  lemma UpcomingCountAppend(trips: seq<Trip>, t: Trip, now: DateTime)
    ensures UpcomingCount([], now) == 0
    ensures UpcomingCount(trips + [t], now) == UpcomingCount(trips, now) + (if StillUpcoming(t, now) then 1 else 0)
  {
    var p := (x: Trip) => StillUpcoming(x, now);
    assert UpcomingCount(trips + [t], now) == |Filter(trips + [t], p)|;
    assert UpcomingCount(trips, now) == |Filter(trips, p)|;
    FilterAppend(trips, t, p);
  }

  /** A filter that drops nothing accepts every row. */
  lemma {:induction false} FilterFullKeepsAll(s: seq<Trip>, p: Trip -> bool)
    requires |Filter(s, p)| == |s|
    ensures forall i :: 0 <= i < |s| ==> p(s[i])
  {
    if s != [] {
      FilterFullKeepsAll(s[1..], p);
      forall i | 0 <= i < |s| ensures p(s[i]) {
        if i > 0 {
          assert s[i] == s[1..][i - 1];
        }
      }
    }
  }

  /** A vendor's place in the top list: the average of its ratings' stars
      and how many ratings it has. */
  datatype VendorScore = VendorScore(vendor: Vendor, average: real, numRatings: nat)

  function RatingsOf(ratings: seq<Rating>, v: Vendor): seq<Rating>
  {
    Filter(ratings, (r: Rating) => r.vendor.id == v.id)
  }

  function Stars(r: Rating): real
  {
    r.stars as real
  }

  /** A rated vendor's score: the mean of its ratings' stars and their number. */
  function ScoreOf(ratings: seq<Rating>, v: Vendor): VendorScore
  {
    var rs := RatingsOf(ratings, v);
    VendorScore(v, if rs == [] then 0.0 else Sum(rs, Stars) / (|rs| as real), |rs|)
  }

  /** The scores of the vendors that have at least one rating, in table
      order; a vendor without ratings has no average and is dropped. */
  function Scores(vendors: seq<Vendor>, ratings: seq<Rating>): (r: seq<VendorScore>)
    ensures |r| <= |vendors|
    ensures forall i :: 0 <= i < |r| ==>
              r[i].vendor in vendors && RatingsOf(ratings, r[i].vendor) != [] && r[i] == ScoreOf(ratings, r[i].vendor)
    ensures forall v :: v in vendors && RatingsOf(ratings, v) != [] ==> ScoreOf(ratings, v) in r
  {
    if vendors == [] then []
    else
      var rest := Scores(vendors[1..], ratings);
      assert forall v :: v in vendors ==> v == vendors[0] || v in vendors[1..];
      if RatingsOf(ratings, vendors[0]) == [] then rest
      else [ScoreOf(ratings, vendors[0])] + rest
  }

  /** Each score counts its vendor's ratings and averages their stars. */
  lemma ScoreIsMeanOfStars(vendors: seq<Vendor>, ratings: seq<Rating>, i: int)
    requires 0 <= i < |Scores(vendors, ratings)|
    ensures Scores(vendors, ratings)[i].numRatings == |RatingsOf(ratings, Scores(vendors, ratings)[i].vendor)| >= 1
    ensures Scores(vendors, ratings)[i].average ==
            Sum(RatingsOf(ratings, Scores(vendors, ratings)[i].vendor), Stars) / (Scores(vendors, ratings)[i].numRatings as real)
  {
  }

  /** Star sums over ratings that pass the validators lie between one and
      five stars per rating. */
  lemma {:induction false} StarSumBounds(rs: seq<Rating>)
    requires forall i :: 0 <= i < |rs| ==> StarsInRange(rs[i].stars)
    ensures |rs| as real <= Sum(rs, Stars) <= 5.0 * (|rs| as real)
  {
    if rs != [] {
      StarSumBounds(rs[1..]);
    }
  }

  /** A quotient of a sum between `n` and `5n` by `n` lies between 1 and 5. */
  lemma MeanBounds(total: real, n: real)
    requires n > 0.0 && n <= total <= 5.0 * n
    ensures 1.0 <= total / n <= 5.0
  {
    var q := total / n;
    assert q * n == total;
    assert 1.0 <= q <= 5.0;
  }

  /** With valid ratings, every average lies between one and five stars. */
  lemma AverageInRange(vendors: seq<Vendor>, ratings: seq<Rating>, i: int)
    requires forall k :: 0 <= k < |ratings| ==> StarsInRange(ratings[k].stars)
    requires 0 <= i < |Scores(vendors, ratings)|
    ensures 1.0 <= Scores(vendors, ratings)[i].average <= 5.0
  {
    var x := Scores(vendors, ratings)[i];
    var rs := RatingsOf(ratings, x.vendor);
    forall k | 0 <= k < |rs| ensures StarsInRange(rs[k].stars) {
      assert rs[k] in ratings;
    }
    StarSumBounds(rs);
    ScoreIsMeanOfStars(vendors, ratings, i);
    MeanBounds(Sum(rs, Stars), |rs| as real);
  }

  /** Ordering by average, then by number of ratings, both descending. */
  predicate RanksAtLeast(a: VendorScore, b: VendorScore)
  {
    a.average > b.average || (a.average == b.average && a.numRatings >= b.numRatings)
  }

  predicate Ranked(s: seq<VendorScore>)
  {
    forall i, j :: 0 <= i < j < |s| ==> RanksAtLeast(s[i], s[j])
  }

  function InsertScore(x: VendorScore, s: seq<VendorScore>): (r: seq<VendorScore>)
    requires Ranked(s)
    ensures |r| == |s| + 1
    ensures multiset(r) == multiset(s) + multiset{x}
    ensures Ranked(r)
  {
    if s == [] || RanksAtLeast(x, s[0]) then [x] + s
    else
      var rest := InsertScore(x, s[1..]);
      assert s == [s[0]] + s[1..];
      forall j | 0 <= j < |rest| ensures RanksAtLeast(s[0], rest[j]) {
        assert rest[j] in multiset(rest);
        if rest[j] != x {
          assert rest[j] in multiset(s[1..]);
          var k :| 0 <= k < |s[1..]| && s[1..][k] == rest[j];
          assert s[k + 1] == rest[j];
        }
      }
      [s[0]] + rest
  }

  function RankScores(s: seq<VendorScore>): (r: seq<VendorScore>)
    ensures |r| == |s|
    ensures Ranked(r)
    ensures multiset(r) == multiset(s)
  {
    if s == [] then []
    else
      assert s == [s[0]] + s[1..];
      InsertScore(s[0], RankScores(s[1..]))
  }

  /** The first `n` of the ranked scores: scores from the input, and every
      score left out ranks no higher than each one kept. */
  lemma RankedPrefixIsTop(scores: seq<VendorScore>, n: nat)
    requires n <= |scores|
    ensures forall i :: 0 <= i < n ==> RankScores(scores)[i] in scores
    ensures forall x :: x in scores ==>
              x in RankScores(scores)[..n] || forall i :: 0 <= i < n ==> RanksAtLeast(RankScores(scores)[i], x)
    ensures multiset(RankScores(scores)[..n]) <= multiset(scores)
  {
    var ranked := RankScores(scores);
    PrefixSubMultiset(ranked, n);
    forall i | 0 <= i < n ensures ranked[i] in scores {
      assert ranked[i] in multiset(scores);
    }
    forall x | x in scores ensures x in ranked[..n] || forall i :: 0 <= i < n ==> RanksAtLeast(ranked[i], x) {
      assert x in multiset(ranked);
      var j :| 0 <= j < |ranked| && ranked[j] == x;
      if j < n {
        assert ranked[..n][j] == x;
      }
    }
  }

  /** The top-vendor list: at most five rated vendors, best first; every
      rated vendor left out ranks no higher than each one listed. */
  function TopVendors(vendors: seq<Vendor>, ratings: seq<Rating>): (r: seq<VendorScore>)
    ensures |r| == if |Scores(vendors, ratings)| < 5 then |Scores(vendors, ratings)| else 5
    ensures Ranked(r)
    ensures forall i :: 0 <= i < |r| ==> r[i] in Scores(vendors, ratings)
    ensures forall x :: x in Scores(vendors, ratings) ==>
              x in r || forall i :: 0 <= i < |r| ==> RanksAtLeast(r[i], x)
    ensures forall v :: v in vendors && RatingsOf(ratings, v) != [] ==>
              ScoreOf(ratings, v) in r || forall i :: 0 <= i < |r| ==> RanksAtLeast(r[i], ScoreOf(ratings, v))
    ensures multiset(r) <= multiset(Scores(vendors, ratings))
  {
    var scores := Scores(vendors, ratings);
    var n := if |scores| < 5 then |scores| else 5;
    RankedPrefixIsTop(scores, n);
    RankScores(scores)[..n]
  }

  /** The latest-trips table: the five most recently created trips. */
  function CreatedAt(t: Trip): int
  {
    t.createdAt
  }

  function LatestTrips(trips: seq<Trip>): (r: seq<Trip>)
    ensures |r| == if |trips| < 5 then |trips| else 5
    ensures Descending(r, CreatedAt)
    ensures forall i :: 0 <= i < |r| ==> r[i] in trips
    ensures forall t :: t in trips ==> t in r || forall i :: 0 <= i < |r| ==> r[i].createdAt >= t.createdAt
    ensures multiset(r) <= multiset(trips)
  {
    var n := if |trips| < 5 then |trips| else 5;
    SortedPrefixIsTop(trips, CreatedAt, n);
    SortedPrefixFromTable(trips, CreatedAt, n);
    SortDescending(trips, CreatedAt)[..n]
  }

  datatype DashboardPage = DashboardPage(
    totalVendors: nat,
    totalCustomers: nat,
    upcomingTrips: nat,
    totalRevenue: Money,
    latestTrips: seq<Trip>,
    period: Period,
    chart: ChartData,
    periodRevenue: Money,
    topVendors: seq<VendorScore>)

  /** `dashboard_view`. */
  function DashboardView(vendors: seq<Vendor>, customers: seq<Customer>, trips: seq<Trip>, ratings: seq<Rating>,
                         periodParam: Option<string>, now: DateTime): (page: DashboardPage)
    ensures page.period == PeriodOf(periodParam)
    ensures |page.chart.keys| == |page.chart.series| == PointCount(page.period)
    ensures page.totalVendors == |vendors| && page.totalCustomers == |customers|
    ensures page.upcomingTrips <= |trips|
    ensures |page.topVendors| <= 5 && |page.latestTrips| <= 5
    ensures page.chart == Chart(trips, page.period, now)
  {
    var p := PeriodOf(periodParam);
    DashboardPage(
      |vendors|, |customers|, UpcomingCount(trips, now),
      AgentRevenueTotal(trips), LatestTrips(trips), p, Chart(trips, p, now),
      PeriodRevenue(trips, p, now), TopVendors(vendors, ratings))
  }
}
