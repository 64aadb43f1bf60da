/** Counting rows per date: the `annotate(date=TruncDate(...)).values('date')
    .annotate(count=Count('id')).order_by('date')` queries, modelled as a list
    of (date, count) pairs in ascending date order. */
module Grouping {

  datatype DayCount = DayCount(day: int, count: nat)

  /** How often `d` occurs. */
  function Occurrences(days: seq<int>, d: int): nat
  {
    if days == [] then 0 else (if days[0] == d then 1 else 0) + Occurrences(days[1..], d)
  }

  ghost predicate StrictlyAscending(g: seq<DayCount>)
  {
    forall i, j :: 0 <= i < j < |g| ==> g[i].day < g[j].day
  }

  /** Grouping never yields an empty group. */
  ghost predicate Positive(g: seq<DayCount>)
  {
    forall i :: 0 <= i < |g| ==> g[i].count >= 1
  }

  function Keys(g: seq<DayCount>): set<int>
  {
    set i | 0 <= i < |g| :: g[i].day
  }

  /** The count recorded for `d`, 0 when `d` has no group (`dict.get(d, 0)`). */
  function CountOf(g: seq<DayCount>, d: int): nat
  {
    if g == [] then 0 else if g[0].day == d then g[0].count else CountOf(g[1..], d)
  }

  function SumCounts(g: seq<DayCount>): nat
  {
    if g == [] then 0 else g[0].count + SumCounts(g[1..])
  }

  /** `max(counts)` for a non-empty grouping, and 0 for an empty one. */
  function MaxCount(g: seq<DayCount>): (m: nat)
    ensures forall i :: 0 <= i < |g| ==> g[i].count <= m
    ensures g == [] ==> m == 0
    ensures g != [] ==> exists i :: 0 <= i < |g| && g[i].count == m
  {
    if g == [] then 0
    else
      var rest := MaxCount(g[1..]);
      assert g[1..] != [] ==> exists i :: 1 <= i < |g| && g[i].count == rest by {
        if g[1..] != [] {
          var k :| 0 <= k < |g[1..]| && g[1..][k].count == rest;
          assert g[k + 1].count == rest;
        }
      }
      if g[0].count >= rest then g[0].count else rest
  }

  lemma CountOfMissing(g: seq<DayCount>, d: int)
    requires d !in Keys(g)
    ensures CountOf(g, d) == 0
  {
    if g != [] {
      assert g[0].day in Keys(g);
      assert Keys(g[1..]) <= Keys(g) by {
        forall x | x in Keys(g[1..]) ensures x in Keys(g) {
          var i :| 0 <= i < |g[1..]| && g[1..][i].day == x;
          assert g[i + 1].day == x;
        }
      }
      CountOfMissing(g[1..], d);
    }
  }

  lemma KeysCons(g: seq<DayCount>)
    requires g != []
    ensures Keys(g) == {g[0].day} + Keys(g[1..])
  {
    forall x | x in Keys(g) ensures x in {g[0].day} + Keys(g[1..]) {
      var i :| 0 <= i < |g| && g[i].day == x;
      if i > 0 { assert g[1..][i - 1].day == x; }
    }
    forall x | x in Keys(g[1..]) ensures x in Keys(g) {
      var i :| 0 <= i < |g[1..]| && g[1..][i].day == x;
      assert g[i + 1].day == x;
    }
  }

  /** One more row on date `d`. */
  function AddDay(d: int, g: seq<DayCount>): seq<DayCount>
  {
    if g == [] then [DayCount(d, 1)]
    else if d < g[0].day then [DayCount(d, 1)] + g
    else if d == g[0].day then [DayCount(d, g[0].count + 1)] + g[1..]
    else [g[0]] + AddDay(d, g[1..])
  }

  lemma {:induction false} AddDayKeys(d: int, g: seq<DayCount>)
    ensures Keys(AddDay(d, g)) == Keys(g) + {d}
  {
    var r := AddDay(d, g);
    if g == [] {
      assert r[0].day == d;
    } else {
      KeysCons(g);
      KeysCons(r);
      if d < g[0].day {
        assert r[1..] == g;
      } else if d == g[0].day {
        assert r[1..] == g[1..];
      } else {
        assert r[1..] == AddDay(d, g[1..]);
        AddDayKeys(d, g[1..]);
      }
    }
  }

  lemma {:induction false} AddDayShape(d: int, g: seq<DayCount>)
    requires StrictlyAscending(g) && Positive(g)
    ensures StrictlyAscending(AddDay(d, g)) && Positive(AddDay(d, g))
  {
    var r := AddDay(d, g);
    if g != [] && d > g[0].day {
      var tail := AddDay(d, g[1..]);
      AddDayShape(d, g[1..]);
      AddDayKeys(d, g[1..]);
      assert r[1..] == tail;
      forall j | 0 <= j < |tail| ensures g[0].day < tail[j].day {
        assert tail[j].day in Keys(tail);
        if tail[j].day != d {
          var i :| 0 <= i < |g[1..]| && g[1..][i].day == tail[j].day;
          assert g[i + 1].day == tail[j].day;
        }
      }
    }
  }

  lemma {:induction false} AddDayCount(d: int, g: seq<DayCount>, e: int)
    requires StrictlyAscending(g)
    ensures CountOf(AddDay(d, g), e) == CountOf(g, e) + (if e == d then 1 else 0)
  {
    if g != [] {
      if d < g[0].day {
        if e == d {
          forall i | 0 <= i < |g| ensures g[i].day != d {
            assert g[0].day <= g[i].day;
          }
          CountOfMissing(g, d);
        }
      } else if d > g[0].day {
        AddDayCount(d, g[1..], e);
      }
    }
  }

  lemma {:induction false} AddDaySum(d: int, g: seq<DayCount>)
    ensures SumCounts(AddDay(d, g)) == SumCounts(g) + 1
  {
    if g != [] && d > g[0].day {
      AddDaySum(d, g[1..]);
    }
  }

  /** The per-date counts of a list of dates, in ascending date order. */
  function CountByDay(days: seq<int>): (g: seq<DayCount>)
    ensures StrictlyAscending(g) && Positive(g)
    ensures Keys(g) == set d | d in days
    ensures forall e :: CountOf(g, e) == Occurrences(days, e)
    ensures SumCounts(g) == |days|
  {
    if days == [] then []
    else
      var rest := CountByDay(days[1..]);
      var g := AddDay(days[0], rest);
      AddDayKeys(days[0], rest);
      AddDayShape(days[0], rest);
      AddDaySum(days[0], rest);
      assert forall e :: CountOf(g, e) == Occurrences(days, e) by {
        forall e ensures CountOf(g, e) == Occurrences(days, e) {
          AddDayCount(days[0], rest, e);
        }
      }
      assert (set d | d in days) == {days[0]} + (set d | d in days[1..]) by {
        forall x | x in days ensures x == days[0] || x in days[1..] {
          var i :| 0 <= i < |days| && days[i] == x;
          if i > 0 { assert days[1..][i - 1] == x; }
        }
      }
      g
  }

  /** Ascending groups have distinct keys: one group per key. */
  lemma {:induction false} DistinctKeys(g: seq<DayCount>)
    requires StrictlyAscending(g)
    ensures |Keys(g)| == |g|
  {
    if g != [] {
      KeysCons(g);
      DistinctKeys(g[1..]);
      forall x | x in Keys(g[1..]) ensures x != g[0].day {
        var i :| 0 <= i < |g[1..]| && g[1..][i].day == x;
        assert g[i + 1].day == x;
      }
    }
  }

  /** The count looked up for a key is one of the recorded counts, or 0. */
  lemma {:induction false} CountOfIsRecorded(g: seq<DayCount>, d: int)
    ensures CountOf(g, d) == 0 || exists i :: 0 <= i < |g| && g[i].day == d && g[i].count == CountOf(g, d)
  {
    if g != [] && g[0].day != d {
      CountOfIsRecorded(g[1..], d);
      if CountOf(g, d) != 0 {
        var i :| 0 <= i < |g[1..]| && g[1..][i].day == d && g[1..][i].count == CountOf(g, d);
        assert g[i + 1].day == d && g[i + 1].count == CountOf(g, d);
      }
    }
  }

  /** In ascending groups, looking up a group's key finds that group. */
  lemma {:induction false} CountOfAt(g: seq<DayCount>, i: int)
    requires StrictlyAscending(g) && 0 <= i < |g|
    ensures CountOf(g, g[i].day) == g[i].count
  {
    if i > 0 {
      assert g[0].day < g[i].day;
      assert g[1..][i - 1] == g[i];
      CountOfAt(g[1..], i - 1);
    }
  }

  /** The largest count belongs to a date that occurs, and it is 0 only when
      there are no dates. */
  lemma MaxCountIsReached(days: seq<int>)
    ensures days != [] ==> exists d :: d in days && Occurrences(days, d) == MaxCount(CountByDay(days))
    ensures MaxCount(CountByDay(days)) == 0 <==> days == []
  {
    var g := CountByDay(days);
    if days != [] {
      assert days[0] in Keys(g);
      var i :| 0 <= i < |g| && g[i].count == MaxCount(g);
      assert g[i].day in Keys(g);
      CountOfAt(g, i);
    }
  }
}
