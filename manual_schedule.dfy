/**
  With both manual times configured (and no offsets), every date has its
  events in the same daily order, so the twelve collected events always sort
  into sunrise, noon, sunset, midnight, repeated over the three days. The
  window around any `now` then holds all four kinds, and the engine's update
  never raises.
 */
module ManualSchedule {
  import opened Wrappers
  import opened SunEvents
  import opened EventWindow
  import opened Color
  import opened Engine

  /** Each entry is strictly later than the one before it. */
  predicate StrictlyIncreasing(s: seq<SunEvent>)
  {
    forall i :: 0 <= i < |s| - 1 ==> s[i].ts < s[i + 1].ts
  }

  /** Each entry's kind is the daily successor of the one before it. */
  predicate FollowsCycle(s: seq<SunEvent>)
  {
    forall i :: 0 <= i < |s| - 1 ==> s[i + 1].kind == NextKind(s[i].kind)
  }

  /** One date's events in the order the day runs through them. */
  function CycleOrder(e: DayEvents): seq<SunEvent>
  {
    [SunEvent(Sunrise, e.sunrise), SunEvent(SolarNoon, e.noon),
     SunEvent(Sunset, e.sunset), SunEvent(SolarMidnight, e.midnight)]
  }

  /** The events of the date `d` days from `now`, as the collection loop asks for them. */
  function DayOf(cfg: Config, almanac: Almanac, now: real, d: int): DayEvents
  {
    GetSunEvents(cfg, almanac, now + d as real * DAY)
  }

  /** The twelve events of yesterday, today and tomorrow in the order of the day. */
  function ChronologicalEvents(cfg: Config, almanac: Almanac, now: real): seq<SunEvent>
  {
    CycleOrder(DayOf(cfg, almanac, now, -1)) + CycleOrder(DayOf(cfg, almanac, now, 0))
    + CycleOrder(DayOf(cfg, almanac, now, 1))
  }

  /** Manual times within one day, sunrise first, and no offsets. */
  predicate PlainManual(cfg: Config)
  {
    && ManualMode(cfg)
    && 0.0 <= cfg.manualSunrise.value < cfg.manualSunset.value < DAY
    && cfg.sunriseOffset.None? && cfg.sunsetOffset.None?
  }

  lemma {:induction false} StrictPairwise(s: seq<SunEvent>)
    requires StrictlyIncreasing(s)
    ensures forall i, j :: 0 <= i < j < |s| ==> s[i].ts < s[j].ts
    decreases |s|
  {
    if |s| > 1 {
      var t := s[1..];
      assert StrictlyIncreasing(t) by {
        forall i | 0 <= i < |t| - 1
          ensures t[i].ts < t[i + 1].ts
        {
          assert t[i] == s[i + 1] && t[i + 1] == s[i + 2];
        }
      }
      StrictPairwise(t);
      forall i, j | 0 <= i < j < |s|
        ensures s[i].ts < s[j].ts
      {
        if i == 0 {
          if j > 1 {
            assert s[1] == t[0] && s[j] == t[j - 1];
          }
        } else {
          assert s[i] == t[i - 1] && s[j] == t[j - 1];
        }
      }
    }
  }

  /** A list sorted by timestamp that is a permutation of a strictly increasing list is that list. */
  lemma {:induction false} SortedIsUnique(a: seq<SunEvent>, b: seq<SunEvent>)
    requires SortedByTs(a)
    requires forall i, j :: 0 <= i < j < |b| ==> b[i].ts < b[j].ts
    requires multiset(a) == multiset(b)
    ensures a == b
    decreases |a|
  {
    assert |a| == |multiset(a)| == |multiset(b)| == |b|;
    if |a| > 0 {
      var j := HeadPosition(a, b);
      var a', b' := a[1..], b[1..];
      SameTails(a, b);
      forall i, k | 0 <= i < k < |a'|
        ensures a'[i].ts <= a'[k].ts
      {
        assert a'[i] == a[i + 1] && a'[k] == a[k + 1];
      }
      forall i, k | 0 <= i < k < |b'|
        ensures b'[i].ts < b'[k].ts
      {
        assert b'[i] == b[i + 1] && b'[k] == b[k + 1];
      }
      SortedIsUnique(a', b');
    }
  }

  lemma SameTails(a: seq<SunEvent>, b: seq<SunEvent>)
    requires |a| > 0 && |b| > 0 && a[0] == b[0]
    requires multiset(a) == multiset(b)
    ensures multiset(a[1..]) == multiset(b[1..])
  {
    assert a == [a[0]] + a[1..] && b == [b[0]] + b[1..];
    assert multiset(a) == multiset{a[0]} + multiset(a[1..]);
    assert multiset(b) == multiset{a[0]} + multiset(b[1..]);
    forall x
      ensures multiset(a[1..])[x] == multiset(b[1..])[x]
    {
      assert multiset(a)[x] == multiset(b)[x];
    }
  }

  /** The least element of the sorted list heads the strictly increasing one. */
  lemma HeadPosition(a: seq<SunEvent>, b: seq<SunEvent>) returns (j: nat)
    requires SortedByTs(a) && |a| > 0
    requires forall i, j :: 0 <= i < j < |b| ==> b[i].ts < b[j].ts
    requires multiset(a) == multiset(b)
    ensures j == 0 && j < |b| && b[j] == a[0]
  {
    assert a[0] in multiset(b);
    j :| 0 <= j < |b| && b[j] == a[0];
    assert b[0] in multiset(a);
    var i :| 0 <= i < |a| && a[i] == b[0];
    assert a[0].ts <= a[i].ts;
  }

  lemma FollowsCycleConcat(a: seq<SunEvent>, b: seq<SunEvent>)
    requires FollowsCycle(a) && FollowsCycle(b) && a != [] && b != []
    requires b[0].kind == NextKind(a[|a| - 1].kind)
    ensures FollowsCycle(a + b)
  {
    forall i | 0 <= i < |a + b| - 1
      ensures (a + b)[i + 1].kind == NextKind((a + b)[i].kind)
    {
      if |a| <= i {
        assert (a + b)[i] == b[i - |a|] && (a + b)[i + 1] == b[i + 1 - |a|];
      }
    }
  }

  lemma StrictlyIncreasingConcat(a: seq<SunEvent>, b: seq<SunEvent>)
    requires StrictlyIncreasing(a) && StrictlyIncreasing(b) && a != [] && b != []
    requires a[|a| - 1].ts < b[0].ts
    ensures StrictlyIncreasing(a + b)
  {
    forall i | 0 <= i < |a + b| - 1
      ensures (a + b)[i].ts < (a + b)[i + 1].ts
    {
      if |a| <= i {
        assert (a + b)[i] == b[i - |a|] && (a + b)[i + 1] == b[i + 1 - |a|];
      }
    }
  }

  lemma CycleOrderShape(e: DayEvents)
    requires e.sunrise < e.noon < e.sunset < e.midnight
    ensures StrictlyIncreasing(CycleOrder(e)) && FollowsCycle(CycleOrder(e))
  {
  }

  /** The daily order only swaps noon and sunset in the almanac's list. */
  lemma CycleOrderPermutation(e: DayEvents)
    ensures multiset(CycleOrder(e)) == multiset(DayEventList(e))
  {
    var sr, noon := SunEvent(Sunrise, e.sunrise), SunEvent(SolarNoon, e.noon);
    var ss, mid := SunEvent(Sunset, e.sunset), SunEvent(SolarMidnight, e.midnight);
    assert CycleOrder(e) == [sr] + [noon, ss] + [mid];
    assert DayEventList(e) == [sr] + [ss, noon] + [mid];
    assert multiset([noon, ss]) == multiset([ss, noon]);
  }

  /** Under plain manual times a date's events follow each other, and the next date continues after midnight. */
  lemma ManualDay(cfg: Config, almanac: Almanac, now: real, d: int)
    requires PlainManual(cfg)
    ensures var e := DayOf(cfg, almanac, now, d);
            var next := DayOf(cfg, almanac, now, d + 1);
            && e.sunrise == DayStart(now + d as real * DAY) + cfg.manualSunrise.value
            && e.sunset == DayStart(now + d as real * DAY) + cfg.manualSunset.value
            && e.sunrise < e.noon < e.sunset < e.midnight < next.sunrise
  {
    var date := now + d as real * DAY;
    assert date + DAY == now + (d + 1) as real * DAY;
    ManualEventsInterleave(cfg, almanac, date);
  }

  lemma AllEventsByDay(cfg: Config, almanac: Almanac, now: real)
    ensures AllEvents(cfg, almanac, now)
            == DayEventList(DayOf(cfg, almanac, now, -1)) + DayEventList(DayOf(cfg, almanac, now, 0))
               + DayEventList(DayOf(cfg, almanac, now, 1))
  {
    assert CollectedEvents(cfg, almanac, now, 1) == DayEventList(DayOf(cfg, almanac, now, -1));
    assert CollectedEvents(cfg, almanac, now, 2)
           == CollectedEvents(cfg, almanac, now, 1) + DayEventList(DayOf(cfg, almanac, now, 0));
  }

  /** One date's events in daily order, ending before the next date's sunrise. */
  lemma DayInOrder(cfg: Config, almanac: Almanac, now: real, d: int)
    requires PlainManual(cfg)
    ensures StrictlyIncreasing(CycleOrder(DayOf(cfg, almanac, now, d)))
    ensures FollowsCycle(CycleOrder(DayOf(cfg, almanac, now, d)))
    ensures DayOf(cfg, almanac, now, d).midnight < DayOf(cfg, almanac, now, d + 1).sunrise
  {
    ManualDay(cfg, almanac, now, d);
    CycleOrderShape(DayOf(cfg, almanac, now, d));
  }

  lemma ChronologicalOrder(cfg: Config, almanac: Almanac, now: real)
    requires PlainManual(cfg)
    ensures StrictlyIncreasing(ChronologicalEvents(cfg, almanac, now))
    ensures FollowsCycle(ChronologicalEvents(cfg, almanac, now))
  {
    DayInOrder(cfg, almanac, now, -1);
    DayInOrder(cfg, almanac, now, 0);
    DayInOrder(cfg, almanac, now, 1);
    var cy, ct, cm := CycleOrder(DayOf(cfg, almanac, now, -1)), CycleOrder(DayOf(cfg, almanac, now, 0)),
                      CycleOrder(DayOf(cfg, almanac, now, 1));
    StrictlyIncreasingConcat(cy, ct);
    FollowsCycleConcat(cy, ct);
    assert (cy + ct)[|cy + ct| - 1] == ct[3];
    StrictlyIncreasingConcat(cy + ct, cm);
    FollowsCycleConcat(cy + ct, cm);
  }

  lemma ChronologicalPermutation(cfg: Config, almanac: Almanac, now: real)
    requires PlainManual(cfg)
    ensures multiset(ChronologicalEvents(cfg, almanac, now)) == multiset(AllEvents(cfg, almanac, now))
  {
    var y, t, m := DayOf(cfg, almanac, now, -1), DayOf(cfg, almanac, now, 0), DayOf(cfg, almanac, now, 1);
    AllEventsByDay(cfg, almanac, now);
    CycleOrderPermutation(y);
    CycleOrderPermutation(t);
    CycleOrderPermutation(m);
  }

  /** Yesterday's sunset is no later than `now`, tomorrow's sunrise is later. */
  lemma ChronologicalBrackets(cfg: Config, almanac: Almanac, now: real)
    requires PlainManual(cfg)
    ensures var c := ChronologicalEvents(cfg, almanac, now);
            |c| == 12 && c[2].ts <= now < c[8].ts
  {
    ManualDay(cfg, almanac, now, -1);
    ManualDay(cfg, almanac, now, 1);
    var yesterday := now + -1 as real * DAY;
    DayStartNextDay(yesterday);
    assert yesterday + DAY == now;
    DayStartNextDay(now);
    assert now + 1 as real * DAY == now + DAY;
  }

  /** Sorting the collected events yields the chronological list. */
  lemma SortedIsChronological(cfg: Config, almanac: Almanac, now: real)
    requires PlainManual(cfg)
    ensures SortByTs(AllEvents(cfg, almanac, now)) == ChronologicalEvents(cfg, almanac, now)
  {
    var c := ChronologicalEvents(cfg, almanac, now);
    ChronologicalOrder(cfg, almanac, now);
    ChronologicalPermutation(cfg, almanac, now);
    StrictPairwise(c);
    SortByTsSpec(AllEvents(cfg, almanac, now));
    SortedIsUnique(SortByTs(AllEvents(cfg, almanac, now)), c);
  }

  /** Bisect-right lands between two bracketing entries of a strictly increasing list. */
  lemma IndexBetween(c: seq<SunEvent>, now: real, lo: nat, hi: nat)
    requires lo < hi < |c|
    requires forall i, j :: 0 <= i < j < |c| ==> c[i].ts < c[j].ts
    requires c[lo].ts <= now < c[hi].ts
    ensures lo < InsertionPoint(Stamps(c), now) <= hi
  {
    var stamps := Stamps(c);
    assert stamps[lo] == c[lo].ts && stamps[hi] == c[hi].ts;
  }

  /** `now` falls strictly inside the twelve events: after yesterday's sunset and before tomorrow's sunrise. */
  lemma NowIndexRange(cfg: Config, almanac: Almanac, now: real)
    requires PlainManual(cfg)
    ensures 3 <= NowIndex(AllEvents(cfg, almanac, now), now) <= 8
  {
    var c := ChronologicalEvents(cfg, almanac, now);
    SortedIsChronological(cfg, almanac, now);
    ChronologicalOrder(cfg, almanac, now);
    ChronologicalBrackets(cfg, almanac, now);
    StrictPairwise(c);
    IndexBetween(c, now, 2, 8);
  }

  /** The slice around `now` of a list that follows the cycle follows it too. */
  lemma SliceAroundFollowsCycle(sorted: seq<SunEvent>, now: real)
    requires FollowsCycle(sorted)
    requires 2 <= InsertionPoint(Stamps(sorted), now) <= |sorted| - 2
    ensures |SliceAround(sorted, now)| == 4 && FollowsCycle(SliceAround(sorted, now))
  {
    var idx := InsertionPoint(Stamps(sorted), now);
    var w := sorted[idx - 2..idx + 2];
    assert SliceAround(sorted, now) == w;
    forall i | 0 <= i < 3
      ensures w[i + 1].kind == NextKind(w[i].kind)
    {
      assert w[i] == sorted[idx - 2 + i] && w[i + 1] == sorted[idx - 1 + i];
    }
  }

  /** The four selected events run through one full day in order. */
  lemma SelectionFollowsCycle(cfg: Config, almanac: Almanac, now: real)
    requires PlainManual(cfg)
    ensures var sel := SelectedEvents(AllEvents(cfg, almanac, now), now);
            |sel| == 4 && FollowsCycle(sel)
  {
    SortedIsChronological(cfg, almanac, now);
    NowIndexRange(cfg, almanac, now);
    ChronologicalOrder(cfg, almanac, now);
    SliceAroundFollowsCycle(SortByTs(AllEvents(cfg, almanac, now)), now);
  }

  /**
    With plain manual times the update at any `now` succeeds: the window
    holds two events on each side of `now`, one of each kind.
   */
  lemma ManualModeNeverFails(cfg: Config, almanac: Almanac, colors: ColorSpace, now: real)
    requires PlainManual(cfg)
    ensures Refresh(cfg, almanac, colors, now).Ok?
    ensures EventWindowOf(cfg, almanac, now).Keys == {Sunrise, Sunset, SolarNoon, SolarMidnight}
  {
    SelectionFollowsCycle(cfg, almanac, now);
    CyclicWindowIsComplete(SelectedEvents(AllEvents(cfg, almanac, now), now));
    RefreshSucceedsOnCyclicWindow(cfg, almanac, colors, now);
  }
}
