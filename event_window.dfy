/**
  The event window (`_async_relevant_events`): the events of yesterday, today
  and tomorrow, sorted by timestamp, cut down to the two before and the two
  after `now`, and turned into a kind-to-timestamp dictionary.
 */
module EventWindow {
  import opened SunEvents

  predicate SortedByTs(s: seq<SunEvent>)
  {
    forall i, j :: 0 <= i < j < |s| ==> s[i].ts <= s[j].ts
  }

  /** Puts `x` before the first entry that is not earlier than it. */
  function InsertByTs(x: SunEvent, s: seq<SunEvent>): (r: seq<SunEvent>)
    ensures |r| == |s| + 1
    ensures multiset(r) == multiset(s) + multiset{x}
  {
    if s == [] || x.ts <= s[0].ts then [x] + s
    else
      assert s == [s[0]] + s[1..];
      [s[0]] + InsertByTs(x, s[1..])
  }

  lemma {:induction false} InsertKeepsSorted(x: SunEvent, s: seq<SunEvent>)
    requires SortedByTs(s)
    ensures SortedByTs(InsertByTs(x, s))
  {
    if s != [] && s[0].ts < x.ts {
      var rest := InsertByTs(x, s[1..]);
      InsertKeepsSorted(x, s[1..]);
      assert multiset(rest) == multiset(s[1..]) + multiset{x};
      forall k | 0 <= k < |rest| ensures s[0].ts <= rest[k].ts {
        assert rest[k] in multiset(rest);
        if rest[k] != x {
          assert rest[k] in multiset(s[1..]);
          var i :| 0 <= i < |s[1..]| && s[1..][i] == rest[k];
          assert s[i + 1] == rest[k];
        }
      }
      assert InsertByTs(x, s) == [s[0]] + rest;
    }
  }

  /** `sorted(events, key=lambda x: x[1])`: a stable insertion sort on timestamps. */
  function SortByTs(s: seq<SunEvent>): (r: seq<SunEvent>)
    ensures |r| == |s|
  {
    if s == [] then [] else InsertByTs(s[0], SortByTs(s[1..]))
  }

  /** The sort yields a permutation of its input, in timestamp order. */
  lemma {:induction false} SortByTsSpec(s: seq<SunEvent>)
    ensures multiset(SortByTs(s)) == multiset(s)
    ensures SortedByTs(SortByTs(s))
  {
    if s != [] {
      assert s == [s[0]] + s[1..];
      SortByTsSpec(s[1..]);
      InsertKeepsSorted(s[0], SortByTs(s[1..]));
    }
  }

  /** The entries of `s` stamped `t`, in their order in `s`. */
  function AtTime(s: seq<SunEvent>, t: real): seq<SunEvent>
  {
    if s == [] then [] else (if s[0].ts == t then [s[0]] else []) + AtTime(s[1..], t)
  }

  /** Inserting `x` puts it ahead of the entries that share its timestamp. */
  lemma {:induction false} InsertAtTime(x: SunEvent, s: seq<SunEvent>, t: real)
    ensures AtTime(InsertByTs(x, s), t) == (if x.ts == t then [x] else []) + AtTime(s, t)
  {
    if s == [] || x.ts <= s[0].ts {
      assert InsertByTs(x, s) == [x] + s;
      assert ([x] + s)[1..] == s;
    } else {
      var rest := InsertByTs(x, s[1..]);
      InsertAtTime(x, s[1..], t);
      assert InsertByTs(x, s) == [s[0]] + rest;
      assert ([s[0]] + rest)[1..] == rest;
      assert AtTime(s, t) == (if s[0].ts == t then [s[0]] else []) + AtTime(s[1..], t);
    }
  }

  /** The sort is stable: entries with equal timestamps keep their input order. */
  lemma {:induction false} SortIsStable(s: seq<SunEvent>, t: real)
    ensures AtTime(SortByTs(s), t) == AtTime(s, t)
  {
    if s != [] {
      SortIsStable(s[1..], t);
      InsertAtTime(s[0], SortByTs(s[1..]), t);
    }
  }

  /** `[ts for _, ts in events]` */
  function Stamps(s: seq<SunEvent>): (r: seq<real>)
    ensures |r| == |s|
  {
    seq(|s|, i requires 0 <= i < |s| => s[i].ts)
  }

  lemma SortedStamps(s: seq<SunEvent>)
    requires SortedByTs(s)
    ensures Nondecreasing(Stamps(s))
  {
  }

  predicate Nondecreasing(a: seq<real>)
  {
    forall i, j :: 0 <= i < j < |a| ==> a[i] <= a[j]
  }

  /** Where bisect-right puts `x`: the length of the run of leading entries that are `<= x`. */
  function InsertionPoint(a: seq<real>, x: real): (n: nat)
    ensures n <= |a|
    ensures forall i :: 0 <= i < n ==> a[i] <= x
    ensures n < |a| ==> x < a[n]
  {
    RunEnd(a, x, 0)
  }

  /** The end of the run of entries `<= x` that starts at `k`. */
  function RunEnd(a: seq<real>, x: real, k: nat): (n: nat)
    requires k <= |a|
    ensures k <= n <= |a|
    ensures forall i :: k <= i < n ==> a[i] <= x
    ensures n < |a| ==> x < a[n]
    decreases |a| - k
  {
    if k == |a| || x < a[k] then k else RunEnd(a, x, k + 1)
  }

  /** Any split point of `a` around `x` is the insertion point. */
  lemma SplitIsInsertionPoint(a: seq<real>, x: real, k: nat)
    requires k <= |a|
    requires forall i :: 0 <= i < k ==> a[i] <= x
    requires forall i :: k <= i < |a| ==> x < a[i]
    ensures k == InsertionPoint(a, x)
  {
    RunEndAtSplit(a, x, k, 0);
  }

  lemma {:induction false} RunEndAtSplit(a: seq<real>, x: real, k: nat, m: nat)
    requires m <= k <= |a|
    requires forall i :: m <= i < k ==> a[i] <= x
    requires k < |a| ==> x < a[k]
    ensures RunEnd(a, x, m) == k
    decreases k - m
  {
    if m < k {
      RunEndAtSplit(a, x, k, m + 1);
    }
  }

  /** `bisect.bisect` (bisect-right) on a sorted list. */
  method BisectRight(a: seq<real>, x: real) returns (lo: nat)
    requires Nondecreasing(a)
    ensures lo <= |a|
    ensures forall i :: 0 <= i < lo ==> a[i] <= x
    ensures forall i :: lo <= i < |a| ==> x < a[i]
    ensures lo == InsertionPoint(a, x)
  {
    lo := 0;
    var hi := |a|;
    while lo < hi
      invariant 0 <= lo <= hi <= |a|
      invariant forall i :: 0 <= i < lo ==> a[i] <= x
      invariant forall i :: hi <= i < |a| ==> x < a[i]
    {
      var mid := (lo + hi) / 2;
      if x < a[mid] {
        hi := mid;
      } else {
        lo := mid + 1;
      }
    }
    SplitIsInsertionPoint(a, x, lo);
  }

  /** Python's normalisation of one slice bound for a list of length `n`. */
  function SliceIndex(i: int, n: nat): (j: nat)
    ensures j <= n
    ensures 0 <= i <= n ==> j == i
    ensures i <= j || j == n
  {
    if i < 0 then (if i + n < 0 then 0 else i + n)
    else if i > n then n
    else i
  }

  /** Python's `s[start:stop]`: negative bounds count from the end, bounds are clamped. */
  function PySlice<T>(s: seq<T>, start: int, stop: int): (r: seq<T>)
    ensures 0 <= start <= stop <= |s| ==> r == s[start..stop]
    ensures 0 <= stop && start <= stop ==> |r| <= stop - start
    ensures forall e :: e in r ==> e in s
  {
    var lo := SliceIndex(start, |s|);
    var hi := SliceIndex(stop, |s|);
    if lo < hi then s[lo..hi] else []
  }

  /** No later entry of `s` has the kind of `s[i]`. */
  predicate LastOfKind(s: seq<SunEvent>, i: int)
    requires 0 <= i < |s|
  {
    forall j :: i < j < |s| ==> s[j].kind != s[i].kind
  }

  /** `dict(pairs)`: later pairs overwrite earlier ones of the same kind. */
  function ToMap(s: seq<SunEvent>): (m: map<EventKind, real>)
    ensures s == [] ==> m == map[]
    ensures s != [] ==> s[|s| - 1].kind in m && m[s[|s| - 1].kind] == s[|s| - 1].ts
  {
    if s == [] then map[]
    else ToMap(s[..|s| - 1])[s[|s| - 1].kind := s[|s| - 1].ts]
  }

  /**
    The dictionary has a key for each kind that occurs, at most one per pair,
    and a kind maps to the timestamp of its last occurrence.
   */
  lemma {:induction false} ToMapSpec(s: seq<SunEvent>)
    ensures ToMap(s).Keys == set e | e in s :: e.kind
    ensures |ToMap(s)| <= |s|
    ensures forall i :: 0 <= i < |s| && LastOfKind(s, i) ==> ToMap(s)[s[i].kind] == s[i].ts
  {
    if s != [] {
      var init := s[..|s| - 1];
      var last := s[|s| - 1];
      assert s == init + [last];
      ToMapSpec(init);
      var m := ToMap(init);
      assert ToMap(s) == m[last.kind := last.ts];
      assert ToMap(s).Keys == m.Keys + {last.kind};
      forall i | 0 <= i < |s| && LastOfKind(s, i)
        ensures ToMap(s)[s[i].kind] == s[i].ts
      {
        if i < |s| - 1 {
          assert s[i] == init[i];
          assert LastOfKind(init, i);
          assert s[i].kind != last.kind;
        }
      }
    }
  }

  /** The events of the three dates `now - 1 day`, `now`, `now + 1 day`, for the first `n` of them. */
  function CollectedEvents(cfg: Config, almanac: Almanac, now: real, n: nat): (r: seq<SunEvent>)
    requires n <= 3
    ensures |r| == 4 * n
  {
    if n == 0 then []
    else CollectedEvents(cfg, almanac, now, n - 1)
         + DayEventList(GetSunEvents(cfg, almanac, now + (n - 2) as real * DAY))
  }

  /** All twelve events around `now`. */
  function AllEvents(cfg: Config, almanac: Almanac, now: real): (r: seq<SunEvent>)
    ensures |r| == 12
  {
    CollectedEvents(cfg, almanac, now, 3)
  }

  /** The bisect-right position of `now` among the sorted events. */
  function NowIndex(events: seq<SunEvent>, now: real): nat
  {
    InsertionPoint(Stamps(SortByTs(events)), now)
  }

  /** `sorted[index_now - 2 : index_now + 2]`, with `index_now` the bisect-right position of `now`. */
  function SliceAround(sorted: seq<SunEvent>, now: real): seq<SunEvent>
  {
    var idx := InsertionPoint(Stamps(sorted), now);
    PySlice(sorted, idx as int - 2, idx + 2)
  }

  /** The window's entries: the slice around `now` of the sorted events. */
  function SelectedEvents(events: seq<SunEvent>, now: real): seq<SunEvent>
  {
    SliceAround(SortByTs(events), now)
  }

  /** The dictionary `_async_relevant_events` returns for `now`. */
  function EventWindowOf(cfg: Config, almanac: Almanac, now: real): map<EventKind, real>
  {
    ToMap(SelectedEvents(AllEvents(cfg, almanac, now), now))
  }

  /** `_async_relevant_events`: collect the three dates' events, then select around `now`. */
  method RelevantEvents(cfg: Config, almanac: Almanac, now: real) returns (window: map<EventKind, real>)
    ensures window == EventWindowOf(cfg, almanac, now)
    ensures |window| <= 4
  {
    var events: seq<SunEvent> := [];
    for i := 0 to 3
      invariant events == CollectedEvents(cfg, almanac, now, i)
    {
      var days := i - 1;
      var sunEvents := GetSunEvents(cfg, almanac, now + days as real * DAY);
      events := events + DayEventList(sunEvents);
    }
    window := SelectWindow(events, now);
  }

  /** The rest of `_async_relevant_events`: sort, bisect, slice, and build the dictionary. */
  method SelectWindow(events: seq<SunEvent>, now: real) returns (window: map<EventKind, real>)
    ensures window == ToMap(SelectedEvents(events, now))
    ensures |window| <= 4
  {
    var sorted := SortByTs(events);
    SortByTsSpec(events);
    var stamps := Stamps(sorted);
    SortedStamps(sorted);
    var indexNow := BisectRight(stamps, now);
    assert indexNow == NowIndex(events, now);
    var selected := PySlice(sorted, indexNow as int - 2, indexNow + 2);
    assert selected == SelectedEvents(events, now);
    window := ToMap(selected);
    SelectionShape(events, now);
    ToMapSpec(selected);
  }

  /** Whatever `now` is, the selection has at most four entries, all drawn from the events, in order. */
  lemma SelectionShape(events: seq<SunEvent>, now: real)
    ensures var sel := SelectedEvents(events, now);
            && |sel| <= 4
            && SortedByTs(sel)
            && (forall e :: e in sel ==> e in events)
  {
    var sorted := SortByTs(events);
    SortByTsSpec(events);
    SliceAroundShape(sorted, now);
    forall e | e in SliceAround(sorted, now) ensures e in events {
      assert e in multiset(sorted);
    }
  }

  lemma SliceAroundShape(sorted: seq<SunEvent>, now: real)
    requires SortedByTs(sorted)
    ensures var sel := SliceAround(sorted, now);
            && |sel| <= 4
            && SortedByTs(sel)
            && (forall e :: e in sel ==> e in sorted)
  {
    var idx := InsertionPoint(Stamps(sorted), now);
    var lo := SliceIndex(idx as int - 2, |sorted|);
    var hi := SliceIndex(idx + 2, |sorted|);
    if lo < hi {
      SliceKeepsSorted(sorted, lo, hi);
    }
  }

  lemma SliceKeepsSorted(s: seq<SunEvent>, lo: nat, hi: nat)
    requires lo <= hi <= |s|
    requires SortedByTs(s)
    ensures SortedByTs(s[lo..hi])
  {
    forall i, j | 0 <= i < j < hi - lo ensures s[lo..hi][i].ts <= s[lo..hi][j].ts {
      assert s[lo..hi][i] == s[lo + i] && s[lo..hi][j] == s[lo + j];
    }
  }

  /**
    When `now` has at least two events on each side, the selection is the two
    latest events at or before `now` and the two earliest after it.
   */
  lemma WindowBracketsNow(events: seq<SunEvent>, now: real)
    requires 2 <= NowIndex(events, now) <= |events| - 2
    ensures var sel := SelectedEvents(events, now);
            && |sel| == 4
            && sel[0].ts <= sel[1].ts <= now < sel[2].ts <= sel[3].ts
            && (forall e :: e in events && e.ts <= now ==> e.ts <= sel[1].ts)
            && (forall e :: e in events && now < e.ts ==> sel[2].ts <= e.ts)
  {
    var sorted := SortByTs(events);
    SortByTsSpec(events);
    var stamps := Stamps(sorted);
    var idx := NowIndex(events, now);
    var sel := sorted[idx - 2..idx + 2];
    assert SelectedEvents(events, now) == sel;
    assert stamps[idx - 1] <= now < stamps[idx];
    assert sorted[idx - 2].ts <= sorted[idx - 1].ts;
    assert sorted[idx].ts <= sorted[idx + 1].ts;
    forall e | e in events
      ensures e.ts <= now ==> e.ts <= sel[1].ts
      ensures now < e.ts ==> sel[2].ts <= e.ts
    {
      var i := IndexInSorted(events, e);
      if i < idx {
        assert sorted[i].ts <= sorted[idx - 1].ts;
        assert stamps[i] <= now;
      } else {
        assert sorted[idx].ts <= sorted[i].ts;
        assert now < stamps[i];
      }
    }
  }

  /** Every event has a place in the sorted list. */
  lemma IndexInSorted(events: seq<SunEvent>, e: SunEvent) returns (i: nat)
    requires e in events
    ensures i < |SortByTs(events)| && SortByTs(events)[i] == e
  {
    var sorted := SortByTs(events);
    SortByTsSpec(events);
    assert e in multiset(events);
    assert e in multiset(sorted);
    assert e in sorted;
    i :| 0 <= i < |sorted| && sorted[i] == e;
  }

  /**
    An event exactly at `now` that is followed by a later one, with at least
    one event before it and two after it, is the second entry of the window.
   */
  lemma EventAtNowIsSelected(events: seq<SunEvent>, now: real, j: nat)
    requires 1 <= j && j + 2 < |events|
    requires SortByTs(events)[j].ts == now < SortByTs(events)[j + 1].ts
    ensures var sel := SelectedEvents(events, now);
            |sel| == 4 && sel[1] == SortByTs(events)[j]
  {
    SortByTsSpec(events);
    EventAtNowInSlice(SortByTs(events), now, j);
  }

  lemma EventAtNowInSlice(sorted: seq<SunEvent>, now: real, j: nat)
    requires SortedByTs(sorted)
    requires 1 <= j && j + 2 < |sorted|
    requires sorted[j].ts == now < sorted[j + 1].ts
    ensures |SliceAround(sorted, now)| == 4 && SliceAround(sorted, now)[1] == sorted[j]
  {
    SortedSplit(sorted, now, j + 1);
    var sel := sorted[j - 1..j + 3];
    assert PySlice(sorted, j - 1, j + 3) == sel;
  }

  /** In a sorted list, the insertion point of `now` is where the timestamps pass `now`. */
  lemma SortedSplit(sorted: seq<SunEvent>, now: real, k: nat)
    requires SortedByTs(sorted)
    requires 0 < k <= |sorted|
    requires sorted[k - 1].ts <= now
    requires k < |sorted| ==> now < sorted[k].ts
    ensures InsertionPoint(Stamps(sorted), now) == k
  {
    var stamps := Stamps(sorted);
    forall i | 0 <= i < k ensures stamps[i] <= now {
      assert sorted[i].ts <= sorted[k - 1].ts;
    }
    forall i | k <= i < |stamps| ensures now < stamps[i] {
      assert sorted[k].ts <= sorted[i].ts;
    }
    SplitIsInsertionPoint(stamps, now, k);
  }

  /** The daily cycle of the kinds: sunrise, noon, sunset, midnight, sunrise again. */
  function NextKind(k: EventKind): EventKind
  {
    match k
    case Sunrise => SolarNoon
    case SolarNoon => Sunset
    case Sunset => SolarMidnight
    case SolarMidnight => Sunrise
  }

  /**
    When the selected entries follow the daily cycle, the dictionary holds
    every kind, and each kind maps to the timestamp of its selected entry.
   */
  lemma CyclicWindowIsComplete(sel: seq<SunEvent>)
    requires |sel| == 4
    requires forall i :: 0 <= i < 3 ==> sel[i + 1].kind == NextKind(sel[i].kind)
    ensures ToMap(sel).Keys == {Sunrise, Sunset, SolarNoon, SolarMidnight}
    ensures forall i :: 0 <= i < 4 ==> sel[i].kind in ToMap(sel) && ToMap(sel)[sel[i].kind] == sel[i].ts
  {
    assert sel[1].kind == NextKind(sel[0].kind);
    assert sel[2].kind == NextKind(sel[1].kind);
    assert sel[3].kind == NextKind(sel[2].kind);
    ToMapOfFour(sel);
    match sel[0].kind
    case Sunrise =>
      assert [sel[1].kind, sel[2].kind, sel[3].kind] == [SolarNoon, Sunset, SolarMidnight];
    case SolarNoon =>
      assert [sel[1].kind, sel[2].kind, sel[3].kind] == [Sunset, SolarMidnight, Sunrise];
    case Sunset =>
      assert [sel[1].kind, sel[2].kind, sel[3].kind] == [SolarMidnight, Sunrise, SolarNoon];
    case SolarMidnight =>
      assert [sel[1].kind, sel[2].kind, sel[3].kind] == [Sunrise, SolarNoon, Sunset];
  }

  /** The dictionary of four pairs, written out. */
  lemma ToMapOfFour(s: seq<SunEvent>)
    requires |s| == 4
    ensures ToMap(s) == map[][s[0].kind := s[0].ts][s[1].kind := s[1].ts]
                            [s[2].kind := s[2].ts][s[3].kind := s[3].ts]
  {
    var s1, s2, s3 := s[..1], s[..2], s[..3];
    assert s1[..0] == [] && s1[0] == s[0];
    assert s2[..1] == s1 && s2[1] == s[1];
    assert s3[..2] == s2 && s3[2] == s[2];
    assert s[..3] == s3 && s[3] == s[3];
    assert ToMap(s1) == map[][s[0].kind := s[0].ts];
    assert ToMap(s2) == ToMap(s1)[s[1].kind := s[1].ts];
    assert ToMap(s3) == ToMap(s2)[s[2].kind := s[2].ts];
  }
}
