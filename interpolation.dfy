/**
  The circadian percent (`async_calc_percent`) and the colour temperature
  derived from it (`async_calc_colortemp`).
 */
module Interpolation {
  import opened Wrappers
  import opened SunEvents

  /** The `KeyError` raised when the event window lacks a kind that is looked up. */
  datatype PercentError = KeyError(missing: EventKind)

  /**
    The curve `a * d ** 2 + k` with `a = (0 - k) / span ** 2`: `d` is the
    signed distance of the evaluation point from the vertex and `span` that of
    the zero crossing, so the curve is `k` at `d == 0` and 0 at `d == -span`.
   */
  function VertexForm(k: real, d: real, span: real): real
    requires span != 0.0
  {
    SquareNonzero(span);
    (0.0 - k) / (span * span) * (d * d) + k
  }

  /** The parabola with vertex `(h, k)` that passes through `(x, 0)`, evaluated at `t`. */
  function Parabola(h: real, k: real, x: real, t: real): (p: real)
    requires h != x
    ensures t == h ==> p == k
    ensures t == x ==> p == 0.0
  {
    VertexFormAtVertex(k, h - x);
    VertexFormAtCrossing(k, h - x);
    assert x - h == -(h - x);
    VertexForm(k, t - h, h - x)
  }

  lemma SquareNonzero(d: real)
    requires d != 0.0
    ensures d * d != 0.0
  {
  }

  lemma SquareOfNegation(a: real, b: real)
    requires a == -b
    ensures a * a == b * b
  {
  }

  lemma ScaleAtMost(a: real, b: real, c: real)
    requires a <= b && 0.0 <= c
    ensures a * c <= b * c
  {
  }

  lemma ScaleBelow(a: real, b: real, c: real)
    requires a < b && 0.0 < c
    ensures a * c < b * c
  {
  }

  lemma ScaleAtMostLeft(c: real, a: real, b: real)
    requires a <= b && 0.0 <= c
    ensures c * a <= c * b
  {
  }

  lemma ScaleBelowLeft(c: real, a: real, b: real)
    requires a < b && 0.0 < c
    ensures c * a < c * b
  {
  }

  /** Squaring is strictly increasing on the non-negative reals. */
  lemma SquareBelow(a: real, b: real)
    requires 0.0 <= a < b
    ensures a * a < b * b
  {
    calc {
      a * a;
    <= { ScaleAtMost(a, b, a); }
      b * a;
    < { ScaleBelowLeft(b, a, b); }
      b * b;
    }
  }

  /** A point strictly closer to 0 than `b`, on either side, has the smaller square. */
  lemma SquareCloser(a: real, b: real)
    requires (b < a <= 0.0) || (0.0 <= a < b)
    ensures a * a < b * b
  {
    if b < a {
      var na, nb := -a, -b;
      SquareBelow(na, nb);
      SquareOfNegation(a, na);
      SquareOfNegation(b, nb);
      calc {
        a * a;
        na * na;
      < nb * nb;
        b * b;
      }
    } else {
      SquareBelow(a, b);
    }
  }

  lemma RatioBounds(n: real, m: real)
    requires 0.0 <= n < m
    ensures 0.0 <= n / m < 1.0
  {
  }

  lemma RatioBelow(n1: real, n2: real, m: real)
    requires n1 < n2 && 0.0 < m
    ensures n1 / m < n2 / m
  {
  }

  lemma ScaleRatio(c: real, n: real, m: real)
    requires m != 0.0
    ensures c / m * n == c * (n / m)
  {
  }

  /**
    The curve in terms of its squared distances `n = d * d` and `m = span * span`:
    `k` is pulled towards 0 by the fraction `n / m`.
   */
  lemma PulledTowardsZero(k: real, n: real, m: real)
    requires 0.0 <= n < m
    ensures 0.0 < k ==> 0.0 < (0.0 - k) / m * n + k <= k
    ensures k < 0.0 ==> k <= (0.0 - k) / m * n + k < 0.0
  {
    var q := n / m;
    RatioBounds(n, m);
    ScaleRatio(0.0 - k, n, m);
    if 0.0 < k {
      ScaleBelow(q, 1.0, k);
      ScaleAtMost(0.0, q, k);
    } else if k < 0.0 {
      ScaleBelow(q, 1.0, -k);
      ScaleAtMost(0.0, q, -k);
    }
  }

  /** Between the zero crossing and the vertex the curve lies between 0 and `k`. */
  lemma VertexFormWithin(k: real, d: real, span: real)
    requires (0.0 < span && -span < d <= 0.0) || (span < 0.0 && 0.0 <= d < -span)
    ensures span != 0.0
    ensures 0.0 < k ==> 0.0 < VertexForm(k, d, span) <= k
    ensures k < 0.0 ==> k <= VertexForm(k, d, span) < 0.0
  {
    if 0.0 < span {
      SquareCloser(d, -span);
      SquareOfNegation(-span, span);
    } else {
      SquareCloser(d, -span);
      SquareOfNegation(-span, span);
    }
    PulledTowardsZero(k, d * d, span * span);
  }

  /** The curve takes the value `k` at the vertex. */
  lemma VertexFormAtVertex(k: real, span: real)
    requires span != 0.0
    ensures VertexForm(k, 0.0, span) == k
  {
  }

  /** The curve is 0 at the zero crossing. */
  lemma VertexFormAtCrossing(k: real, span: real)
    requires span != 0.0
    ensures VertexForm(k, -span, span) == 0.0
  {
    SquareNonzero(span);
    calc {
      VertexForm(k, -span, span);
      (0.0 - k) / (span * span) * ((-span) * (-span)) + k;
    == { SquareOfNegation(-span, span); }
      (0.0 - k) / (span * span) * (span * span) + k;
      0.0;
    }
  }

  /** On one side of the vertex, a point closer to it gives a value closer to `k`. */
  lemma VertexFormMonotone(k: real, d1: real, d2: real, span: real)
    requires (0.0 < span && -span < d1 < d2 <= 0.0) || (span < 0.0 && 0.0 <= d2 < d1 < -span)
    ensures span != 0.0
    ensures 0.0 < k ==> VertexForm(k, d1, span) < VertexForm(k, d2, span)
    ensures k < 0.0 ==> VertexForm(k, d1, span) > VertexForm(k, d2, span)
  {
    SquareCloser(d2, d1);
    SquareCloser(d1, -span);
    SquareOfNegation(-span, span);
    PullOrder(k, d1 * d1, d2 * d2, span * span);
  }

  /** A smaller fraction `n / m` leaves the value closer to `k`. */
  lemma PullOrder(k: real, n1: real, n2: real, m: real)
    requires 0.0 <= n2 < n1 < m
    ensures 0.0 < k ==> (0.0 - k) / m * n1 + k < (0.0 - k) / m * n2 + k
    ensures k < 0.0 ==> (0.0 - k) / m * n1 + k > (0.0 - k) / m * n2 + k
  {
    RatioBelow(n2, n1, m);
    ScaleRatio(0.0 - k, n1, m);
    ScaleRatio(0.0 - k, n2, m);
    if 0.0 < k {
      ScaleBelow(n2 / m, n1 / m, k);
    } else if k < 0.0 {
      ScaleBelow(n2 / m, n1 / m, -k);
    }
  }

  /**
    Between the crossing point and the vertex the curve lies strictly between
    0 and `k`, reaching `k` exactly at the vertex.
   */
  lemma ParabolaBetween(h: real, k: real, x: real, t: real)
    requires (x < t <= h) || (h <= t < x)
    ensures h != x
    ensures 0.0 < k ==> 0.0 < Parabola(h, k, x, t) <= k
    ensures k < 0.0 ==> k <= Parabola(h, k, x, t) < 0.0
    ensures k != 0.0 ==> (Parabola(h, k, x, t) == k <==> t == h)
  {
    VertexFormWithin(k, t - h, h - x);
    VertexFormAtVertex(k, h - x);
    if t == h {
      assert t - h == 0.0;
    } else {
      VertexFormMonotone(k, t - h, 0.0, h - x);
    }
  }

  /** On one side of the vertex, further from it means further from `k`. */
  lemma ParabolaMonotone(h: real, k: real, x: real, t1: real, t2: real)
    requires (x < t1 < t2 <= h) || (h <= t1 < t2 < x)
    ensures h != x
    ensures x < h && 0.0 < k ==> Parabola(h, k, x, t1) < Parabola(h, k, x, t2)
    ensures x < h && k < 0.0 ==> Parabola(h, k, x, t1) > Parabola(h, k, x, t2)
    ensures h < x && 0.0 < k ==> Parabola(h, k, x, t1) > Parabola(h, k, x, t2)
    ensures h < x && k < 0.0 ==> Parabola(h, k, x, t1) < Parabola(h, k, x, t2)
  {
    if x < h {
      VertexFormMonotone(k, t1 - h, t2 - h, h - x);
    } else {
      VertexFormMonotone(k, t2 - h, t1 - h, h - x);
    }
  }

  /** `async_calc_percent` on the window `today`, at time `now`. */
  function CalcPercent(today: map<EventKind, real>, now: real): (r: Result<real, PercentError>)
    ensures r.Ok? ==> -100.0 <= r.value <= 100.0
    ensures r.Err? ==> r.error.missing !in today
    ensures Sunrise in today && Sunset in today && SolarNoon in today && SolarMidnight in today
            ==> r.Ok?
    // the first lookup that fails, in the order the source performs them
    ensures Sunrise !in today ==> r == Err(KeyError(Sunrise))
    ensures Sunrise in today && Sunset !in today ==> r == Err(KeyError(Sunset))
    ensures Sunrise in today && Sunset in today && SolarNoon !in today
            && today[Sunrise] < now < today[Sunset]
            ==> r == Err(KeyError(SolarNoon))
    ensures Sunrise in today && Sunset in today && SolarMidnight !in today
            && today[Sunset] < now < today[Sunrise]
            ==> r == Err(KeyError(SolarMidnight))
  {
    if Sunrise !in today then Err(KeyError(Sunrise))
    else if today[Sunrise] < now && Sunset !in today then Err(KeyError(Sunset))
    else if today[Sunrise] < now < today[Sunset] then
      // sunrise -> sunset parabola, split at solar noon
      if SolarNoon !in today then Err(KeyError(SolarNoon))
      else
        var h := today[SolarNoon];
        var x := if now < h then today[Sunrise] else today[Sunset];
        ParabolaBetween(h, 100.0, x, now);
        Ok(Parabola(h, 100.0, x, now))
    else if Sunset !in today then Err(KeyError(Sunset))
    else if today[Sunset] < now < today[Sunrise] then
      // sunset -> sunrise parabola, split at solar midnight
      if SolarMidnight !in today then Err(KeyError(SolarMidnight))
      else
        var h := today[SolarMidnight];
        var x := if now < h then today[Sunset] else today[Sunrise];
        ParabolaBetween(h, -100.0, x, now);
        Ok(Parabola(h, -100.0, x, now))
    else
      // neither phase: the error is logged and 0 returned
      Ok(0.0)
  }

  /**
    Between sunrise and sunset the percent is positive, at most 100, and it is
    100 exactly at solar noon.
   */
  lemma DaytimePercent(today: map<EventKind, real>, now: real)
    requires Sunrise in today && Sunset in today && SolarNoon in today
    requires today[Sunrise] < now < today[Sunset]
    ensures var r := CalcPercent(today, now);
            && r.Ok?
            && 0.0 < r.value <= 100.0
            && (r.value == 100.0 <==> now == today[SolarNoon])
  {
    var h := today[SolarNoon];
    var x := if now < h then today[Sunrise] else today[Sunset];
    ParabolaBetween(h, 100.0, x, now);
  }

  /**
    Between sunset and the following sunrise the percent is negative, at least
    -100, and it is -100 exactly at solar midnight.
   */
  lemma NighttimePercent(today: map<EventKind, real>, now: real)
    requires Sunrise in today && Sunset in today && SolarMidnight in today
    requires today[Sunset] < now < today[Sunrise]
    ensures var r := CalcPercent(today, now);
            && r.Ok?
            && -100.0 <= r.value < 0.0
            && (r.value == -100.0 <==> now == today[SolarMidnight])
  {
    var h := today[SolarMidnight];
    var x := if now < h then today[Sunset] else today[Sunrise];
    ParabolaBetween(h, -100.0, x, now);
  }

  /** Outside both open phases, for instance exactly at sunrise or at sunset, the percent is 0. */
  lemma OutsidePhasesPercent(today: map<EventKind, real>, now: real)
    requires Sunrise in today && Sunset in today
    requires !(today[Sunrise] < now < today[Sunset]) && !(today[Sunset] < now < today[Sunrise])
    ensures CalcPercent(today, now) == Ok(0.0)
  {
  }

  /**
    The percent rises from sunrise to solar noon.
    The window `today` is held fixed: both instants are compared against the
    same four events. The engine recomputes the window at every `now`, so
    this is monotonicity within one window, not across windows.
   */
  lemma RisesTowardsNoon(today: map<EventKind, real>, t1: real, t2: real)
    requires Sunrise in today && Sunset in today && SolarNoon in today
    requires today[Sunrise] < t1 < t2 <= today[SolarNoon] && t2 < today[Sunset]
    ensures CalcPercent(today, t1).Ok? && CalcPercent(today, t2).Ok?
    ensures CalcPercent(today, t1).value < CalcPercent(today, t2).value
  {
    var h := today[SolarNoon];
    ParabolaBetween(h, 100.0, today[Sunrise], t1);
    DaytimePercent(today, t2);
    if t2 < h {
      ParabolaMonotone(h, 100.0, today[Sunrise], t1, t2);
    }
  }

  /**
    The percent falls from solar noon to sunset.
    The window `today` is held fixed: both instants are compared against the
    same four events. The engine recomputes the window at every `now`, so
    this is monotonicity within one window, not across windows.
   */
  lemma FallsTowardsSunset(today: map<EventKind, real>, t1: real, t2: real)
    requires Sunrise in today && Sunset in today && SolarNoon in today
    requires today[SolarNoon] <= t1 < t2 < today[Sunset] && today[Sunrise] < t1
    ensures CalcPercent(today, t1).Ok? && CalcPercent(today, t2).Ok?
    ensures CalcPercent(today, t1).value > CalcPercent(today, t2).value
  {
    ParabolaMonotone(today[SolarNoon], 100.0, today[Sunset], t1, t2);
  }

  /**
    The percent falls from sunset to solar midnight.
    The window `today` is held fixed: both instants are compared against the
    same four events. The engine recomputes the window at every `now`, so
    this is monotonicity within one window, not across windows.
   */
  lemma FallsTowardsMidnight(today: map<EventKind, real>, t1: real, t2: real)
    requires Sunrise in today && Sunset in today && SolarMidnight in today
    requires today[Sunset] < t1 < t2 <= today[SolarMidnight] && t2 < today[Sunrise]
    ensures CalcPercent(today, t1).Ok? && CalcPercent(today, t2).Ok?
    ensures CalcPercent(today, t1).value > CalcPercent(today, t2).value
  {
    var h := today[SolarMidnight];
    ParabolaBetween(h, -100.0, today[Sunset], t1);
    NighttimePercent(today, t2);
    if t2 < h {
      ParabolaMonotone(h, -100.0, today[Sunset], t1, t2);
    }
  }

  /**
    The percent rises from solar midnight to sunrise.
    The window `today` is held fixed: both instants are compared against the
    same four events. The engine recomputes the window at every `now`, so
    this is monotonicity within one window, not across windows.
   */
  lemma RisesTowardsSunrise(today: map<EventKind, real>, t1: real, t2: real)
    requires Sunrise in today && Sunset in today && SolarMidnight in today
    requires today[SolarMidnight] <= t1 < t2 < today[Sunrise] && today[Sunset] < t1
    ensures CalcPercent(today, t1).Ok? && CalcPercent(today, t2).Ok?
    ensures CalcPercent(today, t1).value < CalcPercent(today, t2).value
  {
    ParabolaMonotone(today[SolarMidnight], -100.0, today[Sunrise], t1, t2);
  }

  /** `async_calc_colortemp`: linear from min to max over positive percents, min otherwise. */
  function ColorTemp(percent: real, minCt: int, maxCt: int): (ct: real)
    ensures percent <= 0.0 ==> ct == minCt as real
    ensures percent == 100.0 ==> ct == maxCt as real
    ensures minCt <= maxCt && percent <= 100.0 ==> minCt as real <= ct <= maxCt as real
    ensures minCt < maxCt && 0.0 < percent ==> minCt as real < ct
  {
    if percent > 0.0 then
      var delta := (maxCt - minCt) as real;
      var p := percent / 100.0;
      assert minCt <= maxCt && p <= 1.0 ==> delta * p <= delta;
      assert minCt < maxCt ==> 0.0 < delta * p;
      delta * p + minCt as real
    else minCt as real
  }

  /** Over positive percents the colour temperature is linear, with slope (max - min) / 100. */
  lemma ColorTempLinear(p1: real, p2: real, minCt: int, maxCt: int)
    requires 0.0 < p1 && 0.0 < p2
    ensures ColorTemp(p2, minCt, maxCt) - ColorTemp(p1, minCt, maxCt)
            == (maxCt - minCt) as real * (p2 - p1) / 100.0
  {
  }

  /** A warmer-to-cooler order: a larger percent never gives a lower colour temperature. */
  lemma ColorTempMonotone(p1: real, p2: real, minCt: int, maxCt: int)
    requires p1 <= p2
    requires minCt <= maxCt
    ensures ColorTemp(p1, minCt, maxCt) <= ColorTemp(p2, minCt, maxCt)
  {
    var delta := (maxCt - minCt) as real;
    if 0.0 < p1 {
      calc {
        ColorTemp(p1, minCt, maxCt);
        delta * (p1 / 100.0) + minCt as real;
      <= { ScaleAtMostLeft(delta, p1 / 100.0, p2 / 100.0); }
        delta * (p2 / 100.0) + minCt as real;
        ColorTemp(p2, minCt, maxCt);
      }
    } else if 0.0 < p2 {
      calc {
        ColorTemp(p1, minCt, maxCt);
        0.0 + minCt as real;
      <= { ScaleAtMostLeft(delta, 0.0, p2 / 100.0); }
        delta * (p2 / 100.0) + minCt as real;
        ColorTemp(p2, minCt, maxCt);
      }
    }
  }
}
