/**
  The four sun events of one date (`_async_get_sun_events`): taken from the
  almanac, or derived from the manual sunrise and sunset times, and then moved
  by the configured offsets. Timestamps are POSIX seconds as `real`.
 */
module SunEvents {
  import opened Wrappers

  /** Seconds in a day; POSIX time has no leap seconds, so every UTC day is this long. */
  const DAY: real := 86400.0

  datatype EventKind = Sunrise | Sunset | SolarNoon | SolarMidnight

  /** One `(kind, timestamp)` pair of the event list. */
  datatype SunEvent = SunEvent(kind: EventKind, ts: real)

  /** The event dictionary of one date. */
  datatype DayEvents = DayEvents(sunrise: real, sunset: real, noon: real, midnight: real)

  /**
    The engine's settings. Colour temperatures are Kelvin, offsets signed
    seconds, and the manual times seconds after midnight.
   */
  datatype Config = Config(
    minColortemp: int,
    maxColortemp: int,
    sunriseOffset: Option<real>,
    sunsetOffset: Option<real>,
    manualSunrise: Option<real>,
    manualSunset: Option<real>)

  /** The astronomical almanac: the date (as a timestamp within it) to its four events. */
  type Almanac = real -> DayEvents

  /** The timestamp of 00:00 UTC of the day that holds `t`. */
  function DayStart(t: real): (r: real)
    ensures r <= t < r + DAY
  {
    (t / DAY).Floor as real * DAY
  }

  lemma DayStartNextDay(t: real)
    ensures DayStart(t + DAY) == DayStart(t) + DAY
  {
    var y := t / DAY;
    assert (t + DAY) / DAY == y + 1.0;
    var n := y.Floor;
    assert n as real <= y < n as real + 1.0;
    assert (y + 1.0).Floor == n + 1;
  }

  /** The day start of a time `tod` into the day that starts at `n` whole days. */
  lemma DayStartOfTimeOfDay(n: int, tod: real)
    requires 0.0 <= tod < DAY
    ensures DayStart(n as real * DAY + tod) == n as real * DAY
  {
    var y := (n as real * DAY + tod) / DAY;
    assert y == n as real + tod / DAY;
    assert 0.0 <= tod / DAY < 1.0;
    assert y.Floor == n;
  }

  /** Two instants share a day start exactly when the second lies in the first one's UTC day. */
  lemma SameDay(t: real, u: real)
    ensures DayStart(u) == DayStart(t) <==> DayStart(t) <= u < DayStart(t) + DAY
  {
    var n := (t / DAY).Floor;
    if DayStart(t) <= u < DayStart(t) + DAY {
      DayStartOfTimeOfDay(n, u - DayStart(t));
      assert u == n as real * DAY + (u - DayStart(t));
    }
  }

  /**
    `date.replace(hour=…, minute=…, second=…, microsecond=…)` on a UTC
    datetime: the same day at time of day `tod`.
   */
  function ReplaceTime(date: real, tod: real): (r: real)
    ensures 0.0 <= tod < DAY ==> DayStart(r) == DayStart(date) && r - DayStart(r) == tod
  {
    SameDay(date, DayStart(date) + tod);
    DayStart(date) + tod
  }

  /** True when both manual times are configured: the almanac is not consulted at all. */
  predicate ManualMode(cfg: Config)
  {
    cfg.manualSunrise.Some? && cfg.manualSunset.Some?
  }

  /** The events of `date` before the offsets are applied. */
  function RawSunEvents(cfg: Config, almanac: Almanac, date: real): (e: DayEvents)
    ensures e.sunrise == (if cfg.manualSunrise.Some? then ReplaceTime(date, cfg.manualSunrise.value)
                          else almanac(date).sunrise)
    ensures e.sunset == (if cfg.manualSunset.Some? then ReplaceTime(date, cfg.manualSunset.value)
                         else almanac(date).sunset)
    ensures !ManualMode(cfg) ==> e.noon == almanac(date).noon && e.midnight == almanac(date).midnight
    ensures ManualMode(cfg) ==> e.sunset - e.noon == e.noon - e.sunrise
  {
    if ManualMode(cfg) then
      var sunrise := ReplaceTime(date, cfg.manualSunrise.value);
      var sunset := ReplaceTime(date, cfg.manualSunset.value);
      var noon := sunrise + (sunset - sunrise) / 2.0;
      var midnight := sunset + ((sunrise + DAY) - sunset) / 2.0;
      DayEvents(sunrise, sunset, noon, midnight)
    else
      var location := almanac(date);
      var sunrise := if cfg.manualSunrise.Some? then ReplaceTime(date, cfg.manualSunrise.value)
                     else location.sunrise;
      var sunset := if cfg.manualSunset.Some? then ReplaceTime(date, cfg.manualSunset.value)
                    else location.sunset;
      DayEvents(sunrise, sunset, location.noon, location.midnight)
  }

  function Shift(t: real, offset: Option<real>): real
  {
    if offset.Some? then t + offset.value else t
  }

  /** The events of `date` as the engine uses them. */
  function GetSunEvents(cfg: Config, almanac: Almanac, date: real): (e: DayEvents)
    ensures var raw := RawSunEvents(cfg, almanac, date);
            && e.noon == raw.noon && e.midnight == raw.midnight
            && e.sunrise - raw.sunrise == (if cfg.sunriseOffset.Some? then cfg.sunriseOffset.value else 0.0)
            && e.sunset - raw.sunset == (if cfg.sunsetOffset.Some? then cfg.sunsetOffset.value else 0.0)
  {
    var raw := RawSunEvents(cfg, almanac, date);
    DayEvents(Shift(raw.sunrise, cfg.sunriseOffset), Shift(raw.sunset, cfg.sunsetOffset),
              raw.noon, raw.midnight)
  }

  /** The dictionary's items, in its insertion order: sunrise, sunset, noon, midnight. */
  function DayEventList(e: DayEvents): (s: seq<SunEvent>)
    ensures |s| == 4
    ensures forall i :: 0 <= i < |s| ==> s[i].kind == [Sunrise, Sunset, SolarNoon, SolarMidnight][i]
  {
    [SunEvent(Sunrise, e.sunrise), SunEvent(Sunset, e.sunset),
     SunEvent(SolarNoon, e.noon), SunEvent(SolarMidnight, e.midnight)]
  }

  /** Offsets move sunrise and sunset by their own amount and leave noon and midnight alone. */
  lemma OffsetsShiftOnlySunriseSunset(cfg: Config, almanac: Almanac, date: real)
    ensures var plain := GetSunEvents(cfg.(sunriseOffset := None, sunsetOffset := None), almanac, date);
            var e := GetSunEvents(cfg, almanac, date);
            && e.noon == plain.noon && e.midnight == plain.midnight
            && e.sunrise == plain.sunrise + (if cfg.sunriseOffset.Some? then cfg.sunriseOffset.value else 0.0)
            && e.sunset == plain.sunset + (if cfg.sunsetOffset.Some? then cfg.sunsetOffset.value else 0.0)
  {
  }

  /** With manual times, solar noon lies exactly half-way between sunrise and sunset. */
  lemma ManualNoonIsMidpoint(cfg: Config, almanac: Almanac, date: real)
    requires ManualMode(cfg)
    ensures var e := RawSunEvents(cfg, almanac, date);
            && e.sunrise == DayStart(date) + cfg.manualSunrise.value
            && e.sunset == DayStart(date) + cfg.manualSunset.value
            && e.noon - e.sunrise == e.sunset - e.noon
  {
  }

  /**
    With manual times, solar midnight lies exactly half-way between the
    date's sunset and the NEXT date's sunrise.
   */
  lemma ManualMidnightIsMidpoint(cfg: Config, almanac: Almanac, date: real)
    requires ManualMode(cfg)
    ensures var e := RawSunEvents(cfg, almanac, date);
            var next := RawSunEvents(cfg, almanac, date + DAY);
            e.midnight - e.sunset == next.sunrise - e.midnight
  {
    DayStartNextDay(date);
  }

  /**
    Manual times with sunrise before sunset give the daily order
    sunrise < noon < sunset < midnight < next sunrise.
   */
  lemma ManualEventsInterleave(cfg: Config, almanac: Almanac, date: real)
    requires ManualMode(cfg)
    requires 0.0 <= cfg.manualSunrise.value < cfg.manualSunset.value < DAY
    ensures var e := RawSunEvents(cfg, almanac, date);
            var next := RawSunEvents(cfg, almanac, date + DAY);
            && DayStart(date) <= e.sunrise < e.noon < e.sunset < e.midnight < next.sunrise
            && next.sunrise < next.noon
  {
    DayStartNextDay(date);
  }

  /** Manual sunrise 07:00 and sunset 19:00 give noon at 13:00 and midnight at 01:00 next day. */
  lemma ManualSevenToNineteen(cfg: Config, almanac: Almanac, date: real)
    requires cfg.manualSunrise == Some(7.0 * 3600.0) && cfg.manualSunset == Some(19.0 * 3600.0)
    ensures var e := RawSunEvents(cfg, almanac, date);
            && e.noon == DayStart(date) + 13.0 * 3600.0
            && e.midnight == DayStart(date + DAY) + 1.0 * 3600.0
  {
    DayStartNextDay(date);
  }
}
