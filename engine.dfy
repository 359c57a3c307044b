/**
  The circadian value engine, `CircadianLighting`: it holds the current
  percent, colour temperature and colours, recomputes them at start-up and
  on every scheduled update, and notifies its listeners after each update.
  The clock is the parameter `now` of each operation; the notification is
  recorded as the values listeners read once it is sent.
 */
module Engine {
  import opened Wrappers
  import opened SunEvents
  import opened EventWindow
  import opened Interpolation
  import opened Color

  /** The values the engine holds once an update is complete. */
  datatype Snapshot = Snapshot(percent: real, colortemp: real, rgb: Rgb, xy: Xy, hs: Hs)

  /** The percent `async_calc_percent` computes at `now`. */
  function PercentAt(cfg: Config, almanac: Almanac, now: real): Result<real, PercentError>
  {
    CalcPercent(EventWindowOf(cfg, almanac, now), now)
  }

  /**
    The stored values agree with each other: the percent is in range, the
    colour temperature is the one of the percent, and each colour is
    converted from the colour temperature.
   */
  predicate ColorsFollow(cfg: Config, colors: ColorSpace, percent: real, colortemp: real, rgb: Rgb, xy: Xy)
  {
    && -100.0 <= percent <= 100.0
    && colortemp == ColorTemp(percent, cfg.minColortemp, cfg.maxColortemp)
    && rgb == RgbOf(colors, colortemp)
    && xy == XyOf(colors, colortemp)
  }

  predicate Coherent(cfg: Config, colors: ColorSpace, s: Snapshot)
  {
    ColorsFollow(cfg, colors, s.percent, s.colortemp, s.rgb, s.xy) && s.hs == HsOf(colors, s.colortemp)
  }

  /** The values `async_update` stores at `now`, or the error that aborts it. */
  function Refresh(cfg: Config, almanac: Almanac, colors: ColorSpace, now: real): (r: Result<Snapshot, PercentError>)
    ensures r.Ok? <==> PercentAt(cfg, almanac, now).Ok?
    ensures r.Ok? ==> r.value.percent == PercentAt(cfg, almanac, now).value && Coherent(cfg, colors, r.value)
    ensures r.Ok? && cfg.minColortemp <= cfg.maxColortemp
            ==> cfg.minColortemp as real <= r.value.colortemp <= cfg.maxColortemp as real
    ensures r.Err? ==> r.error == PercentAt(cfg, almanac, now).error
  {
    var percent :- PercentAt(cfg, almanac, now);
    var colortemp := ColorTemp(percent, cfg.minColortemp, cfg.maxColortemp);
    Ok(Snapshot(percent, colortemp, RgbOf(colors, colortemp), XyOf(colors, colortemp), HsOf(colors, colortemp)))
  }

  /**
    When the four selected events follow each other in the daily cycle, every
    key is in the window and the update cannot fail.
   */
  lemma RefreshSucceedsOnCyclicWindow(cfg: Config, almanac: Almanac, colors: ColorSpace, now: real)
    requires var sel := SelectedEvents(AllEvents(cfg, almanac, now), now);
             |sel| == 4 && forall i :: 0 <= i < 3 ==> sel[i + 1].kind == NextKind(sel[i].kind)
    ensures Refresh(cfg, almanac, colors, now).Ok?
  {
    CyclicWindowIsComplete(SelectedEvents(AllEvents(cfg, almanac, now), now));
  }

  /** At solar noon between sunrise and sunset the engine reaches 100 percent and the maximum colour temperature. */
  lemma RefreshAtSolarNoon(cfg: Config, almanac: Almanac, colors: ColorSpace, now: real)
    requires var w := EventWindowOf(cfg, almanac, now);
             && Sunrise in w && Sunset in w && SolarNoon in w
             && w[Sunrise] < now < w[Sunset] && now == w[SolarNoon]
    ensures var r := Refresh(cfg, almanac, colors, now);
            r.Ok? && r.value.percent == 100.0 && r.value.colortemp == cfg.maxColortemp as real
  {
    DaytimePercent(EventWindowOf(cfg, almanac, now), now);
  }

  /** Between sunset and sunrise the percent is negative and the colour temperature is the minimum. */
  lemma RefreshAtNight(cfg: Config, almanac: Almanac, colors: ColorSpace, now: real)
    requires var w := EventWindowOf(cfg, almanac, now);
             && Sunrise in w && Sunset in w && SolarMidnight in w
             && w[Sunset] < now < w[Sunrise]
    ensures var r := Refresh(cfg, almanac, colors, now);
            && r.Ok? && -100.0 <= r.value.percent < 0.0
            && r.value.colortemp == cfg.minColortemp as real
  {
    NighttimePercent(EventWindowOf(cfg, almanac, now), now);
  }

  /** During the day the colour temperature rises with the percent from the minimum towards the maximum. */
  lemma RefreshInDaytime(cfg: Config, almanac: Almanac, colors: ColorSpace, now: real)
    requires cfg.minColortemp < cfg.maxColortemp
    requires var w := EventWindowOf(cfg, almanac, now);
             && Sunrise in w && Sunset in w && SolarNoon in w
             && w[Sunrise] < now < w[Sunset]
    ensures var r := Refresh(cfg, almanac, colors, now);
            && r.Ok? && 0.0 < r.value.percent
            && cfg.minColortemp as real < r.value.colortemp <= cfg.maxColortemp as real
  {
    DaytimePercent(EventWindowOf(cfg, almanac, now), now);
  }

  class CircadianLighting {
    const config: Config
    const almanac: Almanac
    const colors: ColorSpace

    /** Whether `_async_init` has stored a first set of values. */
    var ready: bool
    var percent: real
    var colortemp: real
    var rgb: Rgb
    var xy: Xy
    /** Left unset by `_async_init`; the first update sets it. */
    var hs: Option<Hs>
    /** One entry per notification sent: the values listeners read then. */
    var notified: seq<Snapshot>

    ghost predicate Valid()
      reads this
    {
      && (ready ==> ColorsFollow(config, colors, percent, colortemp, rgb, xy))
      && (forall s | s in notified :: Coherent(config, colors, s))
    }

    constructor (config: Config, almanac: Almanac, colors: ColorSpace)
      ensures Valid()
      ensures this.config == config && this.almanac == almanac && this.colors == colors
      ensures !ready && hs.None? && notified == []
    {
      this.config := config;
      this.almanac := almanac;
      this.colors := colors;
      ready := false;
      percent := 0.0;
      colortemp := 0.0;
      rgb := Rgb(0.0, 0.0, 0.0);
      xy := Xy(0.0, 0.0);
      hs := None;
      notified := [];
    }

    /** `async_calc_percent`: the relevant events at `now`, then the parabola. */
    method CalcPercentAt(now: real) returns (r: Result<real, PercentError>)
      ensures r == PercentAt(config, almanac, now)
      ensures r.Ok? ==> -100.0 <= r.value <= 100.0
      ensures r.Err? ==> r.error.missing !in EventWindowOf(config, almanac, now)
    {
      var today := RelevantEvents(config, almanac, now);
      r := CalcPercent(today, now);
    }

    /** The shared field-update sequence: percent, colour temperature, RGB and xy. */
    method Store(p: real)
      requires Valid()
      requires -100.0 <= p <= 100.0
      modifies this
      ensures Valid()
      ensures ready && percent == p && ColorsFollow(config, colors, percent, colortemp, rgb, xy)
      ensures hs == old(hs) && notified == old(notified)
    {
      percent := p;
      colortemp := ColorTemp(percent, config.minColortemp, config.maxColortemp);
      rgb := RgbOf(colors, colortemp);
      xy := XyOf(colors, colortemp);
      ready := true;
    }

    /** The last step of an update: the hue/saturation, then the one notification. */
    method StoreHsAndNotify()
      requires Valid() && ready
      modifies this
      ensures Valid()
      ensures hs == Some(HsOf(colors, colortemp))
      ensures notified == old(notified) + [Snapshot(percent, colortemp, rgb, xy, hs.value)]
      ensures ready && percent == old(percent) && colortemp == old(colortemp)
      ensures rgb == old(rgb) && xy == old(xy)
    {
      hs := Some(HsOf(colors, colortemp));
      notified := notified + [Snapshot(percent, colortemp, rgb, xy, hs.value)];
    }

    /**
      `_async_init`: stores percent, colour temperature, RGB and xy, in that
      order, without touching the hue/saturation and without notifying.
     */
    method Init(now: real) returns (r: Result<(), PercentError>)
      requires Valid()
      modifies this
      ensures Valid()
      ensures r.Ok? <==> PercentAt(config, almanac, now).Ok?
      ensures r.Ok? ==> var s := Refresh(config, almanac, colors, now).value;
                        && ready && percent == s.percent && colortemp == s.colortemp
                        && rgb == s.rgb && xy == s.xy
                        && hs == old(hs) && notified == old(notified)
      ensures r.Err? ==> unchanged(this)
    {
      var p := CalcPercentAt(now);
      if p.Err? {
        return Err(p.error);
      }
      Store(p.value);
      r := Ok(());
    }

    /**
      `async_update`: stores percent, colour temperature, RGB, xy and
      hue/saturation, in that order, and then notifies once. When the
      percent cannot be computed nothing is stored and nobody is notified.
     */
    method Update(now: real) returns (r: Result<(), PercentError>)
      requires Valid()
      modifies this
      ensures Valid()
      ensures r.Ok? <==> PercentAt(config, almanac, now).Ok?
      ensures r.Ok? ==> var s := Refresh(config, almanac, colors, now).value;
                        && ready && percent == s.percent && colortemp == s.colortemp
                        && rgb == s.rgb && xy == s.xy && hs == Some(s.hs)
                        && notified == old(notified) + [s]
      ensures r.Err? ==> unchanged(this)
    {
      var p := CalcPercentAt(now);
      if p.Err? {
        return Err(p.error);
      }
      Store(p.value);
      StoreHsAndNotify();
      r := Ok(());
    }
  }
}
