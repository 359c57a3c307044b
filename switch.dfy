/**
  The circadian switch (`CircadianSwitch`): it decides the brightness and the
  colours for its lights from the engine's data, gates every adjustment on
  its on/off state and on an optional disable entity, and sends one
  `light.turn_on` call per entry of its light list and per group that lists
  that light. The platform's entity
  states are a map from entity id to state string; a service call is
  recorded as a value instead of being sent.
 */
module Switch {
  import opened Wrappers
  import opened Color
  import Interpolation

  /** The platform's state machine: entity id to its current state. */
  type States = map<string, string>

  const STATE_ON: string := "on"

  /** The configuration key `turn_on` hands to the update as its transition. */
  const INITIAL_TRANSITION_KEY: string := "initial_transition"

  /**
    The switch's settings. Light groups are optional lists of entity ids,
    brightnesses are percents, the sleep colour temperature is Kelvin.
   */
  datatype SwitchConfig = SwitchConfig(
    lightsCt: Option<seq<string>>,
    lightsRgb: Option<seq<string>>,
    lightsXy: Option<seq<string>>,
    lightsBrightness: Option<seq<string>>,
    disableBrightnessAdjust: bool,
    minBrightness: int,
    maxBrightness: int,
    sleepEntity: Option<string>,
    sleepState: Option<string>,
    sleepColortemp: Option<int>,
    sleepBrightness: Option<int>,
    disableEntity: Option<string>,
    disableState: Option<string>)

  /** What the switch reads from the engine: `percent`, `colortemp` and `transition`. */
  datatype EngineData = EngineData(percent: real, colortemp: real, transition: Option<real>)

  /** A transition as handed to the light service: a number of seconds, or a string. */
  datatype Transition = Seconds(seconds: real) | TransitionKey(key: string)

  /** The switch's state attributes `hs_color` and `brightness`. */
  datatype Attributes = Attributes(hsColor: Option<Hs>, brightness: Option<real>)

  /**
    The exceptions the rules can raise: a configured entity the state machine
    does not know (its state is read off `None`), or sleep mode without a
    sleep colour temperature (a conversion of `None`).
   */
  datatype SwitchError = UnknownEntity(entity: string) | MissingSleepColortemp

  /** One `light.turn_on` call; an absent key of the service data is `None`. */
  datatype ServiceCall = TurnOnLight(
    entity: string,
    colorTemp: Option<int>,
    rgbColor: Option<(int, int, int)>,
    xyColor: Option<Xy>,
    brightness: Option<int>,
    whiteValue: Option<int>,
    transition: Option<Transition>)

  /** Python's `int()` on a float: truncation toward zero. */
  function Trunc(x: real): (n: int)
    ensures 0.0 <= x ==> n as real <= x < n as real + 1.0
    ensures x <= 0.0 ==> n as real - 1.0 < x <= n as real
  {
    if 0.0 <= x then x.Floor else -((-x).Floor)
  }

  // ---------------------------------------------------------------------------
  // The managed lights

  function Group(lights: Option<seq<string>>): seq<string>
  {
    if lights.Some? then lights.value else []
  }

  /** The lights of the four groups, in the order ct, rgb, xy, brightness. */
  function ManagedLights(cfg: SwitchConfig): seq<string>
  {
    Group(cfg.lightsCt) + Group(cfg.lightsRgb) + Group(cfg.lightsXy) + Group(cfg.lightsBrightness)
  }

  /** A light is managed exactly when one of the configured groups lists it. */
  lemma ManagedLightsMembership(cfg: SwitchConfig, light: string)
    ensures light in ManagedLights(cfg) <==>
            || (cfg.lightsCt.Some? && light in cfg.lightsCt.value)
            || (cfg.lightsRgb.Some? && light in cfg.lightsRgb.value)
            || (cfg.lightsXy.Some? && light in cfg.lightsXy.value)
            || (cfg.lightsBrightness.Some? && light in cfg.lightsBrightness.value)
  {
  }

  /** The list keeps each group whole and in place: ct lights first, brightness lights last. */
  lemma ManagedLightsLayout(cfg: SwitchConfig)
    ensures var all := ManagedLights(cfg);
            var nCt, nRgb, nXy := |Group(cfg.lightsCt)|, |Group(cfg.lightsRgb)|, |Group(cfg.lightsXy)|;
            && |all| == nCt + nRgb + nXy + |Group(cfg.lightsBrightness)|
            && all[..nCt] == Group(cfg.lightsCt)
            && all[nCt..nCt + nRgb] == Group(cfg.lightsRgb)
            && all[nCt + nRgb..nCt + nRgb + nXy] == Group(cfg.lightsXy)
            && all[nCt + nRgb + nXy..] == Group(cfg.lightsBrightness)
  {
  }

  // ---------------------------------------------------------------------------
  // Sleep mode and the colours

  /** `is_sleep`: a sleep entity is configured and its state is the sleep state. */
  function IsSleep(cfg: SwitchConfig, states: States): (r: Result<bool, SwitchError>)
    ensures cfg.sleepEntity.None? ==> r == Ok(false)
    ensures r.Err? <==> cfg.sleepEntity.Some? && cfg.sleepEntity.value !in states
    ensures r.Err? ==> r.error == UnknownEntity(cfg.sleepEntity.value)
    ensures r == Ok(true) ==> cfg.sleepState.Some?
    ensures cfg.sleepEntity.Some? && cfg.sleepEntity.value in states
            ==> r == Ok(cfg.sleepState == Some(states[cfg.sleepEntity.value]))
  {
    if cfg.sleepEntity.None? then Ok(false)
    else if cfg.sleepEntity.value !in states then Err(UnknownEntity(cfg.sleepEntity.value))
    else Ok(cfg.sleepState == Some(states[cfg.sleepEntity.value]))
  }

  /** The colour temperature `calc_ct` and `calc_rgb` convert: the sleep one while sleeping. */
  function SelectedColortemp(cfg: SwitchConfig, states: States, data: EngineData): Result<real, SwitchError>
  {
    var sleep :- IsSleep(cfg, states);
    if !sleep then Ok(data.colortemp)
    else if cfg.sleepColortemp.Some? then Ok(cfg.sleepColortemp.value as real)
    else Err(MissingSleepColortemp)
  }

  /** `calc_ct`: the selected colour temperature in mired. */
  function CalcCt(cfg: SwitchConfig, colors: ColorSpace, states: States, data: EngineData): (r: Result<real, SwitchError>)
    ensures r.Err? <==> SelectedColortemp(cfg, states, data).Err?
    ensures r.Ok? ==> r.value == colors.kelvinToMired(SelectedColortemp(cfg, states, data).value)
    ensures cfg.sleepEntity.None? ==> r == Ok(colors.kelvinToMired(data.colortemp))
  {
    var kelvin :- SelectedColortemp(cfg, states, data);
    Ok(colors.kelvinToMired(kelvin))
  }

  /** `calc_rgb`, and `calc_xy` and `calc_hs` built on it. */
  function CalcRgb(cfg: SwitchConfig, colors: ColorSpace, states: States, data: EngineData): (r: Result<Rgb, SwitchError>)
    ensures r.Err? <==> SelectedColortemp(cfg, states, data).Err?
    ensures r.Ok? ==> r.value == RgbOf(colors, SelectedColortemp(cfg, states, data).value)
    ensures cfg.sleepEntity.None? ==> r == Ok(RgbOf(colors, data.colortemp))
  {
    var kelvin :- SelectedColortemp(cfg, states, data);
    Ok(RgbOf(colors, kelvin))
  }

  function CalcXy(cfg: SwitchConfig, colors: ColorSpace, states: States, data: EngineData): (r: Result<Xy, SwitchError>)
    ensures r.Err? <==> SelectedColortemp(cfg, states, data).Err?
    ensures r.Ok? ==> r.value == XyOf(colors, SelectedColortemp(cfg, states, data).value)
    ensures cfg.sleepEntity.None? ==> r == Ok(XyOf(colors, data.colortemp))
  {
    var rgb :- CalcRgb(cfg, colors, states, data);
    Ok(colors.rgbToXy(rgb))
  }

  function CalcHs(cfg: SwitchConfig, colors: ColorSpace, states: States, data: EngineData): (r: Result<Hs, SwitchError>)
    ensures r.Err? <==> SelectedColortemp(cfg, states, data).Err?
    ensures r.Ok? ==> r.value == HsOf(colors, SelectedColortemp(cfg, states, data).value)
    ensures cfg.sleepEntity.None? ==> r == Ok(HsOf(colors, data.colortemp))
  {
    var xy :- CalcXy(cfg, colors, states, data);
    Ok(colors.xyToHs(xy))
  }

  /**
    Awake, the switch's colours are the engine's colours for the engine's
    colour temperature; asleep, they come from the sleep colour temperature
    (or fail when there is none).
   */
  lemma ColorsFollowSleepMode(cfg: SwitchConfig, colors: ColorSpace, states: States, data: EngineData)
    ensures IsSleep(cfg, states) == Ok(false) ==>
              && CalcCt(cfg, colors, states, data) == Ok(colors.kelvinToMired(data.colortemp))
              && CalcRgb(cfg, colors, states, data) == Ok(RgbOf(colors, data.colortemp))
              && CalcHs(cfg, colors, states, data) == Ok(HsOf(colors, data.colortemp))
    ensures IsSleep(cfg, states) == Ok(true) && cfg.sleepColortemp.Some? ==>
              && CalcCt(cfg, colors, states, data) == Ok(colors.kelvinToMired(cfg.sleepColortemp.value as real))
              && CalcRgb(cfg, colors, states, data) == Ok(RgbOf(colors, cfg.sleepColortemp.value as real))
              && CalcHs(cfg, colors, states, data) == Ok(HsOf(colors, cfg.sleepColortemp.value as real))
    ensures IsSleep(cfg, states) == Ok(true) && cfg.sleepColortemp.None? ==>
              && CalcCt(cfg, colors, states, data) == Err(MissingSleepColortemp)
              && CalcHs(cfg, colors, states, data) == Err(MissingSleepColortemp)
    ensures cfg.sleepEntity.Some? && cfg.sleepEntity.value !in states ==>
              && CalcCt(cfg, colors, states, data) == Err(UnknownEntity(cfg.sleepEntity.value))
              && CalcHs(cfg, colors, states, data) == Err(UnknownEntity(cfg.sleepEntity.value))
  {
  }

  /** While sleeping, the engine's data has no say in the colours. */
  lemma SleepIgnoresEngine(cfg: SwitchConfig, colors: ColorSpace, states: States, d1: EngineData, d2: EngineData)
    requires IsSleep(cfg, states) == Ok(true)
    ensures CalcCt(cfg, colors, states, d1) == CalcCt(cfg, colors, states, d2)
    ensures CalcRgb(cfg, colors, states, d1) == CalcRgb(cfg, colors, states, d2)
    ensures CalcHs(cfg, colors, states, d1) == CalcHs(cfg, colors, states, d2)
  {
  }

  // ---------------------------------------------------------------------------
  // Brightness

  /** The brightness on the night side: `min` at -100 percent rising linearly to `max` at 0. */
  function NightBrightness(minB: int, maxB: int, percent: real): (b: real)
    ensures percent == -100.0 ==> b == minB as real
    ensures percent == 0.0 ==> b == maxB as real
  {
    (maxB - minB) as real * ((100.0 + percent) / 100.0) + minB as real
  }

  /** `calc_brightness`, on the engine's percent. */
  function CalcBrightness(cfg: SwitchConfig, states: States, percent: real): (r: Result<Option<real>, SwitchError>)
    ensures cfg.disableBrightnessAdjust ==> r == Ok(None)
    ensures !cfg.disableBrightnessAdjust ==> (r.Err? <==> IsSleep(cfg, states).Err?)
    ensures !cfg.disableBrightnessAdjust && IsSleep(cfg, states) == Ok(false) ==> r.Ok? && r.value.Some?
  {
    if cfg.disableBrightnessAdjust then Ok(None)
    else
      var sleep :- IsSleep(cfg, states);
      if sleep then
        Ok(if cfg.sleepBrightness.Some? then Some(cfg.sleepBrightness.value as real) else None)
      else if percent > 0.0 then Ok(Some(cfg.maxBrightness as real))
      else Ok(Some(NightBrightness(cfg.minBrightness, cfg.maxBrightness, percent)))
  }

  lemma NightBrightnessMonotone(minB: int, maxB: int, p1: real, p2: real)
    requires minB <= maxB && p1 <= p2
    ensures NightBrightness(minB, maxB, p1) <= NightBrightness(minB, maxB, p2)
  {
    var delta := (maxB - minB) as real;
    calc {
      NightBrightness(minB, maxB, p1);
      delta * ((100.0 + p1) / 100.0) + minB as real;
    <= { Interpolation.ScaleAtMostLeft(delta, (100.0 + p1) / 100.0, (100.0 + p2) / 100.0); }
      delta * ((100.0 + p2) / 100.0) + minB as real;
      NightBrightness(minB, maxB, p2);
    }
  }

  /**
    Awake, the brightness is `max` for a positive percent, follows the night
    formula otherwise, and never leaves `[min, max]` over the engine's range.
   */
  lemma AwakeBrightness(cfg: SwitchConfig, states: States, percent: real)
    requires !cfg.disableBrightnessAdjust && IsSleep(cfg, states) == Ok(false)
    requires cfg.minBrightness <= cfg.maxBrightness && -100.0 <= percent <= 100.0
    ensures var r := CalcBrightness(cfg, states, percent);
            && r.Ok? && r.value.Some?
            && cfg.minBrightness as real <= r.value.value <= cfg.maxBrightness as real
            && (0.0 <= percent ==> r.value.value == cfg.maxBrightness as real)
            && (percent == -100.0 ==> r.value.value == cfg.minBrightness as real)
  {
    if percent <= 0.0 {
      NightBrightnessMonotone(cfg.minBrightness, cfg.maxBrightness, -100.0, percent);
      NightBrightnessMonotone(cfg.minBrightness, cfg.maxBrightness, percent, 0.0);
    }
  }

  /** Awake, a higher percent never gives a dimmer light, across the switch at 0 too. */
  lemma AwakeBrightnessMonotone(cfg: SwitchConfig, states: States, p1: real, p2: real)
    requires !cfg.disableBrightnessAdjust && IsSleep(cfg, states) == Ok(false)
    requires cfg.minBrightness <= cfg.maxBrightness && -100.0 <= p1 <= p2 <= 100.0
    ensures CalcBrightness(cfg, states, p1).value.value <= CalcBrightness(cfg, states, p2).value.value
  {
    AwakeBrightness(cfg, states, p1);
    AwakeBrightness(cfg, states, p2);
    if p2 <= 0.0 {
      NightBrightnessMonotone(cfg.minBrightness, cfg.maxBrightness, p1, p2);
    }
  }

  /** Asleep, the brightness is the sleep brightness whatever the percent. */
  lemma SleepBrightness(cfg: SwitchConfig, states: States, percent: real)
    requires !cfg.disableBrightnessAdjust && IsSleep(cfg, states) == Ok(true)
    ensures CalcBrightness(cfg, states, percent)
            == Ok(if cfg.sleepBrightness.Some? then Some(cfg.sleepBrightness.value as real) else None)
  {
  }

  /** The brightness percent scaled to the light service's 0..254 by `int(b / 100 * 254)`. */
  function ServiceBrightness(b: Option<real>): (r: Option<int>)
    ensures r.Some? <==> b.Some?
  {
    if b.Some? then Some(Trunc(b.value / 100.0 * 254.0)) else None
  }

  lemma ServiceBrightnessRange(b: real)
    requires 0.0 <= b <= 100.0
    ensures var r := ServiceBrightness(Some(b)).value;
            && 0 <= r <= 254
            && (b == 100.0 ==> r == 254)
            && (b == 0.0 ==> r == 0)
  {
  }

  lemma ServiceBrightnessMonotone(b1: real, b2: real)
    requires 0.0 <= b1 <= b2
    ensures ServiceBrightness(Some(b1)).value <= ServiceBrightness(Some(b2)).value
  {
  }

  // ---------------------------------------------------------------------------
  // The adjust gate and the service calls

  /** `should_adjust`: on, with engine data, and not held off by the disable entity. */
  function ShouldAdjust(cfg: SwitchConfig, state: Option<bool>, data: Option<EngineData>, states: States)
    : (r: Result<bool, SwitchError>)
    ensures r == Ok(true) ==> state == Some(true) && data.Some?
    ensures r.Err? ==> && cfg.disableEntity.Some? && cfg.disableEntity.value !in states
                       && r.error == UnknownEntity(cfg.disableEntity.value)
  {
    if state != Some(true) then Ok(false)
    else if data.None? then Ok(false)
    else if cfg.disableEntity.None? then Ok(true)
    else if cfg.disableEntity.value !in states then Err(UnknownEntity(cfg.disableEntity.value))
    else Ok(cfg.disableState != Some(states[cfg.disableEntity.value]))
  }

  /** No disable entity is configured, or it is known and not in the disable state. */
  predicate NotDisabled(cfg: SwitchConfig, states: States)
  {
    cfg.disableEntity.None? ||
    (cfg.disableEntity.value in states && cfg.disableState != Some(states[cfg.disableEntity.value]))
  }

  /** The gate opens exactly when all three conditions hold, and fails only on an unknown disable entity. */
  lemma ShouldAdjustIff(cfg: SwitchConfig, state: Option<bool>, data: Option<EngineData>, states: States)
    ensures ShouldAdjust(cfg, state, data, states) == Ok(true)
            <==> state == Some(true) && data.Some? && NotDisabled(cfg, states)
    ensures ShouldAdjust(cfg, state, data, states).Err?
            <==> state == Some(true) && data.Some? && cfg.disableEntity.Some? && cfg.disableEntity.value !in states
  {
  }

  /** `is_on`: the light is known and its state is on. */
  predicate IsOn(states: States, light: string)
  {
    light in states && states[light] == STATE_ON
  }

  /** The service data computed once per adjustment, before the loop over the lights. */
  datatype Plan = Plan(
    mired: Option<int>,
    rgb: Option<(int, int, int)>,
    xy: Option<Xy>,
    brightness: Option<int>,
    transition: Option<Transition>)

  function MiredFor(cfg: SwitchConfig, colors: ColorSpace, states: States, data: EngineData)
    : Result<Option<int>, SwitchError>
  {
    if cfg.lightsCt.None? then Ok(None)
    else
      var mired :- CalcCt(cfg, colors, states, data);
      Ok(Some(Trunc(mired)))
  }

  function RgbFor(cfg: SwitchConfig, colors: ColorSpace, states: States, data: EngineData)
    : Result<Option<(int, int, int)>, SwitchError>
  {
    if cfg.lightsRgb.None? then Ok(None)
    else
      var rgb :- CalcRgb(cfg, colors, states, data);
      Ok(Some((Trunc(rgb.r), Trunc(rgb.g), Trunc(rgb.b))))
  }

  function XyFor(cfg: SwitchConfig, colors: ColorSpace, states: States, data: EngineData)
    : Result<Option<Xy>, SwitchError>
  {
    if cfg.lightsXy.None? then Ok(None)
    else
      var xy :- CalcXy(cfg, colors, states, data);
      Ok(Some(xy))
  }

  /**
    The values `adjust_lights` computes before its loop, in its order:
    the transition, the scaled brightness, then mired, RGB and xy for the
    groups that are configured.
   */
  function PlanFor(cfg: SwitchConfig, colors: ColorSpace, attributes: Attributes, data: EngineData,
                   states: States, transition: Option<Transition>): (r: Result<Plan, SwitchError>)
    ensures r.Ok? ==> r.value.brightness == ServiceBrightness(attributes.brightness)
    ensures r.Ok? && transition.Some? ==> r.value.transition == transition
    ensures r.Ok? && transition.None? && data.transition.Some?
            ==> r.value.transition == Some(Seconds(data.transition.value))
    ensures r.Ok? ==> (r.value.mired.Some? <==> cfg.lightsCt.Some?)
    ensures r.Ok? ==> (r.value.rgb.Some? <==> cfg.lightsRgb.Some?)
    ensures r.Ok? ==> (r.value.xy.Some? <==> cfg.lightsXy.Some?)
    ensures r.Ok? && transition.None? && data.transition.None? ==> r.value.transition == None
    ensures r.Ok? && cfg.lightsCt.Some? ==>
              CalcCt(cfg, colors, states, data).Ok? && r.value.mired == Some(Trunc(CalcCt(cfg, colors, states, data).value))
    ensures r.Ok? && cfg.lightsRgb.Some? ==>
              && CalcRgb(cfg, colors, states, data).Ok?
              && var rgb := CalcRgb(cfg, colors, states, data).value;
                 r.value.rgb == Some((Trunc(rgb.r), Trunc(rgb.g), Trunc(rgb.b)))
    ensures r.Ok? && cfg.lightsXy.Some? ==>
              CalcXy(cfg, colors, states, data).Ok? && r.value.xy == Some(CalcXy(cfg, colors, states, data).value)
    ensures r.Err? <==> && (cfg.lightsCt.Some? || cfg.lightsRgb.Some? || cfg.lightsXy.Some?)
                        && SelectedColortemp(cfg, states, data).Err?
    ensures r.Err? ==> r.error == SelectedColortemp(cfg, states, data).error
  {
    var tr := if transition.Some? then transition
              else if data.transition.Some? then Some(Seconds(data.transition.value))
              else None;
    var brightness := ServiceBrightness(attributes.brightness);
    var mired :- MiredFor(cfg, colors, states, data);
    var rgb :- RgbFor(cfg, colors, states, data);
    var xy :- XyFor(cfg, colors, states, data);
    Ok(Plan(mired, rgb, xy, brightness, tr))
  }

  function InGroup(group: Option<seq<string>>, light: string): bool
  {
    group.Some? && light in group.value
  }

  /** How many of the four groups list `light`. */
  function GroupsListing(cfg: SwitchConfig, light: string): nat
  {
    (if InGroup(cfg.lightsCt, light) then 1 else 0) + (if InGroup(cfg.lightsRgb, light) then 1 else 0)
    + (if InGroup(cfg.lightsXy, light) then 1 else 0) + (if InGroup(cfg.lightsBrightness, light) then 1 else 0)
  }

  /**
    The calls for one light: one per group that lists it, in the order ct,
    rgb, xy, brightness, if it is on. Every call targets that light with the
    planned brightness and transition.
   */
  function LightCalls(cfg: SwitchConfig, states: States, plan: Plan, light: string): (r: seq<ServiceCall>)
    ensures |r| == if IsOn(states, light) then GroupsListing(cfg, light) else 0
    ensures forall c :: c in r ==> c.entity == light && c.brightness == plan.brightness && c.transition == plan.transition
  {
    var on := IsOn(states, light);
    (if InGroup(cfg.lightsCt, light) && on
     then [TurnOnLight(light, plan.mired, None, None, plan.brightness, None, plan.transition)] else [])
    + (if InGroup(cfg.lightsRgb, light) && on
       then [TurnOnLight(light, None, plan.rgb, None, plan.brightness, None, plan.transition)] else [])
    + (if InGroup(cfg.lightsXy, light) && on
       then [TurnOnLight(light, None, None, plan.xy, plan.brightness, plan.brightness, plan.transition)] else [])
    + (if InGroup(cfg.lightsBrightness, light) && on
       then [TurnOnLight(light, None, None, None, plan.brightness, None, plan.transition)] else [])
  }

  /** The calls of the loop over `lights`, light by light. */
  function CallsFor(cfg: SwitchConfig, states: States, plan: Plan, lights: seq<string>): (r: seq<ServiceCall>)
    ensures |r| <= 4 * |lights|
  {
    if lights == [] then []
    else CallsFor(cfg, states, plan, lights[..|lights| - 1]) + LightCalls(cfg, states, plan, lights[|lights| - 1])
  }

  /** `adjust_lights`: nothing when the gate is closed, otherwise the calls for every light. */
  function Adjustment(cfg: SwitchConfig, colors: ColorSpace, state: Option<bool>, attributes: Attributes,
                      lights: seq<string>, data: Option<EngineData>, states: States,
                      transition: Option<Transition>): (r: Result<seq<ServiceCall>, SwitchError>)
    ensures ShouldAdjust(cfg, state, data, states) == Ok(false) ==> r == Ok([])
    ensures r.Ok? && r.value != [] ==> state == Some(true) && data.Some? && NotDisabled(cfg, states)
    ensures r.Ok? ==> forall c :: c in r.value ==> c.entity in lights && IsOn(states, c.entity)
    ensures r.Err? ==> || (cfg.disableEntity.Some? && cfg.disableEntity.value !in states)
                       || (data.Some? && SelectedColortemp(cfg, states, data.value).Err?)
  {
    var adjust :- ShouldAdjust(cfg, state, data, states);
    if !adjust then Ok([])
    else
      var plan :- PlanFor(cfg, colors, attributes, data.value, states, transition);
      CallsReachOnlyOnLights(cfg, states, plan, lights);
      Ok(CallsFor(cfg, states, plan, lights))
  }

  /**
    Every call goes to a light of the list that is on, with the planned
    brightness and transition.
   */
  lemma {:induction false} CallsReachOnlyOnLights(cfg: SwitchConfig, states: States, plan: Plan, lights: seq<string>)
    ensures forall c :: c in CallsFor(cfg, states, plan, lights) ==>
              && c.entity in lights && IsOn(states, c.entity)
              && c.brightness == plan.brightness && c.transition == plan.transition
  {
    if lights != [] {
      var init, last := lights[..|lights| - 1], lights[|lights| - 1];
      CallsReachOnlyOnLights(cfg, states, plan, init);
      assert lights == init + [last];
      assert CallsFor(cfg, states, plan, lights)
             == CallsFor(cfg, states, plan, init) + LightCalls(cfg, states, plan, last);
    }
  }

  /** An on light listed in a group gets that group's call, carrying the group's colour. */
  lemma {:induction false} GroupMemberIsAdjusted(cfg: SwitchConfig, states: States, plan: Plan,
                                                 lights: seq<string>, light: string)
    requires light in lights && IsOn(states, light)
    ensures InGroup(cfg.lightsCt, light) ==>
              TurnOnLight(light, plan.mired, None, None, plan.brightness, None, plan.transition)
              in CallsFor(cfg, states, plan, lights)
    ensures InGroup(cfg.lightsRgb, light) ==>
              TurnOnLight(light, None, plan.rgb, None, plan.brightness, None, plan.transition)
              in CallsFor(cfg, states, plan, lights)
    ensures InGroup(cfg.lightsXy, light) ==>
              TurnOnLight(light, None, None, plan.xy, plan.brightness, plan.brightness, plan.transition)
              in CallsFor(cfg, states, plan, lights)
    ensures InGroup(cfg.lightsBrightness, light) ==>
              TurnOnLight(light, None, None, None, plan.brightness, None, plan.transition)
              in CallsFor(cfg, states, plan, lights)
  {
    var init := lights[..|lights| - 1];
    if light != lights[|lights| - 1] {
      assert light in init by {
        var i :| 0 <= i < |lights| && lights[i] == light;
        assert init[i] == light;
      }
      GroupMemberIsAdjusted(cfg, states, plan, init, light);
    }
  }

  /**
    End to end: an on light of the list gets, for each of its colour groups,
    a call carrying the colour of the selected colour temperature (the
    engine's awake, the sleep one asleep), the scaled brightness and the
    transition in force.
   */
  lemma OnLightGetsSelectedColour(cfg: SwitchConfig, colors: ColorSpace, attributes: Attributes,
                                  lights: seq<string>, data: EngineData, states: States,
                                  transition: Option<Transition>, light: string)
    requires NotDisabled(cfg, states) && SelectedColortemp(cfg, states, data).Ok?
    requires light in lights && IsOn(states, light)
    ensures var r := Adjustment(cfg, colors, Some(true), attributes, lights, Some(data), states, transition);
            var kelvin := SelectedColortemp(cfg, states, data).value;
            var b := ServiceBrightness(attributes.brightness);
            var tr := if transition.Some? then transition
                      else if data.transition.Some? then Some(Seconds(data.transition.value)) else None;
            var rgb := RgbOf(colors, kelvin);
            && r.Ok?
            && (InGroup(cfg.lightsCt, light) ==>
                  TurnOnLight(light, Some(Trunc(colors.kelvinToMired(kelvin))), None, None, b, None, tr) in r.value)
            && (InGroup(cfg.lightsRgb, light) ==>
                  TurnOnLight(light, None, Some((Trunc(rgb.r), Trunc(rgb.g), Trunc(rgb.b))), None, b, None, tr)
                  in r.value)
            && (InGroup(cfg.lightsXy, light) ==>
                  TurnOnLight(light, None, None, Some(XyOf(colors, kelvin)), b, b, tr) in r.value)
  {
    ShouldAdjustIff(cfg, Some(true), Some(data), states);
    var plan := PlanFor(cfg, colors, attributes, data, states, transition);
    assert plan.Ok?;
    GroupMemberIsAdjusted(cfg, states, plan.value, lights, light);
  }

  /** A switch that is not on, or has no engine data, sends nothing and cannot fail. */
  lemma NoCallsWhenOff(cfg: SwitchConfig, colors: ColorSpace, state: Option<bool>, attributes: Attributes,
                       lights: seq<string>, data: Option<EngineData>, states: States,
                       transition: Option<Transition>)
    requires state != Some(true) || data.None?
    ensures Adjustment(cfg, colors, state, attributes, lights, data, states, transition) == Ok([])
  {
  }

  /** The disable entity in its disable state holds every light back. */
  lemma NoCallsWhenDisabled(cfg: SwitchConfig, colors: ColorSpace, state: Option<bool>, attributes: Attributes,
                            lights: seq<string>, data: Option<EngineData>, states: States,
                            transition: Option<Transition>)
    requires cfg.disableEntity.Some? && cfg.disableEntity.value in states
    requires cfg.disableState == Some(states[cfg.disableEntity.value])
    ensures Adjustment(cfg, colors, state, attributes, lights, data, states, transition) == Ok([])
  {
  }

  /**
    What `update_switch` stores before adjusting: with engine data, the new
    colour (attribute and field) and then the new brightness.
   */
  function UpdatedAttributes(cfg: SwitchConfig, colors: ColorSpace, attributes: Attributes,
                             data: Option<EngineData>, states: States): (r: Result<Attributes, SwitchError>)
    ensures data.None? ==> r == Ok(attributes)
    ensures data.Some? ==>
              (r.Ok? <==> CalcHs(cfg, colors, states, data.value).Ok?
                          && CalcBrightness(cfg, states, data.value.percent).Ok?)
    ensures data.Some? && r.Ok? ==>
              && r.value.hsColor == Some(CalcHs(cfg, colors, states, data.value).value)
              && r.value.brightness == CalcBrightness(cfg, states, data.value.percent).value
  {
    if data.None? then Ok(attributes)
    else
      var hs :- CalcHs(cfg, colors, states, data.value);
      var brightness :- CalcBrightness(cfg, states, data.value.percent);
      Ok(Attributes(Some(hs), brightness))
  }

  /**
    The brightness can fail only where the colour already has, so an update
    that fails has stored nothing, and one whose colour succeeds stores both.
   */
  lemma UpdateFailsBeforeStoring(cfg: SwitchConfig, colors: ColorSpace, attributes: Attributes,
                                 data: EngineData, states: States)
    ensures CalcBrightness(cfg, states, data.percent).Err? ==> CalcHs(cfg, colors, states, data).Err?
    ensures UpdatedAttributes(cfg, colors, attributes, Some(data), states).Err?
            <==> CalcHs(cfg, colors, states, data).Err?
  {
  }

  class CircadianSwitch {
    const config: SwitchConfig
    const colors: ColorSpace

    /** `None` until restored or switched; `Some(true)` when on. */
    var state: Option<bool>
    var hsColor: Option<Hs>
    var attributes: Attributes
    var lights: seq<string>

    /** The `hs_color` attribute mirrors the colour, and the lights are the configured groups. */
    ghost predicate Valid()
      reads this
    {
      attributes.hsColor == hsColor && lights == ManagedLights(config)
    }

    /** `__init__`: no state yet, empty attributes, and the groups appended one by one. */
    constructor (config: SwitchConfig, colors: ColorSpace)
      ensures Valid()
      ensures this.config == config && this.colors == colors
      ensures state == None && hsColor == None && attributes == Attributes(None, None)
    {
      this.config := config;
      this.colors := colors;
      state := None;
      hsColor := None;
      attributes := Attributes(None, None);
      var all: seq<string> := [];
      if config.lightsCt.Some? {
        all := all + config.lightsCt.value;
      }
      if config.lightsRgb.Some? {
        all := all + config.lightsRgb.value;
      }
      if config.lightsXy.Some? {
        all := all + config.lightsXy.value;
      }
      if config.lightsBrightness.Some? {
        all := all + config.lightsBrightness.value;
      }
      lights := all;
    }

    /** `turn_on`: on, then an update with the configuration key as transition. */
    method TurnOn(data: Option<EngineData>, states: States) returns (r: Result<seq<ServiceCall>, SwitchError>)
      requires Valid()
      modifies this
      ensures Valid()
      ensures state == Some(true) && lights == old(lights)
      ensures var next := UpdatedAttributes(config, colors, old(attributes), data, states);
              && (next.Err? ==> r == Err(next.error))
              && (next.Ok? ==> attributes == next.value
                               && r == Adjustment(config, colors, state, attributes, lights, data, states,
                                                  Some(TransitionKey(INITIAL_TRANSITION_KEY))))
      ensures data.Some? && CalcHs(config, colors, states, data.value).Err?
              ==> attributes == old(attributes) && hsColor == old(hsColor)
    {
      state := Some(true);
      r := UpdateSwitch(data, states, Some(TransitionKey(INITIAL_TRANSITION_KEY)));
    }

    /** `turn_off`: off, and the colour and both attributes cleared. */
    method TurnOff()
      requires Valid()
      modifies this
      ensures Valid()
      ensures state == Some(false) && hsColor == None && attributes == Attributes(None, None)
      ensures lights == old(lights)
    {
      state := Some(false);
      hsColor := None;
      attributes := Attributes(None, None);
    }

    /**
      `update_switch`: with engine data, the colour and both attributes are
      recomputed; then the lights are adjusted. An exception while
      recomputing leaves everything as it was and adjusts nothing.
     */
    method UpdateSwitch(data: Option<EngineData>, states: States, transition: Option<Transition>)
      returns (r: Result<seq<ServiceCall>, SwitchError>)
      requires Valid()
      modifies this
      ensures Valid()
      ensures state == old(state) && lights == old(lights)
      ensures var next := UpdatedAttributes(config, colors, old(attributes), data, states);
              && (next.Err? ==> r == Err(next.error))
              && (next.Ok? ==> attributes == next.value
                               && r == Adjustment(config, colors, state, attributes, lights, data, states, transition))
      ensures data.Some? && CalcHs(config, colors, states, data.value).Err?
              ==> attributes == old(attributes) && hsColor == old(hsColor)
    {
      if data.Some? {
        var hs := CalcHs(config, colors, states, data.value);
        if hs.Err? {
          return Err(hs.error);
        }
        hsColor := Some(hs.value);
        attributes := attributes.(hsColor := hsColor);
        var brightness := CalcBrightness(config, states, data.value.percent);
        if brightness.Err? {
          return Err(brightness.error);
        }
        attributes := attributes.(brightness := brightness.value);
      }
      r := AdjustLights(lights, data, states, transition);
    }

    /** `adjust_lights`: the gate, the plan, then the loop over the lights. */
    method AdjustLights(lights: seq<string>, data: Option<EngineData>, states: States, transition: Option<Transition>)
      returns (r: Result<seq<ServiceCall>, SwitchError>)
      ensures r == Adjustment(config, colors, state, attributes, lights, data, states, transition)
    {
      var adjust := ShouldAdjust(config, state, data, states);
      if adjust.Err? {
        return Err(adjust.error);
      }
      if !adjust.value {
        return Ok([]);
      }
      var plan := PlanFor(config, colors, attributes, data.value, states, transition);
      if plan.Err? {
        return Err(plan.error);
      }
      var calls: seq<ServiceCall> := [];
      for i := 0 to |lights|
        invariant calls == CallsFor(config, states, plan.value, lights[..i])
      {
        assert lights[..i + 1][..i] == lights[..i];
        calls := calls + LightCalls(config, states, plan.value, lights[i]);
      }
      assert lights[..|lights|] == lights;
      r := Ok(calls);
    }
  }
}
