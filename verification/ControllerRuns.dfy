/** Whole runs of the controller: each part runs as its own machine, and what that means for the pins. */
module ControllerRuns {
  import opened Options
  import opened WeatherCurve
  import opened Schedule
  import opened Relays
  import opened Heating
  import opened Controller
  import Ticks
  import Autofill
  import Valves
  import Well
  import Legionella
  import AlarmLamps
  import HeatingRuns

  /** `ss` are the states before and after each of the events `es`, from a first boot without a stored lockout on. */
  predicate IsRun(es: seq<Event>, ss: seq<Ctl>) {
    && |ss| == |es| + 1 && ss[0].Valid() && ss[0] == Booted(ss[0].settings, false)
    && forall k :: 0 <= k < |es| ==> ss[k].Valid() && Possible(ss[k], es[k]) && ss[k + 1] == Next(ss[k], es[k])
  }

  function Stamps(es: seq<Event>): (ts: seq<Ticks.Stamp>)
    ensures |ts| == |es| && forall k :: 0 <= k < |es| ==> ts[k] == es[k].Stamp()
  {
    seq(|es|, k requires 0 <= k < |es| => es[k].Stamp())
  }

  /** The tick runs at least every `gap` ms. */
  predicate Ticked(es: seq<Event>, gap: nat) { Ticks.Ticked(Stamps(es), gap) }

  // ---- What each phase of a cycle touches ----

  /** Everything the first phase leaves alone. */
  predicate SameWater(c: Ctl, d: Ctl) {
    && d.settings == c.settings && d.weather == c.weather
    && d.fill == c.fill && d.teh == c.teh && d.radValve == c.radValve && d.floorValve == c.floorValve
    && d.well == c.well && d.hotPump == c.hotPump
  }

  predicate SameSafety(c: Ctl, d: Ctl) { d.overtemp == c.overtemp && d.noHeat == c.noHeat && d.lamps == c.lamps }

  predicate SameSenses(c: Ctl, d: Ctl) {
    && d.boilerLoss == c.boilerLoss && d.tankLoss == c.tankLoss && d.floorLoss == c.floorLoss
    && d.pressureZero == c.pressureZero && d.frost == c.frost && d.alm == c.alm && d.ihbHeating == c.ihbHeating
  }

  /** The state when the burner is decided: sensed and disinfecting, burner and pumps as the last cycle left them. */
  function Sensed(c: Ctl, i: Inputs): (d: Ctl)
    requires c.Valid()
    ensures d.Valid()
  {
    Disinfect(Sense(c, i), i)
  }

  function TargetOf(d: Ctl, now: nat): real
    requires d.Valid()
  {
    AutoTarget(d.settings.boiler, HeatDemand(d, now))
  }

  lemma SensedParts(c: Ctl, i: Inputs)
    requires c.Valid()
    ensures var d := Sensed(c, i);
            && SameWater(c, d) && SameSafety(c, d) && d.burner == c.burner && d.pumps == c.pumps
            && d.frost == UpdateFrost(c.frost, Lowest(SupplyReadings(i.temps)))
            && d.pressureZero == (i.heating.Some? && i.heating.value < Autofill.PRESSURE_ZERO_BAR)
            && d.boilerLoss == Miss(c.boilerLoss, i.temps.boiler) && d.floorLoss == Miss(c.floorLoss, i.temps.floor)
            && d.alm == Legionella.UpdateAlm(c.alm, c.settings.alm, i.clock, i.temps.tank, i.now)
  {
    hide UpdateFrost, Lowest, Miss, NightNow, Legionella.UpdateAlm, IhbTarget;
  }

  lemma HeatParts(c: Ctl, i: Inputs)
    requires c.Valid()
    ensures var e, d := Sensed(c, i), HeatPhase(c, i);
            && SameWater(e, d) && SameSafety(e, d) && SameSenses(e, d)
            && d.burner == UpdateBurner(e.burner, e.settings.boiler, i.temps.boiler, e.boilerLoss.lost,
                                        MildOutside(e.weather, i.now), Forced(e), TargetOf(e, i.now), i.now)
            && d.pumps == UpdatePumps(e.pumps, e.settings.tank, e.settings.rad, e.settings.floor, i.temps.tank,
                                      IhbTarget(e), e.ihbHeating)
  {
    hide Disinfect, Sense, UpdateBurner, AutoTarget, HeatDemand, UpdatePumps, MildOutside, Legionella.TankTarget;
  }

  lemma WaterParts(c: Ctl, i: Inputs)
    requires c.Valid()
    ensures var d := WaterPhase(c, i);
            && d.settings == c.settings && d.weather == c.weather && d.burner == c.burner && d.pumps == c.pumps
            && SameSenses(c, d) && SameSafety(c, d)
            && d.fill == Autofill.UpdateFill(c.fill, c.settings.fill.enabled, c.settings.fill.pMin, i.heating, i.now)
            && d.teh == UpdateTeh(c.teh, c.settings.tank, i.temps.tank, IhbTarget(c), i.temps.boiler, c.burner.on,
                                  c.pumps.ihb, c.ihbHeating, i.now)
            && d.well == Well.UpdateWell(c.well, c.settings.water.pump, i.water, i.now)
            && d.hotPump == (c.settings.water.hotPump && RecircWindow(c.settings.water, i.clock))
            && d.radValve == Valves.Drive(c.radValve, RadTarget(c, i.now), i.temps.rad, c.pumps.rad || Forced(c), i.now)
            && d.floorValve == Valves.Drive(c.floorValve, FlrTarget(c, i.now), i.temps.floor,
                                            (c.pumps.floor || Forced(c)) && !c.floorLoss.lost, i.now)
  {
    hide Autofill.UpdateFill, UpdateTeh, Valves.Drive, RadiatorTarget, FloorTarget, Well.UpdateWell, RecircWindow,
         Legionella.TankTarget;
  }

  lemma SafetyParts(c: Ctl, i: Inputs)
    requires c.Valid()
    ensures var d := SafetyPhase(c, i);
            && d.settings == c.settings && d.weather == c.weather && SameSenses(c, d)
            && d.radValve == c.radValve && d.floorValve == c.floorValve && d.well == c.well && d.teh == c.teh
            && d.hotPump == c.hotPump
            && d.noHeat == UpdateNoHeat(c.noHeat, c.settings.boiler, d.burner.on, i.temps.boiler, d.burner.autoTarget,
                                        i.now)
            && d.overtemp == Overtemp(c.settings.boiler, i.temps.boiler)
            && d.fill == Autofill.Interlocked(c.fill, i.now)
            && d.pumps == InterlockedPumps(c.pumps, c.frost, c.pressureZero, c.floorLoss.lost)
            && d.burner == c.burner.(on := InterlockedBoiler(c.burner.on, c.settings.boiler, i.temps.boiler, c.frost,
                                                             c.pressureZero, c.boilerLoss.lost,
                                                             MildOutside(c.weather, i.now)))
            && d.lamps == AlarmLamps.UpdateLamps(c.lamps, d.lamps.causes, d.lamps.warning, i.now)
  {
    hide Autofill.Interlocked, InterlockedBoiler, InterlockedPumps, UpdateNoHeat, Causes, Warned, MildOutside, Overtemp;
  }

  predicate SameNight(c: Ctl, d: Ctl) {
    && d.settings == c.settings && d.nightRad == c.nightRad && d.nightFloor == c.nightFloor
    && d.tankLoss == c.tankLoss && d.ihbHeating == c.ihbHeating && d.alm == c.alm
  }

  lemma NightAfterSensed(c: Ctl, i: Inputs)
    requires c.Valid()
    ensures SameNight(Sensed(c, i), HeatPhase(c, i))
  {
    hide Disinfect, Sense, UpdateBurner, AutoTarget, HeatDemand, UpdatePumps, MildOutside, Legionella.TankTarget;
  }

  lemma NightAfterHeat(c: Ctl, i: Inputs)
    requires c.Valid()
    ensures SameNight(c, SafetyPhase(WaterPhase(c, i), i))
  {
    var d := WaterPhase(c, i);
    assert SameNight(c, d) by {
      hide Autofill.UpdateFill, UpdateTeh, Valves.Drive, RadiatorTarget, FloorTarget, Well.UpdateWell, RecircWindow,
           Legionella.TankTarget;
    }
    assert SameNight(d, SafetyPhase(d, i)) by {
      hide WaterPhase, Autofill.Interlocked, InterlockedBoiler, InterlockedPumps, UpdateNoHeat, Causes, Warned,
           MildOutside, Overtemp, AlarmLamps.UpdateLamps;
    }
  }

  /** What a cycle senses besides: the nights, the tank's sensor, and whether the tank wants heat. */
  lemma NightParts(c: Ctl, i: Inputs)
    requires c.Valid()
    ensures var d := Cycle(c, i);
            && d.nightRad == NightNow(c.settings.rad.night, i.clock)
            && d.nightFloor == NightNow(c.settings.floor.night, i.clock)
            && d.tankLoss == Miss(c.tankLoss, i.temps.tank)
            && d.ihbHeating == (i.temps.tank.Some? && i.temps.tank.value < IhbTarget(d))
  {
    NightAfterSensed(c, i);
    NightAfterHeat(HeatPhase(c, i), i);
    assert Cycle(c, i) == SafetyPhase(WaterPhase(HeatPhase(c, i), i), i);
    NightSensed(c, i);
    hide Sensed, HeatPhase, WaterPhase, SafetyPhase, Cycle, NightNow, Miss;
  }

  lemma NightSensed(c: Ctl, i: Inputs)
    requires c.Valid()
    ensures var d := Sensed(c, i);
            && d.settings == c.settings
            && d.nightRad == NightNow(c.settings.rad.night, i.clock)
            && d.nightFloor == NightNow(c.settings.floor.night, i.clock)
            && d.tankLoss == Miss(c.tankLoss, i.temps.tank)
            && d.ihbHeating == (i.temps.tank.Some? && i.temps.tank.value < IhbTarget(d))
  {
    hide UpdateFrost, Lowest, Miss, NightNow, Legionella.UpdateAlm, Legionella.TankTarget;
  }

  /** The alarms look at the controller as the interlocks left it, and at the last causes. */
  lemma AlarmParts(c: Ctl, i: Inputs)
    requires c.Valid()
    ensures var d := Cycle(c, i);
            d.lamps.causes == Causes(d.(lamps := c.lamps), i) && d.lamps.warning == Warned(d.(lamps := c.lamps), i)
  {
    var h := HeatPhase(c, i);
    SensedParts(c, i);
    HeatParts(c, i);
    WaterParts(h, i);
    AlertParts(WaterPhase(h, i), i);
    hide Sensed, HeatPhase, WaterPhase, SafetyPhase, Causes, Warned;
  }

  lemma AlertParts(c: Ctl, i: Inputs)
    requires c.Valid()
    ensures var d := SafetyPhase(c, i);
            d.lamps.causes == Causes(d.(lamps := c.lamps), i) && d.lamps.warning == Warned(d.(lamps := c.lamps), i)
  {
    hide Interlock, WatchHeat, Causes, Warned;
    var x := WatchHeat(Interlock(c, i), i);
    assert x.lamps == c.lamps by { SameLamps(c, i); }
    assert SafetyPhase(c, i).(lamps := c.lamps) == x;
  }

  lemma SameLamps(c: Ctl, i: Inputs)
    requires c.Valid()
    ensures WatchHeat(Interlock(c, i), i).lamps == c.lamps && WatchHeat(Interlock(c, i), i).Valid()
  {
    hide Overtemp, InterlockedBoiler, InterlockedPumps, UpdateNoHeat, Autofill.Interlocked, MildOutside;
  }

  /** What a whole cycle does to each part. */
  lemma CycleParts(c: Ctl, i: Inputs)
    requires c.Valid()
    ensures var e, h, d := Sensed(c, i), HeatPhase(c, i), Cycle(c, i);
            && d.settings == c.settings == e.settings == h.settings && d.weather == c.weather
            && SameSenses(e, d) && SameSenses(e, h)
            && d.overtemp == Overtemp(c.settings.boiler, i.temps.boiler)
            && d.burner == UpdateBurner(c.burner, c.settings.boiler, i.temps.boiler, d.boilerLoss.lost,
                                        MildOutside(c.weather, i.now), Forced(d), TargetOf(e, i.now), i.now)
                           .(on := d.burner.on)
            && d.burner.on == InterlockedBoiler(h.burner.on, c.settings.boiler, i.temps.boiler, d.frost, d.pressureZero,
                                                d.boilerLoss.lost, MildOutside(c.weather, i.now))
            && h.burner.on == UpdateBurner(c.burner, c.settings.boiler, i.temps.boiler, d.boilerLoss.lost,
                                           MildOutside(c.weather, i.now), Forced(d), TargetOf(e, i.now), i.now).on
            && d.pumps == InterlockedPumps(h.pumps, d.frost, d.pressureZero, d.floorLoss.lost)
            && d.fill == Autofill.Interlocked(Autofill.UpdateFill(c.fill, c.settings.fill.enabled, c.settings.fill.pMin,
                                                                  i.heating, i.now), i.now)
            && d.teh == UpdateTeh(c.teh, c.settings.tank, i.temps.tank, IhbTarget(h), i.temps.boiler, h.burner.on,
                                  h.pumps.ihb, h.ihbHeating, i.now)
            && d.noHeat == UpdateNoHeat(c.noHeat, c.settings.boiler, d.burner.on, i.temps.boiler, d.burner.autoTarget,
                                        i.now)
            && d.well == Well.UpdateWell(c.well, c.settings.water.pump, i.water, i.now)
            && d.hotPump == (c.settings.water.hotPump && RecircWindow(c.settings.water, i.clock))
            && d.radValve == Valves.Drive(c.radValve, RadTarget(h, i.now), i.temps.rad, h.pumps.rad || Forced(d), i.now)
            && d.floorValve == Valves.Drive(c.floorValve, FlrTarget(h, i.now), i.temps.floor,
                                            (h.pumps.floor || Forced(d)) && !d.floorLoss.lost, i.now)
            && d.lamps == AlarmLamps.UpdateLamps(c.lamps, d.lamps.causes, d.lamps.warning, i.now)
  {
    SensedParts(c, i);
    HeatParts(c, i);
    WaterParts(HeatPhase(c, i), i);
    SafetyParts(WaterPhase(HeatPhase(c, i), i), i);
    hide Sensed, HeatPhase, WaterPhase, SafetyPhase, UpdateBurner, InterlockedBoiler, InterlockedPumps,
         Autofill.UpdateFill, Autofill.Interlocked, Well.UpdateWell, Valves.Drive, RadTarget, FlrTarget,
         AlarmLamps.UpdateLamps, TargetOf, MildOutside, Overtemp, UpdateTeh, UpdateNoHeat, IhbTarget, RecircWindow;
  }

  // ---- Each part as its own machine ----

  function WellIn(c: Ctl, e: Event): Well.Input {
    match e
    case Update(i) => Well.Cycle(c.settings.water.pump, i.water, i.now)
    case ResetWell(now) => Well.ResetWell(now)
    case Boot(_, _, now) => Well.Boot(now)
    case _ => Well.Other(e.now)
  }

  function FillIn(c: Ctl, e: Event): Autofill.Input {
    match e
    case Update(i) => Autofill.Cycle(c.settings.fill.enabled, c.settings.fill.pMin, i.heating, i.now)
    case Tick(now) => Autofill.Tick(now)
    case ResetFault(now) => Autofill.ResetFault(now)
    case Boot(_, wiped, now) => Autofill.Boot(wiped, now)
    case _ => Autofill.Other(e.now)
  }

  function AlmIn(c: Ctl, e: Event): Legionella.Input {
    match e
    case Update(i) => Legionella.Cycle(c.settings.alm, i.clock, i.temps.tank, i.now)
    case Boot(_, _, now) => Legionella.Boot(now)
    case _ => Legionella.Other(e.now)
  }

  function FrostIn(e: Event): FrostInput {
    match e
    case Update(i) => FrostCycle(Lowest(SupplyReadings(i.temps)))
    case Boot(_, _, _) => FrostBoot
    case _ => FrostOther
  }

  function RadIn(c: Ctl, e: Event): Valves.Input
    requires c.Valid()
  {
    match e
    case Update(i) =>
      var h := HeatPhase(c, i);
      Valves.Cycle(RadTarget(h, i.now), i.temps.rad, h.pumps.rad || Forced(h), i.now)
    case Tick(now) => Valves.Tick(now)
    case Boot(_, _, now) => Valves.Boot(now)
    case _ => Valves.Other(e.now)
  }

  function FloorIn(c: Ctl, e: Event): Valves.Input
    requires c.Valid()
  {
    match e
    case Update(i) =>
      var h := HeatPhase(c, i);
      Valves.Cycle(FlrTarget(h, i.now), i.temps.floor, (h.pumps.floor || Forced(h)) && !h.floorLoss.lost, i.now)
    case Tick(now) => Valves.Tick(now)
    case Boot(_, _, now) => Valves.Boot(now)
    case _ => Valves.Other(e.now)
  }

  function TehIn(c: Ctl, e: Event): HeatingRuns.TehInput
    requires c.Valid()
  {
    match e
    case Update(i) =>
      var h := HeatPhase(c, i);
      HeatingRuns.TehCycle(c.settings.tank, i.temps.tank, IhbTarget(h), i.temps.boiler, h.burner.on, h.pumps.ihb,
                           h.ihbHeating, i.now)
    case Boot(_, _, _) => HeatingRuns.TehBoot
    case _ => HeatingRuns.TehOther
  }

  function NoHeatIn(c: Ctl, e: Event): HeatingRuns.HeatInput
    requires c.Valid()
  {
    match e
    case Update(i) =>
      var d := Cycle(c, i);
      HeatingRuns.HeatCycle(c.settings.boiler, d.burner.on, i.temps.boiler, d.burner.autoTarget, i.now)
    case Boot(_, _, _) => HeatingRuns.HeatBoot
    case _ => HeatingRuns.HeatOther
  }

  function PumpIn(c: Ctl, e: Event): HeatingRuns.PumpInput
    requires c.Valid()
  {
    match e
    case Update(i) => HeatingRuns.PumpCycle(c.settings.tank, i.temps.tank, IhbTarget(Sensed(c, i)))
    case Boot(_, _, _) => HeatingRuns.PumpBoot
    case _ => HeatingRuns.PumpOther
  }

  function LampsIn(c: Ctl, e: Event): AlarmLamps.Input
    requires c.Valid()
  {
    match e
    case Update(i) => AlarmLamps.Cycle(Cycle(c, i).lamps.causes, Cycle(c, i).lamps.warning, i.now)
    case Mute(now) => AlarmLamps.Mute(now)
    case Boot(_, _, now) => AlarmLamps.Boot(now)
    case _ => AlarmLamps.Other(e.now)
  }

  // One event moves every part as its own machine does.

  lemma NextWell(c: Ctl, e: Event)
    requires c.Valid() && Possible(c, e)
    ensures Next(c, e).well == Well.Step(c.well, WellIn(c, e))
  {
    if e.Update? { CycleParts(c, e.i); }
    hide Sensed, HeatPhase, Cycle, UpdateBurner, InterlockedBoiler, InterlockedPumps, Autofill.UpdateFill,
         Autofill.Interlocked, Well.UpdateWell, Valves.Drive, RadTarget, FlrTarget, AlarmLamps.UpdateLamps, TargetOf,
         MildOutside, Overtemp, Valves.FinishPulse, Autofill.TickFill;
  }

  lemma NextFill(c: Ctl, e: Event)
    requires c.Valid() && Possible(c, e)
    ensures Next(c, e).fill == Autofill.Step(c.fill, FillIn(c, e))
  {
    if e.Update? { CycleParts(c, e.i); }
    hide Sensed, HeatPhase, Cycle, UpdateBurner, InterlockedBoiler, InterlockedPumps, Autofill.UpdateFill,
         Autofill.Interlocked, Well.UpdateWell, Valves.Drive, RadTarget, FlrTarget, AlarmLamps.UpdateLamps, TargetOf,
         MildOutside, Overtemp, Valves.FinishPulse, Autofill.TickFill;
  }

  lemma NextSenses(c: Ctl, e: Event)
    requires c.Valid() && Possible(c, e)
    ensures var d := Next(c, e);
            d.alm == Legionella.Step(c.alm, AlmIn(c, e)) && d.frost == FrostStep(c.frost, FrostIn(e))
  {
    if e.Update? {
      CycleParts(c, e.i);
      SensedParts(c, e.i);
    }
    hide Sensed, HeatPhase, Cycle, UpdateBurner, InterlockedBoiler, InterlockedPumps, Autofill.UpdateFill,
         Autofill.Interlocked, Well.UpdateWell, Valves.Drive, RadTarget, FlrTarget, AlarmLamps.UpdateLamps, TargetOf,
         MildOutside, Overtemp, Legionella.UpdateAlm, UpdateFrost, Lowest, Miss, TickAll;
  }

  lemma NextRadValve(c: Ctl, e: Event)
    requires c.Valid() && Possible(c, e)
    ensures Next(c, e).radValve == Valves.Step(c.radValve, RadIn(c, e))
  {
    if e.Update? { CycleParts(c, e.i); }
    hide Sensed, HeatPhase, Cycle, UpdateBurner, InterlockedBoiler, InterlockedPumps, Autofill.UpdateFill,
         Autofill.Interlocked, Well.UpdateWell, Valves.Drive, RadTarget, FlrTarget, AlarmLamps.UpdateLamps, TargetOf,
         MildOutside, Overtemp, Valves.FinishPulse, Autofill.TickFill;
  }

  lemma NextFloorValve(c: Ctl, e: Event)
    requires c.Valid() && Possible(c, e)
    ensures Next(c, e).floorValve == Valves.Step(c.floorValve, FloorIn(c, e))
  {
    if e.Update? { CycleParts(c, e.i); }
    hide Sensed, HeatPhase, Cycle, UpdateBurner, InterlockedBoiler, InterlockedPumps, Autofill.UpdateFill,
         Autofill.Interlocked, Well.UpdateWell, Valves.Drive, RadTarget, FlrTarget, AlarmLamps.UpdateLamps, TargetOf,
         MildOutside, Overtemp, Valves.FinishPulse, Autofill.TickFill;
  }

  lemma NextHeat(c: Ctl, e: Event)
    requires c.Valid() && Possible(c, e)
    ensures Next(c, e).teh == HeatingRuns.TehStep(c.teh, TehIn(c, e))
    ensures Next(c, e).noHeat == HeatingRuns.HeatStep(c.noHeat, NoHeatIn(c, e))
  {
    if e.Update? { CycleParts(c, e.i); }
    hide Sensed, HeatPhase, Cycle, UpdateBurner, InterlockedBoiler, InterlockedPumps, Autofill.UpdateFill,
         Autofill.Interlocked, Well.UpdateWell, Valves.Drive, RadTarget, FlrTarget, AlarmLamps.UpdateLamps, TargetOf,
         MildOutside, Overtemp, UpdateTeh, UpdateNoHeat, IhbTarget, TickAll;
  }

  lemma NextPump(c: Ctl, e: Event)
    requires c.Valid() && Possible(c, e)
    ensures Next(c, e).pumps.ihb == HeatingRuns.PumpStep(c.pumps.ihb, PumpIn(c, e))
  {
    if e.Update? {
      CycleParts(c, e.i);
      HeatParts(c, e.i);
      SensedParts(c, e.i);
    }
    hide Sensed, HeatPhase, Cycle, UpdateBurner, InterlockedBoiler, Autofill.UpdateFill, Autofill.Interlocked,
         Well.UpdateWell, Valves.Drive, RadTarget, FlrTarget, AlarmLamps.UpdateLamps, TargetOf, MildOutside, Overtemp,
         UpdateTeh, UpdateNoHeat, IhbTarget, TickAll, TankPump;
  }

  lemma NextLamps(c: Ctl, e: Event)
    requires c.Valid() && Possible(c, e)
    ensures AlarmLamps.ProperInput(LampsIn(c, e)) && Next(c, e).lamps == AlarmLamps.Step(c.lamps, LampsIn(c, e))
  {
    if e.Update? { CycleParts(c, e.i); }
    hide Sensed, HeatPhase, Cycle, UpdateBurner, InterlockedBoiler, InterlockedPumps, Autofill.UpdateFill,
         Autofill.Interlocked, Well.UpdateWell, Valves.Drive, RadTarget, FlrTarget, AlarmLamps.UpdateLamps, TargetOf,
         MildOutside, Overtemp, Legionella.UpdateAlm, UpdateFrost, Lowest, Miss, TickAll, Booted;
  }

  /** Every run of the controller runs the well protection. */
  lemma WellRun(es: seq<Event>, ss: seq<Ctl>) returns (h: seq<Well.Input>, xs: seq<Well.Well>)
    requires IsRun(es, ss)
    ensures Well.IsRun(h, xs) && |h| == |es| && |xs| == |ss|
    ensures forall k :: 0 <= k < |es| ==> h[k] == WellIn(ss[k], es[k])
    ensures forall k :: 0 <= k < |ss| ==> xs[k] == ss[k].well
  {
    h := seq(|es|, k requires 0 <= k < |es| => WellIn(ss[k], es[k]));
    xs := seq(|ss|, k requires 0 <= k < |ss| => ss[k].well);
    hide Next, Well.Step, WellIn, Possible;
    forall k | 0 <= k < |es| ensures xs[k + 1] == Well.Step(xs[k], h[k]) { NextWell(ss[k], es[k]); }
  }

  lemma FillRun(es: seq<Event>, ss: seq<Ctl>) returns (h: seq<Autofill.Input>, xs: seq<Autofill.Fill>)
    requires IsRun(es, ss)
    ensures Autofill.IsRun(h, xs) && |h| == |es| && |xs| == |ss|
    ensures forall k :: 0 <= k < |es| ==> h[k] == FillIn(ss[k], es[k])
    ensures forall k :: 0 <= k < |ss| ==> xs[k] == ss[k].fill
  {
    h := seq(|es|, k requires 0 <= k < |es| => FillIn(ss[k], es[k]));
    xs := seq(|ss|, k requires 0 <= k < |ss| => ss[k].fill);
    hide Next, Autofill.Step, FillIn, Possible;
    forall k | 0 <= k < |es| ensures xs[k + 1] == Autofill.Step(xs[k], h[k]) { NextFill(ss[k], es[k]); }
  }

  lemma TehRun(es: seq<Event>, ss: seq<Ctl>) returns (h: seq<HeatingRuns.TehInput>, xs: seq<Teh>)
    requires IsRun(es, ss)
    ensures HeatingRuns.IsTehRun(h, xs) && |h| == |es| && |xs| == |ss|
    ensures forall k :: 0 <= k < |es| ==> ss[k].Valid() && h[k] == TehIn(ss[k], es[k])
    ensures forall k :: 0 <= k < |ss| ==> xs[k] == ss[k].teh
  {
    h := seq(|es|, k requires 0 <= k < |es| && ss[k].Valid() => TehIn(ss[k], es[k]));
    xs := seq(|ss|, k requires 0 <= k < |ss| => ss[k].teh);
    hide Next, HeatingRuns.TehStep, TehIn, Possible;
    forall k | 0 <= k < |es| ensures xs[k + 1] == HeatingRuns.TehStep(xs[k], h[k]) { NextHeat(ss[k], es[k]); }
  }

  lemma NoHeatRun(es: seq<Event>, ss: seq<Ctl>) returns (h: seq<HeatingRuns.HeatInput>, xs: seq<NoHeat>)
    requires IsRun(es, ss)
    ensures HeatingRuns.IsHeatRun(h, xs) && |h| == |es| && |xs| == |ss|
    ensures forall k :: 0 <= k < |es| ==> ss[k].Valid() && h[k] == NoHeatIn(ss[k], es[k])
    ensures forall k :: 0 <= k < |ss| ==> xs[k] == ss[k].noHeat
  {
    h := seq(|es|, k requires 0 <= k < |es| && ss[k].Valid() => NoHeatIn(ss[k], es[k]));
    xs := seq(|ss|, k requires 0 <= k < |ss| => ss[k].noHeat);
    hide Next, HeatingRuns.HeatStep, NoHeatIn, Possible;
    forall k | 0 <= k < |es| ensures xs[k + 1] == HeatingRuns.HeatStep(xs[k], h[k]) { NextHeat(ss[k], es[k]); }
  }

  lemma PumpRun(es: seq<Event>, ss: seq<Ctl>) returns (h: seq<HeatingRuns.PumpInput>, xs: seq<bool>)
    requires IsRun(es, ss)
    ensures HeatingRuns.IsPumpRun(h, xs) && |h| == |es| && |xs| == |ss|
    ensures forall k :: 0 <= k < |es| ==> ss[k].Valid() && h[k] == PumpIn(ss[k], es[k])
    ensures forall k :: 0 <= k < |ss| ==> xs[k] == ss[k].pumps.ihb
  {
    h := seq(|es|, k requires 0 <= k < |es| && ss[k].Valid() => PumpIn(ss[k], es[k]));
    xs := seq(|ss|, k requires 0 <= k < |ss| => ss[k].pumps.ihb);
    hide Next, HeatingRuns.PumpStep, PumpIn, Possible;
    forall k | 0 <= k < |es| ensures xs[k + 1] == HeatingRuns.PumpStep(xs[k], h[k]) { NextPump(ss[k], es[k]); }
  }

  lemma AlmRun(es: seq<Event>, ss: seq<Ctl>) returns (h: seq<Legionella.Input>, xs: seq<Legionella.Alm>)
    requires IsRun(es, ss)
    ensures Legionella.IsRun(h, xs) && |h| == |es| && |xs| == |ss|
    ensures forall k :: 0 <= k < |es| ==> h[k] == AlmIn(ss[k], es[k])
    ensures forall k :: 0 <= k < |ss| ==> xs[k] == ss[k].alm
  {
    h := seq(|es|, k requires 0 <= k < |es| => AlmIn(ss[k], es[k]));
    xs := seq(|ss|, k requires 0 <= k < |ss| => ss[k].alm);
    hide Next, Legionella.Step, AlmIn, Possible;
    forall k | 0 <= k < |es| ensures xs[k + 1] == Legionella.Step(xs[k], h[k]) { NextSenses(ss[k], es[k]); }
  }

  lemma FrostRun(es: seq<Event>, ss: seq<Ctl>) returns (h: seq<FrostInput>, xs: seq<bool>)
    requires IsRun(es, ss)
    ensures IsFrostRun(h, xs) && |h| == |es| && |xs| == |ss|
    ensures forall k :: 0 <= k < |es| ==> h[k] == FrostIn(es[k])
    ensures forall k :: 0 <= k < |ss| ==> xs[k] == ss[k].frost
  {
    h := seq(|es|, k requires 0 <= k < |es| => FrostIn(es[k]));
    xs := seq(|ss|, k requires 0 <= k < |ss| => ss[k].frost);
    hide Next, FrostStep, FrostIn, Possible;
    forall k | 0 <= k < |es| ensures xs[k + 1] == FrostStep(xs[k], h[k]) { NextSenses(ss[k], es[k]); }
  }

  lemma LampsRun(es: seq<Event>, ss: seq<Ctl>) returns (h: seq<AlarmLamps.Input>, xs: seq<AlarmLamps.Lamps>)
    requires IsRun(es, ss)
    ensures AlarmLamps.IsRun(h, xs) && |h| == |es| && |xs| == |ss|
    ensures forall k :: 0 <= k < |es| ==> ss[k].Valid() && h[k] == LampsIn(ss[k], es[k])
    ensures forall k :: 0 <= k < |ss| ==> xs[k] == ss[k].lamps
  {
    h := seq(|es|, k requires 0 <= k < |es| && ss[k].Valid() => LampsIn(ss[k], es[k]));
    xs := seq(|ss|, k requires 0 <= k < |ss| => ss[k].lamps);
    hide Next, AlarmLamps.Step, LampsIn, Possible;
    forall k | 0 <= k < |es|
      ensures AlarmLamps.ProperInput(h[k]) && xs[k].Valid() && xs[k + 1] == AlarmLamps.Step(xs[k], h[k])
    {
      NextLamps(ss[k], es[k]);
    }
  }

  /** Both three-way valves. */
  lemma ValveRuns(es: seq<Event>, ss: seq<Ctl>)
    returns (rad: seq<Valves.Input>, rads: seq<Valves.Valve>, floor: seq<Valves.Input>, floors: seq<Valves.Valve>)
    requires IsRun(es, ss)
    ensures Valves.IsRun(rad, rads) && Valves.IsRun(floor, floors) && |rad| == |es| == |floor|
    ensures forall k :: 0 <= k < |es| ==>
                          ss[k].Valid() && rad[k] == RadIn(ss[k], es[k]) && floor[k] == FloorIn(ss[k], es[k])
    ensures forall k :: 0 <= k < |ss| ==> rads[k] == ss[k].radValve && floors[k] == ss[k].floorValve
  {
    rad := seq(|es|, k requires 0 <= k < |es| && ss[k].Valid() => RadIn(ss[k], es[k]));
    floor := seq(|es|, k requires 0 <= k < |es| && ss[k].Valid() => FloorIn(ss[k], es[k]));
    rads := seq(|ss|, k requires 0 <= k < |ss| => ss[k].radValve);
    floors := seq(|ss|, k requires 0 <= k < |ss| => ss[k].floorValve);
    hide Next, Valves.Step, RadIn, FloorIn, Possible;
    forall k | 0 <= k < |es|
      ensures rads[k + 1] == Valves.Step(rads[k], rad[k]) && floors[k + 1] == Valves.Step(floors[k], floor[k])
    {
      NextRadValve(ss[k], es[k]);
      NextFloorValve(ss[k], es[k]);
    }
  }
}
