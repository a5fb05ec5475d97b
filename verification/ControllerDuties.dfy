/** What the controller does when it should: exactly when its boiler, pumps, heater, valves and lamps run. */
module ControllerDuties {
  import opened Options
  import opened WeatherCurve
  import opened Schedule
  import opened Relays
  import opened Reals
  import opened Heating
  import opened Controller
  import opened ControllerRuns
  import opened ControllerSafety
  import opened ControllerPromises
  import Ticks
  import Autofill
  import Valves
  import Well
  import Legionella
  import AlarmLamps
  import HeatingRuns

  // ---- When the boiler runs ----

  /** A fresh outdoor reading of 5 degrees or more. */
  predicate MildWeather(w: Weather, now: nat) {
    w.outdoor.has && now - w.outdoor.at < 15 * 60 * 1000 && w.outdoor.temp >= 5.0
  }

  /** Frost protection, in a system that is not empty. */
  predicate FrostForces(d: Ctl, i: Inputs) { d.frost && !(i.heating.Some? && i.heating.value < 0.05) }

  /** The boiler relay after an update, from before: `free` says that its last switch is long enough ago. */
  predicate BoilerShouldRun(s: BoilerSettings, temp: Option<real>, frost: bool, forced: bool, lost: bool, mild: bool,
                            target: real, on: bool, free: bool)
  {
    if temp.Some? && temp.value >= s.max then false
    else if forced then true
    else if !s.auto then s.power
    else if temp.Some? then (if on then temp.value < target + 2.0 || !free else temp.value < target && free)
    else if lost then !mild || (frost && on)
    else on
  }

  lemma BoilerDecided(b: Burner, s: BoilerSettings, temp: Option<real>, l: Loss, mild: bool, frost: bool,
                      pressureZero: bool, target: real, now: nat)
    ensures var m, forced := Miss(l, temp), frost && !pressureZero;
            var u := UpdateBurner(b, s, temp, m.lost, mild, forced, target, now);
            var free := b.on == b.last && (b.switched ==> (now - b.changedAt) % 0x1_0000_0000 >= 5 * 60 * 1000);
            && (InterlockedBoiler(u.on, s, temp, frost, pressureZero, m.lost, mild)
                <==> BoilerShouldRun(s, temp, frost, forced, m.lost, mild, target, b.on, free))
            && u.last == b.on && (u.switched <==> b.switched || b.on != b.last)
            && u.changedAt == (if b.on != b.last then now else b.changedAt)
  {
  }

  lemma MildIs(w: Weather, now: nat)
    ensures MildOutside(w, now) <==> MildWeather(w, now)
  {
  }

  lemma BurnerParts(c: Ctl, i: Inputs)
    requires c.Valid()
    ensures var d, s, temp := Cycle(c, i), c.settings.boiler, i.temps.boiler;
            var u := UpdateBurner(c.burner, s, temp, d.boilerLoss.lost, MildOutside(c.weather, i.now), Forced(d),
                                  TargetOf(Sensed(c, i), i.now), i.now);
            && d.boilerLoss == Miss(c.boilerLoss, temp) && d.burner == u.(on := d.burner.on)
            && (Forced(d) <==> FrostForces(d, i))
            && d.burner.on == InterlockedBoiler(u.on, s, temp, d.frost, d.pressureZero, d.boilerLoss.lost,
                                                MildOutside(c.weather, i.now))
  {
    CycleParts(c, i);
    SensedParts(c, i);
    hide Cycle, HeatPhase, Sensed, TargetOf, Autofill.UpdateFill, Autofill.Interlocked, Well.UpdateWell, Lowest,
         UpdateFrost, AlarmLamps.UpdateLamps, RadTarget, FlrTarget, InterlockedPumps, Legionella.UpdateAlm,
         MildOutside, UpdateBurner, InterlockedBoiler, Miss;
  }

  /** The boiler relay after any update: never too hot; on while frost forces it; as commanded by hand; with a lost
      sensor on in cold or unknown weather and off in mild weather without frost; and in auto mode started below the
      target and stopped 2 degrees above it, 5 minutes after the last noticed switch at the earliest. */
  lemma BoilerRuns(c: Ctl, i: Inputs)
    requires c.Valid()
    ensures var d, b := Cycle(c, i), c.burner;
            var free := b.on == b.last && (b.switched ==> (i.now - b.changedAt) % 0x1_0000_0000 >= 5 * 60 * 1000);
            && (Output(d, BOILER_POWER)
                <==> BoilerShouldRun(c.settings.boiler, i.temps.boiler, d.frost, FrostForces(d, i), d.boilerLoss.lost,
                                     MildWeather(c.weather, i.now), TargetOf(Sensed(c, i), i.now),
                                     Output(c, BOILER_POWER), free))
            && d.burner.last == b.on && (d.burner.switched <==> b.switched || b.on != b.last)
            && d.burner.changedAt == (if b.on != b.last then i.now else b.changedAt)
  {
    hide MildWeather, FrostForces, Cycle, Sensed, TargetOf, MildOutside, UpdateBurner, InterlockedBoiler,
         BoilerShouldRun, Miss;
    var d := Cycle(c, i);
    BurnerParts(c, i);
    MildIs(c.weather, i.now);
    BoilerDecided(c.burner, c.settings.boiler, i.temps.boiler, c.boilerLoss, MildOutside(c.weather, i.now), d.frost,
                  d.pressureZero, TargetOf(Sensed(c, i), i.now), i.now);
  }

  /** Update i switched the boiler relay; since then nothing did up to event k, and nothing rebooted. */
  ghost predicate LastSwitch(es: seq<Event>, ss: seq<Ctl>, i: nat, k: nat)
    requires |ss| == |es| + 1 && k <= |es|
  {
    i < k && es[i].Update? && Switches(ss, i) && NoBoot(es, i, k) && forall m :: i < m < k ==> !Switches(ss, m)
  }

  /** No update since the last boot switched the boiler relay. */
  ghost predicate NeverSwitched(es: seq<Event>, ss: seq<Ctl>, k: nat)
    requires |ss| == |es| + 1 && k <= |es|
  {
    forall i :: 0 <= i < k && es[i].Update? && Switches(ss, i) ==> !NoBoot(es, i, k)
  }

  /** The next update after event i is event j. */
  predicate NextUpdate(es: seq<Event>, i: nat, j: nat) {
    i < j < |es| && es[j].Update? && forall m :: i < m < j ==> !es[m].Update?
  }

  /** What the burner remembers is the last switch by an update since boot, noticed by the next update. */
  ghost predicate Remembered(es: seq<Event>, ss: seq<Ctl>, k: nat, i: nat, j: nat)
    requires |ss| == |es| + 1 && k <= |es|
  {
    var b := ss[k].burner;
    if b.on != b.last then LastSwitch(es, ss, i, k) && forall m :: i < m < k ==> !es[m].Update?
    else if b.switched then
      LastSwitch(es, ss, i, k) && NextUpdate(es, i, j) && j < k && b.changedAt == es[j].At()
    else NeverSwitched(es, ss, k)
  }

  lemma StaysSwitched(es: seq<Event>, ss: seq<Ctl>, k: nat, i: nat)
    requires |ss| == |es| + 1 && k < |es|
    ensures LastSwitch(es, ss, i, k) ==> i < k
    ensures LastSwitch(es, ss, i, k) && !es[k].Boot? && !Switches(ss, k) ==> LastSwitch(es, ss, i, k + 1)
    ensures es[k].Update? && Switches(ss, k) ==> LastSwitch(es, ss, k, k + 1)
    ensures es[k].Boot? || (NeverSwitched(es, ss, k) && !(es[k].Update? && Switches(ss, k)))
            ==> NeverSwitched(es, ss, k + 1)
  {
    forall m | 0 <= m < k && NoBoot(es, m, k + 1) ensures NoBoot(es, m, k) {}
  }

  /** How an event changes what the burner remembers. */
  predicate BurnerStep(b: Burner, d: Burner, e: Event) {
    if e.Update? then
      && d.last == b.on && (d.switched <==> b.switched || b.on != b.last)
      && d.changedAt == (if b.on != b.last then e.i.now else b.changedAt)
    else d == if e.Boot? then COLD_BURNER else b
  }

  lemma BurnerNext(c: Ctl, e: Event)
    requires c.Valid() && Possible(c, e)
    ensures BurnerStep(c.burner, Next(c, e).burner, e)
  {
    hide Cycle, Sensed, TargetOf, MildWeather, FrostForces, BoilerShouldRun, Valves.FinishPulse, Autofill.TickFill;
    if e.Update? { BoilerRuns(c, e.i); }
  }

  lemma UpdateRemembered(es: seq<Event>, ss: seq<Ctl>, k: nat, i: nat, j: nat) returns (m: nat, n: nat)
    requires |ss| == |es| + 1 && k < |es| && es[k].Update? && Remembered(es, ss, k, i, j)
    requires BurnerStep(ss[k].burner, ss[k + 1].burner, es[k])
    ensures Remembered(es, ss, k + 1, m, n)
  {
    hide LastSwitch, NeverSwitched;
    StaysSwitched(es, ss, k, i);
    m := if Switches(ss, k) then k else i;
    n := if ss[k].burner.on != ss[k].burner.last then k else j;
  }

  lemma ElseRemembered(es: seq<Event>, ss: seq<Ctl>, k: nat, i: nat, j: nat)
    requires |ss| == |es| + 1 && k < |es| && !es[k].Update? && Remembered(es, ss, k, i, j)
    requires BurnerStep(ss[k].burner, ss[k + 1].burner, es[k])
    ensures Remembered(es, ss, k + 1, i, j)
  {
    hide LastSwitch, NeverSwitched;
    StaysSwitched(es, ss, k, i);
  }

  lemma {:induction false} BurnerMemory(es: seq<Event>, ss: seq<Ctl>, k: nat) returns (i: nat, j: nat)
    requires IsRun(es, ss) && |ss| == |es| + 1 && k <= |es|
    ensures Remembered(es, ss, k, i, j)
  {
    hide Next, Possible, Booted, Remembered, BurnerStep;
    if k == 0 {
      i, j := 0, 0;
      NothingRemembered(es, ss);
    } else {
      BurnerNext(ss[k - 1], es[k - 1]);
      i, j := BurnerMemory(es, ss, k - 1);
      if es[k - 1].Update? {
        i, j := UpdateRemembered(es, ss, k - 1, i, j);
      } else {
        ElseRemembered(es, ss, k - 1, i, j);
      }
    }
  }

  lemma NothingRemembered(es: seq<Event>, ss: seq<Ctl>)
    requires |ss| == |es| + 1 && ss[0].Valid() && ss[0] == Booted(ss[0].settings, false)
    ensures Remembered(es, ss, 0, 0, 0)
  {
  }

  /** The same from nothing but the run: the boiler relay after update k, with its last switch, by update i, noticed by
      update j. */
  lemma BoilerFollowsRun(es: seq<Event>, ss: seq<Ctl>, k: nat) returns (i: nat, j: nat)
    requires IsRun(es, ss) && |ss| == |es| + 1 && k < |es| && es[k].Update?
    ensures NeverSwitched(es, ss, k) || (LastSwitch(es, ss, i, k) && NextUpdate(es, i, j) && j <= k)
    ensures ss[k].Valid()
    ensures var c, d, now := ss[k], ss[k + 1], es[k].At();
            var rested := NeverSwitched(es, ss, k) || (now - es[j].At()) % 0x1_0000_0000 >= 5 * 60 * 1000;
            Output(d, BOILER_POWER)
            <==> BoilerShouldRun(c.settings.boiler, es[k].i.temps.boiler, d.frost, FrostForces(d, es[k].i),
                                 d.boilerLoss.lost, MildWeather(c.weather, now), TargetOf(Sensed(c, es[k].i), now),
                                 Output(c, BOILER_POWER), rested)
  {
    hide Cycle, Sensed, TargetOf, MildWeather, FrostForces, BoilerShouldRun, Booted;
    i, j := BurnerMemory(es, ss, k);
    BoilerRuns(ss[k], es[k].i);
    if ss[k].burner.on != ss[k].burner.last { j := k; }
  }

  // ---- What the weather controller knows ----

  /** The outdoor readings since the last boot, each with the time constant of its moment. */
  function OutdoorReadings(es: seq<Event>, ss: seq<Ctl>, k: nat): seq<Reading>
    requires |ss| == |es| + 1 && k <= |es|
  {
    if k == 0 || es[k - 1].Boot? then []
    else if es[k - 1].Outdoor? then
      OutdoorReadings(es, ss, k - 1) + [Reading(es[k - 1].now, es[k - 1].temp, ss[k - 1].settings.pza.filterHours)]
    else OutdoorReadings(es, ss, k - 1)
  }

  /** The last indoor reading since boot, and its time. */
  function IndoorReading(es: seq<Event>, k: nat): Option<(real, nat)>
    requires k <= |es|
  {
    if k == 0 then None
    else
      match es[k - 1]
      case Indoor(temp, now) => Some((temp, now))
      case Boot(_, _, _) => None
      case _ => IndoorReading(es, k - 1)
  }

  lemma WeatherNext(c: Ctl, e: Event)
    requires c.Valid() && Possible(c, e)
    ensures var d, w := Next(c, e), c.weather;
            && (c.weather == Configured(w, c.settings.pza) ==> d.weather == Configured(d.weather, d.settings.pza))
            && d.weather.outdoor == (match e
                                     case Outdoor(temp, now) => Read(w.outdoor, Reading(now, temp, w.filterHours))
                                     case Boot(_, _, _) => NO_OUTDOOR
                                     case _ => w.outdoor)
            && (if e.Indoor? then d.weather.hasIndoor && d.weather.indoorTemp == e.temp && d.weather.indoorAt == e.now
                else if e.Boot? then !d.weather.hasIndoor
                else d.weather.hasIndoor == w.hasIndoor && d.weather.indoorTemp == w.indoorTemp
                     && d.weather.indoorAt == w.indoorAt)
  {
    if e.Update? { CycleParts(c, e.i); }
    hide Cycle, Sensed, HeatPhase, Valves.FinishPulse, Autofill.TickFill, Smoothed, UpdateBurner, InterlockedBoiler,
         InterlockedPumps, Autofill.UpdateFill, Autofill.Interlocked, Well.UpdateWell, Valves.Drive, RadTarget,
         FlrTarget, AlarmLamps.UpdateLamps, TargetOf, MildOutside, Overtemp, UpdateTeh, UpdateNoHeat, IhbTarget,
         RecircWindow;
  }

  /** In every state the weather controller is configured as set, its filter is that of the outdoor readings since boot,
      and its indoor temperature is the last one received. */
  lemma {:induction false} WeatherIsHistory(es: seq<Event>, ss: seq<Ctl>, k: nat)
    requires IsRun(es, ss) && |ss| == |es| + 1 && k <= |es|
    ensures var w, p := ss[k].weather, ss[k].settings.pza;
            && w.radWbm == p.radWbm && w.radCurve == p.radCurve && w.floorWbm == p.floorWbm
            && w.floorCurve == p.floorCurve && w.filterHours == p.filterHours
    ensures var h := OutdoorReadings(es, ss, k); Chronological(h) && ss[k].weather.outdoor == After(h)
    ensures var w, r := ss[k].weather, IndoorReading(es, k);
            w.hasIndoor == r.Some? && (r.Some? ==> w.indoorTemp == r.value.0 && w.indoorAt == r.value.1)
  {
    hide Next, Read, Chronological, After, Booted;
    if k == 0 {
      FreshWeather(ss[0].settings);
    } else {
      WeatherIsHistory(es, ss, k - 1);
      WeatherNext(ss[k - 1], es[k - 1]);
      FreshWeather(ss[k].settings);
      var h := OutdoorReadings(es, ss, k - 1);
      if es[k - 1].Outdoor? {
        OneMore(h, Reading(es[k - 1].now, es[k - 1].temp, ss[k - 1].settings.pza.filterHours));
      }
    }
  }

  lemma FreshWeather(s: Settings)
    requires s.Valid()
    ensures Booted(s, false).weather == Configured(NO_WEATHER, s.pza)
    ensures Chronological([]) && After([]) == NO_OUTDOOR == NO_WEATHER.outdoor && !NO_WEATHER.hasIndoor
  {
  }

  // ---- What it is regulated to ----

  /** Something active asks for this supply temperature. */
  predicate Asks(d: Ctl, now: nat, t: real)
    requires d.Valid()
  {
    || (d.settings.rad.pump && t == RadTarget(d, now))
    || (d.settings.floor.pump && t == FlrTarget(d, now))
    || (Loading(d.settings.tank, d.ihbHeating, d.pumps.ihb) && t == IhbTarget(d) + d.settings.tank.boost)
  }

  /** The burner's target is the highest that something active asks for, raised to the minimum, or the manual setpoint
      if nothing does; and never above the maximum less 7 degrees. */
  lemma TargetIsHighest(d: Ctl, now: nat) returns (highest: real)
    requires d.Valid()
    ensures WantsHeat(d) ==> Asks(d, now, highest)
    ensures forall t :: Asks(d, now, t) ==> WantsHeat(d) && t <= highest
    ensures var s := d.settings.boiler;
            TargetOf(d, now) == Min(s.max - 7.0, if WantsHeat(d) then Max(highest, s.min) else s.temp)
  {
    CircuitTargetsWarm(d, now);
    TankTargetBounds(d.alm, d.settings);
    highest := HeatDemand(d, now);
    hide RadTarget, FlrTarget, Legionella.TankTarget;
  }

  // ---- The well pump ----

  /** After every update the well pump's relay is on if and only if it is commanded and not stopped, which is exactly
      as the well protection's history says. */
  lemma WellRunsIff(es: seq<Event>, ss: seq<Ctl>, k: nat) returns (i: nat, p: nat)
    requires IsRun(es, ss) && |ss| == |es| + 1 && WaterSensorFixed(es) && k < |es| && es[k].Update?
    ensures var h, ws := WellInputs(es, ss), Wells(ss);
            && Well.LowBegan(h, ws, i, k) && es[i].Update?
            && (ss[k].well.waiting ==> p < k && es[p].Update? && Well.StopsAt(ws, p)
                                       && forall j :: p < j <= k ==> ss[j].well.waiting)
    ensures var c, v, water, now := ss[k], ss[k + 1].well, es[k].i.water, es[k].At();
            && (Output(ss[k + 1], WATER_PUMP) <==> c.settings.water.pump && !v.waiting && !v.locked)
            && (v.waiting || v.locked <==>
                c.settings.water.pump && (|| c.well.locked
                                          || (c.well.waiting && now < es[p].At() + 30 * 60 * 1000)
                                          || (water.Some? && water.value < 0.5 && !c.well.waiting && !c.well.locked
                                              && now - es[i].At() >= 60_000)))
            && (v.locked <==>
                c.settings.water.pump
                && (c.well.locked || (Well.StopsAt(Wells(ss), k)
                                      && Well.TriesUsed(WellInputs(es, ss), Wells(ss), k) == 2)))
  {
    hide Next, Possible, Booted, Well.IsRun, IsRun, Well.SensorFixed, WaterSensorFixed, Well.LowBegan, Well.TriesUsed;
    WellRuns(es, ss);
    var h, ws := WellInputs(es, ss), Wells(ss);
    assert forall j :: 0 <= j < |es| ==> h[j] == WellIn(ss[j], es[j]);
    i, p := Well.PumpRunsIff(h, ws, k);
    LowBeganByCycle(h, ws, i, k);
    if ss[k].well.waiting {
      forall j | p < j <= k ensures ss[j].well.waiting { assert ws[j].waiting; }
    }
  }

  lemma LowBeganByCycle(h: seq<Well.Input>, ws: seq<Well.Well>, i: nat, k: nat)
    requires |ws| == |h| + 1 && k < |h| && Well.LowBegan(h, ws, i, k)
    ensures i <= k && h[i].Cycle?
  {
  }

  // ---- The electric heater, the filling valve, the mixing valves ----

  /** When the heater's relay is on after an update. */
  lemma HeaterRunsIff(es: seq<Event>, ss: seq<Ctl>, k: nat) returns (h: seq<HeatingRuns.TehInput>, i: nat)
    requires IsRun(es, ss) && |ss| == |es| + 1 && k < |es| && es[k].Update?
    ensures |h| == |es| && forall j :: 0 <= j < |es| ==> ss[j].Valid() && h[j] == TehIn(ss[j], es[j])
    ensures HeatingRuns.DelayBegan(h, i, k)
    ensures var tank, s, target := es[k].i.temps.tank, ss[k].settings.tank, IhbTarget(HeatPhase(ss[k], es[k].i));
            Output(ss[k + 1], TEH) <==>
              && tank.Some? && tank.value < target
              && if s.tehAuto
                 then HeatingRuns.Wanting(h[k])
                      && (Output(ss[k], TEH)
                          || (i < k && es[k].At() - es[i].At() >= (s.tehDelay * 60_000) % 0x1_0000_0000))
                 else s.tehPower
  {
    hide Next, Possible, Booted, HeatingRuns.IsTehRun, IsRun, HeatPhase, IhbTarget, HeatingRuns.Wanting;
    var xs;
    h, xs := TehRun(es, ss);
    i := HeatingRuns.TehRunsIff(h, xs, k);
    assert h[k] == TehIn(ss[k], es[k]) && h[i] == TehIn(ss[i], es[i]);
    assert i < k ==> h[i].TehCycle?;
  }

  /** When an update opens the filling valve and when it keeps it open; i is the event that opened it. */
  lemma FillingOpensIff(es: seq<Event>, ss: seq<Ctl>, k: nat) returns (i: nat)
    requires IsRun(es, ss) && |ss| == |es| + 1 && k < |es| && es[k].Update?
    ensures Output(ss[k], AUTOFILL_OPEN) ==>
              i < k && !Output(ss[i], AUTOFILL_OPEN) && forall j :: i < j <= k ==> Output(ss[j], AUTOFILL_OPEN)
    ensures var c, d, p := ss[k], ss[k + 1], es[k].i.heating;
            var f, open := c.settings.fill, Output(c, AUTOFILL_OPEN);
            var late := open && es[k].At() - es[i].At() > 120_000;
            && (Output(d, AUTOFILL_OPEN) <==>
                if open then p.None? || (f.enabled && !late && p.value < f.pMin + 0.1)
                else !Output(c, AUTOFILL_CLOSE) && !c.fill.fault && f.enabled && p.Some? && 0.05 <= p.value < f.pMin)
            && (Output(d, AUTOFILL_CLOSE) <==> Output(c, AUTOFILL_CLOSE) || (open && !Output(d, AUTOFILL_OPEN)))
            && (d.fill.fault <==> c.fill.fault || (late && f.enabled && p.Some?))
  {
    hide Next, Possible, Booted, Autofill.IsRun, IsRun;
    var h, xs := FillRun(es, ss);
    i := Autofill.FillsIff(h, xs, k);
    assert h[k] == FillIn(ss[k], es[k]);
    if xs[k].open {
      assert h[i] == FillIn(ss[i], es[i]) && h[i].now == es[i].At();
      assert forall j :: i < j <= k ==> xs[j] == ss[j].fill;
    }
  }

  /** When an update moves the two mixing valves, each towards its circuit's target; the pumps have run since events i
      and j. */
  lemma ValvesMoveIff(es: seq<Event>, ss: seq<Ctl>, k: nat)
    returns (rad: seq<Valves.Input>, floor: seq<Valves.Input>, i: nat, j: nat)
    requires IsRun(es, ss) && |ss| == |es| + 1 && k < |es| && es[k].Update?
    ensures |rad| == |es| == |floor|
    ensures forall m :: 0 <= m < |es| ==>
                          ss[m].Valid() && rad[m] == RadIn(ss[m], es[m]) && floor[m] == FloorIn(ss[m], es[m])
    ensures rad[k].Cycle? && floor[k].Cycle?
    ensures rad[k].pumpOn ==> Valves.FlowsSince(rad, i, k)
    ensures floor[k].pumpOn ==> Valves.FlowsSince(floor, j, k)
    ensures MovesAsDue(rad[k], ss[k].radValve, ss[k + 1], RAD_VALVE_OPEN, if rad[k].pumpOn then rad[i].now else 0)
    ensures MovesAsDue(floor[k], ss[k].floorValve, ss[k + 1], FLOOR_VALVE_OPEN,
                       if floor[k].pumpOn then floor[j].now else 0)
  {
    hide Next, Possible, Booted, Valves.IsRun, IsRun, HeatPhase, RadTarget, FlrTarget, Forced, Valves.FlowsSince,
         Valves.Pulse, MovesAsDue;
    var rads, floors;
    rad, rads, floor, floors := ValveRuns(es, ss);
    assert rad[k] == RadIn(ss[k], es[k]) && floor[k] == FloorIn(ss[k], es[k]);
    i := MovedAsDue(rad, rads, k, ss[k + 1], RAD_VALVE_OPEN);
    j := MovedAsDue(floor, floors, k, ss[k + 1], FLOOR_VALVE_OPEN);
  }

  /** The valve v, of which `open` is the opening relay, after an update of the controller to d. */
  predicate MovesAsDue(e: Valves.Input, v: Valves.Valve, d: Ctl, open: nat, flowing: nat)
    requires e.Cycle? && open + 1 < RELAY_COUNT
  {
    var idle := v.driveMs == 0 || e.now - v.driveStart >= v.driveMs;
    var due := e.pumpOn && e.now - flowing >= 30_000 && idle && e.now - v.lastAdjust >= 30_000;
    var cold := due && e.target >= 0.0 && e.actual.Some? && e.actual.value < e.target - 1.0;
    var hot := due && e.target >= 0.0 && e.actual.Some? && e.actual.value > e.target + 1.0;
    && (Output(d, open) <==> cold || (!idle && v.open))
    && (Output(d, open + 1) <==> hot || (!idle && v.close))
  }

  lemma MovedAsDue(h: seq<Valves.Input>, vs: seq<Valves.Valve>, k: nat, d: Ctl, open: nat) returns (i: nat)
    requires Valves.IsRun(h, vs) && k < |h| && h[k].Cycle? && open + 1 < RELAY_COUNT
    requires Output(d, open) == vs[k + 1].open && Output(d, open + 1) == vs[k + 1].close
    ensures h[k].pumpOn ==> Valves.FlowsSince(h, i, k)
    ensures h[k].pumpOn ==> i < |h|
    ensures MovesAsDue(h[k], vs[k], d, open, if h[k].pumpOn then h[i].now else 0)
  {
    hide Output, Valves.IsRun;
    i := Valves.AdjustsIff(h, vs, k);
  }

  // ---- Disinfection, hot water, night ----

  /** Inside a disinfection window, opened by update i, the tank's target is raised until the tank has held the
      temperature, and not a moment longer. */
  lemma DisinfectsUntilHeld(es: seq<Event>, ss: seq<Ctl>, s: Legionella.AlmSettings, i: nat, k: nat)
    returns (h: seq<Legionella.Input>)
    requires IsRun(es, ss) && |ss| == |es| + 1 && i < k <= |es| && Legionella.Enabled(s)
    requires es[i].Update? && !ss[i].alm.inWindow
    requires forall j :: i <= j < k ==> ControllerPromises.InWindow(ss[j], es[j], s)
    requires ss[k].settings.alm == s && forall a: nat, b: nat :: i <= a < b < k ==> es[a].At() <= es[b].At()
    ensures |h| == |es| && forall j :: 0 <= j < |es| ==> h[j] == AlmIn(ss[j], es[j])
    ensures IhbTarget(ss[k]) ==
            if Legionella.HeldBy(h, s, i, k) then ss[k].settings.tank.temp else Max(s.temp, ss[k].settings.tank.temp)
  {
    hide Next, Possible, Booted, Legionella.IsRun, IsRun, Legionella.InAlmWindow, Legionella.HeldBy, Legionella.Enabled;
    var xs;
    h, xs := AlmRun(es, ss);
    assert forall j :: i <= j < k ==> Legionella.Inside(h[j], s);
    Legionella.RaisedUntilHeld(h, xs, s, i, k, ss[k].settings.tank.temp);
  }

  /** Between two times of day, also over midnight. */
  predicate TimeBetween(minute: nat, start: Time, end: Time) {
    (minute - start.Minutes()) % 1440 < (end.Minutes() - start.Minutes()) % 1440
  }

  lemma DailyIff(clock: Option<Clock>, start: Time, end: Time)
    requires ValidClock(clock) && start.Valid() && end.Valid()
    ensures InSchedule(clock, EVERY_DAY, start.Minutes(), end.Minutes()) <==>
              clock.Some? && TimeBetween(clock.value.minute, start, end)
  {
    hide InSchedule, Time.Minutes, Time.Valid;
    InDay(start);
    InDay(end);
    ScheduledDaily(clock, start.Minutes(), end.Minutes());
  }

  lemma InDay(t: Time)
    requires t.Valid()
    ensures t.Minutes() < DAY
  {
  }

  /** After every update the recirculation pump runs if it is commanded and, with its schedule and a known time, only
      in the morning and in the evening. */
  lemma RecirculatesIff(c: Ctl, i: Inputs)
    requires c.Valid() && ValidClock(i.clock)
    requires var w := c.settings.water;
             w.morningStart.Valid() && w.morningEnd.Valid() && w.eveningStart.Valid() && w.eveningEnd.Valid()
    ensures var w := c.settings.water;
            Output(Cycle(c, i), WATER_HOT_PUMP) <==>
              w.hotPump && (!w.recirc || i.clock.None?
                            || TimeBetween(i.clock.value.minute, w.morningStart, w.morningEnd)
                            || TimeBetween(i.clock.value.minute, w.eveningStart, w.eveningEnd))
  {
    var w := c.settings.water;
    hide Cycle, InSchedule, TimeBetween;
    DailyIff(i.clock, w.morningStart, w.morningEnd);
    DailyIff(i.clock, w.eveningStart, w.eveningEnd);
    HotPumpParts(c, i);
  }

  lemma HotPumpParts(c: Ctl, i: Inputs)
    requires c.Valid()
    ensures Cycle(c, i).hotPump == (c.settings.water.hotPump && RecircWindow(c.settings.water, i.clock))
  {
    CycleParts(c, i);
    hide Cycle, RecircWindow;
  }

  /** A circuit's night goes by its schedule's list and times. */
  lemma NightIff(c: Ctl, i: Inputs, rad: seq<nat>, floor: seq<nat>)
    requires c.Valid() && ValidClock(i.clock) && AllDays(rad) && AllDays(floor)
    requires c.settings.rad.night.days == JoinDays(rad) && c.settings.floor.night.days == JoinDays(floor)
    ensures var d, r, f, t := Cycle(c, i), c.settings.rad.night, c.settings.floor.night, i.clock;
            && (d.nightRad <==>
                r.enabled && t.Some? && t.value.dow in rad && TimeBetween(t.value.minute, r.start, r.end))
            && (d.nightFloor <==>
                f.enabled && t.Some? && t.value.dow in floor && TimeBetween(t.value.minute, f.start, f.end))
  {
    hide Cycle, JoinDays;
    NightParts(c, i);
    ListedNight(c.settings.rad.night, i.clock, rad);
    ListedNight(c.settings.floor.night, i.clock, floor);
    hide NightNow, TimeBetween;
  }

  lemma ListedNight(n: Night, clock: Option<Clock>, ds: seq<nat>)
    requires n.Valid() && ValidClock(clock) && AllDays(ds) && n.days == JoinDays(ds)
    ensures NightNow(n, clock) <==>
              n.enabled && clock.Some? && clock.value.dow in ds && TimeBetween(clock.value.minute, n.start, n.end)
  {
    hide InSchedule, JoinDays, Time.Minutes, Time.Valid;
    InDay(n.start);
    InDay(n.end);
    ScheduledIff(clock, ds, n.start.Minutes(), n.end.Minutes());
  }

  // ---- Lost sensors and alarms ----

  datatype Sensor = BoilerSensor | TankSensor | FloorSensor

  function Reads(t: Readings, s: Sensor): Option<real> {
    match s case BoilerSensor => t.boiler case TankSensor => t.tank case FloorSensor => t.floor
  }

  function LossOf(c: Ctl, s: Sensor): Loss {
    match s case BoilerSensor => c.boilerLoss case TankSensor => c.tankLoss case FloorSensor => c.floorLoss
  }

  function LossIn(e: Event, s: Sensor): HeatingRuns.LossInput {
    match e
    case Update(i) => HeatingRuns.LossCycle(Reads(i.temps, s).Some?)
    case Boot(_, _, _) => HeatingRuns.LossBoot
    case _ => HeatingRuns.LossOther
  }

  lemma NextLoss(c: Ctl, e: Event, s: Sensor)
    requires c.Valid() && Possible(c, e)
    ensures LossOf(Next(c, e), s) == HeatingRuns.LossStep(LossOf(c, s), LossIn(e, s))
  {
    if e.Update? {
      CycleParts(c, e.i);
      SensedParts(c, e.i);
      NightParts(c, e.i);
    }
    hide Sensed, HeatPhase, Cycle, UpdateBurner, InterlockedBoiler, InterlockedPumps, Autofill.UpdateFill,
         Autofill.Interlocked, Well.UpdateWell, Valves.Drive, RadTarget, FlrTarget, AlarmLamps.UpdateLamps, TargetOf,
         MildOutside, Overtemp, Valves.FinishPulse, Autofill.TickFill, UpdateTeh, UpdateNoHeat, IhbTarget, NightNow,
         RecircWindow, UpdateFrost, Lowest, Legionella.UpdateAlm;
  }

  /** A sensor is lost exactly after three updates in a row, since boot, that did not read it. */
  lemma LostIffMissed(es: seq<Event>, ss: seq<Ctl>, s: Sensor, k: nat) returns (h: seq<HeatingRuns.LossInput>)
    requires IsRun(es, ss) && |ss| == |es| + 1 && k <= |es|
    ensures |h| == |es| && forall j :: 0 <= j < |es| ==> h[j] == LossIn(es[j], s)
    ensures LossOf(ss[k], s).lost <==> HeatingRuns.Missed(h, k) >= 3
  {
    h := seq(|es|, j requires 0 <= j < |es| => LossIn(es[j], s));
    var ls := seq(|ss|, j requires 0 <= j < |ss| => LossOf(ss[j], s));
    assert ls[0] == Loss(0, false);
    hide Next, Possible, LossIn, LossOf, HeatingRuns.LossStep, Booted;
    forall j | 0 <= j < |es| ensures ls[j + 1] == HeatingRuns.LossStep(ls[j], h[j]) { NextLoss(ss[j], es[j], s); }
    HeatingRuns.LostIffMissed(h, ls, k);
  }

  /** A fresh outdoor reading below zero. */
  predicate FrostOutside(w: Weather, now: nat) {
    w.outdoor.has && now - w.outdoor.at < 15 * 60 * 1000 && w.outdoor.temp < 0.0
  }

  /** The critical causes of a state, by cause. */
  predicate IsCritical(x: Ctl, i: Inputs, cause: nat, already: bool) {
    var f, p := x.settings.fill, i.heating;
    var slack := if already then 0.05 else 0.0;
    if cause == AlarmLamps.CRIT_PRESSURE_ZERO then p.Some? && p.value < 0.05
    else if cause == AlarmLamps.CRIT_PRESSURE then
      p.Some? && p.value >= 0.05 && !(f.pMin - 0.3 + slack <= p.value <= f.pMax + 0.3 - slack)
    else if cause == AlarmLamps.CRIT_BOILER_MAX || cause == AlarmLamps.CRIT_OVERTEMP then
      i.temps.boiler.Some? && i.temps.boiler.value >= x.settings.boiler.max
    else if cause == AlarmLamps.CRIT_IHB_SENSOR then x.settings.tank.auto && x.tankLoss.lost
    else if cause == AlarmLamps.CRIT_BOILER_SENSOR then x.boilerLoss.lost
    else if cause == AlarmLamps.CRIT_AUTOFILL then x.fill.fault
    else if cause == AlarmLamps.CRIT_FROST then x.frost
    else cause == AlarmLamps.CRIT_NO_HEAT && x.noHeat.noHeat && FrostOutside(x.weather, i.now)
  }

  lemma CausesAre(x: Ctl, i: Inputs, cause: nat)
    requires x.pressureZero == (i.heating.Some? && i.heating.value < 0.05)
    requires x.overtemp == Overtemp(x.settings.boiler, i.temps.boiler)
    ensures cause in Causes(x, i) <==> IsCritical(x, i, cause, AlarmLamps.CRIT_PRESSURE in x.lamps.causes)
  {
  }

  lemma WhateverLamps(d: Ctl, lamps: AlarmLamps.Lamps, i: Inputs, cause: nat, already: bool)
    ensures IsCritical(d.(lamps := lamps), i, cause, already) == IsCritical(d, i, cause, already)
    ensures NeedsCare(d.(lamps := lamps), i) == NeedsCare(d, i)
  {
  }

  lemma CauseParts(c: Ctl, i: Inputs)
    requires c.Valid()
    ensures var d, x := Cycle(c, i), Cycle(c, i).(lamps := c.lamps);
            && d.lamps.causes == Causes(x, i) && d.lamps.warning == Warned(x, i)
            && d.settings == c.settings && d.weather == c.weather
            && d.pressureZero == (i.heating.Some? && i.heating.value < 0.05)
            && d.overtemp == Overtemp(c.settings.boiler, i.temps.boiler)
  {
    AlarmParts(c, i);
    CycleParts(c, i);
    SensedParts(c, i);
    hide Sensed, HeatPhase, Cycle, UpdateBurner, InterlockedBoiler, InterlockedPumps, Autofill.UpdateFill,
         Autofill.Interlocked, Well.UpdateWell, Valves.Drive, RadTarget, FlrTarget, AlarmLamps.UpdateLamps, TargetOf,
         MildOutside, Overtemp, UpdateTeh, UpdateNoHeat, IhbTarget, RecircWindow, UpdateFrost, Lowest,
         Legionella.UpdateAlm, Causes, Warned, Miss;
  }

  /** The critical causes after an update are exactly those the readings, the lost sensors, the lockout, the frost and
      the stalled boiler of that update call for. */
  lemma CriticalIff(c: Ctl, i: Inputs, cause: nat)
    requires c.Valid()
    ensures cause in Cycle(c, i).lamps.causes <==>
              IsCritical(Cycle(c, i), i, cause, AlarmLamps.CRIT_PRESSURE in c.lamps.causes)
  {
    CauseParts(c, i);
    hide Cycle, Causes, Overtemp, IsCritical;
    CausesAre(Cycle(c, i).(lamps := c.lamps), i, cause);
    WhateverLamps(Cycle(c, i), c.lamps, i, cause, AlarmLamps.CRIT_PRESSURE in c.lamps.causes);
  }

  /** Out of order, but not critical: a pressure outside its limits, the supply within 2 degrees of its maximum, a
      missing reading of the supply or of a circuit in use, a sensor lost, a dry well, or a boiler that does not heat
      although it does not freeze. */
  predicate NeedsCare(x: Ctl, i: Inputs) {
    var s, p, t := x.settings, i.heating, i.temps;
    || (p.Some? && p.value >= 0.05 && !(s.fill.pMin <= p.value <= s.fill.pMax))
    || t.boiler.None? || t.boiler.value >= s.boiler.max - 2.0
    || (s.rad.pump && t.rad.None?) || (s.floor.pump && t.floor.None?)
    || (x.noHeat.noHeat && !FrostOutside(x.weather, i.now))
    || x.well.dry || x.tankLoss.lost || x.floorLoss.lost
  }

  lemma WarnedMeans(x: Ctl, i: Inputs)
    requires x.pressureZero == (i.heating.Some? && i.heating.value < 0.05)
    ensures Warned(x, i) <==> NeedsCare(x, i)
  {
  }

  /** The warning lamp is on after an update exactly if that update found something worth it. */
  lemma WarningIff(c: Ctl, i: Inputs)
    requires c.Valid()
    ensures Output(Cycle(c, i), LAMP_WARNING) <==> NeedsCare(Cycle(c, i), i)
  {
    CauseParts(c, i);
    hide Cycle, Causes, Warned, Overtemp, NeedsCare, IsCritical;
    WarnedMeans(Cycle(c, i).(lamps := c.lamps), i);
    WhateverLamps(Cycle(c, i), c.lamps, i, 0, false);
  }
}
