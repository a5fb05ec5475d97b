/** The boiler controller itself: its fields, and its methods in the order of the update cycle. */
module BoilerLogic {
  import opened Options
  import opened WeatherCurve
  import opened Schedule
  import opened Relays
  import opened Heating
  import opened Controller
  import ControllerSafety
  import Autofill
  import Valves
  import Well
  import Legionella
  import AlarmLamps

  /** The relays the interlocks may move. */
  predicate MovedByInterlocks(k: nat) {
    k == BOILER_POWER || k == RADIATOR_PUMP || k == FLOOR_PUMP || k == AUTOFILL_OPEN || k == AUTOFILL_CLOSE
  }

  // ---- The fields of each part, without its relays ----

  datatype WellState = WellState(lowActive: bool, lowSince: nat, waiting: bool, retryAt: nat, failures: nat,
                                 locked: bool, dry: bool)

  function WellOf(w: WellState, v: seq<bool>): Well.Well
    requires Full(v)
  {
    Well.Well(w.lowActive, w.lowSince, w.waiting, w.retryAt, w.failures, w.locked, w.dry, v[WATER_PUMP])
  }

  /** `stored` is the lockout flag in non-volatile storage. */
  datatype FillState = FillState(start: nat, active: bool, closing: bool, closeStart: nat, fault: bool, stored: bool)

  function FillOf(f: FillState, v: seq<bool>): Autofill.Fill
    requires Full(v)
  {
    Autofill.Fill(f.start, f.active, f.closing, f.closeStart, f.fault, f.stored, v[AUTOFILL_OPEN], v[AUTOFILL_CLOSE])
  }

  datatype BurnerState = BurnerState(last: bool, switched: bool, changedAt: nat, autoTarget: real)

  function BurnerOf(b: BurnerState, v: seq<bool>): Burner
    requires Full(v)
  {
    Burner(b.last, b.switched, b.changedAt, b.autoTarget, v[BOILER_POWER])
  }

  datatype TehState = TehState(delayStart: nat, delayActive: bool)

  function TehOf(h: TehState, v: seq<bool>): Teh
    requires Full(v)
  {
    Teh(h.delayStart, h.delayActive, v[TEH])
  }

  datatype ValveState = ValveState(driveStart: nat, driveMs: nat, lastAdjust: nat, opening: bool, pumpRunning: bool,
                                   pumpSince: nat)

  /** The valve on channels `open` and `open + 1`. */
  function ValveOf(s: ValveState, v: seq<bool>, open: nat): Valves.Valve
    requires Full(v) && open < RELAY_COUNT - 1
  {
    Valves.Valve(s.driveStart, s.driveMs, s.lastAdjust, s.opening, s.pumpRunning, s.pumpSince, v[open], v[open + 1])
  }

  datatype LampState = LampState(causes: bv16, muted: bv16, seenAt: seq<nat>)
  {
    predicate Valid() { |seenAt| == AlarmLamps.CRIT_BITS && AlarmLamps.Small(causes) && AlarmLamps.Small(muted) }
  }

  function LampsOf(l: LampState, v: seq<bool>): AlarmLamps.Lamps
    requires Full(v)
  {
    AlarmLamps.Lamps(AlarmLamps.Bits(l.causes), AlarmLamps.Bits(l.muted), l.seenAt, v[LAMP_WARNING], v[LAMP_CRITICAL])
  }

  function PumpsOf(v: seq<bool>): Pumps
    requires Full(v)
  {
    Pumps(v[IHB_PUMP], v[RADIATOR_PUMP], v[FLOOR_PUMP])
  }

  /** All fields of the controller. */
  datatype Fields = Fields(
    settings: Settings, weather: Weather, nightRad: bool, nightFloor: bool,
    boilerLoss: Loss, tankLoss: Loss, floorLoss: Loss, pressureZero: bool, frost: bool, overtemp: bool,
    alm: Legionella.Alm, ihbHeating: bool, burner: BurnerState, fill: FillState, teh: TehState,
    radValve: ValveState, floorValve: ValveState, well: WellState, noHeat: NoHeat, lamps: LampState)
  {
    predicate Valid() { settings.Valid() && weather.Valid() && lamps.Valid() }
  }

  /** The controller's state from its fields and the recorded relay states. */
  function Assemble(f: Fields, v: seq<bool>): Ctl
    requires Full(v)
  {
    Ctl(f.settings, f.weather, f.nightRad, f.nightFloor, f.boilerLoss, f.tankLoss, f.floorLoss, f.pressureZero, f.frost,
        f.overtemp, f.alm, f.ihbHeating, BurnerOf(f.burner, v), PumpsOf(v), FillOf(f.fill, v), TehOf(f.teh, v),
        ValveOf(f.radValve, v, RAD_VALVE_OPEN), ValveOf(f.floorValve, v, FLOOR_VALVE_OPEN), WellOf(f.well, v),
        v[WATER_HOT_PUMP], f.noHeat, LampsOf(f.lamps, v))
  }

  /** What the heat demand is made of. */
  function DemandOf(f: Fields, v: seq<bool>, now: nat): real
    requires Full(v) && f.weather.Valid()
  {
    Demand(f.settings.rad.pump, RadiatorTarget(f.settings.rad, f.settings.room, f.weather, f.nightRad, now),
           f.settings.floor.pump, FloorTarget(f.settings.floor, f.settings.room, f.weather, f.nightFloor, now),
           Loading(f.settings.tank, f.ihbHeating, v[IHB_PUMP]),
           Legionella.TankTarget(f.alm, f.settings.alm.temp, f.settings.tank.temp) + f.settings.tank.boost)
  }

  lemma DemandIgnoresBurner(f: Fields, b: BurnerState, v: seq<bool>, now: nat)
    requires Full(v) && f.weather.Valid()
    ensures DemandOf(f.(burner := b), v, now) == DemandOf(f, v, now)
  {
  }

  class BoilerLogic {
    const relays: RelayController
    const pza: PZAController
    var settings: Settings
    var burner: BurnerState
    var teh: TehState
    var well: WellState
    var fill: FillState
    var scheduleRadActive: bool
    var scheduleFloorActive: bool
    var alm: Legionella.Alm
    var radValve: ValveState
    var floorValve: ValveState
    var lamps: LampState
    var boilerLoss: Loss
    var ihbLoss: Loss
    var floorLoss: Loss
    var overtemp: bool
    var pressureZero: bool
    var frostProtect: bool
    var noHeat: NoHeat
    var ihbHeating: bool

    ghost predicate Valid()
      reads this, relays, relays.states, relays.written, pza
    {
      relays.Valid() && State().Valid() && !relays.states[SPARE]
    }

    function State(): Fields
      reads this, pza
    {
      Fields(settings, pza.View(), scheduleRadActive, scheduleFloorActive, boilerLoss, ihbLoss, floorLoss, pressureZero,
             frostProtect, overtemp, alm, ihbHeating, burner, fill, teh, radValve, floorValve, well, noHeat, lamps)
    }

    /** The state the controller is in, relays included. */
    ghost function View(): Ctl
      reads this, relays.states, pza
      requires relays.states.Length == RELAY_COUNT
    {
      Assemble(State(), relays.states[..])
    }

    /** Boot: fields at their initial values, settings and the autofill lockout from storage. */
    constructor Begin(relays: RelayController, pza: PZAController, s: Settings, stored: bool)
      requires relays.Valid() && !relays.batch && forall k :: 0 <= k < RELAY_COUNT ==> !relays.states[k]
      requires pza.View() == NO_WEATHER && s.Valid()
      modifies pza
      ensures this.relays == relays && this.pza == pza
      ensures Valid() && View() == Booted(s, stored)
    {
      this.relays, this.pza, settings := relays, pza, s;
      burner, teh := BurnerState(false, false, 0, 0.0), TehState(0, false);
      well := WellState(false, 0, false, 0, 0, false, false);
      fill := FillState(0, false, false, 0, stored, stored);
      scheduleRadActive, scheduleFloorActive, alm := false, false, Legionella.FRESH;
      radValve := ValveState(0, 0, 0, false, false, 0);
      floorValve := ValveState(0, 0, 0, false, false, 0);
      lamps := LampState(0, 0, [0, 0, 0, 0, 0, 0, 0, 0, 0]);
      boilerLoss, ihbLoss, floorLoss := PRESENT, PRESENT, PRESENT;
      overtemp, pressureZero, frostProtect, noHeat, ihbHeating := false, false, false, HEATS, false;
      new;
      ApplyPza(s.pza);
      AlarmLamps.NoBitsSet();
      hide AlarmLamps.Bits;
    }

    /** The settings the weather controller holds. */
    method ApplyPza(p: PzaSettings)
      requires p.Valid() && pza.View().Valid()
      modifies pza
      ensures pza.View() == Configured(old(pza.View()), p)
    {
      pza.radWbm := p.radWbm;
      pza.radCurve := p.radCurve;
      pza.floorWbm := p.floorWbm;
      pza.floorCurve := p.floorCurve;
      pza.filterHours := p.filterHours;
    }

    function IhbTarget(): real
      reads this
    {
      Legionella.TankTarget(alm, settings.alm.temp, settings.tank.temp)
    }

    // ---- Sensing ----

    method CountLoss(l: Loss, reading: Option<real>) returns (m: Loss)
      ensures m == Miss(l, reading)
    {
      var missing := l.missing;
      if reading.None? {
        if missing < 255 {
          missing := missing + 1;
        }
      } else {
        missing := 0;
      }
      m := Loss(missing, missing >= SENSOR_LOSS_CYCLES);
    }

    method UpdateFrost(t: Readings)
      modifies `frostProtect
      ensures frostProtect == Heating.UpdateFrost(old(frostProtect), Lowest(SupplyReadings(t)))
    {
      hide Lowest;
      var any, lowest := FindLowest(SupplyReadings(t));
      if !any {
        return;
      }
      if !frostProtect && lowest < FROST_ENTER {
        frostProtect := true;
      } else if frostProtect && lowest >= FROST_EXIT {
        frostProtect := false;
      }
    }

    /** Is the night setback of a circuit running? */
    method IsNight(n: Night, clock: Option<Clock>) returns (night: bool)
      requires ValidClock(clock)
      ensures night == NightNow(n, clock)
    {
      hide InSchedule;
      night := false;
      if n.enabled {
        night := IsInSchedule(clock, n.days, n.start.h, n.start.m, n.end.h, n.end.m);
      }
    }

    method SenseStage(i: Inputs)
      requires ValidClock(i.clock)
      modifies `scheduleRadActive, `scheduleFloorActive, `boilerLoss, `ihbLoss, `floorLoss, `pressureZero, `frostProtect
      ensures scheduleRadActive == NightNow(settings.rad.night, i.clock)
      ensures scheduleFloorActive == NightNow(settings.floor.night, i.clock)
      ensures boilerLoss == Miss(old(boilerLoss), i.temps.boiler) && ihbLoss == Miss(old(ihbLoss), i.temps.tank)
      ensures floorLoss == Miss(old(floorLoss), i.temps.floor)
      ensures pressureZero == (i.heating.Some? && i.heating.value < Autofill.PRESSURE_ZERO_BAR)
      ensures frostProtect == Heating.UpdateFrost(old(frostProtect), Lowest(SupplyReadings(i.temps)))
    {
      hide NightNow, Miss, Lowest, Heating.UpdateFrost;
      scheduleRadActive := IsNight(settings.rad.night, i.clock);
      scheduleFloorActive := IsNight(settings.floor.night, i.clock);
      boilerLoss := CountLoss(boilerLoss, i.temps.boiler);
      ihbLoss := CountLoss(ihbLoss, i.temps.tank);
      floorLoss := CountLoss(floorLoss, i.temps.floor);
      pressureZero := i.heating.Some? && i.heating.value < Autofill.PRESSURE_ZERO_BAR;
      UpdateFrost(i.temps);
    }

    // ---- Anti-legionella ----

    method WindowEnd(startH: nat, startM: nat, duration: int) returns (endH: nat, endM: int)
      ensures (endH, endM) == AlmEnd(startH, startM, duration)
    {
      endH, endM := startH, startM + duration;
      if endM >= 60 {
        endH := endH + endM / 60;
        endM := endM % 60;
      }
      if endH >= 24 {
        endH := endH - 24;
      }
    }

    method UpdateAntiLegionella(clock: Option<Clock>, tank: Option<real>, now: nat)
      requires ValidClock(clock)
      modifies `alm
      ensures alm == Legionella.UpdateAlm(old(alm), settings.alm, clock, tank, now)
    {
      hide InSchedule, AlmEnd, Legionella.Heat;
      var s := settings.alm;
      if !s.mode || |s.days| == 0 {
        alm := alm.(active := false, noTime := false, inWindow := false, done := false, last := Legionella.NoVerdict);
        return;
      }
      alm := alm.(noTime := clock.None?);
      var endH, endM := WindowEnd(s.startH, s.startM, s.duration);
      var inWindow := IsInSchedule(clock, s.days, s.startH, s.startM, endH, endM);
      if !inWindow {
        if alm.inWindow && !alm.done {
          alm := alm.(last := Legionella.Failed);
        }
        alm := alm.(inWindow := false, active := false);
        return;
      }
      if !alm.inWindow {
        alm := alm.(inWindow := true, done := false, holdActive := false);
      }
      if alm.done {
        alm := alm.(active := false);
        return;
      }
      HoldTemperature(s.temp, tank, now);
    }

    /** Inside the window: raise the target until the tank has held the temperature. */
    method HoldTemperature(temp: real, tank: Option<real>, now: nat)
      modifies `alm
      ensures alm == Legionella.Heat(old(alm), temp, tank, now)
    {
      if tank.Some? && tank.value >= temp {
        if !alm.holdActive {
          alm := alm.(holdActive := true, holdStart := now);
        } else if now - alm.holdStart >= Legionella.ALM_HOLD_MS {
          alm := alm.(done := true, active := false, last := Legionella.Passed);
          return;
        }
      } else if tank.Some? {
        alm := alm.(holdActive := false);
      }
      alm := alm.(active := true);
    }

    // ---- Boiler ----

    /** Highest setpoint of what wants heat, made safe for the boiler. */
    method ComputeTarget(now: nat) returns (target: real)
      requires relays.states.Length == RELAY_COUNT && pza.View().Valid()
      ensures target == AutoTarget(settings.boiler, DemandOf(State(), relays.states[..], now))
    {
      hide RadiatorTarget, FloorTarget, Legionella.TankTarget, Weather.Valid, PZAController.View;
      var w := pza.View();
      target := 0.0;
      if settings.rad.pump {
        var t := RadiatorTarget(settings.rad, settings.room, w, scheduleRadActive, now);
        if t > target {
          target := t;
        }
      }
      if settings.floor.pump {
        var t := FloorTarget(settings.floor, settings.room, w, scheduleFloorActive, now);
        if t > target {
          target := t;
        }
      }
      if (settings.tank.auto || settings.tank.pump) && (ihbHeating || relays.Get(IHB_PUMP)) {
        var t := IhbTarget() + settings.tank.boost;
        if t > target {
          target := t;
        }
      }
      if target > 0.0 {
        if target < settings.boiler.min {
          target := settings.boiler.min;
        }
      } else {
        target := settings.boiler.temp;
      }
      var cap := settings.boiler.max - BOILER_TARGET_MARGIN - BOILER_HYSTERESIS;
      if target > cap {
        target := cap;
      }
    }

    /** The relay as the last cycle left it: when did it last switch? */
    method NoticeSwitch(now: nat)
      requires relays.states.Length == RELAY_COUNT
      modifies `burner
      ensures BurnerOf(burner, relays.states[..]) == Notice(BurnerOf(old(burner), relays.states[..]), now)
      ensures State() == old(State()).(burner := burner)
    {
      hide PZAController.View;
      var relayOn := relays.Get(BOILER_POWER);
      if relayOn != burner.last {
        burner := burner.(last := relayOn, switched := true, changedAt := now);
      }
    }

    /** Auto mode with a reading: regulate to the target, no short cycles; under frost the interlocks decide. */
    method RegulateBoiler(temp: real, now: nat)
      requires relays.Valid() && relays.batch && pza.View().Valid()
      modifies `burner, relays.states, relays.written, relays`history
      ensures relays.Valid() && relays.history == old(relays.history) && relays.written[..] == old(relays.written[..])
      ensures var b := old(BurnerOf(burner, relays.states[..])).(
                autoTarget := old(AutoTarget(settings.boiler, DemandOf(State(), relays.states[..], now))));
              BurnerOf(burner, relays.states[..]) == if frostProtect && !pressureZero then b else Regulate(b, temp, now)
      ensures relays.states[..] == old(relays.states[..])[BOILER_POWER := relays.states[BOILER_POWER]]
    {
      hide Trace, AutoTarget, HeldFor, DemandOf, Weather.Valid, PZAController.View;
      var target := ComputeTarget(now);
      burner := burner.(autoTarget := target);
      if frostProtect && !pressureZero {
        return;
      }
      var isOn := relays.Get(BOILER_POWER);
      var held := HeldFor(BurnerOf(burner, relays.states[..]), now);
      var mayStart := !burner.switched || held >= BOILER_MIN_OFF_MS;
      var mayStop := !burner.switched || held >= BOILER_MIN_ON_MS;
      if !isOn && temp < target && mayStart {
        relays.Set(BOILER_POWER, true);
      } else if isOn && temp >= target + BOILER_HYSTERESIS && mayStop {
        relays.Set(BOILER_POWER, false);
      }
    }

    method UpdateBoiler(temp: Option<real>, now: nat)
      requires relays.Valid() && relays.batch && pza.View().Valid()
      modifies `burner, relays.states, relays.written, relays`history
      ensures relays.Valid() && relays.history == old(relays.history) && relays.written[..] == old(relays.written[..])
      ensures BurnerOf(burner, relays.states[..])
              == UpdateBurner(old(BurnerOf(burner, relays.states[..])), settings.boiler, temp, boilerLoss.lost,
                              MildOutside(pza.View(), now), frostProtect && !pressureZero,
                              old(AutoTarget(settings.boiler, DemandOf(State(), relays.states[..], now))), now)
      ensures relays.states[..] == old(relays.states[..])[BOILER_POWER := relays.states[BOILER_POWER]]
    {
      hide Trace, MildOutside, AutoTarget, HeldFor, DemandOf, Notice, Regulate, State, Weather.Valid,
           PZAController.View;
      ghost var f := State();
      StateHasWeather();
      NoticeSwitch(now);
      DemandIgnoresBurner(f, burner, relays.states[..], now);
      if temp.Some? && temp.value >= settings.boiler.max {
        relays.Set(BOILER_POWER, false);
        return;
      }
      if settings.boiler.auto {
        if temp.None? {
          if boilerLoss.lost && !MildOutside(pza.View(), now) {
            relays.Set(BOILER_POWER, true);
          }
          return;
        }
        RegulateBoiler(temp.value, now);
      } else {
        relays.Set(BOILER_POWER, settings.boiler.power);
      }
    }

    lemma StateHasWeather()
      ensures State().weather == pza.View()
    {
    }

    // ---- Pumps ----

    /** Tank first, then the circuits that give way to it. */
    method DecidePumps(was: Pumps, tank: Option<real>, target: real) returns (p: Pumps)
      ensures p == Heating.UpdatePumps(was, settings.tank, settings.rad, settings.floor, tank, target, ihbHeating)
    {
      var ihbPumpOn := settings.tank.pump;
      if settings.tank.auto {
        if tank.None? {
          ihbPumpOn := false;
        } else if !was.ihb && tank.value < target {
          ihbPumpOn := true;
        } else if was.ihb && tank.value >= target + IHB_HYSTERESIS {
          ihbPumpOn := false;
        } else {
          ihbPumpOn := was.ihb;
        }
      }
      var radOn := settings.rad.pump;
      if settings.rad.offIhb && ihbHeating && ihbPumpOn {
        radOn := false;
      }
      var floorOn := settings.floor.pump;
      if settings.floor.offIhb && ihbHeating && ihbPumpOn {
        floorOn := false;
      }
      p := Pumps(ihbPumpOn, radOn, floorOn);
    }

    method UpdatePumps(tank: Option<real>)
      requires relays.Valid() && relays.batch
      modifies relays.states, relays.written, relays`history
      ensures relays.Valid() && relays.history == old(relays.history) && relays.written[..] == old(relays.written[..])
      ensures PumpsOf(relays.states[..])
              == Heating.UpdatePumps(old(PumpsOf(relays.states[..])), settings.tank, settings.rad, settings.floor, tank,
                                     IhbTarget(), ihbHeating)
      ensures forall k :: 0 <= k < RELAY_COUNT && k != RADIATOR_PUMP && k != FLOOR_PUMP && k != IHB_PUMP ==>
                            relays.states[k] == old(relays.states[k])
    {
      hide Trace, Legionella.TankTarget, Heating.UpdatePumps;
      var p := DecidePumps(Pumps(relays.Get(IHB_PUMP), relays.Get(RADIATOR_PUMP), relays.Get(FLOOR_PUMP)), tank,
                           IhbTarget());
      relays.Set(IHB_PUMP, p.ihb);
      relays.Set(RADIATOR_PUMP, p.rad);
      relays.Set(FLOOR_PUMP, p.floor);
    }

    // ---- Autofill valve ----

    method CloseAutofill(now: nat)
      requires relays.Valid()
      modifies `fill, relays.states, relays.written, relays`history
      ensures relays.Valid()
      ensures FillOf(fill, relays.states[..]) == Autofill.Close(old(FillOf(fill, relays.states[..])), now)
      ensures relays.states[..] == old(relays.states[..])[AUTOFILL_OPEN := false][AUTOFILL_CLOSE := true]
      ensures if relays.batch
              then relays.history == old(relays.history) && relays.written[..] == old(relays.written[..])
              else relays.history == old(relays.history)
                   + Trace(old(relays.written[..]), [Write(AUTOFILL_OPEN, false), Write(AUTOFILL_CLOSE, true)])
    {
      hide Trace;
      ghost var v := relays.written[..];
      relays.Set(AUTOFILL_OPEN, false);
      relays.Set(AUTOFILL_CLOSE, true);
      if !relays.batch { TraceTwo(v, Write(AUTOFILL_OPEN, false), Write(AUTOFILL_CLOSE, true)); }
      fill := fill.(active := false, closing := true, closeStart := now);
    }

    /** The pressure did not recover in time, most likely a leak: lock out until reset, over reboots too. */
    method TripAutofillTimeout(now: nat)
      requires relays.Valid()
      modifies `fill, relays.states, relays.written, relays`history
      ensures relays.Valid()
      ensures FillOf(fill, relays.states[..]) == Autofill.Trip(old(FillOf(fill, relays.states[..])), now)
      ensures relays.states[..] == old(relays.states[..])[AUTOFILL_OPEN := false][AUTOFILL_CLOSE := true]
      ensures if relays.batch
              then relays.history == old(relays.history) && relays.written[..] == old(relays.written[..])
              else relays.history == old(relays.history)
                   + Trace(old(relays.written[..]), [Write(AUTOFILL_OPEN, false), Write(AUTOFILL_CLOSE, true)])
    {
      hide Trace;
      CloseAutofill(now);
      fill := fill.(fault := true, stored := true);
    }

    method UpdateAutofill(pressure: Option<real>, now: nat)
      requires relays.Valid() && relays.batch
      modifies `fill, relays.states, relays.written, relays`history
      ensures relays.Valid() && relays.history == old(relays.history) && relays.written[..] == old(relays.written[..])
      ensures FillOf(fill, relays.states[..])
              == Autofill.UpdateFill(old(FillOf(fill, relays.states[..])), settings.fill.enabled, settings.fill.pMin,
                                     pressure, now)
      ensures forall k :: 0 <= k < RELAY_COUNT && k != AUTOFILL_OPEN && k != AUTOFILL_CLOSE ==>
                            relays.states[k] == old(relays.states[k])
    {
      hide Trace;
      if fill.closing || pressure.None? {
        return;
      }
      if !settings.fill.enabled || fill.fault {
        if fill.active {
          CloseAutofill(now);
        }
        return;
      }
      if fill.active {
        if now - fill.start > Autofill.AUTOFILL_MAX_MS {
          TripAutofillTimeout(now);
          return;
        }
        if pressure.value >= settings.fill.pMin + Autofill.AUTOFILL_HYSTERESIS {
          CloseAutofill(now);
        }
      } else if pressure.value < settings.fill.pMin && pressure.value >= Autofill.PRESSURE_ZERO_BAR {
        relays.Set(AUTOFILL_CLOSE, false);
        relays.Set(AUTOFILL_OPEN, true);
        fill := fill.(active := true, start := now);
      }
    }

    // ---- Electric heater ----

    method UpdateTeh(tank: Option<real>, boiler: Option<real>, now: nat)
      requires relays.Valid() && relays.batch
      modifies `teh, relays.states, relays.written, relays`history
      ensures relays.Valid() && relays.history == old(relays.history) && relays.written[..] == old(relays.written[..])
      ensures TehOf(teh, relays.states[..])
              == Heating.UpdateTeh(old(TehOf(teh, relays.states[..])), settings.tank, tank, IhbTarget(), boiler,
                                   old(relays.states[BOILER_POWER]), old(relays.states[IHB_PUMP]), ihbHeating, now)
      ensures relays.states[..] == old(relays.states[..])[TEH := relays.states[TEH]]
    {
      hide Trace, Legionella.TankTarget;
      if tank.None? || tank.value >= IhbTarget() {
        relays.Set(TEH, false);
        teh := teh.(delayActive := false);
        return;
      }
      if settings.tank.tehAuto {
        var boilerHeatingIhb := relays.Get(BOILER_POWER) && relays.Get(IHB_PUMP)
                                && boiler.Some? && boiler.value > tank.value + TEH_BOILER_MARGIN;
        if boilerHeatingIhb {
          relays.Set(TEH, false);
          teh := teh.(delayActive := false);
        } else if ihbHeating {
          if !teh.delayActive {
            teh := teh.(delayActive := true, delayStart := now);
          } else if now - teh.delayStart >= (settings.tank.tehDelay * 60_000) % WRAP {
            relays.Set(TEH, true);
          }
        } else {
          teh := teh.(delayActive := false);
          relays.Set(TEH, false);
        }
      } else {
        relays.Set(TEH, settings.tank.tehPower);
      }
    }

    // ---- Three-way valves ----

    method FinishValvePulse(vs: ValveState, open: nat, now: nat) returns (vs': ValveState)
      requires relays.Valid() && open < RELAY_COUNT - 1
      modifies relays.states, relays.written, relays`history
      ensures relays.Valid()
      ensures ValveOf(vs', relays.states[..], open)
              == Valves.FinishPulse(old(ValveOf(vs, relays.states[..], open)), now)
      ensures forall k :: 0 <= k < RELAY_COUNT && k != open && k != open + 1 ==>
                            relays.states[k] == old(relays.states[k])
      ensures if relays.batch
              then relays.history == old(relays.history) && relays.written[..] == old(relays.written[..])
              else relays.history == old(relays.history)
                   + Trace(old(relays.written[..]), PulseWrites(old(ValveOf(vs, relays.states[..], open)), now, open))
    {
      hide Trace;
      ghost var v := relays.written[..];
      if vs.driveMs == 0 || now - vs.driveStart < vs.driveMs {
        TraceNone(v);
        return vs;
      }
      relays.Set(open, false);
      relays.Set(open + 1, false);
      if !relays.batch { TraceTwo(v, Write(open, false), Write(open + 1, false)); }
      vs' := vs.(driveMs := 0);
    }

    method DriveValve(vs: ValveState, open: nat, target: real, actual: Option<real>, pumpOn: bool, now: nat)
      returns (vs': ValveState)
      requires relays.Valid() && relays.batch && open < RELAY_COUNT - 1
      modifies relays.states, relays.written, relays`history
      ensures relays.Valid() && relays.history == old(relays.history) && relays.written[..] == old(relays.written[..])
      ensures ValveOf(vs', relays.states[..], open)
              == Valves.Drive(old(ValveOf(vs, relays.states[..], open)), target, actual, pumpOn, now)
      ensures forall k :: 0 <= k < RELAY_COUNT && k != open && k != open + 1 ==>
                            relays.states[k] == old(relays.states[k])
    {
      hide Trace, Valves.Pulse, Valves.Abs, PulseWrites;
      vs' := FinishValvePulse(vs, open, now);
      if !pumpOn {
        vs' := vs'.(pumpRunning := false);
        return;
      }
      if !vs'.pumpRunning {
        vs' := vs'.(pumpRunning := true, pumpSince := now);
      }
      if now - vs'.pumpSince < Valves.VALVE_SETTLE_MS {
        return;
      }
      if vs'.driveMs > 0 {
        return;
      }
      if now - vs'.lastAdjust < Valves.VALVE_ADJUST_INTERVAL_MS {
        return;
      }
      vs' := vs'.(lastAdjust := now);
      if target < 0.0 || actual.None? {
        return;
      }
      var error := target - actual.value;
      if Valves.Abs(error) <= Valves.VALVE_DEADBAND {
        return;
      }
      var shouldOpen := error > 0.0;
      relays.Set(if shouldOpen then open else open + 1, true);
      relays.Set(if shouldOpen then open + 1 else open, false);
      vs' := vs'.(driveStart := now, driveMs := Valves.Pulse(error), opening := shouldOpen);
    }

    // ---- Well pump ----

    method UpdateWell(waterPressure: Option<real>, now: nat)
      requires relays.Valid() && relays.batch
      modifies `well, relays.states, relays.written, relays`history
      ensures relays.Valid() && relays.history == old(relays.history) && relays.written[..] == old(relays.written[..])
      ensures WellOf(well, relays.states[..])
              == Well.UpdateWell(old(WellOf(well, relays.states[..])), settings.water.pump, waterPressure, now)
      ensures relays.states[..] == old(relays.states[..])[WATER_PUMP := relays.states[WATER_PUMP]]
    {
      hide Trace;
      if !settings.water.pump {
        relays.Set(WATER_PUMP, false);
        well := well.(lowActive := false, waiting := false, locked := false, dry := false, failures := 0);
        return;
      }
      if waterPressure.None? {
        relays.Set(WATER_PUMP, true);
        well := well.(lowActive := false, dry := false);
        return;
      }
      if well.locked || (well.waiting && now < well.retryAt) {
        relays.Set(WATER_PUMP, false);
        return;
      }
      if well.waiting {
        well := well.(waiting := false, lowActive := false);
      }
      relays.Set(WATER_PUMP, true);
      if waterPressure.value < Well.WELL_MIN_BAR {
        if !well.lowActive {
          well := well.(lowActive := true, lowSince := now);
        }
        if now - well.lowSince >= Well.WELL_GRACE_MS {
          relays.Set(WATER_PUMP, false);
          well := well.(lowActive := false, failures := well.failures + 1);
          if well.failures >= Well.WELL_MAX_TRIES {
            well := well.(locked := true);
          } else {
            well := well.(waiting := true, retryAt := now + Well.WELL_RETRY_MS);
          }
        }
      } else {
        well := well.(lowActive := false, failures := 0);
      }
      well := well.(dry := well.waiting || well.locked);
    }

    // ---- Interlocks: the last word of every cycle ----

    method MustBeOff(temp: Option<real>, now: nat) returns (off: bool)
      requires overtemp == Overtemp(settings.boiler, temp)
      ensures off == OffReason(settings.boiler, temp, frostProtect, boilerLoss.lost, MildOutside(pza.View(), now))
    {
      hide MildOutside, Overtemp;
      off := false;
      if overtemp {
        off := true;
      } else if frostProtect {
        off := false;
      } else if !settings.boiler.auto && !settings.boiler.power {
        off := true;
      } else if settings.boiler.auto && boilerLoss.lost && MildOutside(pza.View(), now) {
        off := true;
      }
    }

    method SwitchOff(temp: Option<real>, now: nat)
      requires relays.Valid() && relays.batch
      modifies `overtemp, relays.states, relays.written, relays`history
      ensures relays.Valid() && relays.history == old(relays.history) && relays.written[..] == old(relays.written[..])
      ensures overtemp == Overtemp(settings.boiler, temp)
      ensures var off := OffReason(settings.boiler, temp, frostProtect, boilerLoss.lost, MildOutside(pza.View(), now));
              relays.states[..]
              == old(relays.states[..])[BOILER_POWER := old(relays.states[BOILER_POWER]) && !off]
    {
      hide Trace, MildOutside, OffReason, PZAController.View;
      overtemp := temp.Some? && temp.value >= settings.boiler.max;
      var off := MustBeOff(temp, now);
      if off && relays.Get(BOILER_POWER) {
        relays.Set(BOILER_POWER, false);
      }
    }

    method ApplyInterlocks(temp: Option<real>, now: nat)
      requires relays.Valid() && relays.batch
      modifies `overtemp, `fill, relays.states, relays.written, relays`history
      ensures relays.Valid() && relays.history == old(relays.history) && relays.written[..] == old(relays.written[..])
      ensures overtemp == Overtemp(settings.boiler, temp)
      ensures relays.states[BOILER_POWER]
              == InterlockedBoiler(old(relays.states[BOILER_POWER]), settings.boiler, temp, frostProtect, pressureZero,
                                   boilerLoss.lost, MildOutside(pza.View(), now))
      ensures FillOf(fill, relays.states[..]) == Autofill.Interlocked(old(FillOf(fill, relays.states[..])), now)
      ensures PumpsOf(relays.states[..])
              == InterlockedPumps(old(PumpsOf(relays.states[..])), frostProtect, pressureZero, floorLoss.lost)
      ensures forall k :: 0 <= k < RELAY_COUNT && !MovedByInterlocks(k) ==> relays.states[k] == old(relays.states[k])
    {
      hide Trace, MildOutside, OffReason, Overtemp, PZAController.View, InterlockedPumps;
      SwitchOff(temp, now);
      if fill.fault && relays.Get(AUTOFILL_OPEN) {
        CloseAutofill(now);
      }
      ForcePumps();
    }

    /** Frost protection circulates and heats, but never in an emptied system; a blind floor never runs. */
    method ForcePumps()
      requires relays.Valid() && relays.batch
      modifies relays.states, relays.written, relays`history
      ensures relays.Valid() && relays.history == old(relays.history) && relays.written[..] == old(relays.written[..])
      ensures relays.states[BOILER_POWER]
              == (old(relays.states[BOILER_POWER]) || (frostProtect && !pressureZero && !overtemp))
      ensures PumpsOf(relays.states[..])
              == InterlockedPumps(old(PumpsOf(relays.states[..])), frostProtect, pressureZero, floorLoss.lost)
      ensures forall k :: 0 <= k < RELAY_COUNT && k != BOILER_POWER && k != RADIATOR_PUMP && k != FLOOR_PUMP ==>
                            relays.states[k] == old(relays.states[k])
    {
      hide Trace;
      if frostProtect && !pressureZero {
        relays.Set(RADIATOR_PUMP, true);
        relays.Set(FLOOR_PUMP, true);
        if !overtemp {
          relays.Set(BOILER_POWER, true);
        }
      }
      if floorLoss.lost {
        relays.Set(FLOOR_PUMP, false);
      }
    }

    // ---- Boiler doesn't heat ----

    method UpdateNoHeat(temp: Option<real>, now: nat)
      requires relays.states.Length == RELAY_COUNT
      modifies `noHeat
      ensures noHeat == Heating.UpdateNoHeat(old(noHeat), settings.boiler, relays.states[BOILER_POWER], temp,
                                             burner.autoTarget, now)
    {
      if !relays.Get(BOILER_POWER) || temp.None? {
        noHeat := noHeat.(onActive := false, stalled := false, noHeat := false);
        return;
      }
      var bt := temp.value;
      if !noHeat.onActive {
        noHeat := noHeat.(onActive := true, onSince := now, checkAt := now, checkTemp := bt);
      }
      var cold := if settings.boiler.auto then bt < burner.autoTarget - NO_HEAT_GAP else bt < NO_HEAT_MANUAL_BELOW;
      if !cold {
        noHeat := noHeat.(checkAt := now, checkTemp := bt, stalled := false, noHeat := false);
        return;
      }
      if now - noHeat.checkAt >= NO_HEAT_WINDOW_MS {
        noHeat := noHeat.(stalled := bt - noHeat.checkTemp < NO_HEAT_MIN_RISE, checkAt := now, checkTemp := bt);
      }
      noHeat := noHeat.(noHeat := now - noHeat.onSince >= NO_HEAT_AFTER_MS && noHeat.stalled);
    }

    // ---- Alarm lamps ----

    method RaiseIf(causes: bv16, cond: bool, cause: nat) returns (causes': bv16)
      requires cause < AlarmLamps.CRIT_BITS && AlarmLamps.Small(causes)
      ensures AlarmLamps.Small(causes') && AlarmLamps.Bits(causes') == AlarmLamps.Bits(causes) + When(cond, cause)
    {
      hide AlarmLamps.Small, AlarmLamps.Bits, AlarmLamps.Raised;
      causes' := causes;
      if cond {
        AlarmLamps.SetBit(causes, cause);
        causes' := AlarmLamps.Raised(causes, cause);
      }
    }

    /** Far out of range; with a little hysteresis while the alarm is on. */
    method IsPressureCritical(pressure: real) returns (critical: bool)
      requires Valid()
      ensures critical == PressureCritical(View(), pressure)
    {
      hide Fields.Valid, AlarmLamps.Has;
      var hyst := if AlarmLamps.Has(lamps.causes, AlarmLamps.CRIT_PRESSURE) then PRESSURE_CRIT_HYSTERESIS else 0.0;
      critical := pressure < settings.fill.pMin - 0.3 + hyst || pressure > settings.fill.pMax + 0.3 - hyst;
    }

    /** One bit for each cause that holds. */
    method JoinCauses(c0: bool, c1: bool, c2: bool, c3: bool, c4: bool, c5: bool, c6: bool, c7: bool, c8: bool)
      returns (causes: bv16)
      ensures AlarmLamps.Small(causes)
      ensures AlarmLamps.Bits(causes)
              == When(c0, 0) + When(c1, 1) + When(c2, 2) + When(c3, 3) + When(c4, 4) + When(c5, 5) + When(c6, 6)
                 + When(c7, 7) + When(c8, 8)
    {
      hide AlarmLamps.Small, AlarmLamps.Bits, When;
      AlarmLamps.NoBitsSet();
      causes := 0;
      causes := RaiseIf(causes, c0, AlarmLamps.CRIT_PRESSURE_ZERO);
      assert {} + When(c0, 0) == When(c0, 0);
      causes := RaiseIf(causes, c1, AlarmLamps.CRIT_PRESSURE);
      causes := RaiseIf(causes, c2, AlarmLamps.CRIT_BOILER_MAX);
      causes := RaiseIf(causes, c3, AlarmLamps.CRIT_IHB_SENSOR);
      causes := RaiseIf(causes, c4, AlarmLamps.CRIT_BOILER_SENSOR);
      causes := RaiseIf(causes, c5, AlarmLamps.CRIT_OVERTEMP);
      causes := RaiseIf(causes, c6, AlarmLamps.CRIT_AUTOFILL);
      causes := RaiseIf(causes, c7, AlarmLamps.CRIT_FROST);
      causes := RaiseIf(causes, c8, AlarmLamps.CRIT_NO_HEAT);
    }

    method CollectCauses(i: Inputs) returns (causes: bv16)
      requires Valid()
      ensures AlarmLamps.Small(causes) && AlarmLamps.Bits(causes) == Causes(View(), i)
    {
      hide AlarmLamps.Small, AlarmLamps.Bits, PressureCritical, When, Causes, Assemble, Fields.Valid, Overtemp,
           Weather.OutdoorFresh, PZAController.View;
      var critical := false;
      if !pressureZero && i.heating.Some? {
        critical := IsPressureCritical(i.heating.value);
      }
      var w := pza.View();
      var noHeatCold := noHeat.noHeat && w.OutdoorFresh(i.now) && w.outdoor.temp < 0.0;
      causes := JoinCauses(pressureZero, critical, Overtemp(settings.boiler, i.temps.boiler),
                           settings.tank.auto && ihbLoss.lost, boilerLoss.lost, overtemp, fill.fault, frostProtect,
                           noHeatCold);
      CausesOfFields(State(), relays.states[..], i, critical, noHeatCold);
    }

    method IsWarned(i: Inputs) returns (warning: bool)
      requires Valid()
      ensures warning == Warned(View(), i)
    {
      hide Fields.Valid, LampsOf, BurnerOf, TehOf, ValveOf, PumpsOf, FillOf, PZAController.View, Weather.OutdoorFresh;
      var w := pza.View();
      warning := false;
      if !pressureZero && i.heating.Some? {
        if i.heating.value < settings.fill.pMin || i.heating.value > settings.fill.pMax {
          warning := true;
        }
      }
      if i.temps.boiler.None? || i.temps.boiler.value >= settings.boiler.max - 2.0 {
        warning := true;
      }
      if (settings.rad.pump && i.temps.rad.None?) || (settings.floor.pump && i.temps.floor.None?) {
        warning := true;
      }
      if noHeat.noHeat && !(w.OutdoorFresh(i.now) && w.outdoor.temp < 0.0) {
        warning := true;
      }
      if well.dry || ihbLoss.lost || floorLoss.lost {
        warning := true;
      }
    }

    method UpdateAlarms(i: Inputs)
      requires Valid() && relays.batch
      modifies `lamps, relays.states, relays.written, relays`history
      ensures relays.Valid() && relays.history == old(relays.history) && relays.written[..] == old(relays.written[..])
      ensures lamps.Valid() && old(View().lamps.Valid())
      ensures LampsOf(lamps, relays.states[..])
              == AlarmLamps.UpdateLamps(old(View().lamps), old(Causes(View(), i)), old(Warned(View(), i)), i.now)
      ensures forall k :: 0 <= k < RELAY_COUNT && k != LAMP_WARNING && k != LAMP_CRITICAL ==>
                            relays.states[k] == old(relays.states[k])
    {
      hide Trace, Causes, Warned, Assemble, AlarmLamps.Small, AlarmLamps.Bits, AlarmLamps.Unmuted,
           AlarmLamps.Remembered, AlarmLamps.SeenNow, PZAController.View, Weather.Valid, Settings.Valid;
      LampsAreValid(State(), relays.states[..]);
      var causes := CollectCauses(i);
      var warning := IsWarned(i);
      var muted, seenAt := AlarmLamps.ForgetMutes(causes, lamps.muted, lamps.seenAt, i.now);
      AlarmLamps.UnmutedIsDifference(causes, muted);
      lamps := LampState(causes, muted, seenAt);
      relays.Set(LAMP_WARNING, warning);
      relays.Set(LAMP_CRITICAL, AlarmLamps.Unmuted(causes, muted) != 0);
    }

    // ---- The cycle, step by step ----

    method SenseStep(i: Inputs)
      requires Valid() && ValidClock(i.clock)
      modifies `scheduleRadActive, `scheduleFloorActive, `boilerLoss, `ihbLoss, `floorLoss, `pressureZero, `frostProtect
      ensures Valid() && View() == Controller.Sense(old(View()), i)
    {
      hide Controller.Sense, NightNow, Miss, Lowest, Heating.UpdateFrost, Assemble, Fields.Valid, PZAController.View;
      ghost var f := State();
      SenseStage(i);
      StillValid(f, State());
      SenseAssembled(f, relays.states[..], i);
    }

    method DisinfectStep(i: Inputs)
      requires Valid() && ValidClock(i.clock)
      modifies `alm, `ihbHeating
      ensures Valid() && View() == Disinfect(old(View()), i)
    {
      hide Disinfect, Legionella.UpdateAlm, Legionella.TankTarget, Assemble, Fields.Valid, PZAController.View;
      ghost var f := State();
      UpdateAntiLegionella(i.clock, i.temps.tank, i.now);
      ihbHeating := i.temps.tank.Some? && i.temps.tank.value < IhbTarget();
      StillValid(f, State());
      DisinfectAssembled(f, relays.states[..], alm, ihbHeating, i);
    }

    method BurnStep(i: Inputs)
      requires Valid() && relays.batch
      modifies `burner, relays.states, relays.written, relays`history
      ensures Valid() && relays.history == old(relays.history) && relays.written[..] == old(relays.written[..])
      ensures old(View().Valid()) && View() == Burn(old(View()), i)
    {
      hide Burn, Ctl.Valid, Trace, Assemble, AutoTarget, DemandOf, MildOutside, UpdateBurner, Fields.Valid,
           PZAController.View, Weather.Valid;
      ghost var f, v := State(), relays.states[..];
      FieldsAreValid(f, v);
      UpdateBoiler(i.temps.boiler, i.now);
      StillValid(f, State());
      BurnAssembled(f, v, burner, relays.states[..], i);
    }

    method PumpStep(i: Inputs)
      requires Valid() && relays.batch
      modifies relays.states, relays.written, relays`history
      ensures Valid() && relays.history == old(relays.history) && relays.written[..] == old(relays.written[..])
      ensures View() == Pump(old(View()), i)
    {
      hide Pump, Trace, Assemble, Legionella.TankTarget, Heating.UpdatePumps, Fields.Valid, PZAController.View;
      ghost var v := relays.states[..];
      UpdatePumps(i.temps.tank);
      PumpAssembled(State(), v, relays.states[..], i);
    }

    method FillStep(i: Inputs)
      requires Valid() && relays.batch
      modifies `fill, relays.states, relays.written, relays`history
      ensures Valid() && relays.history == old(relays.history) && relays.written[..] == old(relays.written[..])
      ensures View() == FillSystem(old(View()), i)
    {
      hide FillSystem, Trace, Assemble, Autofill.UpdateFill, Fields.Valid, PZAController.View;
      ghost var f, v := State(), relays.states[..];
      UpdateAutofill(i.heating, i.now);
      StillValid(f, State());
      FillAssembled(f, v, fill, relays.states[..], i);
    }

    method TehStep(i: Inputs)
      requires Valid() && relays.batch
      modifies `teh, relays.states, relays.written, relays`history
      ensures Valid() && relays.history == old(relays.history) && relays.written[..] == old(relays.written[..])
      ensures View() == Electric(old(View()), i)
    {
      hide Electric, Trace, Assemble, Heating.UpdateTeh, Legionella.TankTarget, Fields.Valid, PZAController.View;
      ghost var f, v := State(), relays.states[..];
      UpdateTeh(i.temps.tank, i.temps.boiler, i.now);
      StillValid(f, State());
      TehAssembled(f, v, teh, relays.states[..], i);
    }

    /** Will the circuit's pump run, and what is its supply target? */
    method RadWants(now: nat) returns (pumpOn: bool, target: real)
      requires relays.Valid() && State().weather.Valid()
      ensures var f, v := State(), relays.states[..];
              && pumpOn == (v[RADIATOR_PUMP] || (f.frost && !f.pressureZero))
              && target == RadiatorTarget(f.settings.rad, f.settings.room, f.weather, f.nightRad, now)
    {
      hide RadiatorTarget, PZAController.View, Weather.Valid;
      pumpOn := relays.Get(RADIATOR_PUMP) || (frostProtect && !pressureZero);
      target := RadiatorTarget(settings.rad, settings.room, pza.View(), scheduleRadActive, now);
    }

    method RadValveStep(i: Inputs)
      requires Valid() && relays.batch
      modifies `radValve, relays.states, relays.written, relays`history
      ensures Valid() && relays.history == old(relays.history) && relays.written[..] == old(relays.written[..])
      ensures old(View().Valid()) && View() == MoveRadValve(old(View()), i)
    {
      hide MoveRadValve, Ctl.Valid, Trace, Assemble, Valves.Drive, RadiatorTarget, Fields.Valid, PZAController.View,
           Weather.Valid;
      ghost var f, v := State(), relays.states[..];
      FieldsAreValid(f, v);
      var pumpOn, target := RadWants(i.now);
      radValve := DriveValve(radValve, RAD_VALVE_OPEN, target, i.temps.rad, pumpOn, i.now);
      StillValid(f, State());
      RadAssembled(f, v, radValve, relays.states[..], i);
    }

    /** Will the circuit's pump run, and what is its supply target? */
    method FloorWants(now: nat) returns (pumpOn: bool, target: real)
      requires relays.Valid() && State().weather.Valid()
      ensures var f, v := State(), relays.states[..];
              && pumpOn == ((v[FLOOR_PUMP] || (f.frost && !f.pressureZero)) && !f.floorLoss.lost)
              && target == FloorTarget(f.settings.floor, f.settings.room, f.weather, f.nightFloor, now)
    {
      hide FloorTarget, PZAController.View, Weather.Valid;
      pumpOn := (relays.Get(FLOOR_PUMP) || (frostProtect && !pressureZero)) && !floorLoss.lost;
      target := FloorTarget(settings.floor, settings.room, pza.View(), scheduleFloorActive, now);
    }

    method FloorValveStep(i: Inputs)
      requires Valid() && relays.batch
      modifies `floorValve, relays.states, relays.written, relays`history
      ensures Valid() && relays.history == old(relays.history) && relays.written[..] == old(relays.written[..])
      ensures old(View().Valid()) && View() == MoveFloorValve(old(View()), i)
    {
      hide MoveFloorValve, Ctl.Valid, Trace, Assemble, Valves.Drive, FloorTarget, Fields.Valid, PZAController.View,
           Weather.Valid;
      ghost var f, v := State(), relays.states[..];
      FieldsAreValid(f, v);
      var pumpOn, target := FloorWants(i.now);
      floorValve := DriveValve(floorValve, FLOOR_VALVE_OPEN, target, i.temps.floor, pumpOn, i.now);
      StillValid(f, State());
      FloorAssembled(f, v, floorValve, relays.states[..], i);
    }

    method WellStep(i: Inputs)
      requires Valid() && relays.batch
      modifies `well, relays.states, relays.written, relays`history
      ensures Valid() && relays.history == old(relays.history) && relays.written[..] == old(relays.written[..])
      ensures View() == PumpWell(old(View()), i)
    {
      hide PumpWell, Trace, Assemble, Well.UpdateWell, Fields.Valid, PZAController.View;
      ghost var f, v := State(), relays.states[..];
      UpdateWell(i.water, i.now);
      StillValid(f, State());
      WellAssembled(f, v, well, relays.states[..], i);
    }

    method HotPumpStep(i: Inputs)
      requires Valid() && relays.batch && ValidClock(i.clock)
      modifies relays.states, relays.written, relays`history
      ensures Valid() && relays.history == old(relays.history) && relays.written[..] == old(relays.written[..])
      ensures View() == Recirculate(old(View()), i)
    {
      hide Recirculate, Trace, Assemble, RecircWindow, Fields.Valid, PZAController.View;
      ghost var v := relays.states[..];
      var window := InRecircWindow(i.clock);
      relays.Set(WATER_HOT_PUMP, settings.water.hotPump && window);
      HotPumpAssembled(State(), v, settings.water.hotPump && window, i);
    }

    method InRecircWindow(clock: Option<Clock>) returns (window: bool)
      requires ValidClock(clock)
      ensures window == RecircWindow(settings.water, clock)
    {
      hide InSchedule;
      var s := settings.water;
      if !s.recirc || clock.None? {
        return true;
      }
      window := IsInSchedule(clock, EVERY_DAY, s.morningStart.h, s.morningStart.m, s.morningEnd.h, s.morningEnd.m);
      if !window {
        window := IsInSchedule(clock, EVERY_DAY, s.eveningStart.h, s.eveningStart.m, s.eveningEnd.h, s.eveningEnd.m);
      }
    }

    method InterlockStep(i: Inputs)
      requires Valid() && relays.batch
      modifies `overtemp, `fill, relays.states, relays.written, relays`history
      ensures Valid() && relays.history == old(relays.history) && relays.written[..] == old(relays.written[..])
      ensures View() == Interlock(old(View()), i)
    {
      hide Interlock, Trace, Assemble, InterlockedBoiler, InterlockedPumps, Autofill.Interlocked, Overtemp,
           MildOutside, Fields.Valid, PZAController.View;
      ghost var f, v := State(), relays.states[..];
      ApplyInterlocks(i.temps.boiler, i.now);
      StillValid(f, State());
      InterlockAssembled(f, v, overtemp, fill, relays.states[..], i);
    }

    method WatchStep(i: Inputs)
      requires Valid()
      modifies `noHeat
      ensures Valid() && View() == WatchHeat(old(View()), i)
    {
      hide WatchHeat, Assemble, Heating.UpdateNoHeat, Fields.Valid, PZAController.View;
      ghost var f := State();
      UpdateNoHeat(i.temps.boiler, i.now);
      StillValid(f, State());
      WatchAssembled(f, relays.states[..], i);
    }

    method AlarmStep(i: Inputs)
      requires Valid() && relays.batch
      modifies `lamps, relays.states, relays.written, relays`history
      ensures Valid() && relays.history == old(relays.history) && relays.written[..] == old(relays.written[..])
      ensures old(View().lamps.Valid()) && View() == Alert(old(View()), i)
    {
      hide Alert, Trace, Assemble, Causes, Warned, AlarmLamps.UpdateLamps, PZAController.View, Weather.Valid,
           Settings.Valid, LampState.Valid, LampsOf, AlarmLamps.Lamps.Valid;
      ghost var f, v := State(), relays.states[..];
      UpdateAlarms(i);
      AlarmAssembled(f, v, lamps, relays.states[..], i);
    }

    method HeatStage(i: Inputs)
      requires Valid() && relays.batch && ValidClock(i.clock)
      modifies this, relays.states, relays.written, relays`history
      ensures Valid() && relays.history == old(relays.history) && relays.written[..] == old(relays.written[..])
      ensures old(View().Valid()) && View() == HeatPhase(old(View()), i)
    {
      hide Trace, View, Valid, State, Sense, Disinfect, Burn, Pump, Ctl.Valid;
      OutputsOfView();
      SenseStep(i);
      DisinfectStep(i);
      BurnStep(i);
      PumpStep(i);
    }

    method WaterStage(i: Inputs)
      requires Valid() && relays.batch && ValidClock(i.clock)
      modifies this, relays.states, relays.written, relays`history
      ensures Valid() && relays.history == old(relays.history) && relays.written[..] == old(relays.written[..])
      ensures old(View().Valid()) && View() == WaterPhase(old(View()), i)
    {
      hide Trace, View, Valid, State, FillSystem, Electric, MoveRadValve, MoveFloorValve, PumpWell, Recirculate,
           Ctl.Valid;
      OutputsOfView();
      FillStep(i);
      TehStep(i);
      RadValveStep(i);
      FloorValveStep(i);
      WellStep(i);
      HotPumpStep(i);
    }

    method SafetyStage(i: Inputs)
      requires Valid() && relays.batch
      modifies this, relays.states, relays.written, relays`history
      ensures Valid() && relays.history == old(relays.history) && relays.written[..] == old(relays.written[..])
      ensures old(View().Valid()) && View() == SafetyPhase(old(View()), i)
    {
      hide Trace, View, Valid, State, Interlock, WatchHeat, Alert, Ctl.Valid;
      OutputsOfView();
      InterlockStep(i);
      WatchStep(i);
      AlarmStep(i);
    }

    /** The whole cycle on the recorded states. */
    method RunCycle(i: Inputs)
      requires Valid() && relays.batch && ValidClock(i.clock)
      modifies this, relays.states, relays.written, relays`history
      ensures Valid() && relays.history == old(relays.history) && relays.written[..] == old(relays.written[..])
      ensures old(View().Valid()) && View() == Cycle(old(View()), i)
    {
      hide Trace, View, Valid, State, HeatPhase, WaterPhase, SafetyPhase, Outputs, Ctl.Valid;
      OutputsOfView();
      HeatStage(i);
      WaterStage(i);
      SafetyStage(i);
    }

    lemma OutputsOfView()
      requires Valid()
      ensures View().Valid() && Outputs(View()) == relays.states[..]
    {
      FieldsAreValid(State(), relays.states[..]);
      OutputsAreStates(State(), relays.states[..]);
    }

    /** The update cycle: outputs change once, at its end, and nothing overrides the interlocks. */
    method Update(temps: Readings, heatingPressure: Option<real>, waterPressure: Option<real>, clock: Option<Clock>,
                  now: nat)
      requires Valid() && !relays.batch && ValidClock(clock)
      modifies this, relays, relays.states, relays.written
      ensures Valid() && !relays.batch && old(View().Valid())
      ensures View() == Cycle(old(View()), Inputs(now, temps, heatingPressure, waterPressure, clock))
      ensures relays.history == old(relays.history)
              + UpdateTrace(old(View()), Inputs(now, temps, heatingPressure, waterPressure, clock))
    {
      var i := Inputs(now, temps, heatingPressure, waterPressure, clock);
      hide Trace, View, State, Cycle, Outputs, Changes, Ctl.Valid, Fields.Valid, UpdateTrace;
      OutputsOfView();
      ghost var c := View();
      relays.BeginBatch();
      RunCycle(i);
      WriteOut(c);
      TraceOfUpdate(c, i);
    }

    /** End of the cycle: the changed outputs go to the pins. */
    method WriteOut(ghost c: Ctl)
      requires Valid() && relays.written[..] == Outputs(c)
      modifies relays, relays.written
      ensures Valid() && !relays.batch
      ensures relays.history == old(relays.history) + Trace(Outputs(c), Changes(Outputs(c), Outputs(View()), 0))
    {
      hide Trace, View, State, Outputs, Changes, Ctl.Valid, Fields.Valid;
      OutputsOfView();
      relays.Commit();
    }

    // ---- Between the cycles ----

    method RadTick(now: nat)
      requires Valid() && !relays.batch
      modifies `radValve, relays.states, relays.written, relays`history
      ensures Valid() && View() == old(View()).(radValve := Valves.FinishPulse(old(View()).radValve, now))
      ensures relays.history == old(relays.history)
              + Trace(old(relays.states[..]), PulseWrites(old(View()).radValve, now, RAD_VALVE_OPEN))
    {
      hide Trace, Fields.Valid, PulseWrites, Valves.FinishPulse, Assemble, PZAController.View;
      ghost var f, v := State(), relays.states[..];
      radValve := FinishValvePulse(radValve, RAD_VALVE_OPEN, now);
      StillValid(f, State());
      RadTickAssembled(f, v, radValve, relays.states[..], now);
    }

    method FloorTick(now: nat)
      requires Valid() && !relays.batch
      modifies `floorValve, relays.states, relays.written, relays`history
      ensures Valid() && View() == old(View()).(floorValve := Valves.FinishPulse(old(View()).floorValve, now))
      ensures relays.history == old(relays.history)
              + Trace(old(relays.states[..]), PulseWrites(old(View()).floorValve, now, FLOOR_VALVE_OPEN))
    {
      hide Trace, Fields.Valid, PulseWrites, Valves.FinishPulse, Assemble, PZAController.View;
      ghost var f, v := State(), relays.states[..];
      floorValve := FinishValvePulse(floorValve, FLOOR_VALVE_OPEN, now);
      StillValid(f, State());
      FloorTickAssembled(f, v, floorValve, relays.states[..], now);
    }

    method FillTick(now: nat)
      requires Valid() && !relays.batch
      modifies `fill, relays.states, relays.written, relays`history
      ensures Valid() && View() == old(View()).(fill := Autofill.TickFill(old(View()).fill, now))
      ensures relays.history == old(relays.history) + Trace(old(relays.states[..]), FillWrites(old(View()).fill, now))
    {
      hide Trace, Fields.Valid, FillWrites, Autofill.TickFill, Assemble, PZAController.View;
      ghost var f, v := State(), relays.states[..];
      TickAutofill(now);
      StillValid(f, State());
      FillTickAssembled(f, v, fill, relays.states[..], now);
    }

    /** The fast tick: ends valve pulses and autofill phases on time. */
    method Tick(now: nat)
      requires Valid() && !relays.batch
      modifies `radValve, `floorValve, `fill, relays.states, relays.written, relays`history
      ensures Valid() && View() == TickAll(old(View()), now)
      ensures relays.history == old(relays.history) + Trace(old(Outputs(View())), TickWrites(old(View()), now))
    {
      ghost var c, h := View(), relays.history;
      OutputsOfView();
      hide Trace, View, Valid, State, Outputs, PulseWrites, FillWrites, Valves.FinishPulse, Autofill.TickFill,
           TickWrites;
      RadTick(now);
      OutputsOfView();
      ghost var d := View();
      FloorTick(now);
      OutputsOfView();
      ghost var e := View();
      FillTick(now);
      TickTrace(c, now);
      JoinTraces(h, Trace(Outputs(c), PulseWrites(c.radValve, now, RAD_VALVE_OPEN)),
                 Trace(Outputs(d), PulseWrites(d.floorValve, now, FLOOR_VALVE_OPEN)),
                 Trace(Outputs(e), FillWrites(e.fill, now)));
    }

    method TickAutofill(now: nat)
      requires relays.Valid() && !relays.batch
      modifies `fill, relays.states, relays.written, relays`history
      ensures relays.Valid()
      ensures FillOf(fill, relays.states[..]) == Autofill.TickFill(old(FillOf(fill, relays.states[..])), now)
      ensures forall k :: 0 <= k < RELAY_COUNT && k != AUTOFILL_OPEN && k != AUTOFILL_CLOSE ==>
                            relays.states[k] == old(relays.states[k])
      ensures relays.history == old(relays.history)
              + Trace(old(relays.states[..]), FillWrites(old(FillOf(fill, relays.states[..])), now))
    {
      hide Trace, Final;
      ghost var v, f := relays.states[..], FillOf(fill, relays.states[..]);
      ghost var over := if f.closing && now - f.closeStart >= Autofill.AUTOFILL_VALVE_TRAVEL_MS
                        then [Write(AUTOFILL_CLOSE, false)] else [];
      TraceNone(v);
      FinalOne(v, Write(AUTOFILL_CLOSE, false));
      if fill.closing && now - fill.closeStart >= Autofill.AUTOFILL_VALVE_TRAVEL_MS {
        relays.Set(AUTOFILL_CLOSE, false);
        fill := fill.(closing := false);
      }
      TraceNone(relays.states[..]);
      TraceJoin(v, over, []);
      TraceJoin(v, over, [Write(AUTOFILL_OPEN, false), Write(AUTOFILL_CLOSE, true)]);
      if fill.active && now - fill.start > Autofill.AUTOFILL_MAX_MS {
        TripAutofillTimeout(now);
      }
    }

    /** A setting was accepted: the settings are now s. */
    method ApplySettings(s: Settings)
      requires Valid() && s.Valid()
      modifies `settings, pza
      ensures Valid() && View() == old(View()).(settings := s, weather := Configured(old(View()).weather, s.pza))
    {
      hide AlarmLamps.Bits, LampState.Valid, BurnerOf, TehOf, ValveOf, WellOf, PumpsOf, FillOf, LampsOf;
      settings := s;
      ApplyPza(s.pza);
    }

    /** Clear the lockout set after a safety timeout, in storage too. */
    method ResetAutofillFault()
      requires Valid()
      modifies `fill
      ensures Valid() && View() == old(View()).(fill := old(View()).fill.(fault := false, stored := false))
    {
      hide Fields.Valid, PZAController.View, BurnerOf, TehOf, ValveOf, WellOf, PumpsOf, LampsOf;
      ghost var f := State();
      fill := fill.(fault := false, stored := false);
      StillValid(f, State());
    }

    /** Clear the dry-run latch: the pump tries again right away. */
    method ResetWell()
      requires Valid()
      modifies `well
      ensures Valid() && View() == old(View()).(well := Well.Step(old(View()).well, Well.ResetWell(0)))
    {
      hide Fields.Valid, PZAController.View, BurnerOf, TehOf, ValveOf, FillOf, PumpsOf, LampsOf;
      ghost var f := State();
      well := well.(locked := false, waiting := false, dry := false, lowActive := false, failures := 0);
      StillValid(f, State());
    }

    /** Silence the critical lamp and the buzzer for the causes active now. */
    method MuteBuzzer()
      requires Valid() && !relays.batch
      modifies `lamps, relays.states, relays.written, relays`history
      ensures Valid() && View() == old(View()).(lamps := AlarmLamps.MuteLamps(old(View()).lamps))
      ensures relays.history == old(relays.history) + Trace(old(relays.states[..]), [Write(LAMP_CRITICAL, false)])
    {
      hide Trace, AlarmLamps.Bits, AlarmLamps.Small, PZAController.View, Settings.Valid, Weather.Valid, Assemble;
      ghost var f, v := State(), relays.states[..];
      lamps := lamps.(muted := lamps.causes);
      relays.Set(LAMP_CRITICAL, false);
      MuteAssembled(f, v);
    }
  }

  lemma CausesOfFields(f: Fields, v: seq<bool>, i: Inputs, critical: bool, noHeatCold: bool)
    requires Full(v)
    requires critical == (!f.pressureZero && i.heating.Some? && PressureCritical(Assemble(f, v), i.heating.value))
    requires noHeatCold == (f.noHeat.noHeat && f.weather.OutdoorFresh(i.now) && f.weather.outdoor.temp < 0.0)
    ensures Causes(Assemble(f, v), i)
            == When(f.pressureZero, 0) + When(critical, 1) + When(Overtemp(f.settings.boiler, i.temps.boiler), 2)
               + When(f.settings.tank.auto && f.tankLoss.lost, 3) + When(f.boilerLoss.lost, 4) + When(f.overtemp, 5)
               + When(f.fill.fault, 6) + When(f.frost, 7) + When(noHeatCold, 8)
  {
    hide PressureCritical, When, Overtemp, LampsOf, BurnerOf, TehOf, ValveOf, WellOf, PumpsOf, Weather.OutdoorFresh;
  }

  lemma FieldsAreValid(f: Fields, v: seq<bool>)
    requires Full(v) && f.Valid()
    ensures Assemble(f, v).Valid() && f.weather.Valid()
  {
    LampsAreValid(f, v);
    hide LampsOf;
  }

  lemma LampsAreValid(f: Fields, v: seq<bool>)
    requires Full(v) && f.Valid()
    ensures Assemble(f, v).lamps == LampsOf(f.lamps, v) && LampsOf(f.lamps, v).Valid() && f.lamps.Valid()
  {
    hide AlarmLamps.Small, AlarmLamps.Has, BurnerOf, TehOf, ValveOf, WellOf, PumpsOf, FillOf;
  }

  lemma TraceOfUpdate(c: Ctl, i: Inputs)
    requires c.Valid()
    ensures UpdateTrace(c, i) == Trace(Outputs(c), Changes(Outputs(c), Outputs(Cycle(c, i)), 0))
  {
    hide Cycle, Outputs, Changes, Trace;
  }

  lemma StillValid(f: Fields, g: Fields)
    requires f.Valid() && g.settings == f.settings && g.weather == f.weather && g.lamps == f.lamps
    ensures g.Valid()
  {
  }

  lemma OutputsAreStates(f: Fields, v: seq<bool>)
    requires Full(v) && !v[SPARE]
    ensures Outputs(Assemble(f, v)) == v
  {
    forall k | 0 <= k < RELAY_COUNT ensures Output(Assemble(f, v), k) == v[k] { OutputIsState(f, v, k); }
    hide Assemble, Output;
  }

  lemma OutputIsState(f: Fields, v: seq<bool>, k: nat)
    requires Full(v) && !v[SPARE] && k < RELAY_COUNT
    ensures Output(Assemble(f, v), k) == v[k]
  {
    hide AlarmLamps.Bits;
  }

  // ---- Each step on the fields and relays is the step on the state ----

  lemma SenseAssembled(f: Fields, v: seq<bool>, i: Inputs)
    requires Full(v)
    ensures Assemble(f.(nightRad := NightNow(f.settings.rad.night, i.clock),
                        nightFloor := NightNow(f.settings.floor.night, i.clock),
                        boilerLoss := Miss(f.boilerLoss, i.temps.boiler), tankLoss := Miss(f.tankLoss, i.temps.tank),
                        floorLoss := Miss(f.floorLoss, i.temps.floor),
                        pressureZero := i.heating.Some? && i.heating.value < Autofill.PRESSURE_ZERO_BAR,
                        frost := Heating.UpdateFrost(f.frost, Lowest(SupplyReadings(i.temps)))), v)
            == Sense(Assemble(f, v), i)
  {
    hide NightNow, Miss, Lowest, Heating.UpdateFrost, AlarmLamps.Bits;
  }

  lemma DisinfectAssembled(f: Fields, v: seq<bool>, alm: Legionella.Alm, heating: bool, i: Inputs)
    requires Full(v) && alm == Legionella.UpdateAlm(f.alm, f.settings.alm, i.clock, i.temps.tank, i.now)
    requires heating == (i.temps.tank.Some?
                         && i.temps.tank.value < Legionella.TankTarget(alm, f.settings.alm.temp, f.settings.tank.temp))
    ensures Assemble(f.(alm := alm, ihbHeating := heating), v) == Disinfect(Assemble(f, v), i)
  {
    hide Legionella.UpdateAlm, Legionella.TankTarget, AlarmLamps.Bits;
  }

  lemma BurnAssembled(f: Fields, v: seq<bool>, burner: BurnerState, w: seq<bool>, i: Inputs)
    requires Full(v) && Full(w) && Assemble(f, v).Valid() && w == v[BOILER_POWER := w[BOILER_POWER]]
    requires BurnerOf(burner, w)
             == UpdateBurner(BurnerOf(f.burner, v), f.settings.boiler, i.temps.boiler, f.boilerLoss.lost,
                             MildOutside(f.weather, i.now), f.frost && !f.pressureZero,
                             AutoTarget(f.settings.boiler, DemandOf(f, v, i.now)), i.now)
    ensures Assemble(f.(burner := burner), w) == Burn(Assemble(f, v), i)
  {
    hide UpdateBurner, AutoTarget, MildOutside, AlarmLamps.Bits, Demand, RadiatorTarget, FloorTarget, Loading,
         Ctl.Valid, Legionella.TankTarget;
  }

  lemma PumpAssembled(f: Fields, v: seq<bool>, w: seq<bool>, i: Inputs)
    requires Full(v) && Full(w)
    requires PumpsOf(w)
             == Heating.UpdatePumps(PumpsOf(v), f.settings.tank, f.settings.rad, f.settings.floor, i.temps.tank,
                                    Legionella.TankTarget(f.alm, f.settings.alm.temp, f.settings.tank.temp),
                                    f.ihbHeating)
    requires forall k :: 0 <= k < RELAY_COUNT && k != RADIATOR_PUMP && k != FLOOR_PUMP && k != IHB_PUMP ==> w[k] == v[k]
    ensures Assemble(f, w) == Pump(Assemble(f, v), i)
  {
    hide Heating.UpdatePumps, Legionella.TankTarget, AlarmLamps.Bits;
  }

  lemma FillAssembled(f: Fields, v: seq<bool>, fill: FillState, w: seq<bool>, i: Inputs)
    requires Full(v) && Full(w)
    requires FillOf(fill, w)
             == Autofill.UpdateFill(FillOf(f.fill, v), f.settings.fill.enabled, f.settings.fill.pMin, i.heating, i.now)
    requires forall k :: 0 <= k < RELAY_COUNT && k != AUTOFILL_OPEN && k != AUTOFILL_CLOSE ==> w[k] == v[k]
    ensures Assemble(f.(fill := fill), w) == FillSystem(Assemble(f, v), i)
  {
    hide Autofill.UpdateFill, AlarmLamps.Bits;
  }

  lemma TehAssembled(f: Fields, v: seq<bool>, teh: TehState, w: seq<bool>, i: Inputs)
    requires Full(v) && Full(w) && w == v[TEH := w[TEH]]
    requires TehOf(teh, w)
             == Heating.UpdateTeh(TehOf(f.teh, v), f.settings.tank, i.temps.tank,
                                  Legionella.TankTarget(f.alm, f.settings.alm.temp, f.settings.tank.temp),
                                  i.temps.boiler, v[BOILER_POWER], v[IHB_PUMP], f.ihbHeating, i.now)
    ensures Assemble(f.(teh := teh), w) == Electric(Assemble(f, v), i)
  {
    hide Heating.UpdateTeh, Legionella.TankTarget, AlarmLamps.Bits;
  }

  lemma RadAssembled(f: Fields, v: seq<bool>, rad: ValveState, w: seq<bool>, i: Inputs)
    requires Full(v) && Full(w) && Assemble(f, v).Valid()
    requires ValveOf(rad, w, RAD_VALVE_OPEN)
             == Valves.Drive(ValveOf(f.radValve, v, RAD_VALVE_OPEN),
                             RadiatorTarget(f.settings.rad, f.settings.room, f.weather, f.nightRad, i.now), i.temps.rad,
                             v[RADIATOR_PUMP] || (f.frost && !f.pressureZero), i.now)
    requires forall k :: 0 <= k < RELAY_COUNT && k != RAD_VALVE_OPEN && k != RAD_VALVE_OPEN + 1 ==> w[k] == v[k]
    ensures Assemble(f.(radValve := rad), w) == MoveRadValve(Assemble(f, v), i)
  {
    hide Valves.Drive, RadiatorTarget, AlarmLamps.Bits, Ctl.Valid;
  }

  lemma FloorAssembled(f: Fields, v: seq<bool>, floor: ValveState, w: seq<bool>, i: Inputs)
    requires Full(v) && Full(w) && Assemble(f, v).Valid()
    requires ValveOf(floor, w, FLOOR_VALVE_OPEN)
             == Valves.Drive(ValveOf(f.floorValve, v, FLOOR_VALVE_OPEN),
                             FloorTarget(f.settings.floor, f.settings.room, f.weather, f.nightFloor, i.now),
                             i.temps.floor, (v[FLOOR_PUMP] || (f.frost && !f.pressureZero)) && !f.floorLoss.lost, i.now)
    requires forall k :: 0 <= k < RELAY_COUNT && k != FLOOR_VALVE_OPEN && k != FLOOR_VALVE_OPEN + 1 ==> w[k] == v[k]
    ensures Assemble(f.(floorValve := floor), w) == MoveFloorValve(Assemble(f, v), i)
  {
    hide Valves.Drive, FloorTarget, AlarmLamps.Bits, Ctl.Valid;
  }

  lemma WellAssembled(f: Fields, v: seq<bool>, well: WellState, w: seq<bool>, i: Inputs)
    requires Full(v) && Full(w) && w == v[WATER_PUMP := w[WATER_PUMP]]
    requires WellOf(well, w) == Well.UpdateWell(WellOf(f.well, v), f.settings.water.pump, i.water, i.now)
    ensures Assemble(f.(well := well), w) == PumpWell(Assemble(f, v), i)
  {
    hide Well.UpdateWell, AlarmLamps.Bits;
  }

  lemma HotPumpAssembled(f: Fields, v: seq<bool>, hot: bool, i: Inputs)
    requires Full(v) && hot == (f.settings.water.hotPump && RecircWindow(f.settings.water, i.clock))
    ensures Assemble(f, v[WATER_HOT_PUMP := hot]) == Recirculate(Assemble(f, v), i)
  {
    hide RecircWindow, AlarmLamps.Bits;
  }

  lemma InterlockAssembled(f: Fields, v: seq<bool>, overtemp: bool, fill: FillState, w: seq<bool>, i: Inputs)
    requires Full(v) && Full(w) && overtemp == Overtemp(f.settings.boiler, i.temps.boiler)
    requires w[BOILER_POWER] == InterlockedBoiler(v[BOILER_POWER], f.settings.boiler, i.temps.boiler, f.frost,
                                                  f.pressureZero, f.boilerLoss.lost, MildOutside(f.weather, i.now))
    requires FillOf(fill, w) == Autofill.Interlocked(FillOf(f.fill, v), i.now)
    requires PumpsOf(w) == InterlockedPumps(PumpsOf(v), f.frost, f.pressureZero, f.floorLoss.lost)
    requires forall k :: 0 <= k < RELAY_COUNT && !MovedByInterlocks(k) ==> w[k] == v[k]
    ensures Assemble(f.(overtemp := overtemp, fill := fill), w) == Interlock(Assemble(f, v), i)
  {
    hide InterlockedBoiler, InterlockedPumps, Autofill.Interlocked, Overtemp, MildOutside, AlarmLamps.Bits;
    assert w[IHB_PUMP] == v[IHB_PUMP];
  }

  lemma WatchAssembled(f: Fields, v: seq<bool>, i: Inputs)
    requires Full(v)
    ensures Assemble(f.(noHeat := Heating.UpdateNoHeat(f.noHeat, f.settings.boiler, v[BOILER_POWER], i.temps.boiler,
                                                       f.burner.autoTarget, i.now)), v)
            == WatchHeat(Assemble(f, v), i)
  {
    hide Heating.UpdateNoHeat, AlarmLamps.Bits;
  }

  lemma AlarmAssembled(f: Fields, v: seq<bool>, lamps: LampState, w: seq<bool>, i: Inputs)
    requires Full(v) && Full(w) && Assemble(f, v).lamps.Valid()
    requires LampsOf(lamps, w)
             == AlarmLamps.UpdateLamps(Assemble(f, v).lamps, Causes(Assemble(f, v), i), Warned(Assemble(f, v), i),
                                       i.now)
    requires forall k :: 0 <= k < RELAY_COUNT && k != LAMP_WARNING && k != LAMP_CRITICAL ==> w[k] == v[k]
    ensures Assemble(f.(lamps := lamps), w) == Alert(Assemble(f, v), i)
  {
    hide LampsOf, Causes, Warned, AlarmLamps.UpdateLamps, AlarmLamps.Lamps.Valid;
  }

  lemma JoinTraces(h: seq<seq<bool>>, a: seq<seq<bool>>, b: seq<seq<bool>>, c: seq<seq<bool>>)
    ensures ((h + a) + b) + c == h + (a + b + c)
  {
  }

  lemma MuteAssembled(f: Fields, v: seq<bool>)
    requires Full(v)
    ensures var c := Assemble(f, v);
            Assemble(f.(lamps := f.lamps.(muted := f.lamps.causes)), v[LAMP_CRITICAL := false])
            == c.(lamps := AlarmLamps.MuteLamps(c.lamps))
  {
    hide AlarmLamps.Bits;
  }

  lemma RadTickAssembled(f: Fields, v: seq<bool>, rad: ValveState, w: seq<bool>, now: nat)
    requires Full(v) && Full(w)
    requires ValveOf(rad, w, RAD_VALVE_OPEN) == Valves.FinishPulse(ValveOf(f.radValve, v, RAD_VALVE_OPEN), now)
    requires forall k :: 0 <= k < RELAY_COUNT && k != RAD_VALVE_OPEN && k != RAD_VALVE_OPEN + 1 ==> w[k] == v[k]
    ensures var c := Assemble(f, v);
            Assemble(f.(radValve := rad), w) == c.(radValve := Valves.FinishPulse(c.radValve, now))
            && c.radValve == ValveOf(f.radValve, v, RAD_VALVE_OPEN)
  {
    hide Valves.FinishPulse, AlarmLamps.Bits;
  }

  lemma FloorTickAssembled(f: Fields, v: seq<bool>, floor: ValveState, w: seq<bool>, now: nat)
    requires Full(v) && Full(w)
    requires ValveOf(floor, w, FLOOR_VALVE_OPEN) == Valves.FinishPulse(ValveOf(f.floorValve, v, FLOOR_VALVE_OPEN), now)
    requires forall k :: 0 <= k < RELAY_COUNT && k != FLOOR_VALVE_OPEN && k != FLOOR_VALVE_OPEN + 1 ==> w[k] == v[k]
    ensures var c := Assemble(f, v);
            Assemble(f.(floorValve := floor), w) == c.(floorValve := Valves.FinishPulse(c.floorValve, now))
            && c.floorValve == ValveOf(f.floorValve, v, FLOOR_VALVE_OPEN)
  {
    hide Valves.FinishPulse, AlarmLamps.Bits;
  }

  lemma FillTickAssembled(f: Fields, v: seq<bool>, fill: FillState, w: seq<bool>, now: nat)
    requires Full(v) && Full(w) && FillOf(fill, w) == Autofill.TickFill(FillOf(f.fill, v), now)
    requires forall k :: 0 <= k < RELAY_COUNT && k != AUTOFILL_OPEN && k != AUTOFILL_CLOSE ==> w[k] == v[k]
    ensures var c := Assemble(f, v);
            Assemble(f.(fill := fill), w) == c.(fill := Autofill.TickFill(c.fill, now)) && c.fill == FillOf(f.fill, v)
  {
    hide Autofill.TickFill, AlarmLamps.Bits;
  }

  /** The writes of a tick are those of its three parts, one after the other. */
  lemma TickTrace(c: Ctl, now: nat)
    ensures var d := c.(radValve := Valves.FinishPulse(c.radValve, now));
            var e := d.(floorValve := Valves.FinishPulse(c.floorValve, now));
            Trace(Outputs(c), TickWrites(c, now))
            == Trace(Outputs(c), PulseWrites(c.radValve, now, RAD_VALVE_OPEN))
               + Trace(Outputs(d), PulseWrites(c.floorValve, now, FLOOR_VALVE_OPEN))
               + Trace(Outputs(e), FillWrites(c.fill, now))
  {
    hide PulseWrites, FillWrites, Valves.FinishPulse, Final, Trace, Outputs;
    var d := c.(radValve := Valves.FinishPulse(c.radValve, now));
    var rad, floor := PulseWrites(c.radValve, now, RAD_VALVE_OPEN), PulseWrites(c.floorValve, now, FLOOR_VALVE_OPEN);
    ControllerSafety.RadPulseLeadsToOutputs(c, now);
    ControllerSafety.FloorPulseLeadsToOutputs(d, now);
    TraceJoin(Outputs(c), rad, floor);
    TraceJoin(Outputs(c), rad + floor, FillWrites(c.fill, now));
  }
}
