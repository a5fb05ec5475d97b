/** The boiler controller as a state machine: one update cycle, the fast tick, and the commands. */
module Controller {
  import opened Options
  import opened WeatherCurve
  import opened Schedule
  import opened Relays
  import opened Heating
  import Ticks
  import Autofill
  import Valves
  import Well
  import Legionella
  import AlarmLamps

  // ---- Settings ----

  datatype FillSettings = FillSettings(enabled: bool, pMin: real, pMax: real)
  {
    predicate Valid() { 0.5 <= pMin <= 2.0 && 1.0 <= pMax <= 2.8 }
  }

  datatype WaterSettings = WaterSettings(pump: bool, hotPump: bool, recirc: bool, morningStart: Time, morningEnd: Time,
                                         eveningStart: Time, eveningEnd: Time)

  datatype PzaSettings = PzaSettings(radWbm: bool, radCurve: nat, floorWbm: bool, floorCurve: nat, filterHours: real)
  {
    predicate Valid() { 1 <= radCurve <= 5 && 1 <= floorCurve <= 5 && 0.0 <= filterHours <= 48.0 }
  }

  datatype Settings = Settings(boiler: BoilerSettings, rad: CircuitSettings, floor: CircuitSettings, tank: TankSettings,
                               room: RoomSettings, alm: Legionella.AlmSettings, fill: FillSettings,
                               water: WaterSettings, pza: PzaSettings)
  {
    /** Within the controller's own limits, but for the two integers, which can be misread past theirs. */
    predicate Valid() {
      && boiler.Valid() && ValidRadiators(rad) && ValidFloor(floor) && tank.Valid() && room.Valid() && fill.Valid()
      && pza.Valid() && 55.0 <= alm.temp <= 75.0 && alm.startH < 24 && alm.startM < 60
    }
  }

  // ---- State ----

  datatype Ctl = Ctl(
    settings: Settings, weather: Weather, nightRad: bool, nightFloor: bool,
    boilerLoss: Loss, tankLoss: Loss, floorLoss: Loss, pressureZero: bool, frost: bool, overtemp: bool,
    alm: Legionella.Alm, ihbHeating: bool, burner: Burner, pumps: Pumps, fill: Autofill.Fill, teh: Teh,
    radValve: Valves.Valve, floorValve: Valves.Valve, well: Well.Well, hotPump: bool, noHeat: NoHeat,
    lamps: AlarmLamps.Lamps)
  {
    predicate Valid() { settings.Valid() && weather.Valid() && lamps.Valid() }
  }

  const PRESENT := Loss(0, false)

  function Configured(w: Weather, p: PzaSettings): Weather {
    w.(radWbm := p.radWbm, radCurve := p.radCurve, floorWbm := p.floorWbm, floorCurve := p.floorCurve,
       filterHours := p.filterHours)
  }

  const NO_WEATHER := Weather(false, 3, false, 3, 4.0, NO_OUTDOOR, false, 0.0, 0)

  /** After a boot: everything off; the settings and the autofill lockout come from storage. */
  function Booted(s: Settings, fault: bool): (c: Ctl)
    requires s.Valid()
    ensures c.Valid()
  {
    Ctl(s, Configured(NO_WEATHER, s.pza), false, false, PRESENT, PRESENT, PRESENT, false, false, false,
        Legionella.FRESH, false, COLD_BURNER, Pumps(false, false, false),
        Autofill.FRESH.(fault := fault, stored := fault), Teh(0, false, false), Valves.FRESH, Valves.FRESH, Well.FRESH,
        false, HEATS, AlarmLamps.FRESH)
  }

  /** State of one relay. */
  function Output(c: Ctl, ch: nat): bool
    requires ch < RELAY_COUNT
  {
    match ch
    case 0 => c.burner.on
    case 1 => c.pumps.rad
    case 2 => c.pumps.floor
    case 3 => c.pumps.ihb
    case 4 => c.well.pump
    case 5 => c.hotPump
    case 6 => c.teh.on
    case 7 => c.fill.open
    case 8 => c.fill.close
    case 9 => c.radValve.open
    case 10 => c.radValve.close
    case 11 => c.floorValve.open
    case 12 => c.floorValve.close
    case 13 => c.lamps.warning
    case 14 => c.lamps.critical
    case _ => false
  }

  /** The relay states, by channel. */
  function Outputs(c: Ctl): (v: seq<bool>)
    ensures Full(v) && forall k :: 0 <= k < RELAY_COUNT ==> v[k] == Output(c, k)
  {
    seq(RELAY_COUNT, k requires 0 <= k < RELAY_COUNT => Output(c, k))
  }

  // ---- One cycle ----

  /** Temperatures; a missing sensor and the sentinel -127 both read as none. */
  datatype Readings = Readings(boiler: Option<real>, tank: Option<real>, rad: Option<real>, floor: Option<real>)

  datatype Inputs = Inputs(now: nat, temps: Readings, heating: Option<real>, water: Option<real>, clock: Option<Clock>)

  predicate NightNow(n: Night, clock: Option<Clock>) {
    n.enabled && InSchedule(clock, n.days, n.start.Minutes(), n.end.Minutes())
  }

  function SupplyReadings(t: Readings): seq<Option<real>> { [t.boiler, t.rad, t.floor] }

  /** Schedules, lost sensors, empty system, frost. */
  function Sense(c: Ctl, i: Inputs): Ctl {
    c.(nightRad := NightNow(c.settings.rad.night, i.clock),
       nightFloor := NightNow(c.settings.floor.night, i.clock),
       boilerLoss := Miss(c.boilerLoss, i.temps.boiler),
       tankLoss := Miss(c.tankLoss, i.temps.tank),
       floorLoss := Miss(c.floorLoss, i.temps.floor),
       pressureZero := i.heating.Some? && i.heating.value < Autofill.PRESSURE_ZERO_BAR,
       frost := UpdateFrost(c.frost, Lowest(SupplyReadings(i.temps))))
  }

  function IhbTarget(c: Ctl): real { Legionella.TankTarget(c.alm, c.settings.alm.temp, c.settings.tank.temp) }

  function Disinfect(c: Ctl, i: Inputs): Ctl {
    var d := c.(alm := Legionella.UpdateAlm(c.alm, c.settings.alm, i.clock, i.temps.tank, i.now));
    d.(ihbHeating := i.temps.tank.Some? && i.temps.tank.value < IhbTarget(d))
  }

  /** Frost protection that is allowed to run the pumps: not in an emptied system. */
  predicate Forced(c: Ctl) { c.frost && !c.pressureZero }

  function RadTarget(c: Ctl, now: nat): real
    requires c.Valid()
  {
    RadiatorTarget(c.settings.rad, c.settings.room, c.weather, c.nightRad, now)
  }

  function FlrTarget(c: Ctl, now: nat): real
    requires c.Valid()
  {
    FloorTarget(c.settings.floor, c.settings.room, c.weather, c.nightFloor, now)
  }

  function HeatDemand(c: Ctl, now: nat): real
    requires c.Valid()
  {
    Demand(c.settings.rad.pump, RadTarget(c, now), c.settings.floor.pump, FlrTarget(c, now),
           Loading(c.settings.tank, c.ihbHeating, c.pumps.ihb), IhbTarget(c) + c.settings.tank.boost)
  }

  function Burn(c: Ctl, i: Inputs): Ctl
    requires c.Valid()
  {
    var target := AutoTarget(c.settings.boiler, HeatDemand(c, i.now));
    c.(burner := UpdateBurner(c.burner, c.settings.boiler, i.temps.boiler, c.boilerLoss.lost,
                              MildOutside(c.weather, i.now), Forced(c), target, i.now))
  }

  function Pump(c: Ctl, i: Inputs): Ctl {
    c.(pumps := UpdatePumps(c.pumps, c.settings.tank, c.settings.rad, c.settings.floor, i.temps.tank, IhbTarget(c),
                            c.ihbHeating))
  }

  function FillSystem(c: Ctl, i: Inputs): Ctl {
    c.(fill := Autofill.UpdateFill(c.fill, c.settings.fill.enabled, c.settings.fill.pMin, i.heating, i.now))
  }

  function Electric(c: Ctl, i: Inputs): Ctl {
    c.(teh := UpdateTeh(c.teh, c.settings.tank, i.temps.tank, IhbTarget(c), i.temps.boiler, c.burner.on, c.pumps.ihb,
                        c.ihbHeating, i.now))
  }

  function MoveRadValve(c: Ctl, i: Inputs): Ctl
    requires c.Valid()
  {
    c.(radValve := Valves.Drive(c.radValve, RadTarget(c, i.now), i.temps.rad, c.pumps.rad || Forced(c), i.now))
  }

  function MoveFloorValve(c: Ctl, i: Inputs): Ctl
    requires c.Valid()
  {
    c.(floorValve := Valves.Drive(c.floorValve, FlrTarget(c, i.now), i.temps.floor,
                                  (c.pumps.floor || Forced(c)) && !c.floorLoss.lost, i.now))
  }

  /** Recirculation runs in its two windows; always without the schedule or without the time. */
  predicate RecircWindow(s: WaterSettings, clock: Option<Clock>) {
    || !s.recirc || clock.None?
    || InSchedule(clock, EVERY_DAY, s.morningStart.Minutes(), s.morningEnd.Minutes())
    || InSchedule(clock, EVERY_DAY, s.eveningStart.Minutes(), s.eveningEnd.Minutes())
  }

  function PumpWell(c: Ctl, i: Inputs): Ctl {
    c.(well := Well.UpdateWell(c.well, c.settings.water.pump, i.water, i.now))
  }

  function Recirculate(c: Ctl, i: Inputs): Ctl {
    c.(hotPump := c.settings.water.hotPump && RecircWindow(c.settings.water, i.clock))
  }

  /** The last word of every cycle. */
  function Interlock(c: Ctl, i: Inputs): Ctl {
    c.(overtemp := Overtemp(c.settings.boiler, i.temps.boiler),
       burner := c.burner.(on := InterlockedBoiler(c.burner.on, c.settings.boiler, i.temps.boiler, c.frost,
                                                   c.pressureZero, c.boilerLoss.lost, MildOutside(c.weather, i.now))),
       fill := Autofill.Interlocked(c.fill, i.now),
       pumps := InterlockedPumps(c.pumps, c.frost, c.pressureZero, c.floorLoss.lost))
  }

  function WatchHeat(c: Ctl, i: Inputs): Ctl {
    c.(noHeat := UpdateNoHeat(c.noHeat, c.settings.boiler, c.burner.on, i.temps.boiler, c.burner.autoTarget, i.now))
  }

  const PRESSURE_CRIT_HYSTERESIS := 0.05

  predicate PressureCritical(c: Ctl, pressure: real) {
    var hyst := if AlarmLamps.CRIT_PRESSURE in c.lamps.causes then PRESSURE_CRIT_HYSTERESIS else 0.0;
    pressure < c.settings.fill.pMin - 0.3 + hyst || pressure > c.settings.fill.pMax + 0.3 - hyst
  }

  predicate FreezingOutside(c: Ctl, now: nat) { c.weather.OutdoorFresh(now) && c.weather.outdoor.temp < 0.0 }

  function When(cond: bool, cause: nat): (s: set<nat>)
    requires cause < AlarmLamps.CRIT_BITS
    ensures AlarmLamps.Proper(s)
  {
    if cond then {cause} else {}
  }

  function Causes(c: Ctl, i: Inputs): (causes: set<nat>)
    ensures AlarmLamps.Proper(causes)
  {
    When(c.pressureZero, AlarmLamps.CRIT_PRESSURE_ZERO)
    + When(!c.pressureZero && i.heating.Some? && PressureCritical(c, i.heating.value), AlarmLamps.CRIT_PRESSURE)
    + When(Overtemp(c.settings.boiler, i.temps.boiler), AlarmLamps.CRIT_BOILER_MAX)
    + When(c.settings.tank.auto && c.tankLoss.lost, AlarmLamps.CRIT_IHB_SENSOR)
    + When(c.boilerLoss.lost, AlarmLamps.CRIT_BOILER_SENSOR)
    + When(c.overtemp, AlarmLamps.CRIT_OVERTEMP)
    + When(c.fill.fault, AlarmLamps.CRIT_AUTOFILL)
    + When(c.frost, AlarmLamps.CRIT_FROST)
    + When(c.noHeat.noHeat && FreezingOutside(c, i.now), AlarmLamps.CRIT_NO_HEAT)
  }

  predicate Warned(c: Ctl, i: Inputs) {
    var f := c.settings.fill;
    || (!c.pressureZero && i.heating.Some? && (i.heating.value < f.pMin || i.heating.value > f.pMax))
    || (i.temps.boiler.Some? && i.temps.boiler.value >= c.settings.boiler.max - 2.0)
    || i.temps.boiler.None?
    || (c.settings.rad.pump && i.temps.rad.None?) || (c.settings.floor.pump && i.temps.floor.None?)
    || (c.noHeat.noHeat && !FreezingOutside(c, i.now))
    || c.well.dry || c.tankLoss.lost || c.floorLoss.lost
  }

  function Alert(c: Ctl, i: Inputs): Ctl
    requires c.lamps.Valid()
  {
    c.(lamps := AlarmLamps.UpdateLamps(c.lamps, Causes(c, i), Warned(c, i), i.now))
  }

  /** The part of the cycle up to the pumps. */
  function HeatPhase(c: Ctl, i: Inputs): (d: Ctl)
    requires c.Valid()
    ensures d.Valid()
  {
    Pump(Burn(Disinfect(Sense(c, i), i), i), i)
  }

  /** The part of the cycle from the filling valve to the water pumps. */
  function WaterPhase(c: Ctl, i: Inputs): (d: Ctl)
    requires c.Valid()
    ensures d.Valid()
  {
    Recirculate(PumpWell(MoveFloorValve(MoveRadValve(Electric(FillSystem(c, i), i), i), i), i), i)
  }

  /** The end of the cycle: interlocks and alarms. */
  function SafetyPhase(c: Ctl, i: Inputs): (d: Ctl)
    requires c.Valid()
    ensures d.Valid()
  {
    Alert(WatchHeat(Interlock(c, i), i), i)
  }

  function Cycle(c: Ctl, i: Inputs): (d: Ctl)
    requires c.Valid()
    ensures d.Valid()
  {
    SafetyPhase(WaterPhase(HeatPhase(c, i), i), i)
  }

  // ---- Events ----

  datatype Event =
    | Update(i: Inputs)
    | Tick(now: nat)
    | Configure(s: Settings, now: nat)         // an accepted setting
    | Outdoor(temp: real, now: nat)
    | Indoor(temp: real, now: nat)
    | ResetFault(now: nat)
    | Mute(now: nat)
    | ResetWell(now: nat)
    | Boot(s: Settings, wiped: bool, now: nat) // power-on; a wipe also erases the stored lockout
  {
    function At(): nat { if Update? then i.now else now }

    function Stamp(): Ticks.Stamp { Ticks.Stamp(At(), Tick?, Boot?) }
  }

  /** The settings of an event are within limits, and its time not before the last outdoor reading. */
  predicate Possible(c: Ctl, e: Event) {
    && (e.Configure? || e.Boot? ==> e.s.Valid())
    && (e.Outdoor? ==> c.weather.outdoor.at <= e.now)
  }

  function TickAll(c: Ctl, now: nat): Ctl {
    c.(radValve := Valves.FinishPulse(c.radValve, now), floorValve := Valves.FinishPulse(c.floorValve, now),
       fill := Autofill.TickFill(c.fill, now))
  }

  function Next(c: Ctl, e: Event): (d: Ctl)
    requires c.Valid() && Possible(c, e)
    ensures d.Valid()
  {
    match e
    case Update(i) => Cycle(c, i)
    case Tick(now) => TickAll(c, now)
    case Configure(s, _) => c.(settings := s, weather := Configured(c.weather, s.pza))
    case Outdoor(temp, now) =>
      c.(weather := c.weather.(outdoor := Read(c.weather.outdoor, Reading(now, temp, c.weather.filterHours))))
    case Indoor(temp, now) => c.(weather := c.weather.(hasIndoor := true, indoorTemp := temp, indoorAt := now))
    case ResetFault(_) => c.(fill := c.fill.(fault := false, stored := false))
    case Mute(_) => c.(lamps := AlarmLamps.MuteLamps(c.lamps))
    case ResetWell(now) => c.(well := Well.Step(c.well, Well.ResetWell(now)))
    case Boot(s, wiped, _) => Booted(s, c.fill.stored && !wiped)
  }

  // ---- What goes out to the pins ----

  /** The pin writes of a tick ending a pulse. */
  function PulseWrites(v: Valves.Valve, now: nat, open: nat): (ws: seq<Write>)
    requires open < RELAY_COUNT - 1
    ensures ValidWrites(ws)
  {
    if v.driveMs == 0 || now - v.driveStart < v.driveMs then [] else [Write(open, false), Write(open + 1, false)]
  }

  function FillWrites(f: Autofill.Fill, now: nat): (ws: seq<Write>)
    ensures ValidWrites(ws)
  {
    var over := f.closing && now - f.closeStart >= Autofill.AUTOFILL_VALVE_TRAVEL_MS;
    (if over then [Write(AUTOFILL_CLOSE, false)] else [])
    + if f.active && now - f.start > Autofill.AUTOFILL_MAX_MS
      then [Write(AUTOFILL_OPEN, false), Write(AUTOFILL_CLOSE, true)] else []
  }

  function TickWrites(c: Ctl, now: nat): (ws: seq<Write>)
    ensures ValidWrites(ws)
  {
    PulseWrites(c.radValve, now, RAD_VALVE_OPEN) + PulseWrites(c.floorValve, now, FLOOR_VALVE_OPEN)
    + FillWrites(c.fill, now)
  }

  /** Every pin write an event causes, in order. A boot starts with all pins off. */
  function Writes(c: Ctl, e: Event): (ws: seq<Write>)
    requires c.Valid() && Possible(c, e)
    ensures ValidWrites(ws)
  {
    match e
    case Update(i) => Changes(Outputs(c), Outputs(Cycle(c, i)), 0)
    case Tick(now) => TickWrites(c, now)
    case Mute(_) => [Write(LAMP_CRITICAL, false)]
    case _ => []
  }

  /** What the pins carry after each write of an update. */
  function UpdateTrace(c: Ctl, i: Inputs): seq<seq<bool>>
    requires c.Valid()
  {
    Trace(Outputs(c), Changes(Outputs(c), Outputs(Cycle(c, i)), 0))
  }
}
