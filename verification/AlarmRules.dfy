/** The conditions that are true in one snapshot of the house. The texts shown to people are not part of this model. */
module AlarmRules {
  import opened Options
  import opened Reals
  import opened AlarmTracking

  /** Raw controller heartbeat, as far as the rules look at it. */
  datatype Heartbeat = Heartbeat(radWbm: bool, floorWbm: bool, hasOutdoor: bool, almFailed: bool, almNoTime: bool)

  /** `values` holds the fresh readings by role, `numbers` the settings that read as numbers. */
  datatype Snapshot = Snapshot(gateway: bool, mqtt: bool, online: bool, values: map<string, real>,
                               relays: set<string>, flags: set<string>, targets: map<string, real>,
                               numbers: map<string, real>, rooms: seq<(string, Option<real>)>, hb: Heartbeat)

  const ROOM_DELAY := 600.0
  const TEMP_HYSTERESIS := 1.0
  const PRESSURE_EMERGENCY_FLOOR := 0.5
  const PRESSURE_RELIEF_WARN := 2.5
  const PRESSURE_HYSTERESIS := 0.05

  const ROOM_THRESHOLDS: seq<(real, Level)> := [(5.0, ERROR), (10.0, ERROR), (15.0, WARNING)]
  const BOILER_ROOM_THRESHOLDS: seq<(real, Level)> := [(3.0, ERROR), (5.0, ERROR), (8.0, WARNING)]

  const CONTROLLER_FLAGS: seq<(string, Level)> := [
    ("frost_protect", ERROR), ("pressure_zero", ERROR), ("boiler_no_heat", ERROR), ("overtemp", ERROR),
    ("boiler_sensor_lost", ERROR), ("autofill_fault", ERROR), ("well_dry", ERROR), ("floor_sensor_lost", ERROR),
    ("ihb_sensor_lost", WARNING)
  ]

  function Val(s: Snapshot, role: string): Option<real> { if role in s.values then Some(s.values[role]) else None }

  function Num(s: Snapshot, key: string, default: real): real { if key in s.numbers then s.numbers[key] else default }

  /** First threshold the reading is below; an active alarm needs TEMP_HYSTERESIS more to go. */
  function Cold(code: string, v: Option<real>, thresholds: seq<(real, Level)>, active: set<string>): seq<Alarm> {
    if v.None? || thresholds == [] then []
    else if v.value < thresholds[0].0 + (if code in active then TEMP_HYSTERESIS else 0.0)
    then [Alarm(code, thresholds[0].1, ROOM_DELAY, None)]
    else Cold(code, v, thresholds[1..], active)
  }

  function If(cond: bool, a: Alarm): seq<Alarm> { if cond then [a] else [] }

  function Link(s: Snapshot): seq<Alarm> {
    if !s.gateway then [Alarm("svc:gateway", ERROR, 30.0, Some("link"))]
    else if !s.mqtt then [Alarm("svc:mqtt", ERROR, 60.0, Some("link"))]
    else If(!s.online, Alarm("no_link", ERROR, 60.0, Some("link")))
  }

  function Flags(s: Snapshot, table: seq<(string, Level)>): seq<Alarm> {
    if table == [] then []
    else If(table[0].0 in s.flags, Alarm("flag:" + table[0].0, table[0].1, 0.0, None)) + Flags(s, table[1..])
  }

  function Controller(s: Snapshot): seq<Alarm> {
    if !s.online then []
    else
      Flags(s, CONTROLLER_FLAGS)
      + If((s.hb.radWbm || s.hb.floorWbm) && !s.hb.hasOutdoor, Alarm("pza_no_outdoor", WARNING, 300.0, None))
      + If(s.hb.almFailed, Alarm("alm_failed", WARNING, 0.0, None))
      + If(s.hb.almNoTime, Alarm("alm_no_time", WARNING, 600.0, None))
  }

  function Rooms(rooms: seq<(string, Option<real>)>, active: set<string>): seq<Alarm> {
    if rooms == [] then []
    else Cold("room:" + rooms[0].0, rooms[0].1, ROOM_THRESHOLDS, active) + Rooms(rooms[1..], active)
  }

  function ColdWater(s: Snapshot, active: set<string>): seq<Alarm> {
    var v := Val(s, "cold_water");
    If(v.Some? && v.value < 3.0 + (if "cold_water" in active then TEMP_HYSTERESIS else 0.0),
       Alarm("cold_water", ERROR, ROOM_DELAY, None))
  }

  /** Rooms, boiler room, water pipes. */
  function ColdPlaces(s: Snapshot, active: set<string>): seq<Alarm> {
    Rooms(s.rooms, active) + Cold("boiler_room", Val(s, "boiler_room"), BOILER_ROOM_THRESHOLDS, active)
    + ColdWater(s, active)
  }

  function Band(code: string, active: set<string>): real { if code in active then PRESSURE_HYSTERESIS else 0.0 }

  function Pressure(s: Snapshot, active: set<string>): seq<Alarm> {
    var p := Val(s, "heating_pressure");
    if p.None? || "pressure_zero" in s.flags || p.value < 0.05 then []
    else
      var pMin, pMax := Num(s, "heating_pressure_min", 1.0), Num(s, "heating_pressure_max", 1.8);
      var emergency := Max(PRESSURE_EMERGENCY_FLOOR, pMin - 0.2);
      (if p.value < emergency + Band("pressure_low", active)
       then [Alarm("pressure_low", ERROR, 60.0, Some("pressure_low"))]
       else If(p.value < pMin + Band("pressure_low_long", active),
               Alarm("pressure_low_long", WARNING, 600.0, Some("pressure_low"))))
      + (if p.value > PRESSURE_RELIEF_WARN - Band("pressure_high", active)
         then [Alarm("pressure_high", ERROR, 60.0, Some("pressure_high"))]
         else If(p.value > pMax - Band("pressure_high_long", active),
                 Alarm("pressure_high_long", WARNING, 600.0, Some("pressure_high"))))
  }

  function Circuit(s: Snapshot, circuit: string, relay: string): seq<Alarm> {
    var supply, boiler := Val(s, circuit + "_supply"), Val(s, "boiler_supply");
    If(s.online && relay in s.relays && supply.Some? && circuit in s.targets && boiler.Some?
       && supply.value < s.targets[circuit] - 8.0 && boiler.value > supply.value + 15.0,
       Alarm("no_heat:" + circuit, ERROR, 1200.0, None))
  }

  function Tank(s: Snapshot): seq<Alarm> {
    var tank, boiler := Val(s, "tank"), Val(s, "boiler_supply");
    var target := if "ihb" in s.targets then s.targets["ihb"] else 0.0;
    If(tank.Some? && tank.value >= Max(80.0, target + 10.0), Alarm("tank_overheat", ERROR, 120.0, None))
    + If(s.online && "ihb_pump" in s.relays && tank.Some? && "ihb" in s.targets && boiler.Some?
         && tank.value < target - 5.0 && boiler.value > tank.value + 10.0,
         Alarm("tank_no_heat", WARNING, 3600.0, None))
  }

  function Sanity(s: Snapshot): seq<Alarm> {
    var boiler, ret := Val(s, "boiler_supply"), Val(s, "boiler_return");
    If(s.online && ("rad_pump" in s.relays || "floor_pump" in s.relays || "ihb_pump" in s.relays)
       && boiler.Some? && ret.Some? && boiler.value < ret.value - 3.0,
       Alarm("supply_below_return", WARNING, 600.0, None))
  }

  /** Everything wrong in the snapshot; the active codes make the thresholds sticky. */
  function Evaluate(s: Snapshot, active: set<string>): seq<Alarm> {
    Link(s) + Controller(s) + ColdPlaces(s, active) + Pressure(s, active)
    + Circuit(s, "rad", "rad_pump") + Circuit(s, "floor", "floor_pump") + Tank(s) + Sanity(s)
  }

  /** Codes whose inputs are missing right now. */
  function Unknown(s: Snapshot): set<string> {
    (set r | r in s.rooms && r.1.None? :: "room:" + r.0)
    + (if Val(s, "boiler_room").None? then {"boiler_room"} else {})
    + (if Val(s, "cold_water").None? then {"cold_water"} else {})
    + (if Val(s, "tank").None? then {"tank_overheat"} else {})
    + (if Val(s, "heating_pressure").None?
       then {"pressure_low", "pressure_low_long", "pressure_high", "pressure_high_long"} else {})
    + (if !s.online || Val(s, "boiler_supply").None?
       then {"no_heat:rad", "no_heat:floor", "tank_no_heat", "supply_below_return"} else {})
  }

  // ---- Groups ----

  function GroupOf(code: string): Option<string> {
    if code == "svc:gateway" || code == "svc:mqtt" || code == "no_link" then Some("link")
    else if code == "pressure_low" || code == "pressure_low_long" then Some("pressure_low")
    else if code == "pressure_high" || code == "pressure_high_long" then Some("pressure_high")
    else None
  }

  /** No two of the alarms share a group, and every group is the one its code fixes. */
  predicate Disciplined(alarms: seq<Alarm>) {
    && FixedGroups(alarms, GroupOf)
    && (forall i, j :: 0 <= i < j < |alarms| ==> !SameGroup(alarms[i], alarms[j]))
  }

  predicate Ungrouped(alarms: seq<Alarm>) { forall i :: 0 <= i < |alarms| ==> alarms[i].group.None? }

  lemma JoinDisciplined(a: seq<Alarm>, b: seq<Alarm>)
    requires Disciplined(a) && Disciplined(b)
    requires forall i, j :: 0 <= i < |a| && 0 <= j < |b| ==> !SameGroup(a[i], b[j])
    ensures Disciplined(a + b)
  {
  }

  lemma {:induction false} FlagsDisciplined(s: Snapshot, table: seq<(string, Level)>)
    ensures Disciplined(Flags(s, table)) && Ungrouped(Flags(s, table))
  {
    if table != [] {
      FlagsDisciplined(s, table[1..]);
      assert ("flag:" + table[0].0)[0] == 'f';
      JoinDisciplined(If(table[0].0 in s.flags, Alarm("flag:" + table[0].0, table[0].1, 0.0, None)),
                      Flags(s, table[1..]));
    }
  }

  lemma {:induction false} ColdDisciplined(code: string, v: Option<real>, thresholds: seq<(real, Level)>,
                                           active: set<string>)
    requires GroupOf(code).None?
    ensures Disciplined(Cold(code, v, thresholds, active)) && Ungrouped(Cold(code, v, thresholds, active))
  {
    if thresholds != [] { ColdDisciplined(code, v, thresholds[1..], active); }
  }

  lemma {:induction false} RoomsDisciplined(rooms: seq<(string, Option<real>)>, active: set<string>)
    ensures Disciplined(Rooms(rooms, active)) && Ungrouped(Rooms(rooms, active))
  {
    if rooms != [] {
      var code := "room:" + rooms[0].0;
      assert code[0] == 'r';
      ColdDisciplined(code, rooms[0].1, ROOM_THRESHOLDS, active);
      RoomsDisciplined(rooms[1..], active);
      JoinDisciplined(Cold(code, rooms[0].1, ROOM_THRESHOLDS, active), Rooms(rooms[1..], active));
    }
  }

  /** Alarms without a group may join any disciplined list. */
  predicate Plain(alarms: seq<Alarm>) { Disciplined(alarms) && Ungrouped(alarms) }

  lemma JoinPlain(a: seq<Alarm>, b: seq<Alarm>)
    requires Disciplined(a) && Plain(b)
    ensures Disciplined(a + b) && (Plain(a) ==> Plain(a + b))
  {
    JoinDisciplined(a, b);
  }

  lemma ControllerDisciplined(s: Snapshot)
    ensures Plain(Controller(s))
  {
    FlagsDisciplined(s, CONTROLLER_FLAGS);
  }

  lemma ColdPlacesDisciplined(s: Snapshot, active: set<string>)
    ensures Plain(ColdPlaces(s, active))
  {
    var boilerRoom := Cold("boiler_room", Val(s, "boiler_room"), BOILER_ROOM_THRESHOLDS, active);
    RoomsDisciplined(s.rooms, active);
    ColdDisciplined("boiler_room", Val(s, "boiler_room"), BOILER_ROOM_THRESHOLDS, active);
    JoinPlain(Rooms(s.rooms, active), boilerRoom);
    JoinPlain(Rooms(s.rooms, active) + boilerRoom, ColdWater(s, active));
  }

  lemma CircuitDisciplined(s: Snapshot, circuit: string, relay: string)
    ensures Plain(Circuit(s, circuit, relay))
  {
    var code := "no_heat:" + circuit;
    assert code[3] == 'h';
    assert "no_link"[3] == 'l';
    assert code[0] == 'n';
  }

  lemma PressureDisciplined(s: Snapshot, active: set<string>)
    ensures Disciplined(Pressure(s, active))
    ensures forall i :: 0 <= i < |Pressure(s, active)| ==> Pressure(s, active)[i].group != Some("link")
  {
    assert "pressure_low" != "pressure_high" && "pressure_low" != "link" && "pressure_high" != "link" by {
      assert "pressure_low"[9] != "pressure_high"[9];
    }
  }

  lemma LinkAndPlaces(s: Snapshot, active: set<string>)
    ensures var a := Link(s) + Controller(s) + ColdPlaces(s, active);
            Disciplined(a) && forall i :: 0 <= i < |a| ==> a[i].group.None? || a[i].group == Some("link")
  {
    ControllerDisciplined(s);
    ColdPlacesDisciplined(s, active);
    JoinPlain(Link(s), Controller(s));
    JoinPlain(Link(s) + Controller(s), ColdPlaces(s, active));
  }

  lemma WithPressure(s: Snapshot, active: set<string>)
    ensures Disciplined(Link(s) + Controller(s) + ColdPlaces(s, active) + Pressure(s, active))
  {
    LinkAndPlaces(s, active);
    PressureDisciplined(s, active);
    JoinDisciplined(Link(s) + Controller(s) + ColdPlaces(s, active), Pressure(s, active));
  }

  lemma TankAndSanityPlain(s: Snapshot)
    ensures Plain(Tank(s)) && Plain(Sanity(s))
  {
  }

  /** In every snapshot the rules name at most one alarm of each group, and always under its code's group. */
  lemma EvaluateDisciplined(s: Snapshot, active: set<string>)
    ensures Disciplined(Evaluate(s, active))
  {
    hide Link, Controller, ColdPlaces, Pressure, Circuit, Tank, Sanity, Disciplined, Plain;
    WithPressure(s, active);
    TankAndSanityPlain(s);
    CircuitDisciplined(s, "rad", "rad_pump");
    CircuitDisciplined(s, "floor", "floor_pump");
    AddFour(Link(s) + Controller(s) + ColdPlaces(s, active) + Pressure(s, active),
            Circuit(s, "rad", "rad_pump"), Circuit(s, "floor", "floor_pump"), Tank(s), Sanity(s));
  }

  lemma AddFour(a: seq<Alarm>, b: seq<Alarm>, c: seq<Alarm>, d: seq<Alarm>, e: seq<Alarm>)
    requires Disciplined(a) && Plain(b) && Plain(c) && Plain(d) && Plain(e)
    ensures Disciplined(a + b + c + d + e)
  {
    JoinPlain(a, b);
    JoinPlain(a + b, c);
    JoinPlain(a + b + c, d);
    JoinPlain(a + b + c + d, e);
  }

  // ---- Exactly which alarms a snapshot calls for ----

  /** Below the limit; once active, until a degree above it. */
  predicate Colder(v: Option<real>, limit: real, sticky: bool) {
    v.Some? && v.value < limit + if sticky then 1.0 else 0.0
  }

  predicate LinkDown(s: Snapshot, a: Alarm) {
    if !s.gateway then a == Alarm("svc:gateway", ERROR, 30.0, Some("link"))
    else if !s.mqtt then a == Alarm("svc:mqtt", ERROR, 60.0, Some("link"))
    else !s.online && a == Alarm("no_link", ERROR, 60.0, Some("link"))
  }

  /** What the controller reports of itself. */
  predicate Reported(s: Snapshot, a: Alarm) {
    || (exists f :: f in CONTROLLER_FLAGS && f.0 in s.flags && a == Alarm("flag:" + f.0, f.1, 0.0, None))
    || (a == Alarm("pza_no_outdoor", WARNING, 300.0, None) && (s.hb.radWbm || s.hb.floorWbm) && !s.hb.hasOutdoor)
    || (a == Alarm("alm_failed", WARNING, 0.0, None) && s.hb.almFailed)
    || (a == Alarm("alm_no_time", WARNING, 600.0, None) && s.hb.almNoTime)
  }

  predicate ColdRoom(r: (string, Option<real>), active: set<string>, a: Alarm) {
    var sticky := "room:" + r.0 in active;
    Colder(r.1, 15.0, sticky)
    && a == Alarm("room:" + r.0, if Colder(r.1, 10.0, sticky) then ERROR else WARNING, 600.0, None)
  }

  predicate ColdHouse(s: Snapshot, active: set<string>, a: Alarm) {
    var room, water := Val(s, "boiler_room"), Val(s, "cold_water");
    || (exists r :: r in s.rooms && ColdRoom(r, active, a))
    || (Colder(room, 8.0, "boiler_room" in active)
        && a == Alarm("boiler_room", if Colder(room, 5.0, "boiler_room" in active) then ERROR else WARNING, 600.0,
                      None))
    || (Colder(water, 3.0, "cold_water" in active) && a == Alarm("cold_water", ERROR, 600.0, None))
  }

  /** Outside the settings' pressures, or far outside; active alarms stick for 0.05 bar. */
  predicate WrongPressure(s: Snapshot, active: set<string>, a: Alarm) {
    var p := Val(s, "heating_pressure");
    var lo, hi := Num(s, "heating_pressure_min", 1.0), Num(s, "heating_pressure_max", 1.8);
    p.Some? && p.value >= 0.05 && "pressure_zero" !in s.flags
    && var tooLow := p.value < Max(0.5, lo - 0.2) + if "pressure_low" in active then 0.05 else 0.0;
       var tooHigh := p.value > 2.5 - if "pressure_high" in active then 0.05 else 0.0;
       || (tooLow && a == Alarm("pressure_low", ERROR, 60.0, Some("pressure_low")))
       || (!tooLow && p.value < lo + (if "pressure_low_long" in active then 0.05 else 0.0)
           && a == Alarm("pressure_low_long", WARNING, 600.0, Some("pressure_low")))
       || (tooHigh && a == Alarm("pressure_high", ERROR, 60.0, Some("pressure_high")))
       || (!tooHigh && p.value > hi - (if "pressure_high_long" in active then 0.05 else 0.0)
           && a == Alarm("pressure_high_long", WARNING, 600.0, Some("pressure_high")))
  }

  /** A pump runs, the boiler is hot, and the circuit stays cold. */
  predicate NotWarming(s: Snapshot, circuit: string, a: Alarm) {
    var supply, boiler := Val(s, circuit + "_supply"), Val(s, "boiler_supply");
    && a == Alarm("no_heat:" + circuit, ERROR, 1200.0, None)
    && s.online && circuit + "_pump" in s.relays && circuit in s.targets && supply.Some? && boiler.Some?
    && supply.value < s.targets[circuit] - 8.0 && boiler.value > supply.value + 15.0
  }

  predicate TankTrouble(s: Snapshot, a: Alarm) {
    var tank, boiler := Val(s, "tank"), Val(s, "boiler_supply");
    || (a == Alarm("tank_overheat", ERROR, 120.0, None)
        && tank.Some? && tank.value >= 80.0 && ("ihb" in s.targets ==> tank.value >= s.targets["ihb"] + 10.0))
    || (a == Alarm("tank_no_heat", WARNING, 3600.0, None)
        && s.online && "ihb_pump" in s.relays && "ihb" in s.targets && tank.Some? && boiler.Some?
        && tank.value < s.targets["ihb"] - 5.0 && boiler.value > tank.value + 10.0)
  }

  predicate ColdSupply(s: Snapshot, a: Alarm) {
    var boiler, ret := Val(s, "boiler_supply"), Val(s, "boiler_return");
    && a == Alarm("supply_below_return", WARNING, 600.0, None)
    && s.online && boiler.Some? && ret.Some? && boiler.value < ret.value - 3.0
    && exists c :: c in ["rad", "floor", "ihb"] && c + "_pump" in s.relays
  }

  lemma {:induction false} FlagsShow(s: Snapshot, table: seq<(string, Level)>, a: Alarm)
    ensures a in Flags(s, table) <==>
              exists f :: f in table && f.0 in s.flags && a == Alarm("flag:" + f.0, f.1, 0.0, None)
  {
    if table != [] {
      FlagsShow(s, table[1..], a);
      assert table == [table[0]] + table[1..];
    }
  }

  lemma ThreeLevels(code: string, v: Option<real>, a: real, b: real, c: real, active: set<string>)
    requires a <= b <= c
    ensures var sticky := code in active;
            Cold(code, v, [(a, ERROR), (b, ERROR), (c, WARNING)], active) ==
            if !Colder(v, c, sticky) then []
            else [Alarm(code, if Colder(v, b, sticky) then ERROR else WARNING, 600.0, None)]
  {
    var t := [(a, ERROR), (b, ERROR), (c, WARNING)];
    assert t[1..] == [(b, ERROR), (c, WARNING)] && t[1..][1..] == [(c, WARNING)] && t[1..][1..][1..] == [];
    assert Cold(code, v, [(c, WARNING)], active) ==
           if Colder(v, c, code in active) then [Alarm(code, WARNING, 600.0, None)] else [];
  }

  lemma RoomShows(r: (string, Option<real>), active: set<string>, a: Alarm)
    ensures a in Cold("room:" + r.0, r.1, ROOM_THRESHOLDS, active) <==> ColdRoom(r, active, a)
  {
    hide Cold;
    ThreeLevels("room:" + r.0, r.1, 5.0, 10.0, 15.0, active);
  }

  lemma {:induction false} RoomsShow(rooms: seq<(string, Option<real>)>, active: set<string>, a: Alarm)
    ensures a in Rooms(rooms, active) <==> exists r :: r in rooms && ColdRoom(r, active, a)
  {
    if rooms != [] {
      RoomShows(rooms[0], active, a);
      RoomsShow(rooms[1..], active, a);
      assert rooms == [rooms[0]] + rooms[1..];
      hide Cold, ColdRoom;
    }
  }

  lemma BoilerRoomShows(v: Option<real>, active: set<string>, a: Alarm)
    ensures var sticky := "boiler_room" in active;
            a in Cold("boiler_room", v, BOILER_ROOM_THRESHOLDS, active) <==>
              Colder(v, 8.0, sticky)
              && a == Alarm("boiler_room", if Colder(v, 5.0, sticky) then ERROR else WARNING, 600.0, None)
  {
    hide Cold;
    ThreeLevels("boiler_room", v, 3.0, 5.0, 8.0, active);
  }

  lemma PlacesShow(s: Snapshot, active: set<string>, a: Alarm)
    ensures a in ColdPlaces(s, active) <==> ColdHouse(s, active, a)
  {
    RoomsShow(s.rooms, active, a);
    BoilerRoomShows(Val(s, "boiler_room"), active, a);
    hide Rooms, Cold, ColdRoom;
  }

  lemma ReportsShow(s: Snapshot, a: Alarm)
    ensures a in Controller(s) <==> s.online && Reported(s, a)
  {
    FlagsShow(s, CONTROLLER_FLAGS, a);
    hide Flags;
  }

  lemma PressureShows(s: Snapshot, active: set<string>, a: Alarm)
    ensures a in Pressure(s, active) <==> WrongPressure(s, active, a)
  {
  }

  lemma CircuitShows(s: Snapshot, a: Alarm)
    ensures a in Circuit(s, "rad", "rad_pump") <==> NotWarming(s, "rad", a)
    ensures a in Circuit(s, "floor", "floor_pump") <==> NotWarming(s, "floor", a)
  {
    assert "rad" + "_pump" == "rad_pump" && "floor" + "_pump" == "floor_pump";
  }

  lemma RestShows(s: Snapshot, a: Alarm)
    ensures a in Link(s) <==> LinkDown(s, a)
    ensures a in Tank(s) <==> TankTrouble(s, a)
    ensures a in Sanity(s) <==> ColdSupply(s, a)
  {
    assert "rad" + "_pump" == "rad_pump" && "floor" + "_pump" == "floor_pump" && "ihb" + "_pump" == "ihb_pump";
    assert "rad" in ["rad", "floor", "ihb"] && "floor" in ["rad", "floor", "ihb"] && "ihb" in ["rad", "floor", "ihb"];
  }

  /** A snapshot calls for exactly these alarms, each with its level, its delay and its group. */
  lemma EvaluateIff(s: Snapshot, active: set<string>, a: Alarm)
    ensures a in Evaluate(s, active) <==>
              || LinkDown(s, a) || (s.online && Reported(s, a)) || ColdHouse(s, active, a)
              || WrongPressure(s, active, a) || NotWarming(s, "rad", a) || NotWarming(s, "floor", a)
              || TankTrouble(s, a) || ColdSupply(s, a)
  {
    hide Link, Controller, ColdPlaces, Pressure, Circuit, Tank, Sanity, LinkDown, Reported, ColdHouse, WrongPressure,
         NotWarming, TankTrouble, ColdSupply;
    RestShows(s, a);
    ReportsShow(s, a);
    PlacesShow(s, active, a);
    PressureShows(s, active, a);
    CircuitShows(s, a);
  }

  /** Some reading the alarm with this code goes by is missing. */
  predicate Blind(s: Snapshot, c: string) {
    || (exists r :: r in s.rooms && r.1.None? && c == "room:" + r.0)
    || (c == "boiler_room" && Val(s, "boiler_room").None?)
    || (c == "cold_water" && Val(s, "cold_water").None?)
    || (c == "tank_overheat" && Val(s, "tank").None?)
    || (c in ["pressure_low", "pressure_low_long", "pressure_high", "pressure_high_long"]
        && Val(s, "heating_pressure").None?)
    || (c in ["no_heat:rad", "no_heat:floor", "tank_no_heat", "supply_below_return"]
        && (!s.online || Val(s, "boiler_supply").None?))
  }

  lemma UnknownIffBlind(s: Snapshot, c: string)
    ensures c in Unknown(s) <==> Blind(s, c)
  {
  }

  // ---- Hysteresis ----

  lemma {:induction false} ColdFires(code: string, v: real, thresholds: seq<(real, Level)>, active: set<string>, k: nat)
    requires k < |thresholds| && code in active && v < thresholds[k].0 + TEMP_HYSTERESIS
    ensures |Cold(code, Some(v), thresholds, active)| == 1 && Cold(code, Some(v), thresholds, active)[0].code == code
  {
    if k > 0 { ColdFires(code, v, thresholds[1..], active, k - 1); }
  }

  lemma {:induction false} ActiveRoomSeen(rooms: seq<(string, Option<real>)>, active: set<string>,
                                          r: (string, Option<real>))
    requires r in rooms && r.1.Some? && "room:" + r.0 in active && r.1.value < 15.0 + TEMP_HYSTERESIS
    ensures "room:" + r.0 in Codes(Rooms(rooms, active))
  {
    var head, tail := Cold("room:" + rooms[0].0, rooms[0].1, ROOM_THRESHOLDS, active), Rooms(rooms[1..], active);
    if rooms[0] == r {
      ColdFires("room:" + r.0, r.1.value, ROOM_THRESHOLDS, active, 2);
      assert head[0] in head + tail;
    } else {
      assert r in rooms[1..];
      ActiveRoomSeen(rooms[1..], active, r);
      var a :| a in tail && a.code == "room:" + r.0;
      assert a in head + tail;
    }
  }

  lemma RoomsInEvaluate(s: Snapshot, active: set<string>)
    ensures Codes(Rooms(s.rooms, active)) <= Codes(Evaluate(s, active))
  {
    forall a | a in Rooms(s.rooms, active) ensures a in Evaluate(s, active) {
      assert a in ColdPlaces(s, active);
      assert a in Link(s) + Controller(s) + ColdPlaces(s, active);
    }
  }

  /** While a room's alarm is active, it stops being seen or held only with every reading of the room at 16 degrees or
      more. */
  lemma UnseenRoomIsWarm(s: Snapshot, active: set<string>, r: (string, Option<real>))
    requires r in s.rooms && "room:" + r.0 in active
    requires "room:" + r.0 !in Codes(Evaluate(s, active)) && "room:" + r.0 !in Unknown(s)
    ensures r.1.Some? && r.1.value >= 16.0
  {
    RoomsInEvaluate(s, active);
    if r.1.Some? && r.1.value < 16.0 {
      ActiveRoomSeen(s.rooms, active, r);
    }
  }
}
