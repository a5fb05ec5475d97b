/** Targets, burner, pumps, electric heater and interlocks of the boiler controller, one cycle at a time. */
module Heating {
  import opened Options
  import opened Reals
  import opened WeatherCurve

  // ---- Settings, within the controller's own limits ----

  datatype Time = Time(h: nat, m: nat)
  {
    predicate Valid() { h < 24 && m < 60 }

    function Minutes(): nat { h * 60 + m }
  }

  datatype Night = Night(enabled: bool, days: string, start: Time, end: Time, delta: real)
  {
    predicate Valid() { start.Valid() && end.Valid() && -20.0 <= delta <= 10.0 }
  }

  datatype BoilerSettings = BoilerSettings(auto: bool, power: bool, temp: real, max: real, min: real)
  {
    predicate Valid() { 30.0 <= temp <= 90.0 && 60.0 <= max <= 90.0 && 30.0 <= min <= 70.0 }
  }

  datatype CircuitSettings = CircuitSettings(pump: bool, offIhb: bool, temp: real, night: Night)

  datatype TankSettings = TankSettings(auto: bool, pump: bool, temp: real, boost: real, tehAuto: bool, tehPower: bool,
                                       tehDelay: int)
  {
    predicate Valid() { 30.0 <= temp <= 75.0 && 0.0 <= boost <= 20.0 }
  }

  datatype RoomSettings = RoomSettings(temp: real, factor: real)
  {
    predicate Valid() { 15.0 <= temp <= 28.0 && 0.0 <= factor <= 5.0 }
  }

  predicate ValidRadiators(c: CircuitSettings) { 20.0 <= c.temp <= 90.0 && c.night.Valid() }

  predicate ValidFloor(c: CircuitSettings) { 20.0 <= c.temp <= 50.0 && c.night.Valid() }

  // ---- Circuit targets ----

  const MIN_SUPPLY_TARGET := 20.0
  const ROOM_CORRECTION_MAX := 10.0

  /** Weather curve, or the manual setpoint without one, plus the night delta; never below room level. */
  function CircuitTarget(wbm: bool, pzaTarget: real, manual: real, night: bool, delta: real, correction: real): real {
    var t := (if wbm && pzaTarget >= 0.0 then pzaTarget + correction else manual) + if night then delta else 0.0;
    if t < MIN_SUPPLY_TARGET then MIN_SUPPLY_TARGET else t
  }

  function Clamp(x: real, limit: real): real { if x > limit then limit else if x < -limit then -limit else x }

  /** Room feedback on the curve; at night it may only lower the supply. */
  function RoomCorrection(room: RoomSettings, w: Weather, scale: real, limit: real, night: bool, now: nat): real {
    if room.factor <= 0.0 || !w.IndoorFresh(now) then 0.0
    else
      var c := Clamp(room.factor * (room.temp - w.indoorTemp) * scale, limit);
      if night && c > 0.0 then 0.0 else c
  }

  function RadiatorTarget(c: CircuitSettings, room: RoomSettings, w: Weather, night: bool, now: nat): real
    requires w.Valid()
  {
    CircuitTarget(w.radWbm, w.RadiatorTarget(now), c.temp, night, c.night.delta,
                  RoomCorrection(room, w, 1.0, ROOM_CORRECTION_MAX, night, now))
  }

  function FloorTarget(c: CircuitSettings, room: RoomSettings, w: Weather, night: bool, now: nat): real
    requires w.Valid()
  {
    CircuitTarget(w.floorWbm, w.FloorTarget(now), c.temp, night, c.night.delta,
                  RoomCorrection(room, w, 0.5, ROOM_CORRECTION_MAX / 2.0, night, now))
  }

  lemma CorrectionWithinLimit(room: RoomSettings, w: Weather, scale: real, limit: real, night: bool, now: nat)
    requires limit >= 0.0
    ensures -limit <= RoomCorrection(room, w, scale, limit, night, now) <= limit
    ensures night ==> RoomCorrection(room, w, scale, limit, night, now) <= 0.0
  {
  }

  /** The room correction is proportional to what the house lacks, up to the limit either way; at night only what
      lowers the supply is left of it, and without a factor or a reading of the last 10 minutes nothing. */
  lemma CorrectionIsProportional(room: RoomSettings, w: Weather, scale: real, limit: real, night: bool, now: nat)
    requires limit >= 0.0 && scale > 0.0
    ensures var lacking := room.temp - w.indoorTemp;
            var c, exact := RoomCorrection(room, w, scale, limit, night, now), room.factor * scale * lacking;
            if room.factor > 0.0 && w.hasIndoor && now - w.indoorAt < 10 * 60 * 1000 then
              && (lacking <= 0.0 || !night ==> c == Max(-limit, Min(limit, exact)))
              && (lacking > 0.0 && night ==> c == 0.0)
            else c == 0.0
  {
    var lacking := room.temp - w.indoorTemp;
    var exact := room.factor * scale * lacking;
    assert room.factor * lacking * scale == exact;
    if room.factor > 0.0 {
      SignOfProduct(room.factor, scale);
      SignOfProduct(room.factor * scale, lacking);
      ClampedOnce(exact, limit, lacking > 0.0);
    }
  }

  lemma ClampedOnce(exact: real, limit: real, lacks: bool)
    requires limit >= 0.0 && (lacks <==> exact > 0.0)
    ensures Clamp(exact, limit) == Max(-limit, Min(limit, exact))
    ensures Clamp(exact, limit) > 0.0 ==> lacks
    ensures lacks && Clamp(exact, limit) <= 0.0 ==> Clamp(exact, limit) == 0.0
  {
  }

  lemma SignOfProduct(a: real, x: real)
    ensures a > 0.0 ==> (a * x > 0.0 <==> x > 0.0)
  {
    assert a > 0.0 && x > 0.0 ==> a * x > 0.0;
    assert a > 0.0 && x <= 0.0 ==> a * x <= 0.0;
  }

  /** Each circuit is regulated to its weather target plus the correction, or by hand to its setpoint, at night by the
      delta more or less, and always to 20 degrees at least. */
  lemma CircuitsFollow(c: CircuitSettings, room: RoomSettings, w: Weather, night: bool, now: nat)
    requires w.Valid()
    ensures var delta := if night then c.night.delta else 0.0;
            var r, f := w.RadiatorTarget(now), w.FloorTarget(now);
            && RadiatorTarget(c, room, w, night, now) ==
               Max(20.0, delta + if r >= 0.0 then r + RoomCorrection(room, w, 1.0, 10.0, night, now) else c.temp)
            && FloorTarget(c, room, w, night, now) ==
               Max(20.0, delta + if f >= 0.0 then f + RoomCorrection(room, w, 0.5, 5.0, night, now) else c.temp)
  {
    hide RoomCorrection;
  }

  /** The floor supply is always regulated to 20..60 degrees. */
  lemma FloorTargetRange(c: CircuitSettings, room: RoomSettings, w: Weather, night: bool, now: nat)
    requires w.Valid() && ValidFloor(c)
    ensures 20.0 <= FloorTarget(c, room, w, night, now) <= 60.0
  {
    CorrectionWithinLimit(room, w, 0.5, ROOM_CORRECTION_MAX / 2.0, night, now);
    FloorCurveRange(w, now);
    hide RoomCorrection;
  }

  lemma FloorCurveRange(w: Weather, now: nat)
    requires w.Valid()
    ensures w.FloorTarget(now) == -1.0 || 20.0 <= w.FloorTarget(now) <= 40.0
  {
    assert Curve(FLOOR_CURVES[w.floorCurve - 1]);
    WithinEndPoints(FLOOR_CURVES[w.floorCurve - 1], w.outdoor.smooth);
  }

  // ---- The burner ----

  const BOILER_HYSTERESIS := 2.0
  const BOILER_TARGET_MARGIN := 5.0
  const BOILER_MIN_ON_MS := 5 * 60 * 1000
  const BOILER_MIN_OFF_MS := 5 * 60 * 1000
  const WRAP := 0x1_0000_0000

  /** What the controller remembers of the boiler relay, and the relay itself. */
  datatype Burner = Burner(last: bool, switched: bool, changedAt: nat, autoTarget: real, on: bool)

  const COLD_BURNER := Burner(false, false, 0, 0.0, false)

  /** The tank may be loaded, and is being heated or pumped. */
  predicate Loading(s: TankSettings, ihbHeating: bool, ihbPump: bool) { (s.auto || s.pump) && (ihbHeating || ihbPump) }

  /** Highest setpoint of the active circuits; 0 without any. */
  function Demand(rad: bool, radTarget: real, floor: bool, floorTarget: real, loading: bool, loadTarget: real): real {
    var a := if rad then Max(0.0, radTarget) else 0.0;
    var b := if floor then Max(a, floorTarget) else a;
    if loading then Max(b, loadTarget) else b
  }

  /** Highest auto target: below the overtemp trip by the margin and the hysteresis. */
  function Cap(s: BoilerSettings): real { s.max - BOILER_TARGET_MARGIN - BOILER_HYSTERESIS }

  function AutoTarget(s: BoilerSettings, demand: real): real {
    Min(if demand > 0.0 then Max(demand, s.min) else s.temp, Cap(s))
  }

  /** Notice that the relay switched since the last cycle. */
  function Notice(b: Burner, now: nat): Burner {
    if b.on != b.last then b.(last := b.on, switched := true, changedAt := now) else b
  }

  /** Time since the noticed switch, as the wrapping millisecond counter sees it. */
  function HeldFor(b: Burner, now: nat): nat { (now - b.changedAt) % WRAP }

  function Regulate(b: Burner, temp: real, now: nat): Burner {
    var mayStart := !b.switched || HeldFor(b, now) >= BOILER_MIN_OFF_MS;
    var mayStop := !b.switched || HeldFor(b, now) >= BOILER_MIN_ON_MS;
    if !b.on && temp < b.autoTarget && mayStart then b.(on := true)
    else if b.on && temp >= b.autoTarget + BOILER_HYSTERESIS && mayStop then b.(on := false)
    else b
  }

  /** `forced`: frost protection will hold the boiler on. */
  function UpdateBurner(b: Burner, s: BoilerSettings, temp: Option<real>, lost: bool, mild: bool, forced: bool,
                        target: real, now: nat): Burner {
    var c := Notice(b, now);
    if temp.Some? && temp.value >= s.max then c.(on := false)
    else if !s.auto then c.(on := s.power)
    else if temp.None? then (if lost && !mild then c.(on := true) else c)
    else if forced then c.(autoTarget := target)
    else Regulate(c.(autoTarget := target), temp.value, now)
  }

  // ---- Target bounds ----

  /** The settings the backend's cross-field checks allow. */
  predicate Coherent(s: BoilerSettings) { s.temp <= s.max && s.min <= s.max - 7.0 }

  lemma DemandPositive(rad: bool, radTarget: real, floor: bool, floorTarget: real, loading: bool, loadTarget: real)
    requires radTarget >= 20.0 && floorTarget >= 20.0 && loadTarget >= 20.0
    ensures var d := Demand(rad, radTarget, floor, floorTarget, loading, loadTarget);
            && (d > 0.0 <==> rad || floor || loading)
            && (rad ==> d >= radTarget) && (floor ==> d >= floorTarget) && (loading ==> d >= loadTarget)
  {
  }

  /** With an active circuit the auto target is between the minimum and max - 7, and stops at max - 5 at the latest. */
  lemma AutoTargetBounds(s: BoilerSettings, demand: real)
    requires s.Valid() && Coherent(s)
    ensures demand > 0.0 ==> s.min <= AutoTarget(s, demand)
    ensures AutoTarget(s, demand) <= s.max - 7.0
    ensures AutoTarget(s, demand) + BOILER_HYSTERESIS <= s.max - 5.0
    ensures demand > 0.0 && demand <= s.max - 7.0 ==> AutoTarget(s, demand) >= demand
  {
  }

  /** While a reachable disinfection loads the tank, the boiler is regulated to at least its temperature. */
  lemma DisinfectionReachable(s: BoilerSettings, t: TankSettings, almTemp: real, demand: real)
    requires s.Valid() && Coherent(s) && t.Valid() && almTemp <= s.max - 7.0
    requires demand >= Max(almTemp, t.temp) + t.boost && 0.0 < almTemp
    ensures AutoTarget(s, demand) >= almTemp
  {
  }

  // ---- Pumps ----

  const IHB_HYSTERESIS := 2.0

  datatype Pumps = Pumps(ihb: bool, rad: bool, floor: bool)

  function TankPump(on: bool, s: TankSettings, tank: Option<real>, target: real): bool {
    if !s.auto then s.pump
    else if tank.None? then false
    else if !on && tank.value < target then true
    else if on && tank.value >= target + IHB_HYSTERESIS then false
    else on
  }

  /** The tank has priority over a circuit that gives way to it. */
  function UpdatePumps(p: Pumps, s: TankSettings, rad: CircuitSettings, floor: CircuitSettings, tank: Option<real>,
                       target: real, ihbHeating: bool): Pumps {
    var ihb := TankPump(p.ihb, s, tank, target);
    Pumps(ihb, rad.pump && !(rad.offIhb && ihbHeating && ihb), floor.pump && !(floor.offIhb && ihbHeating && ihb))
  }

  // ---- The electric heater ----

  const TEH_BOILER_MARGIN := 5.0

  datatype Teh = Teh(delayStart: nat, delayActive: bool, on: bool)

  /** Minutes in milliseconds, as the unsigned 32-bit product of the code. */
  function DelayMs(minutes: int): nat { (minutes * 60_000) % WRAP }

  lemma DelayIsExact(minutes: int)
    requires 0 <= minutes <= 240
    ensures DelayMs(minutes) == minutes * 60_000
  {
  }

  function UpdateTeh(h: Teh, s: TankSettings, tank: Option<real>, target: real, boiler: Option<real>, boilerOn: bool,
                     ihbPump: bool, ihbHeating: bool, now: nat): Teh {
    if tank.None? || tank.value >= target then h.(on := false, delayActive := false)
    else if !s.tehAuto then h.(on := s.tehPower)
    else if boilerOn && ihbPump && boiler.Some? && boiler.value > tank.value + TEH_BOILER_MARGIN then
      h.(on := false, delayActive := false)
    else if ihbHeating then
      if !h.delayActive then h.(delayActive := true, delayStart := now)
      else if now - h.delayStart >= DelayMs(s.tehDelay) then h.(on := true)
      else h
    else h.(on := false, delayActive := false)
  }

  // ---- Lost sensors and frost ----

  const SENSOR_LOSS_CYCLES := 3

  datatype Loss = Loss(missing: nat, lost: bool)

  function Miss(l: Loss, reading: Option<real>): Loss {
    var missing := if reading.Some? then 0 else if l.missing < 255 then l.missing + 1 else l.missing;
    Loss(missing, missing >= SENSOR_LOSS_CYCLES)
  }

  const FROST_ENTER := 7.0
  const FROST_EXIT := 15.0

  /** Lowest of the readings present, at most 1000. */
  function Lowest(readings: seq<Option<real>>): Option<real> {
    if readings == [] then None
    else
      var n := |readings| - 1;
      var l := Lowest(readings[..n]);
      if readings[n].None? then l
      else Some(Min(readings[n].value, if l.None? then 1000.0 else l.value))
  }

  function UpdateFrost(frost: bool, lowest: Option<real>): bool {
    if lowest.None? then frost
    else if !frost && lowest.value < FROST_ENTER then true
    else if frost && lowest.value >= FROST_EXIT then false
    else frost
  }

  /** The pass over the sensors: lowest reading, if any. */
  method FindLowest(readings: seq<Option<real>>) returns (any: bool, lowest: real)
    ensures Lowest(readings) == if any then Some(lowest) else None
  {
    any, lowest := false, 1000.0;
    for i := 0 to |readings|
      invariant Lowest(readings[..i]) == if any then Some(lowest) else None
      invariant !any ==> lowest == 1000.0
    {
      assert readings[..i + 1][..i] == readings[..i];
      if readings[i].Some? {
        any := true;
        if readings[i].value < lowest {
          lowest := readings[i].value;
        }
      }
    }
    assert readings[..|readings|] == readings;
  }

  lemma {:induction false} LowestIsLowest(readings: seq<Option<real>>)
    ensures var l := Lowest(readings);
            && (l.Some? <==> exists i :: 0 <= i < |readings| && readings[i].Some?)
            && (forall i :: 0 <= i < |readings| && readings[i].Some? ==> l.Some? && l.value <= readings[i].value)
            && (l.Some? ==> l.value == 1000.0 || Some(l.value) in readings)
  {
    if readings != [] {
      var n := |readings| - 1;
      LowestIsLowest(readings[..n]);
      assert readings == readings[..n] + [readings[n]];
    }
  }

  /** What one step of the run means for frost: a cycle with its lowest reading, a reboot, or nothing. */
  datatype FrostInput = FrostCycle(lowest: Option<real>) | FrostBoot | FrostOther

  function FrostStep(frost: bool, i: FrostInput): bool {
    match i
    case FrostCycle(lowest) => UpdateFrost(frost, lowest)
    case FrostBoot => false
    case FrostOther => frost
  }

  predicate IsFrostRun(h: seq<FrostInput>, fs: seq<bool>) {
    |fs| == |h| + 1 && !fs[0] && forall k :: 0 <= k < |h| ==> fs[k + 1] == FrostStep(fs[k], h[k])
  }

  predicate Freezing(i: FrostInput) { i.FrostCycle? && i.lowest.Some? && i.lowest.value < FROST_ENTER }

  predicate Thawed(i: FrostInput) { i.FrostBoot? || (i.FrostCycle? && i.lowest.Some? && i.lowest.value >= FROST_EXIT) }

  ghost predicate FrozenSince(h: seq<FrostInput>, j: nat, k: nat)
    requires k <= |h|
  {
    j < k && Freezing(h[j]) && forall i :: j < i < k ==> !Thawed(h[i])
  }

  /** Frost protection is on if and only if something froze and since then no cycle found everything thawed. */
  lemma {:induction false} FrostIffHistory(h: seq<FrostInput>, fs: seq<bool>, k: nat)
    requires IsFrostRun(h, fs) && k <= |h|
    ensures fs[k] <==> exists j: nat :: FrozenSince(h, j, k)
  {
    if k > 0 {
      var p := k - 1;
      FrostIffHistory(h, fs, p);
      assert fs[k] == FrostStep(fs[p], h[p]);
      if Freezing(h[p]) { assert FrozenSince(h, p, k); }
      if !Thawed(h[p]) {
        forall j: nat | FrozenSince(h, j, p) ensures FrozenSince(h, j, k) {}
      }
      forall j: nat | FrozenSince(h, j, k) && j != p ensures FrozenSince(h, j, p) && !Thawed(h[p]) {}
    }
  }

  // ---- Interlocks ----

  const SENSOR_LOST_MILD_OUTDOOR := 5.0

  predicate MildOutside(w: Weather, now: nat) { w.OutdoorFresh(now) && w.outdoor.temp >= SENSOR_LOST_MILD_OUTDOOR }

  predicate Overtemp(s: BoilerSettings, temp: Option<real>) { temp.Some? && temp.value >= s.max }

  /** A reason to switch the boiler off, whatever the cycle decided; frost leaves only overtemperature. */
  predicate OffReason(s: BoilerSettings, temp: Option<real>, frost: bool, lost: bool, mild: bool) {
    || Overtemp(s, temp)
    || (!frost && ((!s.auto && !s.power) || (s.auto && lost && mild)))
  }

  function InterlockedBoiler(on: bool, s: BoilerSettings, temp: Option<real>, frost: bool, pressureZero: bool,
                             lost: bool, mild: bool): bool {
    (on && !OffReason(s, temp, frost, lost, mild)) || (frost && !pressureZero && !Overtemp(s, temp))
  }

  function InterlockedPumps(p: Pumps, frost: bool, pressureZero: bool, floorLost: bool): Pumps {
    var force := frost && !pressureZero;
    p.(rad := p.rad || force, floor := (p.floor || force) && !floorLost)
  }

  // ---- A boiler that does not heat ----

  const NO_HEAT_AFTER_MS := 30 * 60 * 1000
  const NO_HEAT_WINDOW_MS := 15 * 60 * 1000
  const NO_HEAT_MIN_RISE := 2.0
  const NO_HEAT_GAP := 10.0
  const NO_HEAT_MANUAL_BELOW := 30.0

  datatype NoHeat = NoHeat(onActive: bool, onSince: nat, checkAt: nat, checkTemp: real, stalled: bool, noHeat: bool)

  const HEATS := NoHeat(false, 0, 0, 0.0, false, false)

  predicate FarBelow(s: BoilerSettings, autoTarget: real, temp: real) {
    if s.auto then temp < autoTarget - NO_HEAT_GAP else temp < NO_HEAT_MANUAL_BELOW
  }

  function UpdateNoHeat(n: NoHeat, s: BoilerSettings, on: bool, temp: Option<real>, autoTarget: real,
                        now: nat): NoHeat {
    if !on || temp.None? then n.(onActive := false, stalled := false, noHeat := false)
    else
      var bt := temp.value;
      var m := if n.onActive then n else n.(onActive := true, onSince := now, checkAt := now, checkTemp := bt);
      if !FarBelow(s, autoTarget, bt) then m.(checkAt := now, checkTemp := bt, stalled := false, noHeat := false)
      else
        var due := now - m.checkAt >= NO_HEAT_WINDOW_MS;
        var stalled := if due then bt - m.checkTemp < NO_HEAT_MIN_RISE else m.stalled;
        m.(stalled := stalled, checkAt := if due then now else m.checkAt, checkTemp := if due then bt else m.checkTemp,
           noHeat := now - m.onSince >= NO_HEAT_AFTER_MS && stalled)
  }
}
