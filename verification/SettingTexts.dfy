/** What the text of each setting means, and that settings survive the way into texts, through the controller, and over
    its restarts. */
module SettingTexts {
  import opened Options
  import opened Schedule
  import opened Heating
  import opened Controller
  import opened SettingTable
  import SettingRules
  import ControllerPromises
  import ControllerRuns
  import Legionella

  // ---- The meaning of a text ----

  predicate IsFlag(value: string, on: bool) { value == if on then "1" else "0" }

  predicate IsNumber(value: string, x: real, num: Reader) { num(value) == Some(x) }

  /** The plain decimal digits of n, which read as it. */
  predicate IsInteger(value: string, n: int, num: Reader) {
    n >= 0 && value == NatText(n) && num(value) == Some(n as real)
  }

  /** h:mm or hh:mm. */
  predicate IsClock(value: string, t: Time) { IsTime(value, t.h, t.m) }

  ghost predicate IsList(value: string, days: string) { value == days && DayList(value) }

  ghost predicate SayBoiler(v: Key -> string, s: BoilerSettings, num: Reader) {
    && IsFlag(v(HeatingBoilerAutomode), s.auto)
    && IsFlag(v(HeatingBoilerPower), s.power)
    && IsNumber(v(HeatingBoilerTemp), s.temp, num)
    && IsNumber(v(HeatingBoilerMaxTemp), s.max, num)
    && IsNumber(v(HeatingBoilerMinTemp), s.min, num)
  }

  ghost predicate SayRad(v: Key -> string, s: CircuitSettings, num: Reader) {
    && IsFlag(v(HeatingRadiatorPump), s.pump)
    && IsFlag(v(HeatingRadiatorOffIhb), s.offIhb)
    && IsNumber(v(HeatingRadiatorTemp), s.temp, num)
    && IsFlag(v(HeatingRadiatorScheduleEnabled), s.night.enabled)
    && IsList(v(HeatingRadiatorScheduleDays), s.night.days)
    && IsNumber(v(HeatingRadiatorScheduleDelta), s.night.delta, num)
    && IsClock(v(HeatingRadiatorScheduleStart), s.night.start)
    && IsClock(v(HeatingRadiatorScheduleEnd), s.night.end)
  }

  ghost predicate SayFloor(v: Key -> string, s: CircuitSettings, num: Reader) {
    && IsFlag(v(HeatingFloorheatingPump), s.pump)
    && IsFlag(v(HeatingFloorheatingOffIhb), s.offIhb)
    && IsNumber(v(HeatingFloorheatingTemp), s.temp, num)
    && IsFlag(v(HeatingFloorheatingScheduleEnabled), s.night.enabled)
    && IsList(v(HeatingFloorheatingScheduleDays), s.night.days)
    && IsNumber(v(HeatingFloorheatingScheduleDelta), s.night.delta, num)
    && IsClock(v(HeatingFloorheatingScheduleStart), s.night.start)
    && IsClock(v(HeatingFloorheatingScheduleEnd), s.night.end)
  }

  ghost predicate SayTank(v: Key -> string, s: TankSettings, num: Reader) {
    && IsFlag(v(WatersupplyIhbAutomode), s.auto)
    && IsFlag(v(WatersupplyIhbPump), s.pump)
    && IsNumber(v(WatersupplyIhbTemp), s.temp, num)
    && IsNumber(v(WatersupplyIhbBoost), s.boost, num)
    && IsFlag(v(WatersupplyIhbTehAutomode), s.tehAuto)
    && IsFlag(v(WatersupplyIhbTehPower), s.tehPower)
    && IsInteger(v(WatersupplyIhbTehHeatingDelay), s.tehDelay, num)
  }

  ghost predicate SayRoom(v: Key -> string, s: RoomSettings, num: Reader) {
    && IsNumber(v(HeatingRoomTemp), s.temp, num)
    && IsNumber(v(HeatingRoomFactor), s.factor, num)
  }

  ghost predicate SayAlm(v: Key -> string, s: Legionella.AlmSettings, num: Reader) {
    && IsFlag(v(WatersupplyIhbAlmMode), s.mode)
    && IsNumber(v(WatersupplyAlmTemp), s.temp, num)
    && IsList(v(WatersupplyAlmDays), s.days)
    && IsInteger(v(WatersupplyAlmDuration), s.duration, num)
    && IsClock(v(WatersupplyAlmStartTime), Time(s.startH, s.startM))
  }

  ghost predicate SayFill(v: Key -> string, s: FillSettings, num: Reader) {
    && IsFlag(v(HeatingAutofillEnabled), s.enabled)
    && IsNumber(v(HeatingPressureMin), s.pMin, num)
    && IsNumber(v(HeatingPressureMax), s.pMax, num)
  }

  ghost predicate SayWater(v: Key -> string, s: WaterSettings, num: Reader) {
    && IsFlag(v(WatersupplyPump), s.pump)
    && IsFlag(v(WatersupplyPumpHot), s.hotPump)
    && IsFlag(v(WatersupplyRecircScheduleEnabled), s.recirc)
    && IsClock(v(WatersupplyRecircMorningStart), s.morningStart)
    && IsClock(v(WatersupplyRecircMorningEnd), s.morningEnd)
    && IsClock(v(WatersupplyRecircEveningStart), s.eveningStart)
    && IsClock(v(WatersupplyRecircEveningEnd), s.eveningEnd)
  }

  ghost predicate SayPza(v: Key -> string, s: PzaSettings, num: Reader) {
    && IsFlag(v(HeatingRadiatorWbm), s.radWbm)
    && IsInteger(v(HeatingRadiatorCurve), s.radCurve, num)
    && IsFlag(v(HeatingFloorheatingWbm), s.floorWbm)
    && IsInteger(v(HeatingFloorheatingCurve), s.floorCurve, num)
    && IsNumber(v(HeatingPzaOutdoorTauH), s.filterHours, num)
  }

  /** The texts say exactly these settings. */
  ghost predicate Say(v: Key -> string, s: Settings, num: Reader) {
    && SayBoiler(v, s.boiler, num) && SayRad(v, s.rad, num) && SayFloor(v, s.floor, num) && SayTank(v, s.tank, num)
    && SayRoom(v, s.room, num) && SayAlm(v, s.alm, num) && SayFill(v, s.fill, num) && SayWater(v, s.water, num)
    && SayPza(v, s.pza, num)
  }

  // ---- The controller takes exactly what the texts say ----

  lemma ClockRead(value: string, t: Time)
    requires IsClock(value, t)
    ensures TimeOf(value) == t && t.Valid() && TimeText(value)
  {
    TimeParts(value, t.h, t.m, Find(value, ':', 0));
  }

  lemma IntegerRead(value: string, n: int, num: Reader)
    requires IsInteger(value, n, num) && n <= LONG_MAX
    ensures IntOf(value) == n
  {
    PlainIntegersFit(n);
  }

  lemma CircuitsRead(v: Key -> string, s: Settings, num: Reader)
    requires SayRad(v, s.rad, num) && SayFloor(v, s.floor, num)
    ensures RadOf(v, num) == s.rad && FloorOf(v, num) == s.floor
  {
    hide TimeOf, IsClock;
    ClockRead(v(HeatingRadiatorScheduleStart), s.rad.night.start);
    ClockRead(v(HeatingRadiatorScheduleEnd), s.rad.night.end);
    ClockRead(v(HeatingFloorheatingScheduleStart), s.floor.night.start);
    ClockRead(v(HeatingFloorheatingScheduleEnd), s.floor.night.end);
  }

  lemma TankRead(v: Key -> string, s: Settings, num: Reader)
    requires SayTank(v, s.tank, num) && SayAlm(v, s.alm, num) && s.tank.tehDelay <= 240 && s.alm.duration <= 240
    ensures TankOf(v, num) == s.tank && AlmOf(v, num) == s.alm
  {
    hide TimeOf, IsClock, IntOf, IsInteger;
    IntegerRead(v(WatersupplyIhbTehHeatingDelay), s.tank.tehDelay, num);
    IntegerRead(v(WatersupplyAlmDuration), s.alm.duration, num);
    ClockRead(v(WatersupplyAlmStartTime), Time(s.alm.startH, s.alm.startM));
  }

  lemma WaterRead(v: Key -> string, s: Settings, num: Reader)
    requires SayWater(v, s.water, num)
    ensures WaterOf(v, num) == s.water
  {
    hide TimeOf, IsClock;
    ClockRead(v(WatersupplyRecircMorningStart), s.water.morningStart);
    ClockRead(v(WatersupplyRecircMorningEnd), s.water.morningEnd);
    ClockRead(v(WatersupplyRecircEveningStart), s.water.eveningStart);
    ClockRead(v(WatersupplyRecircEveningEnd), s.water.eveningEnd);
  }

  lemma PzaRead(v: Key -> string, s: Settings, num: Reader)
    requires SayPza(v, s.pza, num) && s.pza.Valid()
    ensures PzaOf(v, num) == s.pza
  {
    hide IntOf, IsInteger;
    IntegerRead(v(HeatingRadiatorCurve), s.pza.radCurve, num);
    IntegerRead(v(HeatingFloorheatingCurve), s.pza.floorCurve, num);
  }

  lemma NumbersRead(v: Key -> string, s: Settings, num: Reader)
    requires SayBoiler(v, s.boiler, num) && SayRoom(v, s.room, num) && SayFill(v, s.fill, num)
    ensures BoilerOf(v, num) == s.boiler && RoomOf(v, num) == s.room && FillOf(v, num) == s.fill
  {
  }

  /** Texts that say settings within the limits are read as exactly these settings. */
  lemma ReadAsSaid(v: Key -> string, s: Settings, num: Reader)
    requires Say(v, s, num) && WithinLimits(s)
    ensures Decode(v, num) == s
  {
    NumbersRead(v, s, num);
    CircuitsRead(v, s, num);
    TankRead(v, s, num);
    WaterRead(v, s, num);
    PzaRead(v, s, num);
    hide BoilerOf, RoomOf, FillOf, RadOf, FloorOf, TankOf, AlmOf, WaterOf, PzaOf, SayBoiler, SayRad, SayFloor, SayTank,
         SayRoom, SayAlm, SayFill, SayWater, SayPza;
  }

  lemma ClocksAccepted(v: Key -> string, s: Settings, num: Reader, key: Key)
    requires Say(v, s, num) && FormatOf(key) == Other(TimeKind)
    ensures Accepts(key, v(key), num)
  {
    hide IsTime, TimeText;
    var t := match key
      case HeatingRadiatorScheduleStart => s.rad.night.start
      case HeatingRadiatorScheduleEnd => s.rad.night.end
      case HeatingFloorheatingScheduleStart => s.floor.night.start
      case HeatingFloorheatingScheduleEnd => s.floor.night.end
      case WatersupplyRecircMorningStart => s.water.morningStart
      case WatersupplyRecircMorningEnd => s.water.morningEnd
      case WatersupplyRecircEveningStart => s.water.eveningStart
      case WatersupplyRecircEveningEnd => s.water.eveningEnd
      case _ => Time(s.alm.startH, s.alm.startM);
    ClockRead(v(key), t);
  }

  lemma NumbersAccepted(v: Key -> string, s: Settings, num: Reader, key: Key)
    requires Say(v, s, num) && WithinLimits(s) && FormatOf(key).Number?
    ensures Accepts(key, v(key), num)
  {
    hide IsFlag, IsInteger, IsClock, IsList, FirmwareAccepts;
  }

  lemma BoilerFlags(v: Key -> string, s: BoilerSettings, num: Reader, key: Key)
    requires SayBoiler(v, s, num) && (key.HeatingBoilerAutomode? || key.HeatingBoilerPower?)
    ensures v(key) == "0" || v(key) == "1"
  {
  }

  lemma RadFlags(v: Key -> string, s: CircuitSettings, num: Reader, key: Key)
    requires SayRad(v, s, num)
    requires key.HeatingRadiatorPump? || key.HeatingRadiatorOffIhb? || key.HeatingRadiatorScheduleEnabled?
    ensures v(key) == "0" || v(key) == "1"
  {
  }

  lemma FloorFlags(v: Key -> string, s: CircuitSettings, num: Reader, key: Key)
    requires SayFloor(v, s, num)
    requires key.HeatingFloorheatingPump? || key.HeatingFloorheatingOffIhb? || key.HeatingFloorheatingScheduleEnabled?
    ensures v(key) == "0" || v(key) == "1"
  {
  }

  lemma TankFlags(v: Key -> string, s: TankSettings, num: Reader, key: Key)
    requires SayTank(v, s, num)
    requires key.WatersupplyIhbAutomode? || key.WatersupplyIhbPump?
             || key.WatersupplyIhbTehAutomode? || key.WatersupplyIhbTehPower?
    ensures v(key) == "0" || v(key) == "1"
  {
  }

  lemma AlmFlags(v: Key -> string, s: Legionella.AlmSettings, num: Reader, key: Key)
    requires SayAlm(v, s, num) && (key.WatersupplyIhbAlmMode?)
    ensures v(key) == "0" || v(key) == "1"
  {
  }

  lemma FillFlags(v: Key -> string, s: FillSettings, num: Reader, key: Key)
    requires SayFill(v, s, num) && (key.HeatingAutofillEnabled?)
    ensures v(key) == "0" || v(key) == "1"
  {
  }

  lemma WaterFlags(v: Key -> string, s: WaterSettings, num: Reader, key: Key)
    requires SayWater(v, s, num)
    requires key.WatersupplyPump? || key.WatersupplyPumpHot? || key.WatersupplyRecircScheduleEnabled?
    ensures v(key) == "0" || v(key) == "1"
  {
  }

  lemma PzaFlags(v: Key -> string, s: PzaSettings, num: Reader, key: Key)
    requires SayPza(v, s, num) && (key.HeatingRadiatorWbm? || key.HeatingFloorheatingWbm?)
    ensures v(key) == "0" || v(key) == "1"
  {
  }

  lemma FlagsAccepted(v: Key -> string, s: Settings, num: Reader, key: Key)
    requires Say(v, s, num) && FormatOf(key) == Other(BoolKind)
    ensures Accepts(key, v(key), num)
  {
    hide SayBoiler, SayRad, SayFloor, SayTank, SayRoom, SayAlm, SayFill, SayWater, SayPza;
    match key
    case HeatingBoilerAutomode | HeatingBoilerPower => BoilerFlags(v, s.boiler, num, key);
    case HeatingRadiatorPump | HeatingRadiatorOffIhb | HeatingRadiatorScheduleEnabled => RadFlags(v, s.rad, num, key);
    case HeatingFloorheatingPump | HeatingFloorheatingOffIhb | HeatingFloorheatingScheduleEnabled =>
      FloorFlags(v, s.floor, num, key);
    case WatersupplyIhbAutomode | WatersupplyIhbPump | WatersupplyIhbTehAutomode | WatersupplyIhbTehPower =>
      TankFlags(v, s.tank, num, key);
    case WatersupplyIhbAlmMode => AlmFlags(v, s.alm, num, key);
    case HeatingAutofillEnabled => FillFlags(v, s.fill, num, key);
    case WatersupplyPump | WatersupplyPumpHot | WatersupplyRecircScheduleEnabled => WaterFlags(v, s.water, num, key);
    case HeatingRadiatorWbm | HeatingFloorheatingWbm => PzaFlags(v, s.pza, num, key);
    case _ =>
  }

  lemma ListsAccepted(v: Key -> string, s: Settings, num: Reader, key: Key)
    requires Say(v, s, num) && FormatOf(key) == Other(DaysKind)
    ensures Accepts(key, v(key), num)
  {
    hide IsFlag, IsNumber, IsInteger, IsClock, DayList;
  }

  lemma IntegersAccepted(v: Key -> string, s: Settings, num: Reader, key: Key)
    requires Say(v, s, num) && WithinLimits(s) && FormatOf(key).Other? && FormatOf(key).kind.IntKind?
    ensures Accepts(key, v(key), num)
  {
    hide IsFlag, IsNumber, IsClock, IsList, NatText, SayBoiler, SayRad, SayFloor, SayRoom, SayFill, SayWater;
  }

  /** Texts that say settings within the limits pass every check. */
  lemma SaidIsAccepted(v: Key -> string, s: Settings, num: Reader, key: Key)
    requires Say(v, s, num) && WithinLimits(s)
    ensures Accepts(key, v(key), num)
  {
    hide Say, WithinLimits, Accepts, FormatOf;
    match FormatOf(key)
    case Number(_, _) => NumbersAccepted(v, s, num, key);
    case Other(BoolKind) => FlagsAccepted(v, s, num, key);
    case Other(IntKind(_, _)) => IntegersAccepted(v, s, num, key);
    case Other(TimeKind) => ClocksAccepted(v, s, num, key);
    case Other(DaysKind) => ListsAccepted(v, s, num, key);
  }

  // ---- From settings to texts ----

  function Flag(on: bool): string { if on then "1" else "0" }

  function Natural(n: int): nat { if n < 0 then 0 else n }

  function ClockText(t: Time): string { TwoDigits(t.h % 100) + ":" + TwoDigits(t.m % 100) }

  /** The text of one setting; `write` writes its numbers. */
  function TextOf(s: Settings, key: Key, write: real -> string): string {
    match key
    case HeatingBoilerAutomode => Flag(s.boiler.auto)
    case HeatingBoilerPower => Flag(s.boiler.power)
    case HeatingBoilerTemp => write(s.boiler.temp)
    case HeatingBoilerMaxTemp => write(s.boiler.max)
    case HeatingBoilerMinTemp => write(s.boiler.min)
    case HeatingRadiatorPump => Flag(s.rad.pump)
    case HeatingRadiatorOffIhb => Flag(s.rad.offIhb)
    case HeatingRadiatorTemp => write(s.rad.temp)
    case HeatingRadiatorScheduleEnabled => Flag(s.rad.night.enabled)
    case HeatingRadiatorScheduleDays => s.rad.night.days
    case HeatingRadiatorScheduleDelta => write(s.rad.night.delta)
    case HeatingRadiatorScheduleStart => ClockText(s.rad.night.start)
    case HeatingRadiatorScheduleEnd => ClockText(s.rad.night.end)
    case HeatingFloorheatingPump => Flag(s.floor.pump)
    case HeatingFloorheatingOffIhb => Flag(s.floor.offIhb)
    case HeatingFloorheatingTemp => write(s.floor.temp)
    case HeatingFloorheatingScheduleEnabled => Flag(s.floor.night.enabled)
    case HeatingFloorheatingScheduleDays => s.floor.night.days
    case HeatingFloorheatingScheduleDelta => write(s.floor.night.delta)
    case HeatingFloorheatingScheduleStart => ClockText(s.floor.night.start)
    case HeatingFloorheatingScheduleEnd => ClockText(s.floor.night.end)
    case WatersupplyIhbAutomode => Flag(s.tank.auto)
    case WatersupplyIhbPump => Flag(s.tank.pump)
    case WatersupplyIhbTemp => write(s.tank.temp)
    case WatersupplyIhbBoost => write(s.tank.boost)
    case WatersupplyIhbTehAutomode => Flag(s.tank.tehAuto)
    case WatersupplyIhbTehPower => Flag(s.tank.tehPower)
    case WatersupplyIhbTehHeatingDelay => NatText(Natural(s.tank.tehDelay))
    case HeatingRoomTemp => write(s.room.temp)
    case HeatingRoomFactor => write(s.room.factor)
    case WatersupplyIhbAlmMode => Flag(s.alm.mode)
    case WatersupplyAlmTemp => write(s.alm.temp)
    case WatersupplyAlmDays => s.alm.days
    case WatersupplyAlmDuration => NatText(Natural(s.alm.duration))
    case WatersupplyAlmStartTime => ClockText(Time(s.alm.startH, s.alm.startM))
    case HeatingAutofillEnabled => Flag(s.fill.enabled)
    case HeatingPressureMin => write(s.fill.pMin)
    case HeatingPressureMax => write(s.fill.pMax)
    case WatersupplyPump => Flag(s.water.pump)
    case WatersupplyPumpHot => Flag(s.water.hotPump)
    case WatersupplyRecircScheduleEnabled => Flag(s.water.recirc)
    case WatersupplyRecircMorningStart => ClockText(s.water.morningStart)
    case WatersupplyRecircMorningEnd => ClockText(s.water.morningEnd)
    case WatersupplyRecircEveningStart => ClockText(s.water.eveningStart)
    case WatersupplyRecircEveningEnd => ClockText(s.water.eveningEnd)
    case HeatingRadiatorWbm => Flag(s.pza.radWbm)
    case HeatingRadiatorCurve => NatText(Natural(s.pza.radCurve))
    case HeatingFloorheatingWbm => Flag(s.pza.floorWbm)
    case HeatingFloorheatingCurve => NatText(Natural(s.pza.floorCurve))
    case HeatingPzaOutdoorTauH => write(s.pza.filterHours)
  }

  function Texts(s: Settings, write: real -> string): Key -> string { k => TextOf(s, k, write) }

  /** The times of day are times of day, and the lists are lists of days. */
  ghost predicate WellFormed(s: Settings) {
    && s.water.morningStart.Valid() && s.water.morningEnd.Valid() && s.water.eveningStart.Valid()
    && s.water.eveningEnd.Valid() && DayList(s.rad.night.days) && DayList(s.floor.night.days) && DayList(s.alm.days)
  }

  /** The reader reads every number of the settings as it was written, and plain integers as what they are. */
  ghost predicate ReadsWritten(s: Settings, write: real -> string, num: Reader) {
    && (forall x {:trigger write(x)} :: x in Numbers(s) ==> num(write(x)) == Some(x))
    && (forall n: nat {:trigger NatText(n)} :: n <= 240 ==> num(NatText(n)) == Some(n as real))
  }

  function Numbers(s: Settings): seq<real> {
    [s.boiler.temp, s.boiler.max, s.boiler.min, s.rad.temp, s.rad.night.delta, s.floor.temp, s.floor.night.delta,
     s.tank.temp, s.tank.boost, s.room.temp, s.room.factor, s.alm.temp, s.fill.pMin, s.fill.pMax, s.pza.filterHours]
  }

  lemma ClockWritten(t: Time)
    requires t.Valid()
    ensures IsClock(ClockText(t), t)
  {
  }

  lemma BoilerTexts(s: Settings, write: real -> string)
    ensures var v := Texts(s, write);
            && v(HeatingBoilerAutomode) == Flag(s.boiler.auto)
            && v(HeatingBoilerPower) == Flag(s.boiler.power)
            && v(HeatingBoilerTemp) == write(s.boiler.temp)
  {
    hide ClockText, NatText, Natural, Flag;
  }

  lemma LimitTexts(s: Settings, write: real -> string)
    ensures var v := Texts(s, write);
            && v(HeatingBoilerMaxTemp) == write(s.boiler.max)
            && v(HeatingBoilerMinTemp) == write(s.boiler.min)
            && v(HeatingRoomTemp) == write(s.room.temp)
            && v(HeatingRoomFactor) == write(s.room.factor)
  {
    hide ClockText, NatText, Natural, Flag;
  }

  lemma RadTexts(s: Settings, write: real -> string)
    ensures var v := Texts(s, write);
            && v(HeatingRadiatorPump) == Flag(s.rad.pump)
            && v(HeatingRadiatorOffIhb) == Flag(s.rad.offIhb)
            && v(HeatingRadiatorTemp) == write(s.rad.temp)
            && v(HeatingRadiatorScheduleEnabled) == Flag(s.rad.night.enabled)
  {
    hide ClockText, NatText, Natural, Flag;
  }

  lemma RadNightTexts(s: Settings, write: real -> string)
    ensures var v := Texts(s, write);
            && v(HeatingRadiatorScheduleDays) == s.rad.night.days
            && v(HeatingRadiatorScheduleDelta) == write(s.rad.night.delta)
            && v(HeatingRadiatorScheduleStart) == ClockText(s.rad.night.start)
            && v(HeatingRadiatorScheduleEnd) == ClockText(s.rad.night.end)
  {
    hide ClockText, NatText, Natural, Flag;
  }

  lemma FloorTexts(s: Settings, write: real -> string)
    ensures var v := Texts(s, write);
            && v(HeatingFloorheatingPump) == Flag(s.floor.pump)
            && v(HeatingFloorheatingOffIhb) == Flag(s.floor.offIhb)
            && v(HeatingFloorheatingTemp) == write(s.floor.temp)
            && v(HeatingFloorheatingScheduleEnabled) == Flag(s.floor.night.enabled)
  {
    hide ClockText, NatText, Natural, Flag;
  }

  lemma FloorNightTexts(s: Settings, write: real -> string)
    ensures var v := Texts(s, write);
            && v(HeatingFloorheatingScheduleDays) == s.floor.night.days
            && v(HeatingFloorheatingScheduleDelta) == write(s.floor.night.delta)
            && v(HeatingFloorheatingScheduleStart) == ClockText(s.floor.night.start)
            && v(HeatingFloorheatingScheduleEnd) == ClockText(s.floor.night.end)
  {
    hide ClockText, NatText, Natural, Flag;
  }

  lemma TankTexts(s: Settings, write: real -> string)
    ensures var v := Texts(s, write);
            && v(WatersupplyIhbAutomode) == Flag(s.tank.auto)
            && v(WatersupplyIhbPump) == Flag(s.tank.pump)
            && v(WatersupplyIhbTemp) == write(s.tank.temp)
            && v(WatersupplyIhbBoost) == write(s.tank.boost)
  {
    hide ClockText, NatText, Natural, Flag;
  }

  lemma HeaterTexts(s: Settings, write: real -> string)
    ensures var v := Texts(s, write);
            && v(WatersupplyIhbTehAutomode) == Flag(s.tank.tehAuto)
            && v(WatersupplyIhbTehPower) == Flag(s.tank.tehPower)
            && v(WatersupplyIhbTehHeatingDelay) == NatText(Natural(s.tank.tehDelay))
  {
    hide ClockText, NatText, Natural, Flag;
  }

  lemma AlmTexts(s: Settings, write: real -> string)
    ensures var v := Texts(s, write);
            && v(WatersupplyIhbAlmMode) == Flag(s.alm.mode)
            && v(WatersupplyAlmTemp) == write(s.alm.temp)
            && v(WatersupplyAlmDays) == s.alm.days
  {
    hide ClockText, NatText, Natural, Flag;
  }

  lemma AlmTimeTexts(s: Settings, write: real -> string)
    ensures var v := Texts(s, write);
            && v(WatersupplyAlmDuration) == NatText(Natural(s.alm.duration))
            && v(WatersupplyAlmStartTime) == ClockText(Time(s.alm.startH, s.alm.startM))
  {
    hide ClockText, NatText, Natural, Flag;
  }

  lemma FillTexts(s: Settings, write: real -> string)
    ensures var v := Texts(s, write);
            && v(HeatingAutofillEnabled) == Flag(s.fill.enabled)
            && v(HeatingPressureMin) == write(s.fill.pMin)
            && v(HeatingPressureMax) == write(s.fill.pMax)
  {
    hide ClockText, NatText, Natural, Flag;
  }

  lemma WaterTexts(s: Settings, write: real -> string)
    ensures var v := Texts(s, write);
            && v(WatersupplyPump) == Flag(s.water.pump)
            && v(WatersupplyPumpHot) == Flag(s.water.hotPump)
            && v(WatersupplyRecircScheduleEnabled) == Flag(s.water.recirc)
  {
    hide ClockText, NatText, Natural, Flag;
  }

  lemma RecircTexts(s: Settings, write: real -> string)
    ensures var v := Texts(s, write);
            && v(WatersupplyRecircMorningStart) == ClockText(s.water.morningStart)
            && v(WatersupplyRecircMorningEnd) == ClockText(s.water.morningEnd)
            && v(WatersupplyRecircEveningStart) == ClockText(s.water.eveningStart)
            && v(WatersupplyRecircEveningEnd) == ClockText(s.water.eveningEnd)
  {
    hide ClockText, NatText, Natural, Flag;
  }

  lemma CurveTexts(s: Settings, write: real -> string)
    ensures var v := Texts(s, write);
            && v(HeatingRadiatorWbm) == Flag(s.pza.radWbm)
            && v(HeatingRadiatorCurve) == NatText(Natural(s.pza.radCurve))
            && v(HeatingFloorheatingWbm) == Flag(s.pza.floorWbm)
            && v(HeatingFloorheatingCurve) == NatText(Natural(s.pza.floorCurve))
  {
    hide ClockText, NatText, Natural, Flag;
  }

  lemma FilterText(s: Settings, write: real -> string)
    ensures var v := Texts(s, write);
            v(HeatingPzaOutdoorTauH) == write(s.pza.filterHours)
  {
    hide ClockText, NatText, Natural, Flag;
  }

  lemma NumberWritten(s: Settings, i: nat, write: real -> string, num: Reader)
    requires ReadsWritten(s, write, num) && i < |Numbers(s)|
    ensures IsNumber(write(Numbers(s)[i]), Numbers(s)[i], num)
  {
    assert Numbers(s)[i] in Numbers(s);
  }

  lemma NumbersWritten(s: Settings, write: real -> string, num: Reader)
    requires ReadsWritten(s, write, num)
    ensures var v := Texts(s, write);
            SayBoiler(v, s.boiler, num) && SayRoom(v, s.room, num) && SayFill(v, s.fill, num)
  {
    hide TextOf, Texts;
    BoilerTexts(s, write);
    LimitTexts(s, write);
    FillTexts(s, write);
    NumberWritten(s, 0, write, num);
    NumberWritten(s, 1, write, num);
    NumberWritten(s, 2, write, num);
    NumberWritten(s, 9, write, num);
    NumberWritten(s, 10, write, num);
    NumberWritten(s, 12, write, num);
    NumberWritten(s, 13, write, num);
    hide ReadsWritten;
  }

  lemma CircuitsWritten(s: Settings, write: real -> string, num: Reader)
    requires ReadsWritten(s, write, num) && ValidRadiators(s.rad) && ValidFloor(s.floor) && WellFormed(s)
    ensures var v := Texts(s, write); SayRad(v, s.rad, num) && SayFloor(v, s.floor, num)
  {
    hide TextOf, Texts;
    RadTexts(s, write);
    RadNightTexts(s, write);
    FloorTexts(s, write);
    FloorNightTexts(s, write);
    NumberWritten(s, 3, write, num);
    NumberWritten(s, 4, write, num);
    NumberWritten(s, 5, write, num);
    NumberWritten(s, 6, write, num);
    ClockWritten(s.rad.night.start);
    ClockWritten(s.rad.night.end);
    ClockWritten(s.floor.night.start);
    ClockWritten(s.floor.night.end);
    hide ReadsWritten, IsClock, ClockText, DayList;
  }

  lemma TankWritten(s: Settings, write: real -> string, num: Reader)
    requires ReadsWritten(s, write, num) && WithinLimits(s) && WellFormed(s)
    ensures var v := Texts(s, write); SayTank(v, s.tank, num) && SayAlm(v, s.alm, num) && SayPza(v, s.pza, num)
  {
    hide TextOf, Texts;
    TankTexts(s, write);
    HeaterTexts(s, write);
    AlmTexts(s, write);
    AlmTimeTexts(s, write);
    CurveTexts(s, write);
    FilterText(s, write);
    NumberWritten(s, 7, write, num);
    NumberWritten(s, 8, write, num);
    NumberWritten(s, 11, write, num);
    NumberWritten(s, 14, write, num);
    ClockWritten(Time(s.alm.startH, s.alm.startM));
    hide IsClock, ClockText, DayList, NatText, Numbers;
  }

  lemma WaterWritten(s: Settings, write: real -> string, num: Reader)
    requires WellFormed(s)
    ensures SayWater(Texts(s, write), s.water, num)
  {
    hide TextOf, Texts;
    WaterTexts(s, write);
    RecircTexts(s, write);
    ClockWritten(s.water.morningStart);
    ClockWritten(s.water.morningEnd);
    ClockWritten(s.water.eveningStart);
    ClockWritten(s.water.eveningEnd);
    hide IsClock, ClockText, DayList, NatText, Natural;
  }

  /** Any settings within the limits can be written, and their texts are accepted and read back as them. */
  lemma WrittenIsRead(s: Settings, write: real -> string, num: Reader)
    requires WithinLimits(s) && WellFormed(s) && ReadsWritten(s, write, num)
    ensures var v := Texts(s, write); Say(v, s, num) && Decode(v, num) == s && forall k :: Accepts(k, v(k), num)
  {
    var v := Texts(s, write);
    hide Texts, Accepts, Decode;
    NumbersWritten(s, write, num);
    CircuitsWritten(s, write, num);
    TankWritten(s, write, num);
    WaterWritten(s, write, num);
    ReadAsSaid(v, s, num);
    forall k ensures Accepts(k, v(k), num) { SaidIsAccepted(v, s, num, k); }
    hide SayBoiler, SayRad, SayFloor, SayTank, SayRoom, SayAlm, SayFill, SayWater, SayPza;
  }

  // ---- Through the controller ----

  /** Change j is the last one to this key, and the value it gave was stored or not restarted over. */
  ghost predicate LastSet(cs: seq<Change>, key: Key, value: string, j: nat, num: Reader) {
    && j < |cs| && cs[j].Set? && cs[j].key == Some(key) && cs[j].value == value
    && (forall i :: j < i < |cs| && Takes(cs[i], num) ==> cs[i].key.value != key)
    && (cs[j].works || !Restarted(cs, j + 1, |cs|))
  }

  lemma SetTakesEffect(cs: seq<Change>, ns: seq<Node>, key: Key, value: string, j: nat, num: Reader)
    requires IsRun(cs, ns, num) && LastSet(cs, key, value, j, num) && Accepts(key, value, num)
    ensures ns[|cs|].live(key) == value
  {
    hide Accepts;
    assert ns[j + 1] == Step(ns[j], cs[j], num);
    UntilChanged(cs, ns, key, j + 1, |cs|, num);
  }

  /** Settings sent to the controller, in any order and among any other changes, failed writes and restarts, are in
      effect exactly as they were meant once every key's last value was stored or not restarted over. */
  lemma SettingsArrive(cs: seq<Change>, ns: seq<Node>, v: Key -> string, s: Settings, num: Reader)
    requires IsRun(cs, ns, num) && Say(v, s, num) && WithinLimits(s)
    requires forall key {:trigger v(key)} :: exists j: nat :: LastSet(cs, key, v(key), j, num)
    ensures Decode(ns[|cs|].live, num) == s
  {
    hide Say, WithinLimits, Decode, Accepts, LastSet;
    var w := ns[|cs|].live;
    forall key ensures w(key) == v(key) {
      SaidIsAccepted(v, s, num, key);
      var j: nat :| LastSet(cs, key, v(key), j, num);
      SetTakesEffect(cs, ns, key, v(key), j, num);
    }
    SameDecode(w, v, num);
    ReadAsSaid(v, s, num);
  }

  /** A boot with these texts in storage takes exactly what they say. */
  lemma StoredIsLoaded(store: Store, v: Key -> string, s: Settings, num: Reader)
    requires Say(v, s, num) && WithinLimits(s)
    requires forall key {:trigger v(key)} :: key in store && store[key] == v(key)
    ensures Decode(k => Effective(store, k, num), num) == s
  {
    hide Say, WithinLimits, Decode, Accepts;
    var w := k => Effective(store, k, num);
    forall key ensures w(key) == v(key) { SaidIsAccepted(v, s, num, key); }
    SameDecode(w, v, num);
    ReadAsSaid(v, s, num);
  }

  // ---- The backend's settings on the controller ----

  /** The text the controller has is the one the backend stores. */
  predicate SameText(stored: SettingRules.Value, text: string, num: Reader) {
    match stored
    case Num(x) => num(text) == Some(x)
    case Text(t) => text == t
  }

  predicate HasText(m: SettingRules.Config, name: string, text: string, num: Reader) {
    name in m && SameText(m[name], text, num)
  }

  /** The controller has the backend's texts of the keys that are checked together; all but one are numbers. */
  predicate InStep(m: SettingRules.Config, live: Key -> string, num: Reader) {
    && HasText(m, SettingRules.BOILER_TEMP, live(HeatingBoilerTemp), num) && m[SettingRules.BOILER_TEMP].Num?
    && HasText(m, SettingRules.BOILER_MAX, live(HeatingBoilerMaxTemp), num) && m[SettingRules.BOILER_MAX].Num?
    && HasText(m, SettingRules.BOILER_MIN, live(HeatingBoilerMinTemp), num) && m[SettingRules.BOILER_MIN].Num?
    && HasText(m, SettingRules.ALM_TEMP, live(WatersupplyAlmTemp), num) && m[SettingRules.ALM_TEMP].Num?
    && HasText(m, SettingRules.P_MIN, live(HeatingPressureMin), num) && m[SettingRules.P_MIN].Num?
    && HasText(m, SettingRules.P_MAX, live(HeatingPressureMax), num) && m[SettingRules.P_MAX].Num?
    && HasText(m, SettingRules.ALM_MODE, live(WatersupplyIhbAlmMode), num) && m[SettingRules.ALM_MODE].Text?
  }

  lemma SameNumber(m: SettingRules.Config, name: string, text: string, num: Reader)
    requires HasText(m, name, text, num) && m[name].Num?
    ensures SettingRules.NumOf(m, name) == Some(RealOf(text, num))
  {
  }

  lemma SameFlag(m: SettingRules.Config, name: string, live: Key -> string, key: Key, num: Reader)
    requires AllAccepted(live, num) && FormatOf(key) == Other(BoolKind)
    requires HasText(m, name, live(key), num) && m[name].Text?
    ensures name in m && m[name] == SettingRules.Text(if FlagOf(live(key)) then "1" else "0")
  {
    assert Accepts(key, live(key), num);
  }

  lemma InStepDelivered(m: SettingRules.Config, live: Key -> string, num: Reader)
    requires InStep(m, live, num) && AllAccepted(live, num)
    ensures SettingRules.Delivered(m, Decode(live, num))
  {
    hide AllAccepted, TimeOf, IntOf, RealOf, FlagOf, SettingRules.NumOf, HasText, TankOf, RoomOf, RadOf, FloorOf,
         WaterOf, PzaOf;
    SameNumber(m, SettingRules.BOILER_TEMP, live(HeatingBoilerTemp), num);
    SameNumber(m, SettingRules.BOILER_MAX, live(HeatingBoilerMaxTemp), num);
    SameNumber(m, SettingRules.BOILER_MIN, live(HeatingBoilerMinTemp), num);
    SameNumber(m, SettingRules.ALM_TEMP, live(WatersupplyAlmTemp), num);
    SameNumber(m, SettingRules.P_MIN, live(HeatingPressureMin), num);
    SameNumber(m, SettingRules.P_MAX, live(HeatingPressureMax), num);
    SameFlag(m, SettingRules.ALM_MODE, live, WatersupplyIhbAlmMode, num);
  }

  /** After any requests to the backend and any changes and restarts of the controller, once it has the backend's texts
      its burner's target keeps the bounds the cross-field checks are for. */
  lemma SentSettingsBoundTargets(rules: SettingRules.Rules, rs: seq<SettingRules.Request>,
                                 ms: seq<SettingRules.Config>, k: nat, cs: seq<Change>, ns: seq<Node>, j: nat,
                                 num: Reader, d: Ctl, now: nat)
    requires SettingRules.IsHistory(rules, rs, ms) && k <= |rs| && SettingRules.Coherent(ms[0])
    requires IsRun(cs, ns, num) && ReadsDefaults(num) && j <= |cs|
    requires ns[0].live == (key => Effective(ns[0].store, key, num)) && InStep(ms[k], ns[j].live, num)
    requires d.Valid() && d.settings == Decode(ns[j].live, num)
    ensures d.settings.fill.pMin < d.settings.fill.pMax
    ensures var t, s := ControllerRuns.TargetOf(d, now), d.settings;
            && t <= s.boiler.max - 7.0
            && (ControllerPromises.WantsHeat(d) ==> s.boiler.min <= t)
            && (d.alm.active && s.alm.mode && Loading(s.tank, d.ihbHeating, d.pumps.ihb) ==> t >= s.alm.temp)
  {
    hide AllAccepted, Decode, SettingRules.Handles, SettingRules.Coherent, InStep, SettingRules.Delivered,
         ControllerRuns.TargetOf, ControllerPromises.WantsHeat, Loading, ReadsDefaults, Effective;
    EffectiveAllAccepted(ns[0].store, num);
    LiveAccepted(cs, ns, j, num);
    InStepDelivered(ms[k], ns[j].live, num);
    SettingRules.AcceptedSettingsBoundTargets(rules, rs, ms, k, d, now);
  }
}
