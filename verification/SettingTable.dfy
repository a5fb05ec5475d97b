/** The controller's settings table: what it accepts, where it keeps it, and what a restart brings back. */
module SettingTable {
  import opened Options
  import opened Schedule
  import opened Heating
  import opened Controller
  import Legionella

  /** The rows of the table, named by their keys. */
  datatype Key =
    | HeatingBoilerAutomode | HeatingBoilerPower | HeatingBoilerTemp | HeatingBoilerMaxTemp | HeatingRadiatorPump
    | HeatingRadiatorOffIhb | HeatingRadiatorTemp | HeatingFloorheatingPump | HeatingFloorheatingOffIhb
    | HeatingFloorheatingTemp | WatersupplyIhbAutomode | WatersupplyIhbPump | WatersupplyIhbTemp
    | WatersupplyIhbTehAutomode | WatersupplyIhbTehPower | WatersupplyIhbTehHeatingDelay | WatersupplyPump
    | WatersupplyPumpHot | HeatingAutofillEnabled | HeatingPressureMin | HeatingPressureMax
    | HeatingRadiatorScheduleEnabled | HeatingRadiatorScheduleDays | HeatingRadiatorScheduleDelta
    | HeatingRadiatorScheduleStart | HeatingRadiatorScheduleEnd | HeatingFloorheatingScheduleEnabled
    | HeatingFloorheatingScheduleDays | HeatingFloorheatingScheduleDelta | HeatingFloorheatingScheduleStart
    | HeatingFloorheatingScheduleEnd | WatersupplyIhbAlmMode | WatersupplyAlmTemp | WatersupplyAlmDays
    | WatersupplyAlmDuration | WatersupplyAlmStartTime | HeatingRadiatorWbm | HeatingRadiatorCurve
    | HeatingFloorheatingWbm | HeatingFloorheatingCurve | HeatingBoilerMinTemp | HeatingRoomTemp | HeatingRoomFactor
    | HeatingPzaOutdoorTauH | WatersupplyIhbBoost | WatersupplyRecircScheduleEnabled | WatersupplyRecircMorningStart
    | WatersupplyRecircMorningEnd | WatersupplyRecircEveningStart | WatersupplyRecircEveningEnd

  /** A number with its limits, or one of the texts `Schedule` knows. */
  datatype Format = Number(min: real, max: real) | Other(kind: Kind)

  /** How a text reads as a number, the way the C library's strtof() does; none if it does not, or not to its end. */
  type Reader = string -> Option<real>

  function FormatOf(key: Key): Format {
    match key
    case HeatingBoilerTemp => Number(30.0, 90.0)
    case HeatingBoilerMaxTemp => Number(60.0, 90.0)
    case HeatingRadiatorTemp => Number(20.0, 90.0)
    case HeatingFloorheatingTemp => Number(20.0, 50.0)
    case WatersupplyIhbTemp => Number(30.0, 75.0)
    case WatersupplyIhbTehHeatingDelay => Other(IntKind(0, 240))
    case HeatingPressureMin => Number(0.5, 2.0)
    case HeatingPressureMax => Number(1.0, 2.8)
    case HeatingRadiatorScheduleDays => Other(DaysKind)
    case HeatingRadiatorScheduleDelta => Number(-20.0, 10.0)
    case HeatingRadiatorScheduleStart => Other(TimeKind)
    case HeatingRadiatorScheduleEnd => Other(TimeKind)
    case HeatingFloorheatingScheduleDays => Other(DaysKind)
    case HeatingFloorheatingScheduleDelta => Number(-20.0, 10.0)
    case HeatingFloorheatingScheduleStart => Other(TimeKind)
    case HeatingFloorheatingScheduleEnd => Other(TimeKind)
    case WatersupplyAlmTemp => Number(55.0, 75.0)
    case WatersupplyAlmDays => Other(DaysKind)
    case WatersupplyAlmDuration => Other(IntKind(10, 240))
    case WatersupplyAlmStartTime => Other(TimeKind)
    case HeatingRadiatorCurve => Other(IntKind(1, 5))
    case HeatingFloorheatingCurve => Other(IntKind(1, 5))
    case HeatingBoilerMinTemp => Number(30.0, 70.0)
    case HeatingRoomTemp => Number(15.0, 28.0)
    case HeatingRoomFactor => Number(0.0, 5.0)
    case HeatingPzaOutdoorTauH => Number(0.0, 48.0)
    case WatersupplyIhbBoost => Number(0.0, 20.0)
    case WatersupplyRecircMorningStart => Other(TimeKind)
    case WatersupplyRecircMorningEnd => Other(TimeKind)
    case WatersupplyRecircEveningStart => Other(TimeKind)
    case WatersupplyRecircEveningEnd => Other(TimeKind)
    case _ => Other(BoolKind)
  }

  function Default(key: Key): string {
    match key
    case HeatingBoilerTemp => "50"
    case HeatingBoilerMaxTemp => "85"
    case HeatingRadiatorTemp => "45"
    case HeatingFloorheatingOffIhb => "0"
    case HeatingFloorheatingTemp => "30"
    case WatersupplyIhbTemp => "45"
    case WatersupplyIhbTehPower => "0"
    case WatersupplyIhbTehHeatingDelay => "120"
    case HeatingPressureMin => "1.0"
    case HeatingPressureMax => "1.8"
    case HeatingRadiatorScheduleDays => "1,2,3,4,5"
    case HeatingRadiatorScheduleDelta => "-4"
    case HeatingRadiatorScheduleStart => "23:00"
    case HeatingRadiatorScheduleEnd => "06:00"
    case HeatingFloorheatingScheduleDays => "1,2,3,4,5"
    case HeatingFloorheatingScheduleDelta => "-2"
    case HeatingFloorheatingScheduleStart => "23:00"
    case HeatingFloorheatingScheduleEnd => "06:00"
    case WatersupplyAlmTemp => "60"
    case WatersupplyAlmDays => ""
    case WatersupplyAlmDuration => "30"
    case WatersupplyAlmStartTime => "03:00"
    case HeatingRadiatorCurve => "3"
    case HeatingFloorheatingCurve => "3"
    case HeatingBoilerMinTemp => "55"
    case HeatingRoomTemp => "21"
    case HeatingRoomFactor => "0"
    case HeatingPzaOutdoorTauH => "4"
    case WatersupplyIhbBoost => "15"
    case WatersupplyRecircScheduleEnabled => "0"
    case WatersupplyRecircMorningStart => "06:00"
    case WatersupplyRecircMorningEnd => "09:00"
    case WatersupplyRecircEveningStart => "18:00"
    case WatersupplyRecircEveningEnd => "23:00"
    case _ => "1"
  }

  ghost predicate Accepts(key: Key, value: string, num: Reader) {
    match FormatOf(key)
    case Number(min, max) => num(value).Some? && min <= num(value).value <= max
    case Other(kind) => FirmwareAccepts(kind, value, num)
  }

  /** The check of one value. */
  method IsValid(key: Key, value: string, num: Reader) returns (ok: bool)
    ensures ok <==> Accepts(key, value, num)
  {
    match FormatOf(key)
    case Number(min, max) =>
      ok := num(value).Some? && min <= num(value).value <= max;
    case Other(BoolKind) => ok := value == "0" || value == "1";
    case Other(IntKind(min, max)) =>
      var v := num(value);
      ok := v.Some? && v.value == v.value.Floor as real && min as real <= v.value <= max as real;
    case Other(TimeKind) => ok := IsValidTime(value);
    case Other(DaysKind) => ok := IsValidDays(value);
  }

  // ---- What a text means ----

  predicate FlagOf(value: string) { value == "1" }

  function RealOf(value: string, num: Reader): real { if num(value).Some? then num(value).value else 0.0 }

  const LONG_MAX := 0x7fff_ffff

  /** The leading digits with their sign, as far as a 32-bit integer goes. */
  function IntOf(value: string): int {
    var n := ToInt(value);
    if n > LONG_MAX then LONG_MAX else if n < -LONG_MAX - 1 then -LONG_MAX - 1 else n
  }

  /** An hour or a minute; the texts that pass the check have no sign. */
  function ClockOf(value: string): nat { if ToInt(value) < 0 then 0 else ToInt(value) }

  function TimeOf(value: string): Time {
    var colon := Find(value, ':', 0);
    if colon == |value| then Time(0, 0) else Time(ClockOf(value[..colon]), ClockOf(value[colon + 1..]))
  }

  function CurveOf(value: string): nat { if IntOf(value) < 1 then 1 else if IntOf(value) > 5 then 5 else IntOf(value) }

  function HoursOf(value: string, num: Reader): real { if RealOf(value, num) < 0.0 then 0.0 else RealOf(value, num) }

  function BoilerOf(v: Key -> string, num: Reader): BoilerSettings {
    BoilerSettings(FlagOf(v(HeatingBoilerAutomode)), FlagOf(v(HeatingBoilerPower)),
                   RealOf(v(HeatingBoilerTemp), num), RealOf(v(HeatingBoilerMaxTemp), num),
                   RealOf(v(HeatingBoilerMinTemp), num))
  }

  function RadOf(v: Key -> string, num: Reader): CircuitSettings {
    CircuitSettings(FlagOf(v(HeatingRadiatorPump)), FlagOf(v(HeatingRadiatorOffIhb)),
                    RealOf(v(HeatingRadiatorTemp), num),
                    Night(FlagOf(v(HeatingRadiatorScheduleEnabled)), v(HeatingRadiatorScheduleDays),
                          TimeOf(v(HeatingRadiatorScheduleStart)), TimeOf(v(HeatingRadiatorScheduleEnd)),
                          RealOf(v(HeatingRadiatorScheduleDelta), num)))
  }

  function FloorOf(v: Key -> string, num: Reader): CircuitSettings {
    CircuitSettings(FlagOf(v(HeatingFloorheatingPump)), FlagOf(v(HeatingFloorheatingOffIhb)),
                    RealOf(v(HeatingFloorheatingTemp), num),
                    Night(FlagOf(v(HeatingFloorheatingScheduleEnabled)), v(HeatingFloorheatingScheduleDays),
                          TimeOf(v(HeatingFloorheatingScheduleStart)), TimeOf(v(HeatingFloorheatingScheduleEnd)),
                          RealOf(v(HeatingFloorheatingScheduleDelta), num)))
  }

  function TankOf(v: Key -> string, num: Reader): TankSettings {
    TankSettings(FlagOf(v(WatersupplyIhbAutomode)), FlagOf(v(WatersupplyIhbPump)),
                 RealOf(v(WatersupplyIhbTemp), num), RealOf(v(WatersupplyIhbBoost), num),
                 FlagOf(v(WatersupplyIhbTehAutomode)), FlagOf(v(WatersupplyIhbTehPower)),
                 IntOf(v(WatersupplyIhbTehHeatingDelay)))
  }

  function RoomOf(v: Key -> string, num: Reader): RoomSettings {
    RoomSettings(RealOf(v(HeatingRoomTemp), num), RealOf(v(HeatingRoomFactor), num))
  }

  function AlmOf(v: Key -> string, num: Reader): Legionella.AlmSettings {
    var start := TimeOf(v(WatersupplyAlmStartTime));
    Legionella.AlmSettings(FlagOf(v(WatersupplyIhbAlmMode)), RealOf(v(WatersupplyAlmTemp), num),
                           v(WatersupplyAlmDays), start.h, start.m, IntOf(v(WatersupplyAlmDuration)))
  }

  function FillOf(v: Key -> string, num: Reader): FillSettings {
    FillSettings(FlagOf(v(HeatingAutofillEnabled)), RealOf(v(HeatingPressureMin), num),
                 RealOf(v(HeatingPressureMax), num))
  }

  function WaterOf(v: Key -> string, num: Reader): WaterSettings {
    WaterSettings(FlagOf(v(WatersupplyPump)), FlagOf(v(WatersupplyPumpHot)),
                  FlagOf(v(WatersupplyRecircScheduleEnabled)),
                  TimeOf(v(WatersupplyRecircMorningStart)), TimeOf(v(WatersupplyRecircMorningEnd)),
                  TimeOf(v(WatersupplyRecircEveningStart)), TimeOf(v(WatersupplyRecircEveningEnd)))
  }

  function PzaOf(v: Key -> string, num: Reader): PzaSettings {
    PzaSettings(FlagOf(v(HeatingRadiatorWbm)), CurveOf(v(HeatingRadiatorCurve)),
                FlagOf(v(HeatingFloorheatingWbm)), CurveOf(v(HeatingFloorheatingCurve)),
                HoursOf(v(HeatingPzaOutdoorTauH), num))
  }

  /** The settings that these values mean. */
  function Decode(v: Key -> string, num: Reader): Settings {
    Settings(BoilerOf(v, num), RadOf(v, num), FloorOf(v, num), TankOf(v, num), RoomOf(v, num), AlmOf(v, num),
             FillOf(v, num), WaterOf(v, num), PzaOf(v, num))
  }

  function ApplyBoiler(s: BoilerSettings, key: Key, value: string, num: Reader): BoilerSettings {
    match key
    case HeatingBoilerAutomode => s.(auto := FlagOf(value))
    case HeatingBoilerPower => s.(power := FlagOf(value))
    case HeatingBoilerTemp => s.(temp := RealOf(value, num))
    case HeatingBoilerMaxTemp => s.(max := RealOf(value, num))
    case HeatingBoilerMinTemp => s.(min := RealOf(value, num))
    case _ => s
  }

  function ApplyRad(s: CircuitSettings, key: Key, value: string, num: Reader): CircuitSettings {
    match key
    case HeatingRadiatorPump => s.(pump := FlagOf(value))
    case HeatingRadiatorOffIhb => s.(offIhb := FlagOf(value))
    case HeatingRadiatorTemp => s.(temp := RealOf(value, num))
    case HeatingRadiatorScheduleEnabled => s.(night := s.night.(enabled := FlagOf(value)))
    case HeatingRadiatorScheduleDays => s.(night := s.night.(days := value))
    case HeatingRadiatorScheduleDelta => s.(night := s.night.(delta := RealOf(value, num)))
    case HeatingRadiatorScheduleStart => s.(night := s.night.(start := TimeOf(value)))
    case HeatingRadiatorScheduleEnd => s.(night := s.night.(end := TimeOf(value)))
    case _ => s
  }

  function ApplyFloor(s: CircuitSettings, key: Key, value: string, num: Reader): CircuitSettings {
    match key
    case HeatingFloorheatingPump => s.(pump := FlagOf(value))
    case HeatingFloorheatingOffIhb => s.(offIhb := FlagOf(value))
    case HeatingFloorheatingTemp => s.(temp := RealOf(value, num))
    case HeatingFloorheatingScheduleEnabled => s.(night := s.night.(enabled := FlagOf(value)))
    case HeatingFloorheatingScheduleDays => s.(night := s.night.(days := value))
    case HeatingFloorheatingScheduleDelta => s.(night := s.night.(delta := RealOf(value, num)))
    case HeatingFloorheatingScheduleStart => s.(night := s.night.(start := TimeOf(value)))
    case HeatingFloorheatingScheduleEnd => s.(night := s.night.(end := TimeOf(value)))
    case _ => s
  }

  function ApplyTank(s: TankSettings, key: Key, value: string, num: Reader): TankSettings {
    match key
    case WatersupplyIhbAutomode => s.(auto := FlagOf(value))
    case WatersupplyIhbPump => s.(pump := FlagOf(value))
    case WatersupplyIhbTemp => s.(temp := RealOf(value, num))
    case WatersupplyIhbTehAutomode => s.(tehAuto := FlagOf(value))
    case WatersupplyIhbTehPower => s.(tehPower := FlagOf(value))
    case WatersupplyIhbTehHeatingDelay => s.(tehDelay := IntOf(value))
    case WatersupplyIhbBoost => s.(boost := RealOf(value, num))
    case _ => s
  }

  function ApplyRoom(s: RoomSettings, key: Key, value: string, num: Reader): RoomSettings {
    match key
    case HeatingRoomTemp => s.(temp := RealOf(value, num))
    case HeatingRoomFactor => s.(factor := RealOf(value, num))
    case _ => s
  }

  function ApplyAlm(s: Legionella.AlmSettings, key: Key, value: string, num: Reader): Legionella.AlmSettings {
    match key
    case WatersupplyIhbAlmMode => s.(mode := FlagOf(value))
    case WatersupplyAlmTemp => s.(temp := RealOf(value, num))
    case WatersupplyAlmDays => s.(days := value)
    case WatersupplyAlmDuration => s.(duration := IntOf(value))
    case WatersupplyAlmStartTime => s.(startH := TimeOf(value).h, startM := TimeOf(value).m)
    case _ => s
  }

  function ApplyFill(s: FillSettings, key: Key, value: string, num: Reader): FillSettings {
    match key
    case HeatingAutofillEnabled => s.(enabled := FlagOf(value))
    case HeatingPressureMin => s.(pMin := RealOf(value, num))
    case HeatingPressureMax => s.(pMax := RealOf(value, num))
    case _ => s
  }

  function ApplyWater(s: WaterSettings, key: Key, value: string, num: Reader): WaterSettings {
    match key
    case WatersupplyPump => s.(pump := FlagOf(value))
    case WatersupplyPumpHot => s.(hotPump := FlagOf(value))
    case WatersupplyRecircScheduleEnabled => s.(recirc := FlagOf(value))
    case WatersupplyRecircMorningStart => s.(morningStart := TimeOf(value))
    case WatersupplyRecircMorningEnd => s.(morningEnd := TimeOf(value))
    case WatersupplyRecircEveningStart => s.(eveningStart := TimeOf(value))
    case WatersupplyRecircEveningEnd => s.(eveningEnd := TimeOf(value))
    case _ => s
  }

  function ApplyPza(s: PzaSettings, key: Key, value: string, num: Reader): PzaSettings {
    match key
    case HeatingRadiatorWbm => s.(radWbm := FlagOf(value))
    case HeatingRadiatorCurve => s.(radCurve := CurveOf(value))
    case HeatingFloorheatingWbm => s.(floorWbm := FlagOf(value))
    case HeatingFloorheatingCurve => s.(floorCurve := CurveOf(value))
    case HeatingPzaOutdoorTauH => s.(filterHours := HoursOf(value, num))
    case _ => s
  }

  /** One setting takes effect. */
  function ApplySetting(s: Settings, key: Key, value: string, num: Reader): Settings {
    Settings(ApplyBoiler(s.boiler, key, value, num), ApplyRad(s.rad, key, value, num),
             ApplyFloor(s.floor, key, value, num), ApplyTank(s.tank, key, value, num),
             ApplyRoom(s.room, key, value, num),
             ApplyAlm(s.alm, key, value, num), ApplyFill(s.fill, key, value, num), ApplyWater(s.water, key, value, num),
             ApplyPza(s.pza, key, value, num))
  }

  /** The values v, but x for the key. */
  function Put(v: Key -> string, key: Key, x: string): Key -> string { k => if k == key then x else v(k) }

  lemma PutAt(v: Key -> string, key: Key, x: string)
    ensures forall k :: Put(v, key, x)(k) == if k == key then x else v(k)
  {
  }

  lemma PutBoiler(v: Key -> string, key: Key, x: string, num: Reader)
    ensures ApplyBoiler(BoilerOf(v, num), key, x, num) == BoilerOf(Put(v, key, x), num)
  {
    hide FlagOf, RealOf, IntOf, TimeOf, CurveOf, HoursOf;
  }

  lemma PutRad(v: Key -> string, key: Key, x: string, num: Reader)
    ensures ApplyRad(RadOf(v, num), key, x, num) == RadOf(Put(v, key, x), num)
  {
    hide FlagOf, RealOf, IntOf, TimeOf, CurveOf, HoursOf;
  }

  lemma PutFloor(v: Key -> string, key: Key, x: string, num: Reader)
    ensures ApplyFloor(FloorOf(v, num), key, x, num) == FloorOf(Put(v, key, x), num)
  {
    hide FlagOf, RealOf, IntOf, TimeOf, CurveOf, HoursOf;
  }

  lemma PutTank(v: Key -> string, key: Key, x: string, num: Reader)
    ensures ApplyTank(TankOf(v, num), key, x, num) == TankOf(Put(v, key, x), num)
  {
    hide FlagOf, RealOf, IntOf, TimeOf, CurveOf, HoursOf;
  }

  lemma PutRoom(v: Key -> string, key: Key, x: string, num: Reader)
    ensures ApplyRoom(RoomOf(v, num), key, x, num) == RoomOf(Put(v, key, x), num)
  {
    hide FlagOf, RealOf, IntOf, TimeOf, CurveOf, HoursOf;
  }

  lemma PutAlm(v: Key -> string, key: Key, x: string, num: Reader)
    ensures ApplyAlm(AlmOf(v, num), key, x, num) == AlmOf(Put(v, key, x), num)
  {
    hide FlagOf, RealOf, IntOf, TimeOf, CurveOf, HoursOf;
  }

  lemma PutFill(v: Key -> string, key: Key, x: string, num: Reader)
    ensures ApplyFill(FillOf(v, num), key, x, num) == FillOf(Put(v, key, x), num)
  {
    hide FlagOf, RealOf, IntOf, TimeOf, CurveOf, HoursOf;
  }

  lemma PutWater(v: Key -> string, key: Key, x: string, num: Reader)
    ensures ApplyWater(WaterOf(v, num), key, x, num) == WaterOf(Put(v, key, x), num)
  {
    hide FlagOf, RealOf, IntOf, TimeOf, CurveOf, HoursOf;
  }

  lemma PutPza(v: Key -> string, key: Key, x: string, num: Reader)
    ensures ApplyPza(PzaOf(v, num), key, x, num) == PzaOf(Put(v, key, x), num)
  {
    hide FlagOf, RealOf, IntOf, TimeOf, CurveOf, HoursOf;
  }

  /** A setting that takes effect changes exactly what its key means. */
  lemma ApplyIsDecode(v: Key -> string, key: Key, x: string, num: Reader)
    ensures ApplySetting(Decode(v, num), key, x, num) == Decode(Put(v, key, x), num)
  {
    PutBoiler(v, key, x, num);
    PutRad(v, key, x, num);
    PutFloor(v, key, x, num);
    PutTank(v, key, x, num);
    PutRoom(v, key, x, num);
    PutAlm(v, key, x, num);
    PutFill(v, key, x, num);
    PutWater(v, key, x, num);
    PutPza(v, key, x, num);
    hide BoilerOf, TankOf, RoomOf, RadOf, FloorOf, AlmOf, FillOf, WaterOf, PzaOf, ApplyBoiler, ApplyTank, ApplyRoom,
         ApplyRad, ApplyFloor, ApplyAlm, ApplyFill, ApplyWater, ApplyPza;
  }

  ghost predicate SameValues(v: Key -> string, w: Key -> string) { forall k {:trigger v(k)} :: v(k) == w(k) }

  lemma SameDecode(v: Key -> string, w: Key -> string, num: Reader)
    requires SameValues(v, w)
    ensures Decode(v, num) == Decode(w, num)
  {
    hide FlagOf, RealOf, IntOf, TimeOf, CurveOf, HoursOf;
  }

  // ---- Loading what is stored ----

  type Store = map<Key, string>

  /** The value a restart takes: the stored one if it passes the check, else the default. */
  ghost function Effective(store: Store, key: Key, num: Reader): string {
    if key in store && Accepts(key, store[key], num) then store[key] else Default(key)
  }

  /** Load every setting of the table; whatever fails its check falls back to its default. */
  method LoadSettings(store: Store, num: Reader) returns (s: Settings)
    ensures s == Decode(k => Effective(store, k, num), num)
  {
    hide Decode, ApplySetting, Accepts, Default, FormatOf, Put;
    ghost var v: Key -> string := Default;
    s := Decode(Default, num);
    var todo := set k: Key {:trigger Default(k)} | true;
    while todo != {}
      invariant s == Decode(v, num)
      invariant forall k :: k in todo || v(k) == Effective(store, k, num)
      decreases |todo|
    {
      var key :| key in todo;
      var value := Default(key);
      if key in store {
        var ok := IsValid(key, store[key], num);
        if ok {
          value := store[key];
        }
      }
      ApplyIsDecode(v, key, value, num);
      PutAt(v, key, value);
      s := ApplySetting(s, key, value, num);
      v := Put(v, key, value);
      todo := todo - {key};
    }
    SameDecode(v, k => Effective(store, k, num), num);
  }

  // ---- Whatever is stored, the settings are within limits ----

  /** The number reader reads the numeric defaults as what they are: numbers within the limits. */
  ghost predicate ReadsDefaults(num: Reader) {
    forall k :: FormatOf(k).Number? || FormatOf(k).kind.IntKind? ==> Accepts(k, Default(k), num)
  }

  /** Within every limit of the table. */
  predicate WithinLimits(s: Settings) { s.Valid() && 0 <= s.tank.tehDelay <= 240 && 10 <= s.alm.duration <= 240 }

  /** The leading digits of the two integers are within the limits that their readings as a number were checked for. */
  predicate IntegersFit(v: Key -> string) {
    0 <= ToInt(v(WatersupplyIhbTehHeatingDelay)) <= 240 && 10 <= ToInt(v(WatersupplyAlmDuration)) <= 240
  }

  lemma DefaultTimes()
    ensures TimeText("23:00") && TimeText("06:00") && TimeText("03:00") && TimeText("09:00") && TimeText("18:00")
  {
    assert IsTime("23:00", 23, 0) && IsTime("06:00", 6, 0) && IsTime("03:00", 3, 0) && IsTime("09:00", 9, 0);
    assert IsTime("18:00", 18, 0);
  }

  lemma EffectiveAccepted(store: Store, key: Key, num: Reader)
    requires ReadsDefaults(num) && !(FormatOf(key) == Other(DaysKind))
    ensures Accepts(key, Effective(store, key, num), num)
  {
    hide TimeText;
    DefaultTimes();
  }

  lemma TimeInRange(value: string)
    requires TimeText(value)
    ensures TimeOf(value).Valid()
  {
    var h: nat, m: nat :| IsTime(value, h, m);
    TimeParts(value, h, m, Find(value, ':', 0));
  }

  /** Every value passes its check; what a list of days may be does not matter here. */
  ghost predicate AllAccepted(v: Key -> string, num: Reader) {
    forall k :: FormatOf(k) != Other(DaysKind) ==> Accepts(k, v(k), num)
  }

  lemma InLimits(v: Key -> string, num: Reader, key: Key, min: real, max: real)
    requires AllAccepted(v, num) && FormatOf(key) == Number(min, max)
    ensures min <= RealOf(v(key), num) <= max
  {
    assert Accepts(key, v(key), num);
  }

  lemma OfDay(v: Key -> string, num: Reader, key: Key)
    requires AllAccepted(v, num) && FormatOf(key) == Other(TimeKind)
    ensures TimeOf(v(key)).Valid()
  {
    assert Accepts(key, v(key), num);
    TimeInRange(v(key));
  }

  lemma HeatingInLimits(v: Key -> string, num: Reader)
    requires AllAccepted(v, num)
    ensures BoilerOf(v, num).Valid() && RoomOf(v, num).Valid() && FillOf(v, num).Valid()
  {
    hide AllAccepted, RealOf, FlagOf;
    InLimits(v, num, HeatingBoilerTemp, 30.0, 90.0);
    InLimits(v, num, HeatingBoilerMaxTemp, 60.0, 90.0);
    InLimits(v, num, HeatingBoilerMinTemp, 30.0, 70.0);
    InLimits(v, num, HeatingRoomTemp, 15.0, 28.0);
    InLimits(v, num, HeatingRoomFactor, 0.0, 5.0);
    InLimits(v, num, HeatingPressureMin, 0.5, 2.0);
    InLimits(v, num, HeatingPressureMax, 1.0, 2.8);
  }

  lemma WaterInLimits(v: Key -> string, num: Reader)
    requires AllAccepted(v, num)
    ensures TankOf(v, num).Valid() && PzaOf(v, num).Valid() && 55.0 <= AlmOf(v, num).temp <= 75.0
    ensures AlmOf(v, num).startH < 24 && AlmOf(v, num).startM < 60
  {
    InLimits(v, num, HeatingPzaOutdoorTauH, 0.0, 48.0);
    hide AllAccepted, RealOf, FlagOf, IntOf, TimeOf;
    InLimits(v, num, WatersupplyIhbTemp, 30.0, 75.0);
    InLimits(v, num, WatersupplyIhbBoost, 0.0, 20.0);
    InLimits(v, num, WatersupplyAlmTemp, 55.0, 75.0);
    OfDay(v, num, WatersupplyAlmStartTime);
  }

  lemma CircuitsInLimits(v: Key -> string, num: Reader)
    requires AllAccepted(v, num)
    ensures ValidRadiators(RadOf(v, num)) && ValidFloor(FloorOf(v, num))
  {
    hide AllAccepted, RealOf, FlagOf, TimeOf;
    InLimits(v, num, HeatingRadiatorTemp, 20.0, 90.0);
    InLimits(v, num, HeatingRadiatorScheduleDelta, -20.0, 10.0);
    InLimits(v, num, HeatingFloorheatingTemp, 20.0, 50.0);
    InLimits(v, num, HeatingFloorheatingScheduleDelta, -20.0, 10.0);
    OfDay(v, num, HeatingRadiatorScheduleStart);
    OfDay(v, num, HeatingRadiatorScheduleEnd);
    OfDay(v, num, HeatingFloorheatingScheduleStart);
    OfDay(v, num, HeatingFloorheatingScheduleEnd);
  }

  lemma AcceptedWithinLimits(v: Key -> string, num: Reader)
    requires AllAccepted(v, num)
    ensures Decode(v, num).Valid() && (WithinLimits(Decode(v, num)) <==> IntegersFit(v))
  {
    hide AllAccepted, BoilerOf, RoomOf, RadOf, FloorOf, FillOf, WaterOf, PzaOf;
    HeatingInLimits(v, num);
    WaterInLimits(v, num);
    CircuitsInLimits(v, num);
  }

  lemma EffectiveAllAccepted(store: Store, num: Reader)
    requires ReadsDefaults(num)
    ensures AllAccepted(k => Effective(store, k, num), num)
  {
    var v := k => Effective(store, k, num);
    forall k | FormatOf(k) != Other(DaysKind) ensures Accepts(k, v(k), num) { EffectiveAccepted(store, k, num); }
  }

  /** Whatever the storage holds, a boot ends with settings the controller runs with, and within every limit of the
      table if and only if the leading digits of the two integers are within theirs. */
  lemma LoadedWithinLimits(store: Store, num: Reader)
    requires ReadsDefaults(num)
    ensures var v := k => Effective(store, k, num);
            Decode(v, num).Valid() && (WithinLimits(Decode(v, num)) <==> IntegersFit(v))
  {
    hide AllAccepted, Decode, WithinLimits, IntegersFit, Effective;
    EffectiveAllAccepted(store, num);
    AcceptedWithinLimits(k => Effective(store, k, num), num);
  }

  /** Two accepted texts that take effect out of limits: strtof() reads 100 and -0, the leading digits are 1 and -1. */
  lemma IntegersMisread(v: Key -> string, num: Reader)
    requires num("1e2") == Some(100.0) && num("-1e-99") == Some(0.0)
    ensures Accepts(WatersupplyAlmDuration, "1e2", num)
    ensures ApplySetting(Decode(v, num), WatersupplyAlmDuration, "1e2", num).alm.duration == 1
    ensures Accepts(WatersupplyIhbTehHeatingDelay, "-1e-99", num)
    ensures ApplySetting(Decode(v, num), WatersupplyIhbTehHeatingDelay, "-1e-99", num).tank.tehDelay == -1
    ensures DelayMs(-1) == WRAP - 60_000
  {
    hide ToInt, BoilerOf, RadOf, FloorOf, RoomOf, FillOf, WaterOf, PzaOf, RealOf, FlagOf, TimeOf;
    DigitsBeforeExponent();
  }

  lemma DigitsBeforeExponent()
    ensures ToInt("1e2") == 1 && ToInt("-1e-99") == -1
  {
    assert "1e2"[1..] == "e2";
    assert LeadingDigits("1e2", 0) == LeadingDigits("e2", 1) == 1;
    assert "-1e-99"[1..] == "1e-99" && "1e-99"[1..] == "e-99";
    assert LeadingDigits("1e-99", 0) == LeadingDigits("e-99", 1) == 1;
  }

  lemma {:induction false} DigitsReadOn(a: string, c: char, acc: nat)
    requires (forall i :: 0 <= i < |a| ==> IsDigit(a[i])) && IsDigit(c)
    ensures LeadingDigits(a + [c], acc) == 10 * LeadingDigits(a, acc) + Value(c)
    decreases |a|
  {
    if a == "" {
      assert ([c])[1..] == "" && a + [c] == [c];
    } else {
      assert (a + [c])[1..] == a[1..] + [c];
      DigitsReadOn(a[1..], c, 10 * acc + Value(a[0]));
    }
  }

  lemma {:induction false} NatTextRead(n: nat)
    ensures NatText(n) != "" && (forall i :: 0 <= i < |NatText(n)| ==> IsDigit(NatText(n)[i]))
    ensures LeadingDigits(NatText(n), 0) == n
  {
    if n < 10 {
      assert NatText(n)[1..] == "";
    } else {
      NatTextRead(n / 10);
      DigitsReadOn(NatText(n / 10), Digit(n % 10), 0);
    }
  }

  /** Plain decimal texts, as the backend sends them, are never misread. */
  lemma PlainIntegersFit(n: nat)
    ensures ToInt(NatText(n)) == n
  {
    NatTextRead(n);
    assert TrimLeft(NatText(n)) == NatText(n);
  }

  // ---- Changing a setting ----

  /** Storing one value; `works` says whether the memory takes it. An empty text counts as stored either way. */
  function SetStored(store: Store, key: Key, value: string, works: bool): (Store, bool) {
    if key in store && store[key] == value then (store, true)
    else if works then (store[key := value], true)
    else (store, value == "")
  }

  /** What the controller has in storage and in effect. */
  datatype Node = Node(store: Store, live: Key -> string)

  datatype Change = Set(key: Option<Key>, value: string, works: bool) | Restart

  ghost predicate Takes(c: Change, num: Reader) { c.Set? && c.key.Some? && Accepts(c.key.value, c.value, num) }

  ghost function Status(n: Node, c: Change, num: Reader): string
    requires c.Set?
  {
    if c.key.None? then "unknown_key"
    else if !Takes(c, num) then "invalid_value"
    else if SetStored(n.store, c.key.value, c.value, c.works).1 then "ok"
    else "persist_failed"
  }

  ghost function Step(n: Node, c: Change, num: Reader): Node {
    if c.Restart? then Node(n.store, k => Effective(n.store, k, num))
    else if Takes(c, num) then
      Node(SetStored(n.store, c.key.value, c.value, c.works).0, Put(n.live, c.key.value, c.value))
    else n
  }

  ghost predicate IsRun(cs: seq<Change>, ns: seq<Node>, num: Reader) {
    |ns| == |cs| + 1 && forall i :: 0 <= i < |cs| ==> ns[i + 1] == Step(ns[i], cs[i], num)
  }

  /** A setting from outside: checked, stored, then in effect; the answer says how far it came. */
  method OnSettingChanged(store: Store, s: Settings, ghost live: Key -> string, key: Option<Key>, value: string,
                          works: bool, num: Reader) returns (store': Store, s': Settings, status: string)
    requires s == Decode(live, num)
    ensures var n := Step(Node(store, live), Set(key, value, works), num);
            store' == n.store && s' == Decode(n.live, num)
    ensures status == Status(Node(store, live), Set(key, value, works), num)
  {
    hide Decode, ApplySetting, Accepts;
    store', s' := store, s;
    if key.None? {
      return store, s, "unknown_key";
    }
    var ok := IsValid(key.value, value, num);
    if !ok {
      return store, s, "invalid_value";
    }
    var stored := SetStored(store, key.value, value, works);
    store' := stored.0;
    s' := ApplySetting(s, key.value, value, num);
    ApplyIsDecode(live, key.value, value, num);
    status := if stored.1 then "ok" else "persist_failed";
  }

  /** Every text in effect has passed its check, or is a default. */
  lemma {:induction false} LiveAccepted(cs: seq<Change>, ns: seq<Node>, k: nat, num: Reader)
    requires IsRun(cs, ns, num) && ReadsDefaults(num) && k <= |cs| && AllAccepted(ns[0].live, num)
    ensures AllAccepted(ns[k].live, num)
  {
    hide ReadsDefaults, Accepts, Effective;
    if k > 0 {
      LiveAccepted(cs, ns, k - 1, num);
      assert ns[k] == Step(ns[k - 1], cs[k - 1], num);
      EffectiveAllAccepted(ns[k - 1].store, num);
    }
  }

  /** From a boot on, over any changes, failed writes and restarts: the settings in effect are ones the controller
      runs with, and within every limit of the table if and only if the leading digits of the two integers are within
      theirs. */
  lemma LiveWithinLimits(cs: seq<Change>, ns: seq<Node>, k: nat, num: Reader)
    requires IsRun(cs, ns, num) && ReadsDefaults(num) && k <= |cs|
    requires ns[0].live == (key => Effective(ns[0].store, key, num))
    ensures Decode(ns[k].live, num).Valid()
    ensures WithinLimits(Decode(ns[k].live, num)) <==> IntegersFit(ns[k].live)
  {
    hide AllAccepted, Decode, WithinLimits, IntegersFit, Effective, ReadsDefaults;
    EffectiveAllAccepted(ns[0].store, num);
    LiveAccepted(cs, ns, k, num);
    AcceptedWithinLimits(ns[k].live, num);
  }

  // ---- What an ok is worth ----

  /** The value a change leaves for the next restart. */
  lemma LeftForRestart(n: Node, c: Change, num: Reader)
    requires Takes(c, num)
    ensures var before := Effective(n.store, c.key.value, num);
            var after := Effective(Step(n, c, num).store, c.key.value, num);
            && (after == c.value <==> c.works || before == c.value)
            && (Status(n, c, num) == "ok" ==> (after == c.value <==> c.value != "" || c.works || before == ""))
  {
  }

  predicate Restarted(cs: seq<Change>, i: nat, k: nat)
    requires k <= |cs|
  {
    exists j :: i <= j < k && cs[j].Restart?
  }

  /** While its key is not changed again, what a change stored stays stored, and is in effect from the first restart
      on. */
  lemma {:induction false} UntilChanged(cs: seq<Change>, ns: seq<Node>, key: Key, i: nat, k: nat, num: Reader)
    requires IsRun(cs, ns, num) && i <= k <= |cs|
    requires forall j :: i <= j < k && Takes(cs[j], num) ==> cs[j].key.value != key
    ensures Effective(ns[k].store, key, num) == Effective(ns[i].store, key, num)
    ensures ns[k].live(key) == if Restarted(cs, i, k) then Effective(ns[i].store, key, num) else ns[i].live(key)
  {
    hide Accepts, Default;
    if k > i {
      UntilChanged(cs, ns, key, i, k - 1, num);
      assert ns[k] == Step(ns[k - 1], cs[k - 1], num);
      if cs[k - 1].Restart? {
        assert Restarted(cs, i, k);
      } else {
        assert Restarted(cs, i, k) <==> Restarted(cs, i, k - 1);
      }
    }
  }

  /** An accepted value answered with ok is still in effect, over any changes of other settings, failed writes and
      restarts, if and only if there was no restart since, or it is no empty text that the memory refused while a
      restart would take another value. */
  lemma OkSurvives(cs: seq<Change>, ns: seq<Node>, i: nat, k: nat, num: Reader)
    requires IsRun(cs, ns, num) && i < k <= |cs| && Takes(cs[i], num) && Status(ns[i], cs[i], num) == "ok"
    requires forall j :: i < j < k && Takes(cs[j], num) ==> cs[j].key != cs[i].key
    ensures var key := cs[i].key.value;
            ns[k].live(key) == cs[i].value
            <==> !Restarted(cs, i + 1, k) || cs[i].value != "" || cs[i].works || Effective(ns[i].store, key, num) == ""
  {
    hide Accepts;
    var key := cs[i].key.value;
    assert ns[i + 1] == Step(ns[i], cs[i], num);
    LeftForRestart(ns[i], cs[i], num);
    UntilChanged(cs, ns, key, i + 1, k, num);
  }

  /** Whatever the answer, an accepted value survives a restart if and only if the memory took it, or a restart would
      have taken it anyway. */
  lemma SurvivesIffStored(cs: seq<Change>, ns: seq<Node>, i: nat, k: nat, num: Reader)
    requires IsRun(cs, ns, num) && i < k <= |cs| && Takes(cs[i], num) && Restarted(cs, i + 1, k)
    requires forall j :: i < j < k && Takes(cs[j], num) ==> cs[j].key != cs[i].key
    ensures var key := cs[i].key.value;
            ns[k].live(key) == cs[i].value <==> cs[i].works || Effective(ns[i].store, key, num) == cs[i].value
  {
    hide Accepts;
    assert ns[i + 1] == Step(ns[i], cs[i], num);
    LeftForRestart(ns[i], cs[i], num);
    UntilChanged(cs, ns, cs[i].key.value, i + 1, k, num);
  }

  /** The days of the night schedule are cleared, the write fails, the answer is ok, and a restart brings the days
      back. */
  lemma ClearedDaysReturn(live: Key -> string, num: Reader) returns (ns: seq<Node>)
    ensures var key := HeatingRadiatorScheduleDays;
            var clear := Set(Some(key), "", false);
            && IsRun([clear, Restart], ns, num) && ns[0].store == map[key := "6,7"]
            && Status(ns[0], clear, num) == "ok" && ns[1].live(key) == "" && ns[2].live(key) == "6,7"
  {
    var key := HeatingRadiatorScheduleDays;
    var clear, start := Set(Some(key), "", false), Node(map[key := "6,7"], live);
    assert DayList("") by { assert JoinDays([]) == ""; }
    assert DayList("6,7") by {
      assert AllDays([6, 7]) && [6, 7][1..] == [7] && JoinDays([6, 7]) == "6,7";
    }
    ns := [start, Step(start, clear, num), Step(Step(start, clear, num), Restart, num)];
  }
}
