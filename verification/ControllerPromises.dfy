/** What the controller promises whatever its settings, sensors and commands do. */
module ControllerPromises {
  import opened Options
  import opened WeatherCurve
  import opened Schedule
  import opened Relays
  import opened Reals
  import opened Heating
  import opened Controller
  import opened ControllerRuns
  import opened ControllerSafety
  import Ticks
  import Autofill
  import Well
  import Legionella
  import AlarmLamps
  import HeatingRuns

  // ---- The last word ----

  lemma BoilerLastWord(on: bool, s: BoilerSettings, temp: Option<real>, frost: bool, pressureZero: bool, lost: bool,
                       mild: bool)
    ensures var b := InterlockedBoiler(on, s, temp, frost, pressureZero, lost, mild);
            && (Overtemp(s, temp) ==> !b)
            && (frost && !pressureZero ==> (b <==> !Overtemp(s, temp)))
            && (!s.auto && !s.power && !frost ==> !b)
            && (s.auto && lost && mild && !frost ==> !b)
            && (b && !on ==> frost && !pressureZero)
  {
  }

  /** After every update, whatever came before: too hot switches the boiler off; frost runs both pumps, the floor only
      with its sensor, and the boiler unless too hot; a manual off without frost is off. */
  lemma LastWord(c: Ctl, i: Inputs)
    requires c.Valid()
    ensures var d, hot := Cycle(c, i), Overtemp(c.settings.boiler, i.temps.boiler);
            && d.overtemp == hot
            && (hot ==> !Output(d, BOILER_POWER))
            && (Forced(d) ==> Output(d, RADIATOR_PUMP) && (Output(d, FLOOR_PUMP) <==> !d.floorLoss.lost)
                              && (Output(d, BOILER_POWER) <==> !hot))
            && (!d.frost && !c.settings.boiler.auto && !c.settings.boiler.power ==> !Output(d, BOILER_POWER))
            && (d.floorLoss.lost ==> !Output(d, FLOOR_PUMP))
            && (d.boilerLoss.lost && c.settings.boiler.auto && MildOutside(c.weather, i.now) && !d.frost
                ==> !Output(d, BOILER_POWER))
  {
    CycleParts(c, i);
    BoilerLastWord(HeatPhase(c, i).burner.on, c.settings.boiler, i.temps.boiler, Cycle(c, i).frost,
                   Cycle(c, i).pressureZero, Cycle(c, i).boilerLoss.lost, MildOutside(c.weather, i.now));
    hide Cycle, HeatPhase, Sensed, InterlockedBoiler, UpdateBurner, MildOutside, Overtemp, TargetOf,
         Autofill.UpdateFill, Autofill.Interlocked, Well.UpdateWell, AlarmLamps.UpdateLamps, RadTarget, FlrTarget;
  }

  /** Frost protection is on if and only if some cycle read a water temperature below 7 degrees and none since, nor a
      reboot, found all of them at 15 or above. */
  lemma FrostIffFroze(es: seq<Event>, ss: seq<Ctl>, k: nat) returns (h: seq<FrostInput>)
    requires IsRun(es, ss) && k <= |es|
    ensures |ss| == |es| + 1 == |h| + 1 && forall j :: 0 <= j < |es| ==> h[j] == FrostIn(es[j])
    ensures ss[k].frost <==> exists j: nat :: FrozenSince(h, j, k)
  {
    hide Next, Booted, Possible, FrostIn, FrozenSince;
    var xs;
    h, xs := FrostRun(es, ss);
    FrostIffHistory(h, xs, k);
  }

  // ---- Targets ----

  /** The settings' cross-field conditions, as the backend enforces them. */
  predicate CoherentSettings(s: Settings) {
    Coherent(s.boiler) && (s.alm.mode ==> s.alm.temp <= s.boiler.max - 7.0)
  }

  /** A circuit or the tank wants heat when the burner is decided. */
  predicate WantsHeat(d: Ctl) {
    d.settings.rad.pump || d.settings.floor.pump || Loading(d.settings.tank, d.ihbHeating, d.pumps.ihb)
  }

  lemma TankTargetBounds(a: Legionella.Alm, s: Settings)
    requires s.Valid()
    ensures Legionella.TankTarget(a, s.alm.temp, s.tank.temp) >= s.tank.temp >= 30.0
    ensures a.active ==> Legionella.TankTarget(a, s.alm.temp, s.tank.temp) >= Max(s.alm.temp, s.tank.temp)
  {
  }

  lemma CircuitTargetsWarm(d: Ctl, now: nat)
    requires d.Valid()
    ensures RadTarget(d, now) >= MIN_SUPPLY_TARGET && 20.0 <= FlrTarget(d, now) <= 60.0
  {
    FloorTargetRange(d.settings.floor, d.settings.room, d.weather, d.nightFloor, now);
    hide Weather.RadiatorTarget, Weather.FloorTarget, RoomCorrection;
  }

  /** For accepted settings the target the burner is regulated to is at most max - 7 and the burner stops by max - 5;
      it is at least the minimum whenever something wants heat, and at least the disinfection temperature while that
      loads the tank. */
  lemma TargetBounds(d: Ctl, now: nat)
    requires d.Valid() && CoherentSettings(d.settings)
    ensures var t, s := TargetOf(d, now), d.settings;
            && t <= s.boiler.max - 7.0 && t + BOILER_HYSTERESIS <= s.boiler.max - 5.0
            && (WantsHeat(d) ==> s.boiler.min <= t)
            && (d.alm.active && s.alm.mode && Loading(s.tank, d.ihbHeating, d.pumps.ihb) ==> t >= s.alm.temp)
  {
    var s := d.settings;
    var loading := Loading(s.tank, d.ihbHeating, d.pumps.ihb);
    CircuitTargetsWarm(d, now);
    TankTargetBounds(d.alm, s);
    DemandPositive(s.rad.pump, RadTarget(d, now), s.floor.pump, FlrTarget(d, now), loading,
                   IhbTarget(d) + s.tank.boost);
    var demand := HeatDemand(d, now);
    AutoTargetBounds(s.boiler, demand);
    if d.alm.active && s.alm.mode && loading { DisinfectionReachable(s.boiler, s.tank, s.alm.temp, demand); }
    hide RadTarget, FlrTarget, Demand, AutoTarget, Loading, Legionella.TankTarget;
  }

  lemma BurnerUsesTarget(b: Burner, s: BoilerSettings, temp: Option<real>, lost: bool, mild: bool, frost: bool,
                         pressureZero: bool, target: real, now: nat)
    requires s.auto && temp.Some? && !Overtemp(s, temp) && !lost
    ensures var u := UpdateBurner(b, s, temp, lost, mild, frost && !pressureZero, target, now);
            var on := InterlockedBoiler(u.on, s, temp, frost, pressureZero, lost, mild);
            && u.autoTarget == target
            && (!(frost && !pressureZero) && b.on && !on ==> temp.value >= target + BOILER_HYSTERESIS)
            && (!(frost && !pressureZero) && !b.on && on ==> temp.value < target)
  {
  }

  /** An update in auto mode with a reading below the maximum regulates to that target. */
  lemma UpdateUsesTarget(c: Ctl, i: Inputs)
    requires c.Valid() && c.settings.boiler.auto && i.temps.boiler.Some? && !Overtemp(c.settings.boiler, i.temps.boiler)
    ensures var e, d := Sensed(c, i), Cycle(c, i);
            && e.Valid() && e.settings == c.settings && SameSenses(e, d)
            && d.burner.autoTarget == TargetOf(e, i.now)
            && (!Forced(d) && c.burner.on && !d.burner.on
                ==> i.temps.boiler.value >= TargetOf(e, i.now) + BOILER_HYSTERESIS)
            && (!Forced(d) && !c.burner.on && d.burner.on ==> i.temps.boiler.value < TargetOf(e, i.now))
  {
    CycleParts(c, i);
    SensedParts(c, i);
    var d := Cycle(c, i);
    BurnerUsesTarget(c.burner, c.settings.boiler, i.temps.boiler, d.boilerLoss.lost, MildOutside(c.weather, i.now),
                     d.frost, d.pressureZero, TargetOf(Sensed(c, i), i.now), i.now);
    hide Cycle, HeatPhase, Sensed, TargetOf, Autofill.UpdateFill, Autofill.Interlocked, Well.UpdateWell, Lowest,
         UpdateFrost, AlarmLamps.UpdateLamps, RadTarget, FlrTarget, InterlockedPumps, Legionella.UpdateAlm,
         MildOutside, Overtemp, UpdateBurner, InterlockedBoiler;
  }

  // ---- No short burner cycles ----

  /** Not a reboot, and an update only in auto mode, with a reading below the maximum and without frost forcing. */
  predicate Steady(c: Ctl, e: Event, d: Ctl) {
    && !e.Boot?
    && (e.Update? ==> c.settings.boiler.auto && e.i.temps.boiler.Some? && e.i.temps.boiler.value < c.settings.boiler.max
                      && !Forced(d))
  }

  /** Event j switches the boiler relay. */
  predicate Switches(ss: seq<Ctl>, j: nat)
    requires j + 1 < |ss|
  {
    ss[j + 1].burner.on != ss[j].burner.on
  }

  /** In a steady stretch an update regulates and the interlocks agree; nothing else moves the burner. */
  lemma SteadyStep(c: Ctl, e: Event)
    requires c.Valid() && Possible(c, e) && Steady(c, e, Next(c, e))
    ensures var d := Next(c, e);
            if e.Update?
            then exists target :: d.burner == Regulate(Notice(c.burner, e.i.now).(autoTarget := target),
                                                       e.i.temps.boiler.value, e.i.now)
            else d.burner == c.burner
  {
    if e.Update? {
      CycleParts(c, e.i);
      SensedParts(c, e.i);
      var target := TargetOf(Sensed(c, e.i), e.i.now);
      SteadyBurner(c.burner, c.settings.boiler, e.i.temps.boiler, Cycle(c, e.i).boilerLoss.lost,
                   MildOutside(c.weather, e.i.now), Cycle(c, e.i).frost, Cycle(c, e.i).pressureZero, target, e.i.now);
      hide Cycle, HeatPhase, Sensed, TargetOf, Autofill.UpdateFill, Autofill.Interlocked, Well.UpdateWell, Lowest,
           UpdateFrost, AlarmLamps.UpdateLamps, RadTarget, FlrTarget, InterlockedPumps, Legionella.UpdateAlm,
           MildOutside, UpdateBurner, InterlockedBoiler, Regulate, Notice;
      assert Cycle(c, e.i).burner == Regulate(Notice(c.burner, e.i.now).(autoTarget := target),
                                              e.i.temps.boiler.value, e.i.now);
    }
  }

  lemma SteadyBurner(b: Burner, s: BoilerSettings, temp: Option<real>, lost: bool, mild: bool, frost: bool,
                     pressureZero: bool, target: real, now: nat)
    requires s.auto && temp.Some? && temp.value < s.max && !lost && !(frost && !pressureZero)
    ensures var u := UpdateBurner(b, s, temp, lost, mild, false, target, now);
            && u == Regulate(Notice(b, now).(autoTarget := target), temp.value, now)
            && InterlockedBoiler(u.on, s, temp, frost, pressureZero, lost, mild) == u.on
  {
  }

  /** Since time t: the burner just switched, or the last switch noticed lies between t and now. */
  predicate Remembers(b: Burner, t: nat, now: nat) {
    b.on != b.last || (b.switched && t <= b.changedAt <= now)
  }

  /** A switch comes at least 5 minutes after the last one, also when the millisecond counter has wrapped. */
  lemma RegulateWaits(b: Burner, temp: real, target: real, t: nat, now: nat, before: nat)
    requires Remembers(b, t, before) && t <= before <= now
    ensures var d := Regulate(Notice(b, now).(autoTarget := target), temp, now);
            && Remembers(d, t, now)
            && (d.on != b.on ==> now - t >= BOILER_MIN_ON_MS)
  {
    var c := Notice(b, now);
    assert HeldFor(c, now) <= now - c.changedAt by { ModAtMost(now - c.changedAt); }
    hide HeldFor;
  }

  lemma ModAtMost(x: nat)
    ensures x % WRAP <= x
  {
  }

  lemma SwitchIsRemembered(b: Burner, temp: real, target: real, now: nat)
    ensures var d := Regulate(Notice(b, now).(autoTarget := target), temp, now);
            d.on != b.on ==> d.on != d.last
  {
    hide HeldFor;
  }

  predicate SteadyStretch(es: seq<Event>, ss: seq<Ctl>, i: nat, k: nat)
    requires |ss| == |es| + 1 && k < |es|
  {
    && (forall j :: i <= j <= k ==> Steady(ss[j], es[j], ss[j + 1]))
    && (forall j, l :: i <= j <= l <= k ==> es[j].At() <= es[l].At())
  }

  lemma {:induction false} RemembersSince(es: seq<Event>, ss: seq<Ctl>, i: nat, k: nat)
    requires IsRun(es, ss) && i <= k < |es| && SteadyStretch(es, ss, i, k) && Switches(ss, i)
    ensures Remembers(ss[k + 1].burner, es[i].At(), es[k].At())
    ensures i < k && Switches(ss, k) ==> es[k].At() - es[i].At() >= BOILER_MIN_ON_MS
  {
    hide Next, Booted, Possible, Remembers, Regulate, Notice, Forced;
    assert ss[k + 1] == Next(ss[k], es[k]) && ss[k].Valid() && Possible(ss[k], es[k]);
    SteadyStep(ss[k], es[k]);
    if k == i {
      FirstSwitch(ss[i], es[i]);
    } else {
      RemembersSince(es, ss, i, k - 1);
      LaterStep(ss[k].burner, ss[k + 1].burner, es[k], es[i].At(), es[k - 1].At());
    }
  }

  lemma FirstSwitch(c: Ctl, e: Event)
    requires c.Valid() && Possible(c, e) && Steady(c, e, Next(c, e)) && Next(c, e).burner.on != c.burner.on
    ensures Remembers(Next(c, e).burner, e.At(), e.At())
  {
    SteadyStep(c, e);
    hide Next, Possible, Steady, Regulate, Notice;
    var target :| Next(c, e).burner == Regulate(Notice(c.burner, e.i.now).(autoTarget := target),
                                                e.i.temps.boiler.value, e.i.now);
    SwitchIsRemembered(c.burner, e.i.temps.boiler.value, target, e.i.now);
  }

  lemma LaterStep(b: Burner, d: Burner, e: Event, t: nat, before: nat)
    requires Remembers(b, t, before) && t <= before <= e.At()
    requires e.Update? ==> e.i.temps.boiler.Some?
    requires if e.Update?
             then exists target :: d == Regulate(Notice(b, e.i.now).(autoTarget := target), e.i.temps.boiler.value,
                                                 e.i.now)
             else d == b
    ensures Remembers(d, t, e.At()) && (d.on != b.on ==> e.At() - t >= BOILER_MIN_ON_MS)
  {
    if e.Update? {
      hide Regulate, Notice;
      var target :| d == Regulate(Notice(b, e.i.now).(autoTarget := target), e.i.temps.boiler.value, e.i.now);
      RegulateWaits(b, e.i.temps.boiler.value, target, t, e.i.now, before);
    }
  }

  /** Over a steady stretch any two switches of the boiler relay are at least 5 minutes apart in real time. */
  lemma NoShortCycles(es: seq<Event>, ss: seq<Ctl>, i: nat, k: nat)
    requires IsRun(es, ss) && i < k < |es| && SteadyStretch(es, ss, i, k) && Switches(ss, i) && Switches(ss, k)
    ensures es[k].At() - es[i].At() >= 5 * 60 * 1000
  {
    RemembersSince(es, ss, i, k);
  }

  // ---- The other parts, at the outputs ----

  lemma FillTicked(es: seq<Event>, ss: seq<Ctl>, h: seq<Autofill.Input>, gap: nat)
    requires |h| == |es| < |ss| && forall j :: 0 <= j < |es| ==> h[j] == FillIn(ss[j], es[j])
    requires Ticked(es, gap) && Ticks.Forwards(Stamps(es))
    ensures Autofill.AllTicked(h, gap)
  {
    assert Autofill.Stamps(h) == Stamps(es);
  }

  /** The filling valve is never driven open for longer than 2 minutes and a tick gap, whatever the pressure reads: open
      from event i - 1 on, until event k at the earliest, if that is no boot. */
  lemma AutofillOpenBounded(es: seq<Event>, ss: seq<Ctl>, i: nat, k: nat, gap: nat)
    requires IsRun(es, ss) && |ss| == |es| + 1 && Ticked(es, gap) && Ticks.Forwards(Stamps(es)) && 0 < i <= k < |es|
    requires (forall j :: i <= j <= k ==> Output(ss[j], AUTOFILL_OPEN)) && !es[k].Boot?
    ensures es[k].At() - es[i - 1].At() <= 120_000 + gap
  {
    hide Next, Possible, Booted, Autofill.IsRun, Autofill.AllTicked, Ticked, Ticks.Forwards, IsRun;
    var h, xs := FillRun(es, ss);
    FillTicked(es, ss, h, gap);
    assert forall j :: i <= j <= k ==> xs[j] == ss[j].fill && xs[j].open by {
      assert forall j :: i <= j <= k ==> Output(ss[j], AUTOFILL_OPEN);
    }
    assert h[k] == FillIn(ss[k], es[k]) && h[i - 1] == FillIn(ss[i - 1], es[i - 1]);
    assert h[k].now == es[k].At() && h[i - 1].now == es[i - 1].At();
    hide Output, FillIn;
    Autofill.OpenStretchBounded(h, xs, i, k, gap);
  }

  /** Locked out, it is not opened again over any reboots, until the lockout is reset or the configuration wiped. */
  lemma LockoutHolds(es: seq<Event>, ss: seq<Ctl>, i: nat, k: nat)
    requires IsRun(es, ss) && |ss| == |es| + 1 && i <= k <= |es| && ss[i].fill.fault
    requires forall j :: i <= j < k ==> !es[j].ResetFault? && !(es[j].Boot? && es[j].wiped)
    ensures ss[k].fill.fault && !Output(ss[k], AUTOFILL_OPEN)
  {
    hide Next, Possible, Booted, Autofill.IsRun, IsRun;
    var h, xs := FillRun(es, ss);
    assert forall j :: i <= j < k ==> !Autofill.Unlocks(h[j]);
    Autofill.LockoutLasts(h, xs, i, k);
  }

  // ---- The well pump ----

  /** The inputs of the well protection over a run, and its states. */
  function WellInputs(es: seq<Event>, ss: seq<Ctl>): seq<Well.Input>
    requires |ss| == |es| + 1
  {
    seq(|es|, k requires 0 <= k < |es| => WellIn(ss[k], es[k]))
  }

  function Wells(ss: seq<Ctl>): seq<Well.Well> { seq(|ss|, k requires 0 <= k < |ss| => ss[k].well) }

  predicate NoBoot(es: seq<Event>, i: nat, k: nat)
    requires k <= |es|
  {
    forall j :: i <= j < k ==> !es[j].Boot?
  }

  /** The water pressure sensor is configured at boot: between two boots every update has a reading of it or none
      has. */
  predicate WaterSensorFixed(es: seq<Event>) {
    forall i, k :: 0 <= i < k < |es| && es[i].Update? && es[k].Update? && NoBoot(es, i, k) ==>
                     (es[i].i.water.Some? <==> es[k].i.water.Some?)
  }

  lemma WellRuns(es: seq<Event>, ss: seq<Ctl>)
    requires IsRun(es, ss) && |ss| == |es| + 1 && WaterSensorFixed(es)
    ensures Well.IsRun(WellInputs(es, ss), Wells(ss)) && Well.SensorFixed(WellInputs(es, ss))
  {
    hide Next, Possible, Booted, Well.IsRun, IsRun;
    var h, xs := WellRun(es, ss);
    assert h == WellInputs(es, ss) && xs == Wells(ss);
    forall i, k | 0 <= i < k < |h| && h[i].Cycle? && h[k].Cycle? && Well.NoBoot(h, i, k)
      ensures h[i].pressure.Some? <==> h[k].pressure.Some?
    {
      assert forall j :: i <= j < k ==> (h[j].Boot? <==> es[j].Boot?);
      assert NoBoot(es, i, k);
    }
  }

  /** With a water pressure sensor and without one the well pump never runs while it is stopped for a dry run, and the
      reported flag says exactly when that is. */
  lemma WellStopped(es: seq<Event>, ss: seq<Ctl>, k: nat)
    requires IsRun(es, ss) && |ss| == |es| + 1 && WaterSensorFixed(es) && k <= |es|
    ensures ss[k].well.dry <==> ss[k].well.waiting || ss[k].well.locked
    ensures ss[k].well.dry ==> !Output(ss[k], WATER_PUMP)
  {
    hide Next, Possible, Booted, Well.IsRun, IsRun, Well.SensorFixed, WaterSensorFixed;
    WellRuns(es, ss);
    var _ := Well.DryIffStopped(WellInputs(es, ss), Wells(ss), k);
  }

  /** From event i up to event k the pump stays commanded, nobody resets the protection, nothing reboots. */
  predicate PumpLeftAlone(es: seq<Event>, ss: seq<Ctl>, i: nat, k: nat)
    requires |ss| == |es| + 1 && k <= |es|
  {
    forall j :: i <= j < k ==> !es[j].ResetWell? && !es[j].Boot? && (es[j].Update? ==> ss[j].settings.water.pump)
  }

  /** A pump stopped by update i for a pause runs again only 30 minutes later. */
  lemma WellPauses(es: seq<Event>, ss: seq<Ctl>, i: nat, k: nat)
    requires IsRun(es, ss) && |ss| == |es| + 1 && WaterSensorFixed(es) && i < k < |es| && es[i].Update? && es[k].Update?
    requires !ss[i].well.waiting && ss[i + 1].well.waiting && Output(ss[k + 1], WATER_PUMP)
    requires PumpLeftAlone(es, ss, i + 1, k + 1) && forall j :: i < j < k && es[j].Update? ==> es[j].At() <= es[k].At()
    ensures es[k].At() >= es[i].At() + 30 * 60 * 1000
  {
    hide Next, Possible, Booted, Well.IsRun, IsRun, Well.SensorFixed, WaterSensorFixed;
    WellRuns(es, ss);
    var h, xs := WellInputs(es, ss), Wells(ss);
    assert forall j :: 0 <= j < |es| ==> h[j] == WellIn(ss[j], es[j]);
    assert Well.LeftAlone(h, i + 1, k + 1) && Well.Pauses(h, xs, i, h[i].now);
    Well.RetryAfterPause(h, xs, i, k);
  }

  /** Locked after the third dry run, it stays off until it is switched off by hand, reset or rebooted. */
  lemma WellLocked(es: seq<Event>, ss: seq<Ctl>, i: nat, k: nat)
    requires IsRun(es, ss) && |ss| == |es| + 1 && WaterSensorFixed(es) && i <= k <= |es|
    requires ss[i].well.locked && PumpLeftAlone(es, ss, i, k)
    ensures ss[k].well.locked && !Output(ss[k], WATER_PUMP)
  {
    hide Next, Possible, Booted, Well.IsRun, IsRun, Well.SensorFixed, WaterSensorFixed;
    WellRuns(es, ss);
    var h := WellInputs(es, ss);
    assert forall j :: 0 <= j < |es| ==> h[j] == WellIn(ss[j], es[j]);
    assert Well.LeftAlone(h, i, k);
    Well.LockLasts(h, Wells(ss), i, k);
  }

  /** Time the pump relay was on between event i and event k. */
  function PumpTime(es: seq<Event>, ss: seq<Ctl>, i: nat, k: nat): int
    requires |ss| == |es| + 1 && i <= k < |es|
  {
    if k == i then 0
    else PumpTime(es, ss, i, k - 1) + if Output(ss[k], WATER_PUMP) then es[k].At() - es[k - 1].At() else 0
  }

  lemma {:induction false} PumpTimeIsRunTime(es: seq<Event>, ss: seq<Ctl>, i: nat, k: nat)
    requires |ss| == |es| + 1 && i <= k < |es|
    ensures PumpTime(es, ss, i, k) == Well.RunTime(WellInputs(es, ss), Wells(ss), i, k)
  {
    if k > i { PumpTimeIsRunTime(es, ss, i, k - 1); }
  }

  /** On a dry well, with updates at most `gap` apart, the pump relay is on for at most three minutes and three gaps
      before it is locked. */
  lemma WellDryTimeBounded(es: seq<Event>, ss: seq<Ctl>, i: nat, k: nat, gap: nat)
    requires IsRun(es, ss) && |ss| == |es| + 1 && WaterSensorFixed(es) && i <= k < |es|
    requires Well.DryStretch(WellInputs(es, ss), i, k, gap) && ss[i].well.failures == 0 && !ss[i].well.lowActive
    ensures PumpTime(es, ss, i, k) <= 3 * (60_000 + gap)
  {
    hide Next, Possible, Booted, Well.IsRun, IsRun, Well.SensorFixed, WaterSensorFixed, Well.DryStretch;
    WellRuns(es, ss);
    PumpTimeIsRunTime(es, ss, i, k);
    Well.DryRunBounded(WellInputs(es, ss), Wells(ss), i, k, gap);
  }

  // ---- Tank and heater ----

  /** From event s up to event k every update finds the heater in auto mode with this delay. */
  predicate HeaterAuto(es: seq<Event>, ss: seq<Ctl>, s: nat, k: nat, delay: int)
    requires |ss| == |es| + 1 && k <= |es|
  {
    forall j :: s <= j < k && es[j].Update? ==> ss[j].settings.tank.tehAuto && ss[j].settings.tank.tehDelay == delay
  }

  /** From an idle heater on, in auto mode the heater's relay is on only after the tank wanted heat, and the boiler
      gave it none, in every update over the whole delay. */
  lemma HeaterWaits(es: seq<Event>, ss: seq<Ctl>, s: nat, delay: int, k: nat)
    returns (h: seq<HeatingRuns.TehInput>, i: nat, b: nat)
    requires IsRun(es, ss) && |ss| == |es| + 1 && s <= k <= |es| && HeaterAuto(es, ss, s, k, delay)
    requires !ss[s].teh.on && !ss[s].teh.delayActive && Output(ss[k], TEH)
    ensures |h| == |es| && forall j :: 0 <= j < |es| ==> ss[j].Valid() && h[j] == TehIn(ss[j], es[j])
    ensures s <= i < b < k && HeatingRuns.WantingFrom(h, i, k) && es[b].Update? && es[i].Update?
    ensures es[b].At() - es[i].At() >= DelayMs(delay)
    ensures 0 <= delay <= 240 ==> es[b].At() - es[i].At() >= delay * 60_000
  {
    hide Next, Possible, Booted, HeatingRuns.IsTehRun, IsRun, HeatPhase, IhbTarget;
    var xs;
    h, xs := TehRun(es, ss);
    assert HeatingRuns.AutoWith(h, s, k, delay);
    i, b := HeatingRuns.TehOnlyAfterDelay(h, xs, s, delay, k);
    if 0 <= delay <= 240 { DelayIsExact(delay); }
    assert h[i] == TehIn(ss[i], es[i]) && h[b] == TehIn(ss[b], es[b]);
  }

  /** The heater's relay is on only if the last update read a tank below its target. */
  lemma HeaterNeverBlind(es: seq<Event>, ss: seq<Ctl>, k: nat) returns (i: nat)
    requires IsRun(es, ss) && |ss| == |es| + 1 && k <= |es| && Output(ss[k], TEH)
    ensures i < k && es[i].Update? && (forall j :: i < j < k ==> !es[j].Update? && !es[j].Boot?)
    ensures ss[i].Valid() && es[i].i.temps.tank.Some? && es[i].i.temps.tank.value < IhbTarget(HeatPhase(ss[i], es[i].i))
  {
    hide Next, Possible, Booted, HeatingRuns.IsTehRun, IsRun, HeatPhase, IhbTarget;
    var h, xs := TehRun(es, ss);
    i := HeatingRuns.TehNeverBlind(h, xs, k);
    forall j | i < j < k ensures !es[j].Update? && !es[j].Boot? { assert h[j] == TehIn(ss[j], es[j]); }
    assert h[i] == TehIn(ss[i], es[i]);
  }

  /** The tank pump's relay is on if and only if some update called for it and nothing released it since. */
  lemma TankPumpIffCalled(es: seq<Event>, ss: seq<Ctl>, k: nat) returns (h: seq<HeatingRuns.PumpInput>)
    requires IsRun(es, ss) && |ss| == |es| + 1 && k <= |es|
    ensures |h| == |es| && forall j :: 0 <= j < |es| ==> ss[j].Valid() && h[j] == PumpIn(ss[j], es[j])
    ensures Output(ss[k], IHB_PUMP) <==> exists j: nat :: HeatingRuns.CalledSince(h, j, k)
  {
    hide Next, Possible, Booted, HeatingRuns.IsPumpRun, IsRun, PumpIn, HeatingRuns.CalledSince;
    var xs;
    h, xs := PumpRun(es, ss);
    HeatingRuns.PumpIffCalled(h, xs, k);
  }

  /** After an update that does not force the pumps on, a circuit that gives way to the tank never runs beside a tank
      pump that heats; else it runs as commanded, the floor only with its sensor. */
  lemma TankFirst(c: Ctl, i: Inputs)
    requires c.Valid()
    ensures var d := Cycle(c, i);
            var first := d.ihbHeating && Output(d, IHB_PUMP);
            !Forced(d) ==>
              && (Output(d, RADIATOR_PUMP) <==> c.settings.rad.pump && !(first && c.settings.rad.offIhb))
              && (Output(d, FLOOR_PUMP)
                  <==> c.settings.floor.pump && !(first && c.settings.floor.offIhb) && !d.floorLoss.lost)
  {
    CycleParts(c, i);
    HeatParts(c, i);
    SensedParts(c, i);
    hide Cycle, HeatPhase, Sensed, InterlockedBoiler, UpdateBurner, MildOutside, Overtemp, TargetOf, TankPump,
         Autofill.UpdateFill, Autofill.Interlocked, Well.UpdateWell, AlarmLamps.UpdateLamps, RadTarget, FlrTarget,
         IhbTarget;
  }

  /** No heat is reported only if the boiler was on in every update of the last half hour or more, and the supply
      stalled over a window of 15 minutes and has been far below its target ever since. */
  lemma NoHeatOnlyIfStalled(es: seq<Event>, ss: seq<Ctl>, k: nat)
    returns (h: seq<HeatingRuns.HeatInput>, i: nat, m: nat, a: nat, b: nat)
    requires IsRun(es, ss) && |ss| == |es| + 1 && k <= |es| && ss[k].noHeat.noHeat
    ensures |h| == |es| && forall j :: 0 <= j < |es| ==> ss[j].Valid() && h[j] == NoHeatIn(ss[j], es[j])
    ensures HeatingRuns.BurningFrom(h, i, k) && i <= m < k && es[i].Update? && es[m].Update?
    ensures es[m].At() - es[i].At() >= 30 * 60 * 1000 && HeatingRuns.StalledOver(h, a, b, k)
  {
    hide Next, Possible, Booted, HeatingRuns.IsHeatRun, IsRun, Cycle, HeatingRuns.StalledOver;
    var xs;
    h, xs := NoHeatRun(es, ss);
    i, m, a, b := HeatingRuns.NoHeatOnlyIfStalled(h, xs, k);
    assert h[i] == NoHeatIn(ss[i], es[i]) && h[m] == NoHeatIn(ss[m], es[m]);
  }

  // ---- Lamps and disinfection ----

  /** The critical lamp is on if and only if some active cause was not active at the last mute or was found gone for
      5 minutes since. */
  lemma LampIffUnmuted(es: seq<Event>, ss: seq<Ctl>, k: nat) returns (h: seq<AlarmLamps.Input>)
    requires IsRun(es, ss) && |ss| == |es| + 1 && k <= |es|
    ensures |h| == |es| && forall j :: 0 <= j < |es| ==> ss[j].Valid() && h[j] == LampsIn(ss[j], es[j])
    ensures Output(ss[k], LAMP_CRITICAL)
            <==> exists c: nat :: c in ss[k].lamps.causes && forall m: nat :: !AlarmLamps.MutedBy(h, c, m, k)
  {
    hide Next, Possible, Booted, AlarmLamps.IsRun, IsRun, LampsIn, AlarmLamps.MutedBy;
    var xs;
    h, xs := LampsRun(es, ss);
    AlarmLamps.LampIffUnmuted(h, xs, k);
    AlarmLamps.StateIsHistory(h, xs, k);
    forall c: nat | c in xs[k].causes
      ensures c in xs[k].muted <==> exists m: nat :: AlarmLamps.MutedBy(h, c, m, k)
    {
      AlarmLamps.MutedIffHistory(h, xs, k, c);
    }
  }

  /** Event j is no reboot, and if an update then inside the anti-legionella window of settings s. */
  predicate InWindow(c: Ctl, e: Event, s: Legionella.AlmSettings) {
    !e.Boot? && (e.Update? ==> c.settings.alm == s && Legionella.InAlmWindow(s, e.i.clock))
  }

  /** A disinfection window ends with the verdict its readings deserve. Update i opens it, update k is the first after
      it. */
  lemma DisinfectionVerdict(es: seq<Event>, ss: seq<Ctl>, s: Legionella.AlmSettings, i: nat, k: nat)
    returns (h: seq<Legionella.Input>)
    requires IsRun(es, ss) && |ss| == |es| + 1 && i < k < |es| && Legionella.Enabled(s)
    requires es[i].Update? && !ss[i].alm.inWindow && (forall j :: i <= j < k ==> InWindow(ss[j], es[j], s))
    requires es[k].Update? && ss[k].settings.alm == s && !Legionella.InAlmWindow(s, es[k].i.clock)
    requires forall a: nat, b: nat :: i <= a < b < k ==> es[a].At() <= es[b].At()
    ensures |h| == |es| && forall j :: 0 <= j < |es| ==> h[j] == AlmIn(ss[j], es[j])
    ensures ss[k + 1].alm.last == if Legionella.HeldBy(h, s, i, k) then Legionella.Passed else Legionella.Failed
  {
    hide Next, Possible, Booted, Legionella.IsRun, IsRun, Legionella.InAlmWindow, Legionella.HeldBy, Legionella.Enabled;
    var xs;
    h, xs := AlmRun(es, ss);
    assert forall j :: i <= j < k ==> Legionella.Inside(h[j], s);
    Legionella.VerdictIffHeld(h, xs, s, i, k);
  }
}
