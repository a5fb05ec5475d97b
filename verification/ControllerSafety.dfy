/** What every run of the controller guarantees at its outputs. */
module ControllerSafety {
  import opened Options
  import opened WeatherCurve
  import opened Schedule
  import opened Relays
  import opened Heating
  import opened Controller
  import opened ControllerRuns
  import Ticks
  import Autofill
  import Valves
  import Legionella

  // ---- Pins follow states ----

  /** Between two events every pin carries its recorded state, whatever the event was. */
  lemma WritesLeadToOutputs(c: Ctl, e: Event)
    requires c.Valid() && Possible(c, e) && !e.Boot?
    ensures Final(Outputs(c), Writes(c, e)) == Outputs(Next(c, e))
  {
    hide Cycle, TickAll, TickWrites, Changes, Booted, Outputs, Final;
    if e.Update? {
      assert Halfway(Outputs(c), Outputs(c), Outputs(Cycle(c, e.i)), 0);
      ChangesLeadToStates(Outputs(c), Outputs(c), Outputs(Cycle(c, e.i)), 0);
    } else if e.Tick? {
      TickLeadsToOutputs(c, e.now);
    } else {
      CommandLeadsToOutputs(c, e);
    }
  }

  lemma CommandLeadsToOutputs(c: Ctl, e: Event)
    requires c.Valid() && Possible(c, e) && !e.Update? && !e.Tick? && !e.Boot?
    ensures Final(Outputs(c), Writes(c, e)) == Outputs(Next(c, e))
  {
    hide Cycle, TickAll, TickWrites, Changes, Booted, Outputs, Final;
    FinalOne(Outputs(c), Write(LAMP_CRITICAL, false));
    SameRelays(c, Next(c, e), e.Mute?);
  }

  /** No relay differs but, after a mute, the critical lamp. */
  lemma SameRelays(c: Ctl, d: Ctl, muted: bool)
    requires forall k :: 0 <= k < RELAY_COUNT ==>
                           Output(d, k) == if muted && k == LAMP_CRITICAL then false else Output(c, k)
    ensures Outputs(d) == if muted then Outputs(c)[LAMP_CRITICAL := false] else Outputs(c)
  {
  }

  lemma RadPulseLeadsToOutputs(c: Ctl, now: nat)
    ensures Final(Outputs(c), PulseWrites(c.radValve, now, RAD_VALVE_OPEN))
            == Outputs(c.(radValve := Valves.FinishPulse(c.radValve, now)))
  {
    hide Final, Outputs;
    FinalTwo(Outputs(c), Write(RAD_VALVE_OPEN, false), Write(RAD_VALVE_CLOSE, false));
    FinalOne(Outputs(c), Write(RAD_VALVE_OPEN, false));
  }

  lemma FloorPulseLeadsToOutputs(c: Ctl, now: nat)
    ensures Final(Outputs(c), PulseWrites(c.floorValve, now, FLOOR_VALVE_OPEN))
            == Outputs(c.(floorValve := Valves.FinishPulse(c.floorValve, now)))
  {
    hide Final, Outputs;
    FinalTwo(Outputs(c), Write(FLOOR_VALVE_OPEN, false), Write(FLOOR_VALVE_CLOSE, false));
    FinalOne(Outputs(c), Write(FLOOR_VALVE_OPEN, false));
  }

  /** The end of a closing, and then of an opening that took too long. */
  function ClosingOver(f: Autofill.Fill, now: nat): Autofill.Fill {
    if f.closing && now - f.closeStart >= Autofill.AUTOFILL_VALVE_TRAVEL_MS then f.(close := false, closing := false)
    else f
  }

  lemma ClosingLeadsToOutputs(c: Ctl, now: nat)
    ensures var over := c.fill.closing && now - c.fill.closeStart >= Autofill.AUTOFILL_VALVE_TRAVEL_MS;
            Final(Outputs(c), if over then [Write(AUTOFILL_CLOSE, false)] else [])
            == Outputs(c.(fill := ClosingOver(c.fill, now)))
  {
    hide Final, Outputs;
    FinalOne(Outputs(c), Write(AUTOFILL_CLOSE, false));
    Closed(c);
  }

  lemma Closed(c: Ctl)
    ensures Outputs(c)[AUTOFILL_CLOSE := false] == Outputs(c.(fill := c.fill.(close := false, closing := false)))
  {
  }

  lemma TripLeadsToOutputs(c: Ctl, now: nat)
    ensures var late := c.fill.active && now - c.fill.start > Autofill.AUTOFILL_MAX_MS;
            Final(Outputs(c), if late then [Write(AUTOFILL_OPEN, false), Write(AUTOFILL_CLOSE, true)] else [])
            == Outputs(c.(fill := if late then Autofill.Trip(c.fill, now) else c.fill))
  {
    hide Final, Outputs;
    FinalTwo(Outputs(c), Write(AUTOFILL_OPEN, false), Write(AUTOFILL_CLOSE, true));
    FinalOne(Outputs(c), Write(AUTOFILL_CLOSE, true));
    Tripped(c, now);
  }

  lemma Tripped(c: Ctl, now: nat)
    ensures Outputs(c)[AUTOFILL_OPEN := false][AUTOFILL_CLOSE := true]
            == Outputs(c.(fill := Autofill.Trip(c.fill, now)))
  {
  }

  lemma TickInTwo(f: Autofill.Fill, now: nat)
    ensures var g, late := ClosingOver(f, now), f.active && now - f.start > Autofill.AUTOFILL_MAX_MS;
            && g.active == f.active && g.start == f.start
            && Autofill.TickFill(f, now) == (if late then Autofill.Trip(g, now) else g)
            && FillWrites(f, now)
               == (if f.closing && now - f.closeStart >= Autofill.AUTOFILL_VALVE_TRAVEL_MS
                   then [Write(AUTOFILL_CLOSE, false)] else [])
                  + (if late then [Write(AUTOFILL_OPEN, false), Write(AUTOFILL_CLOSE, true)] else [])
  {
  }

  lemma FillLeadsToOutputs(c: Ctl, now: nat)
    ensures Final(Outputs(c), FillWrites(c.fill, now)) == Outputs(c.(fill := Autofill.TickFill(c.fill, now)))
  {
    hide Final, Outputs, Trace, Autofill.TickFill, Autofill.Trip, FillWrites, ClosingOver;
    var f, d := c.fill, c.(fill := ClosingOver(c.fill, now));
    TickInTwo(f, now);
    ClosingLeadsToOutputs(c, now);
    TripLeadsToOutputs(d, now);
    TraceJoin(Outputs(c), if f.closing && now - f.closeStart >= Autofill.AUTOFILL_VALVE_TRAVEL_MS
                          then [Write(AUTOFILL_CLOSE, false)] else [],
              if f.active && now - f.start > Autofill.AUTOFILL_MAX_MS
              then [Write(AUTOFILL_OPEN, false), Write(AUTOFILL_CLOSE, true)] else []);
  }

  lemma TickLeadsToOutputs(c: Ctl, now: nat)
    ensures Final(Outputs(c), TickWrites(c, now)) == Outputs(TickAll(c, now))
  {
    var d := c.(radValve := Valves.FinishPulse(c.radValve, now));
    var e := d.(floorValve := Valves.FinishPulse(c.floorValve, now));
    var rad := PulseWrites(c.radValve, now, RAD_VALVE_OPEN);
    var floor := PulseWrites(c.floorValve, now, FLOOR_VALVE_OPEN);
    RadPulseLeadsToOutputs(c, now);
    FloorPulseLeadsToOutputs(d, now);
    FillLeadsToOutputs(e, now);
    TraceJoin(Outputs(c), rad, floor);
    TraceJoin(Outputs(c), rad + floor, FillWrites(c.fill, now));
  }

  /** In one update every pin is written at most once. */
  lemma UpdateWritesOnce(c: Ctl, i: Inputs)
    requires c.Valid()
    ensures Ascending(Writes(c, Update(i)), 0)
  {
    hide Cycle, Outputs;
    ChangesOnce(Outputs(c), Outputs(Cycle(c, i)), 0);
  }

  // ---- No motorised valve is ever driven both ways ----

  predicate Motorised(open: nat) { open == AUTOFILL_OPEN || open == RAD_VALVE_OPEN || open == FLOOR_VALVE_OPEN }

  /** Open and close are apart in every state, and no event turns closing straight into opening. */
  predicate Apart(c: Ctl, d: Ctl, open: nat)
    requires Motorised(open)
  {
    !Clash(Outputs(c), open) && !Clash(Outputs(d), open) && !(Outputs(c)[open + 1] && Outputs(d)[open])
  }

  lemma RunLength(es: seq<Event>, ss: seq<Ctl>)
    requires IsRun(es, ss)
    ensures |ss| == |es| + 1
  {
    hide Next, Possible, Booted;
  }

  lemma FillApart(c: Ctl, d: Ctl)
    requires Autofill.Kept(c.fill) && Autofill.Kept(d.fill) && !(c.fill.close && d.fill.open)
    ensures Apart(c, d, AUTOFILL_OPEN)
  {
  }

  lemma ValveApart(c: Ctl, d: Ctl)
    requires Valves.Kept(c.radValve) && Valves.Kept(d.radValve) && !(c.radValve.close && d.radValve.open)
    requires Valves.Kept(c.floorValve) && Valves.Kept(d.floorValve) && !(c.floorValve.close && d.floorValve.open)
    ensures Apart(c, d, RAD_VALVE_OPEN) && Apart(c, d, FLOOR_VALVE_OPEN)
  {
  }

  lemma AutofillApart(es: seq<Event>, ss: seq<Ctl>, k: nat)
    requires IsRun(es, ss) && k < |es|
    ensures |ss| == |es| + 1 && Apart(ss[k], ss[k + 1], AUTOFILL_OPEN)
  {
    hide IsRun, Autofill.IsRun, FillIn, Outputs, Apart, Autofill.Kept;
    RunLength(es, ss);
    var h, xs := FillRun(es, ss);
    Autofill.PhasesKept(h, xs, k);
    Autofill.PhasesKept(h, xs, k + 1);
    Autofill.ClosingNotReversed(h, xs, k);
    FillApart(ss[k], ss[k + 1]);
  }

  lemma SameStamp(c: Ctl, e: Event)
    requires c.Valid()
    ensures RadIn(c, e).Stamp() == e.Stamp() == FloorIn(c, e).Stamp()
  {
    hide HeatPhase;
  }

  lemma MixersApart(es: seq<Event>, ss: seq<Ctl>, k: nat, gap: nat)
    requires IsRun(es, ss) && k < |es| && Ticked(es, gap) && gap <= Valves.VALVE_MAX_PULSE_MS
    ensures |ss| == |es| + 1 && Apart(ss[k], ss[k + 1], RAD_VALVE_OPEN) && Apart(ss[k], ss[k + 1], FLOOR_VALVE_OPEN)
  {
    hide IsRun, Valves.IsRun, RadIn, FloorIn, Outputs, Apart, Valves.Kept, Ticks.Ticked;
    RunLength(es, ss);
    var rad, rads, floor, floors := ValveRuns(es, ss);
    forall j | 0 <= j < |es| ensures rad[j].Stamp() == es[j].Stamp() == floor[j].Stamp() { SameStamp(ss[j], es[j]); }
    assert Valves.Stamps(rad) == Stamps(es) == Valves.Stamps(floor);
    MixerSteps(rad, rads, k, gap);
    MixerSteps(floor, floors, k, gap);
    ValveApart(ss[k], ss[k + 1]);
  }

  lemma MixerSteps(h: seq<Valves.Input>, vs: seq<Valves.Valve>, k: nat, gap: nat)
    requires Valves.IsRun(h, vs) && Ticks.Ticked(Valves.Stamps(h), gap) && gap <= Valves.VALVE_MAX_PULSE_MS && k < |h|
    ensures |vs| == |h| + 1 && Valves.Kept(vs[k]) && Valves.Kept(vs[k + 1]) && !(vs[k].close && vs[k + 1].open)
  {
    Valves.PulseKept(h, vs, k);
    Valves.PulseKept(h, vs, k + 1);
    Valves.ClosingNotReversed(h, vs, k, gap);
  }

  /** None of the writes switches an output of the valve on. */
  predicate OnlyOff(ws: seq<Write>, open: nat) {
    forall j :: 0 <= j < |ws| ==> ws[j].on ==> ws[j].ch != open && ws[j].ch != open + 1
  }

  lemma {:induction false} OffKeepsApart(v: seq<bool>, ws: seq<Write>, open: nat)
    requires Full(v) && ValidWrites(ws) && open < RELAY_COUNT - 1 && OnlyOff(ws, open) && !Clash(v, open)
    ensures ClashFree(Trace(v, ws), open) && !Clash(Final(v, ws), open)
    decreases |ws|
  {
    if ws != [] {
      var w := v[ws[0].ch := ws[0].on];
      OffKeepsApart(w, ws[1..], open);
      assert ClashFree([w], open);
      ClashFreeJoin([w], Trace(w, ws[1..]), open);
    }
  }

  /** Switching open off and then close on never has both on. */
  lemma OpenThenClose(v: seq<bool>, open: nat)
    requires Full(v) && open < RELAY_COUNT - 1
    ensures ClashFree(Trace(v, [Write(open, false), Write(open + 1, true)]), open)
  {
    var a, b := Write(open, false), Write(open + 1, true);
    assert [a, b][1..] == [b];
    assert [b][1..] == [];
    var w := v[open := false];
    assert Trace(v, [a, b]) == [w] + Trace(w, [b]);
    assert Trace(w, [b]) == [w[open + 1 := true]] + Trace(w[open + 1 := true], []);
  }

  lemma TickWritesApart(c: Ctl, now: nat, open: nat)
    requires Motorised(open) && !Clash(Outputs(c), open)
    ensures ClashFree(Trace(Outputs(c), TickWrites(c, now)), open)
  {
    hide Outputs, Trace, Clash, ClashFree;
    var v, ws := Outputs(c), TickWrites(c, now);
    if open != AUTOFILL_OPEN {
      OffKeepsApart(v, ws, open);
    } else {
      var pulses := PulseWrites(c.radValve, now, RAD_VALVE_OPEN) + PulseWrites(c.floorValve, now, FLOOR_VALVE_OPEN);
      var fill := FillWrites(c.fill, now);
      OffKeepsApart(v, pulses, open);
      FillWritesApart(c.fill, Final(v, pulses), now);
      TraceJoin(v, pulses, fill);
      ClashFreeJoin(Trace(v, pulses), Trace(Final(v, pulses), fill), open);
    }
  }

  lemma FillWritesApart(f: Autofill.Fill, v: seq<bool>, now: nat)
    requires Full(v) && !Clash(v, AUTOFILL_OPEN)
    ensures ClashFree(Trace(v, FillWrites(f, now)), AUTOFILL_OPEN)
  {
    hide Trace, Clash, ClashFree;
    var closed, a, b := Write(AUTOFILL_CLOSE, false), Write(AUTOFILL_OPEN, false), Write(AUTOFILL_CLOSE, true);
    var over := if f.closing && now - f.closeStart >= Autofill.AUTOFILL_VALVE_TRAVEL_MS then [closed] else [];
    var trip := if f.active && now - f.start > Autofill.AUTOFILL_MAX_MS then [a, b] else [];
    assert FillWrites(f, now) == over + trip;
    OffKeepsApart(v, over, AUTOFILL_OPEN);
    TraceJoin(v, over, trip);
    if trip == [] {
      OffKeepsApart(Final(v, over), trip, AUTOFILL_OPEN);
    } else {
      OpenThenClose(Final(v, over), AUTOFILL_OPEN);
    }
    ClashFreeJoin(Trace(v, over), Trace(Final(v, over), trip), AUTOFILL_OPEN);
  }

  /** Within one update a valve's outputs clash if and only if the update turns it from closing straight to opening. */
  lemma ClashIffReversed(c: Ctl, i: Inputs, open: nat)
    requires c.Valid() && Motorised(open) && !Clash(Outputs(c), open) && !Clash(Outputs(Cycle(c, i)), open)
    ensures ClashFree(Trace(Outputs(c), Writes(c, Update(i))), open)
            <==> !(Outputs(c)[open + 1] && Outputs(Cycle(c, i))[open])
  {
    hide Outputs, Cycle, Trace, Changes, Clash, ClashFree;
    CommitClashFree(Outputs(c), Outputs(Cycle(c, i)), open);
  }

  lemma EventKeepsApart(c: Ctl, e: Event, open: nat)
    requires c.Valid() && Possible(c, e) && Motorised(open) && Apart(c, Next(c, e), open)
    ensures ClashFree(Trace(Outputs(c), Writes(c, e)), open)
  {
    hide Outputs, Cycle, TickWrites, Booted, TickAll;
    if e.Update? {
      hide Trace, Changes, Clash, ClashFree;
      ClashIffReversed(c, e.i, open);
    } else if e.Tick? {
      hide Trace, Clash, ClashFree;
      TickWritesApart(c, e.now, open);
    } else {
      hide Trace, Clash, ClashFree;
      OffKeepsApart(Outputs(c), Writes(c, e), open);
    }
  }

  /** With the tick running at least every 15 s no motorised valve ever has both its outputs energised: not in any
      state, and not after any single pin write, half-way through a commit included. */
  lemma ValvesNeverClash(es: seq<Event>, ss: seq<Ctl>, k: nat, open: nat, gap: nat)
    requires IsRun(es, ss) && k < |es| && Motorised(open) && Ticked(es, gap) && gap <= Valves.VALVE_MAX_PULSE_MS
    ensures |ss| == |es| + 1 && !Clash(Outputs(ss[k]), open)
    ensures ss[k].Valid() && Possible(ss[k], es[k]) && ClashFree(Trace(Outputs(ss[k]), Writes(ss[k], es[k])), open)
  {
    hide Ticked, Outputs, Next, Writes, Booted, Clash, ClashFree, Possible;
    MixersApart(es, ss, k, gap);
    AutofillApart(es, ss, k);
    EventKeepsApart(ss[k], es[k], open);
  }

  /** The filling valve needs no tick for that. */
  lemma AutofillNeverClashes(es: seq<Event>, ss: seq<Ctl>, k: nat)
    requires IsRun(es, ss) && k < |es|
    ensures ss[k].Valid() && Possible(ss[k], es[k])
    ensures ClashFree(Trace(Outputs(ss[k]), Writes(ss[k], es[k])), AUTOFILL_OPEN)
  {
    hide Outputs, Next, Writes, Booted, Clash, ClashFree, Possible;
    AutofillApart(es, ss, k);
    EventKeepsApart(ss[k], es[k], AUTOFILL_OPEN);
  }

  // ---- 15 seconds is exact ----

  /** One radiator circuit at a fixed 40 degrees. */
  const LATE_SETTINGS := Settings(
    BoilerSettings(true, false, 60.0, 80.0, 40.0),
    CircuitSettings(true, false, 40.0, Night(false, "", Time(0, 0), Time(0, 0), 0.0)),
    CircuitSettings(false, false, 30.0, Night(false, "", Time(0, 0), Time(0, 0), 0.0)),
    TankSettings(false, false, 50.0, 0.0, false, false, 0), RoomSettings(20.0, 0.0),
    Legionella.AlmSettings(false, 60.0, "", 0, 0, 60), FillSettings(false, 1.0, 2.0),
    WaterSettings(false, false, false, Time(0, 0), Time(0, 0), Time(0, 0), Time(0, 0)),
    PzaSettings(false, 1, false, 1, 0.0))

  /** An update that reads this supply temperature of the radiators. */
  function Supply(temp: real, now: nat): Event {
    Update(Inputs(now, Readings(Some(50.0), Some(50.0), Some(temp), Some(30.0)), Some(1.5), None, None))
  }

  const LATE: seq<Event> := [
    Supply(40.0, 0), Tick(14_000), Tick(29_000), Tick(44_000), Tick(59_000),
    Supply(60.0, 60_000), Tick(74_000), Tick(74_999), Supply(20.0, 90_000)
  ]

  /** Only updates and ticks. */
  predicate Plain(es: seq<Event>) { forall k :: 0 <= k < |es| ==> es[k].Update? || es[k].Tick? }

  function States(c: Ctl, es: seq<Event>): (ss: seq<Ctl>)
    requires c.Valid() && Plain(es)
    decreases |es|
  {
    if es == [] then [c]
    else
      assert es[0].Update? || es[0].Tick?;
      [c] + States(Next(c, es[0]), es[1..])
  }

  lemma {:induction false} StatesStep(c: Ctl, es: seq<Event>)
    requires c.Valid() && Plain(es)
    ensures var ss := States(c, es);
            && |ss| == |es| + 1 && ss[0] == c
            && forall k :: 0 <= k < |es| ==> ss[k].Valid() && Possible(ss[k], es[k]) && ss[k + 1] == Next(ss[k], es[k])
    decreases |es|
  {
    hide Next;
    if es != [] {
      assert es[0].Update? || es[0].Tick?;
      var d, rest := Next(c, es[0]), es[1..];
      StatesStep(d, rest);
      var ss := States(c, es);
      forall k | 0 <= k < |es| ensures ss[k].Valid() && Possible(ss[k], es[k]) && ss[k + 1] == Next(ss[k], es[k]) {
        if k > 0 { assert ss[k] == States(d, rest)[k - 1] && es[k] == rest[k - 1]; }
      }
    }
  }

  lemma KeepsSettings(c: Ctl, e: Event)
    requires c.Valid() && Possible(c, e) && (e.Update? || e.Tick?)
    ensures Next(c, e).settings == c.settings && Next(c, e).weather == c.weather
  {
    hide Cycle, Sensed, HeatPhase, Valves.FinishPulse, Autofill.TickFill;
    if e.Update? { CycleParts(c, e.i); }
  }

  lemma {:induction false} StillConfigured(es: seq<Event>, ss: seq<Ctl>, k: nat)
    requires IsRun(es, ss) && |ss| == |es| + 1 && Plain(es) && k <= |es|
    ensures ss[k].settings == ss[0].settings && ss[k].weather == Configured(NO_WEATHER, ss[0].settings.pza)
  {
    hide Next;
    if k > 0 {
      StillConfigured(es, ss, k - 1);
      assert es[k - 1].Update? || es[k - 1].Tick?;
      KeepsSettings(ss[k - 1], es[k - 1]);
    }
  }

  /** With these settings the radiator valve is regulated to 40 degrees, with its pump on. */
  lemma SupplyIn(c: Ctl, temp: real, now: nat)
    requires c.Valid() && c.settings == LATE_SETTINGS && c.weather == Configured(NO_WEATHER, LATE_SETTINGS.pza)
    ensures RadIn(c, Supply(temp, now)) == Valves.Cycle(40.0, Some(temp), true, now)
  {
    var i := Supply(temp, now).i;
    HeatParts(c, i);
    SensedParts(c, i);
    hide HeatPhase, Sensed, UpdateBurner, TankPump, Legionella.UpdateAlm, UpdateFrost, TargetOf;
  }

  lemma LateIn(c: Ctl, k: nat)
    requires c.Valid() && c.settings == LATE_SETTINGS && c.weather == Configured(NO_WEATHER, LATE_SETTINGS.pza) && k < 9
    ensures RadIn(c, LATE[k]) == Valves.LATE[k]
  {
    hide HeatPhase, Forced, RadTarget;
    SupplyIn(c, 40.0, 0);
    SupplyIn(c, 60.0, 60_000);
    SupplyIn(c, 20.0, 90_000);
  }

  lemma LateRun() returns (ss: seq<Ctl>)
    ensures IsRun(LATE, ss) && |ss| == 10 && ss[0].settings == LATE_SETTINGS
  {
    hide Next, Possible;
    ss := States(Booted(LATE_SETTINGS, false), LATE);
    StatesStep(ss[0], LATE);
  }

  lemma LateCommit(c: Ctl, d: Ctl, i: Inputs)
    requires c.Valid() && d == Cycle(c, i) && c.radValve.close && !c.radValve.open && d.radValve.open
             && !d.radValve.close
    ensures !ClashFree(UpdateTrace(c, i), RAD_VALVE_OPEN)
  {
    hide Cycle, Trace, Changes, ClashFree;
    ClashIffReversed(c, i, RAD_VALVE_OPEN);
  }

  lemma LateInputs(ss: seq<Ctl>) returns (rads: seq<Valves.Valve>)
    requires IsRun(LATE, ss) && |ss| == 10 && ss[0].settings == LATE_SETTINGS
    ensures Valves.IsRun(Valves.LATE, rads) && rads[8] == ss[8].radValve && rads[9] == ss[9].radValve
  {
    hide Next, RadIn, FloorIn, Valves.IsRun, IsRun, Configured;
    var rad, floor, floors;
    rad, rads, floor, floors := ValveRuns(LATE, ss);
    forall k | 0 <= k < 9 ensures rad[k] == Valves.LATE[k] {
      StillConfigured(LATE, ss, k);
      LateIn(ss[k], k);
    }
    assert rad == Valves.LATE;
  }

  /** One millisecond later than 15 s, and a run of the controller drives the radiator valve both ways within a commit.
      The main loop ticks in the same pass just before it reads the sensors and updates: for this run the reading has to
      take more than 15 s, which its watchdog of 30 s allows. */
  lemma LaterTicksClash() returns (ss: seq<Ctl>)
    ensures IsRun(LATE, ss) && |ss| == 10 && Ticked(LATE, 15_001) && LATE[8].Update?
    ensures ss[8].Valid() && !ClashFree(UpdateTrace(ss[8], LATE[8].i), RAD_VALVE_OPEN)
  {
    hide Valves.IsRun, Cycle, Valves.Step, Trace, Changes, ClashFree, Outputs, UpdateTrace, Booted;
    ss := LateRun();
    var rads := LateInputs(ss);
    Valves.LaterTicksReverse(rads);
    Valves.PulseKept(Valves.LATE, rads, 8);
    Valves.PulseKept(Valves.LATE, rads, 9);
    LateStamps();
    assert ss[9] == Next(ss[8], LATE[8]);
    LateCommit(ss[8], ss[9], LATE[8].i);
  }

  lemma LateStamps()
    ensures Ticked(LATE, 15_001)
  {
    Valves.LateTicks(Stamps(LATE));
  }

  /** No run with the tick at least every `gap` ms has both outputs of a motorised valve energised after a pin write. */
  ghost predicate NeverClashes(gap: nat) {
    forall es, ss, k, open :: ClashesAt(es, ss, k, open) ==> !Ticked(es, gap)
  }

  /** The writes of event k of a run pass through a clash. */
  predicate ClashesAt(es: seq<Event>, ss: seq<Ctl>, k: nat, open: nat) {
    && IsRun(es, ss) && k < |es| < |ss| && Motorised(open) && ss[k].Valid() && Possible(ss[k], es[k])
    && !ClashFree(Trace(Outputs(ss[k]), Writes(ss[k], es[k])), open)
  }

  lemma LateClashes(ss: seq<Ctl>)
    requires IsRun(LATE, ss) && |ss| == 10 && LATE[8].Update?
    requires ss[8].Valid() && !ClashFree(UpdateTrace(ss[8], LATE[8].i), RAD_VALVE_OPEN)
    ensures ClashesAt(LATE, ss, 8, RAD_VALVE_OPEN)
  {
    hide IsRun, ClashFree, Outputs, Trace, Cycle, Changes;
  }

  /** 15 s is exactly how late the tick may be. */
  lemma NeverClashesIffTimely(gap: nat)
    ensures NeverClashes(gap) <==> gap <= 15_000
  {
    hide IsRun, Ticked, ClashFree, Outputs, Writes, Trace;
    if gap <= 15_000 {
      forall es, ss, k, open | ClashesAt(es, ss, k, open) ensures !Ticked(es, gap) {
        if Ticked(es, gap) { ValvesNeverClash(es, ss, k, open, gap); }
      }
    } else {
      var ss := LaterTicksClash();
      TickedLonger(LATE, 15_001, gap);
      LateClashes(ss);
      assert ClashesAt(LATE, ss, 8, RAD_VALVE_OPEN);
    }
  }

  lemma TickedLonger(es: seq<Event>, gap: nat, longer: nat)
    requires Ticked(es, gap) && gap <= longer
    ensures Ticked(es, longer)
  {
    Valves.TickedWider(Stamps(es), gap, longer);
  }
}
