/** The motorised filling valve: opens on low pressure, closes on time, locks itself out after a timeout. */
module Autofill {
  import opened Options
  import Ticks

  const AUTOFILL_MAX_MS := 120_000
  const AUTOFILL_VALVE_TRAVEL_MS := 15_000
  const AUTOFILL_HYSTERESIS := 0.1
  const PRESSURE_ZERO_BAR := 0.05

  /** The valve's phases, its two relays, and the lockout flag as it is stored over reboots. */
  datatype Fill = Fill(start: nat, active: bool, closing: bool, closeStart: nat, fault: bool, stored: bool,
                       open: bool, close: bool)

  const FRESH := Fill(0, false, false, 0, false, false, false, false)

  datatype Input =
    | Cycle(enabled: bool, pMin: real, pressure: Option<real>, now: nat)
    | Tick(now: nat)
    | ResetFault(now: nat)
    | Boot(wiped: bool, now: nat)
    | Other(now: nat)
  {
    function Stamp(): Ticks.Stamp { Ticks.Stamp(now, Tick?, Boot?) }
  }

  function Close(f: Fill, now: nat): Fill {
    f.(open := false, close := true, active := false, closing := true, closeStart := now)
  }

  function Trip(f: Fill, now: nat): Fill { Close(f, now).(fault := true, stored := true) }

  function UpdateFill(f: Fill, enabled: bool, pMin: real, pressure: Option<real>, now: nat): Fill {
    if f.closing || pressure.None? then f
    else if !enabled || f.fault then (if f.active then Close(f, now) else f)
    else if f.active then
      if now - f.start > AUTOFILL_MAX_MS then Trip(f, now)
      else if pressure.value >= pMin + AUTOFILL_HYSTERESIS then Close(f, now) else f
    else if PRESSURE_ZERO_BAR <= pressure.value < pMin then
      f.(close := false, open := true, active := true, start := now)
    else f
  }

  function TickFill(f: Fill, now: nat): Fill {
    var over := f.closing && now - f.closeStart >= AUTOFILL_VALVE_TRAVEL_MS;
    var g := if over then f.(close := false, closing := false) else f;
    if g.active && now - g.start > AUTOFILL_MAX_MS then Trip(g, now) else g
  }

  /** The last interlock of a cycle: locked out and still open. */
  function Interlocked(f: Fill, now: nat): Fill { if f.fault && f.open then Close(f, now) else f }

  function Step(f: Fill, i: Input): Fill {
    match i
    case Cycle(enabled, pMin, pressure, now) => Interlocked(UpdateFill(f, enabled, pMin, pressure, now), now)
    case Tick(now) => TickFill(f, now)
    case ResetFault(_) => f.(fault := false, stored := false)
    case Boot(wiped, _) => FRESH.(fault := f.stored && !wiped, stored := f.stored && !wiped)
    case Other(_) => f
  }

  predicate IsRun(h: seq<Input>, fs: seq<Fill>) {
    |fs| == |h| + 1 && fs[0] == FRESH && forall k :: 0 <= k < |h| ==> fs[k + 1] == Step(fs[k], h[k])
  }

  predicate Kept(f: Fill) {
    && (f.open <==> f.active) && (f.close <==> f.closing)
    && !(f.active && f.closing)
    && (f.fault ==> !f.active)
    && f.stored == f.fault
  }

  /** Relays follow the phases, opening and closing exclude each other, and a locked out valve is not open. */
  lemma {:induction false} PhasesKept(h: seq<Input>, fs: seq<Fill>, k: nat)
    requires IsRun(h, fs) && k <= |h|
    ensures Kept(fs[k])
  {
    if k > 0 {
      PhasesKept(h, fs, k - 1);
      assert fs[k] == Step(fs[k - 1], h[k - 1]);
    }
  }

  /** So the autofill branch of the interlocks is never taken. */
  lemma InterlockUnreachable(h: seq<Input>, fs: seq<Fill>, k: nat)
    requires IsRun(h, fs) && k < |h| && h[k].Cycle?
    ensures var i := h[k]; Step(fs[k], i) == UpdateFill(fs[k], i.enabled, i.pMin, i.pressure, i.now)
  {
    PhasesKept(h, fs, k);
  }

  /** An update never turns closing straight into opening. */
  lemma ClosingNotReversed(h: seq<Input>, fs: seq<Fill>, k: nat)
    requires IsRun(h, fs) && k < |h|
    ensures !(fs[k].close && fs[k + 1].open)
  {
    PhasesKept(h, fs, k);
    assert fs[k + 1] == Step(fs[k], h[k]);
  }

  // ---- The lockout ----

  predicate Unlocks(i: Input) { i.ResetFault? || (i.Boot? && i.wiped) }

  /** After a trip the valve never opens again, over any reboots, until it is reset or the configuration is wiped. */
  lemma {:induction false} LockoutLasts(h: seq<Input>, fs: seq<Fill>, i: nat, k: nat)
    requires IsRun(h, fs) && i <= k <= |h| && fs[i].fault
    requires forall j :: i <= j < k ==> !Unlocks(h[j])
    ensures fs[k].fault && !fs[k].open
  {
    PhasesKept(h, fs, k);
    if k > i {
      LockoutLasts(h, fs, i, k - 1);
      PhasesKept(h, fs, k - 1);
      assert fs[k] == Step(fs[k - 1], h[k - 1]) && !Unlocks(h[k - 1]);
    }
  }

  // ---- How long it can stay open ----

  function Stamps(h: seq<Input>): (ts: seq<Ticks.Stamp>)
    ensures |ts| == |h| && forall k :: 0 <= k < |h| ==> ts[k] == h[k].Stamp()
  {
    seq(|h|, k requires 0 <= k < |h| => h[k].Stamp())
  }

  /** The tick runs at least every `gap` ms, and time does not run backwards. */
  predicate AllTicked(h: seq<Input>, gap: nat) { Ticks.Ticked(Stamps(h), gap) && Ticks.Forwards(Stamps(h)) }

  lemma {:induction false} OpenSinceTick(h: seq<Input>, fs: seq<Fill>, k: nat, gap: nat)
    requires IsRun(h, fs) && AllTicked(h, gap) && k <= |h|
    ensures fs[k].active ==> Ticks.LastTick(Stamps(h), k) <= fs[k].start + AUTOFILL_MAX_MS
    ensures fs[k].active ==> k > 0 && fs[k].start <= h[k - 1].now
    ensures k > 0 ==> Ticks.LastTick(Stamps(h), k) <= h[k - 1].now
  {
    if k > 0 {
      OpenSinceTick(h, fs, k - 1, gap);
      assert fs[k] == Step(fs[k - 1], h[k - 1]) && Ticks.TickedAt(Stamps(h), k - 1, gap);
      assert Stamps(h)[k - 1] == h[k - 1].Stamp();
      if k > 1 && !h[k - 1].Boot? { assert Stamps(h)[k - 2] == h[k - 2].Stamp() && h[k - 2].now <= h[k - 1].now; }
    }
  }

  lemma {:induction false} SameOpening(h: seq<Input>, fs: seq<Fill>, i: nat, k: nat)
    requires IsRun(h, fs) && i <= k <= |h| && forall j :: i <= j <= k ==> fs[j].open
    ensures fs[i].active && fs[k].active && fs[k].start == fs[i].start
  {
    PhasesKept(h, fs, i);
    if k > i {
      SameOpening(h, fs, i, k - 1);
      PhasesKept(h, fs, k - 1);
      PhasesKept(h, fs, k);
      assert fs[k] == Step(fs[k - 1], h[k - 1]);
    }
  }

  /** The valve is never open longer than 2 minutes and the gap between ticks, whatever the pressure reading does: open
      from input i - 1 up to input k, however that one leaves it. */
  lemma OpenStretchBounded(h: seq<Input>, fs: seq<Fill>, i: nat, k: nat, gap: nat)
    requires IsRun(h, fs) && AllTicked(h, gap) && 0 < i <= k < |h| && forall j :: i <= j <= k ==> fs[j].open
    requires !h[k].Boot?
    ensures h[k].now - h[i - 1].now <= AUTOFILL_MAX_MS + gap
  {
    SameOpening(h, fs, i, k);
    OpenSinceTick(h, fs, k, gap);
    OpenSinceTick(h, fs, i, gap);
    assert Ticks.TickedAt(Stamps(h), k, gap) && Stamps(h)[k] == h[k].Stamp();
  }

  // ---- Exactly when it opens and closes ----

  /** The phase input k meets, opening or closing, began with input i. */
  predicate PhaseBegan(fs: seq<Fill>, opening: bool, i: nat, k: nat)
    requires k < |fs|
  {
    && i < k
    && (if opening then !fs[i].open else !fs[i].close)
    && (forall j :: i < j <= k ==> if opening then fs[j].open else fs[j].close)
  }

  lemma {:induction false} PhaseStart(h: seq<Input>, fs: seq<Fill>, k: nat) returns (i: nat)
    requires IsRun(h, fs) && k <= |h|
    ensures fs[k].open ==> PhaseBegan(fs, true, i, k) && fs[k].start == h[i].now
    ensures fs[k].close ==> PhaseBegan(fs, false, i, k) && fs[k].closeStart == h[i].now
  {
    i := 0;
    if k > 0 {
      i := PhaseStart(h, fs, k - 1);
      PhasesKept(h, fs, k);
      PhasesKept(h, fs, k - 1);
      assert fs[k] == Step(fs[k - 1], h[k - 1]);
      if fs[k].open != fs[k - 1].open || fs[k].close != fs[k - 1].close { i := k - 1; }
    }
  }

  /** What an update does to the valve. Closed, it opens exactly if filling is enabled and not locked out and the
      pressure is below the minimum but not zero; opened by input i, it stays open exactly while it is enabled, for two
      minutes at most, until the minimum is exceeded by 0.1 bar, or while nothing is read. Whatever ends the opening
      starts the closing, and after two minutes it is locked out too. */
  lemma FillsIff(h: seq<Input>, fs: seq<Fill>, k: nat) returns (i: nat)
    requires IsRun(h, fs) && k < |h| && h[k].Cycle?
    ensures fs[k].open ==> PhaseBegan(fs, true, i, k)
    ensures var e, f, g := h[k], fs[k], fs[k + 1];
            var late := f.open && e.now - h[i].now > 120_000;
            && (g.open <==>
                if f.open
                then e.pressure.None? || (e.enabled && !late && e.pressure.value < e.pMin + 0.1)
                else !f.close && !f.fault && e.enabled && e.pressure.Some? && 0.05 <= e.pressure.value < e.pMin)
            && (g.close <==> f.close || (f.open && !g.open))
            && (g.fault <==> f.fault || (late && e.enabled && e.pressure.Some?))
            && g.stored == g.fault
  {
    i := PhaseStart(h, fs, k);
    PhasesKept(h, fs, k);
    assert fs[k + 1] == Step(fs[k], h[k]);
  }

  /** What a tick does: it ends a closing begun by input i 15 seconds ago, and an opening begun more than two minutes
      ago, which it locks out. */
  lemma TickEnds(h: seq<Input>, fs: seq<Fill>, k: nat) returns (i: nat)
    requires IsRun(h, fs) && k < |h| && h[k].Tick?
    ensures fs[k].open ==> PhaseBegan(fs, true, i, k)
    ensures fs[k].close ==> PhaseBegan(fs, false, i, k)
    ensures var now, f, g := h[k].now, fs[k], fs[k + 1];
            && (g.open <==> f.open && now - h[i].now <= 120_000)
            && (g.close <==> (f.close && now - h[i].now < 15_000) || (f.open && !g.open))
            && (g.fault <==> f.fault || (f.open && !g.open)) && g.stored == g.fault
  {
    i := PhaseStart(h, fs, k);
    PhasesKept(h, fs, k);
    assert fs[k + 1] == Step(fs[k], h[k]);
  }
}
