/** The three-way valves: pulses proportional to the error, ended on time by the fast tick. */
module Valves {
  import opened Options
  import Ticks

  const VALVE_ADJUST_INTERVAL_MS := 30_000
  const VALVE_DEADBAND := 1.0
  const VALVE_MAX_ERROR := 10.0
  const VALVE_MIN_PULSE_MS := 1_000
  const VALVE_MAX_PULSE_MS := 15_000
  const VALVE_SETTLE_MS := 30_000

  /** The valve's pulse and its two relays; driveMs is 0 when idle. */
  datatype Valve = Valve(driveStart: nat, driveMs: nat, lastAdjust: nat, opening: bool, pumpRunning: bool,
                         pumpSince: nat, open: bool, close: bool)

  const FRESH := Valve(0, 0, 0, false, false, 0, false, false)

  datatype Input =
    | Cycle(target: real, actual: Option<real>, pumpOn: bool, now: nat)
    | Tick(now: nat)
    | Boot(now: nat)
    | Other(now: nat)
  {
    function Stamp(): Ticks.Stamp { Ticks.Stamp(now, Tick?, Boot?) }
  }

  function Abs(x: real): real { if x < 0.0 then -x else x }

  /** Pulse length: 1 s in the smallest, 15 s from VALVE_MAX_ERROR on. */
  function Pulse(error: real): (ms: nat)
    ensures VALVE_MIN_PULSE_MS <= ms <= VALVE_MAX_PULSE_MS
  {
    var ratio := if Abs(error) / VALVE_MAX_ERROR > 1.0 then 1.0 else Abs(error) / VALVE_MAX_ERROR;
    VALVE_MIN_PULSE_MS + (ratio * (VALVE_MAX_PULSE_MS - VALVE_MIN_PULSE_MS) as real).Floor
  }

  function FinishPulse(v: Valve, now: nat): Valve {
    if v.driveMs == 0 || now - v.driveStart < v.driveMs then v else v.(open := false, close := false, driveMs := 0)
  }

  /** The circuit has flowed long enough for its sensor, and the valve is idle and due for an adjustment. */
  predicate MayAdjust(v: Valve, now: nat) {
    now - v.pumpSince >= VALVE_SETTLE_MS && v.driveMs == 0 && now - v.lastAdjust >= VALVE_ADJUST_INTERVAL_MS
  }

  function StartPulse(v: Valve, error: real, now: nat): Valve {
    if Abs(error) <= VALVE_DEADBAND then v
    else v.(open := error > 0.0, close := !(error > 0.0), driveStart := now, driveMs := Pulse(error),
            opening := error > 0.0)
  }

  function Drive(v: Valve, target: real, actual: Option<real>, pumpOn: bool, now: nat): Valve {
    var u := FinishPulse(v, now);
    if !pumpOn then u.(pumpRunning := false)
    else
      var w := if u.pumpRunning then u else u.(pumpRunning := true, pumpSince := now);
      if !MayAdjust(w, now) then w
      else
        var x := w.(lastAdjust := now);
        if target < 0.0 || actual.None? then x else StartPulse(x, target - actual.value, now)
  }

  function Step(v: Valve, i: Input): Valve {
    match i
    case Cycle(target, actual, pumpOn, now) => Drive(v, target, actual, pumpOn, now)
    case Tick(now) => FinishPulse(v, now)
    case Boot(_) => FRESH
    case Other(_) => v
  }

  predicate IsRun(h: seq<Input>, vs: seq<Valve>) {
    |vs| == |h| + 1 && vs[0] == FRESH && forall k :: 0 <= k < |h| ==> vs[k + 1] == Step(vs[k], h[k])
  }

  /** One relay on while driving, none when idle; the last adjustment is the start of the pulse. */
  predicate Kept(v: Valve) {
    && (v.driveMs == 0 ==> !v.open && !v.close)
    && (v.driveMs > 0 ==> v.lastAdjust == v.driveStart && v.driveMs <= VALVE_MAX_PULSE_MS
                          && v.open == v.opening && v.close == !v.opening)
  }

  lemma {:induction false} PulseKept(h: seq<Input>, vs: seq<Valve>, k: nat)
    requires IsRun(h, vs) && k <= |h|
    ensures Kept(vs[k]) && !(vs[k].open && vs[k].close)
  {
    if k > 0 {
      PulseKept(h, vs, k - 1);
      assert vs[k] == Step(vs[k - 1], h[k - 1]);
    }
  }

  /** Idle before, or driving another pulse. */
  predicate Starts(v: Valve, w: Valve) { w.driveMs > 0 && (v.driveMs == 0 || v.driveStart != w.driveStart) }

  /** A pulse starts only with flow and a reading outside the deadband, and moves the supply towards its target. */
  lemma PulseTowardsTarget(v: Valve, target: real, actual: Option<real>, pumpOn: bool, now: nat)
    requires Kept(v) && Starts(v, Drive(v, target, actual, pumpOn, now))
    ensures var w := Drive(v, target, actual, pumpOn, now);
            && pumpOn && actual.Some? && now - w.pumpSince >= VALVE_SETTLE_MS
            && now - v.lastAdjust >= VALVE_ADJUST_INTERVAL_MS
            && (w.open <==> actual.value < target - VALVE_DEADBAND)
            && (w.close <==> actual.value > target + VALVE_DEADBAND)
  {
    hide Pulse;
  }

  /** The length of a pulse: 15 s from 10 degrees on, below that 1 s and 1.4 s per degree, to the millisecond. */
  lemma PulseLength(error: real)
    ensures Abs(error) >= 10.0 ==> Pulse(error) == 15_000
    ensures Abs(error) < 10.0 ==> 0.0 <= 1_000.0 + 1_400.0 * Abs(error) - Pulse(error) as real < 1.0
  {
    if Abs(error) < 10.0 {
      assert Abs(error) / VALVE_MAX_ERROR * 14_000.0 == 1_400.0 * Abs(error);
    }
  }

  /** The pump of cycle k runs without a break since cycle i, which is k itself after a pause. */
  predicate FlowsSince(h: seq<Input>, i: nat, k: nat)
    requires k < |h|
  {
    && i <= k && h[i].Cycle? && (forall j :: i <= j < k ==> h[j].Tick? || h[j].Other? || (h[j].Cycle? && h[j].pumpOn))
    && Still(h, i)
  }

  /** The last cycle before input k, if any since the last boot, had the pump off. */
  predicate Still(h: seq<Input>, k: nat)
    requires k <= |h|
  {
    if k == 0 then true
    else if h[k - 1].Tick? || h[k - 1].Other? then Still(h, k - 1)
    else h[k - 1].Boot? || !h[k - 1].pumpOn
  }

  lemma {:induction false} FlowStart(h: seq<Input>, vs: seq<Valve>, k: nat) returns (i: nat)
    requires IsRun(h, vs) && k <= |h|
    ensures vs[k].pumpRunning ==>
              && i < k && h[i].Cycle? && vs[k].pumpSince == h[i].now && Still(h, i)
              && forall j :: i <= j < k ==> h[j].Tick? || h[j].Other? || (h[j].Cycle? && h[j].pumpOn)
    ensures !vs[k].pumpRunning ==> Still(h, k)
  {
    hide StartPulse, MayAdjust;
    i := 0;
    if k > 0 {
      i := FlowStart(h, vs, k - 1);
      assert vs[k] == Step(vs[k - 1], h[k - 1]);
      DriveFlow(vs[k - 1], h[k - 1]);
      if h[k - 1].Cycle? && !vs[k - 1].pumpRunning { i := k - 1; }
    }
  }

  lemma DriveFlow(v: Valve, e: Input)
    ensures var w := Step(v, e);
            if e.Cycle? then
              w.pumpRunning == e.pumpOn
              && (e.pumpOn ==> w.pumpSince == if v.pumpRunning then v.pumpSince else e.now)
            else if e.Boot? then w == FRESH
            else w.pumpRunning == v.pumpRunning && w.pumpSince == v.pumpSince
  {
    hide Pulse;
  }

  /** What an update does to the valve: it adjusts exactly if its pump has run for 30 s, since cycle i, no pulse is
      driven any more, and the last adjustment is 30 s old; then it starts a pulse exactly if there is a target and a
      reading more than a degree off it: opening when too cold, closing when too hot. */
  lemma AdjustsIff(h: seq<Input>, vs: seq<Valve>, k: nat) returns (i: nat)
    requires IsRun(h, vs) && k < |h| && h[k].Cycle?
    ensures h[k].pumpOn ==> FlowsSince(h, i, k)
    ensures var e, v, w := h[k], vs[k], vs[k + 1];
            var idle := v.driveMs == 0 || e.now - v.driveStart >= v.driveMs;
            var due := e.pumpOn && e.now - h[i].now >= 30_000 && idle && e.now - v.lastAdjust >= 30_000;
            var cold := due && e.target >= 0.0 && e.actual.Some? && e.actual.value < e.target - 1.0;
            var hot := due && e.target >= 0.0 && e.actual.Some? && e.actual.value > e.target + 1.0;
            && w.lastAdjust == (if due then e.now else v.lastAdjust)
            && (w.open <==> cold || (!idle && v.open)) && (w.close <==> hot || (!idle && v.close))
            && (cold || hot ==> w.driveStart == e.now && w.driveMs == Pulse(e.target - e.actual.value))
  {
    i := FlowStart(h, vs, k);
    PulseKept(h, vs, k);
    if !vs[k].pumpRunning { i := k; }
    hide Pulse;
    assert vs[k + 1] == Step(vs[k], h[k]);
  }

  /** Cycle i started the pulse that input k meets: none before k came after its time was over. */
  predicate PulseSince(h: seq<Input>, i: nat, k: nat)
    requires k <= |h|
  {
    && i < k && h[i].Cycle? && h[i].actual.Some?
    && forall j :: i < j < k ==>
                     !h[j].Boot? && (h[j].Tick? || h[j].Cycle? ==>
                                       h[j].now - h[i].now < Pulse(h[i].target - h[i].actual.value))
  }

  lemma {:induction false} PulseStart(h: seq<Input>, vs: seq<Valve>, k: nat) returns (i: nat)
    requires IsRun(h, vs) && k <= |h| && vs[k].driveMs > 0
    ensures PulseSince(h, i, k) && vs[k].driveStart == h[i].now
    ensures vs[k].driveMs == Pulse(h[i].target - h[i].actual.value)
  {
    hide Pulse;
    var v, e := vs[k - 1], h[k - 1];
    assert vs[k] == Step(v, e);
    if e.Cycle? && (v.driveMs == 0 || e.now - v.driveStart >= v.driveMs) {
      i := k - 1;
    } else {
      i := PulseStart(h, vs, k - 1);
    }
  }

  /** A tick ends the pulse of cycle i exactly when its time is over, and does nothing else. */
  lemma TickEndsPulse(h: seq<Input>, vs: seq<Valve>, k: nat) returns (i: nat)
    requires IsRun(h, vs) && k < |h| && h[k].Tick?
    ensures vs[k].open || vs[k].close ==> PulseSince(h, i, k)
    ensures var v, w := vs[k], vs[k + 1];
            var over := (v.open || v.close) && h[k].now - h[i].now >= Pulse(h[i].target - h[i].actual.value);
            (w.open <==> v.open && !over) && (w.close <==> v.close && !over) && w.lastAdjust == v.lastAdjust
  {
    hide Pulse;
    PulseKept(h, vs, k);
    assert vs[k + 1] == Step(vs[k], h[k]);
    i := 0;
    if vs[k].driveMs > 0 { i := PulseStart(h, vs, k); }
  }

  function Stamps(h: seq<Input>): (ts: seq<Ticks.Stamp>)
    ensures |ts| == |h| && forall k :: 0 <= k < |h| ==> ts[k] == h[k].Stamp()
  {
    seq(|h|, k requires 0 <= k < |h| => h[k].Stamp())
  }

  /** A pulse still driven was not over at the last tick. */
  lemma {:induction false} DrivenSinceTick(h: seq<Input>, vs: seq<Valve>, k: nat, gap: nat)
    requires IsRun(h, vs) && Ticks.Ticked(Stamps(h), gap) && k <= |h|
    ensures vs[k].driveMs > 0 ==> Ticks.LastTick(Stamps(h), k) < vs[k].driveStart + vs[k].driveMs
  {
    hide Pulse;
    if k > 0 {
      DrivenSinceTick(h, vs, k - 1, gap);
      assert vs[k] == Step(vs[k - 1], h[k - 1]) && Ticks.TickedAt(Stamps(h), k - 1, gap);
      assert Stamps(h)[k - 1] == h[k - 1].Stamp();
    }
  }

  /** With ticks at most 15 s apart an update never turns a closing valve straight into an opening one. */
  lemma ClosingNotReversed(h: seq<Input>, vs: seq<Valve>, k: nat, gap: nat)
    requires IsRun(h, vs) && Ticks.Ticked(Stamps(h), gap) && gap <= VALVE_MAX_PULSE_MS && k < |h|
    ensures !(vs[k].close && vs[k + 1].open)
  {
    PulseKept(h, vs, k);
    DrivenSinceTick(h, vs, k, gap);
    assert vs[k + 1] == Step(vs[k], h[k]) && Ticks.TickedAt(Stamps(h), k, gap) && Stamps(h)[k] == h[k].Stamp();
  }

  /** A late tick: the valve closes for 15 s from 60 s on, no tick falls between 74.999 s and the update at 90 s. */
  const LATE: seq<Input> := [
    Cycle(40.0, Some(40.0), true, 0), Tick(14_000), Tick(29_000), Tick(44_000), Tick(59_000),
    Cycle(40.0, Some(60.0), true, 60_000), Tick(74_000), Tick(74_999), Cycle(40.0, Some(20.0), true, 90_000)
  ]

  lemma LateTicks(ts: seq<Ticks.Stamp>)
    requires |ts| == 9 && forall k :: 0 <= k < 9 ==> ts[k] == LATE[k].Stamp()
    ensures Ticks.Ticked(ts, VALVE_MAX_PULSE_MS + 1)
  {
    assert Ticks.LastTick(ts, 0) == Ticks.LastTick(ts, 1) == 0 && Ticks.LastTick(ts, 2) == 14_000;
    assert Ticks.LastTick(ts, 3) == 29_000 && Ticks.LastTick(ts, 4) == 44_000 && Ticks.LastTick(ts, 5) == 59_000;
    assert Ticks.LastTick(ts, 6) == 59_000 && Ticks.LastTick(ts, 7) == 74_000 && Ticks.LastTick(ts, 8) == 74_999;
  }

  /** 15 s is the most the ticks may be apart: 1 ms more, and an update can turn closing straight into opening. */
  lemma LaterTicksReverse(vs: seq<Valve>)
    requires IsRun(LATE, vs)
    ensures Ticks.Ticked(Stamps(LATE), VALVE_MAX_PULSE_MS + 1) && vs[8].close && vs[9].open
  {
    LateTicks(Stamps(LATE));
    assert Pulse(-20.0) == 15_000 == Pulse(20.0);
    var flowing := FRESH.(pumpRunning := true);
    var closing := flowing.(driveStart := 60_000, driveMs := 15_000, lastAdjust := 60_000, close := true);
    assert vs[1] == Step(vs[0], LATE[0]) == flowing && vs[2] == Step(vs[1], LATE[1]) == flowing;
    assert vs[3] == Step(vs[2], LATE[2]) == flowing && vs[4] == Step(vs[3], LATE[3]) == flowing;
    assert vs[5] == Step(vs[4], LATE[4]) == flowing && vs[6] == Step(vs[5], LATE[5]) == closing;
    assert vs[7] == Step(vs[6], LATE[6]) == closing && vs[8] == Step(vs[7], LATE[7]) == closing;
    assert vs[9] == Step(vs[8], LATE[8]);
  }

  /** The states of the inputs h, from v on. */
  function States(v: Valve, h: seq<Input>): (vs: seq<Valve>)
    ensures |vs| == |h| + 1 && vs[0] == v && forall k :: 0 <= k < |h| ==> vs[k + 1] == Step(vs[k], h[k])
    decreases |h|
  {
    if h == [] then [v] else [v] + States(Step(v, h[0]), h[1..])
  }

  /** Input k turns closing straight into opening. */
  predicate Reverses(h: seq<Input>, vs: seq<Valve>, k: nat) {
    IsRun(h, vs) && k < |h| && vs[k].close && vs[k + 1].open
  }

  /** No run with the tick at least every `gap` ms turns closing straight into opening. */
  ghost predicate NeverReverses(gap: nat) {
    forall h, vs, k :: Reverses(h, vs, k) ==> !Ticks.Ticked(Stamps(h), gap)
  }

  lemma TickedWider(ts: seq<Ticks.Stamp>, gap: nat, wider: nat)
    requires Ticks.Ticked(ts, gap) && gap <= wider
    ensures Ticks.Ticked(ts, wider)
  {
    forall k | 0 <= k < |ts| ensures Ticks.TickedAt(ts, k, wider) { assert Ticks.TickedAt(ts, k, gap); }
  }

  /** 15 s is exactly how late the tick may be. */
  lemma NeverReversesIffTimely(gap: nat)
    ensures NeverReverses(gap) <==> gap <= VALVE_MAX_PULSE_MS
  {
    if gap <= VALVE_MAX_PULSE_MS {
      forall h, vs, k | Reverses(h, vs, k) ensures !Ticks.Ticked(Stamps(h), gap) {
        if Ticks.Ticked(Stamps(h), gap) { ClosingNotReversed(h, vs, k, gap); }
      }
    } else {
      var vs := States(FRESH, LATE);
      LaterTicksReverse(vs);
      TickedWider(Stamps(LATE), VALVE_MAX_PULSE_MS + 1, gap);
      assert Reverses(LATE, vs, 8);
    }
  }
}
