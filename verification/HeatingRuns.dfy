/** The electric heater, the tank pump and the no-heat alarm, over whole runs. */
module HeatingRuns {
  import opened Options
  import opened Heating

  // ---- The electric heater ----

  datatype TehInput =
    | TehCycle(s: TankSettings, tank: Option<real>, target: real, boiler: Option<real>, boilerOn: bool, ihbPump: bool,
               ihbHeating: bool, now: nat)
    | TehBoot
    | TehOther

  const TEH_OFF := Teh(0, false, false)

  function TehStep(t: Teh, i: TehInput): Teh {
    match i
    case TehCycle(s, tank, target, boiler, boilerOn, ihbPump, ihbHeating, now) =>
      UpdateTeh(t, s, tank, target, boiler, boilerOn, ihbPump, ihbHeating, now)
    case TehBoot => TEH_OFF
    case TehOther => t
  }

  predicate IsTehRun(h: seq<TehInput>, xs: seq<Teh>) {
    |xs| == |h| + 1 && xs[0] == TEH_OFF && forall k :: 0 <= k < |h| ==> xs[k + 1] == TehStep(xs[k], h[k])
  }

  /** From input s up to input k all cycles are in auto mode with this delay. */
  predicate AutoWith(h: seq<TehInput>, s: nat, k: nat, delay: int)
    requires k <= |h|
  {
    forall j :: s <= j < k && h[j].TehCycle? ==> h[j].s.tehAuto && h[j].s.tehDelay == delay
  }

  /** A cycle in which the tank is cold and wants heat, and the boiler does not give it any. */
  predicate Wanting(i: TehInput) {
    && i.TehCycle? && i.ihbHeating && i.tank.Some? && i.tank.value < i.target
    && !(i.boilerOn && i.ihbPump && i.boiler.Some? && i.boiler.value > i.tank.value + TEH_BOILER_MARGIN)
  }

  /** From cycle i on every cycle was wanting, and there was no reboot. */
  predicate WantingFrom(h: seq<TehInput>, i: nat, k: nat)
    requires k <= |h|
  {
    i < k && h[i].TehCycle? && forall j :: i <= j < k ==> !h[j].TehBoot? && (h[j].TehCycle? ==> Wanting(h[j]))
  }

  /** A delay that was not running at input s began at a cycle since when every cycle was wanting. */
  lemma {:induction false} DelaySince(h: seq<TehInput>, xs: seq<Teh>, s: nat, delay: int, k: nat) returns (i: nat)
    requires IsTehRun(h, xs) && s <= k <= |h| && AutoWith(h, s, k, delay) && !xs[s].delayActive && xs[k].delayActive
    ensures s <= i && WantingFrom(h, i, k) && h[i].now == xs[k].delayStart
  {
    assert k > s;
    assert xs[k] == TehStep(xs[k - 1], h[k - 1]);
    if xs[k - 1].delayActive {
      i := DelaySince(h, xs, s, delay, k - 1);
    } else {
      i := k - 1;
    }
  }

  /** From an idle heater on, in auto mode it is on only after the tank wanted heat, and the boiler gave none, in every
      cycle of the delay. */
  lemma {:induction false} TehOnlyAfterDelay(h: seq<TehInput>, xs: seq<Teh>, s: nat, delay: int, k: nat)
    returns (i: nat, b: nat)
    requires IsTehRun(h, xs) && s <= k <= |h| && AutoWith(h, s, k, delay)
    requires !xs[s].on && !xs[s].delayActive && xs[k].on
    ensures s <= i < b < k && WantingFrom(h, i, k) && h[b].TehCycle? && h[b].now - h[i].now >= DelayMs(delay)
    ensures xs[k].delayActive && h[i].now == xs[k].delayStart
  {
    assert k > s;
    assert xs[k] == TehStep(xs[k - 1], h[k - 1]);
    if xs[k - 1].on {
      i, b := TehOnlyAfterDelay(h, xs, s, delay, k - 1);
    } else {
      i := DelaySince(h, xs, s, delay, k - 1);
      b := k - 1;
    }
  }

  /** The heater is on only if the last cycle read a tank below its target, in any mode. */
  lemma {:induction false} TehNeverBlind(h: seq<TehInput>, xs: seq<Teh>, k: nat) returns (i: nat)
    requires IsTehRun(h, xs) && k <= |h| && xs[k].on
    ensures i < k && h[i].TehCycle? && h[i].tank.Some? && h[i].tank.value < h[i].target
    ensures forall j :: i < j < k ==> h[j].TehOther?
  {
    assert k > 0;
    assert xs[k] == TehStep(xs[k - 1], h[k - 1]);
    if h[k - 1].TehCycle? {
      i := k - 1;
    } else {
      i := TehNeverBlind(h, xs, k - 1);
    }
  }

  /** In auto mode a cycle at which the tank wants heat in vain, so that the delay runs. */
  predicate RunsDelay(i: TehInput) { i.TehCycle? && i.s.tehAuto && Wanting(i) }

  /** An input that does not end the delay: by hand only a warm or unread tank does. */
  predicate KeepsDelay(i: TehInput) {
    i.TehOther? || (i.TehCycle? && i.tank.Some? && i.tank.value < i.target && (i.s.tehAuto ==> Wanting(i)))
  }

  predicate Keeps(h: seq<TehInput>, i: nat, k: nat)
    requires k <= |h|
  {
    forall j :: i <= j < k ==> KeepsDelay(h[j])
  }

  /** No delay runs before input k. */
  predicate NoDelay(h: seq<TehInput>, k: nat)
    requires k <= |h|
  {
    forall j :: 0 <= j < k && RunsDelay(h[j]) ==> !Keeps(h, j, k)
  }

  /** The delay that goes on before input k began at cycle i; if none does, i is k. */
  predicate DelayBegan(h: seq<TehInput>, i: nat, k: nat)
    requires k <= |h|
  {
    i <= k && (i < k ==> RunsDelay(h[i])) && Keeps(h, i, k) && NoDelay(h, i)
  }

  lemma {:induction false} DelayStart(h: seq<TehInput>, xs: seq<Teh>, k: nat) returns (i: nat)
    requires IsTehRun(h, xs) && k <= |h|
    ensures DelayBegan(h, i, k)
    ensures if xs[k].delayActive then i < k && xs[k].delayStart == h[i].now else i == k
  {
    i := 0;
    if k > 0 {
      i := DelayStart(h, xs, k - 1);
      assert xs[k] == TehStep(xs[k - 1], h[k - 1]);
      if !xs[k].delayActive {
        forall j | 0 <= j < k && RunsDelay(h[j]) ensures !Keeps(h, j, k) {
          assert j < k - 1 ==> (Keeps(h, j, k) ==> Keeps(h, j, k - 1));
        }
        i := k;
      }
    }
  }

  /** Exactly when the heater is on after a cycle: never on a warm or unread tank; else by hand as commanded, and in
      auto mode if the tank wants heat in vain and either it was on already or the delay, begun at cycle i, is over. */
  lemma TehRunsIff(h: seq<TehInput>, xs: seq<Teh>, k: nat) returns (i: nat)
    requires IsTehRun(h, xs) && k < |h| && h[k].TehCycle?
    ensures DelayBegan(h, i, k)
    ensures xs[k + 1].on <==>
              && h[k].tank.Some? && h[k].tank.value < h[k].target
              && if h[k].s.tehAuto
                 then Wanting(h[k])
                      && (xs[k].on || (i < k && h[k].now - h[i].now >= (h[k].s.tehDelay * 60_000) % 0x1_0000_0000))
                 else h[k].s.tehPower
  {
    i := DelayStart(h, xs, k);
    assert xs[k + 1] == TehStep(xs[k], h[k]);
  }

  // ---- The tank pump ----

  datatype PumpInput =
    | PumpCycle(s: TankSettings, tank: Option<real>, target: real)
    | PumpBoot
    | PumpOther

  function PumpStep(on: bool, i: PumpInput): bool {
    match i
    case PumpCycle(s, tank, target) => TankPump(on, s, tank, target)
    case PumpBoot => false
    case PumpOther => on
  }

  predicate IsPumpRun(h: seq<PumpInput>, xs: seq<bool>) {
    |xs| == |h| + 1 && !xs[0] && forall k :: 0 <= k < |h| ==> xs[k + 1] == PumpStep(xs[k], h[k])
  }

  /** A cycle that wants the pump on: below the target, or commanded by hand. */
  predicate Calls(i: PumpInput) {
    i.PumpCycle? && if i.s.auto then i.tank.Some? && i.tank.value < i.target else i.s.pump
  }

  /** Warm enough, unread, switched off by hand, or a reboot. */
  predicate Releases(i: PumpInput) {
    || i.PumpBoot?
    || (i.PumpCycle? && if i.s.auto then i.tank.None? || i.tank.value >= i.target + IHB_HYSTERESIS else !i.s.pump)
  }

  predicate CalledSince(h: seq<PumpInput>, j: nat, k: nat)
    requires k <= |h|
  {
    j < k && Calls(h[j]) && forall i :: j < i < k ==> !Releases(h[i])
  }

  /** The tank pump is on if and only if some cycle called for it and nothing released it since. */
  lemma {:induction false} PumpIffCalled(h: seq<PumpInput>, xs: seq<bool>, k: nat)
    requires IsPumpRun(h, xs) && k <= |h|
    ensures xs[k] <==> exists j: nat :: CalledSince(h, j, k)
  {
    if k > 0 {
      var p := k - 1;
      PumpIffCalled(h, xs, p);
      assert xs[k] == PumpStep(xs[p], h[p]);
      if Calls(h[p]) { assert CalledSince(h, p, k); }
      if !Releases(h[p]) {
        forall j: nat | CalledSince(h, j, p) ensures CalledSince(h, j, k) {}
      }
      forall j: nat | CalledSince(h, j, k) && j != p ensures CalledSince(h, j, p) && !Releases(h[p]) {}
    }
  }

  // ---- A boiler that does not heat ----

  datatype HeatInput =
    | HeatCycle(s: BoilerSettings, on: bool, temp: Option<real>, autoTarget: real, now: nat)
    | HeatBoot
    | HeatOther

  function HeatStep(n: NoHeat, i: HeatInput): NoHeat {
    match i
    case HeatCycle(s, on, temp, autoTarget, now) => UpdateNoHeat(n, s, on, temp, autoTarget, now)
    case HeatBoot => HEATS
    case HeatOther => n
  }

  predicate IsHeatRun(h: seq<HeatInput>, xs: seq<NoHeat>) {
    |xs| == |h| + 1 && xs[0] == HEATS && forall k :: 0 <= k < |h| ==> xs[k + 1] == HeatStep(xs[k], h[k])
  }

  predicate Burning(i: HeatInput) { i.HeatCycle? && i.on && i.temp.Some? }

  /** From cycle i on the boiler was on and read in every cycle, without a reboot. */
  predicate BurningFrom(h: seq<HeatInput>, i: nat, k: nat)
    requires k <= |h|
  {
    i < k && Burning(h[i]) && forall j :: i <= j < k ==> !h[j].HeatBoot? && (h[j].HeatCycle? ==> Burning(h[j]))
  }

  /** After cycle i the supply was far below its target in every cycle. */
  predicate FarAfter(h: seq<HeatInput>, i: nat, k: nat)
    requires k <= |h|
  {
    && BurningFrom(h, i, k)
    && forall j :: i < j < k && h[j].HeatCycle? ==> FarBelow(h[j].s, h[j].autoTarget, h[j].temp.value)
  }

  lemma {:induction false} OnSince(h: seq<HeatInput>, xs: seq<NoHeat>, k: nat) returns (i: nat)
    requires IsHeatRun(h, xs) && k <= |h| && xs[k].onActive
    ensures BurningFrom(h, i, k) && h[i].now == xs[k].onSince
  {
    assert k > 0;
    assert xs[k] == HeatStep(xs[k - 1], h[k - 1]);
    if xs[k - 1].onActive {
      i := OnSince(h, xs, k - 1);
    } else {
      i := k - 1;
    }
  }

  /** The window cycle k may end began at cycle c: since then the boiler burned far below its target, and no cycle
      before k came 15 minutes later. */
  predicate WindowBegan(h: seq<HeatInput>, c: nat, k: nat)
    requires k <= |h|
  {
    FarAfter(h, c, k) && forall j :: c < j < k && h[j].HeatCycle? ==> h[j].now - h[c].now < 15 * 60 * 1000
  }

  lemma {:induction false} WindowStart(h: seq<HeatInput>, xs: seq<NoHeat>, k: nat) returns (c: nat)
    requires IsHeatRun(h, xs) && k <= |h| && xs[k].onActive
    ensures WindowBegan(h, c, k) && h[c].now == xs[k].checkAt && h[c].temp.value == xs[k].checkTemp
  {
    var e, x := h[k - 1], xs[k - 1];
    assert xs[k] == HeatStep(x, e);
    if !x.onActive || (e.HeatCycle? && (!FarBelow(e.s, e.autoTarget, e.temp.value)
                                        || e.now - x.checkAt >= 15 * 60 * 1000)) {
      c := k - 1;
    } else {
      c := WindowStart(h, xs, k - 1);
    }
  }

  /** Over a window of 15 minutes or more the supply rose by less than 2 degrees, and stayed far below its target
      since. */
  predicate StalledOver(h: seq<HeatInput>, a: nat, b: nat, k: nat)
    requires k <= |h|
  {
    && a < b < k && FarAfter(h, a, k) && h[b].HeatCycle?
    && h[b].now - h[a].now >= NO_HEAT_WINDOW_MS && h[b].temp.value - h[a].temp.value < NO_HEAT_MIN_RISE
  }

  lemma {:induction false} StalledSince(h: seq<HeatInput>, xs: seq<NoHeat>, k: nat) returns (a: nat, b: nat)
    requires IsHeatRun(h, xs) && k <= |h| && xs[k].stalled
    ensures xs[k].onActive && StalledOver(h, a, b, k)
  {
    assert k > 0;
    var e := h[k - 1];
    assert xs[k] == HeatStep(xs[k - 1], e);
    if e.HeatCycle? && xs[k - 1].onActive && e.now - xs[k - 1].checkAt >= NO_HEAT_WINDOW_MS {
      a := WindowStart(h, xs, k - 1);
      b := k - 1;
    } else {
      a, b := StalledSince(h, xs, k - 1);
    }
  }

  /** No heat is reported only if the boiler was on in every cycle of the last half hour or more, and the supply stalled
      over a window and has been far below its target ever since. */
  lemma {:induction false} NoHeatOnlyIfStalled(h: seq<HeatInput>, xs: seq<NoHeat>, k: nat)
    returns (i: nat, m: nat, a: nat, b: nat)
    requires IsHeatRun(h, xs) && k <= |h| && xs[k].noHeat
    ensures BurningFrom(h, i, k) && i <= m < k && h[m].HeatCycle? && h[m].now - h[i].now >= NO_HEAT_AFTER_MS
    ensures StalledOver(h, a, b, k)
    ensures xs[k].stalled && xs[k].onActive && h[i].now == xs[k].onSince
  {
    assert k > 0;
    assert xs[k] == HeatStep(xs[k - 1], h[k - 1]);
    if h[k - 1].HeatCycle? {
      i := OnSince(h, xs, k);
      m := k - 1;
      a, b := StalledSince(h, xs, k);
    } else {
      i, m, a, b := NoHeatOnlyIfStalled(h, xs, k - 1);
    }
  }

  /** The burning that cycle k continues began at cycle i. */
  predicate BurnBegan(h: seq<HeatInput>, i: nat, k: nat)
    requires k < |h|
  {
    && i <= k && h[i].HeatCycle? && (forall j :: i <= j < k ==> h[j].HeatOther? || Burning(h[j]))
    && NotBurning(h, i)
  }

  /** The last cycle before input k, if any since the last boot, did not find the boiler burning. */
  predicate NotBurning(h: seq<HeatInput>, k: nat)
    requires k <= |h|
  {
    if k == 0 then true else if h[k - 1].HeatOther? then NotBurning(h, k - 1) else !Burning(h[k - 1])
  }

  lemma {:induction false} BurnStart(h: seq<HeatInput>, xs: seq<NoHeat>, k: nat) returns (i: nat)
    requires IsHeatRun(h, xs) && k <= |h|
    ensures xs[k].onActive ==>
              && i < k && h[i].HeatCycle? && (forall j :: i <= j < k ==> h[j].HeatOther? || Burning(h[j]))
              && NotBurning(h, i) && xs[k].onSince == h[i].now
    ensures !xs[k].onActive ==> NotBurning(h, k)
  {
    i := 0;
    if k > 0 {
      i := BurnStart(h, xs, k - 1);
      assert xs[k] == HeatStep(xs[k - 1], h[k - 1]);
      if h[k - 1].HeatCycle? && !xs[k - 1].onActive { i := k - 1; }
    }
  }

  /** Exactly when a cycle reports no heat: the boiler burns far below its target, burning since cycle i half an hour
      ago, and stalled; and it is stalled if the window begun by cycle c ends here with less than 2 degrees more, or
      goes on and the last one that ended had stalled. */
  lemma NoHeatIff(h: seq<HeatInput>, xs: seq<NoHeat>, k: nat) returns (i: nat, c: nat)
    requires IsHeatRun(h, xs) && k < |h| && h[k].HeatCycle?
    ensures BurnBegan(h, i, k)
    ensures i < k && Burning(h[k]) ==> WindowBegan(h, c, k)
    ensures var e := h[k];
            var far := Burning(e) && if e.s.auto then e.temp.value < e.autoTarget - 10.0 else e.temp.value < 30.0;
            && (xs[k + 1].noHeat <==> far && xs[k + 1].stalled && e.now - h[i].now >= 30 * 60 * 1000)
            && (xs[k + 1].stalled <==>
                far && if i < k && e.now - h[c].now >= 15 * 60 * 1000 then e.temp.value - h[c].temp.value < 2.0
                       else xs[k].stalled)
  {
    i := BurnStart(h, xs, k);
    assert xs[k + 1] == HeatStep(xs[k], h[k]);
    c := 0;
    if xs[k].onActive {
      c := WindowStart(h, xs, k);
    } else {
      i := k;
      NotStalled(h, xs, k);
    }
  }

  lemma {:induction false} NotStalled(h: seq<HeatInput>, xs: seq<NoHeat>, k: nat)
    requires IsHeatRun(h, xs) && k <= |h| && !xs[k].onActive
    ensures !xs[k].stalled && !xs[k].noHeat
  {
    if k > 0 {
      assert xs[k] == HeatStep(xs[k - 1], h[k - 1]);
      if h[k - 1].HeatOther? { NotStalled(h, xs, k - 1); }
    }
  }

  // ---- Lost sensors ----

  datatype LossInput = LossCycle(present: bool) | LossBoot | LossOther

  function LossStep(l: Loss, i: LossInput): Loss {
    match i
    case LossCycle(present) => Miss(l, if present then Some(0.0) else None)
    case LossBoot => Loss(0, false)
    case LossOther => l
  }

  predicate IsLossRun(h: seq<LossInput>, ls: seq<Loss>) {
    |ls| == |h| + 1 && ls[0] == Loss(0, false) && forall k :: 0 <= k < |h| ==> ls[k + 1] == LossStep(ls[k], h[k])
  }

  /** How many cycles in a row before input k missed the sensor. */
  function Missed(h: seq<LossInput>, k: nat): nat
    requires k <= |h|
  {
    if k == 0 then 0
    else
      match h[k - 1]
      case LossCycle(present) => if present then 0 else Missed(h, k - 1) + 1
      case LossBoot => 0
      case LossOther => Missed(h, k - 1)
  }

  /** A sensor is lost exactly after three cycles in a row without a reading, although the count stops at 255. */
  lemma {:induction false} LostIffMissed(h: seq<LossInput>, ls: seq<Loss>, k: nat)
    requires IsLossRun(h, ls) && k <= |h|
    ensures ls[k].lost <==> Missed(h, k) >= 3
    ensures ls[k].missing == if Missed(h, k) < 255 then Missed(h, k) else 255
  {
    if k > 0 {
      LostIffMissed(h, ls, k - 1);
      assert ls[k] == LossStep(ls[k - 1], h[k - 1]);
    }
  }
}
