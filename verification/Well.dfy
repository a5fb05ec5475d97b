/** Dry-run protection of the well pump: grace, pause, three tries, lock. */
module Well {
  import opened Options

  const WELL_MIN_BAR := 0.5
  const WELL_GRACE_MS := 60_000
  const WELL_RETRY_MS := 30 * 60 * 1000
  const WELL_MAX_TRIES := 3

  /** The protection and the pump relay it drives. */
  datatype Well = Well(lowActive: bool, lowSince: nat, waiting: bool, retryAt: nat, failures: nat, locked: bool,
                       dry: bool, pump: bool)

  const FRESH := Well(false, 0, false, 0, 0, false, false, false)

  datatype Input =
    | Cycle(command: bool, pressure: Option<real>, now: nat)  // no pressure: no sensor
    | ResetWell(now: nat)
    | Boot(now: nat)
    | Other(now: nat)

  /** A dry run is over its grace: stop, and pause or, after the third, lock. */
  function Fail(w: Well, now: nat): Well {
    var failures := w.failures + 1;
    var lock := failures >= WELL_MAX_TRIES;
    w.(pump := false, lowActive := false, failures := failures, dry := true,
       locked := w.locked || lock,
       waiting := w.waiting || !lock,
       retryAt := if lock then w.retryAt else now + WELL_RETRY_MS)
  }

  function Measure(w: Well, pressure: real, now: nat): Well {
    if pressure < WELL_MIN_BAR then
      var since := if w.lowActive then w.lowSince else now;
      if now - since >= WELL_GRACE_MS then Fail(w, now)
      else w.(pump := true, lowActive := true, lowSince := since, dry := w.waiting || w.locked)
    else w.(pump := true, lowActive := false, failures := 0, dry := w.waiting || w.locked)
  }

  function UpdateWell(w: Well, command: bool, pressure: Option<real>, now: nat): Well {
    if !command then
      w.(pump := false, lowActive := false, waiting := false, locked := false, dry := false, failures := 0)
    else if pressure.None? then w.(pump := true, lowActive := false, dry := false)
    else if w.locked || (w.waiting && now < w.retryAt) then w.(pump := false)
    else Measure(if w.waiting then w.(waiting := false, lowActive := false) else w, pressure.value, now)
  }

  function Step(w: Well, i: Input): Well {
    match i
    case Cycle(command, pressure, now) => UpdateWell(w, command, pressure, now)
    case ResetWell(_) => w.(locked := false, waiting := false, dry := false, lowActive := false, failures := 0)
    case Boot(_) => FRESH
    case Other(_) => w
  }

  predicate IsRun(h: seq<Input>, ws: seq<Well>) {
    |ws| == |h| + 1 && ws[0] == FRESH && forall k :: 0 <= k < |h| ==> ws[k + 1] == Step(ws[k], h[k])
  }

  predicate Stopped(w: Well) { w.waiting || w.locked }

  /** Dry exactly while stopped, the pump off while stopped, and a lock after exactly three tries. */
  predicate Kept(w: Well) {
    && (w.dry <==> Stopped(w)) && (Stopped(w) ==> !w.pump) && Ordered(w)
  }

  predicate Ordered(w: Well) {
    && (Stopped(w) ==> !w.lowActive) && !(w.waiting && w.locked) && (w.lowActive ==> w.pump)
    && w.failures <= WELL_MAX_TRIES && (w.locked <==> w.failures == WELL_MAX_TRIES)
  }

  /** A commanded cycle without a reading. */
  predicate Unread(i: Input) { i.Cycle? && i.command && i.pressure.None? }

  /** The pump has been stopped since before input j, a commanded cycle without a reading. */
  predicate UnreadAt(h: seq<Input>, ws: seq<Well>, j: nat, k: nat)
    requires k <= |h| < |ws|
  {
    j < k && Unread(h[j]) && forall m :: j <= m <= k ==> Stopped(ws[m])
  }

  /** Whatever the readings do: the flag and the stop are right if and only if every commanded cycle since the stop
      began had a reading. */
  lemma {:induction false} KeptIffRead(h: seq<Input>, ws: seq<Well>, k: nat)
    requires IsRun(h, ws) && k <= |h|
    ensures Ordered(ws[k]) && (ws[k].dry ==> Stopped(ws[k]))
    ensures Kept(ws[k]) <==> !(exists j: nat :: UnreadAt(h, ws, j, k))
    ensures Kept(ws[k]) <==> (ws[k].dry <==> Stopped(ws[k]))
  {
    if k > 0 {
      KeptIffRead(h, ws, k - 1);
      var w, v := ws[k - 1], ws[k];
      assert v == Step(w, h[k - 1]);
      if Kept(w) && !Kept(v) {
        assert UnreadAt(h, ws, k - 1, k);
      } else if !Kept(w) && Stopped(v) {
        var j: nat :| UnreadAt(h, ws, j, k - 1);
        assert UnreadAt(h, ws, j, k);
      }
      if j: nat :| UnreadAt(h, ws, j, k) {
        assert j < k - 1 ==> UnreadAt(h, ws, j, k - 1);
      }
    }
  }

  /** A reading that fails while the pump is stopped would start it, and leave the flag wrong. The loop that calls the
      controller never passes such readings: a configured sensor reads 0 bar on a broken wire. */
  const FAILING: seq<Input> := [Cycle(true, Some(0.0), 0), Cycle(true, Some(0.0), 60_000), Cycle(true, None, 61_000)]

  lemma FailingReadingStarts() returns (ws: seq<Well>)
    ensures IsRun(FAILING, ws) && ws[3].waiting && ws[3].pump && !ws[3].dry
  {
    var low := FRESH.(lowActive := true, pump := true);
    var paused := FRESH.(waiting := true, retryAt := 60_000 + WELL_RETRY_MS, failures := 1, dry := true);
    ws := [FRESH, low, paused, paused.(pump := true, dry := false)];
  }

  // ---- A sensor configured at boot ----

  predicate NoBoot(h: seq<Input>, i: nat, k: nat)
    requires k <= |h|
  {
    forall j :: i <= j < k ==> !h[j].Boot?
  }

  /** The sensor is configured at boot: between two boots either every cycle has a reading or none has. */
  predicate SensorFixed(h: seq<Input>) {
    forall i, k :: 0 <= i < k < |h| && h[i].Cycle? && h[k].Cycle? && NoBoot(h, i, k) ==>
                     (h[i].pressure.Some? <==> h[k].pressure.Some?)
  }

  /** Cycle i since the last boot had a reading. */
  predicate ReadAt(h: seq<Input>, i: nat, k: nat)
    requires k <= |h|
  {
    i < k && h[i].Cycle? && h[i].pressure.Some? && NoBoot(h, i, k)
  }

  /** Dry exactly while stopped, and then the pump is off, with a sensor and without, in every state; only with a sensor
      is it ever stopped. */
  lemma {:induction false} DryIffStopped(h: seq<Input>, ws: seq<Well>, k: nat) returns (i: nat)
    requires IsRun(h, ws) && SensorFixed(h) && k <= |h|
    ensures Kept(ws[k])
    ensures Stopped(ws[k]) || ws[k].lowActive || ws[k].failures > 0 ==> ReadAt(h, i, k)
  {
    i := 0;
    if k > 0 {
      i := DryIffStopped(h, ws, k - 1);
      var e := h[k - 1];
      assert ws[k] == Step(ws[k - 1], e);
      if e.Cycle? && e.pressure.Some? {
        i := k - 1;
      }
    }
  }

  // ---- Pauses ----

  /** Nobody switches the pump off, resets the protection or reboots from input i up to input k. */
  predicate LeftAlone(h: seq<Input>, i: nat, k: nat)
    requires k <= |h|
  {
    forall j :: i <= j < k ==> !h[j].ResetWell? && !h[j].Boot? && (h[j].Cycle? ==> h[j].command)
  }

  /** A cycle that stops the pump for a pause at time t. */
  predicate Pauses(h: seq<Input>, ws: seq<Well>, i: nat, t: nat)
    requires |ws| == |h| + 1 && i < |h|
  {
    h[i].Cycle? && h[i].now == t && !ws[i].waiting && ws[i + 1].waiting
  }

  lemma {:induction false} PausedUntilRetry(h: seq<Input>, ws: seq<Well>, i: nat, t: nat, k: nat)
    requires IsRun(h, ws) && SensorFixed(h) && i < k <= |h| && Pauses(h, ws, i, t) && LeftAlone(h, i + 1, k)
    requires forall j :: i < j < k && h[j].Cycle? ==> h[j].now < t + WELL_RETRY_MS
    ensures ws[k].waiting && ws[k].retryAt == t + WELL_RETRY_MS && !ws[k].pump
  {
    var _ := DryIffStopped(h, ws, k);
    var _ := DryIffStopped(h, ws, k - 1);
    if k > i + 1 { PausedUntilRetry(h, ws, i, t, k - 1); }
    assert ws[k] == Step(ws[k - 1], h[k - 1]);
  }

  /** After a pause begins the pump runs again only 30 minutes later. */
  lemma RetryAfterPause(h: seq<Input>, ws: seq<Well>, i: nat, k: nat)
    requires IsRun(h, ws) && SensorFixed(h) && i < k < |h| && h[i].Cycle? && Pauses(h, ws, i, h[i].now)
    requires LeftAlone(h, i + 1, k + 1) && h[k].Cycle? && ws[k + 1].pump
    requires forall j :: i < j < k && h[j].Cycle? ==> h[j].now <= h[k].now
    ensures h[k].now >= h[i].now + WELL_RETRY_MS
  {
    if h[k].now < h[i].now + WELL_RETRY_MS {
      PausedUntilRetry(h, ws, i, h[i].now, k + 1);
    }
  }

  /** A lock lasts as long as the pump is left alone. */
  lemma {:induction false} LockLasts(h: seq<Input>, ws: seq<Well>, i: nat, k: nat)
    requires IsRun(h, ws) && SensorFixed(h) && i <= k <= |h| && ws[i].locked && LeftAlone(h, i, k)
    ensures ws[k].locked && !ws[k].pump
  {
    var _ := DryIffStopped(h, ws, k);
    if k > i {
      LockLasts(h, ws, i, k - 1);
      var j := DryIffStopped(h, ws, k - 1);
      assert ws[k] == Step(ws[k - 1], h[k - 1]) && ReadAt(h, j, k - 1);
    }
  }

  // ---- Exactly when the pump runs ----

  /** Cycle j ran the pump on a low pressure. */
  predicate LowAt(h: seq<Input>, ws: seq<Well>, j: nat)
    requires |ws| == |h| + 1 && j < |h|
  {
    h[j].Cycle? && h[j].command && h[j].pressure.Some? && h[j].pressure.value < 0.5 && !Stopped(ws[j + 1])
  }

  predicate AllOther(h: seq<Input>, i: nat, k: nat)
    requires k <= |h|
  {
    forall j :: i <= j < k ==> h[j].Other?
  }

  /** Before input k the pump did not run on a low pressure. */
  predicate NotLow(h: seq<Input>, ws: seq<Well>, k: nat)
    requires |ws| == |h| + 1 && k <= |h|
  {
    forall j :: 0 <= j < k && AllOther(h, j + 1, k) ==> !LowAt(h, ws, j)
  }

  /** The low pressure that cycle k meets began at cycle i: the pump ran on it ever since, and did not before. */
  predicate LowBegan(h: seq<Input>, ws: seq<Well>, i: nat, k: nat)
    requires |ws| == |h| + 1 && k < |h|
  {
    i <= k && h[i].Cycle? && (forall j :: i <= j < k ==> h[j].Other? || LowAt(h, ws, j)) && NotLow(h, ws, i)
  }

  lemma {:induction false} LowSince(h: seq<Input>, ws: seq<Well>, k: nat) returns (i: nat)
    requires IsRun(h, ws) && SensorFixed(h) && k < |h| && h[k].Cycle?
    ensures LowBegan(h, ws, i, k)
    ensures if ws[k].lowActive then i < k && ws[k].lowSince == h[i].now else i == k
  {
    i := LowUpTo(h, ws, k);
    if !ws[k].lowActive { i := k; }
  }

  lemma {:induction false} LowUpTo(h: seq<Input>, ws: seq<Well>, k: nat) returns (i: nat)
    requires IsRun(h, ws) && SensorFixed(h) && k <= |h|
    ensures ws[k].lowActive ==>
              && i < k && h[i].Cycle? && ws[k].lowSince == h[i].now && NotLow(h, ws, i)
              && forall j :: i <= j < k ==> h[j].Other? || LowAt(h, ws, j)
    ensures !ws[k].lowActive ==> NotLow(h, ws, k)
  {
    i := 0;
    if k > 0 {
      i := LowUpTo(h, ws, k - 1);
      var _ := DryIffStopped(h, ws, k);
      var _ := DryIffStopped(h, ws, k - 1);
      assert ws[k] == Step(ws[k - 1], h[k - 1]);
      if h[k - 1].Other? {
        forall j | 0 <= j < k - 1 && AllOther(h, j + 1, k) ensures !LowAt(h, ws, j) || ws[k - 1].lowActive {
          assert AllOther(h, j + 1, k - 1);
        }
      } else if !ws[k - 1].lowActive {
        i := k - 1;
      }
    }
  }

  /** Cycle j stops the pump for a dry run. */
  predicate StopsAt(ws: seq<Well>, j: nat)
    requires j + 1 < |ws|
  {
    !Stopped(ws[j]) && Stopped(ws[j + 1])
  }

  /** The tries used up before input k: the stops since the pump last delivered, was switched off, reset or booted. */
  function TriesUsed(h: seq<Input>, ws: seq<Well>, k: nat): nat
    requires |ws| == |h| + 1 && k <= |h|
  {
    if k == 0 then 0
    else if StopsAt(ws, k - 1) then TriesUsed(h, ws, k - 1) + 1
    else
      match h[k - 1]
      case Cycle(command, pressure, _) =>
        if !command || (pressure.Some? && pressure.value >= 0.5 && !Stopped(ws[k])) then 0
        else TriesUsed(h, ws, k - 1)
      case Other(_) => TriesUsed(h, ws, k - 1)
      case _ => 0
  }

  lemma {:induction false} FailuresAreTries(h: seq<Input>, ws: seq<Well>, k: nat)
    requires IsRun(h, ws) && SensorFixed(h) && k <= |h|
    ensures ws[k].failures == TriesUsed(h, ws, k)
  {
    if k > 0 {
      FailuresAreTries(h, ws, k - 1);
      var _ := DryIffStopped(h, ws, k - 1);
      assert ws[k] == Step(ws[k - 1], h[k - 1]);
    }
  }

  /** A pause goes on since the cycle that stopped the pump, and ends 30 minutes after it. */
  lemma {:induction false} PausedSince(h: seq<Input>, ws: seq<Well>, k: nat) returns (p: nat)
    requires IsRun(h, ws) && SensorFixed(h) && k <= |h| && ws[k].waiting
    ensures p < k && h[p].Cycle? && StopsAt(ws, p) && (forall j :: p < j <= k ==> ws[j].waiting)
    ensures ws[k].retryAt == h[p].now + 30 * 60 * 1000
  {
    var _ := DryIffStopped(h, ws, k - 1);
    assert ws[k] == Step(ws[k - 1], h[k - 1]);
    if ws[k - 1].waiting {
      p := PausedSince(h, ws, k - 1);
    } else {
      p := k - 1;
    }
  }

  /** After every cycle the pump runs if and only if it is commanded and not stopped. A commanded cycle finds it
      stopped exactly if it was locked, if the pause begun by cycle p is not over, or if the pressure is low and the
      pump has run on a low pressure since cycle i, a minute ago. The third stop without a delivery in between locks
      it. */
  lemma PumpRunsIff(h: seq<Input>, ws: seq<Well>, k: nat) returns (i: nat, p: nat)
    requires IsRun(h, ws) && SensorFixed(h) && k < |h| && h[k].Cycle?
    ensures LowBegan(h, ws, i, k)
    ensures ws[k].waiting ==> p < k && h[p].Cycle? && StopsAt(ws, p) && forall j :: p < j <= k ==> ws[j].waiting
    ensures var now, v := h[k].now, ws[k + 1];
            && (v.pump <==> h[k].command && !v.waiting && !v.locked)
            && (Stopped(v) <==>
                h[k].command && (|| ws[k].locked
                                 || (ws[k].waiting && now < h[p].now + 30 * 60 * 1000)
                                 || (h[k].pressure.Some? && h[k].pressure.value < 0.5 && !Stopped(ws[k])
                                     && now - h[i].now >= 60_000)))
            && (v.locked <==> h[k].command && (ws[k].locked || (StopsAt(ws, k) && TriesUsed(h, ws, k) == 2)))
  {
    p := 0;
    if ws[k].waiting { p := PausedSince(h, ws, k); }
    i := LowSince(h, ws, k);
    FailuresAreTries(h, ws, k);
    var r := DryIffStopped(h, ws, k);
    assert ws[k + 1] == Step(ws[k], h[k]);
  }

  // ---- How long the pump can run dry ----

  /** A cycle with a low reading, or nothing about the pump. */
  predicate Dry(i: Input) {
    i.Other? || (i.Cycle? && i.command && i.pressure.Some? && i.pressure.value < WELL_MIN_BAR)
  }

  /** Time of the last cycle among the inputs from the i-th to the k-th, of which the i-th is one. */
  function LastCycle(h: seq<Input>, i: nat, k: nat): nat
    requires i <= k < |h|
  {
    if h[k].Cycle? || k == i then h[k].now else LastCycle(h, i, k - 1)
  }

  /** Input k comes after its predecessor, and not later than `gap` after the last cycle. */
  predicate OnTime(h: seq<Input>, i: nat, k: nat, gap: nat)
    requires i < k < |h|
  {
    h[k - 1].now <= h[k].now <= LastCycle(h, i, k - 1) + gap
  }

  /** From the cycle i to input k the well is dry, and cycles are at most `gap` apart. */
  predicate DryStretch(h: seq<Input>, i: nat, k: nat, gap: nat)
    requires i <= k < |h|
  {
    h[i].Cycle? && (forall j :: i <= j <= k ==> Dry(h[j])) && (forall j :: i < j <= k ==> OnTime(h, i, j, gap))
  }

  /** Time the pump ran between the inputs from the i-th to the k-th. */
  function RunTime(h: seq<Input>, ws: seq<Well>, i: nat, k: nat): int
    requires |ws| == |h| + 1 && i <= k < |h|
  {
    if k == i then 0 else RunTime(h, ws, i, k - 1) + if ws[k].pump then h[k].now - h[k - 1].now else 0
  }

  /** What one graceful try may cost. */
  function Budget(w: Well, now: nat, gap: nat): int {
    w.failures * (WELL_GRACE_MS + gap) + if w.lowActive then now - w.lowSince else 0
  }

  /** Under way: low since less than the grace at the last cycle. */
  predicate UnderGrace(w: Well, cycle: nat) {
    (w.pump ==> w.lowActive) && (w.lowActive ==> w.lowSince <= cycle < w.lowSince + WELL_GRACE_MS)
  }

  lemma {:induction false} RunTimeByFailures(h: seq<Input>, ws: seq<Well>, i: nat, k: nat, gap: nat)
    requires IsRun(h, ws) && SensorFixed(h) && i <= k < |h| && DryStretch(h, i, k, gap)
    requires ws[i].failures == 0 && !ws[i].lowActive
    ensures UnderGrace(ws[k + 1], LastCycle(h, i, k)) && LastCycle(h, i, k) <= h[k].now
    ensures RunTime(h, ws, i, k) <= Budget(ws[k + 1], h[k].now, gap)
  {
    var _ := DryIffStopped(h, ws, k);
    assert ws[k + 1] == Step(ws[k], h[k]) && Dry(h[k]);
    if k > i {
      RunTimeByFailures(h, ws, i, k - 1, gap);
      assert OnTime(h, i, k, gap);
      if h[k].Cycle? {
        DryStep(ws[k], LastCycle(h, i, k - 1), h[k - 1].now, h[k].now, h[k].pressure.value, gap);
      }
    } else {
      DryStep(ws[k], h[k].now, h[k].now, h[k].now, h[k].pressure.value, gap);
    }
  }

  /** One more dry cycle costs at most what is left of the grace, plus the gap. */
  lemma DryStep(w: Well, cycle: nat, before: nat, now: nat, pressure: real, gap: nat)
    requires Kept(w) && cycle <= before <= now <= cycle + gap && pressure < WELL_MIN_BAR
    requires UnderGrace(w, cycle) || !w.lowActive
    ensures var v := UpdateWell(w, true, Some(pressure), now);
            && UnderGrace(v, now)
            && Budget(w, before, gap) + (if w.lowActive then now - before else 0) <= Budget(v, now, gap)
  {
    assert (w.failures + 1) * (WELL_GRACE_MS + gap) == w.failures * (WELL_GRACE_MS + gap) + (WELL_GRACE_MS + gap);
  }

  /** On a dry well the pump runs, in all, at most three graces and three cycle gaps before it is locked. */
  lemma DryRunBounded(h: seq<Input>, ws: seq<Well>, i: nat, k: nat, gap: nat)
    requires IsRun(h, ws) && SensorFixed(h) && i <= k < |h| && DryStretch(h, i, k, gap)
    requires ws[i].failures == 0 && !ws[i].lowActive
    ensures RunTime(h, ws, i, k) <= 3 * (WELL_GRACE_MS + gap)
  {
    RunTimeByFailures(h, ws, i, k, gap);
    var _ := DryIffStopped(h, ws, k + 1);
    hide Step, UpdateWell, RunTime;
    assert k > i ==> OnTime(h, i, k, gap);
    BudgetBounded(ws[k + 1], LastCycle(h, i, k), h[k].now, gap);
  }

  lemma BudgetBounded(w: Well, cycle: nat, now: nat, gap: nat)
    requires Kept(w) && UnderGrace(w, cycle) && now <= cycle + gap
    ensures Budget(w, now, gap) <= 3 * (WELL_GRACE_MS + gap)
  {
    var f := if w.lowActive then w.failures + 1 else w.failures;
    Monotone(f, 3, WELL_GRACE_MS + gap);
  }

  lemma Monotone(a: nat, b: nat, c: nat)
    requires a <= b
    ensures a * c <= b * c
  {
  }
}
