/** The anti-legionella cycle: raise the tank target in its window until the tank has held the temperature. */
module Legionella {
  import opened Options
  import opened Schedule

  const ALM_HOLD_MS := 10 * 60 * 1000

  datatype AlmSettings = AlmSettings(mode: bool, temp: real, days: string, startH: nat, startM: nat, duration: int)

  /** Result of the last window, empty until the first one is over. */
  datatype Verdict = NoVerdict | Passed | Failed

  datatype Alm = Alm(active: bool, inWindow: bool, done: bool, holdActive: bool, holdStart: nat, last: Verdict,
                     noTime: bool)

  const FRESH := Alm(false, false, false, false, 0, NoVerdict, false)

  predicate Enabled(s: AlmSettings) { s.mode && s.days != "" }

  predicate InAlmWindow(s: AlmSettings, clock: Option<Clock>) {
    var (endH, endM) := AlmEnd(s.startH, s.startM, s.duration);
    InSchedule(clock, s.days, s.startH * 60 + s.startM, endH * 60 + endM)
  }

  /** The window lasts its duration from its start on, on the listed days. */
  lemma InAlmWindowIff(s: AlmSettings, clock: Option<Clock>, ds: seq<nat>)
    requires AllDays(ds) && s.days == JoinDays(ds) && ValidClock(clock)
    requires s.startH < 24 && s.startM < 60 && 0 <= s.duration < DAY
    ensures InAlmWindow(s, clock) <==>
              && clock.Some? && clock.value.dow in ds
              && (clock.value.minute - (s.startH * 60 + s.startM)) % 1440 < s.duration
  {
    hide AlmEnd, InSchedule, JoinDays;
    var (endH, endM) := AlmEnd(s.startH, s.startM, s.duration);
    AlmEndAfter(s.startH, s.startM, s.duration);
    ScheduledIff(clock, ds, s.startH * 60 + s.startM, endH * 60 + endM);
  }

  /** Inside the window, not yet done. */
  function Heat(a: Alm, temp: real, tank: Option<real>, now: nat): Alm {
    if tank.Some? && tank.value >= temp then
      if !a.holdActive then a.(holdActive := true, holdStart := now, active := true)
      else if now - a.holdStart >= ALM_HOLD_MS then a.(done := true, active := false, last := Passed)
      else a.(active := true)
    else if tank.Some? then a.(holdActive := false, active := true)
    else a.(active := true)
  }

  function UpdateAlm(a: Alm, s: AlmSettings, clock: Option<Clock>, tank: Option<real>, now: nat): Alm {
    if !Enabled(s) then
      a.(active := false, noTime := false, inWindow := false, done := false, last := NoVerdict)
    else
      var b := a.(noTime := clock.None?);
      if !InAlmWindow(s, clock) then
        b.(last := if b.inWindow && !b.done then Failed else b.last, inWindow := false, active := false)
      else
        var c := if b.inWindow then b else b.(inWindow := true, done := false, holdActive := false);
        if c.done then c.(active := false) else Heat(c, s.temp, tank, now)
  }

  /** The tank's target while the cycle is or is not active. */
  function TankTarget(a: Alm, almTemp: real, tankTemp: real): real {
    if a.active && almTemp > tankTemp then almTemp else tankTemp
  }

  datatype Input =
    | Cycle(settings: AlmSettings, clock: Option<Clock>, tank: Option<real>, now: nat)
    | Boot(now: nat)
    | Other(now: nat)

  function Step(a: Alm, i: Input): Alm {
    match i
    case Cycle(settings, clock, tank, now) => UpdateAlm(a, settings, clock, tank, now)
    case Boot(_) => FRESH
    case Other(_) => a
  }

  predicate IsRun(h: seq<Input>, xs: seq<Alm>) {
    |xs| == |h| + 1 && xs[0] == FRESH && forall k :: 0 <= k < |h| ==> xs[k + 1] == Step(xs[k], h[k])
  }

  // ---- Outside the window ----

  /** The target is raised only by a cycle inside the window. */
  predicate LastCycleInWindow(h: seq<Input>, k: nat)
    requires k <= |h|
  {
    if k == 0 || h[k - 1].Boot? then false
    else if h[k - 1].Cycle? then Enabled(h[k - 1].settings) && InAlmWindow(h[k - 1].settings, h[k - 1].clock)
    else LastCycleInWindow(h, k - 1)
  }

  lemma {:induction false} RaisedOnlyInWindow(h: seq<Input>, xs: seq<Alm>, k: nat)
    requires IsRun(h, xs) && k <= |h|
    ensures xs[k].active ==> LastCycleInWindow(h, k)
    ensures xs[k].inWindow <==> LastCycleInWindow(h, k)
  {
    hide InAlmWindow;
    if k > 0 {
      RaisedOnlyInWindow(h, xs, k - 1);
      assert xs[k] == Step(xs[k - 1], h[k - 1]);
    }
  }

  /** Outside the window the tank keeps its own target. */
  lemma TargetNotRaised(h: seq<Input>, xs: seq<Alm>, k: nat, almTemp: real, tankTemp: real)
    requires IsRun(h, xs) && k <= |h| && !LastCycleInWindow(h, k)
    ensures TankTarget(xs[k], almTemp, tankTemp) == tankTemp
  {
    RaisedOnlyInWindow(h, xs, k);
  }

  // ---- The verdict ----

  /** No reboot, and every cycle has these settings and lies inside the window. */
  predicate Inside(i: Input, s: AlmSettings) {
    !i.Boot? && (i.Cycle? ==> i.settings == s && InAlmWindow(s, i.clock))
  }

  /** The cycle reads the tank at its temperature. */
  predicate Hot(i: Input, s: AlmSettings) { i.Cycle? && i.tank.Some? && i.tank.value >= s.temp }

  /** The cycle reads the tank below its temperature; a missing reading is neither hot nor cold. */
  predicate Cold(i: Input, s: AlmSettings) { i.Cycle? && i.tank.Some? && i.tank.value < s.temp }

  /** Hot at a, and never cold from there up to k. */
  predicate HotSince(h: seq<Input>, s: AlmSettings, a: nat, k: nat)
    requires k <= |h|
  {
    a < k && Hot(h[a], s) && forall j :: a <= j < k ==> !Cold(h[j], s)
  }

  /** Two hot readings 10 minutes apart with none below between them. */
  predicate Held(h: seq<Input>, s: AlmSettings, a: nat, b: nat)
    requires b < |h|
  {
    a < b && Hot(h[b], s) && h[b].now - h[a].now >= ALM_HOLD_MS && HotSince(h, s, a, b)
  }

  ghost predicate HeldBy(h: seq<Input>, s: AlmSettings, i: nat, k: nat)
    requires k <= |h|
  {
    exists a: nat, b: nat :: i <= a < b < k && Held(h, s, a, b)
  }

  /** The hold began at input a, the first hot one since the last cold one. */
  predicate HoldBegan(h: seq<Input>, s: AlmSettings, i: nat, a: nat, k: nat)
    requires k <= |h|
  {
    i <= a && HotSince(h, s, a, k) && (forall c: nat :: i <= c < a && Hot(h[c], s) ==> !HotSince(h, s, c, k))
  }

  /** What the state knows inside the window: done iff held; else the hold's beginning, if any. */
  ghost predicate Tracks(x: Alm, h: seq<Input>, s: AlmSettings, i: nat, k: nat)
    requires k <= |h|
  {
    && x.inWindow
    && (x.done <==> HeldBy(h, s, i, k))
    && (x.done ==> x.last == Passed)
    && (!x.done ==> (x.holdActive ==> exists a: nat :: HoldBegan(h, s, i, a, k) && h[a].now == x.holdStart)
                    && (!x.holdActive ==> forall a: nat :: i <= a < k ==> !HotSince(h, s, a, k)))
  }

  predicate Chronological(h: seq<Input>, i: nat, k: nat)
    requires k <= |h|
  {
    forall a: nat, b: nat :: i <= a < b < k ==> h[a].now <= h[b].now
  }

  /** One more input seen: what held before still does, and nothing new ends before it. */
  lemma HeldByStep(h: seq<Input>, s: AlmSettings, i: nat, k: nat)
    requires i <= k < |h|
    ensures HeldBy(h, s, i, k + 1) <==> HeldBy(h, s, i, k) || exists a: nat :: i <= a < k && Held(h, s, a, k)
  {
    if HeldBy(h, s, i, k + 1) {
      var a: nat, b: nat :| i <= a < b < k + 1 && Held(h, s, a, b);
      assert b < k ==> HeldBy(h, s, i, k);
    }
    if HeldBy(h, s, i, k) {
      var a: nat, b: nat :| i <= a < b < k && Held(h, s, a, b);
      assert Held(h, s, a, b) && b < k + 1;
    }
    if a: nat :| i <= a < k && Held(h, s, a, k) {
      assert HeldBy(h, s, i, k + 1);
    }
  }

  lemma HotSinceStep(h: seq<Input>, s: AlmSettings, a: nat, k: nat)
    requires k < |h|
    ensures HotSince(h, s, a, k + 1) <==> (HotSince(h, s, a, k) && !Cold(h[k], s)) || (a == k && Hot(h[k], s))
  {
  }

  /** Neither hot nor cold: nothing changes. */
  lemma NeutralTracks(x: Alm, y: Alm, h: seq<Input>, s: AlmSettings, i: nat, k: nat)
    requires i <= k < |h| && Tracks(x, h, s, i, k) && !Hot(h[k], s) && !Cold(h[k], s)
    requires y.inWindow && y.done == x.done && y.last == x.last && y.holdActive == x.holdActive
             && y.holdStart == x.holdStart
    ensures Tracks(y, h, s, i, k + 1)
  {
    var m := k + 1;
    HeldByStep(h, s, i, k);
    forall a: nat ensures HotSince(h, s, a, m) <==> HotSince(h, s, a, k) { HotSinceStep(h, s, a, k); }
    hide HotSince, Held, HeldBy;
    NotHeldAt(h, s, k);
    if x.holdActive && !x.done {
      var a: nat :| HoldBegan(h, s, i, a, k) && h[a].now == x.holdStart;
      assert HoldBegan(h, s, i, a, m);
    }
  }

  lemma NotHeldAt(h: seq<Input>, s: AlmSettings, k: nat)
    requires k < |h| && !Hot(h[k], s)
    ensures forall a: nat :: !Held(h, s, a, k)
  {
  }

  lemma ColdTracks(x: Alm, y: Alm, h: seq<Input>, s: AlmSettings, i: nat, k: nat)
    requires i <= k < |h| && Tracks(x, h, s, i, k) && Cold(h[k], s)
    requires y.inWindow && y.done == x.done && y.last == x.last && !y.holdActive
    ensures Tracks(y, h, s, i, k + 1)
  {
    var m := k + 1;
    HeldByStep(h, s, i, k);
    forall a: nat ensures !HotSince(h, s, a, m) { HotSinceStep(h, s, a, k); }
    hide HotSince, Held, HeldBy;
    NotHeldAt(h, s, k);
  }

  /** Already done: it stays done. */
  lemma DoneTracks(x: Alm, y: Alm, h: seq<Input>, s: AlmSettings, i: nat, k: nat)
    requires i <= k < |h| && Tracks(x, h, s, i, k) && x.done && y.inWindow && y.done && y.last == x.last
    ensures Tracks(y, h, s, i, k + 1)
  {
    HeldByStep(h, s, i, k);
  }

  /** The first hot reading since a cold one begins a hold. */
  lemma HoldBegins(x: Alm, y: Alm, h: seq<Input>, s: AlmSettings, i: nat, k: nat)
    requires i <= k < |h| && Tracks(x, h, s, i, k) && !x.done && !x.holdActive && Hot(h[k], s)
    requires y.inWindow && !y.done && y.holdActive && y.holdStart == h[k].now
    ensures Tracks(y, h, s, i, k + 1)
  {
    var m := k + 1;
    HeldByStep(h, s, i, k);
    forall a: nat | i <= a ensures HotSince(h, s, a, m) <==> a == k { HotSinceStep(h, s, a, k); }
    assert forall a: nat :: i <= a < k ==> !Held(h, s, a, k);
    hide HotSince, Held, HeldBy;
    assert HoldBegan(h, s, i, k, m);
  }

  /** A further hot reading ends the hold if and only if it is 10 minutes after its beginning. */
  lemma HoldGoesOn(x: Alm, y: Alm, h: seq<Input>, s: AlmSettings, i: nat, k: nat)
    requires i <= k < |h| && Chronological(h, i, k + 1)
    requires Tracks(x, h, s, i, k) && !x.done && x.holdActive && Hot(h[k], s)
    requires y.inWindow && y.done == (h[k].now - x.holdStart >= ALM_HOLD_MS) && (y.done ==> y.last == Passed)
    requires y.holdActive && y.holdStart == x.holdStart
    ensures Tracks(y, h, s, i, k + 1)
  {
    var m := k + 1;
    HeldByStep(h, s, i, k);
    var a: nat :| HoldBegan(h, s, i, a, k) && h[a].now == x.holdStart;
    forall c: nat ensures HotSince(h, s, c, m) <==> HotSince(h, s, c, k) || c == k { HotSinceStep(h, s, c, k); }
    HeldAtIffFromBeginning(h, s, i, a, k);
    hide HotSince, Held, HeldBy;
    assert HoldBegan(h, s, i, a, m);
  }

  lemma HeldAtIffFromBeginning(h: seq<Input>, s: AlmSettings, i: nat, a: nat, k: nat)
    requires i <= k < |h| && Chronological(h, i, k + 1) && HoldBegan(h, s, i, a, k) && Hot(h[k], s)
    ensures (exists c: nat :: i <= c < k && Held(h, s, c, k)) <==> h[k].now - h[a].now >= ALM_HOLD_MS
  {
    if h[k].now - h[a].now >= ALM_HOLD_MS { assert Held(h, s, a, k); }
    if c: nat :| i <= c < k && Held(h, s, c, k) {
      assert !(c < a);
    }
  }

  lemma InsideStep(x: Alm, h: seq<Input>, s: AlmSettings, i: nat, k: nat)
    requires i <= k < |h| && Enabled(s) && Inside(h[k], s) && Chronological(h, i, k + 1) && Tracks(x, h, s, i, k)
    ensures Tracks(Step(x, h[k]), h, s, i, k + 1)
  {
    hide InAlmWindow, HeldBy, Held, HotSince, HoldBegan, Enabled, Chronological;
    var y := Step(x, h[k]);
    if x.done && h[k].Cycle? {
      DoneTracks(x, y, h, s, i, k);
    } else if Cold(h[k], s) {
      ColdTracks(x, y, h, s, i, k);
    } else if !Hot(h[k], s) {
      NeutralTracks(x, y, h, s, i, k);
    } else if x.holdActive {
      HoldGoesOn(x, y, h, s, i, k);
    } else {
      HoldBegins(x, y, h, s, i, k);
    }
  }

  /** Input i is the cycle that opens a window. */
  predicate Opens(h: seq<Input>, xs: seq<Alm>, s: AlmSettings, i: nat)
    requires |xs| == |h| + 1 && i < |h|
  {
    h[i].Cycle? && Inside(h[i], s) && !xs[i].inWindow
  }

  lemma OpeningTracks(x: Alm, h: seq<Input>, s: AlmSettings, i: nat)
    requires i < |h| && Enabled(s) && h[i].Cycle? && Inside(h[i], s) && !x.inWindow
    ensures Tracks(Step(x, h[i]), h, s, i, i + 1)
  {
    var begun := x.(inWindow := true, done := false, holdActive := false);
    assert Tracks(begun, h, s, i, i) && Chronological(h, i, i + 1);
    InsideStep(begun, h, s, i, i);
    hide InAlmWindow, Tracks;
    assert Step(x, h[i]) == Step(begun, h[i]);
  }

  lemma {:induction false} TracksInside(h: seq<Input>, xs: seq<Alm>, s: AlmSettings, i: nat, k: nat)
    requires IsRun(h, xs) && i < k <= |h| && Enabled(s) && Opens(h, xs, s, i) && Chronological(h, i, k)
    requires forall j :: i <= j < k ==> Inside(h[j], s)
    ensures Tracks(xs[k], h, s, i, k)
  {
    hide Tracks, Inside, Enabled, Step;
    if k == i + 1 {
      OpeningTracks(xs[i], h, s, i);
    } else {
      TracksInside(h, xs, s, i, k - 1);
      InsideStep(xs[k - 1], h, s, i, k - 1);
    }
  }

  lemma {:induction false} ActiveUntilDone(h: seq<Input>, xs: seq<Alm>, s: AlmSettings, i: nat, k: nat)
    requires IsRun(h, xs) && i < k <= |h| && Enabled(s) && Opens(h, xs, s, i)
    requires forall j :: i <= j < k ==> Inside(h[j], s)
    ensures xs[k].active <==> !xs[k].done
    ensures xs[k].inWindow
  {
    hide InAlmWindow;
    assert xs[k] == Step(xs[k - 1], h[k - 1]) && Inside(h[k - 1], s);
    if k > i + 1 { ActiveUntilDone(h, xs, s, i, k - 1); }
  }

  /** Throughout the window the tank's target is raised to the disinfection temperature exactly until the tank has held
      it. */
  lemma RaisedUntilHeld(h: seq<Input>, xs: seq<Alm>, s: AlmSettings, i: nat, k: nat, tankTemp: real)
    requires IsRun(h, xs) && i < k <= |h| && Enabled(s) && Opens(h, xs, s, i) && Chronological(h, i, k)
    requires forall j :: i <= j < k ==> Inside(h[j], s)
    ensures xs[k].active <==> !HeldBy(h, s, i, k)
    ensures TankTarget(xs[k], s.temp, tankTemp) ==
            if !HeldBy(h, s, i, k) && s.temp > tankTemp then s.temp else tankTemp
  {
    TracksInside(h, xs, s, i, k);
    ActiveUntilDone(h, xs, s, i, k);
    hide InAlmWindow, HeldBy, Inside, Chronological;
  }

  /** A window ends "ok" if and only if the tank was hot at two readings 10 minutes apart and never read cold between
      them, otherwise "failed". The cycle k is the first one after the window. */
  lemma VerdictIffHeld(h: seq<Input>, xs: seq<Alm>, s: AlmSettings, i: nat, k: nat)
    requires IsRun(h, xs) && i < k < |h| && Enabled(s) && Opens(h, xs, s, i) && Chronological(h, i, k)
    requires forall j :: i <= j < k ==> Inside(h[j], s)
    requires h[k].Cycle? && h[k].settings == s && !InAlmWindow(s, h[k].clock)
    ensures xs[k + 1].last == if HeldBy(h, s, i, k) then Passed else Failed
  {
    TracksInside(h, xs, s, i, k);
    hide InAlmWindow, HeldBy, Inside, Chronological;
    assert xs[k + 1] == Step(xs[k], h[k]);
  }
}
