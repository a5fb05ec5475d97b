/** The weather-dependent supply curves, as the controller and the backend compute them. */
module WeatherCurve {
  const OUTDOOR_POINTS: seq<real> := [20.0, 10.0, 0.0, -10.0, -20.0, -35.0]

  const RADIATOR_CURVES: seq<seq<real>> := [
    [20.0, 29.0, 38.0, 44.0, 50.0, 55.0],
    [20.0, 32.5, 45.0, 52.5, 60.0, 67.0],
    [20.0, 34.0, 48.0, 56.0, 64.0, 70.0],
    [20.0, 36.5, 53.0, 61.5, 70.0, 78.0],
    [20.0, 39.0, 58.0, 67.0, 76.0, 85.0]
  ]

  const FLOOR_CURVES: seq<seq<real>> := [
    [20.0, 22.0, 24.0, 26.0, 28.0, 29.5],
    [20.0, 23.5, 27.0, 29.5, 32.0, 34.0],
    [20.0, 23.5, 27.0, 30.0, 33.0, 36.0],
    [20.0, 24.5, 29.0, 32.0, 35.0, 38.0],
    [20.0, 25.5, 31.0, 34.0, 37.0, 40.0]
  ]

  /** A supply temperature for each outdoor point, never falling as it gets colder. */
  predicate Curve(c: seq<real>) {
    |c| == 6 && forall i :: 0 <= i < 5 ==> c[i] <= c[i + 1]
  }

  predicate InSegment(outdoor: real, i: nat)
    requires i < 5
  {
    OUTDOOR_POINTS[i + 1] <= outdoor <= OUTDOOR_POINTS[i]
  }

  /** How far from the warm end of segment `i` the outdoor temperature lies. */
  function Fraction(outdoor: real, i: nat): (t: real)
    requires i < 5
    ensures InSegment(outdoor, i) ==> 0.0 <= t <= 1.0
  {
    (OUTDOOR_POINTS[i] - outdoor) / (OUTDOOR_POINTS[i] - OUTDOOR_POINTS[i + 1])
  }

  function Mix(a: real, b: real, t: real): real { a + t * (b - a) }

  function OnSegment(c: seq<real>, outdoor: real, i: nat): real
    requires |c| == 6 && i < 5
  {
    Mix(c[i], c[i + 1], Fraction(outdoor, i))
  }

  /** The segment loop from segment `i` on; falls through to the warm end. */
  function Search(c: seq<real>, outdoor: real, i: nat): real
    requires |c| == 6
    decreases 5 - i
  {
    if i >= 5 then c[0]
    else if InSegment(outdoor, i) then OnSegment(c, outdoor, i)
    else Search(c, outdoor, i + 1)
  }

  function Interpolate(c: seq<real>, outdoor: real): real
    requires |c| == 6
  {
    if outdoor >= OUTDOOR_POINTS[0] then c[0]
    else if outdoor <= OUTDOOR_POINTS[5] then c[5]
    else Search(c, outdoor, 0)
  }

  predicate Between(outdoor: real) { OUTDOOR_POINTS[5] < outdoor < OUTDOOR_POINTS[0] }

  /** First segment the loop stops at. */
  function SegmentOf(outdoor: real): (i: nat)
    requires Between(outdoor)
    ensures i < 5 && InSegment(outdoor, i)
    ensures forall j :: 0 <= j < i ==> !InSegment(outdoor, j)
  {
    if outdoor >= 10.0 then 0 else if outdoor >= 0.0 then 1 else if outdoor >= -10.0 then 2
    else if outdoor >= -20.0 then 3 else 4
  }

  lemma {:induction false} SearchFinds(c: seq<real>, outdoor: real, i: nat)
    requires |c| == 6 && Between(outdoor) && i <= SegmentOf(outdoor)
    ensures Search(c, outdoor, i) == OnSegment(c, outdoor, SegmentOf(outdoor))
    decreases 5 - i
  {
    if i < SegmentOf(outdoor) { SearchFinds(c, outdoor, i + 1); }
  }

  /** Between the outer points the loop always stops at a segment: its final return is never reached. */
  lemma AlwaysOnASegment(c: seq<real>, outdoor: real)
    requires |c| == 6 && Between(outdoor)
    ensures Interpolate(c, outdoor) == OnSegment(c, outdoor, SegmentOf(outdoor))
  {
    SearchFinds(c, outdoor, 0);
  }

  /** In segment i the supply temperature has risen in proportion to the fall of the outdoor one. */
  predicate OnLine(c: seq<real>, i: nat, outdoor: real, supply: real)
    requires |c| == 6 && i < 5
  {
    (supply - c[i]) * (OUTDOOR_POINTS[i] - OUTDOOR_POINTS[i + 1]) == (c[i + 1] - c[i]) * (OUTDOOR_POINTS[i] - outdoor)
  }

  /** At each of its points the curve gives the table's value, and between two of them it is the straight line. */
  lemma OnTheLine(c: seq<real>, outdoor: real, i: nat)
    requires |c| == 6 && i < 5 && InSegment(outdoor, i)
    ensures OnLine(c, i, outdoor, Interpolate(c, outdoor))
    ensures outdoor == OUTDOOR_POINTS[i] ==> Interpolate(c, outdoor) == c[i]
    ensures outdoor == OUTDOOR_POINTS[i + 1] ==> Interpolate(c, outdoor) == c[i + 1]
  {
    if Between(outdoor) { AlwaysOnASegment(c, outdoor); }
  }

  lemma MixMonotone(a: real, b: real, t: real, u: real)
    requires a <= b && t <= u
    ensures Mix(a, b, t) <= Mix(a, b, u)
  {
    assert Mix(a, b, u) - Mix(a, b, t) == (u - t) * (b - a);
  }

  lemma MixBetween(a: real, b: real, t: real, lo: real, hi: real)
    requires 0.0 <= t <= 1.0 && lo <= a <= hi && lo <= b <= hi
    ensures lo <= Mix(a, b, t) <= hi
  {
    MixEnds(lo, lo, a, b, t);
    MixEnds(a, b, hi, hi, t);
  }

  lemma MixEnds(a: real, b: real, c: real, d: real, t: real)
    requires 0.0 <= t <= 1.0 && a <= c && b <= d
    ensures Mix(a, b, t) <= Mix(c, d, t)
  {
    assert (1.0 - t) * (c - a) >= 0.0 && t * (d - b) >= 0.0;
    assert Mix(c, d, t) - Mix(a, b, t) == (1.0 - t) * (c - a) + t * (d - b);
  }

  lemma FractionFalls(colder: real, warmer: real, i: nat)
    requires i < 5 && colder <= warmer
    ensures Fraction(colder, i) >= Fraction(warmer, i)
  {
  }

  lemma SegmentBounds(c: seq<real>, outdoor: real, i: nat)
    requires Curve(c) && i < 5 && InSegment(outdoor, i)
    ensures c[i] <= OnSegment(c, outdoor, i) <= c[i + 1]
  {
    MixBetween(c[i], c[i + 1], Fraction(outdoor, i), c[i], c[i + 1]);
  }

  lemma {:induction false} RisesFromTo(c: seq<real>, i: nat, j: nat)
    requires Curve(c) && i <= j < 6
    ensures c[i] <= c[j]
  {
    if i < j { RisesFromTo(c, i, j - 1); }
  }

  /** The supply target stays within the end points of its curve. */
  lemma WithinEndPoints(c: seq<real>, outdoor: real)
    requires Curve(c)
    ensures c[0] <= Interpolate(c, outdoor) <= c[5]
  {
    RisesFromTo(c, 0, 5);
    if Between(outdoor) {
      var i := SegmentOf(outdoor);
      AlwaysOnASegment(c, outdoor);
      SegmentBounds(c, outdoor, i);
      RisesFromTo(c, 0, i);
      RisesFromTo(c, i + 1, 5);
    }
  }

  /** Colder outside never means a lower supply target. */
  lemma NonIncreasing(c: seq<real>, colder: real, warmer: real)
    requires Curve(c) && colder <= warmer
    ensures Interpolate(c, colder) >= Interpolate(c, warmer)
  {
    WithinEndPoints(c, colder);
    WithinEndPoints(c, warmer);
    if Between(colder) && Between(warmer) {
      var i, j := SegmentOf(colder), SegmentOf(warmer);
      AlwaysOnASegment(c, colder);
      AlwaysOnASegment(c, warmer);
      SegmentBounds(c, colder, i);
      SegmentBounds(c, warmer, j);
      if i == j {
        FractionFalls(colder, warmer, i);
        MixMonotone(c[i], c[i + 1], Fraction(warmer, i), Fraction(colder, i));
      } else {
        assert j < i;
        RisesFromTo(c, j + 1, i);
      }
    }
  }

  /** A curve that is nowhere below another one gives nowhere a lower target. */
  lemma OrderedCurves(c: seq<real>, d: seq<real>, outdoor: real)
    requires |c| == |d| == 6 && forall i :: 0 <= i < 6 ==> c[i] <= d[i]
    ensures Interpolate(c, outdoor) <= Interpolate(d, outdoor)
  {
    if Between(outdoor) {
      AlwaysOnASegment(c, outdoor);
      AlwaysOnASegment(d, outdoor);
      var i := SegmentOf(outdoor);
      MixEnds(c[i], c[i + 1], d[i], d[i + 1], Fraction(outdoor, i));
    }
  }

  /** The ten curves rise towards the cold, and a higher curve number never means a lower target. */
  lemma CurveTables(n: nat, m: nat, outdoor: real)
    requires n <= m < 5
    ensures Curve(RADIATOR_CURVES[n]) && Curve(FLOOR_CURVES[n])
    ensures Interpolate(RADIATOR_CURVES[n], outdoor) <= Interpolate(RADIATOR_CURVES[m], outdoor)
    ensures Interpolate(FLOOR_CURVES[n], outdoor) <= Interpolate(FLOOR_CURVES[m], outdoor)
  {
    OrderedCurves(RADIATOR_CURVES[n], RADIATOR_CURVES[m], outdoor);
    OrderedCurves(FLOOR_CURVES[n], FLOOR_CURVES[m], outdoor);
  }

  // ---- The backend's copy of the curve ----

  /** Python's rounding to an integer: nearest, ties to even. */
  function RoundHalfEven(x: real): int {
    var f := x.Floor;
    var rest := x - f as real;
    if rest < 0.5 || (rest == 0.5 && f % 2 == 0) then f else f + 1
  }

  function RoundTenth(x: real): real { RoundHalfEven(10.0 * x) as real / 10.0 }

  /** The backend's segment loop: it rounds what it finds. */
  function SearchPza(c: seq<real>, outdoor: real, i: nat): real
    requires |c| == 6
    decreases 5 - i
  {
    if i >= 5 then c[0]
    else if InSegment(outdoor, i) then RoundTenth(OnSegment(c, outdoor, i))
    else SearchPza(c, outdoor, i + 1)
  }

  function InterpolatePza(c: seq<real>, outdoor: real): real
    requires |c| == 6
  {
    if outdoor >= OUTDOOR_POINTS[0] then c[0]
    else if outdoor <= OUTDOOR_POINTS[5] then c[5]
    else SearchPza(c, outdoor, 0)
  }

  lemma {:induction false} SearchPzaRounds(c: seq<real>, outdoor: real, i: nat)
    requires |c| == 6 && Between(outdoor) && i <= SegmentOf(outdoor)
    ensures SearchPza(c, outdoor, i) == RoundTenth(Search(c, outdoor, i))
    decreases 5 - i
  {
    if i < SegmentOf(outdoor) { SearchPzaRounds(c, outdoor, i + 1); }
  }

  function Clamp(x: int, lo: int, hi: int): int {
    if x < lo then lo else if x > hi then hi else x
  }

  function PzaTarget(radiator: bool, curveIndex: int, outdoor: real): real {
    var curves := if radiator then RADIATOR_CURVES else FLOOR_CURVES;
    InterpolatePza(curves[Clamp(curveIndex - 1, 0, 4)], outdoor)
  }

  /** For every circuit, curve setting and outdoor temperature the backend is within 0.05 of the controller. */
  lemma BackendCloseToFirmware(radiator: bool, curveIndex: int, outdoor: real)
    ensures var curves := if radiator then RADIATOR_CURVES else FLOOR_CURVES;
            var firmware := Interpolate(curves[Clamp(curveIndex, 1, 5) - 1], outdoor);
            -0.05 <= PzaTarget(radiator, curveIndex, outdoor) - firmware <= 0.05
  {
    var curves := if radiator then RADIATOR_CURVES else FLOOR_CURVES;
    if Between(outdoor) { SearchPzaRounds(curves[Clamp(curveIndex, 1, 5) - 1], outdoor, 0); }
  }

  // ---- The controller's low-pass of the outdoor reading ----

  const OUTDOOR_TTL_MS: nat := 900_000
  const INDOOR_TTL_MS: nat := 600_000

  /** The outdoor part of the weather controller. */
  datatype Outdoor = Outdoor(has: bool, temp: real, smooth: real, at: nat)

  const NO_OUTDOOR := Outdoor(false, 0.0, 0.0, 0)

  /** A reading taken at `at` while the building's time constant is `tauHours`. */
  datatype Reading = Reading(at: nat, temp: real, tauHours: real)

  predicate Restarts(s: Outdoor, r: Reading)
    requires s.at <= r.at
  {
    !s.has || r.tauHours <= 0.0 || r.at - s.at >= OUTDOOR_TTL_MS
  }

  function Weight(gap: nat, tauHours: real): (w: real)
    requires tauHours > 0.0
    ensures 0.0 <= w <= 1.0
  {
    gap as real / (tauHours * 3_600_000.0 + gap as real)
  }

  function Smoothed(s: Outdoor, r: Reading): real
    requires s.at <= r.at
  {
    if Restarts(s, r) then r.temp
    else
      Mix(s.smooth, r.temp, Weight(r.at - s.at, r.tauHours))
  }

  function Read(s: Outdoor, r: Reading): Outdoor
    requires s.at <= r.at
  {
    Outdoor(true, r.temp, Smoothed(s, r), r.at)
  }

  /** The filter is the low-pass of the time constant: the change over a gap is to the distance still left as the gap
      is to the constant. It starts afresh at the reading itself, after 15 minutes without one or without a constant. */
  lemma LowPass(s: Outdoor, r: Reading)
    requires s.at <= r.at
    ensures var u, gap := Read(s, r), (r.at - s.at) as real;
            && u.has && u.temp == r.temp && u.at == r.at
            && (!s.has || r.tauHours <= 0.0 || r.at - s.at >= 15 * 60 * 1000 ==> u.smooth == r.temp)
            && (s.has && r.tauHours > 0.0 && r.at - s.at < 15 * 60 * 1000 ==>
                  (u.smooth - s.smooth) * (r.tauHours * 3_600_000.0) == (r.temp - u.smooth) * gap)
  {
    if !Restarts(s, r) {
      WeightedStep(s.smooth, r.temp, r.tauHours * 3_600_000.0, (r.at - s.at) as real);
    }
  }

  lemma WeightedStep(from: real, to: real, tau: real, gap: real)
    requires tau > 0.0 && gap >= 0.0
    ensures (Mix(from, to, gap / (tau + gap)) - from) * tau == (to - Mix(from, to, gap / (tau + gap))) * gap
  {
    var w := gap / (tau + gap);
    assert w * (tau + gap) == gap;
    var d := to - from;
    assert (w * d) * tau == (w * tau) * d && (d - w * d) * gap == (gap - w * gap) * d;
  }

  predicate Chronological(h: seq<Reading>) {
    forall i, j :: 0 <= i < j < |h| ==> h[i].at <= h[j].at
  }

  /** The filter after the readings `h` since boot. */
  function After(h: seq<Reading>): (s: Outdoor)
    requires Chronological(h)
    ensures s.at == if h == [] then 0 else h[|h| - 1].at
    ensures s.has <==> h != []
  {
    if h == [] then NO_OUTDOOR else Read(After(h[..|h| - 1]), h[|h| - 1])
  }

  lemma StillChronological(h: seq<Reading>, r: Reading)
    requires Chronological(h) && (h != [] ==> h[|h| - 1].at <= r.at)
    ensures Chronological(h + [r])
  {
    var g := h + [r];
    forall i, j | 0 <= i < j < |g| ensures g[i].at <= g[j].at {
      assert i < |h| - 1 ==> h[i].at <= h[|h| - 1].at;
    }
  }

  lemma OneMore(h: seq<Reading>, r: Reading)
    requires Chronological(h) && After(h).at <= r.at
    ensures Chronological(h + [r]) && After(h + [r]) == Read(After(h), r)
  {
    hide Read, Chronological;
    StillChronological(h, r);
    var g := h + [r];
    assert g[..|g| - 1] == h && g[|g| - 1] == r && g != [];
  }

  /** Index of the reading at which the filter last started afresh. */
  function LastRestart(h: seq<Reading>): (i: nat)
    requires Chronological(h) && h != []
    ensures i < |h|
  {
    var n := |h| - 1;
    if Restarts(After(h[..n]), h[n]) then n else LastRestart(h[..n])
  }

  lemma {:induction false} LastRestartIsLast(h: seq<Reading>, j: nat)
    requires Chronological(h) && h != [] && LastRestart(h) <= j < |h|
    ensures Restarts(After(h[..j]), h[j]) <==> j == LastRestart(h)
  {
    var n := |h| - 1;
    if j < n {
      assert h[..n][..j] == h[..j];
      LastRestartIsLast(h[..n], j);
    }
  }

  /** The smoothed temperature never leaves the range of the readings since the last restart. */
  lemma {:induction false} SmoothWithinReadings(h: seq<Reading>, lo: real, hi: real)
    requires Chronological(h) && h != []
    requires forall i :: LastRestart(h) <= i < |h| ==> lo <= h[i].temp <= hi
    ensures lo <= After(h).smooth <= hi
  {
    var n := |h| - 1;
    var g := h[..n];
    var r := h[n];
    if !Restarts(After(g), r) {
      assert LastRestart(h) == LastRestart(g);
      SmoothWithinReadings(g, lo, hi);
      MixBetween(After(g).smooth, r.temp, Weight(r.at - After(g).at, r.tauHours), lo, hi);
    }
  }

  function Distance(x: real, y: real): real { if x < y then y - x else x - y }

  /** After time t, x is as close to temp as the time constant's share of tau + t of the distance at the start. */
  predicate Approached(x: real, temp: real, tau: real, t: real, start: real) {
    Distance(x, temp) * (tau + t) <= start * tau
  }

  lemma LeftOver(from: real, to: real, temp: real, tau: real, gap: real, before: real, start: real)
    requires tau > 0.0 && gap >= 0.0 && before >= 0.0
    requires (to - from) * tau == (temp - to) * gap
    requires Approached(from, temp, tau, before, start)
    ensures Approached(to, temp, tau, before + gap, start)
  {
    var e, f := Distance(from, temp), Distance(to, temp);
    assert (to - temp) * (tau + gap) == (from - temp) * tau;
    SameSign(to - temp, from - temp, tau + gap, tau);
    assert f * (tau + gap) == e * tau;
    assert f <= e by { assert f * gap >= 0.0; Shrinks(f, e, tau); }
    assert f * before <= e * before by { assert (e - f) * before >= 0.0; }
    assert f * (tau + before + gap) == f * (tau + gap) + f * before;
    assert e * (tau + before) == e * tau + e * before;
  }

  lemma SameSign(x: real, y: real, a: real, b: real)
    requires a > 0.0 && b > 0.0 && x * a == y * b
    ensures x >= 0.0 <==> y >= 0.0
  {
    if x >= 0.0 { assert x * a >= 0.0; }
    if y >= 0.0 { assert y * b >= 0.0; }
    if x < 0.0 { assert x * a < 0.0; }
    if y < 0.0 { assert y * b < 0.0; }
  }

  lemma Shrinks(f: real, e: real, tau: real)
    requires tau > 0.0 && f * tau <= e * tau
    ensures f <= e
  {
    assert f > e ==> (f - e) * tau > 0.0;
  }

  lemma SteadyStep(s: Outdoor, r: Reading, begin: nat, start: real)
    requires s.at <= r.at && !Restarts(s, r) && begin <= s.at
    requires Approached(s.smooth, r.temp, r.tauHours * 3_600_000.0, (s.at - begin) as real, start)
    ensures Approached(Read(s, r).smooth, r.temp, r.tauHours * 3_600_000.0, (r.at - begin) as real, start)
  {
    LowPass(s, r);
    LeftOver(s.smooth, Read(s, r).smooth, r.temp, r.tauHours * 3_600_000.0, (r.at - s.at) as real,
             (s.at - begin) as real, start);
  }

  lemma NothingLeft(x: real, temp: real, tau: real)
    ensures Approached(x, temp, tau, 0.0, Distance(x, temp))
  {
  }

  /** Steady weather is reached: after equal readings over a time t, what is left of the distance is at most the time
      constant's share of the constant and t. */
  lemma {:induction false} SteadyWeatherReached(h: seq<Reading>, i: nat, temp: real, tauHours: real)
    requires Chronological(h) && h != [] && LastRestart(h) <= i < |h| && tauHours > 0.0
    requires forall j :: i < j < |h| ==> h[j].temp == temp && h[j].tauHours == tauHours
    ensures Approached(After(h).smooth, temp, tauHours * 3_600_000.0, (h[|h| - 1].at - h[i].at) as real,
                       Distance(After(h[..i + 1]).smooth, temp))
  {
    hide Restarts, Read, Distance, Approached;
    var n := |h| - 1;
    var g := h[..n];
    if i == n {
      assert h[..i + 1] == h;
      NothingLeft(After(h).smooth, temp, tauHours * 3_600_000.0);
    } else {
      assert !Restarts(After(g), h[n]) by { assert LastRestart(h) < n; }
      assert g[..i + 1] == h[..i + 1];
      SteadyWeatherReached(g, i, temp, tauHours);
      SteadyStep(After(g), h[n], h[i].at, Distance(After(h[..i + 1]).smooth, temp));
    }
  }

  /** So the weather target lies between the targets of the extremes of those readings. */
  lemma TargetWithinReadings(c: seq<real>, h: seq<Reading>, lo: real, hi: real)
    requires Curve(c) && Chronological(h) && h != []
    requires forall i :: LastRestart(h) <= i < |h| ==> lo <= h[i].temp <= hi
    ensures Interpolate(c, hi) <= Interpolate(c, After(h).smooth) <= Interpolate(c, lo)
  {
    SmoothWithinReadings(h, lo, hi);
    NonIncreasing(c, lo, After(h).smooth);
    NonIncreasing(c, After(h).smooth, hi);
  }

  /** What the weather controller holds. */
  datatype Weather = Weather(radWbm: bool, radCurve: nat, floorWbm: bool, floorCurve: nat, filterHours: real,
                             outdoor: Outdoor, hasIndoor: bool, indoorTemp: real, indoorAt: nat)
  {
    predicate Valid() { 1 <= radCurve <= 5 && 1 <= floorCurve <= 5 && filterHours >= 0.0 }

    predicate OutdoorFresh(now: nat) { outdoor.has && now - outdoor.at < OUTDOOR_TTL_MS }

    predicate IndoorFresh(now: nat) { hasIndoor && now - indoorAt < INDOOR_TTL_MS }

    /** Supply target of the radiator curve; -1 without the curve or without a fresh outdoor reading. */
    function RadiatorTarget(now: nat): real
      requires Valid()
    {
      if !radWbm || !OutdoorFresh(now) then -1.0 else Interpolate(RADIATOR_CURVES[radCurve - 1], outdoor.smooth)
    }

    function FloorTarget(now: nat): real
      requires Valid()
    {
      if !floorWbm || !OutdoorFresh(now) then -1.0 else Interpolate(FLOOR_CURVES[floorCurve - 1], outdoor.smooth)
    }
  }

  /** Both circuits' targets from nothing but the readings: without their curve switched on or without an outdoor
      reading of the last 15 minutes none; else the smoothed temperature's place on their line. */
  lemma TargetsFollowWeather(w: Weather, now: nat, i: nat)
    requires w.Valid() && i < 5
    ensures var known, o := w.outdoor.has && now - w.outdoor.at < 15 * 60 * 1000, w.outdoor.smooth;
            var r, f := w.RadiatorTarget(now), w.FloorTarget(now);
            var rc, fc := RADIATOR_CURVES[w.radCurve - 1], FLOOR_CURVES[w.floorCurve - 1];
            && (r >= 0.0 <==> w.radWbm && known) && (f >= 0.0 <==> w.floorWbm && known)
            && (r >= 0.0 && OUTDOOR_POINTS[i + 1] <= o <= OUTDOOR_POINTS[i] ==> OnLine(rc, i, o, r))
            && (f >= 0.0 && OUTDOOR_POINTS[i + 1] <= o <= OUTDOOR_POINTS[i] ==> OnLine(fc, i, o, f))
            && (r >= 0.0 && o >= 20.0 ==> r == 20.0) && (r >= 0.0 && o <= -35.0 ==> r == rc[5])
            && (f >= 0.0 && o >= 20.0 ==> f == 20.0) && (f >= 0.0 && o <= -35.0 ==> f == fc[5])
  {
    hide Interpolate, OnLine;
    CurveTables(w.radCurve - 1, w.radCurve - 1, w.outdoor.smooth);
    CurveTables(w.floorCurve - 1, w.floorCurve - 1, w.outdoor.smooth);
    OneTarget(RADIATOR_CURVES[w.radCurve - 1], w.outdoor.smooth, i);
    OneTarget(FLOOR_CURVES[w.floorCurve - 1], w.outdoor.smooth, i);
  }

  lemma OneTarget(c: seq<real>, outdoor: real, i: nat)
    requires Curve(c) && c[0] == 20.0 && i < 5
    ensures var t := Interpolate(c, outdoor);
            && t >= 20.0 && (InSegment(outdoor, i) ==> OnLine(c, i, outdoor, t))
            && (outdoor >= 20.0 ==> t == 20.0) && (outdoor <= -35.0 ==> t == c[5])
  {
    hide Interpolate, OnLine;
    WithinEndPoints(c, outdoor);
    OuterEnds(c, outdoor);
    if InSegment(outdoor, i) { OnTheLine(c, outdoor, i); }
  }

  lemma OuterEnds(c: seq<real>, outdoor: real)
    requires |c| == 6
    ensures outdoor >= 20.0 ==> Interpolate(c, outdoor) == c[0]
    ensures outdoor <= -35.0 ==> Interpolate(c, outdoor) == c[5]
  {
  }

  class PZAController {
    var radWbm: bool
    var radCurve: nat
    var floorWbm: bool
    var floorCurve: nat
    var outdoorTemp: real
    var outdoorSmooth: real
    var filterHours: real
    var hasOutdoor: bool
    var outdoorAt: nat
    var indoorTemp: real
    var hasIndoor: bool
    var indoorAt: nat

    function View(): Weather
      reads this
    {
      Weather(radWbm, radCurve, floorWbm, floorCurve, filterHours,
              Outdoor(hasOutdoor, outdoorTemp, outdoorSmooth, outdoorAt), hasIndoor, indoorTemp, indoorAt)
    }

    constructor ()
      ensures View() == Weather(false, 3, false, 3, 4.0, NO_OUTDOOR, false, 0.0, 0)
      ensures View().Valid()
    {
      radWbm, radCurve, floorWbm, floorCurve := false, 3, false, 3;
      outdoorTemp, outdoorSmooth, filterHours, hasOutdoor, outdoorAt := 0.0, 0.0, 4.0, false, 0;
      indoorTemp, hasIndoor, indoorAt := 0.0, false, 0;
    }

    method SetOutdoorTemp(temp: real, now: nat)
      requires outdoorAt <= now
      modifies this`outdoorTemp, this`outdoorSmooth, this`hasOutdoor, this`outdoorAt
      ensures View().outdoor == Read(old(View().outdoor), Reading(now, temp, filterHours))
    {
      var gap := now - outdoorAt;
      var tauMs := filterHours * 3_600_000.0;
      if !hasOutdoor || tauMs <= 0.0 || gap >= OUTDOOR_TTL_MS {
        outdoorSmooth := temp;
      } else {
        outdoorSmooth := outdoorSmooth + gap as real / (tauMs + gap as real) * (temp - outdoorSmooth);
      }
      outdoorTemp := temp;
      hasOutdoor := true;
      outdoorAt := now;
    }

    method SetIndoorTemp(temp: real, now: nat)
      modifies this`indoorTemp, this`hasIndoor, this`indoorAt
      ensures View() == old(View()).(hasIndoor := true, indoorTemp := temp, indoorAt := now)
    {
      indoorTemp := temp;
      hasIndoor := true;
      indoorAt := now;
    }
  }
}
