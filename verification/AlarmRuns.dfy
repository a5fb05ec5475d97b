/** The alarm tracker over whole runs of polls: when alarms are raised and cleared, and the rules' feedback. */
module AlarmRuns {
  import opened Options
  import opened AlarmTracking
  import opened AlarmRules

  /** The arguments of one update. */
  datatype Poll = Poll(alarms: seq<Alarm>, now: real, hold: Hold)

  function Step(t: Tracker, p: Poll): Outcome { Update(t, p.alarms, p.now, p.hold) }

  /** `ts` are the states of the tracker before and after each of the polls `h`. */
  predicate IsRun(h: seq<Poll>, ts: seq<Tracker>) {
    |ts| == |h| + 1 && ts[0] == EMPTY && forall j :: 0 <= j < |h| ==> ts[j + 1] == Step(ts[j], h[j]).t
  }

  lemma {:induction false} RunIsSound(h: seq<Poll>, ts: seq<Tracker>, k: nat)
    requires IsRun(h, ts) && k <= |h|
    ensures Sound(ts[k])
  {
    if k > 0 {
      var p := h[k - 1];
      RunIsSound(h, ts, k - 1);
      UpdateSound(ts[k - 1], p.alarms, p.now, p.hold);
    }
  }

  // ---- One update, one code ----

  function FirstSeen(t: Tracker, c: string, now: real): real { if c in t.pending then t.pending[c].since else now }

  /** What going through the seen alarms can do to one code. */
  ghost predicate SeenEffect(t: Tracker, d: seq<Alarm>, now: real, p: Progress, c: string) {
    && (c in p.t.pending ==> p.t.pending[c].since == FirstSeen(t, c, now) && (c in t.pending || c in Codes(d)))
    && (c in p.raised && c !in t.active ==>
          exists i :: 0 <= i < |d| && d[i].code == c && now - FirstSeen(t, c, now) >= d[i].delay)
    && (c !in Codes(d) ==> c !in p.raised && (c in p.t.active <==> c in t.active)
                           && (c in t.active ==> p.t.active[c] == t.active[c]))
    && (c in p.t.absent <==> c in t.absent && c !in Codes(d))
    && (c in p.t.absent ==> p.t.absent[c] == t.absent[c])
    && (c in t.active ==> c in p.t.active)
    && (c in p.t.active && c !in t.active ==> c in p.raised)
    && (c in t.pending && c !in p.t.active ==> c in p.t.pending)
  }

  lemma {:induction false} SeeAllEffect(t: Tracker, d: seq<Alarm>, now: real, c: string)
    requires Sound(t)
    ensures SeenEffect(t, d, now, SeeAll(t, d, now), c)
  {
    if d != [] {
      var n := |d| - 1;
      SeeAllEffect(t, d[..n], now, c);
      SeeAllSound(t, d[..n], now);
      assert d == d[..n] + [d[n]];
      assert Codes(d) == Codes(d[..n]) + {d[n].code};
      SeeEffect(t, d, now, SeeAll(t, d[..n], now), c);
    }
  }

  /** Going through one alarm leaves every other code alone. */
  lemma SeeOther(p: Progress, a: Alarm, now: real, c: string)
    requires c != a.code
    ensures var q := See(p, a, now);
            && (c in q.t.active <==> c in p.t.active) && (c in p.t.active ==> q.t.active[c] == p.t.active[c])
            && (c in q.t.pending <==> c in p.t.pending) && (c in p.t.pending ==> q.t.pending[c] == p.t.pending[c])
            && (c in q.t.absent <==> c in p.t.absent) && (c in p.t.absent ==> q.t.absent[c] == p.t.absent[c])
            && (c in q.raised <==> c in p.raised)
  {
  }

  lemma SeeEffect(t: Tracker, d: seq<Alarm>, now: real, p: Progress, c: string)
    requires d != [] && Sound(t) && SoundProgress(p, t)
    requires SeenEffect(t, d[..|d| - 1], now, p, c) && Codes(d) == Codes(d[..|d| - 1]) + {d[|d| - 1].code}
    ensures SeenEffect(t, d, now, See(p, d[|d| - 1], now), c)
  {
    hide Codes;
    var n := |d| - 1;
    assert forall i :: 0 <= i < n ==> d[..n][i] == d[i];
    if c != d[n].code {
      SeeOther(p, d[n], now, c);
      hide See, SoundProgress, Sound;
      assert SeenEffect(t, d, now, See(p, d[n], now), c);
    } else {
      hide SoundProgress;
      var q := See(p, d[n], now);
      if c in q.raised && c !in t.active && c !in p.raised {
        assert d[n].code == c && now - FirstSeen(t, c, now) >= d[n].delay;
      }
    }
  }

  /** Going through one alarm decides its code: an active one takes the new value, and is news if it got worse; an
      inactive one is raised once its delay is over, and waits otherwise. */
  ghost predicate Decided(t: Tracker, a: Alarm, now: real, p: Progress) {
    var since := FirstSeen(t, a.code, now);
    if a.code in t.active then
      && a.code in p.t.active && p.t.active[a.code] == a && a.code !in p.t.pending
      && (a.code in p.raised <==> Rank(a.level) > Rank(t.active[a.code].level))
    else if now - since >= a.delay then
      && a.code in p.t.active && p.t.active[a.code] == a && a.code in p.raised && a.code !in p.t.pending
    else
      && a.code !in p.t.active && a.code !in p.raised
      && a.code in p.t.pending && p.t.pending[a.code] == Wait(since, a)
  }

  lemma {:induction false} SeenDecided(t: Tracker, d: seq<Alarm>, now: real, m: nat)
    requires Sound(t) && m < |d| && forall j :: 0 <= j < |d| && j != m ==> d[j].code != d[m].code
    ensures Decided(t, d[m], now, SeeAll(t, d, now))
  {
    var n := |d| - 1;
    var p := SeeAll(t, d[..n], now);
    if m == n {
      SeeAllEffect(t, d[..n], now, d[m].code);
      SeeAllSound(t, d[..n], now);
      LastDecided(t, d[..n], d[m], now, p);
    } else {
      SeenDecided(t, d[..n], now, m);
      SeeOther(p, d[n], now, d[m].code);
    }
  }

  lemma LastDecided(t: Tracker, d: seq<Alarm>, a: Alarm, now: real, p: Progress)
    requires Sound(t) && SoundProgress(p, t) && SeenEffect(t, d, now, p, a.code) && a.code !in Codes(d)
    ensures Decided(t, a, now, See(p, a, now))
  {
  }

  /** Of the alarms with code c, the n-th is the last: the one a dictionary by code keeps. */
  predicate NamedLast(alarms: seq<Alarm>, c: string, n: nat) {
    n < |alarms| && alarms[n].code == c && forall m :: n < m < |alarms| ==> alarms[m].code != c
  }

  lemma {:induction false} DictKeepsLast(alarms: seq<Alarm>, c: string) returns (n: nat, m: nat)
    requires c in Codes(alarms)
    ensures NamedLast(alarms, c, n) && m < |Dict(alarms)| && Dict(alarms)[m] == alarms[n]
  {
    var l := |alarms| - 1;
    if alarms[l].code == c {
      n := l;
      m := if c in Codes(Dict(alarms[..l])) then Position(Dict(alarms[..l]), c) else |Dict(alarms)| - 1;
    } else {
      assert alarms == alarms[..l] + [alarms[l]];
      n, m := DictKeepsLast(alarms[..l], c);
    }
  }

  // ---- Raising ----

  /** Code c was seen in every poll from the i-th to the k-th. */
  predicate SeenFrom(h: seq<Poll>, c: string, i: nat, k: nat)
    requires k < |h|
  {
    forall j :: i <= j <= k ==> c in Codes(h[j].alarms)
  }

  /** Code c was seen at poll j, without being active before or raised by it. */
  predicate Waits(h: seq<Poll>, ts: seq<Tracker>, c: string, j: nat)
    requires |ts| == |h| + 1 && j < |h|
  {
    c in Codes(h[j].alarms) && c !in ts[j].active && c !in Step(ts[j], h[j]).raised
  }

  /** The wait that poll k ends or continues began at poll i: c waits at every poll from i to k, and did not before. */
  ghost predicate WaitBegan(h: seq<Poll>, ts: seq<Tracker>, c: string, i: nat, k: nat)
    requires |ts| == |h| + 1 && k < |h|
  {
    i <= k && (forall j :: i <= j < k ==> Waits(h, ts, c, j)) && (i == 0 || !Waits(h, ts, c, i - 1))
  }

  lemma PollDecides(t: Tracker, p: Poll, c: string) returns (n: nat)
    requires Sound(t) && c in Codes(p.alarms)
    ensures NamedLast(p.alarms, c, n)
    ensures Decided(t, p.alarms[n], p.now, SeeAll(t, Dict(p.alarms), p.now))
  {
    var m;
    n, m := DictKeepsLast(p.alarms, c);
    SeenDecided(t, Dict(p.alarms), p.now, m);
  }

  /** What an update leaves waiting. */
  lemma StillWaits(t: Tracker, p: Poll, c: string)
    requires Sound(t)
    ensures c in Step(t, p).t.pending <==>
              c in Codes(p.alarms) && c !in t.active && c !in Step(t, p).raised
    ensures c in Step(t, p).t.pending ==> Step(t, p).t.pending[c].since == FirstSeen(t, c, p.now)
  {
    if c in Codes(p.alarms) {
      var n := PollDecides(t, p, c);
    }
  }

  lemma {:induction false} WaitStart(h: seq<Poll>, ts: seq<Tracker>, k: nat, c: string) returns (i: nat)
    requires IsRun(h, ts) && k < |h|
    ensures WaitBegan(h, ts, c, i, k) && h[i].now == FirstSeen(ts[k], c, h[k].now)
  {
    hide Update, Sound, Codes;
    i := k;
    if k > 0 {
      RunIsSound(h, ts, k - 1);
      StillWaits(ts[k - 1], h[k - 1], c);
      if Waits(h, ts, c, k - 1) {
        i := WaitStart(h, ts, k - 1, c);
      }
    }
  }

  /** Exactly when something is news. An inactive code is raised at poll k if and only if poll k shows it and the wait
      that led there began at least its delay ago, the delay being that of the last alarm poll k names for it. An
      active one is if and only if poll k shows it at a higher level. */
  lemma RaisedIffDue(h: seq<Poll>, ts: seq<Tracker>, k: nat, c: string) returns (i: nat, n: nat)
    requires IsRun(h, ts) && k < |h|
    ensures WaitBegan(h, ts, c, i, k)
    ensures c in Codes(h[k].alarms) ==> NamedLast(h[k].alarms, c, n)
    ensures c in Step(ts[k], h[k]).raised <==>
              (c in Codes(h[k].alarms) &&
               (if c in ts[k].active then Rank(h[k].alarms[n].level) > Rank(ts[k].active[c].level)
                else h[k].now - h[i].now >= h[k].alarms[n].delay))
  {
    RunIsSound(h, ts, k);
    i := WaitStart(h, ts, k, c);
    n := 0;
    if c in Codes(h[k].alarms) {
      n := PollDecides(ts[k], h[k], c);
    } else {
      SeeAllEffect(ts[k], Dict(h[k].alarms), h[k].now, c);
    }
  }

  ghost predicate Booked(t: Tracker, now: real, p: Progress, c: string)
    requires Sound(t) && Sound(p.t)
  {
    && (c in p.t.acked <==> c in t.acked && c !in p.raised)
    && (c in p.t.active ==> p.t.since[c] == if c in t.active then t.since[c] else now)
  }

  lemma SeeBooked(t: Tracker, p: Progress, a: Alarm, now: real, c: string)
    requires Sound(t) && SoundProgress(p, t) && Sound(See(p, a, now).t) && Booked(t, now, p, c)
    ensures Booked(t, now, See(p, a, now), c)
  {
  }

  lemma {:induction false} SeeAllBooked(t: Tracker, d: seq<Alarm>, now: real, c: string)
    requires Sound(t)
    ensures Sound(SeeAll(t, d, now).t) && Booked(t, now, SeeAll(t, d, now), c)
  {
    hide Codes, See, Sound, Booked;
    SeeAllSound(t, d, now);
    if d != [] {
      var n := |d| - 1;
      SeeAllSound(t, d[..n], now);
      SeeAllBooked(t, d[..n], now, c);
      SeeBooked(t, SeeAll(t, d[..n], now), d[n], now, c);
    } else {
      NothingBooked(t, now, c);
    }
  }

  lemma NothingBooked(t: Tracker, now: real, c: string)
    requires Sound(t)
    ensures Booked(t, now, Progress(t, map[], {}), c)
  {
  }

  /** An acknowledgement lasts until the alarm is news again or ends; an alarm keeps the time it became active, and
      shows what the last poll that saw it named. */
  lemma BooksKept(t: Tracker, p: Poll, c: string) returns (n: nat)
    requires Sound(t)
    ensures var o := Step(t, p);
            && Sound(o.t)
            && (c in o.t.acked <==> c in t.acked && c in o.t.active && c !in o.raised)
            && (c in o.t.active ==> o.t.since[c] == if c in t.active then t.since[c] else p.now)
    ensures c in Codes(p.alarms) ==> NamedLast(p.alarms, c, n)
    ensures var u := Step(t, p).t;
            c in u.active ==>
              if c in Codes(p.alarms) then u.active[c] == p.alarms[n]
              else c in t.active && u.active[c] == t.active[c]
  {
    hide Held, Groups, Codes;
    UpdateSound(t, p.alarms, p.now, p.hold);
    SeeAllBooked(t, Dict(p.alarms), p.now, c);
    n := 0;
    if c in Codes(p.alarms) {
      n := PollDecides(t, p, c);
    } else {
      SeeAllEffect(t, Dict(p.alarms), p.now, c);
    }
  }

  /** A new alarm is raised only after its condition was seen in every poll for at least its delay. */
  lemma RaisedAfterDelay(h: seq<Poll>, ts: seq<Tracker>, k: nat, c: string) returns (i: nat, a: Alarm)
    requires IsRun(h, ts) && k < |h| && c in Step(ts[k], h[k]).raised && c !in ts[k].active
    ensures i <= k && SeenFrom(h, c, i, k)
    ensures a in h[k].alarms && a.code == c && h[k].now - h[i].now >= a.delay
  {
    hide Update, Codes;
    var n;
    i, n := RaisedIffDue(h, ts, k, c);
    a := h[k].alarms[n];
    forall j | i <= j < k ensures c in Codes(h[j].alarms) { assert Waits(h, ts, c, j); }
  }

  // ---- Clearing ----

  /** Active before the update, not seen and not held. */
  predicate AbsentNow(t: Tracker, p: Poll, c: string) {
    c in t.active && c !in Codes(p.alarms) && !Held(t.active[c], c, p.hold, Groups(Step(t, p).t.pending))
  }

  /** At poll j code c was active, not seen and not held. */
  predicate AbsentAt(h: seq<Poll>, ts: seq<Tracker>, c: string, j: nat)
    requires |ts| == |h| + 1 && j < |h|
  {
    AbsentNow(ts[j], h[j], c)
  }

  predicate AbsentFrom(h: seq<Poll>, ts: seq<Tracker>, c: string, i: nat, k: nat)
    requires |ts| == |h| + 1 && k < |h|
  {
    forall j :: i <= j <= k ==> AbsentAt(h, ts, c, j)
  }

  function FirstAbsent(t: Tracker, c: string, now: real): real { if c in t.absent then t.absent[c] else now }

  /** Replaced within its group in this update. */
  predicate Replaced(t: Tracker, p: Poll, c: string) { c in SeeAll(t, Dict(p.alarms), p.now).replaced }

  /** What an update makes of a code active before, not seen and not held: it is cleared after two minutes of that, and
      until then the time since when is kept. */
  lemma AbsenceOf(t: Tracker, p: Poll, c: string)
    requires Sound(t)
    ensures var o, due := Step(t, p), AbsentNow(t, p, c) && p.now - FirstAbsent(t, c, p.now) >= 120.0;
            && (c in o.cleared <==> Replaced(t, p, c) || due)
            && (c in o.t.absent <==> AbsentNow(t, p, c) && !Replaced(t, p, c) && !due)
            && (c in o.t.absent ==> o.t.absent[c] == FirstAbsent(t, c, p.now))
  {
    SeeAllEffect(t, Dict(p.alarms), p.now, c);
    SeeAllSound(t, Dict(p.alarms), p.now);
    SettledAbsence(SeeAll(t, Dict(p.alarms), p.now), Codes(p.alarms), p.hold, p.now, c);
  }

  lemma SettledAbsence(p: Progress, seen: set<string>, hold: Hold, now: real, c: string)
    requires Sound(p.t) && (c in p.t.absent ==> c !in seen) && p.replaced <= p.t.active.Keys
    ensures var o := Settle(p, seen, hold, now);
            var gone := c in p.t.active && c !in seen && !Held(p.t.active[c], c, hold, Groups(o.t.pending));
            var due := gone && now - FirstAbsent(p.t, c, now) >= 120.0;
            && (c in o.cleared <==> c in p.replaced || due)
            && (c in o.t.absent <==> gone && c !in p.replaced && !due)
            && (c in o.t.absent ==> o.t.absent[c] == FirstAbsent(p.t, c, now))
  {
    hide Held, Groups;
  }

  /** The absence that poll k ends or continues began at poll i. */
  ghost predicate AbsenceBegan(h: seq<Poll>, ts: seq<Tracker>, c: string, i: nat, k: nat)
    requires |ts| == |h| + 1 && k < |h|
  {
    i <= k && AbsentFrom(h, ts, c, i, k) && (i == 0 || !AbsentAt(h, ts, c, i - 1))
  }

  /** An absence has lasted, unseen and not held, through every poll since it was noted. */
  lemma {:induction false} AbsentSince(h: seq<Poll>, ts: seq<Tracker>, k: nat, c: string) returns (i: nat)
    requires IsRun(h, ts) && k < |h| && AbsentAt(h, ts, c, k)
    ensures AbsenceBegan(h, ts, c, i, k) && h[i].now == FirstAbsent(ts[k], c, h[k].now)
  {
    hide Update, Held, Groups, Codes, Sound;
    i := k;
    if k > 0 {
      RunIsSound(h, ts, k - 1);
      AbsenceOf(ts[k - 1], h[k - 1], c);
      UpdateSound(ts[k - 1], h[k - 1].alarms, h[k - 1].now, h[k - 1].hold);
      if AbsentAt(h, ts, c, k - 1) {
        i := AbsentSince(h, ts, k - 1, c);
      }
    }
  }

  /** Exactly when an alarm is cleared: when another of its group took over, or when the absence that poll k is part of
      began two minutes ago. */
  lemma ClearedIffAbsent(h: seq<Poll>, ts: seq<Tracker>, k: nat, c: string) returns (i: nat)
    requires IsRun(h, ts) && k < |h|
    ensures AbsentAt(h, ts, c, k) ==> AbsenceBegan(h, ts, c, i, k)
    ensures c in Step(ts[k], h[k]).cleared <==>
              Replaced(ts[k], h[k], c) || (AbsentAt(h, ts, c, k) && h[k].now - h[i].now >= 120.0)
  {
    hide Update, Held, Groups, Codes, Sound;
    RunIsSound(h, ts, k);
    AbsenceOf(ts[k], h[k], c);
    i := k;
    if AbsentAt(h, ts, c, k) {
      i := AbsentSince(h, ts, k, c);
    }
  }

  /** An alarm not replaced within its group clears only after it was absent and not held in every poll for
      CLEAR_AFTER. */
  lemma ClearedAfterAbsence(h: seq<Poll>, ts: seq<Tracker>, k: nat, c: string) returns (i: nat)
    requires IsRun(h, ts) && k < |h| && c in Step(ts[k], h[k]).cleared && !Replaced(ts[k], h[k], c)
    ensures i <= k && AbsentFrom(h, ts, c, i, k) && h[k].now - h[i].now >= CLEAR_AFTER
  {
    hide Update;
    i := ClearedIffAbsent(h, ts, k, c);
  }

  // ---- The monitor: rules and tracker in a loop ----

  /** A poll of the health monitor: a snapshot its rules judged, or a check that crashed. */
  datatype Check = Judged(s: Snapshot, now: real) | Crashed(now: real)

  const BROKEN := Alarm("alarm_check_failed", ERROR, 0.0, None)
  const HOLD_ALL := Hold([""], {})

  function PollOf(t: Tracker, c: Check): Poll {
    match c
    case Judged(s, now) =>
      Poll(Evaluate(s, t.active.Keys), now, Hold(if s.online then [] else ["flag:", "pza_", "alm_"], Unknown(s)))
    case Crashed(now) => Poll([BROKEN], now, HOLD_ALL)
  }

  /** The monitor's checks `cs`, the polls they lead to and the tracker's states. */
  predicate IsMonitor(cs: seq<Check>, h: seq<Poll>, ts: seq<Tracker>) {
    IsRun(h, ts) && |cs| == |h| && forall j :: 0 <= j < |h| ==> h[j] == PollOf(ts[j], cs[j])
  }

  lemma PollDisciplined(t: Tracker, c: Check)
    ensures Disciplined(PollOf(t, c).alarms)
  {
    if c.Judged? { EvaluateDisciplined(c.s, t.active.Keys); }
  }

  /** In every state of the monitor at most one alarm of each group is active. */
  lemma {:induction false} MonitorOnePerGroup(cs: seq<Check>, h: seq<Poll>, ts: seq<Tracker>, k: nat)
    requires IsMonitor(cs, h, ts) && k <= |h|
    ensures Sound(ts[k]) && Grouped(ts[k], GroupOf) && OnePerGroup(ts[k])
  {
    RunIsSound(h, ts, k);
    if k > 0 {
      var p := h[k - 1];
      MonitorOnePerGroup(cs, h, ts, k - 1);
      PollDisciplined(ts[k - 1], cs[k - 1]);
      UpdateOnePerGroup(ts[k - 1], p.alarms, p.now, p.hold, GroupOf);
    }
  }

  lemma NoSeenRivals(alarms: seq<Alarm>, c: string, d: string)
    requires Disciplined(alarms) && c in Codes(alarms) && d in Codes(alarms) && Rivals(GroupOf, c, d)
    ensures c == d
  {
    hide GroupOf;
    var x :| x in alarms && x.code == c;
    var y :| y in alarms && y.code == d;
    assert SameGroup(x, y);
  }

  /** No code an update sees is replaced by it, when no two of its alarms share a group. */
  lemma SeenNotReplaced(t: Tracker, p: Poll, code: string)
    requires Sound(t) && Grouped(t, GroupOf) && OnePerGroup(t) && Disciplined(p.alarms) && code in Codes(p.alarms)
    ensures !Replaced(t, p, code)
  {
    hide See, GroupOf, OnePerGroup, Codes, Grouped, Disciplined, Rivals;
    FixedInDisciplined(p.alarms);
    DictGroups(p.alarms, GroupOf);
    SeeAllSuccession(t, Dict(p.alarms), p.now, GroupOf);
    forall d | d in Codes(p.alarms) && Rivals(GroupOf, code, d) ensures d == code {
      NoSeenRivals(p.alarms, code, d);
    }
  }

  lemma FixedInDisciplined(alarms: seq<Alarm>)
    requires Disciplined(alarms)
    ensures FixedGroups(alarms, GroupOf)
  {
  }

  /** What is raised is active afterwards, and so is every active code that was seen. */
  lemma SeenStaysActive(t: Tracker, p: Poll, code: string)
    requires Sound(t) && Grouped(t, GroupOf) && OnePerGroup(t) && Disciplined(p.alarms) && code in Codes(p.alarms)
    ensures code in Step(t, p).t.active <==> code in t.active || code in Step(t, p).raised
  {
    hide See, GroupOf, OnePerGroup, Disciplined, Held, Grouped;
    SeenNotReplaced(t, p, code);
    SeeAllSound(t, Dict(p.alarms), p.now);
    var q := SeeAll(t, Dict(p.alarms), p.now);
    if code in q.t.active {
      StaysActive(q, Codes(p.alarms), p.hold, p.now, code);
    }
  }

  lemma SeenActivates(cs: seq<Check>, h: seq<Poll>, ts: seq<Tracker>, k: nat, c: string)
    requires IsMonitor(cs, h, ts) && k < |h| && c in Codes(h[k].alarms)
    ensures Sound(ts[k])
    ensures c in ts[k + 1].active <==> c in ts[k].active || c in Step(ts[k], h[k]).raised
  {
    hide Update, Sound, Codes, PollOf, Disciplined, Grouped, OnePerGroup;
    MonitorOnePerGroup(cs, h, ts, k);
    PollDisciplined(ts[k], cs[k]);
    SeenStaysActive(ts[k], h[k], c);
  }

  /** A code was seen at poll j and not active before it. */
  predicate Brewing(h: seq<Poll>, ts: seq<Tracker>, c: string, j: nat)
    requires |ts| == |h| + 1 && j < |h|
  {
    c in Codes(h[j].alarms) && c !in ts[j].active
  }

  /** The monitor's alarms from nothing but its polls: an inactive alarm becomes active at check k exactly if check k
      shows it and has shown it, inactive, without a break since a check i at least its delay ago. */
  lemma ActivatedIffDue(cs: seq<Check>, h: seq<Poll>, ts: seq<Tracker>, k: nat, c: string) returns (i: nat, n: nat)
    requires IsMonitor(cs, h, ts) && k < |h| && c !in ts[k].active
    ensures i <= k && (forall j :: i <= j < k ==> Brewing(h, ts, c, j)) && (i == 0 || !Brewing(h, ts, c, i - 1))
    ensures c in Codes(h[k].alarms) ==> NamedLast(h[k].alarms, c, n)
    ensures c in ts[k + 1].active <==>
              c in Codes(h[k].alarms) && h[k].now - h[i].now >= h[k].alarms[n].delay
  {
    hide Update, Sound, Codes, PollOf, Disciplined, Grouped, OnePerGroup;
    i, n := RaisedIffDue(h, ts, k, c);
    if i > 0 && Brewing(h, ts, c, i - 1) {
      assert c !in ts[i].active by { assert i < k ==> Waits(h, ts, c, i); }
      SeenActivates(cs, h, ts, i - 1, c);
    }
    forall j | i <= j < k ensures Brewing(h, ts, c, j) { assert Waits(h, ts, c, j); }
    if c in Codes(h[k].alarms) {
      SeenActivates(cs, h, ts, k, c);
    } else {
      RunIsSound(h, ts, k);
      UpdateSound(ts[k], h[k].alarms, h[k].now, h[k].hold);
    }
  }

  // ---- When exactly an alarm of the monitor ends ----

  lemma HoldAll(a: Alarm, code: string, groups: set<string>)
    ensures Held(a, code, HOLD_ALL, groups)
  {
    assert HOLD_ALL.prefixes[0] <= code;
  }

  /** The check knows better: judged, without the active alarm, with its inputs known and none of its group waiting. */
  ghost predicate AllClear(ck: Check, t: Tracker, u: Tracker, c: string) {
    && c in t.active && ck.Judged? && c !in Codes(Evaluate(ck.s, t.active.Keys)) && !Blind(ck.s, c)
    && (ck.s.online || !("flag:" <= c || "pza_" <= c || "alm_" <= c))
    && (forall d :: d in u.pending ==> !Rivals(GroupOf, c, d))
  }

  lemma GroupWaits(u: Tracker, c: string)
    requires Grouped(u, GroupOf) && GroupOf(c).Some?
    ensures GroupOf(c).value in Groups(u.pending) <==> exists d :: d in u.pending && Rivals(GroupOf, c, d)
  {
    hide GroupOf;
    if d :| d in u.pending && Rivals(GroupOf, c, d) {
      assert u.pending[d].alarm.group.Some?;
    }
  }

  lemma AbsentIffAllClear(t: Tracker, ck: Check, c: string)
    requires Grouped(t, GroupOf) && Grouped(Step(t, PollOf(t, ck)).t, GroupOf)
    ensures AbsentNow(t, PollOf(t, ck), c) <==> AllClear(ck, t, Step(t, PollOf(t, ck)).t, c)
  {
    hide Evaluate, Update, Unknown, GroupOf, Codes, Groups, Blind;
    var p, u := PollOf(t, ck), Step(t, PollOf(t, ck)).t;
    if ck.Judged? { UnknownIffBlind(ck.s, c); }
    if c in t.active {
      if GroupOf(c).Some? { GroupWaits(u, c); }
      if ck.Crashed? {
        HoldAll(t.active[c], c, Groups(u.pending));
      } else if !ck.s.online {
        assert p.hold.prefixes[0] == "flag:" && p.hold.prefixes[1] == "pza_" && p.hold.prefixes[2] == "alm_";
      }
    }
  }

  /** A rival that check k shows is active after it. */
  ghost predicate TakenOver(h: seq<Poll>, ts: seq<Tracker>, c: string, k: nat)
    requires |ts| == |h| + 1 && k < |h|
  {
    exists d :: d != c && d in ts[k + 1].active && d in Codes(h[k].alarms) && Rivals(GroupOf, c, d)
  }

  lemma ReplacedIffTakenOver(cs: seq<Check>, h: seq<Poll>, ts: seq<Tracker>, k: nat, c: string)
    requires IsMonitor(cs, h, ts) && k < |h| && c in ts[k].active
    ensures Replaced(ts[k], h[k], c) ==> TakenOver(h, ts, c, k)
    ensures TakenOver(h, ts, c, k) ==> c !in ts[k + 1].active
  {
    hide Evaluate, PollOf, GroupOf, See, Held, Groups, Codes;
    var t, p := ts[k], h[k];
    MonitorOnePerGroup(cs, h, ts, k);
    MonitorOnePerGroup(cs, h, ts, k + 1);
    PollDisciplined(t, cs[k]);
    FixedInDisciplined(p.alarms);
    DictGroups(p.alarms, GroupOf);
    SeeAllSuccession(t, Dict(p.alarms), p.now, GroupOf);
    var q := SeeAll(t, Dict(p.alarms), p.now);
    if c in q.replaced {
      assert Succeeded(Live(q), Codes(p.alarms), GroupOf, c);
      var d :| d in Live(q) && d in Codes(p.alarms) && Rivals(GroupOf, c, d);
      StaysActive(q, Codes(p.alarms), p.hold, p.now, d);
    }
  }

  lemma AbsentAtCheck(cs: seq<Check>, h: seq<Poll>, ts: seq<Tracker>, j: nat, c: string)
    requires IsMonitor(cs, h, ts) && j < |h|
    ensures AbsentAt(h, ts, c, j) <==> AllClear(cs[j], ts[j], ts[j + 1], c)
  {
    hide Update, Sound, PollOf, AbsentNow, AllClear, Grouped, OnePerGroup;
    MonitorOnePerGroup(cs, h, ts, j);
    MonitorOnePerGroup(cs, h, ts, j + 1);
    AbsentIffAllClear(ts[j], cs[j], c);
  }

  /** The other half: an active alarm is gone after check k exactly if one of its group took over, or check k is part of
      an all-clear without a break that began at a check i two minutes ago. */
  lemma DeactivatedIffAllClear(cs: seq<Check>, h: seq<Poll>, ts: seq<Tracker>, k: nat, c: string) returns (i: nat)
    requires IsMonitor(cs, h, ts) && k < |h| && c in ts[k].active
    ensures AllClear(cs[k], ts[k], ts[k + 1], c) ==>
              && i <= k && (i == 0 || !AllClear(cs[i - 1], ts[i - 1], ts[i], c))
              && forall j :: i <= j <= k ==> AllClear(cs[j], ts[j], ts[j + 1], c)
    ensures c !in ts[k + 1].active <==>
              TakenOver(h, ts, c, k) || (AllClear(cs[k], ts[k], ts[k + 1], c) && h[k].now - h[i].now >= 120.0)
  {
    hide Update, Sound, PollOf, AbsentAt, AllClear, TakenOver, Replaced;
    RunIsSound(h, ts, k);
    UpdateSound(ts[k], h[k].alarms, h[k].now, h[k].hold);
    ReplacedIffTakenOver(cs, h, ts, k, c);
    i := ClearedIffAbsent(h, ts, k, c);
    AbsentAtCheck(cs, h, ts, k, c);
    if AbsentAt(h, ts, c, k) {
      if i > 0 { AbsentAtCheck(cs, h, ts, i - 1, c); }
      forall j | i <= j <= k ensures AllClear(cs[j], ts[j], ts[j + 1], c) { AbsentAtCheck(cs, h, ts, j, c); }
    } else {
      i := k;
    }
  }

  lemma CrashedPoll(t: Tracker, c: Check)
    requires c.Crashed?
    ensures PollOf(t, c) == Poll([BROKEN], c.now, HOLD_ALL)
  {
  }

  lemma StillCovered(t: Tracker, u: Tracker, g: string)
    requires Grouped(t, GroupOf) && Grouped(u, GroupOf) && t.active.Keys <= u.active.Keys && Covers(t, g)
    ensures Covers(u, g)
  {
    hide GroupOf;
    var c :| c in t.active && t.active[c].group == Some(g);
    assert c in u.active;
  }

  /** While every check from j to k crashes or shows some member of group g, g never loses its active alarm in
      between. */
  lemma {:induction false} GroupCoveredThroughout(cs: seq<Check>, h: seq<Poll>, ts: seq<Tracker>, j: nat, k: nat,
                                                  g: string)
    requires IsMonitor(cs, h, ts) && j <= k <= |h| && Covers(ts[j], g)
    requires forall i :: j <= i < k ==> cs[i].Crashed? || exists c :: c in Codes(h[i].alarms) && GroupOf(c) == Some(g)
    ensures Covers(ts[k], g)
  {
    hide Update, Covers, OnePerGroup, Grouped, Sound, FixedGroups, PollOf;
    if j < k {
      var p := h[k - 1];
      GroupCoveredThroughout(cs, h, ts, j, k - 1, g);
      MonitorOnePerGroup(cs, h, ts, k - 1);
      if cs[k - 1].Crashed? {
        CrashedPoll(ts[k - 1], cs[k - 1]);
        CrashedCheckClearsNothing(ts[k - 1], BROKEN, p.now);
        MonitorOnePerGroup(cs, h, ts, k);
        StillCovered(ts[k - 1], ts[k], g);
      } else {
        PollDisciplined(ts[k - 1], cs[k - 1]);
        GroupStaysCovered(ts[k - 1], p.alarms, p.now, p.hold, GroupOf, g);
      }
    }
  }

  /** The codes whose raising and clearing reach the event log: a crashed check drops its list of cleared ones. */
  function LoggedCleared(c: Check, o: Outcome): set<string> { if c.Crashed? then {} else o.cleared.Keys }

  /** The active codes as someone replaying the log of the first k checks sees them. */
  function Replay(cs: seq<Check>, h: seq<Poll>, ts: seq<Tracker>, k: nat): set<string>
    requires IsMonitor(cs, h, ts) && k <= |h|
  {
    if k == 0 then {}
    else
      var o := Step(ts[k - 1], h[k - 1]);
      Replay(cs, h, ts, k - 1) + o.raised.Keys - LoggedCleared(cs[k - 1], o)
  }

  /** The event log and the active alarms never disagree, crashed checks included. */
  lemma {:induction false} LogReproducesActive(cs: seq<Check>, h: seq<Poll>, ts: seq<Tracker>, k: nat)
    requires IsMonitor(cs, h, ts) && k <= |h|
    ensures Replay(cs, h, ts, k) == ts[k].active.Keys
  {
    hide Update, Sound, PollOf;
    if k > 0 {
      var p := h[k - 1];
      LogReproducesActive(cs, h, ts, k - 1);
      RunIsSound(h, ts, k - 1);
      UpdateSound(ts[k - 1], p.alarms, p.now, p.hold);
      if cs[k - 1].Crashed? {
        CrashedPoll(ts[k - 1], cs[k - 1]);
        CrashedCheckClearsNothing(ts[k - 1], BROKEN, p.now);
      }
    }
  }

  predicate RoomWarm(c: Check, name: string) {
    c.Judged? && forall r :: r in c.s.rooms && r.0 == name ==> r.1.Some? && r.1.value >= 16.0
  }

  /** At a check whose poll neither shows nor holds an active room alarm, every reading of that room is 16 or more. */
  lemma AbsentRoomIsWarm(t: Tracker, c: Check, name: string, groups: set<string>)
    requires "room:" + name in t.active && "room:" + name !in Codes(PollOf(t, c).alarms)
    requires !Held(t.active["room:" + name], "room:" + name, PollOf(t, c).hold, groups)
    ensures RoomWarm(c, name)
  {
    HoldAll(t.active["room:" + name], "room:" + name, groups);
    if c.Judged? {
      forall r | r in c.s.rooms && r.0 == name ensures r.1.Some? && r.1.value >= 16.0 {
        UnseenRoomIsWarm(c.s, t.active.Keys, r);
      }
    }
  }

  /** A room alarm clears only after 2 minutes of checks in all of which the room was known and at 16 degrees or
      more. */
  lemma ClearedRoomWasWarm(cs: seq<Check>, h: seq<Poll>, ts: seq<Tracker>, k: nat, name: string) returns (i: nat)
    requires IsMonitor(cs, h, ts) && k < |h| && "room:" + name in Step(ts[k], h[k]).cleared
    ensures i <= k && h[k].now - h[i].now >= CLEAR_AFTER
    ensures forall j :: i <= j <= k ==> RoomWarm(cs[j], name)
  {
    hide Update, Held, Codes, Groups, Sound, Grouped, OnePerGroup, PollOf, RoomWarm;
    var code := "room:" + name;
    assert code[0] == 'r';
    MonitorOnePerGroup(cs, h, ts, k);
    OnlyGroupsReplaced(ts[k], cs[k], code);
    i := ClearedAfterAbsence(h, ts, k, code);
    forall j | i <= j <= k ensures RoomWarm(cs[j], name) {
      assert AbsentAt(h, ts, code, j);
      AbsentRoomIsWarm(ts[j], cs[j], name, Groups(ts[j + 1].pending));
    }
  }

  /** Only alarms of a group are ever replaced. */
  lemma OnlyGroupsReplaced(t: Tracker, c: Check, code: string)
    requires Sound(t) && Grouped(t, GroupOf) && OnePerGroup(t) && GroupOf(code).None?
    ensures !Replaced(t, PollOf(t, c), code)
  {
    var p := PollOf(t, c);
    PollDisciplined(t, c);
    DictGroups(p.alarms, GroupOf);
    SeeAllSuccession(t, Dict(p.alarms), p.now, GroupOf);
    var q := SeeAll(t, Dict(p.alarms), p.now);
    assert !Succeeded(Live(q), Codes(Dict(p.alarms)), GroupOf, code);
  }
}
