/** Turns the conditions true at each poll into active alarms: raise delays, clear delays, holds and groups. */
module AlarmTracking {
  import opened Options

  datatype Level = INFO | WARNING | ERROR

  function Rank(l: Level): nat { match l case INFO => 0 case WARNING => 1 case ERROR => 2 }

  /** A condition true now. Alarms of one group replace each other. */
  datatype Alarm = Alarm(code: string, level: Level, delay: real, group: Option<string>)

  const CLEAR_AFTER := 120.0

  datatype Wait = Wait(since: real, alarm: Alarm)

  datatype Tracker = Tracker(active: map<string, Alarm>, pending: map<string, Wait>, absent: map<string, real>,
                             since: map<string, real>, acked: set<string>)

  const EMPTY := Tracker(map[], map[], map[], map[], {})

  /** Codes to hold although their condition is not seen: by prefix and by code. */
  datatype Hold = Hold(prefixes: seq<string>, codes: set<string>)

  // ---- The update, as a function on the state ----

  /** The tracker while the seen alarms are gone through; `replaced` collects codes whose group was taken over. */
  datatype Progress = Progress(t: Tracker, raised: map<string, Alarm>, replaced: set<string>)

  predicate SameGroup(a: Alarm, b: Alarm) { a.group.Some? && a.group == b.group }

  function See(p: Progress, a: Alarm, now: real): Progress {
    var t := p.t.(absent := p.t.absent - {a.code});
    if a.code in t.active then
      var worse := Rank(a.level) > Rank(t.active[a.code].level);
      Progress(t.(active := t.active[a.code := a], acked := if worse then t.acked - {a.code} else t.acked),
               if worse then p.raised[a.code := a] else p.raised, p.replaced)
    else
      var since := if a.code in t.pending then t.pending[a.code].since else now;
      if now - since >= a.delay then
        Progress(t.(pending := t.pending - {a.code}, active := t.active[a.code := a], since := t.since[a.code := now]),
                 p.raised[a.code := a],
                 p.replaced + set c | c in t.active && SameGroup(a, t.active[c]))
      else
        p.(t := t.(pending := t.pending[a.code := Wait(since, a)]))
  }

  function SeeAll(t: Tracker, alarms: seq<Alarm>, now: real): Progress {
    if alarms == [] then Progress(t, map[], {})
    else See(SeeAll(t, alarms[..|alarms| - 1], now), alarms[|alarms| - 1], now)
  }

  /** A dictionary of the alarms by code: the first place, the last value. */
  function Dict(alarms: seq<Alarm>): (d: seq<Alarm>)
    ensures forall i, j :: 0 <= i < j < |d| ==> d[i].code != d[j].code
    ensures Codes(d) == Codes(alarms)
  {
    if alarms == [] then []
    else
      var n := |alarms| - 1;
      var d := Dict(alarms[..n]);
      assert Codes(alarms) == Codes(alarms[..n]) + {alarms[n].code} by {
        assert alarms == alarms[..n] + [alarms[n]];
      }
      if alarms[n].code in Codes(d) then
        var i := Position(d, alarms[n].code);
        assert forall j :: 0 <= j < |d| ==> d[i := alarms[n]][j].code == d[j].code;
        CodesOfUpdate(d, i, alarms[n]);
        d[i := alarms[n]]
      else d + [alarms[n]]
  }

  function Codes(alarms: seq<Alarm>): set<string> { set a | a in alarms :: a.code }

  function Position(d: seq<Alarm>, code: string): (i: nat)
    requires code in Codes(d)
    ensures i < |d| && d[i].code == code
  {
    if d[0].code == code then 0 else Position(d[1..], code) + 1
  }

  lemma CodesOfUpdate(d: seq<Alarm>, i: nat, a: Alarm)
    requires i < |d| && d[i].code == a.code
    ensures Codes(d[i := a]) == Codes(d)
  {
    var e := d[i := a];
    forall c ensures c in Codes(e) <==> c in Codes(d) {
      if c in Codes(d) {
        var j :| 0 <= j < |d| && d[j].code == c;
        assert e[j].code == c && e[j] in e;
      }
      if c in Codes(e) {
        var j :| 0 <= j < |e| && e[j].code == c;
        assert d[j].code == c && d[j] in d;
      }
    }
  }

  function Groups(pending: map<string, Wait>): set<string> {
    set c | c in pending && pending[c].alarm.group.Some? :: pending[c].alarm.group.value
  }

  /** Unknown or being replaced: not an all-clear. */
  predicate Held(a: Alarm, code: string, hold: Hold, groups: set<string>) {
    || (exists i :: 0 <= i < |hold.prefixes| && hold.prefixes[i] <= code)
    || code in hold.codes
    || (a.group.Some? && a.group.value in groups)
  }

  function Drop(t: Tracker, codes: set<string>): Tracker {
    t.(active := t.active - codes, absent := t.absent - codes, since := t.since - codes, acked := t.acked - codes)
  }

  /** Active, not seen and not held. */
  function Gone(t: Tracker, seen: set<string>, hold: Hold, groups: set<string>): set<string> {
    set c | c in t.active && c !in seen && !Held(t.active[c], c, hold, groups)
  }

  function Expired(t: Tracker, gone: set<string>, now: real): set<string> {
    set c | c in gone && c in t.absent && now - t.absent[c] >= CLEAR_AFTER
  }

  /** Note since when the gone ones have been gone; forget it for those held. */
  function Note(t: Tracker, seen: set<string>, gone: set<string>, now: real): Tracker {
    t.(absent := (t.absent - (t.active.Keys - seen - gone)) + map c | c in gone - t.absent.Keys :: now)
  }

  datatype Outcome = Outcome(t: Tracker, raised: map<string, Alarm>, cleared: map<string, Alarm>)

  function Forget(t: Tracker, seen: set<string>): Tracker { t.(pending := t.pending - (t.pending.Keys - seen)) }

  function Settle(p: Progress, seen: set<string>, hold: Hold, now: real): Outcome {
    var t := Forget(p.t, seen);
    var u := Drop(t, p.replaced);
    var gone := Gone(u, seen, hold, Groups(u.pending));
    var expired := Expired(u, gone, now);
    Outcome(Drop(Note(u, seen, gone, now), expired), p.raised,
            t.active - (t.active.Keys - p.replaced - expired))
  }

  function Update(t: Tracker, alarms: seq<Alarm>, now: real, hold: Hold): Outcome {
    Settle(SeeAll(t, Dict(alarms), now), Codes(alarms), hold, now)
  }

  // ---- What every update keeps ----

  predicate Sound(t: Tracker) {
    && t.since.Keys == t.active.Keys
    && t.absent.Keys <= t.active.Keys
    && t.acked <= t.active.Keys
    && t.active.Keys !! t.pending.Keys
    && (forall c :: c in t.active ==> t.active[c].code == c)
  }

  predicate SoundProgress(p: Progress, t: Tracker) {
    && Sound(p.t)
    && p.t.active.Keys == t.active.Keys + p.raised.Keys
    && p.replaced <= p.t.active.Keys
  }

  lemma SeeSound(p: Progress, a: Alarm, now: real, t: Tracker)
    requires SoundProgress(p, t)
    ensures SoundProgress(See(p, a, now), t)
  {
  }

  lemma {:induction false} SeeAllSound(t: Tracker, alarms: seq<Alarm>, now: real)
    requires Sound(t)
    ensures SoundProgress(SeeAll(t, alarms, now), t)
  {
    if alarms != [] {
      SeeAllSound(t, alarms[..|alarms| - 1], now);
      SeeSound(SeeAll(t, alarms[..|alarms| - 1], now), alarms[|alarms| - 1], now, t);
    }
  }

  /** The bookkeeping stays consistent, and replaying what was raised and cleared gives exactly the active codes. */
  lemma UpdateSound(t: Tracker, alarms: seq<Alarm>, now: real, hold: Hold)
    requires Sound(t)
    ensures var o := Update(t, alarms, now, hold);
            && Sound(o.t)
            && o.t.active.Keys == t.active.Keys + o.raised.Keys - o.cleared.Keys
            && o.cleared.Keys <= t.active.Keys + o.raised.Keys
  {
    SeeAllSound(t, Dict(alarms), now);
  }

  // ---- Groups ----

  /** Each code belongs to one group only. */
  predicate Grouped(t: Tracker, groupOf: string -> Option<string>) {
    && (forall c :: c in t.active ==> t.active[c].group == groupOf(c))
    && (forall c :: c in t.pending ==> t.pending[c].alarm.group == groupOf(c))
  }

  predicate FixedGroups(alarms: seq<Alarm>, groupOf: string -> Option<string>) {
    forall i :: 0 <= i < |alarms| ==> alarms[i].group == groupOf(alarms[i].code)
  }

  /** At most one active alarm of each group. */
  predicate OnePerGroup(t: Tracker) {
    forall c, d :: c in t.active && d in t.active && SameGroup(t.active[c], t.active[d]) ==> c == d
  }

  predicate Rivals(groupOf: string -> Option<string>, c: string, d: string) {
    groupOf(c).Some? && groupOf(c) == groupOf(d)
  }

  ghost predicate NoRivals(live: set<string>, groupOf: string -> Option<string>) {
    forall c, d :: c in live && d in live && Rivals(groupOf, c, d) ==> c == d
  }

  /** A live, seen member of c's group. */
  ghost predicate Succeeded(live: set<string>, seen: set<string>, groupOf: string -> Option<string>, c: string) {
    exists d :: d in live && d in seen && Rivals(groupOf, c, d)
  }

  /** Active and not replaced. */
  function Live(p: Progress): set<string> { p.t.active.Keys - p.replaced }

  /** While alarms are gone through: one live member per group, and whoever was replaced has a live, seen successor. */
  ghost predicate Succession(p: Progress, seen: set<string>, groupOf: string -> Option<string>) {
    && Grouped(p.t, groupOf)
    && NoRivals(Live(p), groupOf)
    && (forall c :: c in p.replaced ==> Succeeded(Live(p), seen, groupOf, c))
    && (forall c :: c in seen ==> c in p.t.active || c in p.t.pending)
  }

  lemma SeeGrouped(p: Progress, a: Alarm, now: real, groupOf: string -> Option<string>)
    requires Grouped(p.t, groupOf) && a.group == groupOf(a.code)
    ensures Grouped(See(p, a, now).t, groupOf)
  {
  }

  /** A raised alarm takes over from the live rivals, and from them only. */
  lemma TakeOver(live: set<string>, replaced: set<string>, seen: set<string>, groupOf: string -> Option<string>,
                 code: string, rivals: set<string>)
    requires NoRivals(live, groupOf) && code !in live && code !in replaced && live !! replaced
    requires forall c :: c in replaced ==> Succeeded(live, seen, groupOf, c)
    requires forall c :: c in rivals <==> c in live + replaced && Rivals(groupOf, code, c)
    ensures NoRivals(live + {code} - rivals, groupOf)
    ensures forall c :: c in replaced + rivals ==> Succeeded(live + {code} - rivals, seen + {code}, groupOf, c)
  {
    var live' := live + {code} - rivals;
    forall c | c in replaced + rivals ensures Succeeded(live', seen + {code}, groupOf, c) {
      if Rivals(groupOf, code, c) {
        assert code in live' && code in seen + {code} && Rivals(groupOf, c, code);
      } else {
        assert Succeeded(live, seen, groupOf, c);
        var d :| d in live && d in seen && Rivals(groupOf, c, d);
        assert d in live' && d in seen + {code};
      }
    }
  }

  lemma SeeSuccession(p: Progress, a: Alarm, now: real, t: Tracker, seen: set<string>,
                      groupOf: string -> Option<string>)
    requires SoundProgress(p, t) && Succession(p, seen, groupOf) && a.group == groupOf(a.code)
    ensures Succession(See(p, a, now), seen + {a.code}, groupOf)
  {
    SeeGrouped(p, a, now, groupOf);
    if a.code in See(p, a, now).t.active && a.code !in p.t.active {
      RaiseSuccession(p, See(p, a, now), a, now, seen, groupOf);
    } else {
      QuietSuccession(p, See(p, a, now), a.code, seen, groupOf);
    }
  }

  lemma RaiseSuccession(p: Progress, q: Progress, a: Alarm, now: real, seen: set<string>,
                        groupOf: string -> Option<string>)
    requires q == See(p, a, now) && p.replaced <= p.t.active.Keys && Succession(p, seen, groupOf)
    requires a.group == groupOf(a.code) && a.code !in p.t.active && a.code in q.t.active && Grouped(q.t, groupOf)
    ensures Succession(q, seen + {a.code}, groupOf)
  {
    Raises(p, a, now, groupOf);
    TakeOver(Live(p), p.replaced, seen, groupOf, a.code, RivalsOf(p, a.code, groupOf));
    assert Live(q) == Live(p) + {a.code} - RivalsOf(p, a.code, groupOf);
  }

  lemma QuietSuccession(p: Progress, q: Progress, code: string, seen: set<string>, groupOf: string -> Option<string>)
    requires Succession(p, seen, groupOf) && Grouped(q.t, groupOf)
    requires q.replaced == p.replaced && q.t.active.Keys == p.t.active.Keys
    requires p.t.pending.Keys <= q.t.pending.Keys && (code in q.t.active || code in q.t.pending)
    ensures Succession(q, seen + {code}, groupOf)
  {
    assert Live(q) == Live(p);
    forall c | c in p.replaced ensures Succeeded(Live(q), seen + {code}, groupOf, c) {
      assert Succeeded(Live(p), seen, groupOf, c);
    }
  }

  function RivalsOf(p: Progress, code: string, groupOf: string -> Option<string>): set<string> {
    set c | c in p.t.active && Rivals(groupOf, code, c)
  }

  lemma Raises(p: Progress, a: Alarm, now: real, groupOf: string -> Option<string>)
    requires Grouped(p.t, groupOf) && a.group == groupOf(a.code)
    requires a.code !in p.t.active && a.code in See(p, a, now).t.active
    ensures See(p, a, now).replaced == p.replaced + RivalsOf(p, a.code, groupOf)
    ensures See(p, a, now).t.active.Keys == p.t.active.Keys + {a.code}
    ensures See(p, a, now).t.pending.Keys == p.t.pending.Keys - {a.code}
  {
  }

  lemma EmptySuccession(t: Tracker, groupOf: string -> Option<string>)
    requires Grouped(t, groupOf) && OnePerGroup(t)
    ensures Succession(Progress(t, map[], {}), {}, groupOf)
  {
  }

  lemma {:induction false} SeeAllSuccession(t: Tracker, alarms: seq<Alarm>, now: real,
                                            groupOf: string -> Option<string>)
    requires Sound(t) && Grouped(t, groupOf) && OnePerGroup(t) && FixedGroups(alarms, groupOf)
    ensures Succession(SeeAll(t, alarms, now), Codes(alarms), groupOf)
  {
    hide See, Succession, Grouped, OnePerGroup, SoundProgress;
    if alarms == [] {
      EmptySuccession(t, groupOf);
      assert Codes(alarms) == {};
    } else {
      var n := |alarms| - 1;
      SeeAllSuccession(t, alarms[..n], now, groupOf);
      SeeAllSound(t, alarms[..n], now);
      SeeSuccession(SeeAll(t, alarms[..n], now), alarms[n], now, t, Codes(alarms[..n]), groupOf);
      assert alarms == alarms[..n] + [alarms[n]];
      assert Codes(alarms) == Codes(alarms[..n]) + {alarms[n].code};
    }
  }

  predicate Covers(t: Tracker, g: string) { exists c :: c in t.active && t.active[c].group == Some(g) }

  lemma {:induction false} DictGroups(alarms: seq<Alarm>, groupOf: string -> Option<string>)
    requires FixedGroups(alarms, groupOf)
    ensures FixedGroups(Dict(alarms), groupOf)
  {
    if alarms != [] { DictGroups(alarms[..|alarms| - 1], groupOf); }
  }

  /** After every update at most one alarm per group is active. */
  lemma UpdateOnePerGroup(t: Tracker, alarms: seq<Alarm>, now: real, hold: Hold, groupOf: string -> Option<string>)
    requires Sound(t) && Grouped(t, groupOf) && OnePerGroup(t) && FixedGroups(alarms, groupOf)
    ensures Grouped(Update(t, alarms, now, hold).t, groupOf) && OnePerGroup(Update(t, alarms, now, hold).t)
  {
    DictGroups(alarms, groupOf);
    SeeAllSuccession(t, Dict(alarms), now, groupOf);
    SettleShrinks(SeeAll(t, Dict(alarms), now), Codes(alarms), hold, now);
    LiveIsOnePerGroup(SeeAll(t, Dict(alarms), now), Update(t, alarms, now, hold).t, groupOf);
  }

  lemma LiveIsOnePerGroup(p: Progress, t: Tracker, groupOf: string -> Option<string>)
    requires Grouped(p.t, groupOf) && NoRivals(Live(p), groupOf)
    requires t.active.Keys <= Live(p) && forall c :: c in t.active ==> t.active[c] == p.t.active[c]
    requires t.pending.Keys <= p.t.pending.Keys && forall c :: c in t.pending ==> t.pending[c] == p.t.pending[c]
    ensures Grouped(t, groupOf) && OnePerGroup(t)
  {
    forall c, d | c in t.active && d in t.active && SameGroup(t.active[c], t.active[d]) ensures c == d {
      assert Rivals(groupOf, c, d);
    }
  }

  lemma SettleShrinks(p: Progress, seen: set<string>, hold: Hold, now: real)
    ensures var t := Settle(p, seen, hold, now).t;
            && t.active.Keys <= Live(p) && (forall c :: c in t.active ==> t.active[c] == p.t.active[c])
            && t.pending.Keys <= p.t.pending.Keys && (forall c :: c in t.pending ==> t.pending[c] == p.t.pending[c])
  {
  }

  /** No false all-clear: a group with an active alarm keeps one through every update in which a member is seen. */
  lemma GroupStaysCovered(t: Tracker, alarms: seq<Alarm>, now: real, hold: Hold,
                          groupOf: string -> Option<string>, g: string)
    requires Sound(t) && Grouped(t, groupOf) && OnePerGroup(t) && FixedGroups(alarms, groupOf)
    requires Covers(t, g) && exists c :: c in Codes(alarms) && groupOf(c) == Some(g)
    ensures Covers(Update(t, alarms, now, hold).t, g)
  {
    DictGroups(alarms, groupOf);
    SeeAllSuccession(t, Dict(alarms), now, groupOf);
    SeeAllSound(t, Dict(alarms), now);
    var p := SeeAll(t, Dict(alarms), now);
    var x :| x in t.active && t.active[x].group == Some(g);
    var m :| m in Codes(alarms) && groupOf(m) == Some(g);
    CoveredAfter(p, t, x, m, Codes(alarms), hold, now, groupOf, g);
  }

  lemma CoveredAfter(p: Progress, t: Tracker, x: string, m: string, seen: set<string>, hold: Hold, now: real,
                     groupOf: string -> Option<string>, g: string)
    requires SoundProgress(p, t) && Succession(p, seen, groupOf)
    requires x in p.t.active && m in seen && groupOf(x) == groupOf(m) == Some(g)
    ensures Covers(Settle(p, seen, hold, now).t, g)
  {
    var y := if m in p.t.active then m else x;
    if y in p.replaced {
      assert Succeeded(Live(p), seen, groupOf, y);
      y :| y in Live(p) && y in seen && Rivals(groupOf, x, y);
    }
    assert y in Live(p) && p.t.active[y].group == Some(g);
    if y !in seen {
      assert m in Forget(p.t, seen).pending;
      assert g in Groups(Forget(p.t, seen).pending);
    }
    StaysActive(p, seen, hold, now, y);
  }

  lemma StaysActive(p: Progress, seen: set<string>, hold: Hold, now: real, c: string)
    requires c in Live(p)
    requires c in seen || Held(p.t.active[c], c, hold, Groups(Forget(p.t, seen).pending))
    ensures var t := Settle(p, seen, hold, now).t; c in t.active && t.active[c] == p.t.active[c]
  {
  }

  // ---- The poll whose rules crashed ----

  /** Holding every prefix, an update with one ungrouped alarm clears nothing: dropping its list of cleared loses
      nothing. */
  lemma CrashedCheckClearsNothing(t: Tracker, broken: Alarm, now: real)
    requires Sound(t) && broken.group.None?
    ensures Update(t, [broken], now, Hold([""], {})).cleared == map[]
    ensures
              Update(t, [broken], now, Hold([""], {})).t.active.Keys
              == t.active.Keys + Update(t, [broken], now, Hold([""], {})).raised.Keys
  {
    var hold := Hold([""], {});
    var alarms := [broken];
    assert alarms[..|alarms| - 1] == [];
    assert Dict(alarms) == [broken];
    var p := SeeAll(t, alarms, now);
    assert SeeAll(t, [], now) == Progress(t, map[], {});
    assert p == See(Progress(t, map[], {}), broken, now);
    SeeAllSound(t, alarms, now);
    assert Codes(alarms) == {broken.code};
    assert p.replaced == {};
    NothingGone(p, {broken.code}, now);
  }

  lemma NothingGone(p: Progress, seen: set<string>, now: real)
    requires p.replaced == {}
    ensures var o := Settle(p, seen, Hold([""], {}), now);
            o.cleared == map[] && o.raised == p.raised && o.t.active == p.t.active
  {
    var u := Drop(Forget(p.t, seen), p.replaced);
    forall c | c in u.active ensures Held(u.active[c], c, Hold([""], {}), Groups(u.pending)) {
      assert Hold([""], {}).prefixes[0] <= c;
    }
    assert Gone(u, seen, Hold([""], {}), Groups(u.pending)) == {};
  }

  // ---- The tracker itself ----

  /** What the pass over the unseen alarms has done to code c. */
  ghost predicate SweptAt(t: Tracker, u: Tracker, cleared: map<string, Alarm>, seen: set<string>, gone: set<string>,
                          expired: set<string>, now: real, todo: set<string>, c: string)
  {
    var out := c in t.active && c in expired && c !in todo;
    && (c in u.active <==> c in t.active && !out) && (c in u.active ==> u.active[c] == t.active[c])
    && (c in u.since <==> c in t.since && !out) && (c in u.since ==> u.since[c] == t.since[c])
    && (c in u.acked <==> c in t.acked && !out)
    && (c in cleared <==> out) && (c in cleared ==> cleared[c] == t.active[c])
    && (c in u.absent <==> if c !in t.active || c in todo || c in seen then c in t.absent else c in gone && !out)
    && (c in u.absent ==> u.absent[c] == if c in t.absent then t.absent[c] else now)
  }

  /** Go through the active alarms not seen this time: hold them, start or continue their absence, or clear them. */
  method SweepUnseen(t: Tracker, seen: set<string>, hold: Hold, now: real)
    returns (u: Tracker, cleared: map<string, Alarm>)
    requires Sound(t)
    ensures var gone := Gone(t, seen, hold, Groups(t.pending));
            var expired := Expired(t, gone, now);
            u.pending == t.pending && forall c :: SweptAt(t, u, cleared, seen, gone, expired, now, {}, c)
  {
    var groups := Groups(t.pending);
    ghost var gone := Gone(t, seen, hold, groups);
    ghost var expired := Expired(t, gone, now);
    u, cleared := t, map[];
    var todo := t.active.Keys;
    while todo != {}
      invariant todo <= t.active.Keys && u.pending == t.pending
      invariant forall c :: SweptAt(t, u, cleared, seen, gone, expired, now, todo, c)
      decreases |todo|
    {
      var code :| code in todo;
      ghost var was, clearedWas, left := u, cleared, todo;
      assert SweptAt(t, was, clearedWas, seen, gone, expired, now, left, code);
      if code !in seen {
        if Held(u.active[code], code, hold, groups) {
          u := u.(absent := u.absent - {code});
        } else {
          var since := if code in u.absent then u.absent[code] else now;
          if now - since >= CLEAR_AFTER {
            cleared := cleared[code := u.active[code]];
            u := Drop(u, {code});
          } else {
            u := u.(absent := u.absent[code := since]);
          }
        }
      }
      todo := todo - {code};
      forall c ensures SweptAt(t, u, cleared, seen, gone, expired, now, todo, c) {
        assert SweptAt(t, was, clearedWas, seen, gone, expired, now, left, c);
      }
    }
  }

  lemma SweptAbsences(t: Tracker, u: Tracker, cleared: map<string, Alarm>, seen: set<string>, gone: set<string>,
                      expired: set<string>, now: real)
    requires Sound(t) && gone <= t.active.Keys - seen && expired == Expired(t, gone, now)
    requires forall c :: SweptAt(t, u, cleared, seen, gone, expired, now, {}, c)
    ensures u.absent == Drop(Note(t, seen, gone, now), expired).absent
  {
    var v := Drop(Note(t, seen, gone, now), expired);
    forall c
      ensures c in u.absent <==> c in v.absent
      ensures c in u.absent ==> u.absent[c] == v.absent[c]
    {
      assert SweptAt(t, u, cleared, seen, gone, expired, now, {}, c);
    }
  }

  lemma SweepIsSettling(t: Tracker, u: Tracker, cleared: map<string, Alarm>, seen: set<string>, gone: set<string>,
                        expired: set<string>, now: real)
    requires Sound(t) && gone <= t.active.Keys - seen && expired == Expired(t, gone, now) && u.pending == t.pending
    requires forall c :: SweptAt(t, u, cleared, seen, gone, expired, now, {}, c)
    ensures u == Drop(Note(t, seen, gone, now), expired)
    ensures cleared == t.active - (t.active.Keys - expired)
  {
    SweptAbsences(t, u, cleared, seen, gone, expired, now);
    var v := Drop(Note(t, seen, gone, now), expired);
    forall c
      ensures c in u.active <==> c in v.active
      ensures c in u.active ==> u.active[c] == v.active[c]
      ensures c in u.since <==> c in v.since
      ensures c in u.since ==> u.since[c] == v.since[c]
      ensures c in u.acked <==> c in v.acked
      ensures c in cleared <==> c in t.active && c in expired
      ensures c in cleared ==> cleared[c] == t.active[c]
    {
      assert SweptAt(t, u, cleared, seen, gone, expired, now, {}, c);
    }
    assert u.active == v.active && u.since == v.since && u.acked == v.acked;
  }

  /** The second half of an update: forget what no longer waits, drop the replaced, go through the unseen. */
  method SettleUnseen(p: Progress, seen: set<string>, hold: Hold, now: real) returns (o: Outcome)
    requires Sound(p.t)
    ensures o == Settle(p, seen, hold, now)
  {
    var t := Forget(p.t, seen);
    var u := Drop(t, p.replaced);
    var v, late := SweepUnseen(u, seen, hold, now);
    ghost var gone := Gone(u, seen, hold, Groups(u.pending));
    SweepIsSettling(u, v, late, seen, gone, Expired(u, gone, now), now);
    var dropped := t.active - (t.active.Keys - p.replaced);
    o := Outcome(v, p.raised, dropped + late);
    JoinCleared(t.active, p.replaced, Expired(u, gone, now));
  }

  lemma JoinCleared(m: map<string, Alarm>, a: set<string>, b: set<string>)
    ensures (m - (m.Keys - a)) + ((m - a) - ((m - a).Keys - b)) == m - (m.Keys - a - b)
  {
  }

  class AlarmTracker {
    var active: map<string, Alarm>
    var pendingAlarms: map<string, Wait>
    var absent: map<string, real>
    var since: map<string, real>
    var acked: set<string>

    function View(): Tracker
      reads this
    {
      Tracker(active, pendingAlarms, absent, since, acked)
    }

    constructor ()
      ensures View() == EMPTY && Sound(View())
    {
      active, pendingAlarms, absent, since, acked := map[], map[], map[], map[], {};
    }

    method SeeAlarm(a: Alarm, now: real, raised: map<string, Alarm>, replaced: set<string>)
      returns (raised': map<string, Alarm>, replaced': set<string>)
      modifies this
      ensures Progress(View(), raised', replaced') == See(Progress(old(View()), raised, replaced), a, now)
    {
      raised', replaced' := raised, replaced;
      absent := absent - {a.code};
      if a.code in active {
        if Rank(a.level) > Rank(active[a.code].level) {
          raised' := raised'[a.code := a];
          acked := acked - {a.code};
        }
        active := active[a.code := a];
        return;
      }
      var first := if a.code in pendingAlarms then pendingAlarms[a.code].since else now;
      if now - first >= a.delay {
        pendingAlarms := pendingAlarms - {a.code};
        replaced' := replaced + set c | c in active && SameGroup(a, active[c]);
        active := active[a.code := a];
        since := since[a.code := now];
        raised' := raised'[a.code := a];
      } else {
        pendingAlarms := pendingAlarms[a.code := Wait(first, a)];
      }
    }

    method SeeEach(d: seq<Alarm>, now: real) returns (raised: map<string, Alarm>, replaced: set<string>)
      modifies this
      ensures Progress(View(), raised, replaced) == SeeAll(old(View()), d, now)
    {
      raised, replaced := map[], {};
      for i := 0 to |d|
        invariant Progress(View(), raised, replaced) == SeeAll(old(View()), d[..i], now)
      {
        assert d[..i + 1][..i] == d[..i];
        raised, replaced := SeeAlarm(d[i], now, raised, replaced);
      }
      assert d[..|d|] == d;
    }

    /** One poll: what is true now, and what to hold; returns what was raised and what cleared. */
    method DoUpdate(alarms: seq<Alarm>, now: real, hold: Hold)
      returns (raised: map<string, Alarm>, cleared: map<string, Alarm>)
      requires Sound(View())
      modifies this
      ensures Outcome(View(), raised, cleared) == Update(old(View()), alarms, now, hold)
      ensures Sound(View())
    {
      ghost var t := View();
      var replaced: set<string>;
      raised, replaced := SeeEach(Dict(alarms), now);
      SeeAllSound(t, Dict(alarms), now);
      var o := SettleUnseen(Progress(View(), raised, replaced), Codes(alarms), hold, now);
      UpdateSound(t, alarms, now, hold);
      active, pendingAlarms, absent, since, acked := o.t.active, o.t.pending, o.t.absent, o.t.since, o.t.acked;
      cleared := o.cleared;
    }

    /** A person acknowledges an active alarm. */
    method Ack(code: string) returns (ok: bool)
      requires Sound(View())
      modifies this`acked
      ensures ok <==> code in active
      ensures acked == (if ok then old(acked) + {code} else old(acked)) && Sound(View())
    {
      if code !in active {
        return false;
      }
      acked := acked + {code};
      return true;
    }
  }
}
