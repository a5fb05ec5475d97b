/** Desired-state sync: which device a stored setting belongs to, and queueing all of a device's settings again. */
module Resync {
  import opened Options
  import opened Dispatcher
  import opened Convergence

  /** A configuration prefix and the device it belongs to. */
  datatype Route = Route(prefix: string, device: string)

  predicate Matches(key: string, prefix: string) { key == prefix || prefix + "_" <= key }

  /** Device of the first route that matches. */
  function RouteOf(key: string, routes: seq<Route>): Option<string> {
    if routes == [] then None
    else if Matches(key, routes[0].prefix) then Some(routes[0].device)
    else RouteOf(key, routes[1..])
  }

  method RouteKey(key: string, routes: seq<Route>) returns (device: Option<string>)
    ensures device == RouteOf(key, routes)
  {
    assert routes[0..] == routes;
    for i := 0 to |routes|
      invariant RouteOf(key, routes) == RouteOf(key, routes[i..])
    {
      assert routes[i..][1..] == routes[i + 1..];
      if Matches(key, routes[i].prefix) {
        return Some(routes[i].device);
      }
    }
    return None;
  }

  /** As the routes are loaded: longest prefix first. */
  predicate LongestFirst(routes: seq<Route>) {
    forall i, j :: 0 <= i < j < |routes| ==> |routes[i].prefix| >= |routes[j].prefix|
  }

  /** No matching route has a longer prefix than i, and one as long has the same prefix. */
  predicate Longest(key: string, routes: seq<Route>, i: nat)
    requires i < |routes|
  {
    && Matches(key, routes[i].prefix)
    && forall j :: 0 <= j < |routes| && Matches(key, routes[j].prefix) ==>
                     |routes[j].prefix| < |routes[i].prefix| || routes[j].prefix == routes[i].prefix
  }

  lemma SameLengthSamePrefix(key: string, a: string, b: string)
    requires Matches(key, a) && Matches(key, b) && |a| == |b|
    ensures a == b
  {
    assert a == key[..|a|] by { if key != a { assert (a + "_")[..|a|] == a; } }
    assert b == key[..|b|] by { if key != b { assert (b + "_")[..|b|] == b; } }
  }

  /** With the longest prefixes first, the longest matching prefix decides; without a match the key has no device. */
  lemma {:induction false} LongestPrefixWins(key: string, routes: seq<Route>)
    requires LongestFirst(routes)
    ensures RouteOf(key, routes).None? <==> forall i :: 0 <= i < |routes| ==> !Matches(key, routes[i].prefix)
    ensures RouteOf(key, routes).Some? ==>
              exists i :: 0 <= i < |routes| && Longest(key, routes, i) && RouteOf(key, routes) == Some(routes[i].device)
  {
    hide Matches;
    if routes != [] {
      if Matches(key, routes[0].prefix) {
        forall j | 0 <= j < |routes| && Matches(key, routes[j].prefix)
          ensures |routes[j].prefix| < |routes[0].prefix| || routes[j].prefix == routes[0].prefix
        {
          if |routes[j].prefix| == |routes[0].prefix| { SameLengthSamePrefix(key, routes[j].prefix, routes[0].prefix); }
        }
        assert Longest(key, routes, 0);
      } else {
        var rest := routes[1..];
        LongestPrefixWins(key, rest);
        if RouteOf(key, rest).Some? {
          var i :| 0 <= i < |rest| && Longest(key, rest, i) && RouteOf(key, rest) == Some(rest[i].device);
          LongestShifts(key, routes, i);
          assert RouteOf(key, routes) == Some(routes[i + 1].device);
        }
      }
    }
  }

  lemma LongestShifts(key: string, routes: seq<Route>, i: nat)
    requires routes != [] && !Matches(key, routes[0].prefix) && i < |routes| - 1 && Longest(key, routes[1..], i)
    ensures Longest(key, routes, i + 1)
  {
    hide Matches;
    var rest := routes[1..];
    forall j | 0 <= j < |routes| && Matches(key, routes[j].prefix)
      ensures |routes[j].prefix| < |routes[i + 1].prefix| || routes[j].prefix == routes[i + 1].prefix
    {
      assert j > 0 && routes[j] == rest[j - 1];
    }
  }

  // ---- Queueing a device's settings ----

  /** The stored settings; a key may have no value. */
  type Stored = map<string, Option<string>>

  /** Parameter p is a stored setting routed to its device. */
  predicate Routed(kv: Stored, routes: seq<Route>, p: Param) {
    p.key in kv && kv[p.key].Some? && RouteOf(p.key, routes) == Some(p.device)
  }

  function RoutedKeys(kv: Stored, routes: seq<Route>, device: string): set<string> {
    set key | key in kv && Routed(kv, routes, Param(device, key))
  }

  /** All these keys have a stored value. */
  predicate Storable(kv: Stored, order: seq<string>) {
    forall i :: 0 <= i < |order| ==> order[i] in kv && kv[order[i]].Some?
  }

  /** The queue after the stored values of these keys have been added for the device, one after the other. */
  function QueueAll(s: State, c: Delays, kv: Stored, device: string, order: seq<string>, now: real): State
    requires Storable(kv, order)
    decreases |order|
  {
    if order == [] then s
    else QueueAll(AddParam(s, c, Param(device, order[0]), kv[order[0]].value, now), c, kv, device, order[1..], now)
  }

  lemma {:induction false} QueueOneMore(s: State, c: Delays, kv: Stored, device: string, order: seq<string>,
                                        key: string, now: real)
    requires Storable(kv, order) && key in kv && kv[key].Some?
    ensures Storable(kv, order + [key])
    ensures QueueAll(s, c, kv, device, order + [key], now)
            == AddParam(QueueAll(s, c, kv, device, order, now), c, Param(device, key), kv[key].value, now)
    decreases |order|
  {
    hide AddParam;
    if order == [] {
      assert (order + [key])[1..] == [];
    } else {
      QueueOneMore(AddParam(s, c, Param(device, order[0]), kv[order[0]].value, now), c, kv, device, order[1..], key,
                   now);
      assert (order + [key])[1..] == order[1..] + [key];
    }
  }

  /** Where p stands after the stored values of these keys have been queued. */
  ghost predicate QueuedAt(s: State, t: State, kv: Stored, device: string, order: seq<string>, p: Param)
    requires Storable(kv, order)
  {
    var hit := p.device == device && p.key in order;
    && (p in t.store <==> p in s.store || hit)
    && (p in t.store ==> t.store[p] == if hit then kv[p.key].value else s.store[p])
    && (p in t.unsynced <==> p in s.unsynced && !hit)
    && t.pending == s.pending
  }

  lemma {:induction false} QueueAllEffect(s: State, c: Delays, kv: Stored, device: string, order: seq<string>,
                                          now: real, p: Param)
    requires Storable(kv, order)
    ensures QueuedAt(s, QueueAll(s, c, kv, device, order, now), kv, device, order, p)
    decreases |order|
  {
    if order != [] {
      var t := AddParam(s, c, Param(device, order[0]), kv[order[0]].value, now);
      QueueAllEffect(t, c, kv, device, order[1..], now, p);
    }
  }

  /** The keys of the set, each once. */
  ghost predicate Lists(order: seq<string>, keys: set<string>) {
    && (forall i, j :: 0 <= i < j < |order| ==> order[i] != order[j])
    && (forall key :: key in keys <==> key in order)
  }

  lemma ListsOneMore(order: seq<string>, keys: set<string>, key: string)
    requires Lists(order, keys) && key !in keys
    ensures Lists(order + [key], keys + {key})
  {
  }

  /** One stored setting: queue it if it is routed to the device. */
  method QueueKey(d: AsyncCommandDispatcher, kv: Stored, routes: seq<Route>, device: string, key: string, now: real)
    returns (hit: bool)
    requires key in kv
    modifies d
    ensures hit <==> key in RoutedKeys(kv, routes, device)
    ensures hit ==> kv[key].Some?
    ensures d.View() == if hit then AddParam(old(d.View()), d.delays, Param(device, key), kv[key].value, now)
                        else old(d.View())
  {
    hide AddParam;
    KeyRouted(kv, routes, device, key);
    var target := RouteKey(key, routes);
    hit := kv[key].Some? && target == Some(device);
    if hit {
      d.DoAddParam(device, key, kv[key].value, now);
    }
  }

  /** Queue every stored setting routed to the device, each once, in some order; nothing else in the queue changes, and
      nothing awaiting an ack. */
  method ResyncDevice(d: AsyncCommandDispatcher, kv: Stored, routes: seq<Route>, device: string, now: real)
    returns (count: nat, ghost order: seq<string>)
    modifies d
    ensures Storable(kv, order) && Lists(order, RoutedKeys(kv, routes, device)) && count == |order|
    ensures d.View() == QueueAll(old(d.View()), d.delays, kv, device, order, now)
    ensures forall p :: QueuedAt(old(d.View()), d.View(), kv, device, order, p)
  {
    hide RouteOf, Routed, QueuedAt, AddParam, HasDevice, QueueAll, RoutedKeys, Lists;
    count, order := 0, [];
    EmptyList();
    NothingQueued(d.View(), d.delays, kv, device, now);
    ghost var keys := RoutedKeys(kv, routes, device);
    if !HasDevice(routes, device) {
      NoneRouted(kv, routes, device);
      AllQueued(d.View(), d.delays, kv, device, order, now);
      return;
    }
    var todo := kv.Keys;
    RoutedStored(kv, routes, device);
    assert keys - todo == {};
    while todo != {}
      invariant todo <= kv.Keys && Storable(kv, order) && Lists(order, keys - todo) && count == |order|
      invariant d.View() == QueueAll(old(d.View()), d.delays, kv, device, order, now)
      decreases |todo|
    {
      var key :| key in todo;
      var hit := QueueKey(d, kv, routes, device, key, now);
      if hit {
        QueueOneMore(old(d.View()), d.delays, kv, device, order, key, now);
        ListsOneMore(order, keys - todo, key);
        count, order := count + 1, order + [key];
      }
      assert keys - (todo - {key}) == if hit then (keys - todo) + {key} else keys - todo;
      todo := todo - {key};
    }
    assert keys - todo == keys;
    AllQueued(old(d.View()), d.delays, kv, device, order, now);
  }

  lemma EmptyList()
    ensures Lists([], {})
  {
  }

  lemma NothingQueued(s: State, c: Delays, kv: Stored, device: string, now: real)
    ensures QueueAll(s, c, kv, device, [], now) == s
  {
  }

  lemma AllQueued(s: State, c: Delays, kv: Stored, device: string, order: seq<string>, now: real)
    requires Storable(kv, order)
    ensures forall p :: QueuedAt(s, QueueAll(s, c, kv, device, order, now), kv, device, order, p)
  {
    forall p ensures QueuedAt(s, QueueAll(s, c, kv, device, order, now), kv, device, order, p) {
      QueueAllEffect(s, c, kv, device, order, now, p);
    }
  }

  lemma RoutedStored(kv: Stored, routes: seq<Route>, device: string)
    ensures RoutedKeys(kv, routes, device) <= kv.Keys
  {
  }

  predicate HasDevice(routes: seq<Route>, device: string) {
    exists i :: 0 <= i < |routes| && routes[i].device == device
  }

  lemma {:induction false} NoRoute(key: string, routes: seq<Route>, device: string)
    requires !HasDevice(routes, device)
    ensures RouteOf(key, routes) != Some(device)
  {
    if routes != [] {
      assert routes[0].device != device;
      NoRoute(key, routes[1..], device);
    }
  }

  lemma NoneRouted(kv: Stored, routes: seq<Route>, device: string)
    requires !HasDevice(routes, device)
    ensures RoutedKeys(kv, routes, device) == {}
  {
    forall key ensures !Routed(kv, routes, Param(device, key)) { NoRoute(key, routes, device); }
  }

  lemma KeyRouted(kv: Stored, routes: seq<Route>, device: string, key: string)
    requires key in kv
    ensures key in RoutedKeys(kv, routes, device) <==> kv[key].Some? && RouteOf(key, routes) == Some(device)
  {
    hide RouteOf;
  }

  // ---- A device that lost its settings gets them back ----

  /** The additions of a resync as events. */
  function Additions(kv: Stored, device: string, order: seq<string>, now: real): (es: seq<Event>)
    requires Storable(kv, order)
    ensures |es| == |order|
    ensures forall i :: 0 <= i < |order| ==> es[i] == Add(Param(device, order[i]), kv[order[i]].value, now)
  {
    seq(|order|, i requires 0 <= i < |order| => Add(Param(device, order[i]), kv[order[i]].value, now))
  }

  /** They leave the dispatcher as the resync does. */
  lemma {:induction false} AdditionsQueueAll(env: Env, n: Net, kv: Stored, device: string, order: seq<string>,
                                             now: real)
    requires Storable(kv, order)
    ensures Possible(env, n, Additions(kv, device, order, now))
    ensures Run(env, n, Additions(kv, device, order, now)).d == QueueAll(n.d, env.delays, kv, device, order, now)
    decreases |order|
  {
    hide AddParam;
    if order != [] {
      var es := Additions(kv, device, order, now);
      assert es[1..] == Additions(kv, device, order[1..], now);
      AdditionsQueueAll(env, Apply(env, n, es[0]), kv, device, order[1..], now);
    }
  }

  /** Neither queues p nor reboots its device. */
  predicate LeavesLast(e: Event, p: Param) { !(e.Add? && e.p == p) && !(e.Reboot? && e.device == p.device) }

  predicate Asked(n: Net, p: Param, value: string) { p in n.last && n.last[p] == value && p in n.asked }

  lemma StepKeepsLast(env: Env, n: Net, e: Event, p: Param, value: string)
    requires Enabled(n, e) && Asked(n, p, value) && LeavesLast(e, p)
    ensures Asked(Apply(env, n, e), p, value)
  {
  }

  lemma {:induction false} RunKeepsLast(env: Env, n: Net, es: seq<Event>, p: Param, value: string)
    requires Possible(env, n, es) && Asked(n, p, value) && forall j :: 0 <= j < |es| ==> LeavesLast(es[j], p)
    ensures Asked(Run(env, n, es), p, value)
    decreases |es|
  {
    hide Apply, Enabled, Asked;
    if es != [] {
      StepKeepsLast(env, n, es[0], p, value);
      RunKeepsLast(env, Apply(env, n, es[0]), es[1..], p, value);
    }
  }

  lemma {:induction false} AddedIsLast(env: Env, n: Net, es: seq<Event>, k: nat)
    requires Possible(env, n, es) && k < |es| && es[k].Add? && forall j :: k < j < |es| ==> LeavesLast(es[j], es[k].p)
    ensures Asked(Run(env, n, es), es[k].p, es[k].value)
    decreases k
  {
    hide LeavesLast;
    var rest := es[1..];
    if k == 0 {
      assert Asked(Apply(env, n, es[0]), es[0].p, es[0].value);
      RunKeepsLast(env, Apply(env, n, es[0]), rest, es[0].p, es[0].value);
    } else {
      assert rest[k - 1] == es[k];
      AddedIsLast(env, Apply(env, n, es[0]), rest, k - 1);
    }
  }

  /** After any run let a device reboot, losing all its settings, and let the resync queue them again, no matter what
      happens in between. Whatever happens then, once everything has come to rest the device holds each setting that it
      accepts, that was not queued anew and of which nothing was overtaken, unless it reboots once more. */
  lemma ResyncRestores(env: Env, kv: Stored, routes: seq<Route>, device: string, order: seq<string>, key: string,
                       now: real, before: seq<Event>, mid: seq<Event>, after: seq<Event>)
    requires Storable(kv, order) && Lists(order, RoutedKeys(kv, routes, device))
             && Routed(kv, routes, Param(device, key))
    requires env.valid(Param(device, key), kv[key].value)
    requires forall j :: 0 <= j < |after| ==> LeavesLast(after[j], Param(device, key))
    requires var es := before + [Reboot(device)] + mid + Additions(kv, device, order, now) + after;
             Possible(env, START, es) && InOrder(env, START, es, Param(device, key))
    ensures var n := Run(env, START, before + [Reboot(device)] + mid + Additions(kv, device, order, now) + after);
            var p := Param(device, key);
            Quiet(n) ==>
              && p in n.held && n.held[p] == kv[key].value
              && (p in n.d.pending ==> n.d.pending[p].value == kv[key].value)
              && (p in n.d.unsynced <==> p in n.givenUp || (p in n.answer && n.answer[p] == "persist_failed"))
  {
    hide Run, Possible, InOrder, Quiet, Routed, RouteOf;
    var p, es := Param(device, key), before + [Reboot(device)] + mid + Additions(kv, device, order, now) + after;
    var k := Position(kv, routes, device, order, key, now, before, mid, after);
    AddedIsLast(env, START, es, k);
    Converges(env, es, p);
  }

  /** The event of the run that queues the setting; it is the last one about it. */
  lemma Position(kv: Stored, routes: seq<Route>, device: string, order: seq<string>, key: string, now: real,
                 before: seq<Event>, mid: seq<Event>, after: seq<Event>) returns (k: nat)
    requires Storable(kv, order) && Lists(order, RoutedKeys(kv, routes, device))
             && Routed(kv, routes, Param(device, key))
    requires forall j :: 0 <= j < |after| ==> LeavesLast(after[j], Param(device, key))
    ensures var es := before + [Reboot(device)] + mid + Additions(kv, device, order, now) + after;
            && k < |es| && es[k] == Add(Param(device, key), kv[key].value, now)
            && forall j :: k < j < |es| ==> LeavesLast(es[j], Param(device, key))
  {
    hide RouteOf;
    var adds := Additions(kv, device, order, now);
    var es, start := before + [Reboot(device)] + mid + adds + after, |before| + 1 + |mid|;
    assert key in RoutedKeys(kv, routes, device);
    var i :| 0 <= i < |order| && order[i] == key;
    k := start + i;
    assert es[k] == adds[i];
    forall j | k < j < |es| ensures LeavesLast(es[j], Param(device, key)) {
      if j < start + |adds| {
        assert es[j] == adds[j - start] && order[j - start] != order[i];
      } else {
        assert es[j] == after[j - start - |adds|];
      }
    }
  }
}
