/** Whole runs of the dispatcher under any interleaving: flushes may overlap, publishing may fail, messages
    and acks may be lost or late. No queued setting is ever forgotten, and retries are bounded. */
module DispatcherRuns {
  import opened Options
  import opened Dispatcher

  /** The local variables of a running flush: still to publish, published but not recorded yet, failed. */
  datatype Flight = Flight(items: map<Param, string>, sent: map<Param, string>, failed: map<Param, string>)

  datatype Gateway = Gateway(d: State, flights: seq<Flight>)

  const START := Gateway(IDLE, [])

  /** One uninterrupted section of some coroutine, or the outcome of a publish it waited for. */
  datatype Event =
    | Add(p: Param, value: string, now: real)
    | TimerFires
    | Begin
    | Publish(i: nat, device: string)
    | PublishFails(i: nat, device: string)
    | Recorded(i: nat, device: string, now: real)
    | Finish(i: nat, now: real)
    | Ack(acked: map<Param, string>)
    | Check(now: real, timeout: real)

  predicate Enabled(g: Gateway, e: Event) {
    match e
    case Publish(i, _) => i < |g.flights|
    case PublishFails(i, _) => i < |g.flights|
    case Recorded(i, _, _) => i < |g.flights|
    case Finish(i, _) => i < |g.flights| && g.flights[i].items == map[] && g.flights[i].sent == map[]
    case _ => true
  }

  function Apply(c: Delays, g: Gateway, e: Event): Gateway
    requires Enabled(g, e)
  {
    match e
    case Add(p, value, now) => g.(d := AddParam(g.d, c, p, value, now))
    case TimerFires => g.(d := g.d.(timer := None))
    case Begin => Gateway(Take(g.d), g.flights + [Flight(g.d.store, map[], map[])])
    case Publish(i, device) =>
      var f := g.flights[i];
      g.(flights := g.flights[i := f.(items := Without(f.items, device), sent := f.sent + Only(f.items, device))])
    case PublishFails(i, device) =>
      var f := g.flights[i];
      g.(flights := g.flights[i := f.(items := Without(f.items, device), failed := f.failed + Only(f.items, device))])
    case Recorded(i, device, now) =>
      var f := g.flights[i];
      Gateway(Record(g.d, Only(f.sent, device), now), g.flights[i := f.(sent := Without(f.sent, device))])
    case Finish(i, now) =>
      Gateway(Restore(g.d, c, g.flights[i].failed, now), g.flights[..i] + g.flights[i + 1..])
    case Ack(acked) => g.(d := HandleAck(g.d, acked))
    case Check(now, timeout) => g.(d := CheckTimeouts(g.d, now, timeout))
  }

  predicate Possible(c: Delays, g: Gateway, es: seq<Event>)
    decreases |es|
  {
    es == [] || (Enabled(g, es[0]) && Possible(c, Apply(c, g, es[0]), es[1..]))
  }

  function Run(c: Delays, g: Gateway, es: seq<Event>): Gateway
    requires Possible(c, g, es)
    decreases |es|
  {
    if es == [] then g else Run(c, Apply(c, g, es[0]), es[1..])
  }

  lemma {:induction false} RunSplits(c: Delays, g: Gateway, es: seq<Event>, i: nat)
    requires Possible(c, g, es) && i <= |es|
    ensures Possible(c, g, es[..i]) && Possible(c, Run(c, g, es[..i]), es[i..])
    ensures Run(c, g, es) == Run(c, Run(c, g, es[..i]), es[i..])
    decreases |es|
  {
    if i == 0 {
      assert es[0..] == es;
    } else {
      RunSplits(c, Apply(c, g, es[0]), es[1..], i - 1);
      assert es[..i][1..] == es[1..][..i - 1];
      assert es[1..][i - 1..] == es[i..];
    }
  }

  // ---- Conservation ----

  predicate Holds(f: Flight, p: Param) { p in f.items || p in f.sent || p in f.failed }

  predicate InFlight(g: Gateway, p: Param) { exists i :: 0 <= i < |g.flights| && Holds(g.flights[i], p) }

  /** The gateway still knows that p is not confirmed. */
  predicate Tracked(g: Gateway, p: Param) {
    p in g.d.store || InFlight(g, p) || p in g.d.pending || p in g.d.unsynced
  }

  predicate Confirms(e: Event, p: Param) {
    e.Ack? && p in e.acked && e.acked[p] == "ok"
  }

  predicate Adds(e: Event, p: Param) { e.Add? && e.p == p }

  predicate Names(e: Event, p: Param) { e.Ack? && p in e.acked }

  lemma FlightStep(c: Delays, g: Gateway, e: Event, p: Param)
    requires Enabled(g, e) && InFlight(g, p)
    ensures InFlight(Apply(c, g, e), p) || p in Apply(c, g, e).d.store || p in Apply(c, g, e).d.pending
  {
    var h := Apply(c, g, e);
    var j :| 0 <= j < |g.flights| && Holds(g.flights[j], p);
    if e.Finish? {
      if j < e.i { assert h.flights[j] == g.flights[j]; }
      if j > e.i { assert h.flights[j - 1] == g.flights[j]; }
    } else {
      if e.Recorded? && e.i == j && p in g.flights[j].sent && p.device == e.device {
        assert p in Only(g.flights[j].sent, e.device);
      } else {
        assert j < |h.flights| && Holds(h.flights[j], p);
      }
    }
  }

  lemma StepTracks(c: Delays, g: Gateway, e: Event, p: Param)
    requires Enabled(g, e) && (Tracked(g, p) || Adds(e, p)) && !Confirms(e, p)
    ensures Tracked(Apply(c, g, e), p)
  {
    if InFlight(g, p) {
      FlightStep(c, g, e, p);
    } else if e.Begin? && p in g.d.store {
      assert Holds(Apply(c, g, e).flights[|g.flights|], p);
    }
  }

  lemma {:induction false} RunTracks(c: Delays, g: Gateway, es: seq<Event>, p: Param)
    requires Possible(c, g, es) && Tracked(g, p)
    requires forall k :: 0 <= k < |es| ==> !Confirms(es[k], p)
    ensures Tracked(Run(c, g, es), p)
    decreases |es|
  {
    if es != [] {
      StepTracks(c, g, es[0], p);
      RunTracks(c, Apply(c, g, es[0]), es[1..], p);
    }
  }

  /** A setting once added stays queued, in flight, pending or unsynced until an "ok" names it. */
  lemma Conservation(c: Delays, es: seq<Event>, i: nat, p: Param)
    requires Possible(c, START, es) && i < |es| && Adds(es[i], p)
    requires forall k :: i < k < |es| ==> !Confirms(es[k], p)
    ensures Tracked(Run(c, START, es), p)
  {
    RunSplits(c, START, es, i);
    var g, rest := Run(c, START, es[..i]), es[i..];
    assert rest[0] == es[i];
    StepTracks(c, g, rest[0], p);
    RunTracks(c, Apply(c, g, rest[0]), rest[1..], p);
  }

  /** A setting once added and not confirmed since is shown as pending or unsynced, except while a flush holds it. */
  lemma StatusShowsUnconfirmed(c: Delays, es: seq<Event>, i: nat, p: Param)
    requires Possible(c, START, es) && i < |es| && Adds(es[i], p)
    requires forall k :: i < k < |es| ==> !Confirms(es[k], p)
    ensures var g := Run(c, START, es); ShownPending(g.d, p) || ShownUnsynced(g.d, p) || InFlight(g, p)
  {
    hide Run, Possible, SyncStatus;
    Conservation(c, es, i, p);
    StatusShows(Run(c, START, es).d, p);
  }

  /** With no flush holding it, a parameter is shown if and only if the gateway knows it as not confirmed. */
  lemma ShownIffTracked(g: Gateway, p: Param)
    requires !InFlight(g, p)
    ensures Tracked(g, p) <==> ShownPending(g.d, p) || ShownUnsynced(g.d, p)
  {
    hide SyncStatus;
    StatusShows(g.d, p);
  }

  // ---- Bounded publishing ----

  predicate Has(m: map<Param, string>, p: Param, value: string) { p in m && m[p] == value }

  /** How often this value of p may still be published from a flight: once itself, and MAX_RETRIES times after its
      record. */
  function FlightCredit(f: Flight, p: Param, value: string): nat {
    (if Has(f.items, p, value) then 1 + MAX_RETRIES else 0) + (if Has(f.sent, p, value) then MAX_RETRIES else 0)
    + if Has(f.failed, p, value) then 1 + MAX_RETRIES else 0
  }

  function FlightsCredit(fs: seq<Flight>, p: Param, value: string): nat {
    if fs == [] then 0 else FlightCredit(fs[0], p, value) + FlightsCredit(fs[1..], p, value)
  }

  predicate Counted(d: State) { forall p :: p in d.pending ==> d.pending[p].retries <= MAX_RETRIES }

  function PendingCredit(d: State, p: Param, value: string): nat
    requires Counted(d)
  {
    if p in d.pending && d.pending[p].value == value then MAX_RETRIES - d.pending[p].retries else 0
  }

  function Credit(g: Gateway, p: Param, value: string): nat
    requires Counted(g.d)
  {
    (if Has(g.d.store, p, value) then 1 + MAX_RETRIES else 0) + FlightsCredit(g.flights, p, value)
    + PendingCredit(g.d, p, value)
  }

  /** This value of p leaves for the broker in this event (a retry counts even if its publish fails). */
  predicate Publishes(g: Gateway, e: Event, p: Param, value: string)
    requires Enabled(g, e)
  {
    match e
    case Publish(i, device) => p.device == device && Has(g.flights[i].items, p, value)
    case Check(now, timeout) => Retried(g.d, p, now, timeout) && g.d.pending[p].value == value
    case _ => false
  }

  predicate AddsValue(e: Event, p: Param, value: string) { Adds(e, p) && e.value == value }

  function Publications(c: Delays, g: Gateway, es: seq<Event>, p: Param, value: string): nat
    requires Possible(c, g, es)
    decreases |es|
  {
    if es == [] then 0
    else (if Publishes(g, es[0], p, value) then 1 else 0) + Publications(c, Apply(c, g, es[0]), es[1..], p, value)
  }

  /** How often the value is queued for p. */
  function Additions(es: seq<Event>, p: Param, value: string): nat {
    if es == [] then 0 else (if AddsValue(es[0], p, value) then 1 else 0) + Additions(es[1..], p, value)
  }

  lemma {:induction false} CreditSplits(fs: seq<Flight>, i: nat, p: Param, value: string)
    requires i < |fs|
    ensures FlightsCredit(fs, p, value)
            == FlightsCredit(fs[..i], p, value) + FlightCredit(fs[i], p, value) + FlightsCredit(fs[i + 1..], p, value)
  {
    if i > 0 {
      CreditSplits(fs[1..], i - 1, p, value);
      assert fs[1..][..i - 1] == fs[..i][1..];
      assert fs[1..][i..] == fs[i + 1..];
    }
  }

  lemma {:induction false} CreditJoins(fs: seq<Flight>, gs: seq<Flight>, p: Param, value: string)
    ensures FlightsCredit(fs + gs, p, value) == FlightsCredit(fs, p, value) + FlightsCredit(gs, p, value)
  {
    if fs == [] {
      assert fs + gs == gs;
    } else {
      CreditJoins(fs[1..], gs, p, value);
      assert (fs + gs)[1..] == fs[1..] + gs;
    }
  }

  lemma CreditReplaces(fs: seq<Flight>, i: nat, f: Flight, p: Param, value: string)
    requires i < |fs|
    ensures FlightsCredit(fs[i := f], p, value) + FlightCredit(fs[i], p, value)
            == FlightsCredit(fs, p, value) + FlightCredit(f, p, value)
  {
    CreditSplits(fs, i, p, value);
    CreditSplits(fs[i := f], i, p, value);
    assert fs[i := f][..i] == fs[..i];
    assert fs[i := f][i + 1..] == fs[i + 1..];
  }

  lemma StepCounted(c: Delays, g: Gateway, e: Event)
    requires Enabled(g, e) && Counted(g.d)
    ensures Counted(Apply(c, g, e).d)
  {
  }

  lemma FlightCreditStep(c: Delays, g: Gateway, e: Event, p: Param, value: string)
    requires Enabled(g, e) && Counted(g.d) && (e.Publish? || e.PublishFails?)
    ensures FlightCredit(Apply(c, g, e).flights[e.i], p, value) + (if Publishes(g, e, p, value) then 1 else 0)
            <= FlightCredit(g.flights[e.i], p, value)
  {
  }

  lemma RecordCredit(d: State, params: map<Param, string>, now: real, p: Param, value: string)
    requires Counted(d)
    ensures Counted(Record(d, params, now))
    ensures PendingCredit(Record(d, params, now), p, value)
            <= PendingCredit(d, p, value) + if Has(params, p, value) then MAX_RETRIES else 0
  {
  }

  /** A value queued anew gets a credit of its own; every publication costs one. */
  lemma StepCredit(c: Delays, g: Gateway, e: Event, p: Param, value: string)
    requires Enabled(g, e) && Counted(g.d)
    ensures Counted(Apply(c, g, e).d)
    ensures Credit(Apply(c, g, e), p, value) + (if Publishes(g, e, p, value) then 1 else 0)
            <= Credit(g, p, value) + if AddsValue(e, p, value) then 1 + MAX_RETRIES else 0
  {
    if e.Publish? || e.PublishFails? {
      FlightCreditStep(c, g, e, p, value);
      CreditReplaces(g.flights, e.i, Apply(c, g, e).flights[e.i], p, value);
    } else if e.Recorded? {
      RecordedCredit(c, g, e, p, value);
    } else {
      QueueCredit(c, g, e, p, value);
    }
  }

  lemma SumCredit(d: State, d': State, fs: seq<Flight>, fs': seq<Flight>, recorded: nat, p: Param, value: string)
    requires Counted(d) && Counted(d') && d'.store == d.store
    requires PendingCredit(d', p, value) <= PendingCredit(d, p, value) + recorded
    requires FlightsCredit(fs', p, value) + recorded <= FlightsCredit(fs, p, value)
    ensures Credit(Gateway(d', fs'), p, value) <= Credit(Gateway(d, fs), p, value)
  {
  }

  lemma RecordedFlight(f: Flight, device: string, p: Param, value: string)
    ensures FlightCredit(f.(sent := Without(f.sent, device)), p, value)
            + (if Has(Only(f.sent, device), p, value) then MAX_RETRIES else 0) <= FlightCredit(f, p, value)
  {
  }

  lemma RecordedCredit(c: Delays, g: Gateway, e: Event, p: Param, value: string)
    requires Enabled(g, e) && Counted(g.d) && e.Recorded?
    ensures Counted(Apply(c, g, e).d)
    ensures Credit(Apply(c, g, e), p, value) <= Credit(g, p, value)
  {
    var f := g.flights[e.i];
    var f' := f.(sent := Without(f.sent, e.device));
    var params := Only(f.sent, e.device);
    var d' := Record(g.d, params, e.now);
    RecordedFlight(f, e.device, p, value);
    CreditReplaces(g.flights, e.i, f', p, value);
    RecordCredit(g.d, params, e.now, p, value);
    SumCredit(g.d, d', g.flights, g.flights[e.i := f'], if Has(params, p, value) then MAX_RETRIES else 0, p, value);
  }

  lemma QueueCredit(c: Delays, g: Gateway, e: Event, p: Param, value: string)
    requires Enabled(g, e) && Counted(g.d) && !(e.Publish? || e.PublishFails? || e.Recorded?)
    ensures Counted(Apply(c, g, e).d)
    ensures Credit(Apply(c, g, e), p, value) + (if Publishes(g, e, p, value) then 1 else 0)
            <= Credit(g, p, value) + if AddsValue(e, p, value) then 1 + MAX_RETRIES else 0
  {
    if e.Begin? {
      CreditJoins(g.flights, [Flight(g.d.store, map[], map[])], p, value);
    } else if e.Finish? {
      CreditSplits(g.flights, e.i, p, value);
      CreditJoins(g.flights[..e.i], g.flights[e.i + 1..], p, value);
    }
  }

  /** The publications of a value of p never exceed its credit and what the value gets by being queued again, whatever
      else happens, other values of p included. */
  lemma {:induction false} BoundedPublishing(c: Delays, g: Gateway, es: seq<Event>, p: Param, value: string)
    requires Possible(c, g, es) && Counted(g.d)
    ensures Counted(Run(c, g, es).d)
    ensures Publications(c, g, es, p, value) + Credit(Run(c, g, es), p, value)
            <= Credit(g, p, value) + (1 + MAX_RETRIES) * Additions(es, p, value)
    decreases |es|
  {
    if es != [] {
      StepCredit(c, g, es[0], p, value);
      BoundedPublishing(c, Apply(c, g, es[0]), es[1..], p, value);
    }
  }

  /** In every run a value goes out at most 1 + MAX_RETRIES times for each time it was queued. */
  lemma AtMostThreeTimes(c: Delays, es: seq<Event>, p: Param, value: string)
    requires Possible(c, START, es)
    ensures Publications(c, START, es, p, value) <= (1 + MAX_RETRIES) * Additions(es, p, value)
  {
    BoundedPublishing(c, START, es, p, value);
  }

  // ---- Giving up ----

  predicate OverdueCheck(g: Gateway, e: Event, p: Param) { e.Check? && Overdue(g.d, p, e.now, e.timeout) }

  function OverdueChecks(c: Delays, g: Gateway, es: seq<Event>, p: Param): nat
    requires Possible(c, g, es)
    decreases |es|
  {
    if es == [] then 0
    else (if OverdueCheck(g, es[0], p) then 1 else 0) + OverdueChecks(c, Apply(c, g, es[0]), es[1..], p)
  }

  /** Nothing but the pending record and the unsynced mark is left of p. */
  predicate OnlyAwaited(g: Gateway, p: Param) { p !in g.d.store && !InFlight(g, p) }

  lemma StaysAwaited(c: Delays, g: Gateway, e: Event, p: Param)
    requires Enabled(g, e) && OnlyAwaited(g, p) && !Adds(e, p)
    ensures OnlyAwaited(Apply(c, g, e), p)
    ensures !Names(e, p) && p in g.d.unsynced ==> p in Apply(c, g, e).d.unsynced
    ensures !Names(e, p) && !OverdueCheck(g, e, p) && p in g.d.pending ==>
              p in Apply(c, g, e).d.pending && Apply(c, g, e).d.pending[p] == g.d.pending[p]
    ensures p !in g.d.pending ==> p !in Apply(c, g, e).d.pending
  {
    var h := Apply(c, g, e);
    forall j | 0 <= j < |h.flights| ensures !Holds(h.flights[j], p) {
      if e.Finish? {
        if j < e.i { assert !Holds(g.flights[j], p); } else { assert !Holds(g.flights[j + 1], p); }
      } else if j < |g.flights| {
        assert !Holds(g.flights[j], p);
      }
    }
    if e.Recorded? || e.Finish? { assert !Holds(g.flights[e.i], p); }
  }

  /** With no new value and no ack, p is retried at each overdue check and given up at the one after the last retry. */
  lemma {:induction false} GivesUpAfterRetries(c: Delays, g: Gateway, es: seq<Event>, p: Param)
    requires Possible(c, g, es) && Counted(g.d) && OnlyAwaited(g, p) && p in g.d.pending
    requires forall k :: 0 <= k < |es| ==> !Adds(es[k], p) && !Names(es[k], p)
    ensures var n := OverdueChecks(c, g, es, p) + g.d.pending[p].retries;
            var d := Run(c, g, es).d;
            if n <= MAX_RETRIES then p in d.pending && d.pending[p].retries == n
            else p in d.unsynced && p !in d.pending
    decreases |es|
  {
    if es != [] {
      var h := Apply(c, g, es[0]);
      StaysAwaited(c, g, es[0], p);
      StepCounted(c, g, es[0]);
      if p in h.d.pending {
        GivesUpAfterRetries(c, h, es[1..], p);
      } else {
        assert OverdueCheck(g, es[0], p) && g.d.pending[p].retries == MAX_RETRIES;
        StaysUnsynced(c, h, es[1..], p);
      }
    }
  }

  lemma {:induction false} StaysUnsynced(c: Delays, g: Gateway, es: seq<Event>, p: Param)
    requires Possible(c, g, es) && OnlyAwaited(g, p) && p in g.d.unsynced && p !in g.d.pending
    requires forall k :: 0 <= k < |es| ==> !Adds(es[k], p) && !Names(es[k], p)
    ensures p in Run(c, g, es).d.unsynced && p !in Run(c, g, es).d.pending
    ensures OverdueChecks(c, g, es, p) == 0
    decreases |es|
  {
    if es != [] {
      StaysAwaited(c, g, es[0], p);
      StaysUnsynced(c, Apply(c, g, es[0]), es[1..], p);
    }
  }

  /** How many checks come more than their timeout after `since` or after the last one that did. */
  function LateChecks(es: seq<Event>, since: real): nat {
    if es == [] then 0
    else if es[0].Check? && es[0].now - since > es[0].timeout then 1 + LateChecks(es[1..], es[0].now)
    else LateChecks(es[1..], since)
  }

  lemma CheckOverdue(c: Delays, g: Gateway, e: Event, p: Param)
    requires e.Check? && p in g.d.pending
    ensures var cmd, d, again := g.d.pending[p], Apply(c, g, e).d, ToRetry(g.d, e.now, e.timeout);
            if e.now - cmd.sentAt > e.timeout then
              if cmd.retries < 2 then
                && p in d.pending && d.pending[p] == PendingCommand(cmd.value, e.now, cmd.retries + 1)
                && p in again && again[p] == cmd.value
              else p !in d.pending && p in d.unsynced
            else p in d.pending && d.pending[p] == cmd && p !in again
  {
  }

  /** The same by the clock: published at `sentAt` or retried since, a value with no ack and no new value is retried at
      each check that comes later than its timeout after that, twice, and given up at the third such check. */
  lemma {:induction false} GivesUpOnTime(c: Delays, g: Gateway, es: seq<Event>, p: Param)
    requires Possible(c, g, es) && Counted(g.d) && OnlyAwaited(g, p) && p in g.d.pending
    requires forall k :: 0 <= k < |es| ==> !Adds(es[k], p) && !Names(es[k], p)
    ensures var n := LateChecks(es, g.d.pending[p].sentAt) + g.d.pending[p].retries;
            var d := Run(c, g, es).d;
            if n <= 2 then p in d.pending && d.pending[p].retries == n && d.pending[p].value == g.d.pending[p].value
            else p in d.unsynced && p !in d.pending
    decreases |es|
  {
    if es != [] {
      StaysAwaited(c, g, es[0], p);
      StepCounted(c, g, es[0]);
      if es[0].Check? { CheckOverdue(c, g, es[0], p); }
      var h := Apply(c, g, es[0]);
      if p in h.d.pending {
        GivesUpOnTime(c, h, es[1..], p);
      } else {
        StaysUnsynced(c, h, es[1..], p);
      }
    }
  }

  /** Recording a publication starts that clock. */
  lemma RecordedNow(c: Delays, g: Gateway, i: nat, device: string, now: real, p: Param)
    requires i < |g.flights| && p in g.flights[i].sent && p.device == device
    ensures var d := Apply(c, g, Recorded(i, device, now)).d;
            p in d.pending && d.pending[p] == PendingCommand(g.flights[i].sent[p], now, 0)
  {
  }
}

/** The debounce: a steady stream of changes cannot postpone sending. Timers fire on time here. */
module Debounce {
  import opened Options
  import opened Reals
  import opened Dispatcher

  /** The dispatcher with the clock, the time of the last failed flush and the flushes started but not begun. */
  datatype Timed = Timed(d: State, now: real, lastFailed: Option<real>, started: nat)

  datatype Event =
    | Add(p: Param, value: string)
    | Elapse(dt: real)
    | TimerFires
    | Begin
    | FlushFails(failed: map<Param, string>)

  predicate Enabled(t: Timed, e: Event) {
    match e
    case Add(_, _) => true
    case Elapse(dt) => dt >= 0.0 && t.started == 0 && (t.d.timer.Some? ==> t.now + dt <= t.d.timer.value)
    case TimerFires => t.d.timer == Some(t.now)
    case Begin => t.started > 0
    case FlushFails(failed) => failed != map[]
  }

  function Apply(c: Delays, t: Timed, e: Event): Timed
    requires Enabled(t, e)
  {
    match e
    case Add(p, value) => t.(d := AddParam(t.d, c, p, value, t.now))
    case Elapse(dt) => t.(now := t.now + dt)
    case TimerFires => t.(d := t.d.(timer := None), started := t.started + 1)
    case Begin => t.(d := Take(t.d), started := t.started - 1)
    case FlushFails(failed) => t.(d := Restore(t.d, c, failed, t.now), lastFailed := Some(t.now))
  }

  /** When the queued batch must have been taken at the latest. */
  function Limit(c: Delays, t: Timed): real
    requires t.d.batchStarted.Some?
  {
    var byBatch := t.d.batchStarted.value + c.maxWait;
    if t.lastFailed.Some? then Max(byBatch, t.lastFailed.value + c.retryDelay) else byBatch
  }

  predicate Sound(c: Delays, t: Timed) {
    && (t.d.store != map[] <==> t.d.batchStarted.Some?)
    && (t.d.timer.Some? ==> t.now <= t.d.timer.value)
    && (t.d.store != map[] ==>
          && (t.d.timer.Some? || t.started > 0)
          && (t.d.timer.Some? ==> t.d.timer.value <= Limit(c, t))
          && t.now <= Limit(c, t))
  }

  lemma StepSound(c: Delays, t: Timed, e: Event)
    requires c.Valid() && Sound(c, t) && Enabled(t, e)
    ensures Sound(c, Apply(c, t, e))
    ensures t.d.batchStarted.Some? && Apply(c, t, e).d.batchStarted.Some? ==>
              Apply(c, t, e).d.batchStarted == t.d.batchStarted
  {
    var u := Apply(c, t, e);
    match e
    case Add(p, value) => assert p in u.d.store;
    case FlushFails(failed) =>
      var p :| p in failed;
      assert p in u.d.store;
    case _ =>
  }

  /** `ts[k]` is the state before event `k`; the dispatcher starts idle. */
  ghost predicate IsRun(c: Delays, es: seq<Event>, ts: seq<Timed>) {
    && |ts| == |es| + 1
    && ts[0] == Timed(IDLE, ts[0].now, None, 0)
    && forall k :: 0 <= k < |es| ==> Enabled(ts[k], es[k]) && ts[k+1] == Apply(c, ts[k], es[k])
  }

  lemma {:induction false} RunSound(c: Delays, es: seq<Event>, ts: seq<Timed>, k: nat)
    requires c.Valid() && IsRun(c, es, ts) && k <= |es|
    ensures Sound(c, ts[k])
  {
    if k > 0 {
      RunSound(c, es, ts, k - 1);
      StepSound(c, ts[k - 1], es[k - 1]);
    }
  }

  /** After any run, a non-empty queue has an armed timer (or a flush about to take it) that fires within max_wait of
      the batch's first change or retry_delay of the last failed flush, and that moment has not passed. */
  lemma SendingNotPostponed(c: Delays, es: seq<Event>, ts: seq<Timed>)
    requires c.Valid() && IsRun(c, es, ts)
    ensures var t := ts[|es|];
            t.d.store != map[] ==>
              && t.d.batchStarted.Some? && t.now <= Limit(c, t)
              && (t.started > 0 || (t.d.timer.Some? && t.now <= t.d.timer.value <= Limit(c, t)))
  {
    RunSound(c, es, ts, |es|);
  }

  // ---- When exactly the timer fires, told from the history alone ----

  /** A change, or a failed flush that puts its values back. */
  predicate Arms(e: Event) { e.Add? || e.FlushFails? }

  /** Of the first `k` events, `b` is the one that began the batch now queued: the first since the last taking. */
  ghost predicate BeginsBatch(es: seq<Event>, b: nat, k: nat)
    requires k <= |es|
  {
    && b < k && Arms(es[b])
    && (forall i :: b < i < k ==> !es[i].Begin?)
    && (forall i :: 0 <= i < b && Arms(es[i]) ==> exists j :: i < j < b && es[j].Begin?)
  }

  /** Of the first `k` events, `j` is the last change or failed flush, and no timer has fired since. */
  ghost predicate ArmedLast(es: seq<Event>, j: nat, k: nat)
    requires k <= |es|
  {
    j < k && Arms(es[j]) && forall i :: j < i < k ==> !Arms(es[i]) && !es[i].TimerFires?
  }

  lemma {:induction false} BatchStart(c: Delays, es: seq<Event>, ts: seq<Timed>, k: nat) returns (b: nat)
    requires c.Valid() && IsRun(c, es, ts) && k <= |es| && ts[k].d.batchStarted.Some?
    ensures BeginsBatch(es, b, k) && ts[k].d.batchStarted.value == ts[b].now
  {
    var t, e := ts[k - 1], es[k - 1];
    if t.d.batchStarted.Some? {
      b := BatchStart(c, es, ts, k - 1);
    } else {
      b := k - 1;
      forall i | 0 <= i < b && Arms(es[i]) ensures exists j :: i < j < b && es[j].Begin? {
        var j := TakenSince(c, es, ts, i, b);
      }
    }
  }

  /** A queue that was filled and is empty again has been taken. */
  lemma {:induction false} TakenSince(c: Delays, es: seq<Event>, ts: seq<Timed>, i: nat, k: nat) returns (j: nat)
    requires c.Valid() && IsRun(c, es, ts) && i < k <= |es| && Arms(es[i]) && ts[k].d.batchStarted.None?
    ensures i < j < k && es[j].Begin?
  {
    if es[k - 1].Begin? && i < k - 1 {
      j := k - 1;
    } else {
      j := TakenSince(c, es, ts, i, k - 1);
    }
  }

  /** What each event does to the timer: a change waits for the debounce, but not past the maximum wait of its batch. */
  lemma TimerAfter(c: Delays, t: Timed, e: Event)
    requires c.Valid() && Sound(c, t) && Enabled(t, e)
    ensures var u := Apply(c, t, e).d;
            var first := if t.d.batchStarted.Some? then t.d.batchStarted.value else t.now;
            if e.Add? then
              && u.batchStarted == Some(first)
              && u.timer == Some(Max(t.now, Min(t.now + c.debounce, first + c.maxWait)))
            else if e.FlushFails? then u.batchStarted == Some(first) && u.timer == Some(t.now + c.retryDelay)
            else u.timer == if e.TimerFires? then None else t.d.timer
  {
  }

  lemma ArmedBefore(es: seq<Event>, i: nat, k: nat)
    requires 0 < k <= |es| && !Arms(es[k - 1])
    ensures ArmedLast(es, i, k) <==> ArmedLast(es, i, k - 1) && !es[k - 1].TimerFires?
  {
  }

  /** The debounce exactly: the timer is armed if and only if a change or a failed flush came after the last firing.
      After a change it is set to the debounce from then, but no later than the maximum wait after the event that
      began the batch; after a failed flush to the retry delay from then. */
  lemma {:induction false} TimerIsHistory(c: Delays, es: seq<Event>, ts: seq<Timed>, k: nat)
    returns (j: nat, b: nat)
    requires c.Valid() && IsRun(c, es, ts) && k <= |es|
    ensures ts[k].d.timer.Some? <==> exists i :: ArmedLast(es, i, k)
    ensures ts[k].d.timer.Some? ==>
              && ArmedLast(es, j, k) && BeginsBatch(es, b, j + 1)
              && ts[k].d.timer.value == if es[j].FlushFails? then ts[j].now + c.retryDelay
                                        else Max(ts[j].now, Min(ts[j].now + c.debounce, ts[b].now + c.maxWait))
  {
    hide AddParam, Restore, Take, Enabled, Max, Min;
    j, b := 0, 0;
    if k > 0 {
      j, b := TimerIsHistory(c, es, ts, k - 1);
      RunSound(c, es, ts, k - 1);
      TimerAfter(c, ts[k - 1], es[k - 1]);
      if Arms(es[k - 1]) {
        j := k - 1;
        b := BatchStart(c, es, ts, k);
        assert ArmedLast(es, j, k);
      } else {
        ArmedBefore(es, j, k);
        forall i: nat | ArmedLast(es, i, k) ensures ts[k].d.timer.Some? {
          ArmedBefore(es, i, k);
        }
      }
    }
  }

  /** The timer fires less than the debounce after the last change only at the end of the maximum wait of the batch, or
      for a failed flush that came after that change. */
  lemma FiresWhenQuiet(c: Delays, es: seq<Event>, ts: seq<Timed>, k: nat, a: nat) returns (b: nat)
    requires c.Valid() && IsRun(c, es, ts) && k < |es| && es[k].TimerFires?
    requires a < k && es[a].Add? && forall i :: a < i < k ==> !es[i].Add?
    ensures (exists i :: a < i < k && es[i].FlushFails?) ||
            (BeginsBatch(es, b, a + 1) &&
             ts[k].now == Max(ts[a].now, Min(ts[a].now + c.debounce, ts[b].now + c.maxWait)))
    ensures ts[k].now < ts[a].now + c.debounce ==>
              (exists i :: a < i < k && es[i].FlushFails?) ||
              (BeginsBatch(es, b, a + 1) && ts[k].now == Max(ts[a].now, ts[b].now + c.maxWait))
  {
    var j;
    j, b := TimerIsHistory(c, es, ts, k);
  }
}
