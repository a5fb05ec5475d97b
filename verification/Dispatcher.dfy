/** The gateway's command dispatcher: debounce queue, grouped sending, ack tracking with retries. */
module Dispatcher {
  import opened Options
  import opened Reals

  const MAX_RETRIES: nat := 2

  /** One setting of one device. The nested dictionaries of the dispatcher never keep an empty inner
      dictionary, so each is one map over these pairs. */
  datatype Param = Param(device: string, key: string)

  datatype PendingCommand = PendingCommand(value: string, sentAt: real, retries: nat)

  datatype Delays = Delays(debounce: real, maxWait: real, retryDelay: real)
  {
    predicate Valid() { 0.0 <= debounce <= maxWait && 0.0 <= retryDelay }
  }

  /** Everything the dispatcher keeps between two of its uninterrupted sections. */
  datatype State = State(store: map<Param, string>, batchStarted: Option<real>, timer: Option<real>,
                         pending: map<Param, PendingCommand>, unsynced: set<Param>)

  const IDLE := State(map[], None, None, map[], {})

  // ---- The uninterrupted sections, as functions on the state ----

  function ScheduleFlush(s: State, c: Delays, delay: Option<real>, now: real): State {
    var started := if s.batchStarted.None? then now else s.batchStarted.value;
    var wait := if delay.Some? then delay.value
                else Max(0.0, Min(c.debounce, started + c.maxWait - now));
    s.(batchStarted := Some(started), timer := Some(now + wait))
  }

  function AddParam(s: State, c: Delays, p: Param, value: string, now: real): State {
    var t := ScheduleFlush(s.(store := s.store[p := value]), c, None, now);
    t.(unsynced := t.unsynced - {p})
  }

  function Take(s: State): State { s.(store := map[], batchStarted := None) }

  function Record(s: State, params: map<Param, string>, now: real): State {
    s.(pending := s.pending + map p | p in params :: PendingCommand(params[p], now, 0))
  }

  function Restore(s: State, c: Delays, failed: map<Param, string>, now: real): State {
    if failed == map[] then s
    else ScheduleFlush(s.(store := failed + s.store), c, Some(c.retryDelay), now)
  }

  function Refused(acked: map<Param, string>): set<Param> { set p | p in acked && acked[p] != "ok" }

  /** `acked` holds one device's answers. */
  function HandleAck(s: State, acked: map<Param, string>): State {
    s.(pending := s.pending - acked.Keys, unsynced := s.unsynced - acked.Keys + Refused(acked))
  }

  predicate Overdue(s: State, p: Param, now: real, timeout: real) {
    p in s.pending && now - s.pending[p].sentAt > timeout
  }

  predicate Retried(s: State, p: Param, now: real, timeout: real) {
    Overdue(s, p, now, timeout) && s.pending[p].retries < MAX_RETRIES
  }

  predicate Expired(s: State, p: Param, now: real, timeout: real) {
    Overdue(s, p, now, timeout) && s.pending[p].retries >= MAX_RETRIES
  }

  /** The bookkeeping of a pending command after a timeout check it survives. */
  function Checked(s: State, p: Param, now: real, timeout: real): PendingCommand
    requires p in s.pending
  {
    var cmd := s.pending[p];
    if Retried(s, p, now, timeout) then PendingCommand(cmd.value, now, cmd.retries + 1) else cmd
  }

  function CheckTimeouts(s: State, now: real, timeout: real): State {
    s.(pending := map p | p in s.pending && !Expired(s, p, now, timeout) ::
                    Checked(s, p, now, timeout),
       unsynced := s.unsynced + set p | p in s.pending && Expired(s, p, now, timeout))
  }

  /** What a timeout check wants to send again. */
  function ToRetry(s: State, now: real, timeout: real): map<Param, string> {
    map p | p in s.pending && Retried(s, p, now, timeout) :: s.pending[p].value
  }

  /** Of `m`, what is addressed to `device`. */
  function Only(m: map<Param, string>, device: string): map<Param, string> {
    m - set p | p in m && p.device != device
  }

  /** Of `m`, what is addressed to other devices. */
  function Without(m: map<Param, string>, device: string): map<Param, string> {
    m - set p | p in m && p.device == device
  }

  // ---- The dictionary loops of those sections ----

  ghost predicate MergedAt(merged: map<Param, string>, store: map<Param, string>, older: map<Param, string>,
                           todo: set<Param>, p: Param)
  {
    && (p in merged <==> p in store || (p in older && p !in todo))
    && (p in merged ==> merged[p] == if p in store then store[p] else older[p])
  }

  /** Put `older` back under `store`: a key queued meanwhile keeps its newer value. */
  method MergeOlder(store: map<Param, string>, older: map<Param, string>) returns (merged: map<Param, string>)
    ensures merged == older + store
  {
    merged := store;
    var todo := older.Keys;
    while todo != {}
      invariant todo <= older.Keys
      invariant forall p :: MergedAt(merged, store, older, todo, p)
      decreases |todo|
    {
      var p :| p in todo;
      ghost var was, left := merged, todo;
      if p !in merged {
        merged := merged[p := older[p]];
      }
      todo := todo - {p};
      forall q ensures MergedAt(merged, store, older, todo, q) {
        assert MergedAt(was, store, older, left, q);
      }
    }
    forall p ensures p in merged <==> p in older + store { assert MergedAt(merged, store, older, {}, p); }
    forall p | p in merged ensures merged[p] == (older + store)[p] { assert MergedAt(merged, store, older, {}, p); }
  }

  ghost predicate SettledAt(pending': map<Param, PendingCommand>, unsynced': set<Param>,
                            pending: map<Param, PendingCommand>, unsynced: set<Param>,
                            acked: map<Param, string>, todo: set<Param>, p: Param)
  {
    var hit := p in acked && p !in todo;
    && (p in pending' <==> p in pending && !hit)
    && (p in pending' ==> pending'[p] == pending[p])
    && (p in unsynced' <==> p in unsynced && !hit)
  }

  /** Every acked key stops pending and is no longer unsynced. */
  method SettleKeys(pending: map<Param, PendingCommand>, unsynced: set<Param>, acked: map<Param, string>)
    returns (pending': map<Param, PendingCommand>, unsynced': set<Param>)
    ensures pending' == pending - acked.Keys
    ensures unsynced' == unsynced - acked.Keys
  {
    pending', unsynced' := pending, unsynced;
    var todo := acked.Keys;
    while todo != {}
      invariant todo <= acked.Keys
      invariant forall p :: SettledAt(pending', unsynced', pending, unsynced, acked, todo, p)
      decreases |todo|
    {
      var p :| p in todo;
      ghost var pWas, uWas, left := pending', unsynced', todo;
      pending' := pending' - {p};
      unsynced' := unsynced' - {p};
      todo := todo - {p};
      forall q ensures SettledAt(pending', unsynced', pending, unsynced, acked, todo, q) {
        assert SettledAt(pWas, uWas, pending, unsynced, acked, left, q);
      }
    }
    forall p
      ensures p in pending' <==> p in pending - acked.Keys
      ensures p in pending' ==> pending'[p] == pending[p]
      ensures p in unsynced' <==> p in unsynced - acked.Keys
    {
      assert SettledAt(pending', unsynced', pending, unsynced, acked, todo, p);
    }
  }

  /** The refused keys end up unsynced. */
  method MarkRefused(unsynced: set<Param>, acked: map<Param, string>) returns (unsynced': set<Param>)
    ensures unsynced' == unsynced + Refused(acked)
  {
    unsynced' := unsynced;
    var todo := Refused(acked);
    while todo != {}
      invariant todo <= Refused(acked)
      invariant unsynced' == unsynced + (Refused(acked) - todo)
      decreases |todo|
    {
      var p :| p in todo;
      unsynced' := unsynced' + {p};
      todo := todo - {p};
    }
  }

  ghost predicate RecordedAt(pending': map<Param, PendingCommand>, pending: map<Param, PendingCommand>,
                             params: map<Param, string>, now: real, todo: set<Param>, p: Param)
  {
    var hit := p in params && p !in todo;
    && (p in pending' <==> p in pending || hit)
    && (p in pending' ==> pending'[p] == if hit then PendingCommand(params[p], now, 0) else pending[p])
  }

  /** Every key just sent pends with its new value and no retries. */
  method RecordKeys(pending: map<Param, PendingCommand>, params: map<Param, string>, now: real)
    returns (pending': map<Param, PendingCommand>)
    ensures pending' == Record(IDLE.(pending := pending), params, now).pending
  {
    pending' := pending;
    var todo := params.Keys;
    while todo != {}
      invariant todo <= params.Keys
      invariant forall p :: RecordedAt(pending', pending, params, now, todo, p)
      decreases |todo|
    {
      var p :| p in todo;
      ghost var was, left := pending', todo;
      pending' := pending'[p := PendingCommand(params[p], now, 0)];
      todo := todo - {p};
      forall q ensures RecordedAt(pending', pending, params, now, todo, q) {
        assert RecordedAt(was, pending, params, now, left, q);
      }
    }
    var r := Record(IDLE.(pending := pending), params, now).pending;
    forall p ensures (p in pending' <==> p in r) && (p in r ==> pending'[p] == r[p]) {
      assert RecordedAt(pending', pending, params, now, todo, p);
    }
  }

  /** What a timeout check has done to parameter p once it is past it. */
  ghost predicate SweptAt(s: State, now: real, timeout: real, done: bool, p: Param,
                          pending: map<Param, PendingCommand>, unsynced: set<Param>,
                          toRetry: map<Param, string>, failed: set<Param>)
  {
    && (p in pending <==> p in s.pending && !(done && Expired(s, p, now, timeout)))
    && (p in pending ==> pending[p] == if done then Checked(s, p, now, timeout) else s.pending[p])
    && (p in toRetry <==> done && Retried(s, p, now, timeout))
    && (p in toRetry ==> toRetry[p] == s.pending[p].value)
    && (p in failed <==> done && Expired(s, p, now, timeout))
    && (p in unsynced <==> p in s.unsynced || p in failed)
  }

  /** One pass over the pending commands: retry the overdue ones, give up those retried often enough. */
  method SweepPending(s: State, now: real, timeout: real)
    returns (pending: map<Param, PendingCommand>, unsynced: set<Param>,
             toRetry: map<Param, string>, failed: set<Param>)
    ensures forall p :: SweptAt(s, now, timeout, p in s.pending, p, pending, unsynced, toRetry, failed)
  {
    pending, unsynced, toRetry, failed := s.pending, s.unsynced, map[], {};
    var todo := pending.Keys;
    while todo != {}
      invariant todo <= s.pending.Keys
      invariant forall p ::
                  SweptAt(s, now, timeout, p in s.pending && p !in todo, p, pending, unsynced, toRetry, failed)
      decreases |todo|
    {
      var p :| p in todo;
      ghost var p0, u0, t0, f0, left := pending, unsynced, toRetry, failed, todo;
      assert SweptAt(s, now, timeout, false, p, p0, u0, t0, f0);
      var cmd := pending[p];
      if now - cmd.sentAt > timeout {
        if cmd.retries < MAX_RETRIES {
          pending := pending[p := PendingCommand(cmd.value, now, cmd.retries + 1)];
          toRetry := toRetry[p := cmd.value];
        } else {
          failed := failed + {p};
          pending := pending - {p};
          unsynced := unsynced + {p};
        }
      }
      todo := todo - {p};
      forall q ensures SweptAt(s, now, timeout, q in s.pending && q !in todo, q, pending, unsynced, toRetry, failed) {
        assert SweptAt(s, now, timeout, q in s.pending && q !in left, q, p0, u0, t0, f0);
      }
    }
  }

  lemma SweepIsCheck(s: State, now: real, timeout: real, pending: map<Param, PendingCommand>, unsynced: set<Param>,
                     toRetry: map<Param, string>, failed: set<Param>)
    requires forall p :: SweptAt(s, now, timeout, p in s.pending, p, pending, unsynced, toRetry, failed)
    ensures CheckTimeouts(s, now, timeout) == s.(pending := pending, unsynced := unsynced)
    ensures toRetry == ToRetry(s, now, timeout)
    ensures failed == set p | p in s.pending && Expired(s, p, now, timeout)
  {
    var c := CheckTimeouts(s, now, timeout);
    forall p
      ensures p in pending <==> p in c.pending
      ensures p in pending ==> pending[p] == c.pending[p]
      ensures p in unsynced <==> p in c.unsynced
      ensures p in toRetry <==> p in ToRetry(s, now, timeout)
      ensures p in toRetry ==> toRetry[p] == ToRetry(s, now, timeout)[p]
    {
      assert SweptAt(s, now, timeout, p in s.pending, p, pending, unsynced, toRetry, failed);
    }
    assert pending == c.pending;
    forall p ensures p in failed <==> p in s.pending && Expired(s, p, now, timeout) {
      assert SweptAt(s, now, timeout, p in s.pending, p, pending, unsynced, toRetry, failed);
    }
  }

  function DevicesOf(ps: set<Param>): set<string> { set p | p in ps :: p.device }

  /** What became of the retries once some of the devices have been tried. */
  ghost predicate Resent(toRetry: map<Param, string>, works: string -> bool, todo: set<string>,
                         sent: map<string, map<Param, string>>, retried: set<Param>)
  {
    && (forall d :: d in sent <==> d in DevicesOf(toRetry.Keys) && d !in todo && works(d))
    && (forall d :: d in sent ==> sent[d] == Only(toRetry, d))
    && (forall p :: p in retried <==> p in toRetry && p.device !in todo && works(p.device))
  }

  /** The end of a timeout check, after its locked part: one grouped message to each device that has something to
      retry and can be reached; `retried` is what has been sent. */
  method PublishRetries(toRetry: map<Param, string>, works: string -> bool)
    returns (sent: map<string, map<Param, string>>, retried: set<Param>)
    ensures Resent(toRetry, works, {}, sent, retried)
  {
    sent, retried := map[], {};
    var todo := DevicesOf(toRetry.Keys);
    while todo != {}
      invariant todo <= DevicesOf(toRetry.Keys) && Resent(toRetry, works, todo, sent, retried)
      decreases |todo|
    {
      var device :| device in todo;
      if works(device) {
        var params := Only(toRetry, device);
        sent := sent[device := params];
        retried := retried + params.Keys;
      }
      todo := todo - {device};
    }
  }

  // ---- What the user interface shows ----

  /** Keys of one device that are not confirmed yet, and keys refused or given up. */
  datatype DeviceStatus = DeviceStatus(pending: set<string>, unsynced: set<string>)

  function KeysOf(ps: set<Param>, device: string): set<string> { set p | p in ps && p.device == device :: p.key }

  function SyncStatus(s: State): map<string, DeviceStatus> {
    var open := s.pending.Keys + s.store.Keys;
    map device | device in DevicesOf(open + s.unsynced) ::
      DeviceStatus(KeysOf(open, device), KeysOf(s.unsynced, device))
  }

  predicate ShownPending(s: State, p: Param) {
    p.device in SyncStatus(s) && p.key in SyncStatus(s)[p.device].pending
  }

  predicate ShownUnsynced(s: State, p: Param) {
    p.device in SyncStatus(s) && p.key in SyncStatus(s)[p.device].unsynced
  }

  lemma KeyOf(ps: set<Param>, p: Param)
    ensures p.key in KeysOf(ps, p.device) <==> p in ps
    ensures p in ps ==> p.device in DevicesOf(ps)
  {
    if p.key in KeysOf(ps, p.device) {
      var q :| q in ps && q.device == p.device && q.key == p.key;
      assert q == p;
    }
  }

  /** Queued and awaited parameters are shown as pending, the unsynced ones as unsynced, and nothing else. */
  lemma StatusShows(s: State, p: Param)
    ensures ShownPending(s, p) <==> p in s.store || p in s.pending
    ensures ShownUnsynced(s, p) <==> p in s.unsynced
  {
    hide KeysOf, DevicesOf;
    var open := s.pending.Keys + s.store.Keys;
    KeyOf(open, p);
    KeyOf(s.unsynced, p);
    KeyOf(open + s.unsynced, p);
  }

  // ---- The dispatcher itself ----

  class AsyncCommandDispatcher {
    const delays: Delays
    var deviceStore: map<Param, string>
    var batchStarted: Option<real>
    var flushTimer: Option<real>
    var pendingAcks: map<Param, PendingCommand>
    var unsynced: set<Param>

    function View(): State
      reads this
    {
      State(deviceStore, batchStarted, flushTimer, pendingAcks, unsynced)
    }

    constructor (debounce: real, maxWait: real, retryDelay: real)
      ensures View() == IDLE
      ensures delays == Delays(debounce, Max(maxWait, debounce), retryDelay)
    {
      delays := Delays(debounce, Max(maxWait, debounce), retryDelay);
      deviceStore, batchStarted, flushTimer, pendingAcks, unsynced := map[], None, None, map[], {};
    }

    method DoScheduleFlush(delay: Option<real>, now: real)
      modifies this`batchStarted, this`flushTimer
      ensures View() == ScheduleFlush(old(View()), delays, delay, now)
    {
      if batchStarted.None? {
        batchStarted := Some(now);
      }
      var wait: real;
      if delay.None? {
        var deadline := batchStarted.value + delays.maxWait;
        wait := Max(0.0, Min(delays.debounce, deadline - now));
      } else {
        wait := delay.value;
      }
      flushTimer := Some(now + wait);
    }

    /** Queue a parameter; a newer value for the same key replaces the older one. */
    method DoAddParam(device: string, key: string, value: string, now: real)
      modifies this
      ensures View() == AddParam(old(View()), delays, Param(device, key), value, now)
    {
      deviceStore := deviceStore[Param(device, key) := value];
      DoScheduleFlush(None, now);
      unsynced := unsynced - {Param(device, key)};
    }

    /** flush_all up to its first suspension: take everything queued. */
    method FlushTake() returns (items: map<Param, string>)
      modifies this`deviceStore, this`batchStarted
      ensures items == old(deviceStore) && View() == Take(old(View()))
    {
      items := deviceStore;
      deviceStore := map[];
      batchStarted := None;
    }

    /** flush_all after a device's message went out: expect acks for its keys. */
    method FlushRecord(params: map<Param, string>, now: real)
      modifies this`pendingAcks
      ensures View() == Record(old(View()), params, now)
    {
      pendingAcks := RecordKeys(pendingAcks, params, now);
    }

    /** flush_all at its end: failed parameters return to the queue unless a newer value waits there. */
    method FlushRestore(failed: map<Param, string>, now: real)
      modifies this
      ensures View() == Restore(old(View()), delays, failed, now)
    {
      if failed != map[] {
        deviceStore := MergeOlder(deviceStore, failed);
        DoScheduleFlush(Some(delays.retryDelay), now);
      }
    }

    /** Anything but "ok" means the device refused the key: it is unsynced at once, not retried. */
    method DoHandleAck(acked: map<Param, string>) returns (rejected: map<Param, string>)
      modifies this`pendingAcks, this`unsynced
      ensures View() == HandleAck(old(View()), acked)
      ensures rejected == acked - (acked.Keys - Refused(acked))
    {
      rejected := acked - (acked.Keys - Refused(acked));
      pendingAcks, unsynced := SettleKeys(pendingAcks, unsynced, acked);
      unsynced := MarkRefused(unsynced, acked);
    }

    /** Mark overdue commands for another try, or give them up as unsynced after MAX_RETRIES. */
    method CheckAckTimeouts(now: real, timeout: real) returns (toRetry: map<Param, string>, failed: set<Param>)
      modifies this`pendingAcks, this`unsynced
      ensures View() == CheckTimeouts(old(View()), now, timeout)
      ensures toRetry == ToRetry(old(View()), now, timeout)
      ensures failed == set p | p in old(pendingAcks) && Expired(old(View()), p, now, timeout)
    {
      var p, u, t, f := SweepPending(View(), now, timeout);
      SweepIsCheck(View(), now, timeout, p, u, t, f);
      pendingAcks, unsynced, toRetry, failed := p, u, t, f;
    }
  }
}
