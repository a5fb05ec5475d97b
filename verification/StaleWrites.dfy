/** The other half of `Convergence.Converges`: a step that overtakes a parameter can end with the older value on the
    device, at rest and acknowledged, without any new value and without a second such step. */
module StaleWrites {
  import opened Options
  import opened Dispatcher
  import opened Convergence

  // ---- Continuations ----

  /** What a continuation is about: the parameter, and a time before which none of its steps may happen. */
  datatype Aim = Aim(env: Env, p: Param, t: real)

  predicate NotBefore(e: Event, t: real) {
    match e
    case Recorded(_, now) => t <= now
    case Finish(_, now) => t <= now
    case Check(now, _) => t <= now
    case _ => true
  }

  /** No new value, no reboot, nothing overtaken, not before its time. */
  predicate Calm(a: Aim, n: Net, e: Event)
    requires Enabled(n, e)
  {
    !e.Add? && !e.Reboot? && NotBefore(e, a.t) && !Overtakes(n, e, a.p)
  }

  predicate AllCalm(a: Aim, n: Net, es: seq<Event>)
    requires Possible(a.env, n, es)
    decreases |es|
  {
    es == [] || (Calm(a, n, es[0]) && AllCalm(a, Apply(a.env, n, es[0]), es[1..]))
  }

  ghost predicate Leads(a: Aim, n: Net, m: Net) {
    exists es: seq<Event> :: Possible(a.env, n, es) && AllCalm(a, n, es) && Run(a.env, n, es) == m
  }

  /** The states in `reach` contain what any calm step leads to. */
  ghost predicate Closed(a: Aim, reach: Net -> bool) {
    forall n, e :: reach(n) && Enabled(n, e) && Calm(a, n, e) ==> reach(Apply(a.env, n, e))
  }

  lemma {:induction false} CalmExtends(a: Aim, n: Net, es: seq<Event>, e: Event)
    requires Possible(a.env, n, es) && AllCalm(a, n, es)
    requires Enabled(Run(a.env, n, es), e) && Calm(a, Run(a.env, n, es), e)
    ensures Possible(a.env, n, es + [e]) && AllCalm(a, n, es + [e])
    ensures Run(a.env, n, es + [e]) == Apply(a.env, Run(a.env, n, es), e)
    decreases |es|
  {
    hide Apply, Enabled, Calm;
    if es == [] {
      assert (es + [e])[1..] == [];
    } else {
      CalmExtends(a, Apply(a.env, n, es[0]), es[1..], e);
      assert (es + [e])[1..] == es[1..] + [e];
    }
  }

  lemma LeadsIsClosed(a: Aim, n: Net)
    ensures Leads(a, n, n) && Closed(a, m => Leads(a, n, m))
  {
    assert Run(a.env, n, []) == n;
    hide Apply, Enabled, Calm, AllCalm, Possible, Run;
    forall m, e | Leads(a, n, m) && Enabled(m, e) && Calm(a, m, e) ensures Leads(a, n, Apply(a.env, m, e)) {
      var es :| Possible(a.env, n, es) && AllCalm(a, n, es) && Run(a.env, n, es) == m;
      CalmExtends(a, n, es, e);
    }
  }

  // ---- A flush runs to its end ----

  predicate Carried(n: Net, p: Param) { Latest(n.cmds, p).Some? }

  /** What publishing and recording leave alone. */
  predicate SameQueue(n: Net, m: Net) {
    && m.retry == n.retry && m.d.store == n.d.store && m.d.timer == n.d.timer && m.started == n.started
       && m.last == n.last
  }

  predicate AfterFlush(n: Net, m: Net, f: Flush, p: Param, t: real) {
    && SameQueue(n, m)
    && Get(m.sent, p) == (if p in f.items then Get(f.items, p) else Get(n.sent, p))
    && Get(m.d.pending, p) == (if p in f.items then Some(PendingCommand(f.items[p], t, 0))
                               else if p in f.sending then Some(PendingCommand(f.sending[p], t, 0))
                               else Get(n.d.pending, p))
    && (Carried(n, p) || p in f.items ==> Carried(m, p))
  }

  lemma SomeDevice(m: map<Param, string>) returns (device: string)
    requires m != map[]
    ensures Only(m, device) != map[] && |Without(m, device)| < |m|
  {
    var p :| p in m;
    device := p.device;
    assert p in Only(m, device);
    assert Without(m, device).Keys < m.Keys;
    SmallerMap(Without(m, device), m);
  }

  lemma SmallerMap(k: map<Param, string>, m: map<Param, string>)
    requires k.Keys < m.Keys
    ensures |k| < |m|
  {
    SmallerSet(k.Keys, m.Keys);
    assert |k.Keys| == |k| && |m.Keys| == |m|;
  }

  lemma SmallerSet(k: set<Param>, m: set<Param>)
    requires k < m
    ensures |k| < |m|
  {
    var rest := m - k;
    assert m == k + rest && rest != {};
  }

  lemma PublishStep(a: Aim, n: Net, i: nat, device: string) returns (m: Net)
    requires Enabled(n, Publish(i, device)) && n.retry == map[]
    ensures Calm(a, n, Publish(i, device)) && m == Apply(a.env, n, Publish(i, device))
    ensures SameQueue(n, m) && m.d == n.d
    ensures var f := n.flushes[i];
            && m.flushes == n.flushes[i := Flush(Without(f.items, device), Only(f.items, device), f.failed)]
            && Get(m.sent, a.p) == (if a.p in Only(f.items, device) then Get(f.items, a.p) else Get(n.sent, a.p))
            && (Carried(n, a.p) || a.p in Only(f.items, device) ==> Carried(m, a.p))
  {
    hide Latest, Waiting;
    m := Apply(a.env, n, Publish(i, device));
    LatestAppend(n.cmds, Msg(device, Only(n.flushes[i].items, device)), a.p);
  }

  lemma RecordStep(a: Aim, n: Net, i: nat) returns (m: Net)
    requires Enabled(n, Recorded(i, a.t))
    ensures Calm(a, n, Recorded(i, a.t)) && m == Apply(a.env, n, Recorded(i, a.t))
    ensures SameQueue(n, m) && m.sent == n.sent && m.cmds == n.cmds
    ensures var f := n.flushes[i];
            && m.flushes == n.flushes[i := f.(sending := map[])]
            && Get(m.d.pending, a.p) == (if a.p in f.sending then Some(PendingCommand(f.sending[a.p], a.t, 0))
                                         else Get(n.d.pending, a.p))
  {
    m := Apply(a.env, n, Recorded(i, a.t));
  }

  lemma {:induction false} PublishAll(a: Aim, reach: Net -> bool, n: Net, i: nat) returns (m: Net)
    requires Closed(a, reach) && reach(n) && i < |n.flushes| && n.retry == map[]
    ensures reach(m) && m.flushes == n.flushes[i := Flush(map[], map[], n.flushes[i].failed)]
    ensures AfterFlush(n, m, n.flushes[i], a.p, a.t)
    decreases |n.flushes[i].items|, if n.flushes[i].sending != map[] then 1 else 0
  {
    hide Apply, Calm, Latest;
    var f := n.flushes[i];
    if f.sending != map[] {
      var k := RecordStep(a, n, i);
      m := PublishAll(a, reach, k, i);
    } else if f.items != map[] {
      var device := SomeDevice(f.items);
      var k := PublishStep(a, n, i, device);
      m := PublishAll(a, reach, k, i);
      GetSplit(f.items, device, a.p);
    } else {
      m := n;
      assert f == Flush(map[], map[], f.failed);
    }
  }

  /** Whoever has something queued will start a flush. */
  predicate Armed(n: Net) { n.d.store != map[] ==> n.d.timer.Some? || n.started > 0 }

  lemma FinishStep(a: Aim, n: Net, i: nat) returns (m: Net)
    requires Enabled(n, Finish(i, a.t)) && Armed(n)
    ensures Calm(a, n, Finish(i, a.t)) && m == Apply(a.env, n, Finish(i, a.t)) && Armed(m)
    ensures m.flushes == Except(n.flushes, i) && m.retry == n.retry && m.last == n.last && m.sent == n.sent
    ensures m.cmds == n.cmds && m.d.pending == n.d.pending
    ensures Get(m.d.store, a.p) == if a.p in n.d.store then Get(n.d.store, a.p) else Get(n.flushes[i].failed, a.p)
    ensures n.flushes[i].failed == map[] ==> m.d == n.d
  {
    m := Apply(a.env, n, Finish(i, a.t));
    RestoreEffect(n.d, a.env.delays, n.flushes[i].failed, a.t, a.p);
  }

  /** Every copy of p in queue and flushes is this value. */
  predicate OnlyValue(n: Net, p: Param, value: string) {
    && (p in n.d.store ==> n.d.store[p] == value)
    && forall part :: Copies(n.flushes, part, p) <= {value}
  }

  /** The flushes have ended: what waited is queued again or was published last; what was sent is now recorded. */
  predicate Drained(n: Net, m: Net, p: Param, value: string, t: real) {
    && m.flushes == [] && m.retry == map[] && m.last == n.last && Armed(m)
    && (p in m.d.store ==> m.d.store[p] == value)
    && (Carried(n, p) ==> Carried(m, p))
    && (Waiting(n, p) ==> p in m.d.store || (Get(m.sent, p) == Some(value) && Carried(m, p)))
    && (!Waiting(n, p) ==>
          && p !in m.d.store && Get(m.sent, p) == Get(n.sent, p)
          && Get(m.d.pending, p) == if Copies(n.flushes, Sending, p) != {} then Some(PendingCommand(value, t, 0))
                                    else Get(n.d.pending, p))
  }

  lemma {:induction false} DrainFlushes(a: Aim, reach: Net -> bool, n: Net, value: string) returns (m: Net)
    requires Closed(a, reach) && reach(n) && n.retry == map[] && Armed(n) && OnlyValue(n, a.p, value)
    ensures reach(m) && Drained(n, m, a.p, value, a.t)
    decreases |n.flushes|
  {
    if n.flushes == [] {
      m := n;
    } else {
      var k, l := FirstFlush(a, reach, n, value);
      m := DrainFlushes(a, reach, l, value);
      hide Apply, Calm, Latest, Copies, Closed;
      DrainedBefore(n, k, l, m, a.p, value, a.t);
    }
  }

  lemma FirstFlush(a: Aim, reach: Net -> bool, n: Net, value: string) returns (k: Net, l: Net)
    requires Closed(a, reach) && reach(n) && n.retry == map[] && Armed(n) && OnlyValue(n, a.p, value) && n.flushes != []
    ensures reach(l) && AfterFlush(n, k, n.flushes[0], a.p, a.t) && Armed(l) && l.flushes == n.flushes[1..]
    ensures l.retry == map[] && l.last == k.last && l.sent == k.sent && l.cmds == k.cmds && l.d.pending == k.d.pending
    ensures Get(l.d.store, a.p) == if a.p in n.d.store then Get(n.d.store, a.p) else Get(n.flushes[0].failed, a.p)
    ensures OnlyValue(l, a.p, value)
  {
    hide Apply, Calm, Latest, CopyIn;
    k := PublishAll(a, reach, n, 0);
    l := FinishStep(a, k, 0);
    var f := n.flushes[0];
    assert l.flushes == n.flushes[1..];
    forall part ensures Copies(l.flushes, part, a.p) <= {value} {
      assert Copies(n.flushes, part, a.p) == CopyIn(f, part, a.p) + Copies(n.flushes[1..], part, a.p);
    }
    assert a.p in f.failed ==> f.failed[a.p] == value by {
      assert Copies(n.flushes, Failed, a.p) == CopyIn(f, Failed, a.p) + Copies(n.flushes[1..], Failed, a.p);
      CopyOf(f, Failed, a.p);
    }
  }

  lemma CopyOf(f: Flush, part: Part, p: Param)
    ensures p in Of(f, part) ==> Of(f, part)[p] in CopyIn(f, part, p)
    ensures p !in Of(f, part) ==> CopyIn(f, part, p) == {}
  {
  }

  lemma DrainedBefore(n: Net, k: Net, l: Net, m: Net, p: Param, value: string, t: real)
    requires n.flushes != [] && OnlyValue(n, p, value) && AfterFlush(n, k, n.flushes[0], p, t)
    requires l.flushes == n.flushes[1..] && l.last == k.last && l.sent == k.sent && l.cmds == k.cmds
    requires l.d.pending == k.d.pending
    requires Get(l.d.store, p) == if p in n.d.store then Get(n.d.store, p) else Get(n.flushes[0].failed, p)
    requires Drained(l, m, p, value, t)
    ensures Drained(n, m, p, value, t)
  {
    hide Latest;
    var f, rest := n.flushes[0], n.flushes[1..];
    assert forall part :: Copies(n.flushes, part, p) == CopyIn(f, part, p) + Copies(rest, part, p);
    hide Copies;
    CopyOf(f, Items, p);
    CopyOf(f, Sending, p);
    CopyOf(f, Failed, p);
  }

  lemma TimerStep(a: Aim, n: Net) returns (m: Net)
    requires Armed(n) && n.d.store != map[] && n.started == 0
    ensures Enabled(n, TimerFires) && Calm(a, n, TimerFires) && m == Apply(a.env, n, TimerFires)
    ensures m.started > 0 && m.flushes == n.flushes && m.retry == n.retry && m.last == n.last && m.sent == n.sent
    ensures m.cmds == n.cmds && m.d.pending == n.d.pending && m.d.store == n.d.store
  {
    m := Apply(a.env, n, TimerFires);
  }

  lemma BeginStep(a: Aim, n: Net) returns (m: Net)
    requires n.started > 0 && n.flushes == []
    ensures Calm(a, n, Begin) && m == Apply(a.env, n, Begin) && m.d.store == map[] && Armed(m)
    ensures m.flushes == [Flush(n.d.store, map[], map[])] && m.retry == n.retry && m.last == n.last && m.sent == n.sent
    ensures m.cmds == n.cmds && m.d.pending == n.d.pending
  {
    m := Apply(a.env, n, Begin);
  }

  /** What is queued is published by one more flush. */
  lemma DrainQueue(a: Aim, reach: Net -> bool, n: Net) returns (m: Net)
    requires Closed(a, reach) && reach(n) && n.retry == map[] && Armed(n) && n.flushes == []
    ensures reach(m) && m.flushes == [] && m.retry == map[] && m.d.store == map[] && m.last == n.last
    ensures Get(m.sent, a.p) == if a.p in n.d.store then Get(n.d.store, a.p) else Get(n.sent, a.p)
    ensures Carried(n, a.p) || a.p in n.d.store ==> Carried(m, a.p)
    ensures a.p !in n.d.store ==> Get(m.d.pending, a.p) == Get(n.d.pending, a.p)
  {
    hide Apply, Calm, Latest;
    m := n;
    if n.d.store != map[] {
      if m.started == 0 {
        m := TimerStep(a, m);
      }
      m := BeginStep(a, m);
      m := PublishAll(a, reach, m, 0);
      m := LastFinish(a, reach, m);
    }
  }

  lemma LastFinish(a: Aim, reach: Net -> bool, n: Net) returns (m: Net)
    requires Closed(a, reach) && reach(n) && Armed(n) && n.flushes == [Flush(map[], map[], map[])] && n.d.store == map[]
    ensures reach(m) && m.flushes == [] && m.d == n.d && m.retry == n.retry && m.last == n.last && m.sent == n.sent
    ensures m.cmds == n.cmds
  {
    hide Apply, Calm;
    m := FinishStep(a, n, 0);
  }

  lemma RetryStep(a: Aim, n: Net, device: string) returns (m: Net)
    requires Enabled(n, Retry(device))
    ensures Calm(a, n, Retry(device)) && m == Apply(a.env, n, Retry(device))
    ensures m.retry == Without(n.retry, device) && m.flushes == n.flushes && m.d == n.d && m.started == n.started
    ensures m.last == n.last
    ensures Get(m.sent, a.p) == if a.p in Only(n.retry, device) then Get(n.retry, a.p) else Get(n.sent, a.p)
    ensures Carried(n, a.p) || a.p in Only(n.retry, device) ==> Carried(m, a.p)
  {
    hide Latest;
    m := Apply(a.env, n, Retry(device));
    LatestAppend(n.cmds, Msg(device, Only(n.retry, device)), a.p);
  }

  /** The running timeout check publishes all its retries. */
  lemma {:induction false} RetryAll(a: Aim, reach: Net -> bool, n: Net) returns (m: Net)
    requires Closed(a, reach) && reach(n)
    ensures reach(m) && m.retry == map[] && m.flushes == n.flushes && m.d == n.d && m.started == n.started
            && m.last == n.last
    ensures Get(m.sent, a.p) == if a.p in n.retry then Get(n.retry, a.p) else Get(n.sent, a.p)
    ensures Carried(n, a.p) || a.p in n.retry ==> Carried(m, a.p)
    decreases |n.retry|
  {
    hide Apply, Calm, Latest;
    if n.retry == map[] {
      m := n;
    } else {
      var device := SomeDevice(n.retry);
      GetSplit(n.retry, device, a.p);
      var k := RetryStep(a, n, device);
      m := RetryAll(a, reach, k);
    }
  }

  // ---- The channels empty ----

  predicate SameOrders(n: Net, m: Net) {
    && m.d.store == n.d.store && m.flushes == n.flushes && m.retry == n.retry && m.last == n.last && m.sent == n.sent
  }

  lemma {:induction false} FirstOrRest(ch: seq<Msg>, p: Param)
    requires ch != []
    ensures Latest(ch, p).Some? ==> p in ch[0].params || Latest(ch[1..], p).Some?
  {
    var k := |ch| - 1;
    if k > 0 && At(ch[k], p).None? {
      FirstOrRest(ch[..k], p);
      assert ch[1..][..k - 1] == ch[..k][1..];
    }
  }

  predicate Noted(n: Net, p: Param) { p in n.ackDoc && p in n.answer }

  lemma ReceiveStep(a: Aim, n: Net) returns (m: Net)
    requires n.cmds != []
    ensures var e := Receive(0, n.cmds[0].params.Keys); Enabled(n, e) && Calm(a, n, e) && m == Apply(a.env, n, e)
    ensures m.d == n.d && SameOrders(n, m) && m.cmds == n.cmds[1..] && m.acks == n.acks
    ensures Carried(n, a.p) || Noted(n, a.p) ==> Carried(m, a.p) || Noted(m, a.p)
  {
    hide Latest;
    m := Apply(a.env, n, Receive(0, n.cmds[0].params.Keys));
    assert Except(n.cmds, 0) == n.cmds[1..];
    FirstOrRest(n.cmds, a.p);
  }

  lemma {:induction false} DeliverCommands(a: Aim, reach: Net -> bool, n: Net) returns (m: Net)
    requires Closed(a, reach) && reach(n)
    ensures reach(m) && m.d == n.d && SameOrders(n, m) && m.cmds == [] && m.acks == n.acks
    ensures Carried(n, a.p) || Noted(n, a.p) ==> Noted(m, a.p)
    decreases |n.cmds|
  {
    hide Apply, Calm;
    if n.cmds == [] {
      m := n;
    } else {
      var k := ReceiveStep(a, n);
      m := DeliverCommands(a, reach, k);
    }
  }

  lemma SendAckStep(a: Aim, n: Net, device: string) returns (m: Net)
    requires Enabled(n, SendAck(device))
    ensures Calm(a, n, SendAck(device)) && m == Apply(a.env, n, SendAck(device))
    ensures m.d == n.d && SameOrders(n, m) && m.cmds == n.cmds && m.answer == n.answer
    ensures m.ackDoc == Without(n.ackDoc, device)
    ensures a.p in n.ackDoc || Latest(n.acks, a.p).Some? ==> a.p in m.ackDoc || Latest(m.acks, a.p).Some?
  {
    hide Latest;
    m := Apply(a.env, n, SendAck(device));
    GetSplit(n.ackDoc, device, a.p);
    LatestAppend(n.acks, Msg(device, Only(n.ackDoc, device)), a.p);
  }

  lemma {:induction false} SendAnswers(a: Aim, reach: Net -> bool, n: Net) returns (m: Net)
    requires Closed(a, reach) && reach(n)
    ensures reach(m) && m.d == n.d && SameOrders(n, m) && m.cmds == n.cmds && m.answer == n.answer && m.ackDoc == map[]
    ensures a.p in n.ackDoc || Latest(n.acks, a.p).Some? ==> Latest(m.acks, a.p).Some?
    decreases |n.ackDoc|
  {
    hide Apply, Calm, Latest;
    if n.ackDoc == map[] {
      m := n;
    } else {
      var device := SomeDevice(n.ackDoc);
      var k := SendAckStep(a, n, device);
      m := SendAnswers(a, reach, k);
    }
  }

  lemma HandleStep(a: Aim, n: Net) returns (m: Net)
    requires n.acks != []
    ensures Enabled(n, HandleAckMsg(0)) && Calm(a, n, HandleAckMsg(0)) && m == Apply(a.env, n, HandleAckMsg(0))
    ensures SameOrders(n, m) && m.cmds == n.cmds && m.answer == n.answer && m.ackDoc == n.ackDoc
            && m.acks == n.acks[1..]
    ensures Latest(n.acks, a.p).Some? || a.p !in n.d.pending ==> Latest(m.acks, a.p).Some? || a.p !in m.d.pending
  {
    hide Latest;
    m := Apply(a.env, n, HandleAckMsg(0));
    assert Except(n.acks, 0) == n.acks[1..];
    FirstOrRest(n.acks, a.p);
  }

  lemma {:induction false} HandleAnswers(a: Aim, reach: Net -> bool, n: Net) returns (m: Net)
    requires Closed(a, reach) && reach(n)
    ensures reach(m) && SameOrders(n, m) && m.cmds == n.cmds && m.answer == n.answer && m.ackDoc == n.ackDoc
            && m.acks == []
    ensures Latest(n.acks, a.p).Some? || a.p !in n.d.pending ==> a.p !in m.d.pending
    decreases |n.acks|
  {
    hide Apply, Calm;
    if n.acks == [] {
      m := n;
    } else {
      var k := HandleStep(a, n);
      m := HandleAnswers(a, reach, k);
    }
  }

  /** With nothing left to publish everything comes to rest; what was on its way is answered, and no longer pending. */
  lemma Settle(a: Aim, reach: Net -> bool, n: Net) returns (m: Net)
    requires Closed(a, reach) && reach(n) && n.flushes == [] && n.retry == map[] && n.d.store == map[]
    ensures reach(m) && Quiet(m) && m.last == n.last && m.sent == n.sent
    ensures Carried(n, a.p) ==> a.p in m.answer && a.p !in m.d.pending
  {
    hide Closed, Latest;
    m := DeliverCommands(a, reach, n);
    m := SendAnswers(a, reach, m);
    m := HandleAnswers(a, reach, m);
  }

  // ---- What holds in every run ----

  lemma StepArmed(env: Env, n: Net, e: Event)
    requires Enabled(n, e) && Armed(n)
    ensures Armed(Apply(env, n, e))
  {
  }

  lemma StepFollowed(env: Env, n: Net, e: Event, p: Param)
    requires WellFormed(n) && Enabled(n, e) && Followed(View(n, p), v => env.valid(p, v))
    ensures WellFormed(Apply(env, n, e)) && Followed(View(Apply(env, n, e), p), v => env.valid(p, v))
  {
    hide Copies, Latest, Changes, View, Apply, Enabled, Overtakes, WellFormed, Followed, Misorders, Honest;
    StepWellFormed(env, n, e);
    var ch := StepChanges(env, n, e, p);
    ChangeFollowed(View(n, p), View(Apply(env, n, e), p), ch, v => env.valid(p, v));
  }

  /** In any run whatever is queued will be flushed, and the device follows what is published. */
  lemma {:induction false} RunFollowed(env: Env, n: Net, es: seq<Event>, p: Param)
    requires Possible(env, n, es) && Armed(n) && WellFormed(n) && Followed(View(n, p), v => env.valid(p, v))
    ensures var m := Run(env, n, es); Armed(m) && WellFormed(m) && Followed(View(m, p), v => env.valid(p, v))
    decreases |es|
  {
    hide View, Apply, Enabled, WellFormed, Followed, Armed;
    if es != [] {
      StepArmed(env, n, es[0]);
      StepFollowed(env, n, es[0], p);
      RunFollowed(env, Apply(env, n, es[0]), es[1..], p);
    }
  }

  lemma LeadsFollowed(a: Aim, n: Net, m: Net)
    requires Leads(a, n, m) && Armed(n) && WellFormed(n) && Followed(View(n, a.p), v => a.env.valid(a.p, v))
    ensures Followed(View(m, a.p), v => a.env.valid(a.p, v))
  {
    hide View, Apply, Enabled, WellFormed, Followed, Armed, Run, Possible, AllCalm;
    var es :| Possible(a.env, n, es) && AllCalm(a, n, es) && Run(a.env, n, es) == m;
    RunFollowed(a.env, n, es, a.p);
  }

  // ---- An overtaken value can win ----

  /** At rest with an older value of p published last, and answered; on the device if it is valid. */
  predicate Reverted(env: Env, n: Net, p: Param) {
    && Quiet(n) && p in n.last && p in n.sent && n.sent[p] != n.last[p] && p in n.answer && p !in n.d.pending
    && (env.valid(p, n.sent[p]) ==> p in n.held && n.held[p] == n.sent[p])
  }

  /** A retry of an older value, with nothing left to be published after it. */
  lemma RetryWins(a: Aim, reach: Net -> bool, n: Net, newer: string) returns (m: Net)
    requires Closed(a, reach) && reach(n) && Armed(n) && a.p in n.retry && !Waiting(n, a.p) && OnlyValue(n, a.p, newer)
    ensures reach(m) && Quiet(m) && m.last == n.last && Get(m.sent, a.p) == Get(n.retry, a.p)
    ensures a.p in m.answer && a.p !in m.d.pending
  {
    hide Closed, Latest, Copies;
    m := RetryAll(a, reach, n);
    m := DrainFlushes(a, reach, m, newer);
    m := DrainQueue(a, reach, m);
    m := Settle(a, reach, m);
  }

  lemma CheckStep(a: Aim, n: Net) returns (m: Net)
    requires n.retry == map[] && n.flushes == [] && n.d.store == map[]
    requires a.p in n.d.pending && n.d.pending[a.p].sentAt == a.t && n.d.pending[a.p].retries == 0
    ensures var e := Check(a.t + 31.0, 30.0); Enabled(n, e) && Calm(a, n, e) && m == Apply(a.env, n, e)
    ensures Get(m.retry, a.p) == Some(n.d.pending[a.p].value) && m.flushes == [] && m.d.store == map[]
            && m.last == n.last
    ensures Armed(m)
  {
    m := Apply(a.env, n, Check(a.t + 31.0, 30.0));
  }

  /** An older value still held by a flush, with no value of p queued: it is published, or recorded and retried,
      last. */
  lemma HeldWins(a: Aim, reach: Net -> bool, n: Net, older: string) returns (m: Net)
    requires Closed(a, reach) && reach(n) && Armed(n) && n.retry == map[] && n.d.store == map[]
    requires OnlyValue(n, a.p, older) && AllCopies(n.flushes, a.p) != {}
    ensures reach(m) && Quiet(m) && m.last == n.last && Get(m.sent, a.p) == Some(older)
    ensures a.p in m.answer && a.p !in m.d.pending
  {
    hide Latest, Copies, Calm, Apply;
    var k := DrainFlushes(a, reach, n, older);
    var l := DrainQueue(a, reach, k);
    if !Waiting(n, a.p) {
      assert Get(l.d.pending, a.p) == Some(PendingCommand(older, a.t, 0));
      l := CheckStep(a, l);
      l := RetryAll(a, reach, l);
    }
    m := Settle(a, reach, l);
  }

  /** A flush takes a value while another one holds an older value: the second flush ends first. */
  lemma TakenOver(a: Aim, reach: Net -> bool, n: Net, older: string) returns (m: Net)
    requires Closed(a, reach) && n.started > 0 && reach(ApplyBegin(n)) && Armed(n)
    requires OnlyValue(n.(d := n.d.(store := map[])), a.p, older) && AllCopies(n.flushes, a.p) != {}
    ensures reach(m) && Quiet(m) && m.last == n.last && Get(m.sent, a.p) == Some(older)
    ensures a.p in m.answer && a.p !in m.d.pending
  {
    hide Latest, Copies, Calm, Apply;
    var i := |n.flushes|;
    var k := RetryAll(a, reach, ApplyBegin(n));
    var l := PublishAll(a, reach, k, i);
    var o := FinishStep(a, l, i);
    assert o.flushes == n.flushes;
    m := HeldWins(a, reach, o, older);
  }

  /** In a run that was in order until then, let step e overtake p. From then on, at any time, without new values and
      without overtaking again, everything can come to rest with an older value of p. */
  lemma OvertakingReverts(env: Env, es: seq<Event>, e: Event, p: Param, t: real) returns (n: Net)
    requires Possible(env, START, es) && InOrder(env, START, es, p)
    requires Enabled(Run(env, START, es), e) && Overtakes(Run(env, START, es), e, p)
    ensures var k := Apply(env, Run(env, START, es), e); Leads(Aim(env, p, t), k, n) && n.last == k.last
    ensures Reverted(env, n, p)
  {
    hide Possible, InOrder, Run, Overtakes, Followed, OneCopy, NewestKept, OrderKept, AnswerKept, View;
    StartKept(env, p);
    var s := Run(env, START, es);
    RunKeeps(env, START, es, p);
    RunFollowed(env, START, es, p);
    var a, k := Aim(env, p, t), Apply(env, s, e);
    StepArmed(env, s, e);
    StepFollowed(env, s, e, p);
    var reach: Net -> bool := m => Leads(a, k, m);
    LeadsIsClosed(a, k);
    n := AfterOvertaking(a, reach, s, e);
    LeadsFollowed(a, k, n);
    RevertedAtRest(env, n, p);
  }

  lemma RevertedAtRest(env: Env, n: Net, p: Param)
    requires Quiet(n) && p in n.last && p in n.sent && n.sent[p] != n.last[p] && p in n.answer && p !in n.d.pending
    requires Followed(View(n, p), v => env.valid(p, v))
    ensures Reverted(env, n, p)
  {
  }

  lemma AfterOvertaking(a: Aim, reach: Net -> bool, n: Net, e: Event) returns (m: Net)
    requires Enabled(n, e) && Overtakes(n, e, a.p) && Kept(View(n, a.p), v => a.env.valid(a.p, v)) && Armed(n)
    requires Closed(a, reach) && reach(Apply(a.env, n, e)) && Armed(Apply(a.env, n, e))
    ensures reach(m) && Quiet(m) && m.last == Apply(a.env, n, e).last
    ensures a.p in m.last && a.p in m.sent && m.sent[a.p] != m.last[a.p] && a.p in m.answer && a.p !in m.d.pending
  {
    hide Latest, Copies, Closed, Quiet;
    var k := Apply(a.env, n, e);
    if e.Begin? {
      var older := OlderHeld(a, n);
      m := TakenOver(a, reach, n, older);
    } else if e.Publish? {
      PublishOvertakes(a, n, e);
      m := RetryWins(a, reach, k, n.flushes[e.i].items[a.p]);
    } else {
      var newer := CheckOvertakes(a, n, e);
      m := RetryWins(a, reach, k, newer);
    }
  }

  lemma OlderHeld(a: Aim, n: Net) returns (older: string)
    requires Enabled(n, Begin) && Overtakes(n, Begin, a.p) && Kept(View(n, a.p), v => a.env.valid(a.p, v))
    ensures a.p in n.last && older != n.last[a.p] && AllCopies(n.flushes, a.p) != {}
    ensures OnlyValue(n.(d := n.d.(store := map[])), a.p, older)
  {
    hide Latest, Copies, Followed, AnswerKept, OrderKept;
    older :| older in AllCopies(n.flushes, a.p) && older != n.d.store[a.p];
    forall part ensures Copies(n.flushes, part, a.p) <= {older} {
      assert Copies(n.flushes, part, a.p) <= AllCopies(n.flushes, a.p) by {
        assert part == Items || part == Sending || part == Failed;
      }
    }
  }

  lemma PublishOvertakes(a: Aim, n: Net, e: Event)
    requires e.Publish? && Enabled(n, e) && Overtakes(n, e, a.p) && Kept(View(n, a.p), v => a.env.valid(a.p, v))
    ensures a.p in n.flushes[e.i].items
    ensures var k, newer := Apply(a.env, n, e), n.flushes[e.i].items[a.p];
            && a.p in k.retry && a.p in k.last && k.retry[a.p] != newer && k.last[a.p] == newer
            && !Waiting(k, a.p) && OnlyValue(k, a.p, newer)
  {
    hide Latest, Copies, Followed, AnswerKept, OrderKept;
    PublishParts(n, e.i, e.device, a.p);
    GetSplit(n.flushes[e.i].items, e.device, a.p);
    var v, newer := View(n, a.p), n.flushes[e.i].items[a.p];
    assert newer in v.items + v.sending + v.failed;
    forall part ensures Copies(Apply(a.env, n, e).flushes, part, a.p) <= {newer} {
      assert part == Items || part == Sending || part == Failed;
    }
  }

  lemma CheckOvertakes(a: Aim, n: Net, e: Event) returns (newer: string)
    requires e.Check? && Enabled(n, e) && Overtakes(n, e, a.p) && Kept(View(n, a.p), v => a.env.valid(a.p, v))
    ensures var k := Apply(a.env, n, e);
            && a.p in k.retry && a.p in k.last && k.retry[a.p] != newer && k.last[a.p] == newer
            && !Waiting(k, a.p) && OnlyValue(k, a.p, newer)
  {
    hide Latest, Copies, Followed, AnswerKept;
    newer :| newer in Copies(n.flushes, Sending, a.p) && newer != n.d.pending[a.p].value;
    var v := View(n, a.p);
    assert newer in v.items + v.sending + v.failed;
    forall part ensures Copies(Apply(a.env, n, e).flushes, part, a.p) <= {newer} {
      assert part == Items || part == Sending || part == Failed;
    }
  }

  // ---- Exactly the steps that overtake ----

  lemma {:induction false} CalmInOrder(a: Aim, n: Net, es: seq<Event>)
    requires Possible(a.env, n, es) && AllCalm(a, n, es)
    ensures InOrder(a.env, n, es, a.p)
    decreases |es|
  {
    hide Apply, Enabled, Overtakes;
    if es != [] { CalmInOrder(a, Apply(a.env, n, es[0]), es[1..]); }
  }

  lemma LeadsKept(a: Aim, n: Net, m: Net)
    requires Leads(a, n, m) && WellFormed(n) && Kept(View(n, a.p), v => a.env.valid(a.p, v))
    ensures Kept(View(m, a.p), v => a.env.valid(a.p, v))
  {
    hide View, WellFormed, Kept, Run, Possible, AllCalm, InOrder;
    var es :| Possible(a.env, n, es) && AllCalm(a, n, es) && Run(a.env, n, es) == m;
    CalmInOrder(a, n, es);
    RunKeeps(a.env, n, es, a.p);
  }

  /** After a run in order for p, a step can end with an older value of p at rest, with no further help from new
      values or from overtaking, if and only if it overtakes p. */
  lemma RevertsIffOvertakes(env: Env, es: seq<Event>, e: Event, p: Param, t: real)
    requires Possible(env, START, es) && InOrder(env, START, es, p) && Enabled(Run(env, START, es), e)
    ensures var n := Run(env, START, es);
            Overtakes(n, e, p) <==> exists m :: Leads(Aim(env, p, t), Apply(env, n, e), m) && Reverted(env, m, p)
  {
    hide Possible, InOrder, Run, Overtakes, View, Kept, Leads, Reverted, WellFormed, Apply, Enabled;
    var n, a := Run(env, START, es), Aim(env, p, t);
    if Overtakes(n, e, p) {
      var m := OvertakingReverts(env, es, e, p, t);
    } else {
      StartKept(env, p);
      RunKeeps(env, START, es, p);
      StepKeeps(env, n, e, p);
      forall m | Leads(a, Apply(env, n, e), m) ensures !Reverted(env, m, p) {
        LeadsKept(a, Apply(env, n, e), m);
        KeptNotReverted(env, m, p);
      }
    }
  }

  lemma KeptNotReverted(env: Env, n: Net, p: Param)
    requires Kept(View(n, p), v => env.valid(p, v))
    ensures !Reverted(env, n, p)
  {
    if Reverted(env, n, p) { RestIsNewest(env, n, p); }
  }

  // ---- How it happens ----

  ghost predicate Reachable(env: Env, n: Net) {
    exists es: seq<Event> :: Possible(env, START, es) && Run(env, START, es) == n
  }

  /** The states in `reach` contain what any step leads to. */
  ghost predicate Grows(env: Env, reach: Net -> bool) {
    forall n, e :: reach(n) && Enabled(n, e) ==> reach(Apply(env, n, e))
  }

  lemma {:induction false} RunExtends(env: Env, n: Net, es: seq<Event>, e: Event)
    requires Possible(env, n, es) && Enabled(Run(env, n, es), e)
    ensures Possible(env, n, es + [e]) && Run(env, n, es + [e]) == Apply(env, Run(env, n, es), e)
    decreases |es|
  {
    hide Apply, Enabled;
    if es == [] {
      assert (es + [e])[1..] == [];
    } else {
      RunExtends(env, Apply(env, n, es[0]), es[1..], e);
      assert (es + [e])[1..] == es[1..] + [e];
    }
  }

  lemma ReachableGrows(env: Env)
    ensures Reachable(env, START) && Grows(env, n => Reachable(env, n))
  {
    assert Run(env, START, []) == START;
    hide Apply, Enabled, Possible, Run;
    forall n, e | Reachable(env, n) && Enabled(n, e) ensures Reachable(env, Apply(env, n, e)) {
      var es :| Possible(env, START, es) && Run(env, START, es) == n;
      RunExtends(env, START, es, e);
    }
  }

  /** One message with one value of p. */
  function Order(p: Param, value: string): Msg { Msg(p.device, map[p := value]) }

  lemma OnlyOne(p: Param, value: string)
    ensures Only(map[p := value], p.device) == map[p := value] && map[p := value] != map[]
    ensures Without(map[p := value], p.device) == map[]
  {
    assert p in map[p := value];
  }

  /** What the dispatcher keeps of p: nothing queued, this awaited, nothing unsynced. */
  predicate Awaits(n: Net, pending: map<Param, PendingCommand>) {
    n.d.store == map[] && n.d.pending == pending && n.d.unsynced == {}
  }

  lemma QueueOne(env: Env, reach: Net -> bool, n: Net, p: Param, value: string, now: real) returns (m: Net)
    requires Grows(env, reach) && reach(n) && Awaits(n, n.d.pending)
    ensures reach(m) && Awaits(m, n.d.pending) && m.flushes == n.flushes + [Flush(map[p := value], map[], map[])]
    ensures m.last == n.last[p := value] && m.held == n.held
    ensures m.retry == n.retry && m.cmds == n.cmds && m.ackDoc == n.ackDoc && m.acks == n.acks
  {
    m := Apply(env, n, Add(p, value, now));
    m := Apply(env, m, TimerFires);
    m := Apply(env, m, Begin);
    assert m.flushes == n.flushes + [Flush(map[p := value], map[], map[])];
  }

  lemma PublishOne(env: Env, reach: Net -> bool, n: Net, i: nat, p: Param, value: string) returns (m: Net)
    requires Grows(env, reach) && reach(n) && i < |n.flushes| && n.flushes[i] == Flush(map[p := value], map[], map[])
    ensures reach(m) && m.d == n.d && m.flushes == n.flushes[i := Flush(map[], map[p := value], map[])]
    ensures m.cmds == n.cmds + [Order(p, value)] && m.last == n.last && m.held == n.held
    ensures m.retry == n.retry && m.ackDoc == n.ackDoc && m.acks == n.acks
  {
    OnlyOne(p, value);
    m := Apply(env, n, Publish(i, p.device));
  }

  lemma RecordOne(env: Env, reach: Net -> bool, n: Net, i: nat, p: Param, value: string, now: real) returns (m: Net)
    requires Grows(env, reach) && reach(n) && i < |n.flushes| && n.flushes[i] == Flush(map[], map[p := value], map[])
    requires Awaits(n, n.d.pending)
    ensures reach(m) && m.flushes == Except(n.flushes, i) && Awaits(m, n.d.pending[p := PendingCommand(value, now, 0)])
    ensures m.cmds == n.cmds && m.last == n.last && m.held == n.held
    ensures m.retry == n.retry && m.ackDoc == n.ackDoc && m.acks == n.acks
  {
    OnlyOne(p, value);
    m := Apply(env, n, Recorded(i, now));
    assert m.d.pending == n.d.pending[p := PendingCommand(value, now, 0)];
    m := Apply(env, m, Finish(i, now));
  }

  lemma ReceiveOne(env: Env, reach: Net -> bool, n: Net, p: Param, value: string) returns (m: Net)
    requires Grows(env, reach) && reach(n) && env.valid(p, value)
    requires n.cmds != [] && n.cmds[0] == Order(p, value) && n.ackDoc == map[]
    ensures reach(m) && m.d == n.d && m.cmds == n.cmds[1..] && m.ackDoc == map[p := "ok"] && m.acks == n.acks
    ensures m.flushes == n.flushes && m.retry == n.retry && m.last == n.last && m.held == n.held[p := value]
  {
    RepliesOne(env, p, value);
    hide Replies, Applied, Reply;
    m := Apply(env, n, Receive(0, {p}));
    assert map[] + map[p := "ok"] == map[p := "ok"];
    assert n.held + map[p := value] == n.held[p := value];
  }

  lemma RepliesOne(env: Env, p: Param, value: string)
    requires env.valid(p, value)
    ensures Replies(env, Order(p, value), {p}) == map[p := "ok"] && Applied(env, Order(p, value)) == map[p := value]
  {
  }

  /** The device takes the oldest message, confirms it, and the confirmation is handled. */
  lemma ConfirmOne(env: Env, reach: Net -> bool, n: Net, p: Param, value: string) returns (m: Net)
    requires Grows(env, reach) && reach(n) && env.valid(p, value) && Awaits(n, n.d.pending)
    requires n.cmds != [] && n.cmds[0] == Order(p, value) && n.ackDoc == map[] && n.acks == []
    ensures reach(m) && Awaits(m, n.d.pending - {p}) && m.cmds == n.cmds[1..] && m.ackDoc == map[] && m.acks == []
    ensures m.flushes == n.flushes && m.retry == n.retry && m.last == n.last && m.held == n.held[p := value]
  {
    OnlyOne(p, "ok");
    var k := ReceiveOne(env, reach, n, p, value);
    hide Replies, Applied, Reply;
    var l := Apply(env, k, SendAck(p.device));
    m := HandleOne(env, reach, l, p);
  }

  lemma HandleOne(env: Env, reach: Net -> bool, n: Net, p: Param) returns (m: Net)
    requires Grows(env, reach) && reach(n) && Awaits(n, n.d.pending) && n.acks == [Order(p, "ok")]
    ensures reach(m) && Awaits(m, n.d.pending - {p}) && m.acks == [] && m.cmds == n.cmds && m.ackDoc == n.ackDoc
    ensures m.flushes == n.flushes && m.retry == n.retry && m.last == n.last && m.held == n.held
  {
    m := Apply(env, n, HandleAckMsg(0));
    assert Refused(map[p := "ok"]) == {};
  }

  lemma CheckOne(env: Env, reach: Net -> bool, n: Net, p: Param, value: string, sentAt: real) returns (m: Net)
    requires Grows(env, reach) && reach(n) && n.retry == map[] && Awaits(n, map[p := PendingCommand(value, sentAt, 0)])
    ensures reach(m) && m.retry == map[p := value] && Awaits(m, map[p := PendingCommand(value, sentAt + 31.0, 1)])
    ensures m.flushes == n.flushes && m.cmds == n.cmds && m.ackDoc == n.ackDoc && m.acks == n.acks
    ensures m.last == n.last && m.held == n.held
  {
    m := Apply(env, n, Check(sentAt + 31.0, 30.0));
    assert p in n.d.pending;
  }

  lemma RetryOne(env: Env, reach: Net -> bool, n: Net, p: Param, value: string) returns (m: Net)
    requires Grows(env, reach) && reach(n) && n.retry == map[p := value]
    ensures reach(m) && m.d == n.d && m.retry == map[] && m.cmds == n.cmds + [Order(p, value)]
    ensures m.flushes == n.flushes && m.ackDoc == n.ackDoc && m.acks == n.acks && m.last == n.last && m.held == n.held
  {
    OnlyOne(p, value);
    m := Apply(env, n, Retry(p.device));
  }

  /** Nothing pending or unsynced, everything at rest, and the device holds the older value. */
  predicate Stuck(n: Net, p: Param, older: string, newer: string) {
    && Quiet(n) && n.d.pending == map[] && n.d.unsynced == {}
    && p in n.last && n.last[p] == newer && p in n.held && n.held[p] == older
  }

  /** The older value is published and not confirmed yet when a second flush delivers the newer one; then its publish
      fails after all, and it is queued, published and acknowledged again. */
  lemma OverlappingFlushesRevert(env: Env, p: Param, older: string, newer: string) returns (n: Net)
    requires older != newer && env.valid(p, older) && env.valid(p, newer)
    ensures Reachable(env, n) && Stuck(n, p, older, newer)
  {
    var reach: Net -> bool := m => Reachable(env, m);
    ReachableGrows(env);
    hide Grows, Reachable;
    n := QueueOne(env, reach, START, p, older, 0.0);
    n := PublishOne(env, reach, n, 0, p, older);
    n := QueueOne(env, reach, n, p, newer, 6.0);
    n := PublishOne(env, reach, n, 1, p, newer);
    n := RecordOne(env, reach, n, 1, p, newer, 12.0);
    n := ConfirmOne(env, reach, n, p, older);
    n := ConfirmOne(env, reach, n, p, newer);
    n := FailOne(env, reach, n, p, older, 13.0);
    n := PublishOne(env, reach, n, 0, p, older);
    n := RecordOne(env, reach, n, 0, p, older, 19.0);
    n := ConfirmOne(env, reach, n, p, older);
  }

  /** A publish that was sent is not confirmed: its value is queued again, and taken by the next flush. */
  lemma FailOne(env: Env, reach: Net -> bool, n: Net, p: Param, value: string, now: real) returns (m: Net)
    requires Grows(env, reach) && reach(n) && n.flushes == [Flush(map[], map[p := value], map[])] && Awaits(n, map[])
    ensures reach(m) && m.flushes == [Flush(map[p := value], map[], map[])] && Awaits(m, map[])
    ensures m.cmds == n.cmds && m.last == n.last && m.held == n.held
    ensures m.retry == n.retry && m.ackDoc == n.ackDoc && m.acks == n.acks
  {
    OnlyOne(p, value);
    m := Apply(env, n, SendFails(0));
    assert map[] + map[p := value] == map[p := value];
    assert m.flushes == [Flush(map[], map[], map[p := value])];
    m := Apply(env, m, Finish(0, now));
    assert m.d.store == map[p := value];
    m := Apply(env, m, TimerFires);
    m := Apply(env, m, Begin);
  }

  /** Publish and record a value by a flush of its own. */
  lemma FlushOne(env: Env, reach: Net -> bool, n: Net, p: Param, value: string, now: real) returns (m: Net)
    requires Grows(env, reach) && reach(n) && Awaits(n, n.d.pending) && n.flushes == []
    ensures reach(m) && m.flushes == [] && Awaits(m, n.d.pending[p := PendingCommand(value, now + 6.0, 0)])
    ensures m.cmds == n.cmds + [Order(p, value)] && m.last == n.last[p := value] && m.held == n.held
    ensures m.retry == n.retry && m.ackDoc == n.ackDoc && m.acks == n.acks
  {
    hide Grows;
    m := QueueOne(env, reach, n, p, value, now);
    m := PublishOne(env, reach, m, 0, p, value);
    m := RecordOne(env, reach, m, 0, p, value, now + 6.0);
  }

  lemma OnlyOneOfTwo(p: Param, value: string, q: Param, other: string)
    requires p.device != q.device
    ensures Only(map[p := value, q := other], q.device) == map[q := other] && map[q := other] != map[]
    ensures Without(map[p := value, q := other], q.device) == map[p := value]
  {
    assert q in map[q := other];
  }

  /** Both devices' commands are overdue; the other device's retry is published, p's has to wait for its
      confirmation. */
  lemma RetryOther(env: Env, reach: Net -> bool, n: Net, p: Param, value: string, q: Param, other: string)
    returns (m: Net)
    requires Grows(env, reach) && reach(n) && n.retry == map[] && p.device != q.device
    requires Awaits(n, map[p := PendingCommand(value, 6.0, 0), q := PendingCommand(other, 7.0, 0)])
    ensures reach(m) && m.retry == map[p := value] && m.cmds == n.cmds + [Order(q, other)]
    ensures Awaits(m, map[p := PendingCommand(value, 40.0, 1), q := PendingCommand(other, 40.0, 1)])
    ensures m.flushes == n.flushes && m.ackDoc == n.ackDoc && m.acks == n.acks && m.last == n.last && m.held == n.held
  {
    OnlyOneOfTwo(p, value, q, other);
    var k := CheckTwo(env, reach, n, p, value, q, other);
    m := Apply(env, k, Retry(q.device));
  }

  lemma CheckTwo(env: Env, reach: Net -> bool, n: Net, p: Param, value: string, q: Param, other: string)
    returns (m: Net)
    requires Grows(env, reach) && reach(n) && n.retry == map[] && p.device != q.device
    requires Awaits(n, map[p := PendingCommand(value, 6.0, 0), q := PendingCommand(other, 7.0, 0)])
    ensures reach(m) && m.retry == map[p := value, q := other] && m.cmds == n.cmds
    ensures Awaits(m, map[p := PendingCommand(value, 40.0, 1), q := PendingCommand(other, 40.0, 1)])
    ensures m.flushes == n.flushes && m.ackDoc == n.ackDoc && m.acks == n.acks && m.last == n.last && m.held == n.held
  {
    assert p in n.d.pending && q in n.d.pending && p != q;
    m := Apply(env, n, Check(40.0, 30.0));
  }

  lemma StaleRetrySent(env: Env, reach: Net -> bool, p: Param, older: string, newer: string, q: Param, other: string)
    returns (n: Net)
    requires Grows(env, reach) && reach(START) && p.device != q.device
    ensures reach(n) && n.flushes == [] && n.retry == map[] && n.ackDoc == map[] && n.acks == []
    ensures n.cmds == [Order(p, older), Order(q, other), Order(q, other), Order(p, newer), Order(p, older)]
    ensures Awaits(n, n.d.pending) && n.d.pending.Keys == {p, q} && p in n.last && n.last[p] == newer
  {
    hide Grows;
    n := FlushOne(env, reach, START, p, older, 0.0);
    n := FlushOne(env, reach, n, q, other, 1.0);
    n := RetryOther(env, reach, n, p, older, q, other);
    n := FlushOne(env, reach, n, p, newer, 41.0);
    n := RetryOne(env, reach, n, p, older);
  }

  /** Complete flushes, but a timeout check between its decision and its publication: while it waits for the
      confirmation of another device's retry, a flush sends the newer value; then the check sends the older one. */
  lemma StaleRetryReverts(env: Env, p: Param, older: string, newer: string, q: Param, other: string) returns (n: Net)
    requires older != newer && env.valid(p, older) && env.valid(p, newer) && p.device != q.device && env.valid(q, other)
    ensures Reachable(env, n) && Stuck(n, p, older, newer)
  {
    var reach: Net -> bool := m => Reachable(env, m);
    ReachableGrows(env);
    hide Grows, Reachable, Order;
    n := StaleRetrySent(env, reach, p, older, newer, q, other);
    n := ConfirmOne(env, reach, n, p, older);
    n := ConfirmOne(env, reach, n, q, other);
    assert n.d.pending == map[];
    n := ConfirmOne(env, reach, n, q, other);
    n := ConfirmOne(env, reach, n, p, newer);
    n := ConfirmOne(env, reach, n, p, older);
  }

  /** The device takes and confirms the older value, the newer one and the older one again. */
  lemma ConfirmAll(env: Env, reach: Net -> bool, n: Net, p: Param, older: string, newer: string) returns (m: Net)
    requires Grows(env, reach) && reach(n) && env.valid(p, older) && env.valid(p, newer)
    requires n.flushes == [] && n.retry == map[] && n.ackDoc == map[] && n.acks == []
    requires n.cmds == [Order(p, older), Order(p, newer), Order(p, older)]
    requires Awaits(n, n.d.pending) && n.d.pending.Keys <= {p} && p in n.last && n.last[p] == newer
    ensures reach(m) && Stuck(m, p, older, newer)
  {
    hide Grows, Order;
    m := ConfirmOne(env, reach, n, p, older);
    assert m.d.pending == map[];
    m := ConfirmOne(env, reach, m, p, newer);
    m := ConfirmOne(env, reach, m, p, older);
  }

  /** Every publish succeeds, but the first flush records its older value after the second one has recorded the newer: a
      timeout check then repeats the older value. */
  lemma LateRecordReverts(env: Env, p: Param, older: string, newer: string) returns (n: Net)
    requires older != newer && env.valid(p, older) && env.valid(p, newer)
    ensures Reachable(env, n) && Stuck(n, p, older, newer)
  {
    var reach: Net -> bool := m => Reachable(env, m);
    ReachableGrows(env);
    hide Grows, Reachable;
    n := QueueOne(env, reach, START, p, older, 0.0);
    n := PublishOne(env, reach, n, 0, p, older);
    n := QueueOne(env, reach, n, p, newer, 6.0);
    n := PublishOne(env, reach, n, 1, p, newer);
    n := RecordOne(env, reach, n, 1, p, newer, 12.0);
    n := RecordOne(env, reach, n, 0, p, older, 13.0);
    assert n.d.pending == map[p := PendingCommand(older, 13.0, 0)];
    n := CheckOne(env, reach, n, p, older, 13.0);
    n := RetryOne(env, reach, n, p, older);
    n := ConfirmAll(env, reach, n, p, older, newer);
  }

  /** No second flush: a timeout check decides to repeat the older value while the newer one is published but not
      recorded. */
  lemma UnrecordedPublishReverts(env: Env, p: Param, older: string, newer: string) returns (n: Net)
    requires older != newer && env.valid(p, older) && env.valid(p, newer)
    ensures Reachable(env, n) && Stuck(n, p, older, newer)
  {
    var reach: Net -> bool := m => Reachable(env, m);
    ReachableGrows(env);
    hide Grows, Reachable;
    n := QueueOne(env, reach, START, p, older, 0.0);
    n := PublishOne(env, reach, n, 0, p, older);
    n := RecordOne(env, reach, n, 0, p, older, 6.0);
    n := QueueOne(env, reach, n, p, newer, 30.0);
    n := PublishOne(env, reach, n, 0, p, newer);
    n := CheckOne(env, reach, n, p, older, 6.0);
    n := RetryOne(env, reach, n, p, older);
    n := RecordOne(env, reach, n, 0, p, newer, 38.0);
    n := ConfirmAll(env, reach, n, p, older, newer);
  }
}
