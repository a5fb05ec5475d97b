/** The dispatcher, the broker and a validating device together. Channels keep the order of each device's messages and
    lose nothing, but a device that reboots loses its settings and whatever is on its way to it or not sent by it
    yet. */
module Convergence {
  import opened Options
  import opened Dispatcher

  /** A message to or from a device, with the parameters it carries. */
  datatype Msg = Msg(device: string, params: map<Param, string>)

  /** The local variables of a running flush: still to publish, handed to the broker but not recorded yet, failed. */
  datatype Flush = Flush(items: map<Param, string>, sending: map<Param, string>, failed: map<Param, string>)

  /** `started` counts the flushes about to begin, `retry` is what the running timeout check has still to publish again,
      `ackDoc` collects the device's answers until it sends them. The rest is history: the last value queued, the last
      value published, the last answer since the device's boot, the parameters queued since the device's boot, and those
      given up and neither answered nor queued since. */
  datatype Net = Net(d: State, started: nat, flushes: seq<Flush>, retry: map<Param, string>, cmds: seq<Msg>,
                     ackDoc: map<Param, string>, acks: seq<Msg>, held: map<Param, string>,
                     last: map<Param, string>, sent: map<Param, string>, answer: map<Param, string>,
                     asked: set<Param>, givenUp: set<Param>)

  const START := Net(IDLE, 0, [], map[], [], map[], [], map[], map[], map[], map[], {}, {})

  /** The delays of the dispatcher and the values the device accepts. */
  datatype Env = Env(delays: Delays, valid: (Param, string) -> bool)

  /** The uninterrupted sections of the dispatcher's coroutines, and what the channels and devices do between them. */
  datatype Event =
    | Add(p: Param, value: string, now: real)
    | TimerFires
    | Begin
    | Publish(i: nat, device: string)         // handed to the broker; the flush now waits for its confirmation
    | PublishFails(i: nat, device: string)
    | Recorded(i: nat, now: real)             // confirmed
    | SendFails(i: nat)                       // not confirmed, although sent
    | Finish(i: nat, now: real)
    | Check(now: real, timeout: real)         // the locked part of a timeout check
    | Retry(device: string)                   // its publications, one device after the other
    | RetryFails(device: string)
    | Receive(i: nat, persisted: set<Param>)  // what the device could store
    | SendAck(device: string)
    | HandleAckMsg(i: nat)
    | Reboot(device: string)

  /** Message i is the oldest one of its device. */
  predicate Oldest(ch: seq<Msg>, i: nat) {
    i < |ch| && forall j :: 0 <= j < i ==> ch[j].device != ch[i].device
  }

  /** Every message carries parameters of its own device only. */
  predicate Addressed(ch: seq<Msg>) {
    forall j, p :: 0 <= j < |ch| && p in ch[j].params ==> p.device == ch[j].device
  }

  /** A flush waits for one device at a time, and one timeout check runs at a time. */
  predicate Enabled(n: Net, e: Event) {
    match e
    case TimerFires => n.d.timer.Some?
    case Begin => n.started > 0
    case Publish(i, device) =>
      i < |n.flushes| && n.flushes[i].sending == map[] && Only(n.flushes[i].items, device) != map[]
    case PublishFails(i, device) =>
      i < |n.flushes| && n.flushes[i].sending == map[] && Only(n.flushes[i].items, device) != map[]
    case Recorded(i, _) => i < |n.flushes| && n.flushes[i].sending != map[]
    case SendFails(i) => i < |n.flushes| && n.flushes[i].sending != map[]
    case Finish(i, _) => i < |n.flushes| && n.flushes[i].items == map[] && n.flushes[i].sending == map[]
    case Check(_, _) => n.retry == map[]
    case Retry(device) => Only(n.retry, device) != map[]
    case RetryFails(device) => Only(n.retry, device) != map[]
    case Receive(i, _) => Oldest(n.cmds, i)
    case HandleAckMsg(i) => Oldest(n.acks, i)
    case SendAck(device) => Only(n.ackDoc, device) != map[]
    case _ => true
  }

  function Except<T>(s: seq<T>, i: nat): seq<T>
    requires i < |s|
  {
    s[..i] + s[i + 1..]
  }

  /** The messages of the other devices. */
  function Others(ch: seq<Msg>, device: string): seq<Msg> {
    if ch == [] then []
    else
      var k := |ch| - 1;
      Others(ch[..k], device) + if ch[k].device == device then [] else [ch[k]]
  }

  function Reply(env: Env, p: Param, value: string, persisted: set<Param>): string {
    if !env.valid(p, value) then "invalid_value" else if p in persisted then "ok" else "persist_failed"
  }

  function Replies(env: Env, m: Msg, persisted: set<Param>): map<Param, string> {
    map p | p in m.params :: Reply(env, p, m.params[p], persisted)
  }

  /** The values of a message the device takes over. */
  function Applied(env: Env, m: Msg): map<Param, string> {
    m.params - set p | p in m.params && !env.valid(p, m.params[p])
  }

  function ApplyAdd(env: Env, n: Net, p: Param, value: string, now: real): Net {
    n.(d := AddParam(n.d, env.delays, p, value, now), last := n.last[p := value], asked := n.asked + {p},
       givenUp := n.givenUp - {p})
  }

  function ApplyBegin(n: Net): Net
    requires n.started > 0
  {
    n.(d := Take(n.d), started := n.started - 1, flushes := n.flushes + [Flush(n.d.store, map[], map[])])
  }

  function ApplyPublish(n: Net, i: nat, device: string): Net
    requires i < |n.flushes|
  {
    var f := n.flushes[i];
    var params := Only(f.items, device);
    n.(flushes := n.flushes[i := Flush(Without(f.items, device), params, f.failed)],
       cmds := n.cmds + [Msg(device, params)], sent := n.sent + params)
  }

  function ApplyFails(n: Net, i: nat, device: string): Net
    requires i < |n.flushes|
  {
    var f := n.flushes[i];
    n.(flushes := n.flushes[i := f.(items := Without(f.items, device), failed := f.failed + Only(f.items, device))])
  }

  function ApplyRecorded(n: Net, i: nat, now: real): Net
    requires i < |n.flushes|
  {
    var f := n.flushes[i];
    n.(d := Record(n.d, f.sending, now), flushes := n.flushes[i := f.(sending := map[])])
  }

  function ApplySendFails(n: Net, i: nat): Net
    requires i < |n.flushes|
  {
    var f := n.flushes[i];
    n.(flushes := n.flushes[i := f.(sending := map[], failed := f.failed + f.sending)])
  }

  function ApplyFinish(env: Env, n: Net, i: nat, now: real): Net
    requires i < |n.flushes|
  {
    n.(d := Restore(n.d, env.delays, n.flushes[i].failed, now), flushes := Except(n.flushes, i))
  }

  function ExpiredNow(d: State, now: real, timeout: real): set<Param> {
    set p | p in d.pending && Expired(d, p, now, timeout)
  }

  function ApplyCheck(n: Net, now: real, timeout: real): Net {
    n.(d := CheckTimeouts(n.d, now, timeout), retry := ToRetry(n.d, now, timeout),
       givenUp := n.givenUp + ExpiredNow(n.d, now, timeout))
  }

  function ApplyRetry(n: Net, device: string): Net {
    var params := Only(n.retry, device);
    n.(retry := Without(n.retry, device), cmds := n.cmds + [Msg(device, params)], sent := n.sent + params)
  }

  function ApplyReceive(env: Env, n: Net, i: nat, persisted: set<Param>): Net
    requires i < |n.cmds|
  {
    var m := n.cmds[i];
    var r := Replies(env, m, persisted);
    n.(cmds := Except(n.cmds, i), held := n.held + Applied(env, m), ackDoc := n.ackDoc + r, answer := n.answer + r)
  }

  function ApplySendAck(n: Net, device: string): Net {
    n.(acks := n.acks + [Msg(device, Only(n.ackDoc, device))], ackDoc := Without(n.ackDoc, device))
  }

  function ApplyHandleAck(n: Net, i: nat): Net
    requires i < |n.acks|
  {
    n.(d := HandleAck(n.d, n.acks[i].params), acks := Except(n.acks, i), givenUp := n.givenUp - n.acks[i].params.Keys)
  }

  function ApplyReboot(n: Net, device: string): Net {
    n.(cmds := Others(n.cmds, device), ackDoc := Without(n.ackDoc, device), held := Without(n.held, device),
       answer := Without(n.answer, device), asked := n.asked - set p | p in n.asked && p.device == device)
  }

  function Apply(env: Env, n: Net, e: Event): Net
    requires Enabled(n, e)
  {
    match e
    case Add(p, value, now) => ApplyAdd(env, n, p, value, now)
    case TimerFires => n.(d := n.d.(timer := None), started := n.started + 1)
    case Begin => ApplyBegin(n)
    case Publish(i, device) => ApplyPublish(n, i, device)
    case PublishFails(i, device) => ApplyFails(n, i, device)
    case Recorded(i, now) => ApplyRecorded(n, i, now)
    case SendFails(i) => ApplySendFails(n, i)
    case Finish(i, now) => ApplyFinish(env, n, i, now)
    case Check(now, timeout) => ApplyCheck(n, now, timeout)
    case Retry(device) => ApplyRetry(n, device)
    case RetryFails(device) => n.(retry := Without(n.retry, device))
    case Receive(i, persisted) => ApplyReceive(env, n, i, persisted)
    case SendAck(device) => ApplySendAck(n, device)
    case HandleAckMsg(i) => ApplyHandleAck(n, i)
    case Reboot(device) => ApplyReboot(n, device)
  }

  // ---- Copies of one parameter in the running flushes ----

  datatype Part = Items | Sending | Failed

  function Of(f: Flush, part: Part): map<Param, string> {
    match part
    case Items => f.items
    case Sending => f.sending
    case Failed => f.failed
  }

  function CopyIn(f: Flush, part: Part, p: Param): set<string> { if p in Of(f, part) then {Of(f, part)[p]} else {} }

  /** The values of p in this part of any running flush. */
  function Copies(fs: seq<Flush>, part: Part, p: Param): set<string> {
    if fs == [] then {} else CopyIn(fs[0], part, p) + Copies(fs[1..], part, p)
  }

  lemma {:induction false} CopiesAt(fs: seq<Flush>, i: nat, part: Part, p: Param)
    requires i < |fs|
    ensures Copies(fs, part, p) == CopyIn(fs[i], part, p) + Copies(Except(fs, i), part, p)
  {
    hide CopyIn;
    if i > 0 {
      CopiesAt(fs[1..], i - 1, part, p);
      assert Except(fs, i)[0] == fs[0] && Except(fs, i)[1..] == Except(fs[1..], i - 1);
    } else {
      assert Except(fs, 0) == fs[1..];
    }
  }

  lemma CopiesSet(fs: seq<Flush>, i: nat, f: Flush, part: Part, p: Param)
    requires i < |fs|
    ensures Copies(fs[i := f], part, p) == CopyIn(f, part, p) + Copies(Except(fs, i), part, p)
    ensures Copies(fs, part, p) == CopyIn(fs[i], part, p) + Copies(Except(fs, i), part, p)
  {
    hide CopyIn, Copies;
    CopiesAt(fs, i, part, p);
    CopiesAt(fs[i := f], i, part, p);
    assert Except(fs[i := f], i) == Except(fs, i);
  }

  lemma CopiesAppend(fs: seq<Flush>, f: Flush, part: Part, p: Param)
    ensures Copies(fs + [f], part, p) == Copies(fs, part, p) + CopyIn(f, part, p)
  {
    hide CopyIn, Copies;
    CopiesAt(fs + [f], |fs|, part, p);
    assert Except(fs + [f], |fs|) == fs;
  }

  function AllCopies(fs: seq<Flush>, p: Param): set<string> {
    Copies(fs, Items, p) + Copies(fs, Sending, p) + Copies(fs, Failed, p)
  }

  /** A value of p has still to be published, or published again. */
  predicate Waiting(n: Net, p: Param) {
    p in n.d.store || Copies(n.flushes, Items, p) != {} || Copies(n.flushes, Failed, p) != {}
  }

  /** The step can let an older value of p follow its newest one:
      a flush takes p while another one holds a different value of it;
      the last copy of p waiting to be published is published while a different value waits to be retried;
      or a retry of p is decided while a different value, behind which nothing waits, is published but not recorded
      yet. */
  predicate Overtakes(n: Net, e: Event, p: Param)
    requires Enabled(n, e)
  {
    match e
    case Begin => p in n.d.store && !(AllCopies(n.flushes, p) <= {n.d.store[p]})
    case Publish(i, device) =>
      p in Only(n.flushes[i].items, device) && !Waiting(ApplyPublish(n, i, device), p)
      && p in n.retry && n.retry[p] != n.flushes[i].items[p]
    case Check(now, timeout) =>
      Retried(n.d, p, now, timeout) && !Waiting(n, p)
      && !(Copies(n.flushes, Sending, p) <= {n.d.pending[p].value})
    case _ => false
  }

  // ---- What the channels carry for one parameter ----

  function At(m: Msg, p: Param): Option<string> {
    if p in m.params then Some(m.params[p]) else None
  }

  /** Value of the newest message in the channel that carries p. */
  function Latest(ch: seq<Msg>, p: Param): Option<string> {
    if ch == [] then None
    else if At(ch[|ch| - 1], p).Some? then At(ch[|ch| - 1], p)
    else Latest(ch[..|ch| - 1], p)
  }

  lemma LatestAppend(ch: seq<Msg>, m: Msg, p: Param)
    ensures Latest(ch + [m], p) == if At(m, p).Some? then At(m, p) else Latest(ch, p)
  {
    assert (ch + [m])[..|ch|] == ch;
  }

  lemma {:induction false} LatestOfOthers(ch: seq<Msg>, p: Param)
    requires Addressed(ch) && forall j :: 0 <= j < |ch| ==> ch[j].device != p.device
    ensures Latest(ch, p) == None
  {
    if ch != [] { LatestOfOthers(ch[..|ch| - 1], p); }
  }

  lemma OldestEarlier(ch: seq<Msg>, i: nat)
    requires Oldest(ch, i) && Addressed(ch) && i < |ch| - 1
    ensures var k := |ch| - 1;
            Oldest(ch[..k], i) && Addressed(ch[..k]) && Except(ch, i) == Except(ch[..k], i) + [ch[k]]
  {
  }

  lemma OldestLast(ch: seq<Msg>, p: Param)
    requires ch != [] && Oldest(ch, |ch| - 1) && Addressed(ch)
    ensures var k := |ch| - 1; Except(ch, k) == ch[..k] && (At(ch[k], p).Some? ==> Latest(ch[..k], p).None?)
  {
    var k := |ch| - 1;
    if At(ch[k], p).Some? { LatestOfOthers(ch[..k], p); }
  }

  /** Taking out the oldest message of a device changes the newest value only when nothing newer is left. */
  lemma {:induction false} LatestExcept(ch: seq<Msg>, i: nat, p: Param)
    requires Oldest(ch, i) && Addressed(ch)
    ensures Latest(Except(ch, i), p) == Latest(ch, p)
            || (Latest(Except(ch, i), p) == None && At(ch[i], p).Some? && Latest(ch, p) == At(ch[i], p))
    ensures At(ch[i], p).None? ==> Latest(Except(ch, i), p) == Latest(ch, p)
  {
    var k := |ch| - 1;
    assert i <= k;
    hide Oldest, Addressed, Except, At;
    if i == k {
      OldestLast(ch, p);
    } else {
      OldestEarlier(ch, i);
      LatestExcept(ch[..k], i, p);
      LatestAppend(Except(ch[..k], i), ch[k], p);
    }
  }

  lemma {:induction false} OthersOnly(ch: seq<Msg>, device: string, p: Param)
    requires Addressed(ch)
    ensures Addressed(Others(ch, device))
    ensures Latest(Others(ch, device), p) == if p.device == device then None else Latest(ch, p)
  {
    if ch != [] {
      var k := |ch| - 1;
      OthersOnly(ch[..k], device, p);
      if ch[k].device != device { LatestAppend(Others(ch[..k], device), ch[k], p); }
      else { assert Others(ch[..k], device) + [] == Others(ch[..k], device); }
    }
  }

  // ---- The system as one parameter sees it ----

  function Get<T>(m: map<Param, T>, p: Param): Option<T> { if p in m then Some(m[p]) else None }

  function PendingValue(d: State, p: Param): Option<string> {
    if p in d.pending then Some(d.pending[p].value) else None
  }

  /** Where the values of one parameter are: queue, running flushes, check, channels, device, history. */
  datatype One = One(queued: Option<string>, items: set<string>, sending: set<string>, failed: set<string>,
                     retry: Option<string>, pending: Option<string>, unsynced: bool,
                     cmd: Option<string>, doc: Option<string>, ack: Option<string>, held: Option<string>,
                     last: Option<string>, sent: Option<string>, answer: Option<string>, asked: bool, givenUp: bool)
  {
    predicate Waits() { queued.Some? || items != {} || failed != {} }
  }

  function View(n: Net, p: Param): One {
    One(Get(n.d.store, p), Copies(n.flushes, Items, p), Copies(n.flushes, Sending, p), Copies(n.flushes, Failed, p),
        Get(n.retry, p), PendingValue(n.d, p), p in n.d.unsynced,
        Latest(n.cmds, p), Get(n.ackDoc, p), Latest(n.acks, p), Get(n.held, p),
        Get(n.last, p), Get(n.sent, p), Get(n.answer, p), p in n.asked, p in n.givenUp)
  }

  /** Possible changes of the view of a parameter the event is about. */
  datatype Change = Same | Queued(value: string) | Taken | Published(value: string) | PublishFailed(value: string)
                  | Confirmed(value: string) | Unconfirmed(value: string) | Restored(value: string)
                  | RetryDue | GivenUp | Republished | RetryLost
                  | Received(value: string, reply: string, valid: bool) | Acking | Acked(status: string) | Rebooted

  predicate Changes(v: One, w: One, ch: Change) {
    match ch
    case Same => w == v
    case Queued(value) =>
      w == v.(queued := Some(value), unsynced := false, last := Some(value), asked := true, givenUp := false)
    case Taken => v.queued.Some? && w == v.(items := v.items + {v.queued.value}, queued := None)
    case Published(value) =>
      && value in v.items && w.items <= v.items
      && w == v.(items := w.items, sending := v.sending + {value}, cmd := Some(value), sent := Some(value))
    case PublishFailed(value) =>
      && value in v.items && w.items <= v.items && value in w.failed && w.failed <= v.failed + {value}
      && w == v.(items := w.items, failed := w.failed)
    case Confirmed(value) =>
      value in v.sending && w.sending <= v.sending && w == v.(sending := w.sending, pending := Some(value))
    case Unconfirmed(value) =>
      && value in v.sending && w.sending <= v.sending && value in w.failed && w.failed <= v.failed + {value}
      && w == v.(sending := w.sending, failed := w.failed)
    case Restored(value) =>
      && value in v.failed && w.failed <= v.failed
      && w == v.(queued := if v.queued.Some? then v.queued else Some(value), failed := w.failed)
    case RetryDue => v.pending.Some? && w == v.(retry := v.pending)
    case GivenUp => v.pending.Some? && w == v.(pending := None, unsynced := true, givenUp := true)
    case Republished => v.retry.Some? && w == v.(retry := None, cmd := v.retry, sent := v.retry)
    case RetryLost => w == v.(retry := None)
    case Received(value, reply, valid) =>
      && v.cmd.Some? && (w.cmd == v.cmd || (w.cmd.None? && v.cmd == Some(value)))
      && w == v.(cmd := w.cmd, held := if valid then Some(value) else v.held, doc := Some(reply), answer := Some(reply))
    case Acking => v.doc.Some? && w == v.(ack := v.doc, doc := None)
    case Acked(status) =>
      && v.ack.Some? && (w.ack == v.ack || (w.ack.None? && v.ack == Some(status)))
      && w == v.(ack := w.ack, pending := None, unsynced := status != "ok", givenUp := false)
    case Rebooted => w == v.(cmd := None, doc := None, held := None, answer := None, asked := false)
  }

  // ---- The invariant of one parameter ----

  /** All copies in running flushes have one value. */
  predicate OneCopy(v: One) {
    forall a, b :: a in v.items + v.sending + v.failed && b in v.items + v.sending + v.failed ==> a == b
  }

  /** The newest value is the one nearest to the queue. */
  predicate NewestKept(v: One) {
    v.last.Some? ==>
      && (v.queued.Some? ==> v.last == v.queued)
      && (v.queued.None? ==> forall x :: x in v.items + v.failed ==> v.last == Some(x))
      && (!v.Waits() ==> v.last == v.sent)
  }

  /** When nothing waits, whatever may still be published or recorded is the last value published. */
  predicate OrderKept(v: One) {
    !v.Waits() ==>
      && (v.retry.Some? ==> v.retry == v.sent)
      && (forall x :: x in v.sending ==> v.sent == Some(x))
      && (v.sending == {} && v.pending.Some? ==> v.pending == v.sent)
  }

  /** What travels to the device is the last value published; once the device has seen it, it holds it if valid, and has
      answered accordingly. */
  predicate Followed(v: One, valid: string -> bool) {
    && (v.cmd.Some? ==> v.cmd == v.sent) && (v.answer.Some? ==> v.sent.Some?)
    && (v.cmd.None? && v.answer.Some? ==>
          && (valid(v.sent.value) ==> v.held == v.sent && v.answer.value in {"ok", "persist_failed"})
          && (!valid(v.sent.value) ==> v.answer.value == "invalid_value"))
  }

  predicate AtRest(v: One) { !v.Waits() && v.cmd.None? && v.doc.None? && v.ack.None? }

  /** The device answers what was queued since its boot; the last answer travels last, and decides the unsynced mark
      once it has arrived. */
  predicate AnswerKept(v: One) {
    && (v.asked && !v.Waits() && v.cmd.None? ==> v.answer.Some?)
    && (v.doc.Some? ==> v.doc == v.answer)
    && (v.doc.None? && v.ack.Some? && v.answer.Some? ==> v.ack == v.answer)
    && (AtRest(v) && v.answer.Some? ==> (v.unsynced <==> v.answer != Some("ok") || v.givenUp))
  }

  const UNTOUCHED := One(None, {}, {}, {}, None, None, false, None, None, None, None, None, None, None, false, false)

  predicate Kept(v: One, valid: string -> bool) {
    && (v.last.None? ==> v == UNTOUCHED)
    && OneCopy(v) && NewestKept(v) && OrderKept(v) && Followed(v, valid) && AnswerKept(v)
  }

  predicate Honest(ch: Change, valid: string -> bool) {
    ch.Received? ==> ch.valid == valid(ch.value)
                     && (if ch.valid then ch.reply in {"ok", "persist_failed"} else ch.reply == "invalid_value")
  }

  /** The same three cases as seen by the parameter. */
  predicate Misorders(v: One, w: One, ch: Change) {
    match ch
    case Taken => v.queued.Some? && !(v.items + v.sending + v.failed <= {v.queued.value})
    case Published(value) => !w.Waits() && v.retry.Some? && v.retry.value != value
    case RetryDue => !v.Waits() && v.pending.Some? && !(v.sending <= {v.pending.value})
    case _ => false
  }

  /** The device follows whatever is published, in any order. */
  lemma ChangeFollowed(v: One, w: One, ch: Change, valid: string -> bool)
    requires Followed(v, valid) && Changes(v, w, ch) && Honest(ch, valid)
    ensures Followed(w, valid)
  {
  }

  lemma ChangeOneCopy(v: One, w: One, ch: Change)
    requires OneCopy(v) && Changes(v, w, ch) && !Misorders(v, w, ch)
    ensures OneCopy(w)
  {
    var before, after := v.items + v.sending + v.failed, w.items + w.sending + w.failed;
    if ch.Taken? {
      assert after <= {v.queued.value};
    } else {
      assert after <= before;
    }
  }

  lemma ChangeNewest(v: One, w: One, ch: Change)
    requires OneCopy(v) && NewestKept(v) && OrderKept(v) && Changes(v, w, ch) && !Misorders(v, w, ch)
    requires v.last.Some? || v == UNTOUCHED
    ensures NewestKept(w)
  {
    match ch
    case Taken =>
    case Published(value) => assert value in v.items + v.sending + v.failed;
    case PublishFailed(value) => assert value in v.items + v.sending + v.failed;
    case Unconfirmed(value) => assert value in v.items + v.sending + v.failed;
    case Restored(value) => assert value in v.items + v.sending + v.failed;
    case _ =>
  }

  lemma ChangeInOrder(v: One, w: One, ch: Change)
    requires OneCopy(v) && NewestKept(v) && OrderKept(v) && Changes(v, w, ch) && !Misorders(v, w, ch)
    requires v.last.Some? || v == UNTOUCHED
    ensures OrderKept(w)
  {
    match ch
    case Published(value) => assert value in v.items + v.sending + v.failed;
    case Unconfirmed(value) => assert value in v.items + v.sending + v.failed;
    case _ =>
  }

  lemma ChangeOrdered(v: One, w: One, ch: Change)
    requires OneCopy(v) && NewestKept(v) && OrderKept(v) && Changes(v, w, ch) && !Misorders(v, w, ch)
    requires v.last.Some? || v == UNTOUCHED
    ensures OneCopy(w) && NewestKept(w) && OrderKept(w)
  {
    hide OneCopy, NewestKept, OrderKept, Changes, Misorders;
    ChangeOneCopy(v, w, ch);
    ChangeNewest(v, w, ch);
    ChangeInOrder(v, w, ch);
  }

  lemma ChangeAnswered(v: One, w: One, ch: Change)
    requires AnswerKept(v) && Changes(v, w, ch)
    ensures AnswerKept(w)
  {
  }

  lemma ChangeKeeps(v: One, w: One, ch: Change, valid: string -> bool)
    requires Kept(v, valid) && Changes(v, w, ch) && Honest(ch, valid) && !Misorders(v, w, ch)
    ensures Kept(w, valid)
  {
    ChangeFollowed(v, w, ch, valid);
    ChangeOrdered(v, w, ch);
    ChangeAnswered(v, w, ch);
    hide Followed, OneCopy, NewestKept, OrderKept, AnswerKept, Misorders, Honest;
  }

  // ---- What each event changes for one parameter ----

  predicate WellFormed(n: Net) { Addressed(n.cmds) && Addressed(n.acks) }

  lemma GetSplit(m: map<Param, string>, device: string, p: Param)
    ensures var one := if p.device == device then Get(m, p) else None;
            && At(Msg(device, Only(m, device)), p) == Get(Only(m, device), p) == one
            && Get(Without(m, device), p) == if p.device == device then None else Get(m, p)
  {
  }

  lemma GetPlus(m: map<Param, string>, k: map<Param, string>, p: Param)
    ensures Get(m + k, p) == if Get(k, p).Some? then Get(k, p) else Get(m, p)
  {
  }

  /** The copies of p after flush i has become f, which has one value of p less (`from`) and perhaps one more (`to`). */
  predicate Moved(fs: seq<Flush>, gs: seq<Flush>, from: Part, to: Part, value: string, p: Param) {
    && from != to
    && value in Copies(fs, from, p) && Copies(gs, from, p) <= Copies(fs, from, p)
    && value in Copies(gs, to, p) && Copies(gs, to, p) <= Copies(fs, to, p) + {value}
    && forall part :: part != from && part != to ==> Copies(gs, part, p) == Copies(fs, part, p)
  }

  lemma Moves(fs: seq<Flush>, i: nat, f: Flush, from: Part, to: Part, p: Param)
    requires i < |fs| && from != to && p in Of(fs[i], from) && p !in Of(f, from)
    requires p in Of(f, to) && Of(f, to)[p] == Of(fs[i], from)[p]
    requires forall part :: part != from && part != to ==> Get(Of(f, part), p) == Get(Of(fs[i], part), p)
    ensures Moved(fs, fs[i := f], from, to, Of(fs[i], from)[p], p)
    ensures p !in Of(fs[i], to) ==> Copies(fs[i := f], to, p) == Copies(fs, to, p) + {Of(fs[i], from)[p]}
  {
    hide Copies, Of;
    CopiesSet(fs, i, f, from, p);
    CopiesSet(fs, i, f, to, p);
    forall part | part != from && part != to ensures Copies(fs[i := f], part, p) == Copies(fs, part, p) {
      CopiesSet(fs, i, f, part, p);
    }
  }

  lemma Stays(fs: seq<Flush>, i: nat, f: Flush, p: Param)
    requires i < |fs| && forall part :: Get(Of(f, part), p) == Get(Of(fs[i], part), p)
    ensures forall part :: Copies(fs[i := f], part, p) == Copies(fs, part, p)
  {
    hide Copies, Of;
    forall part ensures Copies(fs[i := f], part, p) == Copies(fs, part, p) {
      assert Get(Of(f, part), p) == Get(Of(fs[i], part), p);
      CopiesSet(fs, i, f, part, p);
    }
  }

  lemma BeginView(n: Net, p: Param) returns (ch: Change)
    requires n.started > 0
    ensures Changes(View(n, p), View(ApplyBegin(n), p), ch)
    ensures if p in n.d.store then ch.Taken? else ch.Same?
  {
    hide Copies, Latest;
    var f := Flush(n.d.store, map[], map[]);
    CopiesAppend(n.flushes, f, Items, p);
    CopiesAppend(n.flushes, f, Sending, p);
    CopiesAppend(n.flushes, f, Failed, p);
    ch := if p in n.d.store then Taken else Same;
  }

  lemma PublishMoves(fs: seq<Flush>, i: nat, device: string, p: Param)
    requires i < |fs| && fs[i].sending == map[]
    ensures var gs := fs[i := Flush(Without(fs[i].items, device), Only(fs[i].items, device), fs[i].failed)];
            if p in Only(fs[i].items, device)
            then Copies(gs, Items, p) <= Copies(fs, Items, p) && fs[i].items[p] in Copies(fs, Items, p)
                 && Copies(gs, Sending, p) == Copies(fs, Sending, p) + {fs[i].items[p]}
                 && Copies(gs, Failed, p) == Copies(fs, Failed, p)
            else forall part :: Copies(gs, part, p) == Copies(fs, part, p)
  {
    var f := fs[i];
    var f' := Flush(Without(f.items, device), Only(f.items, device), f.failed);
    GetSplit(f.items, device, p);
    if p in Only(f.items, device) {
      Moves(fs, i, f', Items, Sending, p);
    } else {
      Stays(fs, i, f', p);
    }
  }

  lemma PublishParts(n: Net, i: nat, device: string, p: Param)
    requires Enabled(n, Publish(i, device))
    ensures var v, w := View(n, p), View(ApplyPublish(n, i, device), p);
            && w == v.(items := w.items, sending := w.sending, failed := w.failed, cmd := w.cmd, sent := w.sent)
            && w.failed == v.failed
            && if p in Only(n.flushes[i].items, device)
               then var x := n.flushes[i].items[p];
                    && x in v.items && w.items <= v.items && w.sending == v.sending + {x}
                    && w.cmd == Some(x) && w.sent == Some(x)
               else w.items == v.items && w.sending == v.sending && w.cmd == v.cmd && w.sent == v.sent
  {
    hide Copies, Latest, Only, Without, At, PendingValue;
    var f := n.flushes[i];
    var params := Only(f.items, device);
    GetSplit(f.items, device, p);
    GetPlus(n.sent, params, p);
    LatestAppend(n.cmds, Msg(device, params), p);
    PublishMoves(n.flushes, i, device, p);
  }

  lemma PublishView(n: Net, i: nat, device: string, p: Param) returns (ch: Change)
    requires Enabled(n, Publish(i, device))
    ensures Changes(View(n, p), View(ApplyPublish(n, i, device), p), ch)
    ensures if p in Only(n.flushes[i].items, device) then ch == Published(n.flushes[i].items[p]) else ch.Same?
  {
    GetSplit(n.flushes[i].items, device, p);
    PublishParts(n, i, device, p);
    ch := if p in Only(n.flushes[i].items, device) then Published(n.flushes[i].items[p]) else Same;
    hide View, ApplyPublish, Only;
  }

  lemma FailMoves(fs: seq<Flush>, i: nat, device: string, p: Param)
    requires i < |fs| && fs[i].sending == map[]
    ensures var f := fs[i];
            var gs := fs[i := f.(items := Without(f.items, device), failed := f.failed + Only(f.items, device))];
            if p in Only(f.items, device) then Moved(fs, gs, Items, Failed, f.items[p], p)
            else forall part :: Copies(gs, part, p) == Copies(fs, part, p)
  {
    var f := fs[i];
    var f' := f.(items := Without(f.items, device), failed := f.failed + Only(f.items, device));
    GetSplit(f.items, device, p);
    if p in Only(f.items, device) {
      Moves(fs, i, f', Items, Failed, p);
    } else {
      Stays(fs, i, f', p);
    }
  }

  lemma FailsParts(n: Net, i: nat, device: string, p: Param)
    requires Enabled(n, PublishFails(i, device))
    ensures var v, w := View(n, p), View(ApplyFails(n, i, device), p);
            && w == v.(items := w.items, failed := w.failed)
            && if p in Only(n.flushes[i].items, device)
               then var x := n.flushes[i].items[p];
                    x in v.items && w.items <= v.items && x in w.failed && w.failed <= v.failed + {x}
               else w.items == v.items && w.failed == v.failed
  {
    hide Copies, Latest, Only, Without, PendingValue, Get;
    GetSplit(n.flushes[i].items, device, p);
    FailMoves(n.flushes, i, device, p);
  }

  lemma FailsView(n: Net, i: nat, device: string, p: Param) returns (ch: Change)
    requires Enabled(n, PublishFails(i, device))
    ensures Changes(View(n, p), View(ApplyFails(n, i, device), p), ch) && (ch.Same? || ch.PublishFailed?)
  {
    GetSplit(n.flushes[i].items, device, p);
    FailsParts(n, i, device, p);
    ch := if p in Only(n.flushes[i].items, device) then PublishFailed(n.flushes[i].items[p]) else Same;
    hide View, ApplyFails, Only;
  }

  lemma RecordEffect(d: State, params: map<Param, string>, now: real, p: Param)
    ensures var r := Record(d, params, now);
            && r.store == d.store && r.unsynced == d.unsynced
            && PendingValue(r, p) == if p in params then Some(params[p]) else PendingValue(d, p)
  {
  }

  lemma SentMoves(fs: seq<Flush>, i: nat, p: Param)
    requires i < |fs|
    ensures var f := fs[i];
            var gs := fs[i := f.(sending := map[])];
            && Copies(gs, Items, p) == Copies(fs, Items, p) && Copies(gs, Failed, p) == Copies(fs, Failed, p)
            && Copies(gs, Sending, p) <= Copies(fs, Sending, p)
            && if p in f.sending then f.sending[p] in Copies(fs, Sending, p)
               else Copies(gs, Sending, p) == Copies(fs, Sending, p)
  {
    hide Copies;
    var f := fs[i].(sending := map[]);
    CopiesSet(fs, i, f, Items, p);
    CopiesSet(fs, i, f, Sending, p);
    CopiesSet(fs, i, f, Failed, p);
  }

  lemma RecordedParts(n: Net, i: nat, now: real, p: Param)
    requires Enabled(n, Recorded(i, now))
    ensures var v, w := View(n, p), View(ApplyRecorded(n, i, now), p);
            && w == v.(sending := w.sending, pending := w.pending)
            && if p in n.flushes[i].sending
               then var x := n.flushes[i].sending[p];
                    x in v.sending && w.sending <= v.sending && w.pending == Some(x)
               else w.sending == v.sending && w.pending == v.pending
  {
    hide Copies, Latest, Record, PendingValue, Get;
    RecordEffect(n.d, n.flushes[i].sending, now, p);
    SentMoves(n.flushes, i, p);
  }

  lemma RecordedView(n: Net, i: nat, now: real, p: Param) returns (ch: Change)
    requires Enabled(n, Recorded(i, now))
    ensures Changes(View(n, p), View(ApplyRecorded(n, i, now), p), ch) && (ch.Same? || ch.Confirmed?)
  {
    hide View, ApplyRecorded;
    RecordedParts(n, i, now, p);
    ch := if p in n.flushes[i].sending then Confirmed(n.flushes[i].sending[p]) else Same;
  }

  lemma SendFailMoves(fs: seq<Flush>, i: nat, p: Param)
    requires i < |fs|
    ensures var f := fs[i];
            var gs := fs[i := f.(sending := map[], failed := f.failed + f.sending)];
            if p in f.sending then Moved(fs, gs, Sending, Failed, f.sending[p], p)
            else forall part :: Copies(gs, part, p) == Copies(fs, part, p)
  {
    var f := fs[i];
    var f' := f.(sending := map[], failed := f.failed + f.sending);
    if p in f.sending {
      Moves(fs, i, f', Sending, Failed, p);
    } else {
      Stays(fs, i, f', p);
    }
  }

  lemma SendFailsParts(n: Net, i: nat, p: Param)
    requires Enabled(n, SendFails(i))
    ensures var v, w := View(n, p), View(ApplySendFails(n, i), p);
            && w == v.(sending := w.sending, failed := w.failed)
            && if p in n.flushes[i].sending
               then var x := n.flushes[i].sending[p];
                    x in v.sending && w.sending <= v.sending && x in w.failed && w.failed <= v.failed + {x}
               else w.sending == v.sending && w.failed == v.failed
  {
    hide Copies, Latest, PendingValue, Get;
    SendFailMoves(n.flushes, i, p);
  }

  lemma SendFailsView(n: Net, i: nat, p: Param) returns (ch: Change)
    requires Enabled(n, SendFails(i))
    ensures Changes(View(n, p), View(ApplySendFails(n, i), p), ch) && (ch.Same? || ch.Unconfirmed?)
  {
    hide View, ApplySendFails;
    SendFailsParts(n, i, p);
    ch := if p in n.flushes[i].sending then Unconfirmed(n.flushes[i].sending[p]) else Same;
  }

  lemma RestoreEffect(d: State, c: Delays, failed: map<Param, string>, now: real, p: Param)
    ensures var r := Restore(d, c, failed, now);
            && PendingValue(r, p) == PendingValue(d, p) && r.unsynced == d.unsynced
            && Get(r.store, p) == if p in d.store then Get(d.store, p) else Get(failed, p)
  {
  }

  lemma FlushEnds(fs: seq<Flush>, i: nat, p: Param)
    requires i < |fs| && fs[i].items == map[] && fs[i].sending == map[]
    ensures Copies(Except(fs, i), Items, p) == Copies(fs, Items, p)
    ensures Copies(Except(fs, i), Sending, p) == Copies(fs, Sending, p)
    ensures Copies(fs, Failed, p) == Copies(Except(fs, i), Failed, p) + CopyIn(fs[i], Failed, p)
  {
    hide Copies, Except;
    CopiesAt(fs, i, Items, p);
    CopiesAt(fs, i, Sending, p);
    CopiesAt(fs, i, Failed, p);
  }

  lemma FinishParts(env: Env, n: Net, i: nat, now: real, p: Param)
    requires Enabled(n, Finish(i, now))
    ensures var v, w := View(n, p), View(ApplyFinish(env, n, i, now), p);
            && w == v.(queued := w.queued, failed := w.failed)
            && if p in n.flushes[i].failed
               then var x := n.flushes[i].failed[p];
                    && x in v.failed && w.failed <= v.failed
                    && w.queued == if v.queued.Some? then v.queued else Some(x)
               else w.failed == v.failed && w.queued == v.queued
  {
    hide Copies, Latest, Restore, Except, PendingValue;
    RestoreEffect(n.d, env.delays, n.flushes[i].failed, now, p);
    FlushEnds(n.flushes, i, p);
  }

  lemma FinishView(env: Env, n: Net, i: nat, now: real, p: Param) returns (ch: Change)
    requires Enabled(n, Finish(i, now))
    ensures Changes(View(n, p), View(ApplyFinish(env, n, i, now), p), ch) && (ch.Same? || ch.Restored?)
  {
    hide View, ApplyFinish;
    FinishParts(env, n, i, now, p);
    ch := if p in n.flushes[i].failed then Restored(n.flushes[i].failed[p]) else Same;
  }

  lemma CheckParts(n: Net, now: real, timeout: real, p: Param)
    requires n.retry == map[]
    ensures var v, w := View(n, p), View(ApplyCheck(n, now, timeout), p);
            && w == v.(retry := w.retry, pending := w.pending, unsynced := w.unsynced, givenUp := w.givenUp)
            && if Retried(n.d, p, now, timeout)
               then w.retry == v.pending && w.pending == v.pending && v.pending.Some? && w.unsynced == v.unsynced
                    && w.givenUp == v.givenUp
               else
                 && w.retry == v.retry
                 && if Expired(n.d, p, now, timeout)
                    then v.pending.Some? && w.pending == None && w.unsynced && w.givenUp
                    else w.pending == v.pending && w.unsynced == v.unsynced && w.givenUp == v.givenUp
  {
    hide Copies, Latest;
  }

  lemma CheckView(n: Net, now: real, timeout: real, p: Param) returns (ch: Change)
    requires n.retry == map[]
    ensures Changes(View(n, p), View(ApplyCheck(n, now, timeout), p), ch)
    ensures if Retried(n.d, p, now, timeout) then ch.RetryDue? else ch.Same? || ch.GivenUp?
  {
    CheckParts(n, now, timeout, p);
    ch := if Retried(n.d, p, now, timeout) then RetryDue else if Expired(n.d, p, now, timeout) then GivenUp else Same;
    hide View, ApplyCheck, Retried, Expired;
  }

  lemma RetryView(n: Net, device: string, p: Param) returns (ch: Change)
    ensures Changes(View(n, p), View(ApplyRetry(n, device), p), ch) && (ch.Same? || ch.Republished?)
  {
    hide Copies, Latest, Only, Without, At;
    var params := Only(n.retry, device);
    GetSplit(n.retry, device, p);
    GetPlus(n.sent, params, p);
    LatestAppend(n.cmds, Msg(device, params), p);
    ch := if p in params then Republished else Same;
  }

  lemma GetReplies(env: Env, n: Net, m: Msg, persisted: set<Param>, p: Param)
    ensures At(m, p).None? ==> Get(n.ackDoc + Replies(env, m, persisted), p) == Get(n.ackDoc, p)
                               && Get(n.answer + Replies(env, m, persisted), p) == Get(n.answer, p)
                               && Get(n.held + Applied(env, m), p) == Get(n.held, p)
    ensures At(m, p).Some? ==>
              var value := At(m, p).value;
              var reply := Some(Reply(env, p, value, persisted));
              && Get(n.ackDoc + Replies(env, m, persisted), p) == reply
              && Get(n.answer + Replies(env, m, persisted), p) == reply
              && Get(n.held + Applied(env, m), p) == if env.valid(p, value) then Some(value) else Get(n.held, p)
  {
  }

  lemma {:induction false} LatestSome(ch: seq<Msg>, i: nat, p: Param)
    requires i < |ch| && At(ch[i], p).Some?
    ensures Latest(ch, p).Some?
  {
    if i < |ch| - 1 { LatestSome(ch[..|ch| - 1], i, p); }
  }

  lemma ReceiveParts(env: Env, n: Net, i: nat, persisted: set<Param>, p: Param)
    requires Oldest(n.cmds, i) && Addressed(n.cmds)
    ensures var v, w := View(n, p), View(ApplyReceive(env, n, i, persisted), p);
            && w == v.(cmd := w.cmd, held := w.held, doc := w.doc, answer := w.answer)
            && var x := At(n.cmds[i], p);
               if x.Some?
               then var reply := Reply(env, p, x.value, persisted);
                    && v.cmd.Some? && (w.cmd == v.cmd || (w.cmd.None? && v.cmd == x))
                    && w.held == (if env.valid(p, x.value) then x else v.held)
                    && w.doc == Some(reply) && w.answer == Some(reply)
               else w.cmd == v.cmd && w.held == v.held && w.doc == v.doc && w.answer == v.answer
  {
    hide Copies, Latest, Replies, Applied, Get, PendingValue, At, Reply;
    LatestExcept(n.cmds, i, p);
    GetReplies(env, n, n.cmds[i], persisted, p);
    if At(n.cmds[i], p).Some? { LatestSome(n.cmds, i, p); }
    hide Except, Oldest, Addressed;
  }

  lemma ReceiveView(env: Env, n: Net, i: nat, persisted: set<Param>, p: Param) returns (ch: Change)
    requires Oldest(n.cmds, i) && Addressed(n.cmds)
    ensures ch.Same? || ch.Received?
    ensures Honest(ch, v => env.valid(p, v))
    ensures Changes(View(n, p), View(ApplyReceive(env, n, i, persisted), p), ch)
  {
    var x := At(n.cmds[i], p);
    hide View, ApplyReceive, Oldest, Addressed, At;
    ReceiveParts(env, n, i, persisted, p);
    ch := if x.Some? then Received(x.value, Reply(env, p, x.value, persisted), env.valid(p, x.value)) else Same;
  }

  lemma SendAckView(n: Net, device: string, p: Param) returns (ch: Change)
    ensures (ch.Same? || ch.Acking?) && Changes(View(n, p), View(ApplySendAck(n, device), p), ch)
  {
    hide Copies, Latest, Only, Without, At;
    GetSplit(n.ackDoc, device, p);
    LatestAppend(n.acks, Msg(device, Only(n.ackDoc, device)), p);
    ch := if p in n.ackDoc && p.device == device then Acking else Same;
  }

  lemma GetHandled(d: State, m: Msg, p: Param)
    ensures var h := HandleAck(d, m.params);
            && h.store == d.store
            && PendingValue(h, p) == (if At(m, p).Some? then None else PendingValue(d, p))
            && (p in h.unsynced <==> if At(m, p).Some? then At(m, p) != Some("ok") else p in d.unsynced)
  {
  }

  lemma HandleAckParts(n: Net, i: nat, p: Param)
    requires Oldest(n.acks, i) && Addressed(n.acks)
    ensures var v, w := View(n, p), View(ApplyHandleAck(n, i), p);
            && w == v.(ack := w.ack, pending := w.pending, unsynced := w.unsynced, givenUp := w.givenUp)
            && var x := At(n.acks[i], p);
               if x.Some?
               then && v.ack.Some? && (w.ack == v.ack || (w.ack.None? && v.ack == x))
                    && w.pending == None && (w.unsynced <==> x.value != "ok") && !w.givenUp
               else w.ack == v.ack && w.pending == v.pending && w.unsynced == v.unsynced && w.givenUp == v.givenUp
  {
    hide Copies, Latest, HandleAck, PendingValue, Get;
    LatestExcept(n.acks, i, p);
    GetHandled(n.d, n.acks[i], p);
    if At(n.acks[i], p).Some? { LatestSome(n.acks, i, p); }
    hide Except, Oldest, Addressed;
  }

  lemma HandleAckView(n: Net, i: nat, p: Param) returns (ch: Change)
    requires Oldest(n.acks, i) && Addressed(n.acks)
    ensures ch.Same? || ch.Acked?
    ensures Changes(View(n, p), View(ApplyHandleAck(n, i), p), ch)
  {
    var x := At(n.acks[i], p);
    hide View, ApplyHandleAck, Oldest, Addressed, At;
    HandleAckParts(n, i, p);
    ch := if x.Some? then Acked(x.value) else Same;
  }

  lemma RebootParts(n: Net, device: string, p: Param)
    requires Addressed(n.cmds)
    ensures var v, w := View(n, p), View(ApplyReboot(n, device), p);
            w == if p.device != device then v
                 else v.(cmd := None, doc := None, held := None, answer := None, asked := false)
  {
    OthersOnly(n.cmds, device, p);
    GetSplit(n.ackDoc, device, p);
    GetSplit(n.held, device, p);
    GetSplit(n.answer, device, p);
    hide Copies, Latest, Others, Without, Only, At, Addressed, Get, PendingValue;
  }

  lemma RebootView(n: Net, device: string, p: Param) returns (ch: Change)
    requires Addressed(n.cmds)
    ensures (ch.Same? || ch.Rebooted?) && Changes(View(n, p), View(ApplyReboot(n, device), p), ch)
  {
    RebootParts(n, device, p);
    ch := if p.device == device then Rebooted else Same;
    hide View, ApplyReboot, Addressed;
  }

  lemma AddView(env: Env, n: Net, q: Param, value: string, now: real, p: Param) returns (ch: Change)
    ensures Changes(View(n, p), View(ApplyAdd(env, n, q, value, now), p), ch) && (ch.Same? || ch.Queued?)
  {
    hide Copies, Latest;
    ch := if q == p then Queued(value) else Same;
  }

  /** The event behind a change that can overtake. */
  predicate CausedBy(n: Net, e: Event, p: Param, ch: Change)
    requires Enabled(n, e)
  {
    match ch
    case Taken => e.Begin?
    case Published(value) => e.Publish? && p in Only(n.flushes[e.i].items, e.device) && value == n.flushes[e.i].items[p]
    case RetryDue => e.Check? && Retried(n.d, p, e.now, e.timeout)
    case _ => true
  }

  /** A change that overtakes comes from a step that does. */
  lemma MisorderingStep(env: Env, n: Net, e: Event, p: Param, ch: Change)
    requires Enabled(n, e) && Misorders(View(n, p), View(Apply(env, n, e), p), ch) && CausedBy(n, e, p, ch)
    ensures Overtakes(n, e, p)
  {
    hide Copies, Latest, Retried;
  }

  /** Each event changes the view of a parameter in one of the ways listed above, and overtakes only if it does
      there. */
  lemma StepChanges(env: Env, n: Net, e: Event, p: Param) returns (ch: Change)
    requires WellFormed(n) && Enabled(n, e)
    ensures Changes(View(n, p), View(Apply(env, n, e), p), ch) && Honest(ch, v => env.valid(p, v))
    ensures Misorders(View(n, p), View(Apply(env, n, e), p), ch) ==> Overtakes(n, e, p)
  {
    hide Copies, Latest, Changes, Only, Without, Retried, Expired, View, Misorders, Overtakes, ApplyAdd, ApplyBegin,
         ApplyPublish, ApplyFails, ApplyRecorded, ApplySendFails, ApplyFinish, ApplyCheck, ApplyRetry, ApplyReceive,
         ApplySendAck, ApplyHandleAck, ApplyReboot, Oldest, Addressed;
    match e {
      case Add(q, value, now) => ch := AddView(env, n, q, value, now, p);
      case TimerFires => ch := Same; Untimed(n, p);
      case Begin => ch := BeginView(n, p);
      case Publish(i, device) => ch := PublishView(n, i, device, p);
      case PublishFails(i, device) => ch := FailsView(n, i, device, p);
      case Recorded(i, now) => ch := RecordedView(n, i, now, p);
      case SendFails(i) => ch := SendFailsView(n, i, p);
      case Finish(i, now) => ch := FinishView(env, n, i, now, p);
      case Check(now, timeout) => ch := CheckView(n, now, timeout, p);
      case Retry(device) => ch := RetryView(n, device, p);
      case RetryFails(device) => ch := RetryFailsView(n, device, p);
      case Receive(i, persisted) => ch := ReceiveView(env, n, i, persisted, p);
      case SendAck(device) => ch := SendAckView(n, device, p);
      case HandleAckMsg(i) => ch := HandleAckView(n, i, p);
      case Reboot(device) => ch := RebootView(n, device, p);
    }
    if Misorders(View(n, p), View(Apply(env, n, e), p), ch) { MisorderingStep(env, n, e, p, ch); }
  }

  lemma Untimed(n: Net, p: Param)
    ensures Changes(View(n, p), View(n.(d := n.d.(timer := None), started := n.started + 1), p), Same)
  {
    hide Copies, Latest;
  }

  lemma RetryFailsView(n: Net, device: string, p: Param) returns (ch: Change)
    ensures Changes(View(n, p), View(n.(retry := Without(n.retry, device)), p), ch) && (ch.Same? || ch.RetryLost?)
  {
    hide Copies, Latest, Only, Without;
    GetSplit(n.retry, device, p);
    ch := if p.device == device then RetryLost else Same;
  }

  lemma StepWellFormed(env: Env, n: Net, e: Event)
    requires WellFormed(n) && Enabled(n, e)
    ensures WellFormed(Apply(env, n, e))
  {
    hide Copies, Latest, Others, AddParam, Record, Restore, CheckTimeouts, HandleAck, Replies, Applied;
    if e.Reboot? { OthersOnly(n.cmds, e.device, Param(e.device, "")); }
  }

  /** Every step that overtakes nothing of p keeps the invariant of p. */
  lemma StepKeeps(env: Env, n: Net, e: Event, p: Param)
    requires WellFormed(n) && Enabled(n, e) && !Overtakes(n, e, p)
    requires Kept(View(n, p), v => env.valid(p, v))
    ensures WellFormed(Apply(env, n, e)) && Kept(View(Apply(env, n, e), p), v => env.valid(p, v))
  {
    hide Copies, Latest, Changes, View, Apply, Enabled, Overtakes, WellFormed, Kept, Misorders, Honest;
    StepWellFormed(env, n, e);
    var ch := StepChanges(env, n, e, p);
    ChangeKeeps(View(n, p), View(Apply(env, n, e), p), ch, v => env.valid(p, v));
  }

  // ---- Runs ----

  predicate Possible(env: Env, n: Net, es: seq<Event>)
    decreases |es|
  {
    es == [] || (Enabled(n, es[0]) && Possible(env, Apply(env, n, es[0]), es[1..]))
  }

  function Run(env: Env, n: Net, es: seq<Event>): Net
    requires Possible(env, n, es)
    decreases |es|
  {
    if es == [] then n else Run(env, Apply(env, n, es[0]), es[1..])
  }

  /** No step of the run overtakes anything of p. */
  predicate InOrder(env: Env, n: Net, es: seq<Event>, p: Param)
    requires Possible(env, n, es)
    decreases |es|
  {
    es == [] || (!Overtakes(n, es[0], p) && InOrder(env, Apply(env, n, es[0]), es[1..], p))
  }

  lemma {:induction false} RunKeeps(env: Env, n: Net, es: seq<Event>, p: Param)
    requires WellFormed(n) && Kept(View(n, p), v => env.valid(p, v)) && Possible(env, n, es) && InOrder(env, n, es, p)
    ensures WellFormed(Run(env, n, es)) && Kept(View(Run(env, n, es), p), v => env.valid(p, v))
    decreases |es|
  {
    hide Kept, View, Apply, Enabled, Overtakes, WellFormed;
    if es != [] {
      StepKeeps(env, n, es[0], p);
      RunKeeps(env, Apply(env, n, es[0]), es[1..], p);
    }
  }

  lemma StartKept(env: Env, p: Param)
    ensures WellFormed(START) && Kept(View(START, p), v => env.valid(p, v))
  {
    assert View(START, p) == UNTOUCHED;
  }

  /** Nothing queued, in flight, waiting for a retry, or travelling in either direction. */
  predicate Quiet(n: Net) {
    n.d.store == map[] && n.flushes == [] && n.retry == map[] && n.cmds == [] && n.ackDoc == map[] && n.acks == []
  }

  /** After any run that overtakes nothing of p and has come to rest: the last value queued is the last one published,
      and the only one that can still be retried. If it was queued since the device's last boot, the device holds it if
      it is valid, and p is unsynced exactly if the device refused it, could not store it, or p was given up since. */
  lemma Converges(env: Env, es: seq<Event>, p: Param)
    requires Possible(env, START, es) && InOrder(env, START, es, p)
    ensures var n := Run(env, START, es);
            Quiet(n) ==>
              && (p !in n.last ==> p !in n.held && p !in n.d.pending && p !in n.d.unsynced)
              && (p in n.last ==> p in n.sent && n.sent[p] == n.last[p])
              && (p in n.d.pending ==> p in n.last && n.d.pending[p].value == n.last[p])
              && (p in n.asked ==>
                    && p in n.last && p in n.answer
                    && (env.valid(p, n.last[p]) ==> p in n.held && n.held[p] == n.last[p])
                    && (p in n.d.unsynced <==>
                          !env.valid(p, n.last[p]) || n.answer[p] == "persist_failed" || p in n.givenUp))
  {
    hide Possible, InOrder, Run;
    StartKept(env, p);
    RunKeeps(env, START, es, p);
    if Quiet(Run(env, START, es)) { RestIsNewest(env, Run(env, START, es), p); }
  }

  lemma RestIsNewest(env: Env, n: Net, p: Param)
    requires Quiet(n) && Kept(View(n, p), v => env.valid(p, v))
    ensures p !in n.last ==> p !in n.held && p !in n.d.pending && p !in n.d.unsynced
    ensures p in n.last ==> p in n.sent && n.sent[p] == n.last[p]
    ensures p in n.d.pending ==> p in n.last && n.d.pending[p].value == n.last[p]
    ensures p in n.asked ==>
              && p in n.last && p in n.answer
              && (env.valid(p, n.last[p]) ==> p in n.held && n.held[p] == n.last[p])
              && (p in n.d.unsynced <==>
                    !env.valid(p, n.last[p]) || n.answer[p] == "persist_failed" || p in n.givenUp)
  {
  }
}
