/** The alarm lamps and the buzzer mute: which causes are muted, and when a mute is forgotten. */
module AlarmLamps {
  const CRIT_BITS: nat := 9
  const MUTE_FORGET_MS := 5 * 60 * 1000

  const CRIT_PRESSURE_ZERO: nat := 0
  const CRIT_PRESSURE: nat := 1
  const CRIT_BOILER_MAX: nat := 2
  const CRIT_IHB_SENSOR: nat := 3
  const CRIT_BOILER_SENSOR: nat := 4
  const CRIT_OVERTEMP: nat := 5
  const CRIT_AUTOFILL: nat := 6
  const CRIT_FROST: nat := 7
  const CRIT_NO_HEAT: nat := 8

  /** Causes as sets of their numbers; `seenAt` is when each was last active. */
  datatype Lamps = Lamps(causes: set<nat>, muted: set<nat>, seenAt: seq<nat>, warning: bool, critical: bool)
  {
    predicate Valid() { |seenAt| == CRIT_BITS && Proper(causes) && Proper(muted) }
  }

  predicate Proper(causes: set<nat>) { forall c :: c in causes ==> c < CRIT_BITS }

  const FRESH := Lamps({}, {}, [0, 0, 0, 0, 0, 0, 0, 0, 0], false, false)

  function SeenNow(seenAt: seq<nat>, causes: set<nat>, now: nat): (s: seq<nat>)
    requires |seenAt| == CRIT_BITS
    ensures |s| == CRIT_BITS && forall c :: 0 <= c < CRIT_BITS ==> s[c] == if c in causes then now else seenAt[c]
  {
    seq(CRIT_BITS, c requires 0 <= c < CRIT_BITS => if c in causes then now else seenAt[c])
  }

  /** A muted cause gone for MUTE_FORGET_MS is forgotten. */
  function Remembered(muted: set<nat>, causes: set<nat>, seenAt: seq<nat>, now: nat): set<nat>
    requires |seenAt| == CRIT_BITS && Proper(muted)
  {
    set c | c in muted && (c in causes || now - seenAt[c] < MUTE_FORGET_MS)
  }

  function UpdateLamps(l: Lamps, causes: set<nat>, warning: bool, now: nat): (m: Lamps)
    requires l.Valid() && Proper(causes)
    ensures m.Valid()
  {
    var muted := Remembered(l.muted, causes, l.seenAt, now);
    Lamps(causes, muted, SeenNow(l.seenAt, causes, now), warning, causes - muted != {})
  }

  function MuteLamps(l: Lamps): Lamps { l.(muted := l.causes, critical := false) }

  datatype Input =
    | Cycle(causes: set<nat>, warning: bool, now: nat)
    | Mute(now: nat)
    | Boot(now: nat)
    | Other(now: nat)

  predicate ProperInput(i: Input) { i.Cycle? ==> Proper(i.causes) }

  function Step(l: Lamps, i: Input): (m: Lamps)
    requires l.Valid() && ProperInput(i)
    ensures m.Valid()
  {
    match i
    case Cycle(causes, warning, now) => UpdateLamps(l, causes, warning, now)
    case Mute(_) => MuteLamps(l)
    case Boot(_) => FRESH
    case Other(_) => l
  }

  predicate IsRun(h: seq<Input>, xs: seq<Lamps>) {
    && |xs| == |h| + 1 && xs[0] == FRESH && (forall k :: 0 <= k < |h| ==> ProperInput(h[k]))
    && forall k :: 0 <= k < |h| ==> xs[k].Valid() && xs[k + 1] == Step(xs[k], h[k])
  }

  // ---- History ----

  /** Causes of the last cycle since boot. */
  function CausesAt(h: seq<Input>, k: nat): set<nat>
    requires k <= |h|
  {
    if k == 0 || h[k - 1].Boot? then {} else if h[k - 1].Cycle? then h[k - 1].causes else CausesAt(h, k - 1)
  }

  /** When cause c was last active since boot; 0 if it never was. */
  function LastSeen(h: seq<Input>, c: nat, k: nat): nat
    requires k <= |h|
  {
    if k == 0 || h[k - 1].Boot? then 0
    else if h[k - 1].Cycle? && c in h[k - 1].causes then h[k - 1].now
    else LastSeen(h, c, k - 1)
  }

  /** A cycle that finds cause c absent, 5 minutes or more after it was last active. */
  predicate FindsGone(h: seq<Input>, c: nat, j: nat)
    requires j < |h|
  {
    h[j].Cycle? && c !in h[j].causes && h[j].now - LastSeen(h, c, j) >= MUTE_FORGET_MS
  }

  /** m is the last mute before k, c was active at it, and no cycle since has found it gone. */
  predicate MutedBy(h: seq<Input>, c: nat, m: nat, k: nat)
    requires k <= |h|
  {
    && m < k && h[m].Mute? && c in CausesAt(h, m)
    && forall j :: m < j < k ==> !h[j].Mute? && !h[j].Boot? && !FindsGone(h, c, j)
  }

  lemma {:induction false} StateIsHistory(h: seq<Input>, xs: seq<Lamps>, k: nat)
    requires IsRun(h, xs) && k <= |h|
    ensures xs[k].Valid() && xs[k].causes == CausesAt(h, k)
    ensures forall c :: 0 <= c < CRIT_BITS ==> xs[k].seenAt[c] == LastSeen(h, c, k)
  {
    if k > 0 {
      StateIsHistory(h, xs, k - 1);
      assert xs[k] == Step(xs[k - 1], h[k - 1]);
    }
  }

  lemma MutedByStep(h: seq<Input>, c: nat, m: nat, k: nat)
    requires k < |h|
    ensures MutedBy(h, c, m, k + 1)
            <==> (MutedBy(h, c, m, k) && !h[k].Mute? && !h[k].Boot? && !FindsGone(h, c, k))
                 || (m == k && h[k].Mute? && c in CausesAt(h, k))
  {
    hide CausesAt, FindsGone;
  }

  /** A cause is muted if and only if it was active at the last mute and never found gone for 5 minutes since. */
  lemma {:induction false} MutedIffHistory(h: seq<Input>, xs: seq<Lamps>, k: nat, c: nat)
    requires IsRun(h, xs) && k <= |h| && c < CRIT_BITS
    ensures xs[k].Valid()
    ensures c in xs[k].muted <==> exists m: nat :: MutedBy(h, c, m, k)
  {
    StateIsHistory(h, xs, k);
    if k > 0 {
      var p := k - 1;
      StateIsHistory(h, xs, p);
      MutedIffHistory(h, xs, p, c);
      forall m: nat ensures MutedBy(h, c, m, k)
                            <==> (MutedBy(h, c, m, p) && !h[p].Mute? && !h[p].Boot? && !FindsGone(h, c, p))
                                 || (m == p && h[p].Mute? && c in CausesAt(h, p))
      {
        MutedByStep(h, c, m, p);
      }
      assert xs[k] == Step(xs[p], h[p]);
      if h[p].Mute? {
        assert c in xs[k].muted <==> MutedBy(h, c, p, k);
      }
    }
  }

  /** The critical lamp is on if and only if some active cause is not muted. */
  lemma {:induction false} LampIffUnmuted(h: seq<Input>, xs: seq<Lamps>, k: nat)
    requires IsRun(h, xs) && k <= |h|
    ensures xs[k].critical <==> exists c :: c in xs[k].causes && c !in xs[k].muted
  {
    if k > 0 {
      LampIffUnmuted(h, xs, k - 1);
      assert xs[k] == Step(xs[k - 1], h[k - 1]);
      hide Remembered, SeenNow;
      if h[k - 1].Cycle? {
        DifferenceNonempty(xs[k].causes, xs[k].muted);
      }
    }
  }

  lemma DifferenceNonempty(a: set<nat>, b: set<nat>)
    ensures a - b != {} <==> exists c :: c in a && c !in b
  {
    if a - b != {} {
      var c :| c in a - b;
      assert c in a && c !in b;
    }
    if c :| c in a && c !in b { assert c in a - b; }
  }

  // ---- The bit mask ----

  /** 1 << b, written out. */
  function Bit(b: nat): bv16
    requires b < CRIT_BITS
  {
    match b
    case 0 => 0x001
    case 1 => 0x002
    case 2 => 0x004
    case 3 => 0x008
    case 4 => 0x010
    case 5 => 0x020
    case 6 => 0x040
    case 7 => 0x080
    case _ => 0x100
  }

  /** ~(1 << b). */
  function Mask(b: nat): bv16
    requires b < CRIT_BITS
  {
    Bit(b) ^ 0xFFFF
  }

  predicate Meets(m: bv16, x: bv16) { m & x != 0 }

  function And(m: bv16, x: bv16): bv16 { m & x }

  function Or(m: bv16, x: bv16): bv16 { m | x }

  predicate Has(mask: bv16, b: nat)
    requires b < CRIT_BITS
  {
    Meets(mask, Bit(b))
  }

  function Bits(mask: bv16): set<nat> { set b: nat | b < CRIT_BITS && Has(mask, b) }

  /** A mask with no bits beyond the nine causes. */
  predicate Small(mask: bv16) { mask & 0xFE00 == 0 }

  predicate Disjoint(x: bv16, y: bv16) { x & y == 0 }

  predicate Covers(x: bv16, y: bv16) { x & y == y }

  lemma DistinctBits(b: nat, c: nat)
    requires b < CRIT_BITS && c < CRIT_BITS && b != c
    ensures Disjoint(Bit(b), Bit(c)) && Covers(Mask(b), Bit(c))
  {
  }

  lemma OwnBit(b: nat)
    requires b < CRIT_BITS
    ensures Disjoint(Mask(b), Bit(b)) && Bit(b) != 0
  {
  }

  lemma AndWithin(m: bv16, x: bv16, y: bv16)
    requires Covers(x, y)
    ensures Meets(And(m, x), y) == Meets(m, y)
  {
    hide Meets;
    AndAbsorbs(m, x, y);
    SameMeets(And(m, x), m, y);
  }

  lemma SameMeets(a: bv16, b: bv16, y: bv16)
    requires a & y == b & y
    ensures Meets(a, y) == Meets(b, y)
  {
  }

  lemma AndAbsorbs(m: bv16, x: bv16, y: bv16)
    requires x & y == y
    ensures And(m, x) & y == m & y
  {
  }

  lemma AndOutside(m: bv16, x: bv16, y: bv16)
    requires Disjoint(x, y)
    ensures !Meets(And(m, x), y)
  {
  }

  lemma OrOutside(m: bv16, x: bv16, y: bv16)
    requires Disjoint(x, y)
    ensures Meets(Or(m, x), y) == Meets(m, y)
  {
  }

  lemma OrMeets(m: bv16, x: bv16)
    requires x != 0
    ensures Meets(Or(m, x), x)
  {
  }

  lemma ClearedSmall(m: bv16, b: nat)
    requires b < CRIT_BITS && Small(m)
    ensures Small(Cleared(m, b))
  {
    hide Bit;
  }

  lemma NoBitsSet()
    ensures Bits(0) == {} && Small(0)
  {
  }

  /** mask &= ~bit */
  function Cleared(mask: bv16, b: nat): bv16
    requires b < CRIT_BITS
  {
    And(mask, Mask(b))
  }

  /** mask |= bit */
  function Raised(mask: bv16, b: nat): bv16
    requires b < CRIT_BITS
  {
    Or(mask, Bit(b))
  }

  lemma ClearedOther(mask: bv16, b: nat, c: nat)
    requires b < CRIT_BITS && c < CRIT_BITS && b != c
    ensures Has(Cleared(mask, b), c) == Has(mask, c)
  {
    hide Bit, Mask, Meets, Disjoint, Covers, And;
    DistinctBits(b, c);
    AndWithin(mask, Mask(b), Bit(c));
  }

  lemma RaisedOther(mask: bv16, b: nat, c: nat)
    requires b < CRIT_BITS && c < CRIT_BITS && b != c
    ensures Has(Raised(mask, b), c) == Has(mask, c)
  {
    hide Bit, Mask, Meets, Disjoint, Covers, Or;
    DistinctBits(b, c);
    OrOutside(mask, Bit(b), Bit(c));
  }

  lemma SameBit(mask: bv16, b: nat)
    requires b < CRIT_BITS
    ensures !Has(Cleared(mask, b), b) && Has(Raised(mask, b), b)
  {
    hide Bit, Mask, Meets, Disjoint, Covers, And, Or;
    OwnBit(b);
    AndOutside(mask, Mask(b), Bit(b));
    OrMeets(mask, Bit(b));
  }

  lemma ClearedBit(mask: bv16, b: nat, c: nat)
    requires b < CRIT_BITS && c < CRIT_BITS
    ensures Has(Cleared(mask, b), c) == (c != b && Has(mask, c))
  {
    hide Cleared, Raised, Has;
    if b == c { SameBit(mask, b); } else { ClearedOther(mask, b, c); }
  }

  /** Raising one more cause. */
  lemma SetBit(mask: bv16, b: nat)
    requires b < CRIT_BITS
    ensures Bits(Raised(mask, b)) == Bits(mask) + {b}
    ensures Small(mask) ==> Small(Raised(mask, b))
  {
    SmallOr(mask, b);
    hide Has, Small, Raised;
    forall c: nat | c < CRIT_BITS ensures Has(Raised(mask, b), c) == (c == b || Has(mask, c)) {
      if b == c { SameBit(mask, b); } else { RaisedOther(mask, b, c); }
    }
  }

  lemma SmallOr(mask: bv16, b: nat)
    requires b < CRIT_BITS
    ensures Small(mask) ==> Small(Raised(mask, b))
  {
  }

  /** The mask as it is between two bits of the loop: those before b are done. */
  ghost predicate ForgottenBefore(mask: bv16, muted: bv16, causes: bv16, seenAt: seq<nat>, now: nat, b: nat)
    requires |seenAt| == CRIT_BITS
  {
    forall c: nat :: c < CRIT_BITS ==>
                       (Has(mask, c)
                        <==> Has(muted, c) && (c >= b || Has(causes, c) || now - seenAt[c] < MUTE_FORGET_MS))
  }

  /** causes & ~muted */
  function Unmuted(causes: bv16, muted: bv16): bv16 { And(causes, muted ^ 0xFFFF) }

  predicate Single(y: bv16) { y & (y - 1) == 0 }

  lemma SingleBit(b: nat)
    requires b < CRIT_BITS
    ensures Single(Bit(b))
  {
  }

  lemma SingleMeets(m: bv16, y: bv16)
    requires Single(y)
    ensures m & y == 0 || m & y == y
  {
  }

  lemma UnmutedOfInactive(a: bv16, b: bv16, y: bv16)
    requires a & y == 0
    ensures Unmuted(a, b) & y == 0
  {
  }

  lemma UnmutedOfMuted(a: bv16, b: bv16, y: bv16)
    requires b & y == y
    ensures Unmuted(a, b) & y == 0
  {
  }

  lemma UnmutedOfHeard(a: bv16, b: bv16, y: bv16)
    requires b & y == 0
    ensures Unmuted(a, b) & y == a & y
  {
  }

  lemma UnmutedMeets(a: bv16, b: bv16, y: bv16)
    requires Single(y)
    ensures Meets(Unmuted(a, b), y) == (Meets(a, y) && !Meets(b, y))
  {
    hide Unmuted, Single;
    SingleMeets(b, y);
    if a & y == 0 {
      UnmutedOfInactive(a, b, y);
    } else if b & y == 0 {
      UnmutedOfHeard(a, b, y);
    } else {
      UnmutedOfMuted(a, b, y);
    }
  }

  lemma UnmutedHas(a: bv16, b: bv16, c: nat)
    requires c < CRIT_BITS
    ensures Has(Unmuted(a, b), c) == (Has(a, c) && !Has(b, c))
  {
    hide Bit, Meets, Single, Unmuted;
    SingleBit(c);
    UnmutedMeets(a, b, Bit(c));
  }

  lemma SmallZero(m: bv16)
    requires Small(m)
    requires forall c: nat :: c < CRIT_BITS ==> !Has(m, c)
    ensures m == 0
  {
    assert !Has(m, 0) && !Has(m, 1) && !Has(m, 2) && !Has(m, 3) && !Has(m, 4);
    assert !Has(m, 5) && !Has(m, 6) && !Has(m, 7) && !Has(m, 8);
  }

  /** The lamp's test on the masks is the test on the sets. */
  lemma UnmutedIsDifference(causes: bv16, muted: bv16)
    requires Small(causes)
    ensures Unmuted(causes, muted) != 0 <==> Bits(causes) - Bits(muted) != {}
  {
    var m := Unmuted(causes, muted);
    UnmutedSmall(causes, muted);
    forall c: nat | c < CRIT_BITS ensures Has(m, c) == (Has(causes, c) && !Has(muted, c)) {
      UnmutedHas(causes, muted, c);
    }
    if Bits(causes) - Bits(muted) == {} {
      hide Has, Small;
      NoBits(causes, muted);
      SmallZero(m);
    } else {
      var c :| c in Bits(causes) - Bits(muted);
      hide Bit, Small, Unmuted;
      assert Has(m, c);
    }
  }

  lemma NoBits(causes: bv16, muted: bv16)
    requires Bits(causes) - Bits(muted) == {}
    ensures forall c: nat :: c < CRIT_BITS ==> !(Has(causes, c) && !Has(muted, c))
  {
    hide Has;
    forall c: nat | c < CRIT_BITS ensures !(Has(causes, c) && !Has(muted, c)) {
      assert c !in Bits(causes) - Bits(muted);
    }
  }

  lemma UnmutedSmall(causes: bv16, muted: bv16)
    requires Small(causes)
    ensures Small(Unmuted(causes, muted))
  {
  }

  ghost predicate SeenBefore(s: seq<nat>, seenAt: seq<nat>, causes: bv16, now: nat, b: nat)
    requires |seenAt| == CRIT_BITS
  {
    |s| == CRIT_BITS && forall c: nat :: c < CRIT_BITS ==> s[c] == if c < b && Has(causes, c) then now else seenAt[c]
  }

  lemma ForgetStep(mask': bv16, mask: bv16, muted: bv16, causes: bv16, seenAt: seq<nat>, now: nat, b: nat)
    requires |seenAt| == CRIT_BITS && b < CRIT_BITS && ForgottenBefore(mask, muted, causes, seenAt, now, b)
             && Small(mask)
    requires var forget := !Has(causes, b) && Has(mask, b) && now - seenAt[b] >= MUTE_FORGET_MS;
             mask' == if forget then Cleared(mask, b) else mask
    ensures ForgottenBefore(mask', muted, causes, seenAt, now, b + 1) && Small(mask')
  {
    hide Cleared, Has, Small;
    forall c: nat | c < CRIT_BITS
      ensures Has(mask', c) <==> Has(muted, c) && (c >= b + 1 || Has(causes, c) || now - seenAt[c] < MUTE_FORGET_MS)
    {
      ClearedBit(mask, b, c);
    }
    ClearedSmall(mask, b);
  }

  lemma LoopDone(mask: bv16, s: seq<nat>, muted: bv16, causes: bv16, seenAt: seq<nat>, now: nat)
    requires |seenAt| == CRIT_BITS && ForgottenBefore(mask, muted, causes, seenAt, now, CRIT_BITS)
    requires SeenBefore(s, seenAt, causes, now, CRIT_BITS)
    ensures Bits(mask) == Remembered(Bits(muted), Bits(causes), seenAt, now)
    ensures s == SeenNow(seenAt, Bits(causes), now)
  {
    hide Has;
  }

  lemma LoopStart(muted: bv16, causes: bv16, seenAt: seq<nat>, now: nat)
    requires |seenAt| == CRIT_BITS
    ensures ForgottenBefore(muted, muted, causes, seenAt, now, 0) && SeenBefore(seenAt, seenAt, causes, now, 0)
  {
    hide Has;
  }

  lemma SeenStep(s: seq<nat>, seenAt: seq<nat>, causes: bv16, now: nat, b: nat)
    requires |seenAt| == CRIT_BITS && b < CRIT_BITS && SeenBefore(s, seenAt, causes, now, b)
    ensures |s| == CRIT_BITS && s[b] == seenAt[b]
    ensures SeenBefore(if Has(causes, b) then s[b := now] else s, seenAt, causes, now, b + 1)
  {
    hide Has;
  }

  /** One round of the loop over the bits. */
  method ForgetBit(causes: bv16, muted: bv16, seenAt: seq<nat>, now: nat, b: nat)
    returns (muted': bv16, seenAt': seq<nat>)
    requires |seenAt| == CRIT_BITS && b < CRIT_BITS
    ensures seenAt' == if Has(causes, b) then seenAt[b := now] else seenAt
    ensures muted' == if !Has(causes, b) && Has(muted, b) && now - seenAt[b] >= MUTE_FORGET_MS then Cleared(muted, b)
                      else muted
  {
    hide Cleared, Has;
    muted', seenAt' := muted, seenAt;
    if Has(causes, b) {
      seenAt' := seenAt[b := now];
    } else if Has(muted, b) && now - seenAt[b] >= MUTE_FORGET_MS {
      muted' := Cleared(muted, b);
    }
  }

  /** Note the causes seen now; drop the mute of those gone too long. */
  method ForgetMutes(causes: bv16, muted: bv16, seenAt: seq<nat>, now: nat) returns (muted': bv16, seenAt': seq<nat>)
    requires |seenAt| == CRIT_BITS && Small(muted)
    ensures Small(muted') && Bits(muted') == Remembered(Bits(muted), Bits(causes), seenAt, now)
    ensures seenAt' == SeenNow(seenAt, Bits(causes), now)
  {
    hide Bit, Has, Small, Bits, Remembered, ForgottenBefore, SeenBefore;
    LoopStart(muted, causes, seenAt, now);
    muted', seenAt' := muted, seenAt;
    for b := 0 to CRIT_BITS
      invariant Small(muted') && ForgottenBefore(muted', muted, causes, seenAt, now, b)
      invariant SeenBefore(seenAt', seenAt, causes, now, b)
    {
      SeenStep(seenAt', seenAt, causes, now, b);
      ghost var before := muted';
      muted', seenAt' := ForgetBit(causes, muted', seenAt', now, b);
      ForgetStep(muted', before, muted, causes, seenAt, now, b);
    }
    LoopDone(muted', seenAt', muted, causes, seenAt, now);
  }
}
