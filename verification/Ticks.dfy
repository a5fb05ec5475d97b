/** The fast tick: how late it may be, for anything that counts on it. */
module Ticks {

  /** When an input came, and whether it was the tick or a boot. */
  datatype Stamp = Stamp(now: nat, tick: bool, boot: bool)

  /** Time of the last tick or boot before input k; 0 if there was none. */
  function LastTick(ts: seq<Stamp>, k: nat): nat
    requires k <= |ts|
  {
    if k == 0 then 0 else if ts[k - 1].tick || ts[k - 1].boot then ts[k - 1].now else LastTick(ts, k - 1)
  }

  /** Input k comes at most `gap` after the last tick, and not before it. */
  predicate TickedAt(ts: seq<Stamp>, k: nat, gap: nat)
    requires k < |ts|
  {
    !ts[k].boot ==> LastTick(ts, k) <= ts[k].now <= LastTick(ts, k) + gap
  }

  /** The tick runs at least every `gap` ms. */
  predicate Ticked(ts: seq<Stamp>, gap: nat) { forall k :: 0 <= k < |ts| ==> TickedAt(ts, k, gap) }

  /** From one input to the next time does not run backwards, except at a boot. */
  predicate Forwards(ts: seq<Stamp>) { forall k :: 0 < k < |ts| && !ts[k].boot ==> ts[k - 1].now <= ts[k].now }
}
