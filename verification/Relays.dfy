/** The relay outputs: recorded states, batched writing, and what the pins carry after every single write. */
module Relays {
  const RELAY_COUNT: nat := 16

  const BOILER_POWER: nat := 0
  const RADIATOR_PUMP: nat := 1
  const FLOOR_PUMP: nat := 2
  const IHB_PUMP: nat := 3
  const WATER_PUMP: nat := 4
  const WATER_HOT_PUMP: nat := 5
  const TEH: nat := 6
  const AUTOFILL_OPEN: nat := 7
  const AUTOFILL_CLOSE: nat := 8
  const RAD_VALVE_OPEN: nat := 9
  const RAD_VALVE_CLOSE: nat := 10
  const FLOOR_VALVE_OPEN: nat := 11
  const FLOOR_VALVE_CLOSE: nat := 12
  const LAMP_WARNING: nat := 13
  const LAMP_CRITICAL: nat := 14
  const SPARE: nat := 15

  /** One value for each channel. */
  predicate Full(v: seq<bool>) { |v| == RELAY_COUNT }

  datatype Write = Write(ch: nat, on: bool)

  predicate ValidWrites(ws: seq<Write>) { forall i :: 0 <= i < |ws| ==> ws[i].ch < RELAY_COUNT }

  /** What the pins carry after each of the writes. */
  function Trace(pins: seq<bool>, ws: seq<Write>): (vs: seq<seq<bool>>)
    requires Full(pins) && ValidWrites(ws)
    ensures |vs| == |ws| && AllFull(vs)
    decreases |ws|
  {
    if ws == [] then [] else [pins[ws[0].ch := ws[0].on]] + Trace(pins[ws[0].ch := ws[0].on], ws[1..])
  }

  /** What the pins carry after all of the writes. */
  function Final(pins: seq<bool>, ws: seq<Write>): (v: seq<bool>)
    requires Full(pins) && ValidWrites(ws)
    ensures Full(v)
    decreases |ws|
  {
    if ws == [] then pins else Final(pins[ws[0].ch := ws[0].on], ws[1..])
  }

  lemma {:induction false} TraceJoin(v: seq<bool>, a: seq<Write>, b: seq<Write>)
    requires Full(v) && ValidWrites(a) && ValidWrites(b)
    ensures Trace(v, a + b) == Trace(v, a) + Trace(Final(v, a), b)
    ensures Final(v, a + b) == Final(Final(v, a), b)
    decreases |a|
  {
    if a == [] {
      assert a + b == b;
    } else {
      assert (a + b)[0] == a[0] && (a + b)[1..] == a[1..] + b;
      TraceJoin(v[a[0].ch := a[0].on], a[1..], b);
    }
  }

  lemma TraceNone(v: seq<bool>)
    requires Full(v)
    ensures Trace(v, []) == []
  {
  }

  lemma TraceTwo(v: seq<bool>, a: Write, b: Write)
    requires Full(v) && a.ch < RELAY_COUNT && b.ch < RELAY_COUNT
    ensures Trace(v, [a, b]) == Trace(v, [a]) + Trace(v[a.ch := a.on], [b])
  {
    assert [a, b] == [a] + [b];
    TraceJoin(v, [a], [b]);
    FinalOne(v, a);
  }

  lemma FinalOne(v: seq<bool>, a: Write)
    requires Full(v) && a.ch < RELAY_COUNT
    ensures Final(v, []) == v && Final(v, [a]) == v[a.ch := a.on]
  {
    assert [a][1..] == [];
  }

  lemma FinalTwo(v: seq<bool>, a: Write, b: Write)
    requires Full(v) && a.ch < RELAY_COUNT && b.ch < RELAY_COUNT
    ensures Final(v, [a, b]) == v[a.ch := a.on][b.ch := b.on]
  {
    hide Final, Trace;
    assert [a, b] == [a] + [b];
    FinalOne(v, a);
    FinalOne(Final(v, [a]), b);
    TraceJoin(v, [a], [b]);
  }

  /** The changed outputs from channel i on, in channel order. */
  function Changes(pins: seq<bool>, states: seq<bool>, i: nat): (ws: seq<Write>)
    requires Full(pins) && Full(states) && i <= RELAY_COUNT
    ensures ValidWrites(ws)
    decreases RELAY_COUNT - i
  {
    if i == RELAY_COUNT then []
    else if pins[i] != states[i] then [Write(i, states[i])] + Changes(pins, states, i + 1)
    else Changes(pins, states, i + 1)
  }

  /** Every channel before i is as recorded, every other one still as it was. */
  predicate Halfway(v: seq<bool>, pins: seq<bool>, states: seq<bool>, i: nat)
    requires Full(v) && Full(pins) && Full(states)
  {
    forall k :: 0 <= k < RELAY_COUNT ==> v[k] == if k < i then states[k] else pins[k]
  }

  lemma HalfwayStep(v: seq<bool>, pins: seq<bool>, states: seq<bool>, i: nat)
    requires Full(v) && Full(pins) && Full(states) && i < RELAY_COUNT && Halfway(v, pins, states, i)
    ensures Halfway(v[i := states[i]], pins, states, i + 1)
    ensures pins[i] == states[i] ==> v[i := states[i]] == v
  {
  }

  lemma ChangesStep(v: seq<bool>, pins: seq<bool>, states: seq<bool>, i: nat)
    requires Full(v) && Full(pins) && Full(states) && i < RELAY_COUNT && pins[i] != states[i]
    ensures var ws, w := Changes(pins, states, i), v[i := states[i]];
            && |ws| > 0 && ws[0].ch == i && ws[1..] == Changes(pins, states, i + 1)
            && Trace(v, ws) == [w] + Trace(w, ws[1..]) && Final(v, ws) == Final(w, ws[1..])
  {
    var ws := Changes(pins, states, i);
    assert ws[0] == Write(i, states[i]);
  }

  /** Each channel at most once, none below i. */
  predicate Ascending(ws: seq<Write>, i: nat) {
    && (forall j :: 0 <= j < |ws| ==> i <= ws[j].ch)
    && (forall j, k :: 0 <= j < k < |ws| ==> ws[j].ch < ws[k].ch)
  }

  /** In one commit every pin is written at most once. */
  lemma {:induction false} ChangesOnce(pins: seq<bool>, states: seq<bool>, i: nat)
    requires Full(pins) && Full(states) && i <= RELAY_COUNT
    ensures Ascending(Changes(pins, states, i), i)
    decreases RELAY_COUNT - i
  {
    if i < RELAY_COUNT { ChangesOnce(pins, states, i + 1); }
  }

  /** And in the end carries its recorded state. */
  lemma {:induction false} ChangesLeadToStates(v: seq<bool>, pins: seq<bool>, states: seq<bool>, i: nat)
    requires Full(v) && Full(pins) && Full(states) && i <= RELAY_COUNT && Halfway(v, pins, states, i)
    ensures Final(v, Changes(pins, states, i)) == states
    decreases RELAY_COUNT - i
  {
    if i == RELAY_COUNT {
      assert v == states;
    } else {
      HalfwayStep(v, pins, states, i);
      ChangesLeadToStates(v[i := states[i]], pins, states, i + 1);
      if pins[i] != states[i] { ChangesStep(v, pins, states, i); }
    }
  }

  /** Both outputs of a motorised valve energised at once; channel `open + 1` closes what `open` opens. */
  predicate Clash(v: seq<bool>, open: nat)
    requires Full(v) && open < RELAY_COUNT - 1
  {
    v[open] && v[open + 1]
  }

  predicate AllFull(vs: seq<seq<bool>>) { forall j :: 0 <= j < |vs| ==> Full(vs[j]) }

  /** The valve's outputs are never energised together. */
  predicate ClashFree(vs: seq<seq<bool>>, open: nat)
    requires open < RELAY_COUNT - 1 && AllFull(vs)
  {
    forall j :: 0 <= j < |vs| ==> !Clash(vs[j], open)
  }

  lemma ClashFreeJoin(a: seq<seq<bool>>, b: seq<seq<bool>>, open: nat)
    requires open < RELAY_COUNT - 1 && AllFull(a) && AllFull(b)
    ensures AllFull(a + b) && (ClashFree(a + b, open) <==> ClashFree(a, open) && ClashFree(b, open))
  {
    if ClashFree(a + b, open) {
      forall j | 0 <= j < |a| ensures !Clash(a[j], open) { assert a[j] == (a + b)[j]; }
      forall j | 0 <= j < |b| ensures !Clash(b[j], open) { assert b[j] == (a + b)[|a| + j]; }
    }
  }

  lemma {:induction false} ClashFreeFrom(v: seq<bool>, pins: seq<bool>, states: seq<bool>, i: nat, open: nat)
    requires Full(v) && Full(pins) && Full(states) && i <= RELAY_COUNT && Halfway(v, pins, states, i)
    requires open < RELAY_COUNT - 1 && !Clash(pins, open) && !Clash(states, open)
    ensures ClashFree(Trace(v, Changes(pins, states, i)), open) <==> i > open || !(pins[open + 1] && states[open])
    decreases RELAY_COUNT - i
  {
    if i < RELAY_COUNT {
      HalfwayStep(v, pins, states, i);
      var w := v[i := states[i]];
      ClashFreeFrom(w, pins, states, i + 1, open);
      if pins[i] != states[i] {
        ChangesStep(v, pins, states, i);
        ClashFreeJoin([w], Trace(w, Changes(pins, states, i + 1)), open);
        assert ClashFree([w], open) <==> !Clash(w, open) by { assert [w][0] == w; }
      }
    }
  }

  /** A commit keeps a valve's outputs apart after every write if and only if it does not turn closing into opening. */
  lemma CommitClashFree(pins: seq<bool>, states: seq<bool>, open: nat)
    requires Full(pins) && Full(states) && open < RELAY_COUNT - 1
    requires !Clash(pins, open) && !Clash(states, open)
    ensures ClashFree(Trace(pins, Changes(pins, states, 0)), open) <==> !(pins[open + 1] && states[open])
  {
    ClashFreeFrom(pins, pins, states, 0, open);
  }

  class RelayController {
    const states: array<bool>
    const written: array<bool>   // what the output pins actually carry
    var batch: bool
    ghost var history: seq<seq<bool>>  // the pins after each write since boot

    ghost predicate Valid()
      reads this, states, written
    {
      && states.Length == RELAY_COUNT == written.Length && states != written
      && (!batch ==> states[..] == written[..])
    }

    /** All relays start off. */
    constructor ()
      ensures Valid() && !batch && history == [] && fresh(states) && fresh(written)
      ensures forall k :: 0 <= k < RELAY_COUNT ==> !states[k]
    {
      states := new bool[RELAY_COUNT](i => false);
      written := new bool[RELAY_COUNT](i => false);
      batch, history := false, [];
    }

    method WritePin(ch: nat, on: bool)
      requires ch < written.Length
      modifies written, this`history
      ensures written[..] == old(written[..])[ch := on] && history == old(history) + [written[..]]
    {
      written[ch] := on;
      history := history + [written[..]];
    }

    /** Record the state; outside a batch the pin follows at once. */
    method Set(ch: nat, on: bool)
      requires Valid() && ch < RELAY_COUNT
      modifies states, written, this`history
      ensures Valid() && states[..] == old(states[..])[ch := on]
      ensures if batch then written[..] == old(written[..]) && history == old(history)
              else history == old(history) + Trace(old(written[..]), [Write(ch, on)])
    {
      states[ch] := on;
      if !batch {
        WritePin(ch, on);
        assert Trace(old(written[..]), [Write(ch, on)])
               == [written[..]] + Trace(written[..], []);
      }
    }

    method BeginBatch()
      requires Valid()
      modifies this`batch
      ensures Valid() && batch
    {
      batch := true;
    }

    /** Write every changed output once, in channel order. */
    method Commit()
      requires Valid()
      modifies this`batch, written, this`history
      ensures Valid() && !batch && states[..] == written[..]
      ensures history == old(history) + Trace(old(written[..]), Changes(old(written[..]), states[..], 0))
    {
      batch := false;
      ghost var pins: seq<bool>, want: seq<bool>, was := written[..], states[..], history;
      hide Trace, Changes, Halfway;
      assert Halfway(written[..], pins, want, 0) by { HalfwayStart(pins, want); }
      for i := 0 to RELAY_COUNT
        invariant !batch && states[..] == want && Halfway(written[..], pins, want, i)
        invariant was + Trace(pins, Changes(pins, want, 0)) == history + Trace(written[..], Changes(pins, want, i))
      {
        CommitStep(written[..], pins, want, i, history);
        HalfwayStep(written[..], pins, want, i);
        if written[i] != states[i] {
          WritePin(i, states[i]);
        }
      }
      CommitEnd(written[..], pins, want);
      HalfwayEnd(written[..], pins, want);
      assert written[..] == want == states[..];
    }

    function Get(ch: nat): bool
      requires ch < states.Length
      reads states
    {
      states[ch]
    }
  }

  lemma CommitStep(v: seq<bool>, pins: seq<bool>, want: seq<bool>, i: nat, history: seq<seq<bool>>)
    requires Full(v) && Full(pins) && Full(want) && i < RELAY_COUNT && v[i] == pins[i]
    ensures var w := v[i := want[i]];
            history + Trace(v, Changes(pins, want, i))
            == (if v[i] != want[i] then history + [w] else history) + Trace(w, Changes(pins, want, i + 1))
  {
    var w := v[i := want[i]];
    if pins[i] != want[i] {
      ChangesStep(v, pins, want, i);
      var rest := Trace(w, Changes(pins, want, i + 1));
      assert history + ([w] + rest) == (history + [w]) + rest;
    } else {
      assert Changes(pins, want, i) == Changes(pins, want, i + 1);
      assert w == v;
    }
  }

  lemma HalfwayStart(pins: seq<bool>, want: seq<bool>)
    requires Full(pins) && Full(want)
    ensures Halfway(pins, pins, want, 0)
  {
  }

  lemma HalfwayEnd(v: seq<bool>, pins: seq<bool>, want: seq<bool>)
    requires Full(v) && Full(pins) && Full(want) && Halfway(v, pins, want, RELAY_COUNT)
    ensures v == want
  {
  }

  lemma CommitEnd(v: seq<bool>, pins: seq<bool>, want: seq<bool>)
    requires Full(v) && Full(pins) && Full(want)
    ensures Trace(v, Changes(pins, want, RELAY_COUNT)) == []
  {
  }
}
