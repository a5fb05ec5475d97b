/** Clipping of instrument legs against the boxes of the heating scheme. */
module Geometry {
  import opened Reals

  datatype Point = Point(x: real, y: real)

  /** Axis-aligned box. Nothing forces x0 < x1 or y0 < y1: a box may be empty. */
  datatype Box = Box(x0: real, y0: real, x1: real, y1: real)

  /** The point at parameter `t` of the segment a-b. */
  function At(a: Point, b: Point, t: real): Point {
    Point(a.x + t * (b.x - a.x), a.y + t * (b.y - a.y))
  }

  predicate StrictlyInside(p: Point, o: Box) {
    o.x0 < p.x < o.x1 && o.y0 < p.y < o.y1
  }

  /** The closed segment a-b has a point strictly inside the box. */
  ghost predicate Crosses(a: Point, b: Point, o: Box) {
    exists t: real :: 0.0 <= t <= 1.0 && StrictlyInside(At(a, b, t), o)
  }

  /** One clip edge: the segment parameter t is on the inner side of the edge iff p * t < q. */
  datatype Edge = Edge(p: real, q: real)

  function Edges(a: Point, b: Point, o: Box): (es: seq<Edge>)
    ensures |es| == 4
  {
    var dx, dy := b.x - a.x, b.y - a.y;
    [Edge(-dx, a.x - o.x0), Edge(dx, o.x1 - a.x), Edge(-dy, a.y - o.y0), Edge(dy, o.y1 - a.y)]
  }

  ghost predicate InnerSide(es: seq<Edge>, t: real) {
    forall i :: 0 <= i < |es| ==> es[i].p * t < es[i].q
  }

  lemma InsideIffInnerSide(a: Point, b: Point, o: Box, t: real)
    ensures StrictlyInside(At(a, b, t), o) <==> InnerSide(Edges(a, b, o), t)
  {
    var es := Edges(a, b, o);
    assert (-(b.x - a.x)) * t == -(t * (b.x - a.x));
    assert (-(b.y - a.y)) * t == -(t * (b.y - a.y));
    assert es[0].p * t < es[0].q <==> o.x0 < At(a, b, t).x;
    assert es[1].p * t < es[1].q <==> At(a, b, t).x < o.x1;
    assert es[2].p * t < es[2].q <==> o.y0 < At(a, b, t).y;
    assert es[3].p * t < es[3].q <==> At(a, b, t).y < o.y1;
  }

  /** Dividing an edge inequality by its slope flips it exactly when the slope is negative. */
  lemma DivideEdge(p: real, q: real, t: real)
    requires p != 0.0
    ensures p < 0.0 ==> (p * t < q <==> t > q / p)
    ensures p > 0.0 ==> (p * t < q <==> t < q / p)
  {
    var r := q / p;
    assert q == p * r;
    if p < 0.0 {
      if t > r { assert p * (t - r) < 0.0; } else { assert p * (t - r) >= 0.0; }
    } else {
      if t < r { assert p * (t - r) < 0.0; } else { assert p * (t - r) >= 0.0; }
    }
    assert p * (t - r) == p * t - p * r;
  }

  /** The parameters left after clipping by `es`: a stretch of [0, 1] from t0 to t1, open at the ends cut off. */
  ghost predicate Clipped(es: seq<Edge>, t0: real, t1: real) {
    && 0.0 <= t0 && t1 <= 1.0
    && (forall t: real :: t0 < t < t1 ==> InnerSide(es, t))
    && (forall t: real :: 0.0 <= t <= 1.0 && InnerSide(es, t) ==> t0 <= t <= t1 && t0 < t1)
  }

  lemma ClipStep(es: seq<Edge>, e: Edge, t0: real, t1: real)
    requires t0 < t1 && Clipped(es, t0, t1)
    ensures e.p == 0.0 && e.q <= 0.0 ==> forall t: real :: !InnerSide(es + [e], t)
    ensures e.p == 0.0 && e.q > 0.0 ==> Clipped(es + [e], t0, t1)
    ensures e.p < 0.0 ==> Clipped(es + [e], Max(t0, e.q / e.p), t1)
    ensures e.p > 0.0 ==> Clipped(es + [e], t0, Min(t1, e.q / e.p))
  {
    var fs := es + [e];
    forall t: real
      ensures InnerSide(fs, t) <==> InnerSide(es, t) && e.p * t < e.q
      ensures e.p < 0.0 ==> (e.p * t < e.q <==> t > e.q / e.p)
      ensures e.p > 0.0 ==> (e.p * t < e.q <==> t < e.q / e.p)
    {
      assert fs[|es|] == e;
      assert forall i :: 0 <= i < |es| ==> fs[i] == es[i];
      if InnerSide(es, t) && e.p * t < e.q {
        forall i | 0 <= i < |fs| ensures fs[i].p * t < fs[i].q {
          if i < |es| { assert fs[i] == es[i]; }
        }
      }
      if InnerSide(fs, t) {
        forall i | 0 <= i < |es| ensures es[i].p * t < es[i].q { assert fs[i] == es[i]; }
      }
      if e.p != 0.0 { DivideEdge(e.p, e.q, t); }
    }
  }

  /** Liang-Barsky clipping: true iff the segment a-b passes strictly through the box. */
  method LegHits(a: Point, b: Point, o: Box) returns (hit: bool)
    ensures hit <==> Crosses(a, b, o)
  {
    var es := Edges(a, b, o);
    var t0, t1 := 0.0, 1.0;
    for i := 0 to |es|
      invariant t0 < t1 && Clipped(es[..i], t0, t1)
    {
      var p, q := es[i].p, es[i].q;
      ClipStep(es[..i], es[i], t0, t1);
      assert es[..i] + [es[i]] == es[..i + 1];
      if p == 0.0 {
        if q <= 0.0 {
          NoneInside(a, b, o, i + 1);
          return false;
        }
      } else {
        var r := q / p;
        if p < 0.0 { t0 := Max(t0, r); } else { t1 := Min(t1, r); }
        if t0 >= t1 {
          NoneInside(a, b, o, i + 1);
          return false;
        }
      }
    }
    assert es[..|es|] == es;
    var mid := (t0 + t1) / 2.0;
    InsideIffInnerSide(a, b, o, mid);
    return true;
  }

  lemma InnerPrefix(es: seq<Edge>, n: nat, t: real)
    requires n <= |es| && InnerSide(es, t)
    ensures InnerSide(es[..n], t)
  {
  }

  lemma NoneInside(a: Point, b: Point, o: Box, n: nat)
    requires n <= 4
    requires forall t: real :: 0.0 <= t <= 1.0 ==> !InnerSide(Edges(a, b, o)[..n], t)
    ensures !Crosses(a, b, o)
  {
    hide Edges, StrictlyInside, At, InnerSide;
    var es := Edges(a, b, o);
    forall t: real | 0.0 <= t <= 1.0 ensures !StrictlyInside(At(a, b, t), o) {
      InsideIffInnerSide(a, b, o, t);
      if InnerSide(es, t) { InnerPrefix(es, n, t); }
    }
  }

  /** Boxes that may only come closer than `gap` to each other. */
  predicate Overlaps(a: Box, b: Box, gap: real) {
    a.x0 < b.x1 + gap && b.x0 < a.x1 + gap && a.y0 < b.y1 + gap && b.y0 < a.y1 + gap
  }

  predicate NonEmpty(o: Box) { o.x0 < o.x1 && o.y0 < o.y1 }

  /** Two boxes share an interior point exactly when neither is empty and they overlap without a gap. */
  lemma OverlapsIffSharedPoint(a: Box, b: Box)
    ensures (exists p: Point :: StrictlyInside(p, a) && StrictlyInside(p, b))
            <==> NonEmpty(a) && NonEmpty(b) && Overlaps(a, b, 0.0)
  {
    if NonEmpty(a) && NonEmpty(b) && Overlaps(a, b, 0.0) {
      var p := Point((Max(a.x0, b.x0) + Min(a.x1, b.x1)) / 2.0, (Max(a.y0, b.y0) + Min(a.y1, b.y1)) / 2.0);
      assert StrictlyInside(p, a) && StrictlyInside(p, b);
    }
  }
}
