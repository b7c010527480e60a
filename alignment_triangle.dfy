/**
 * The ternary plot of an alignment chart: weights to a point inside the
 * triangle (rendering), a pointer position back to weights (dragging), and
 * the drag flag that decides whether a pointer move is reported.
 */
module Triangle {
  import opened Wrappers
  import opened Types
  import opened JsMath

  datatype Point = Point(x: real, y: real)

  /** The triangle's corners: Top carries weight `a`, Right `b`, Left `c`. */
  datatype Vertices = Vertices(top: Point, right: Point, left: Point)

  /** The `detT` of the inverse map: twice the signed area of the triangle. */
  function Det(t: Vertices): real {
    (t.right.y - t.left.y) * (t.top.x - t.left.x) + (t.left.x - t.right.x) * (t.top.y - t.left.y)
  }

  /** The point with barycentric coordinates `(a, b, c)`. */
  function Combine(t: Vertices, a: real, b: real, c: real): Point {
    Point(a * t.top.x + b * t.right.x + c * t.left.x, a * t.top.y + b * t.right.y + c * t.left.y)
  }

  /** `values.a + values.b + values.c || 1`: the sum, or 1 when it is 0. */
  function WeightSum(w: Weights): (s: real)
    ensures s != 0.0
    ensures w.a + w.b + w.c != 0.0 ==> s == w.a + w.b + w.c
    ensures w.a + w.b + w.c == 0.0 ==> s == 1.0
  {
    if w.a + w.b + w.c == 0.0 then 1.0 else w.a + w.b + w.c
  }

  /** The weights divided by their sum. */
  function Normalize(w: Weights): (n: Weights)
    ensures w.a + w.b + w.c != 0.0 ==> n.a + n.b + n.c == 1.0
    ensures 0.0 < w.a + w.b + w.c && 0.0 <= w.a && 0.0 <= w.b && 0.0 <= w.c ==>
      0.0 <= n.a && 0.0 <= n.b && 0.0 <= n.c
  {
    var s := WeightSum(w);
    SumOfQuotients(w.a, w.b, w.c, s);
    Weights(w.a / s, w.b / s, w.c / s)
  }

  /** The forward map: where the marker for weights `w` is drawn. */
  function Forward(t: Vertices, w: Weights): (p: Point)
    ensures Det(t) != 0.0 && w.a + w.b + w.c != 0.0 ==> Coordinates(t, p) == Normalize(w)
    ensures w.a + w.b + w.c == 0.0 ==> p == Combine(t, w.a, w.b, w.c)
  {
    var n := Normalize(w);
    if Det(t) != 0.0 && w.a + w.b + w.c != 0.0 then
      CoordinatesOfCombine(t, n.a, n.b, n.c);
      Combine(t, n.a, n.b, n.c)
    else
      Combine(t, n.a, n.b, n.c)
  }

  /** The raw barycentric coordinates `(u, v, w)` of a pointer position, solved with `detT`. */
  function Coordinates(t: Vertices, p: Point): (r: Weights)
    requires Det(t) != 0.0
    ensures r.a + r.b + r.c == 1.0
  {
    var u := ((t.right.y - t.left.y) * (p.x - t.left.x) + (t.left.x - t.right.x) * (p.y - t.left.y)) / Det(t);
    var v := ((t.left.y - t.top.y) * (p.x - t.left.x) + (t.top.x - t.left.x) * (p.y - t.left.y)) / Det(t);
    Weights(u, v, 1.0 - u - v)
  }

  /** The clamped parts `max(0, u) + max(0, v) + max(0, w)`; at least 1, because `u + v + w == 1`. */
  function ClampedSum(r: Weights): (s: real)
    requires r.a + r.b + r.c == 1.0
    ensures s >= 1.0
  {
    Max(0.0, r.a) + Max(0.0, r.b) + Max(0.0, r.c)
  }

  /** The inverse map: the weights a pointer at `p` sets, clamped to be non-negative and rescaled to sum to 100. */
  function Inverse(t: Vertices, p: Point): (w: Weights)
    requires Det(t) != 0.0
    ensures WeightsValid(w)
  {
    var r := Coordinates(t, p);
    var s := ClampedSum(r);
    var na, nb, nc := Max(0.0, r.a), Max(0.0, r.b), Max(0.0, r.c);
    SumOfQuotients(na, nb, nc, s);
    Weights((na / s) * 100.0, (nb / s) * 100.0, (nc / s) * 100.0)
  }

  /** Dividing three parts by their sum gives parts that sum to 1, and scaling those by 100 gives 100. */
  lemma SumOfQuotients(a: real, b: real, c: real, s: real)
    requires s != 0.0
    ensures a + b + c == s ==> a / s + b / s + c / s == 1.0
    ensures a + b + c == s ==> (a / s) * 100.0 + (b / s) * 100.0 + (c / s) * 100.0 == 100.0
    ensures 0.0 < s && 0.0 <= a && 0.0 <= b && 0.0 <= c ==> 0.0 <= a / s && 0.0 <= b / s && 0.0 <= c / s
  {
    assert a / s + b / s + c / s == (a + b + c) / s;
  }

  // The two maps are inverse to each other.

  /** The solve recovers the coordinates of any affine combination of the corners. */
  lemma CoordinatesOfCombine(t: Vertices, a: real, b: real, c: real)
    requires Det(t) != 0.0 && a + b + c == 1.0
    ensures Coordinates(t, Combine(t, a, b, c)) == Weights(a, b, c)
  {
    var p := Combine(t, a, b, c);
    var tx, ty := t.top.x - t.left.x, t.top.y - t.left.y;
    var rx, ry := t.right.x - t.left.x, t.right.y - t.left.y;
    var px, py := p.x - t.left.x, p.y - t.left.y;
    assert px == a * tx + b * rx by {
      assert c == 1.0 - a - b;
    }
    assert py == a * ty + b * ry by {
      assert c == 1.0 - a - b;
    }
    var det := ry * tx - rx * ty;
    assert det == Det(t);
    Solve(tx, ty, rx, ry, a, b, px, py, det);
  }

  /** Cramer's rule for `P = a·T + b·R`, relative to the left corner. */
  lemma Solve(tx: real, ty: real, rx: real, ry: real, a: real, b: real, px: real, py: real, det: real)
    requires det == ry * tx - rx * ty && det != 0.0
    requires px == a * tx + b * rx && py == a * ty + b * ry
    ensures (ry * px + (-rx) * py) / det == a
    ensures ((-ty) * px + tx * py) / det == b
  {
    assert ry * px + (-rx) * py == a * det;
    assert (-ty) * px + tx * py == b * det;
  }

  /** A pointer with non-negative coordinates (inside the triangle or on its edges) gets exactly `100` times them. */
  lemma InverseInside(t: Vertices, p: Point)
    requires Det(t) != 0.0
    requires 0.0 <= Coordinates(t, p).a && 0.0 <= Coordinates(t, p).b && 0.0 <= Coordinates(t, p).c
    ensures Inverse(t, p) == Weights(100.0 * Coordinates(t, p).a, 100.0 * Coordinates(t, p).b, 100.0 * Coordinates(t, p).c)
  {
  }

  /** Inside the triangle, the weights of a point given by its coordinates are `100` times those coordinates. */
  lemma InverseOfCombine(t: Vertices, a: real, b: real, c: real)
    requires Det(t) != 0.0 && a + b + c == 1.0 && 0.0 <= a && 0.0 <= b && 0.0 <= c
    ensures Inverse(t, Combine(t, a, b, c)) == Weights(100.0 * a, 100.0 * b, 100.0 * c)
  {
    CoordinatesOfCombine(t, a, b, c);
    InverseInside(t, Combine(t, a, b, c));
  }

  /** Clicking the top corner puts all the weight on `a`. */
  lemma InverseAtTop(t: Vertices)
    requires Det(t) != 0.0
    ensures Inverse(t, t.top) == Weights(100.0, 0.0, 0.0)
  {
    InverseOfCombine(t, 1.0, 0.0, 0.0);
    assert Combine(t, 1.0, 0.0, 0.0) == t.top;
  }

  /** Clicking the right corner puts all the weight on `b`. */
  lemma InverseAtRight(t: Vertices)
    requires Det(t) != 0.0
    ensures Inverse(t, t.right) == Weights(0.0, 100.0, 0.0)
  {
    InverseOfCombine(t, 0.0, 1.0, 0.0);
    assert Combine(t, 0.0, 1.0, 0.0) == t.right;
  }

  /** Clicking the left corner puts all the weight on `c`. */
  lemma InverseAtLeft(t: Vertices)
    requires Det(t) != 0.0
    ensures Inverse(t, t.left) == Weights(0.0, 0.0, 100.0)
  {
    InverseOfCombine(t, 0.0, 0.0, 1.0);
    assert Combine(t, 0.0, 0.0, 1.0) == t.left;
  }

  /** Clicking the centroid splits the weight evenly. */
  lemma InverseAtCentroid(t: Vertices)
    requires Det(t) != 0.0
    ensures Inverse(t, Combine(t, 1.0 / 3.0, 1.0 / 3.0, 1.0 / 3.0)) == Weights(100.0 / 3.0, 100.0 / 3.0, 100.0 / 3.0)
  {
    InverseOfCombine(t, 1.0 / 3.0, 1.0 / 3.0, 1.0 / 3.0);
  }

  /** Non-negative weights with a positive sum come back from a render and a click rescaled to sum to 100. */
  lemma RoundTrip(t: Vertices, w: Weights)
    requires Det(t) != 0.0
    requires 0.0 <= w.a && 0.0 <= w.b && 0.0 <= w.c && 0.0 < w.a + w.b + w.c
    ensures Inverse(t, Forward(t, w)) == Weights(100.0 * Normalize(w).a, 100.0 * Normalize(w).b, 100.0 * Normalize(w).c)
  {
    var n := Normalize(w);
    InverseOfCombine(t, n.a, n.b, n.c);
  }

  /** Weights a drag produced survive a render and a click unchanged. */
  lemma DragRoundTrip(t: Vertices, w: Weights)
    requires Det(t) != 0.0 && WeightsValid(w)
    ensures Inverse(t, Forward(t, w)) == w
  {
    RoundTrip(t, w);
    var n := Normalize(w);
    assert n == Weights(w.a / 100.0, w.b / 100.0, w.c / 100.0);
  }

  /** Rendering the weights of a click draws the marker back under the pointer, when the pointer is inside. */
  lemma ForwardOfInverse(t: Vertices, p: Point)
    requires Det(t) != 0.0
    requires 0.0 <= Coordinates(t, p).a && 0.0 <= Coordinates(t, p).b && 0.0 <= Coordinates(t, p).c
    ensures Coordinates(t, Forward(t, Inverse(t, p))) == Coordinates(t, p)
  {
    var r := Coordinates(t, p);
    InverseInside(t, p);
    var n := Normalize(Inverse(t, p));
    assert n == r;
    CoordinatesOfCombine(t, r.a, r.b, r.c);
  }

  /** The drag flag of one triangle. */
  class TriangleDrag {
    const readonly: bool
    var isDragging: bool

    constructor(readonly: bool)
      ensures this.readonly == readonly && !isDragging
    {
      this.readonly := readonly;
      isDragging := false;
    }

    /** `handlePointerDown`: start dragging unless readonly. */
    method PointerDown()
      modifies this
      ensures isDragging == (old(isDragging) || !readonly)
    {
      if readonly {
        return;
      }
      isDragging := true;
    }

    /**
     * `handlePointerMove` with the pointer at `p` in the drawing's
     * coordinates, or `None` when the drawing has no bounding box: reports the
     * weights under the pointer while dragging a writable chart.
     */
    method PointerMove(t: Vertices, p: Option<Point>) returns (emitted: Option<Weights>)
      requires Det(t) != 0.0
      ensures emitted.Some? <==> isDragging && !readonly && p.Some?
      ensures emitted.Some? ==> emitted.value == Inverse(t, p.value) && WeightsValid(emitted.value)
    {
      if !isDragging || readonly {
        return None;
      }
      if p.None? {
        return None;
      }
      return Some(Inverse(t, p.value));
    }

    /** `handlePointerUp`: stop dragging. */
    method PointerUp()
      modifies this
      ensures !isDragging
    {
      isDragging := false;
    }
  }
}
