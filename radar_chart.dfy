/**
 * The radar chart component's logic: the scale it draws with, the grid
 * levels, the value a drag along an axis produces, and the drag state.
 * The pointer's projection onto the axis is an input; the trigonometry that
 * computes it is not modelled.
 */
module Radar {
  import opened Wrappers
  import opened Types
  import Arrays
  import opened JsMath

  /** `data[0]?.fullMark || 100`: the chart's scale, never zero. */
  function MaxValue(data: seq<RadarStat>): (m: real)
    ensures m != 0.0
    ensures |data| == 0 ==> m == 100.0
    ensures |data| > 0 && data[0].fullMark == 0.0 ==> m == 100.0
    ensures |data| > 0 && data[0].fullMark != 0.0 ==> m == data[0].fullMark
    ensures forall f :: |data| > 0 && SharedMax(data, f) && f != 0.0 ==> m == f
  {
    if |data| == 0 || data[0].fullMark == 0.0 then 100.0 else data[0].fullMark
  }

  /** How many grid rings `calculateLevels` draws for a scale of `max`. */
  function NumLevels(max: real): (n: real)
    ensures max <= 10.0 ==> n == max
    ensures 10.0 < max <= 20.0 ==> n == max / 2.0
    ensures 20.0 < max ==> n == 5.0
  {
    if max <= 10.0 then max
    else if max <= 20.0 then max / 2.0
    else if max <= 50.0 then 5.0
    else if max <= 100.0 then 5.0
    else 5.0
  }

  /** The two branches for `max` in (20, 100] pick the same count as the last one. */
  lemma NumLevelsRule(max: real)
    ensures NumLevels(max) == if max <= 10.0 then max else if max <= 20.0 then max / 2.0 else 5.0
  {
  }

  function Ceil(x: real): int {
    -((-x).Floor)
  }

  /** How often a loop from `n` down by 1 while positive runs. */
  function LevelCount(n: real): nat {
    if n <= 0.0 then 0 else
      assert (-n).Floor < 0;
      Ceil(n)
  }

  /** The `k`-th ring from the outside, drawn at `(n - k) / n` of the radius. */
  function Level(n: real, k: nat): real
    requires n != 0.0
  {
    (n - k as real) / n
  }

  lemma DivLess(a: real, b: real, n: real)
    requires n > 0.0 && a < b
    ensures a / n < b / n
  {
    assert b / n - a / n == (b - a) / n;
  }

  lemma LevelBounds(n: real, k: nat)
    requires 0.0 < n - k as real
    ensures 0.0 < Level(n, k) <= 1.0
  {
    assert Level(n, k) <= n / n;
  }

  lemma LevelDecreasing(n: real, j: nat, k: nat)
    requires n > 0.0 && j < k
    ensures Level(n, k) < Level(n, j)
  {
    DivLess(n - k as real, n - j as real, n);
  }

  lemma LevelCountExact(n: real, count: nat)
    requires 0.0 < n <= count as real < n + 1.0
    ensures LevelCount(n) == count
  {
    assert (-n).Floor == -(count as int);
  }

  /**
   * `calculateLevels(max)`: the ring radii as fractions of the full radius,
   * `i / numLevels` for `i = numLevels, numLevels - 1, ...` while `i > 0`.
   */
  method CalculateLevels(max: real) returns (levels: seq<real>)
    ensures |levels| == LevelCount(NumLevels(max))
    ensures |levels| > 0 ==> NumLevels(max) > 0.0
    ensures forall k :: 0 <= k < |levels| ==> levels[k] == Level(NumLevels(max), k)
    ensures |levels| > 0 ==> levels[0] == 1.0
    ensures forall k :: 0 <= k < |levels| ==> 0.0 < levels[k] <= 1.0
    ensures forall j, k :: 0 <= j < k < |levels| ==> levels[k] < levels[j]
    ensures 1.0 <= max <= 10.0 && max == max.Floor as real ==> |levels| == max.Floor
    ensures max > 20.0 ==> |levels| == 5
    ensures max <= 0.0 ==> levels == []
  {
    var numLevels := NumLevels(max);
    levels := [];
    var i := numLevels;
    while i > 0.0
      invariant i == numLevels - |levels| as real
      invariant |levels| > 0 ==> 0.0 < numLevels - (|levels| - 1) as real
      invariant forall k :: 0 <= k < |levels| ==> levels[k] == Level(numLevels, k)
      decreases i.Floor
    {
      levels := levels + [i / numLevels];
      i := i - 1.0;
    }
    LevelsShape(numLevels, levels);
    LevelCountCases(max);
  }

  /** What the loop of `calculateLevels` leaves, read as a list of rings. */
  lemma LevelsShape(n: real, levels: seq<real>)
    requires n - |levels| as real <= 0.0
    requires |levels| > 0 ==> 0.0 < n - (|levels| - 1) as real
    requires forall k :: 0 <= k < |levels| ==> levels[k] == Level(n, k)
    ensures |levels| == LevelCount(n)
    ensures |levels| > 0 ==> levels[0] == 1.0
    ensures forall k :: 0 <= k < |levels| ==> 0.0 < levels[k] <= 1.0
    ensures forall j, k :: 0 <= j < k < |levels| ==> levels[k] < levels[j]
  {
    if |levels| > 0 {
      LevelCountExact(n, |levels|);
      assert levels[0] == (n - 0.0) / n;
    }
    forall k | 0 <= k < |levels| ensures 0.0 < levels[k] <= 1.0 {
      LevelBounds(n, k);
    }
    forall j, k | 0 <= j < k < |levels| ensures levels[k] < levels[j] {
      LevelDecreasing(n, j, k);
    }
  }

  /** An integer scale from 1 to 10 has one ring per unit, a scale above 20 has five. */
  lemma LevelCountCases(max: real)
    ensures 1.0 <= max <= 10.0 && max == max.Floor as real ==> LevelCount(NumLevels(max)) == max.Floor
    ensures max > 20.0 ==> LevelCount(NumLevels(max)) == 5
    ensures max <= 0.0 ==> LevelCount(NumLevels(max)) == 0
  {
    if 1.0 <= max <= 10.0 && max == max.Floor as real {
      LevelCountExact(max, max.Floor);
    }
    if max > 20.0 {
      LevelCountExact(5.0, 5);
    }
  }

  /** `Math.round`: the nearest integer, halves rounded up. */
  function Round(x: real): int {
    (x + 0.5).Floor
  }

  /** `Math.max(lo, Math.min(x, hi))`. */
  function Clamp(x: real, lo: real, hi: real): real {
    Max(lo, Min(x, hi))
  }

  /**
   * The value a drag produces: the pointer's projection on the axis as a
   * fraction of the radius, scaled to `fullMark`, clamped to `[0, fullMark]`
   * and rounded.
   */
  function DragValue(projection: real, radius: real, fullMark: real): (v: int)
    requires radius != 0.0
    ensures 0.0 <= fullMark && fullMark == fullMark.Floor as real ==> 0 <= v <= fullMark.Floor
    ensures radius > 0.0 && projection <= 0.0 && 0.0 <= fullMark ==> v == 0
    ensures radius > 0.0 && projection >= radius && 0.0 <= fullMark && fullMark == fullMark.Floor as real ==> v == fullMark.Floor
  {
    Round(Clamp((projection / radius) * fullMark, 0.0, fullMark))
  }

  /** Dragging further out along the axis never lowers the value. */
  lemma DragValueMonotone(p1: real, p2: real, radius: real, fullMark: real)
    requires radius > 0.0 && 0.0 <= fullMark && p1 <= p2
    ensures DragValue(p1, radius, fullMark) <= DragValue(p2, radius, fullMark)
  {
    DivMonotone(p1, p2, radius);
    MulMonotone(p1 / radius, p2 / radius, fullMark);
    RoundClampMonotone((p1 / radius) * fullMark, (p2 / radius) * fullMark, fullMark);
  }

  lemma DivMonotone(a: real, b: real, n: real)
    requires n > 0.0 && a <= b
    ensures a / n <= b / n
  {
    if a < b {
      DivLess(a, b, n);
    }
  }

  lemma RoundClampMonotone(x: real, y: real, hi: real)
    requires x <= y && 0.0 <= hi
    ensures Round(Clamp(x, 0.0, hi)) <= Round(Clamp(y, 0.0, hi))
  {
    ClampMonotone(x, y, 0.0, hi);
    FloorMonotone(Clamp(x, 0.0, hi) + 0.5, Clamp(y, 0.0, hi) + 0.5);
  }

  lemma ClampMonotone(x: real, y: real, lo: real, hi: real)
    requires x <= y && lo <= hi
    ensures Clamp(x, lo, hi) <= Clamp(y, lo, hi)
  {
  }

  lemma MulMonotone(a: real, b: real, m: real)
    requires a <= b && 0.0 <= m
    ensures a * m <= b * m
  {
    assert b * m - a * m == (b - a) * m;
  }

  lemma FloorMonotone(x: real, y: real)
    requires x <= y
    ensures x.Floor <= y.Floor
  {
    assert x.Floor as real <= x;
    assert y < y.Floor as real + 1.0;
  }

  /**
   * A stat drawn at distance `(value / fullMark) * radius` along its axis and
   * dragged from exactly there keeps its value, for an integer value within the scale.
   */
  lemma DragValueRoundTrip(value: int, radius: real, fullMark: real)
    requires radius > 0.0 && fullMark > 0.0 && 0 <= value && value as real <= fullMark
    ensures DragValue(((value as real) / fullMark) * radius, radius, fullMark) == value
  {
    var v := value as real;
    var projection := (v / fullMark) * radius;
    assert projection / radius == v / fullMark;
    assert (v / fullMark) * fullMark == v;
    DragValueOf(projection, radius, fullMark, v);
    assert v.Floor == value;
    assert DragValue(projection, radius, fullMark) == value;
    var p2 := ((value as real) / fullMark) * radius;
    assert p2 == projection;
    assert DragValue(p2, radius, fullMark) == value;
  }

  lemma DragValueOf(projection: real, radius: real, fullMark: real, scaled: real)
    requires radius != 0.0 && (projection / radius) * fullMark == scaled
    requires 0.0 <= scaled <= fullMark && scaled == scaled.Floor as real
    ensures DragValue(projection, radius, fullMark) == scaled.Floor
  {
  }

  /** A drag that reports `value` for the stat `id`. */
  datatype ValueChange = ValueChange(id: string, value: int)

  /** `!draggingId` is false for both `null` and the empty string. */
  predicate Dragging(draggingId: Option<string>) {
    draggingId.Some? && draggingId.value != ""
  }

  function StatHasId(id: string): RadarStat -> bool {
    (d: RadarStat) => d.id == id
  }

  /** The drag state of one radar chart: idle (`None`) or dragging a stat's handle. */
  class RadarDrag {
    const readonly: bool
    var draggingId: Option<string>

    constructor (readonly: bool)
      ensures this.readonly == readonly && draggingId == None
    {
      this.readonly := readonly;
      draggingId := None;
    }

    /** `handlePointerDown(id)`: starts dragging that stat unless the chart is read-only. */
    method PointerDown(id: string)
      modifies this
      ensures draggingId == if readonly then old(draggingId) else Some(id)
    {
      if !readonly {
        draggingId := Some(id);
      }
    }

    /** `handlePointerUp()`: back to idle. */
    method PointerUp()
      modifies this
      ensures draggingId == None
    {
      draggingId := None;
    }

    /**
     * `handlePointerMove`: the value change it reports for the dragged stat,
     * given the pointer's projection on that stat's axis (`None` when the
     * drawing has no bounding box), or nothing.
     */
    method PointerMove(data: seq<RadarStat>, projection: Option<real>, radius: real) returns (emitted: Option<ValueChange>)
      requires radius != 0.0
      ensures emitted.Some? <==>
        Dragging(draggingId) && !readonly && projection.Some? &&
        exists j :: 0 <= j < |data| && data[j].id == draggingId.value
      ensures emitted.Some? ==> emitted.value.id == draggingId.value
      ensures emitted.Some? ==>
        exists k :: 0 <= k < |data| && data[k].id == emitted.value.id &&
          (forall j :: 0 <= j < k ==> data[j].id != emitted.value.id) &&
          emitted.value.value == DragValue(projection.value, radius, data[k].fullMark)
    {
      if !Dragging(draggingId) || readonly {
        return None;
      }
      var index := Arrays.FindIndex(data, StatHasId(draggingId.value));
      if index == -1 {
        return None;
      }
      if projection.None? {
        return None;
      }
      emitted := Some(ValueChange(draggingId.value, DragValue(projection.value, radius, data[index].fullMark)));
    }
  }
}
