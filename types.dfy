/**
 * The chart records of the editor: radar stats, radar and alignment charts,
 * and the two-variant union of them that the store keeps.
 */
module Types {
  import opened Wrappers
  import Arrays

  /** The discriminating tag of a chart, `'radar' | 'alignment'`. */
  datatype ChartType = Radar | Alignment

  /** One axis of a radar chart (`caption` is the source's `label`, a reserved word here); `value` is meant to lie in `0..fullMark`. */
  datatype RadarStat = RadarStat(id: string, caption: string, value: real, fullMark: real, notes: Option<string>)

  /** The Top, Right and Left labels of an alignment chart. */
  type Labels = s: seq<string> | |s| == 3 witness ["", "", ""]

  /** The alignment weights for Top (`a`), Right (`b`) and Left (`c`). */
  datatype Weights = Weights(a: real, b: real, c: real)

  /**
   * A chart: the shared envelope (id, name, description, creation time in
   * milliseconds) and the payload of its kind.
   */
  datatype StatChart =
    | RadarChart(id: string, name: string, description: string, createdAt: int,
                 data: seq<RadarStat>, color: string)
    | AlignmentChart(id: string, name: string, description: string, createdAt: int,
                     labels: Labels, values: Weights)
  {
    function Kind(): ChartType {
      if RadarChart? then Radar else Alignment
    }
  }

  /** Every stat's value lies between 0 and its own fullMark. */
  predicate InBounds(data: seq<RadarStat>) {
    forall i :: 0 <= i < |data| ==> 0.0 <= data[i].value <= data[i].fullMark
  }

  /** Every stat of the chart uses the same maximum scale `m`. */
  predicate SharedMax(data: seq<RadarStat>, m: real) {
    forall i :: 0 <= i < |data| ==> data[i].fullMark == m
  }

  // The keys the uniqueness predicates compare by.

  const StatIdOf: RadarStat -> string := (d: RadarStat) => d.id

  const ChartIdOf: StatChart -> string := (c: StatChart) => c.id

  const IdentityOf: string -> string := (x: string) => x

  /** No id occurs twice in the list. */
  predicate DistinctIds(ids: seq<string>) {
    Arrays.UniqueBy(ids, IdentityOf)
  }

  /** No two stats of a chart share an id. */
  predicate UniqueStatIds(data: seq<RadarStat>) {
    Arrays.UniqueBy(data, StatIdOf)
  }

  /** No two charts of the collection share an id. */
  predicate UniqueChartIds(charts: seq<StatChart>) {
    Arrays.UniqueBy(charts, ChartIdOf)
  }

  /** Alignment weights are non-negative and sum to 100. */
  predicate WeightsValid(w: Weights) {
    0.0 <= w.a && 0.0 <= w.b && 0.0 <= w.c && w.a + w.b + w.c == 100.0
  }
}
