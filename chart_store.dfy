/**
 * The chart collection store: an ordered list of charts and a nullable
 * pointer to the active one, changed only through add, update-by-id,
 * delete-by-id and set-active. Fresh ids and the clock are parameters.
 */
module Store {
  import opened Wrappers
  import opened Types
  import Arrays

  const RadarDefaultCaptions: seq<string> := ["Strength", "Agility", "Intelligence", "Charisma", "Wisdom"]
  const RadarDefaultColor: string := "#4a3461"
  const AlignmentDefaultLabels: Labels := ["Mind", "Body", "Soul"]

  /** The radar chart `addChart('radar')` creates, with the given ids and timestamp. */
  function NewRadarChart(id: string, statIds: seq<string>, now: int): (c: StatChart)
    requires |statIds| == 5
    ensures c.RadarChart? && c.id == id && c.createdAt == now
    ensures |c.data| == 5
    ensures forall i :: 0 <= i < 5 ==>
      c.data[i].id == statIds[i] && c.data[i].caption == RadarDefaultCaptions[i] &&
      c.data[i].value == 50.0 && c.data[i].notes.None?
    ensures InBounds(c.data) && SharedMax(c.data, 100.0)
    ensures DistinctIds(statIds) ==> UniqueStatIds(c.data)
  {
    RadarChart(id, "New Radar Chart", "A new statistic chart", now,
      seq(5, i requires 0 <= i < 5 => RadarStat(statIds[i], RadarDefaultCaptions[i], 50.0, 100.0, None)),
      RadarDefaultColor)
  }

  /** The alignment chart `addChart('alignment')` creates. */
  function NewAlignmentChart(id: string, now: int): (c: StatChart)
    ensures c.AlignmentChart? && c.id == id && c.createdAt == now
    ensures c.labels == ["Mind", "Body", "Soul"]
    ensures c.values == Weights(33.0, 33.0, 34.0) && WeightsValid(c.values)
  {
    AlignmentChart(id, "New Alignment", "Three-point alignment", now,
      AlignmentDefaultLabels, Weights(33.0, 33.0, 34.0))
  }

  function NewChart(kind: ChartType, id: string, statIds: seq<string>, now: int): (c: StatChart)
    requires kind == Radar ==> |statIds| == 5
    ensures c.Kind() == kind && c.id == id
  {
    if kind == Radar then NewRadarChart(id, statIds, now) else NewAlignmentChart(id, now)
  }

  /**
   * The fields an update may carry (`Partial<StatChart>`); an absent field is
   * `None`. The `type` tag is not among them.
   */
  datatype Patch = Patch(
    id: Option<string>, name: Option<string>, description: Option<string>, createdAt: Option<int>,
    data: Option<seq<RadarStat>>, color: Option<string>,
    labels: Option<Labels>, values: Option<Weights>)

  const NoChange: Patch := Patch(None, None, None, None, None, None, None, None)

  /** `after` is the patch's value for the field when it carries one, `before` otherwise. */
  predicate Overwrites<T(==)>(after: T, before: T, field: Option<T>) {
    if field.Some? then after == field.value else after == before
  }

  /** `{ ...chart, ...updates }` on the chart's own fields. */
  function Merge(c: StatChart, p: Patch): (r: StatChart)
    ensures r.Kind() == c.Kind()
    ensures Overwrites(r.id, c.id, p.id) && Overwrites(r.name, c.name, p.name)
    ensures Overwrites(r.description, c.description, p.description)
    ensures Overwrites(r.createdAt, c.createdAt, p.createdAt)
    ensures c.RadarChart? ==> r.RadarChart? && Overwrites(r.data, c.data, p.data) && Overwrites(r.color, c.color, p.color)
    ensures c.AlignmentChart? ==> r.AlignmentChart? && Overwrites(r.labels, c.labels, p.labels) && Overwrites(r.values, c.values, p.values)
  {
    match c
    case RadarChart(id, name, description, createdAt, data, color) =>
      RadarChart(p.id.GetOr(id), p.name.GetOr(name), p.description.GetOr(description),
        p.createdAt.GetOr(createdAt), p.data.GetOr(data), p.color.GetOr(color))
    case AlignmentChart(id, name, description, createdAt, labels, values) =>
      AlignmentChart(p.id.GetOr(id), p.name.GetOr(name), p.description.GetOr(description),
        p.createdAt.GetOr(createdAt), p.labels.GetOr(labels), p.values.GetOr(values))
  }

  function Later<T>(first: Option<T>, second: Option<T>): Option<T> {
    if second.Some? then second else first
  }

  /** `{ ...p, ...q }`: the fields of `q` win over those of `p`. */
  function Then(p: Patch, q: Patch): Patch {
    Patch(Later(p.id, q.id), Later(p.name, q.name), Later(p.description, q.description),
      Later(p.createdAt, q.createdAt), Later(p.data, q.data), Later(p.color, q.color),
      Later(p.labels, q.labels), Later(p.values, q.values))
  }

  /** An empty update changes nothing. */
  lemma MergeNoChange(c: StatChart)
    ensures Merge(c, NoChange) == c
  {
  }

  /** Two successive spreads are one spread of the combined update. */
  lemma MergeThen(c: StatChart, p: Patch, q: Patch)
    ensures Merge(Merge(c, p), q) == Merge(c, Then(p, q))
  {
  }

  function ChartHasId(id: string): StatChart -> bool {
    (c: StatChart) => c.id == id
  }

  function ChartLacksId(id: string): StatChart -> bool {
    (c: StatChart) => c.id != id
  }

  function MergeIfId(id: string, p: Patch): StatChart -> StatChart {
    (c: StatChart) => if c.id == id then Merge(c, p) else c
  }

  /** The list `updateChart(id, p)` leaves: every chart with that id merged with `p`. */
  function UpdateCharts(charts: seq<StatChart>, id: string, p: Patch): (r: seq<StatChart>)
    ensures |r| == |charts|
    ensures forall i :: 0 <= i < |charts| && charts[i].id != id ==> r[i] == charts[i]
    ensures forall i :: 0 <= i < |charts| && charts[i].id == id ==> r[i] == Merge(charts[i], p)
  {
    Arrays.Map(charts, MergeIfId(id, p))
  }

  /** The list `deleteChart(id)` leaves: the charts with another id, in order. */
  function DeleteCharts(charts: seq<StatChart>, id: string): (r: seq<StatChart>)
    ensures |r| <= |charts|
    ensures forall i :: 0 <= i < |r| ==> r[i].id != id
  {
    Arrays.Filter(charts, ChartLacksId(id))
  }

  /** `charts.find(c => c.id === id)`. */
  function FindById(charts: seq<StatChart>, id: string): (r: Option<StatChart>)
    ensures r.None? <==> forall j :: 0 <= j < |charts| ==> charts[j].id != id
    ensures r.Some? ==> r.value.id == id
    ensures r.Some? ==>
              exists k :: 0 <= k < |charts| && charts[k] == r.value && forall j :: 0 <= j < k ==> charts[j].id != id
  {
    Arrays.Find(charts, ChartHasId(id))
  }

  /** What `getActiveChart()` returns for a collection and an active pointer. */
  function ActiveChart(charts: seq<StatChart>, active: Option<string>): (r: Option<StatChart>)
    ensures active.None? ==> r.None?
    ensures r.Some? ==> active == Some(r.value.id) && r.value in charts
    ensures active.Some? && (exists j :: 0 <= j < |charts| && charts[j].id == active.value) ==> r.Some?
  {
    match active
    case None => None
    case Some(id) => FindById(charts, id)
  }

  predicate IdUnused(charts: seq<StatChart>, id: string) {
    forall j :: 0 <= j < |charts| ==> charts[j].id != id
  }

  /** An update whose id matches no chart leaves the list as it was. */
  lemma UpdateNoMatch(charts: seq<StatChart>, id: string, p: Patch)
    requires IdUnused(charts, id)
    ensures UpdateCharts(charts, id, p) == charts
  {
  }

  /** An update that does not re-key the chart keeps the ids unique. */
  lemma UpdateKeepsUniqueIds(charts: seq<StatChart>, id: string, p: Patch)
    requires UniqueChartIds(charts)
    requires p.id.None? || p.id == Some(id)
    ensures UniqueChartIds(UpdateCharts(charts, id, p))
  {
    var r := UpdateCharts(charts, id, p);
    assert forall i :: 0 <= i < |r| ==> r[i].id == charts[i].id;
  }

  /** A chart survives deletion exactly when it was there under another id. */
  lemma DeleteMembership(charts: seq<StatChart>, id: string, c: StatChart)
    ensures c in DeleteCharts(charts, id) <==> c in charts && c.id != id
  {
    Arrays.FilterMembership(charts, ChartLacksId(id), c);
  }

  /** Deletion works piecewise, so the surviving charts keep their order. */
  lemma DeleteAppend(a: seq<StatChart>, b: seq<StatChart>, id: string)
    ensures DeleteCharts(a + b, id) == DeleteCharts(a, id) + DeleteCharts(b, id)
  {
    Arrays.FilterAppend(a, b, ChartLacksId(id));
  }

  /** Deleting an id no chart has changes nothing. */
  lemma DeleteNoMatch(charts: seq<StatChart>, id: string)
    requires IdUnused(charts, id)
    ensures DeleteCharts(charts, id) == charts
  {
    Arrays.FilterKeepsAll(charts, ChartLacksId(id));
  }

  /** With unique ids, deleting the id of the chart at `k` removes that chart alone. */
  lemma DeleteUnique(charts: seq<StatChart>, k: nat)
    requires UniqueChartIds(charts) && k < |charts|
    ensures DeleteCharts(charts, charts[k].id) == charts[..k] + charts[k + 1..]
    ensures |DeleteCharts(charts, charts[k].id)| == |charts| - 1
  {
    var keep := ChartLacksId(charts[k].id);
    forall i | 0 <= i < |charts| && i != k ensures keep(charts[i]) {
      if i < k {
        assert ChartIdOf(charts[i]) != ChartIdOf(charts[k]);
      } else {
        assert ChartIdOf(charts[k]) != ChartIdOf(charts[i]);
      }
    }
    Arrays.FilterDropsOne(charts, keep, k);
  }

  /** Deletion keeps the ids unique. */
  lemma DeleteKeepsUniqueIds(charts: seq<StatChart>, id: string)
    requires UniqueChartIds(charts)
    ensures UniqueChartIds(DeleteCharts(charts, id))
  {
    Arrays.FilterUniqueBy(charts, ChartLacksId(id), ChartIdOf);
  }

  /** Appending a chart under a fresh id keeps the ids unique. */
  lemma AddKeepsUniqueIds(charts: seq<StatChart>, c: StatChart)
    requires UniqueChartIds(charts) && IdUnused(charts, c.id)
    ensures UniqueChartIds(charts + [c])
  {
    var r := charts + [c];
    forall i, j | 0 <= i < j < |r| ensures ChartIdOf(r[i]) != ChartIdOf(r[j]) {
      if j < |charts| {
        assert ChartIdOf(charts[i]) != ChartIdOf(charts[j]);
      }
    }
  }

  /** After appending a chart under a fresh id and pointing at it, it is the active chart. */
  lemma {:induction false} ActiveAfterAdd(charts: seq<StatChart>, c: StatChart)
    requires IdUnused(charts, c.id)
    ensures ActiveChart(charts + [c], Some(c.id)) == Some(c)
  {
    var all := charts + [c];
    assert all[|charts|] == c;
    var r := FindById(all, c.id);
    var k :| 0 <= k < |all| && all[k] == r.value && forall j :: 0 <= j < k ==> all[j].id != c.id;
    assert k == |charts|;
  }

  /** Adding a chart and deleting it again restores the collection. */
  lemma AddThenDelete(charts: seq<StatChart>, c: StatChart)
    requires IdUnused(charts, c.id)
    ensures DeleteCharts(charts + [c], c.id) == charts
  {
    DeleteAppend(charts, [c], c.id);
    DeleteNoMatch(charts, c.id);
    assert DeleteCharts([c], c.id) == [];
  }

  /** The store: the chart collection and the active-chart pointer. */
  class ChartStore {
    var charts: seq<StatChart>
    var activeChartId: Option<string>

    constructor ()
      ensures charts == [] && activeChartId == None
    {
      charts := [];
      activeChartId := None;
    }

    /**
     * `addChart(kind)`: appends a new chart with the default contents and makes
     * it active. `chartId` and `statIds` stand for the generated uuids, which are
     * fresh; `now` stands for `Date.now()`.
     */
    method AddChart(kind: ChartType, chartId: string, statIds: seq<string>, now: int)
      requires kind == Radar ==> |statIds| == 5
      requires IdUnused(charts, chartId)
      modifies this
      ensures charts == old(charts) + [NewChart(kind, chartId, statIds, now)]
      ensures activeChartId == Some(chartId)
      ensures ActiveChart(charts, activeChartId) == Some(NewChart(kind, chartId, statIds, now))
      ensures UniqueChartIds(old(charts)) ==> UniqueChartIds(charts)
    {
      var newChart := NewChart(kind, chartId, statIds, now);
      ActiveAfterAdd(charts, newChart);
      if UniqueChartIds(charts) {
        AddKeepsUniqueIds(charts, newChart);
      }
      charts := charts + [newChart];
      activeChartId := Some(newChart.id);
    }

    /** `updateChart(id, updates)`: merges `updates` into every chart with that id. */
    method UpdateChart(id: string, updates: Patch)
      modifies this
      ensures charts == UpdateCharts(old(charts), id, updates)
      ensures activeChartId == old(activeChartId)
      ensures UniqueChartIds(old(charts)) && (updates.id.None? || updates.id == Some(id)) ==> UniqueChartIds(charts)
    {
      if UniqueChartIds(charts) && (updates.id.None? || updates.id == Some(id)) {
        UpdateKeepsUniqueIds(charts, id, updates);
      }
      charts := UpdateCharts(charts, id, updates);
    }

    /** `deleteChart(id)`: drops the charts with that id and clears the pointer if it was theirs. */
    method DeleteChart(id: string)
      modifies this
      ensures charts == DeleteCharts(old(charts), id)
      ensures activeChartId == if old(activeChartId) == Some(id) then None else old(activeChartId)
      ensures UniqueChartIds(old(charts)) ==> UniqueChartIds(charts)
    {
      if UniqueChartIds(charts) {
        DeleteKeepsUniqueIds(charts, id);
      }
      charts := DeleteCharts(charts, id);
      if activeChartId == Some(id) {
        activeChartId := None;
      }
    }

    /** `setActiveChart(id)`: moves the pointer without checking that the id exists. */
    method SetActiveChart(id: Option<string>)
      modifies this
      ensures activeChartId == id && charts == old(charts)
    {
      activeChartId := id;
    }

    /** `getActiveChart()`: the first chart whose id is the active one, if any. */
    method GetActiveChart() returns (r: Option<StatChart>)
      ensures r == ActiveChart(charts, activeChartId)
      ensures r.Some? ==> r.value in charts && activeChartId == Some(r.value.id)
    {
      r := ActiveChart(charts, activeChartId);
    }
  }
}
