/**
 * The chart editor's handlers. Each builds a new stat list, label triple or
 * weight triple from the active chart and hands it to the store's
 * `updateChart` as a patch; a handler that does nothing returns `None`.
 * The comparison overlay list and its lookup live here too.
 */
module Editor {
  import opened Wrappers
  import opened Types
  import Arrays
  import Store
  import Radar
  import opened JsMath

  // The callbacks handed to `map` and `filter`.

  function WithValue(id: string, v: real): RadarStat -> RadarStat {
    (d: RadarStat) => if d.id == id then d.(value := v) else d
  }

  function WithCaption(id: string, caption: string): RadarStat -> RadarStat {
    (d: RadarStat) => if d.id == id then d.(caption := caption) else d
  }

  function WithNotes(id: string, notes: string): RadarStat -> RadarStat {
    (d: RadarStat) => if d.id == id then d.(notes := Some(notes)) else d
  }

  function Rescaled(val: real): RadarStat -> RadarStat {
    (d: RadarStat) => d.(fullMark := val, value := Min(d.value, val))
  }

  function StatLacksId(id: string): RadarStat -> bool {
    (d: RadarStat) => d.id != id
  }

  /** Two stats agree on everything but, possibly, their value. */
  predicate SameButValue(x: RadarStat, y: RadarStat) {
    x.id == y.id && x.caption == y.caption && x.fullMark == y.fullMark && x.notes == y.notes
  }

  // The new stat lists.

  /** The stat list of `handleValueChange(id, v)`: the value of the stats with that id becomes `v`, unclamped. */
  function SetValue(data: seq<RadarStat>, id: string, v: real): (r: seq<RadarStat>)
    ensures |r| == |data|
    ensures forall i :: 0 <= i < |data| ==> SameButValue(r[i], data[i])
    ensures forall i :: 0 <= i < |data| ==> r[i].value == if data[i].id == id then v else data[i].value
  {
    Arrays.Map(data, WithValue(id, v))
  }

  /** The stat `addStat` appends. */
  function DefaultStat(id: string): RadarStat {
    RadarStat(id, "New Stat", 50.0, 100.0, None)
  }

  /** The stat list of `addStat`: the old list, then one new stat with a hard-coded scale of 100. */
  function AppendStat(data: seq<RadarStat>, newId: string): (r: seq<RadarStat>)
    ensures |r| == |data| + 1 && r[..|data|] == data
    ensures r[|data|].id == newId && r[|data|].caption == "New Stat" && r[|data|].notes.None?
    ensures r[|data|].value == 50.0 && r[|data|].fullMark == 100.0
  {
    data + [DefaultStat(newId)]
  }

  /** The stat list of `removeStat(id)`: the stats with another id, in order. */
  function RemoveStats(data: seq<RadarStat>, id: string): (r: seq<RadarStat>)
    ensures |r| <= |data|
    ensures forall i :: 0 <= i < |r| ==> r[i].id != id
  {
    Arrays.Filter(data, StatLacksId(id))
  }

  /** The stat list of `updateStatLabel(id, caption)`: only that stat's caption changes. */
  function SetCaption(data: seq<RadarStat>, id: string, caption: string): (r: seq<RadarStat>)
    ensures |r| == |data|
    ensures forall i :: 0 <= i < |data| ==>
      r[i].id == data[i].id && r[i].value == data[i].value && r[i].fullMark == data[i].fullMark && r[i].notes == data[i].notes
    ensures forall i :: 0 <= i < |data| ==> r[i].caption == if data[i].id == id then caption else data[i].caption
  {
    Arrays.Map(data, WithCaption(id, caption))
  }

  /** The stat list of `updateStatNotes(id, notes)`: only that stat's notes change. */
  function SetNotes(data: seq<RadarStat>, id: string, notes: string): (r: seq<RadarStat>)
    ensures |r| == |data|
    ensures forall i :: 0 <= i < |data| ==>
      r[i].id == data[i].id && r[i].caption == data[i].caption && r[i].value == data[i].value && r[i].fullMark == data[i].fullMark
    ensures forall i :: 0 <= i < |data| ==> r[i].notes == if data[i].id == id then Some(notes) else data[i].notes
  {
    Arrays.Map(data, WithNotes(id, notes))
  }

  /** The stat list of every max-scale control: one scale `val` for all, values cut down to it. */
  function Rescale(data: seq<RadarStat>, val: real): (r: seq<RadarStat>)
    ensures |r| == |data| && SharedMax(r, val)
    ensures forall i :: 0 <= i < |data| ==>
      r[i].id == data[i].id && r[i].caption == data[i].caption && r[i].notes == data[i].notes
    ensures forall i :: 0 <= i < |data| ==> r[i].value <= val && r[i].value <= data[i].value
    ensures forall i :: 0 <= i < |data| && data[i].value <= val ==> r[i].value == data[i].value
    ensures forall i :: 0 <= i < |data| && val < data[i].value ==> r[i].value == val
  {
    Arrays.Map(data, Rescaled(val))
  }

  /** The label triple of `updateAlignmentLabel(index, label)`. */
  function SetLabel(labels: Labels, index: nat, text: string): (r: Labels)
    requires index < 3
    ensures r[index] == text
    ensures forall j :: 0 <= j < 3 && j != index ==> r[j] == labels[j]
  {
    labels[index := text]
  }

  // The handlers, as the patch they pass to `updateChart(chart.id, ...)`.

  function DataPatch(data: seq<RadarStat>): Store.Patch {
    Store.NoChange.(data := Some(data))
  }

  /** `handleValueChange(id, v)`: radar charts only. */
  function HandleValueChange(chart: StatChart, id: string, v: real): (r: Option<Store.Patch>)
    ensures r.Some? <==> chart.RadarChart?
    ensures chart.RadarChart? && r.Some? ==> Store.Merge(chart, r.value) == chart.(data := SetValue(chart.data, id, v))
  {
    if chart.RadarChart? then Some(DataPatch(SetValue(chart.data, id, v))) else None
  }

  /** `handleAlignmentChange(values)`: alignment charts only; the whole triple is replaced. */
  function HandleAlignmentChange(chart: StatChart, values: Weights): (r: Option<Store.Patch>)
    ensures r.Some? <==> chart.AlignmentChart?
    ensures chart.AlignmentChart? && r.Some? ==> Store.Merge(chart, r.value) == chart.(values := values)
  {
    if chart.AlignmentChart? then Some(Store.NoChange.(values := Some(values))) else None
  }

  /** `addStat()`, with `newId` standing for the generated uuid. */
  function AddStat(chart: StatChart, newId: string): (r: Option<Store.Patch>)
    ensures r.Some? <==> chart.RadarChart?
    ensures chart.RadarChart? && r.Some? ==> Store.Merge(chart, r.value) == chart.(data := AppendStat(chart.data, newId))
  {
    if chart.RadarChart? then Some(DataPatch(AppendStat(chart.data, newId))) else None
  }

  /** `removeStat(id)`: refused for a chart with 3 stats or fewer. */
  function RemoveStat(chart: StatChart, id: string): (r: Option<Store.Patch>)
    ensures r.Some? <==> chart.RadarChart? && |chart.data| > 3
    ensures chart.RadarChart? && r.Some? ==> Store.Merge(chart, r.value) == chart.(data := RemoveStats(chart.data, id))
  {
    if chart.RadarChart? && |chart.data| > 3 then Some(DataPatch(RemoveStats(chart.data, id))) else None
  }

  /** `updateStatLabel(id, caption)`. */
  function UpdateStatLabel(chart: StatChart, id: string, caption: string): (r: Option<Store.Patch>)
    ensures r.Some? <==> chart.RadarChart?
    ensures chart.RadarChart? && r.Some? ==> Store.Merge(chart, r.value) == chart.(data := SetCaption(chart.data, id, caption))
  {
    if chart.RadarChart? then Some(DataPatch(SetCaption(chart.data, id, caption))) else None
  }

  /** `updateStatNotes(id, notes)`. */
  function UpdateStatNotes(chart: StatChart, id: string, notes: string): (r: Option<Store.Patch>)
    ensures r.Some? <==> chart.RadarChart?
    ensures chart.RadarChart? && r.Some? ==> Store.Merge(chart, r.value) == chart.(data := SetNotes(chart.data, id, notes))
  {
    if chart.RadarChart? then Some(DataPatch(SetNotes(chart.data, id, notes))) else None
  }

  /** `updateAlignmentLabel(index, label)`, for the Top (0), Right (1) and Left (2) fields. */
  function UpdateAlignmentLabel(chart: StatChart, index: nat, text: string): (r: Option<Store.Patch>)
    requires index < 3
    ensures r.Some? <==> chart.AlignmentChart?
    ensures chart.AlignmentChart? && r.Some? ==>
      Store.Merge(chart, r.value) == chart.(labels := SetLabel(chart.labels, index, text))
  {
    if chart.AlignmentChart? then Some(Store.NoChange.(labels := Some(SetLabel(chart.labels, index, text)))) else None
  }

  /** The scales offered as buttons. */
  const ScalePresets: seq<real> := [6.0, 10.0, 20.0, 100.0]

  /**
   * The max-scale controls: a preset button, the minus button, the number
   * field (`parsed` is what `parseInt` made of the entry, `None` for NaN) and
   * the plus button.
   */
  datatype ScaleControl = Preset(val: real) | Decrement | Custom(parsed: Option<int>) | Increment

  /** The scale a control asks for, from the current one `data[0]?.fullMark || 100`. */
  function ScaleTarget(data: seq<RadarStat>, control: ScaleControl): (val: real)
    requires control.Preset? ==> control.val in ScalePresets
    ensures control.Preset? ==> val == control.val
    ensures control.Decrement? ==> val >= 1.0
    ensures control.Decrement? && Radar.MaxValue(data) >= 2.0 ==> val == Radar.MaxValue(data) - 1.0
    ensures control.Decrement? && Radar.MaxValue(data) <= 2.0 ==> val == 1.0
    ensures control.Increment? ==> val <= 1000.0
    ensures control.Increment? && Radar.MaxValue(data) <= 999.0 ==> val == Radar.MaxValue(data) + 1.0
    ensures control.Increment? && Radar.MaxValue(data) >= 999.0 ==> val == 1000.0
    ensures control.Custom? ==> val >= 1.0
    ensures control.Custom? && (control.parsed.None? || control.parsed == Some(0)) ==> val == 100.0
    ensures control.Custom? && control.parsed.Some? && control.parsed.value >= 1 ==> val == control.parsed.value as real
    ensures control.Custom? && control.parsed.Some? && control.parsed.value < 0 ==> val == 1.0
    ensures Radar.MaxValue(data) >= 0.0 ==> val >= 1.0
  {
    match control
    case Preset(v) => v
    case Decrement => Max(1.0, Radar.MaxValue(data) - 1.0)
    case Custom(parsed) =>
      Max(1.0, if parsed.None? || parsed.value == 0 then 100.0 else parsed.value as real)
    case Increment => Min(1000.0, Radar.MaxValue(data) + 1.0)
  }

  /** Any max-scale control on a radar chart (the controls are shown for radar charts only). */
  function ChangeScale(chart: StatChart, control: ScaleControl): (r: Store.Patch)
    requires chart.RadarChart?
    requires control.Preset? ==> control.val in ScalePresets
    ensures Store.Merge(chart, r) == chart.(data := Rescale(chart.data, ScaleTarget(chart.data, control)))
  {
    DataPatch(Rescale(chart.data, ScaleTarget(chart.data, control)))
  }

  // Properties of the stat-list transforms.

  /** A value change keeps ids, scales and stat count, and keeps values in range when the new one is. */
  lemma SetValueKeepsShape(data: seq<RadarStat>, id: string, v: real, m: real)
    ensures UniqueStatIds(data) ==> UniqueStatIds(SetValue(data, id, v))
    ensures SharedMax(data, m) ==> SharedMax(SetValue(data, id, v), m)
    ensures InBounds(data) && SharedMax(data, m) && 0.0 <= v <= m ==> InBounds(SetValue(data, id, v))
  {
    var r := SetValue(data, id, v);
    assert forall i :: 0 <= i < |r| ==> StatIdOf(r[i]) == StatIdOf(data[i]);
  }

  /**
   * A drag on a chart whose stats share an integer scale produces a value the
   * chart can hold: the value change keeps every stat in range.
   */
  lemma DragKeepsInBounds(data: seq<RadarStat>, id: string, projection: real, radius: real, m: real)
    requires radius != 0.0 && 0.0 <= m && m == m.Floor as real
    requires InBounds(data) && SharedMax(data, m)
    ensures InBounds(SetValue(data, id, Radar.DragValue(projection, radius, m) as real))
  {
    var v := Radar.DragValue(projection, radius, m);
    assert 0 <= v <= m.Floor;
    SetValueKeepsShape(data, id, v as real, m);
  }

  /** Appending under a fresh id keeps ids unique and values in range. */
  lemma AppendStatKeepsShape(data: seq<RadarStat>, newId: string)
    requires forall i :: 0 <= i < |data| ==> data[i].id != newId
    ensures UniqueStatIds(data) ==> UniqueStatIds(AppendStat(data, newId))
    ensures InBounds(data) ==> InBounds(AppendStat(data, newId))
    ensures SharedMax(data, 100.0) ==> SharedMax(AppendStat(data, newId), 100.0)
  {
    var r := AppendStat(data, newId);
    if UniqueStatIds(data) {
      forall i, j | 0 <= i < j < |r| ensures StatIdOf(r[i]) != StatIdOf(r[j]) {
        if j < |data| {
          assert StatIdOf(data[i]) != StatIdOf(data[j]);
        }
      }
    }
  }

  /** Because the new stat's scale is always 100, adding a stat to a chart on another shared scale leaves no shared scale. */
  lemma AppendStatBreaksOtherScale(data: seq<RadarStat>, newId: string, m: real)
    requires |data| > 0 && SharedMax(data, m) && m != 100.0
    ensures forall f :: !SharedMax(AppendStat(data, newId), f)
  {
    var r := AppendStat(data, newId);
    assert r[0] == data[0];
  }

  /** Removal keeps ids unique, values in range and the shared scale. */
  lemma RemoveStatsKeepsShape(data: seq<RadarStat>, id: string, m: real)
    ensures UniqueStatIds(data) ==> UniqueStatIds(RemoveStats(data, id))
    ensures InBounds(data) ==> InBounds(RemoveStats(data, id))
    ensures SharedMax(data, m) ==> SharedMax(RemoveStats(data, id), m)
  {
    var r := RemoveStats(data, id);
    if UniqueStatIds(data) {
      Arrays.FilterUniqueBy(data, StatLacksId(id), StatIdOf);
    }
    forall i | 0 <= i < |r| ensures r[i] in data {
      Arrays.FilterMembership(data, StatLacksId(id), r[i]);
    }
  }

  /** With unique ids, removal takes out exactly the stat with that id, or nothing if there is none. */
  lemma RemoveStatsUnique(data: seq<RadarStat>, id: string)
    requires UniqueStatIds(data)
    ensures (forall i :: 0 <= i < |data| ==> data[i].id != id) ==> RemoveStats(data, id) == data
    ensures forall k :: 0 <= k < |data| && data[k].id == id ==>
      RemoveStats(data, id) == data[..k] + data[k + 1..] && |RemoveStats(data, id)| == |data| - 1
  {
    var keep := StatLacksId(id);
    if forall i :: 0 <= i < |data| ==> data[i].id != id {
      Arrays.FilterKeepsAll(data, keep);
    }
    forall k | 0 <= k < |data| && data[k].id == id
      ensures RemoveStats(data, id) == data[..k] + data[k + 1..] && |RemoveStats(data, id)| == |data| - 1
    {
      forall i | 0 <= i < |data| && i != k ensures keep(data[i]) {
        if i < k {
          assert StatIdOf(data[i]) != StatIdOf(data[k]);
        } else {
          assert StatIdOf(data[k]) != StatIdOf(data[i]);
        }
      }
      Arrays.FilterDropsOne(data, keep, k);
    }
  }

  /** `removeStat` never takes a chart with unique stat ids below three stats. */
  lemma RemoveStatKeepsFloor(chart: StatChart, id: string)
    requires chart.RadarChart? && |chart.data| >= 3 && UniqueStatIds(chart.data)
    ensures |chart.data| == 3 ==> RemoveStat(chart, id) == None
    ensures RemoveStat(chart, id).Some? ==> |Store.Merge(chart, RemoveStat(chart, id).value).data| >= 3
  {
    if |chart.data| > 3 {
      RemoveStatsUnique(chart.data, id);
    }
  }

  /** Renaming a stat or editing its notes keeps ids, values and scales. */
  lemma SetCaptionAndNotesKeepShape(data: seq<RadarStat>, id: string, text: string, m: real)
    ensures UniqueStatIds(data) ==> UniqueStatIds(SetCaption(data, id, text)) && UniqueStatIds(SetNotes(data, id, text))
    ensures InBounds(data) ==> InBounds(SetCaption(data, id, text)) && InBounds(SetNotes(data, id, text))
    ensures SharedMax(data, m) ==> SharedMax(SetCaption(data, id, text), m) && SharedMax(SetNotes(data, id, text), m)
  {
    var r1, r2 := SetCaption(data, id, text), SetNotes(data, id, text);
    assert forall i :: 0 <= i < |data| ==> StatIdOf(r1[i]) == StatIdOf(data[i]) && StatIdOf(r2[i]) == StatIdOf(data[i]);
  }

  /** Rescaling to a non-negative scale puts every non-negative value in range; doing it twice is doing it once. */
  lemma RescaleProperties(data: seq<RadarStat>, val: real)
    ensures UniqueStatIds(data) ==> UniqueStatIds(Rescale(data, val))
    ensures 0.0 <= val && (forall i :: 0 <= i < |data| ==> 0.0 <= data[i].value) ==> InBounds(Rescale(data, val))
    ensures Rescale(Rescale(data, val), val) == Rescale(data, val)
  {
    var r := Rescale(data, val);
    assert forall i :: 0 <= i < |data| ==> StatIdOf(r[i]) == StatIdOf(data[i]);
  }

  // The comparison overlay.

  /** `onDrop`: the comparison list after a chart id is dropped on the active chart. */
  function DropComparison(ids: seq<string>, charts: seq<StatChart>, active: StatChart, chartId: string): (r: seq<string>)
    ensures r == ids || r == ids + [chartId]
    ensures r == ids + [chartId] <==>
      chartId != "" && active.RadarChart? && chartId != active.id && chartId !in ids &&
      Store.FindById(charts, chartId).Some? && Store.FindById(charts, chartId).value.RadarChart?
    ensures DistinctIds(ids) ==> DistinctIds(r)
    ensures active.id !in ids ==> active.id !in r
  {
    if chartId != "" && active.RadarChart? && chartId != active.id && chartId !in ids then
      var dragged := Store.FindById(charts, chartId);
      if dragged.Some? && dragged.value.RadarChart? then
        assert DistinctIds(ids) ==> DistinctIds(ids + [chartId]) by {
          if DistinctIds(ids) {
            var s := ids + [chartId];
            forall i, j | 0 <= i < j < |s| ensures IdentityOf(s[i]) != IdentityOf(s[j]) {
              if j < |ids| {
                assert IdentityOf(ids[i]) != IdentityOf(ids[j]);
              } else {
                assert s[i] in ids;
              }
            }
          }
        }
        ids + [chartId]
      else ids
    else ids
  }

  function IsNot(id: string): string -> bool {
    (x: string) => x != id
  }

  /** The close button of one overlay: the list without that id. */
  function RemoveComparison(ids: seq<string>, id: string): (r: seq<string>)
    ensures |r| <= |ids|
    ensures forall i :: 0 <= i < |r| ==> r[i] != id
  {
    Arrays.Filter(ids, IsNot(id))
  }

  /** Closing an overlay keeps the other ids, in order and without duplicates. */
  lemma RemoveComparisonProperties(ids: seq<string>, id: string, x: string)
    ensures x in RemoveComparison(ids, id) <==> x in ids && x != id
    ensures DistinctIds(ids) ==> DistinctIds(RemoveComparison(ids, id))
  {
    Arrays.FilterMembership(ids, IsNot(id), x);
    if DistinctIds(ids) {
      Arrays.FilterUniqueBy(ids, IsNot(id), IdentityOf);
    }
  }

  /** Another chart's value for a stat, shown in that chart's colour. */
  datatype Comparison = Comparison(value: real, color: string)

  function StatHasCaption(caption: string): RadarStat -> bool {
    (d: RadarStat) => d.caption == caption
  }

  /** Some stat of `data` is labelled `caption`. */
  predicate HasCaption(data: seq<RadarStat>, caption: string) {
    exists j :: 0 <= j < |data| && data[j].caption == caption
  }

  /** The id names a radar chart that has a stat labelled `caption`. */
  predicate Comparable(charts: seq<StatChart>, id: string, caption: string) {
    var found := Store.FindById(charts, id);
    found.Some? && found.value.RadarChart? && HasCaption(found.value.data, caption)
  }

  /**
   * The entry one comparison id contributes for the stat labelled `caption`:
   * present exactly when the id names a radar chart with such a stat, and
   * then in that chart's colour.
   */
  function CompareOne(charts: seq<StatChart>, id: string, caption: string): (r: Option<Comparison>)
    ensures r.Some? <==> Comparable(charts, id, caption)
    ensures r.Some? ==> r.value.color == Store.FindById(charts, id).value.color
  {
    match Store.FindById(charts, id)
    case Some(c) =>
      if c.RadarChart? then
        match Arrays.Find(c.data, StatHasCaption(caption))
        case Some(s) => Some(Comparison(s.value, c.color))
        case None => None
      else None
    case None => None
  }

  /** An entry is the value of a same-captioned stat of a radar chart in the collection with that id, in the chart's colour. */
  lemma CompareOneSource(charts: seq<StatChart>, id: string, caption: string)
    requires CompareOne(charts, id, caption).Some?
    ensures exists c :: (c in charts && c.id == id && c.RadarChart? && c.color == CompareOne(charts, id, caption).value.color &&
      exists k :: 0 <= k < |c.data| && c.data[k].caption == caption &&
        (forall j :: 0 <= j < k ==> c.data[j].caption != caption) &&
        c.data[k].value == CompareOne(charts, id, caption).value.value)
  {
    var c := Store.FindById(charts, id).value;
    var s := Arrays.Find(c.data, StatHasCaption(caption)).value;
    var k :| 0 <= k < |c.data| && c.data[k] == s && StatHasCaption(caption)(c.data[k]) &&
      forall j :: 0 <= j < k ==> !StatHasCaption(caption)(c.data[j]);
    assert c.data[k].caption == caption;
  }

  function CompareWith(charts: seq<StatChart>, caption: string): string -> Option<Comparison> {
    (id: string) => CompareOne(charts, id, caption)
  }

  /** The comparison values shown next to the stat labelled `caption`, in list order. */
  function ComparisonValues(ids: seq<string>, charts: seq<StatChart>, caption: string): (r: seq<Comparison>)
    ensures |r| <= |ids|
  {
    Arrays.FilterMap(ids, CompareWith(charts, caption))
  }

  /** Every value shown is the entry of a listed id, the one at index `i`. */
  lemma ComparisonValueSource(ids: seq<string>, charts: seq<StatChart>, caption: string, k: nat) returns (i: nat)
    requires k < |ComparisonValues(ids, charts, caption)|
    ensures i < |ids| && CompareOne(charts, ids[i], caption) == Some(ComparisonValues(ids, charts, caption)[k])
  {
    i := Arrays.FilterMapSource(ids, CompareWith(charts, caption), k);
  }

  /** When every listed chart resolves and has the stat, there is one value per id, in order. */
  lemma ComparisonValuesAllFound(ids: seq<string>, charts: seq<StatChart>, caption: string)
    requires forall i :: 0 <= i < |ids| ==> CompareOne(charts, ids[i], caption).Some?
    ensures |ComparisonValues(ids, charts, caption)| == |ids|
    ensures forall i :: 0 <= i < |ids| ==>
      ComparisonValues(ids, charts, caption)[i] == CompareOne(charts, ids[i], caption).value
  {
    Arrays.FilterMapAll(ids, CompareWith(charts, caption));
  }

  /** Ids that resolve to nothing contribute nothing. */
  lemma ComparisonValuesNoneFound(ids: seq<string>, charts: seq<StatChart>, caption: string)
    requires forall i :: 0 <= i < |ids| ==> CompareOne(charts, ids[i], caption).None?
    ensures ComparisonValues(ids, charts, caption) == []
  {
    Arrays.FilterMapNone(ids, CompareWith(charts, caption));
  }
}
