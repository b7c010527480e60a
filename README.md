# Stat-Manager chart core in Dafny

Stat-Manager is a browser editor for tabletop character charts. It keeps two kinds of chart:

- a **radar chart** holds a list of named stats, each with a value on a maximum scale (`fullMark`);
- an **alignment chart** holds three labels and three weights, placed as a point in a triangle.

The project models the parts of the editor that decide what the charts contain:

- **the chart store** (`Store`, `chart_store.dfy`). It holds the chart list and the active-chart pointer. `ChartStore` is a class whose fields the operations reassign: add, update by id, delete by id, set the active chart, get the active chart. The pure functions beside it state the new list:
  - `NewChart` builds the default charts;
  - `Merge` is the `{ ...chart, ...updates }` spread;
  - `UpdateCharts` and `DeleteCharts` are the list transforms;
  - `FindById` and `ActiveChart` are the lookups.
- **the editor handlers** (`Editor`, `chart_editor.dfy`). Each handler builds a new stat list, label triple or weight triple and returns it as the patch it gives to `updateChart`. A handler that does nothing returns `None`. The handlers are:
  - set a value, add or remove a stat (never below three), rename a stat, edit a stat's notes, rename an alignment label;
  - the four max-scale controls (presets, minus, number field, plus);
  - replacing the alignment weights;
  - the comparison-overlay id list and the values it shows.
- **the radar chart component** (`Radar`, `radar_chart.dfy`):
  - the scale fallback;
  - the grid levels, built by a loop method;
  - the value a drag along an axis produces, clamped and rounded;
  - the `draggingId` state, as a class `RadarDrag`.
- **the alignment triangle** (`Triangle`, `alignment_triangle.dfy`):
  - the forward map from weights to a point (`Forward`);
  - the inverse map from a pointer position to weights: solve, clamp, renormalise to 100 (`Inverse`);
  - the `isDragging` state, as a class `TriangleDrag`.

The triangle's corners are any three points with a non-zero determinant.

`types.dfy` holds the chart records, `js_math.dfy` `Math.min` and `Math.max`, `arrays.dfy` the JavaScript `map`/`filter`/`find`/`findIndex` the code is built from (and `map` followed by a `filter` that drops nulls), and `wrappers.dfy` an `Option` type.

Numbers are Dafny `real`s. `Math.round(x)` is `(x + 0.5).Floor`. JavaScript's `x || d` fallbacks are written out: `0` and, for ids, `""` count as absent.

Four behaviours of the code worth noting:

- `addStat` always gives the new stat a scale of 100, even when the chart's other stats share another scale (`Editor.AppendStatBreaksOtherScale`);
- the inverse triangle map has no even-split fallback for a zero sum, and needs none, because the clamped sum is always at least 1 (`Triangle.ClampedSum`);
- `updateChart` does not guard the chart's `type` tag: see "Left out";
- `handleValueChange` does not clamp the new value (`Editor.SetValue`).

## Model

| member | source | states |
|---|---|---|
| Arrays.Filter | src/store/chartStore.ts:66 | `filter` keeps only elements its callback accepts and never grows the list |
| Arrays.FindIndex | src/components/RadarChart.tsx:85 | `findIndex` gives the first matching index, and -1 exactly when nothing matches |
| Arrays.Find | src/store/chartStore.ts:75 | `find` gives nothing exactly when nothing matches, and otherwise the first matching element |
| Arrays.FilterMembership | src/store/chartStore.ts:66 | an element survives `filter` if and only if it was in the list and the callback accepts it |
| Arrays.FilterAppend | src/store/chartStore.ts:66 | `filter` of a concatenation is the concatenation of the filtered parts, so order is kept |
| Arrays.FilterKeepsAll | src/store/chartStore.ts:66 | a `filter` that accepts every element returns the list unchanged |
| Arrays.FilterDropsOne | src/components/ChartEditor.tsx:65 | a `filter` that rejects exactly the element at `k` returns the list without it, one shorter |
| Arrays.FilterUniqueBy | src/store/chartStore.ts:66 | `filter` keeps keys unique |
| Arrays.FilterMap | src/components/ChartEditor.tsx:167-175 | mapping and then dropping the null results never yields more results than elements |
| Arrays.FilterMapSource | src/components/ChartEditor.tsx:167-175 | every result kept is the callback's result for some element |
| Arrays.FilterMapAll | src/components/ChartEditor.tsx:167-175 | when the callback never yields null, there is one result per element, in order |
| Arrays.FilterMapNone | src/components/ChartEditor.tsx:167-175 | when the callback always yields null, nothing is kept |
| Store.NewRadarChart | src/store/chartStore.ts:24-39 | the new radar chart has the given id and time and exactly five stats: Strength, Agility, Intelligence, Charisma, Wisdom. Each has value 50, no notes, and scale 100 shared by all, so every value is in range. Fresh stat ids stay unique |
| Store.NewAlignmentChart | src/store/chartStore.ts:40-48 | the new alignment chart has labels Mind/Body/Soul and weights 33/33/34, which are non-negative and sum to 100 |
| Store.NewChart | src/store/chartStore.ts:24-48 | `addChart` builds a chart of the requested kind under the new id |
| Store.Merge | src/store/chartStore.ts:59 | the spread keeps the chart's kind; every field the update carries overwrites, and every other field is kept |
| Store.MergeNoChange | src/store/chartStore.ts:59 | an empty update leaves the chart unchanged |
| Store.MergeThen | src/store/chartStore.ts:59 | two updates in a row equal one update in which the later fields win |
| Store.UpdateCharts | src/store/chartStore.ts:56-62 | the update keeps length and order, leaves every chart with another id untouched and merges every chart with that id |
| Store.UpdateNoMatch | src/store/chartStore.ts:56-62 | an update whose id matches no chart changes nothing |
| Store.UpdateKeepsUniqueIds | src/store/chartStore.ts:56-62 | an update that does not change the id keeps chart ids unique |
| Store.DeleteCharts | src/store/chartStore.ts:66 | after a delete, no chart has that id and the list is no longer |
| Store.DeleteMembership | src/store/chartStore.ts:66 | a chart survives a delete if and only if it was there under another id |
| Store.DeleteAppend | src/store/chartStore.ts:66 | delete works piecewise on a concatenation, so the survivors keep their order |
| Store.DeleteNoMatch | src/store/chartStore.ts:66 | deleting an id that no chart has changes nothing |
| Store.DeleteUnique | src/store/chartStore.ts:66 | with unique ids, deleting the id of the chart at `k` removes that chart alone, and the list is one shorter |
| Store.DeleteKeepsUniqueIds | src/store/chartStore.ts:66 | delete keeps chart ids unique |
| Store.AddKeepsUniqueIds | src/store/chartStore.ts:50-53 | appending a chart under a fresh id keeps chart ids unique |
| Store.FindById | src/store/chartStore.ts:75 | the lookup finds nothing exactly when no chart has the id, and otherwise the first chart with it |
| Store.ActiveChart | src/store/chartStore.ts:73-76 | there is no active chart when the pointer is null. An active chart is in the list and has the pointer's id, and one is found whenever some chart has that id |
| Store.ActiveAfterAdd | src/store/chartStore.ts:50-53 | after a chart is appended under a fresh id and the pointer is set to it, that chart is the active one |
| Store.AddThenDelete | src/store/chartStore.ts:50-69 | adding a chart and then deleting its id restores the old list |
| Store.ChartStore.constructor | src/store/chartStore.ts:20-21 | the store starts empty, with no active chart |
| Store.ChartStore.AddChart | src/store/chartStore.ts:23-54 | `addChart` appends exactly the new default chart at the end and leaves the old charts in order. The new chart becomes the active one, and chart ids stay unique |
| Store.ChartStore.UpdateChart | src/store/chartStore.ts:56-62 | the chart list becomes `UpdateCharts` of the old list, and the pointer is unchanged. Chart ids stay unique when the update does not change the id |
| Store.ChartStore.DeleteChart | src/store/chartStore.ts:64-69 | the list becomes `DeleteCharts` of the old list. The pointer becomes null if and only if it was the deleted id, and is otherwise unchanged. Ids stay unique |
| Store.ChartStore.SetActiveChart | src/store/chartStore.ts:71 | the pointer becomes the given id, which is not checked, and the charts are unchanged |
| Store.ChartStore.GetActiveChart | src/store/chartStore.ts:73-76 | the result is the first chart whose id is the pointer, or nothing; it changes no state |
| Radar.MaxValue | src/components/RadarChart.tsx:41 | the scale is never 0. It is 100 for an empty chart or a first scale of 0, and otherwise the first stat's scale, which is the shared one when the stats share a non-zero scale |
| Radar.NumLevels | src/components/RadarChart.tsx:44-58 | the ring count is the scale itself up to 10, half the scale above 10 up to 20, and 5 above 20 |
| Radar.NumLevelsRule | src/components/RadarChart.tsx:44-58 | the ring count is the scale itself up to 10 and half the scale up to 20. Otherwise it is 5, so the branches for 50 and 100 are redundant |
| Radar.LevelBounds | src/components/RadarChart.tsx:62 | every ring pushed while the counter is positive lies in (0, 1] |
| Radar.LevelDecreasing | src/components/RadarChart.tsx:61-62 | later rings are strictly smaller |
| Radar.LevelCountExact | src/components/RadarChart.tsx:61 | a loop from `n` down by 1 while positive runs `count` times when `n <= count < n + 1` |
| Radar.CalculateLevels | src/components/RadarChart.tsx:44-65 | the rings are `(n - k) / n` for the ring count `n`, as many as the loop runs. The first is 1, all lie in (0, 1] and they strictly decrease. An integer scale 1..10 gives that many rings, a scale above 20 gives 5 and a scale at most 0 gives none |
| Radar.LevelsShape | src/components/RadarChart.tsx:60-64 | what the loop leaves is a list starting at 1, in (0, 1], strictly decreasing and of the loop's count |
| Radar.LevelCountCases | src/components/RadarChart.tsx:44-64 | an integer scale from 1 to 10 gives that many rings, a scale above 20 gives five and a scale at most 0 gives none |
| Radar.DragValue | src/components/RadarChart.tsx:111-114 | for an integer scale the dragged value is between 0 and the scale. A projection at or before the centre gives 0, and one at or past the radius gives the full scale |
| Radar.DragValueMonotone | src/components/RadarChart.tsx:111-114 | dragging further out along the axis never lowers the value |
| Radar.DragValueRoundTrip | src/components/RadarChart.tsx:108-114 | a drag from exactly where a stat's integer value is drawn, `(value / fullMark) * radius` from the centre, gives that value back |
| Radar.RadarDrag.constructor | src/components/RadarChart.tsx:27 | nothing is dragged at first |
| Radar.RadarDrag.PointerDown | src/components/RadarChart.tsx:76-80 | a pointer-down on a stat starts dragging it, unless the chart is read-only |
| Radar.RadarDrag.PointerUp | src/components/RadarChart.tsx:117-120 | a pointer-up always ends the drag |
| Radar.RadarDrag.PointerMove | src/components/RadarChart.tsx:82-115 | a move reports a change if and only if a non-empty id is dragged, the chart is writable, a stat with that id exists and the drawing has a bounding box. The change carries that id and the drag value for the first such stat's scale |
| Editor.SetValue | src/components/ChartEditor.tsx:43 | only the values of stats with that id change, to the new value as given (no clamp). Length, order and all other fields are kept |
| Editor.AppendStat | src/components/ChartEditor.tsx:57 | the old stats are kept and one stat is appended under the new id: caption "New Stat", value 50, a hard-coded scale of 100 and no notes |
| Editor.RemoveStats | src/components/ChartEditor.tsx:65 | no stat with that id is left, and the list is no longer |
| Editor.SetCaption | src/components/ChartEditor.tsx:73 | only the captions of stats with that id change; values, scales, notes and ids are kept |
| Editor.SetNotes | src/components/ChartEditor.tsx:81 | only the notes of stats with that id change; captions, values, scales and ids are kept |
| Editor.Rescale | src/components/ChartEditor.tsx:111 | every stat gets the scale `val` and the value `min(value, val)`. Values at most `val` are unchanged and larger ones become `val`; ids, captions and notes are kept |
| Editor.SetLabel | src/components/ChartEditor.tsx:88-89 | only the label at the index changes |
| Editor.HandleValueChange | src/components/ChartEditor.tsx:41-46 | the handler acts on radar charts only, and the chart's stats become `SetValue` of them |
| Editor.HandleAlignmentChange | src/components/ChartEditor.tsx:48-52 | the handler acts on alignment charts only and replaces the whole weight triple |
| Editor.AddStat | src/components/ChartEditor.tsx:54-60 | the handler acts on radar charts only, and the stats become `AppendStat` of them |
| Editor.RemoveStat | src/components/ChartEditor.tsx:62-68 | the handler acts if and only if the chart is radar with more than 3 stats, and the stats become `RemoveStats` of them |
| Editor.UpdateStatLabel | src/components/ChartEditor.tsx:70-76 | the handler acts on radar charts only, and the stats become `SetCaption` of them |
| Editor.UpdateStatNotes | src/components/ChartEditor.tsx:78-84 | the handler acts on radar charts only, and the stats become `SetNotes` of them |
| Editor.UpdateAlignmentLabel | src/components/ChartEditor.tsx:86-92 | the handler acts on alignment charts only and replaces one label; the weights and the other labels are kept |
| Editor.ScaleTarget | src/components/ChartEditor.tsx:107-153 | a preset gives itself. Minus gives one less than the current scale when that is at least 2, and exactly 1 otherwise. Plus gives one more when the scale is at most 999, and exactly 1000 otherwise. The number field gives a parsed entry of at least 1 as is, 100 for an entry that does not parse or parses to 0, and 1 for a negative entry |
| Editor.ChangeScale | src/components/ChartEditor.tsx:107-153 | every max-scale control applies `Rescale` with its target scale to the radar chart |
| Editor.SetValueKeepsShape | src/components/ChartEditor.tsx:41-46 | a value change keeps stat ids unique and the shared scale. A value within the scale keeps every value in range |
| Editor.DragKeepsInBounds | src/components/RadarChart.tsx:108-114 | on a chart with an integer shared scale, the value a drag reports keeps every stat in range once the editor applies it |
| Editor.AppendStatKeepsShape | src/components/ChartEditor.tsx:54-60 | adding a stat under a fresh id keeps ids unique and values in range, and keeps a shared scale of 100 |
| Editor.AppendStatBreaksOtherScale | src/components/ChartEditor.tsx:57 | after a stat is added to a non-empty chart whose shared scale is not 100, the stats no longer share any scale |
| Editor.RemoveStatsKeepsShape | src/components/ChartEditor.tsx:65 | removal keeps ids unique, values in range and the shared scale |
| Editor.RemoveStatsUnique | src/components/ChartEditor.tsx:62-68 | with unique ids, removal takes out exactly the stat with that id, one shorter, or changes nothing when no stat has it |
| Editor.RemoveStatKeepsFloor | src/components/ChartEditor.tsx:62-68 | a chart with exactly 3 stats is left unchanged, and a chart with unique ids never drops below 3 stats |
| Editor.SetCaptionAndNotesKeepShape | src/components/ChartEditor.tsx:70-84 | renaming a stat or editing its notes keeps ids unique, values in range and the shared scale |
| Editor.RescaleProperties | src/components/ChartEditor.tsx:111 | rescaling keeps ids unique and to a non-negative scale puts every non-negative value in range; rescaling twice equals rescaling once |
| Editor.DropComparison | src/components/ChartEditor.tsx:461-472 | a dropped id is appended if and only if it is non-empty, the active chart is radar, the id is not the active chart's or already listed, and it names a radar chart. Otherwise the list is unchanged. The list never gains a duplicate or the active id |
| Editor.RemoveComparison | src/components/ChartEditor.tsx:530 | closing an overlay leaves no entry with that id |
| Editor.RemoveComparisonProperties | src/components/ChartEditor.tsx:530 | an id stays listed if and only if it was listed and is not the closed one, and the list stays free of duplicates |
| Editor.CompareOne | src/components/ChartEditor.tsx:168-174 | an id yields an entry if and only if it names a radar chart that has a stat with the same caption. The entry is in that chart's colour |
| Editor.CompareOneSource | src/components/ChartEditor.tsx:168-174 | an entry is the value of the first stat with that caption in a radar chart of the collection that has that id, in the chart's colour |
| Editor.ComparisonValues | src/components/ChartEditor.tsx:167-175 | there are never more comparison values than listed ids |
| Editor.ComparisonValueSource | src/components/ChartEditor.tsx:167-175 | every value shown is the entry of one of the listed ids |
| Editor.ComparisonValuesAllFound | src/components/ChartEditor.tsx:167-175 | when every listed id resolves to a radar chart with the stat, there is one value per id, in list order |
| Editor.ComparisonValuesNoneFound | src/components/ChartEditor.tsx:167-175 | ids that resolve to nothing contribute nothing |
| Triangle.WeightSum | src/components/AlignmentTriangle.tsx:41 | the divisor is the weights' sum when that is non-zero and 1 when it is 0, so never 0 |
| Triangle.Normalize | src/components/AlignmentTriangle.tsx:41-44 | weights with a non-zero sum come out summing to 1, and non-negative weights stay non-negative |
| Triangle.Forward | src/components/AlignmentTriangle.tsx:41-47 | on a triangle with a non-zero determinant, the marker is drawn at the point whose solved coordinates are the normalised weights. Weights summing to 0 are used as they are |
| Triangle.Coordinates | src/components/AlignmentTriangle.tsx:69-72 | the solved coordinates `u, v, w` sum to 1 |
| Triangle.ClampedSum | src/components/AlignmentTriangle.tsx:79-83 | the sum of the clamped coordinates is at least 1, so never 0 |
| Triangle.Inverse | src/components/AlignmentTriangle.tsx:69-86 | the weights a pointer sets are non-negative and sum to exactly 100, wherever the pointer is |
| Triangle.SumOfQuotients | src/components/AlignmentTriangle.tsx:83-86 | dividing by the sum gives parts summing to 1, and scaling by 100 gives 100 |
| Triangle.CoordinatesOfCombine | src/components/AlignmentTriangle.tsx:41-72 | the solve recovers the coordinates of any point drawn with coordinates summing to 1 |
| Triangle.Solve | src/components/AlignmentTriangle.tsx:69-71 | the `u` and `v` formulas solve the 2×2 system for a combination of the corners |
| Triangle.InverseInside | src/components/AlignmentTriangle.tsx:74-86 | a pointer inside or on the triangle gets exactly `100u, 100v, 100w`: clamping only distorts points outside |
| Triangle.InverseOfCombine | src/components/AlignmentTriangle.tsx:41-86 | a point drawn with non-negative coordinates summing to 1 sets weights of 100 times those coordinates |
| Triangle.InverseAtTop | src/components/AlignmentTriangle.tsx:69-86 | a click on the top corner gives (100, 0, 0) |
| Triangle.InverseAtRight | src/components/AlignmentTriangle.tsx:69-86 | a click on the right corner gives (0, 100, 0) |
| Triangle.InverseAtLeft | src/components/AlignmentTriangle.tsx:69-86 | a click on the left corner gives (0, 0, 100) |
| Triangle.InverseAtCentroid | src/components/AlignmentTriangle.tsx:69-86 | a click on the centroid gives 100/3 to each weight |
| Triangle.RoundTrip | src/components/AlignmentTriangle.tsx:41-86 | drawing non-negative weights with a positive sum and clicking the marker gives those weights rescaled to sum to 100 |
| Triangle.DragRoundTrip | src/components/AlignmentTriangle.tsx:41-86 | weights a drag produced survive drawing and clicking unchanged |
| Triangle.ForwardOfInverse | src/components/AlignmentTriangle.tsx:41-86 | for a pointer inside the triangle, the marker for the weights it sets is drawn back under the pointer |
| Triangle.TriangleDrag.constructor | src/components/AlignmentTriangle.tsx:25 | the triangle starts out not dragging |
| Triangle.TriangleDrag.PointerDown | src/components/AlignmentTriangle.tsx:49-54 | a pointer-down starts a drag unless the chart is read-only |
| Triangle.TriangleDrag.PointerMove | src/components/AlignmentTriangle.tsx:56-89 | a move reports weights if and only if a drag is on, the chart is writable and the drawing has a bounding box. The weights are those of the inverse map, so they are valid |
| Triangle.TriangleDrag.PointerUp | src/components/AlignmentTriangle.tsx:91-94 | a pointer-up ends the drag |

## Left out

- Store.Patch: an update cannot carry the `type` tag. A patch that changes a chart's kind, which the store's spread would accept, is not modelled, and fields of the other kind in an update are dropped, where the store would copy them onto the chart.
- Persistence of the store to the browser's local storage, and the store's global-singleton wiring: I/O that the model does not need.
- Random uuids and `Date.now()`: they are parameters (`chartId`, `statIds`, `now`, `newId`). `Store.ChartStore.AddChart` requires the caller to supply a fresh chart id.
- NaN and IEEE floating point, including the truthiness of NaN in `|| 100` and `|| 1`. All numbers are exact reals.
- `parseInt` in the custom scale field: the parsed result is an input, `None` for an entry that does not parse.
- Radar.RadarDrag.PointerMove and Radar.DragValue: `radius` must be non-zero. With `size` 400 it is 120; a zero radius is not handled.
- The trigonometry in `src/utils/geometry.ts` and in the drag handler (`Math.cos`, `Math.sin`, `Math.PI`): the pointer's projection onto the dragged axis is an input.
- The triangle's corners computed from `size` with `Math.sqrt(3)` are abstracted to three arbitrary points with a non-zero determinant. The degenerate triangle of `size` 120 is outside the model.
- Triangle.TriangleDrag.PointerDown: the immediate `handlePointerMove` call on pointer-down reads the drag flag from before it was set. The model does not claim that a pointer-down reports weights.
- Pointer capture, React re-rendering, the highlight timeout, the comparison overlay drawing and all other rendering, and `Dashboard.tsx`, `Button.tsx`, `Input.tsx` and the Tailwind configuration: presentation only.
