# Missile map visualization, modelled in Dafny

This project models the Splunk custom visualization "missile_map". The
visualization draws animated arcs ("missiles") between pairs of geographic
points on a Leaflet map. The model covers its one source file,
`missile_map.js`, in four parts:

- **Formatter** (`formatData`). Search rows become directed edges, with
  coordinates swapped to `[lon, lat]` and defaults for every optional field.
  The outcome is "nothing to render" when there are no rows, and the
  missing-fields error when a required field is absent from the schema.
- **View updater** (`updateView`). The class `View.MissileMap` holds the
  Render State:
  - whether the map exists;
  - the active tile URL, line thickness and labels flag;
  - the recorded latitude, longitude and zoom;
  - the drilldown flag;
  - whether a marker group exists;
  - the map's zoom level.

  Its calls on Leaflet and on the migration overlay are appended to a log of
  abstract operations (`View.Op`). `UpdateView` is proved against the
  specification function `View.Step`, which gives both the next state and
  the operations of one update. The module `ViewProperties` proves what
  `Step` promises across updates:
  - the first update creates the map;
  - the dirty flags decide a rebuild (both directions);
  - a rebuild records the request, and the zoom is clamped after it;
  - repeating an update is idempotent;
  - the state's consistency is kept;
  - destination markers are added before origin markers.
- **Marker selection**. The `[...new Map(...).values()]` idiom is modelled
  by `MarkerSelection.DistinctMarkers`, an imperative two-loop version of a
  `Map`, proved equal to the specification `MarkerSelection.Markers`. That
  function has one marker per distinct key, in first-insertion order, and
  each marker is the last edge with that key.
- **Drilldown** (`_isEnabledDrilldown`, `_drilldown`). The drilldown setting
  is checked, and a clicked origin edge is mapped to its field-value payload.

The host's helper functions are parameters of the model (`Host.Helpers`):
- `vizUtils.escapeHtml`;
- `normalizeBoolean`;
- the global `parseFloat` and `parseInt`;
- the conversion of a number to text done by `+`.

Apart from the few fixed values listed under "Left out", nothing is assumed
about what they compute.

The configuration is a flat map from property names to strings
(`Host.Config`), together with the visualization's property namespace.

Where the code does not do what it evidently intends, the model follows the code:

- **Empty first row.** The guard `dataResults[0].length === 0` at line 76
  evidently means to treat an empty first row as nothing to render. In the
  code it reads `length` of a row object, which is `undefined`, so the test never
  holds. `Formatter.FormatData` therefore returns `NothingToRender` only
  for missing or empty results.
- **Marker key.** The comments "Get unique end markers only" (line 242) and
  "Get unique start markers only" (line 263) ask for one marker per distinct
  point. The code builds its `Map` from `[lon, v] && [lat, v]`, which
  evaluates to `[lat, v]`, so markers are keyed by latitude alone. Two
  points on the same latitude share one marker (`MarkerSelection.SameLatitudeCollapses`).
- **Row weight.** The test `lineThickness != this.activeLineThickness` at
  line 107 evidently means to use a row's own `weight` when the configured
  thickness equals the active one. In the code, the row
  callback is a plain `function`, so the `this` it reads is not the
  visualization. The active thickness it sees is therefore an explicit
  parameter of `Formatter.FormatData`. With the value the unbound `this`
  actually yields (`None`), every edge carries the configured thickness
  (`Formatter.UnboundActiveThicknessIgnoresRowWeight`).
- **Animation.** The local `animated` in `updateView` is always `false`, so
  the overlay is always paused and `play` is never reached.

## Model

| member | source | states |
|---|---|---|
| `Host.EscapedProperty` | appserver/static/visualizations/missile_map/src/missile_map.js:335-338 | an absent namespaced property escapes to the empty string |
| `Host.BooleanProperty` | appserver/static/visualizations/missile_map/src/missile_map.js:169 | an absent or empty boolean property reads as true |
| `Host.LineThickness` | appserver/static/visualizations/missile_map/src/missile_map.js:174 | an absent or empty `lineThickness` is 1 |
| `Tiles.TileSetKey` | appserver/static/visualizations/missile_map/src/missile_map.js:144 | the preset key is the `tileSet` property, `splunk` when it is unset |
| `Tiles.ResolveTiles` | appserver/static/visualizations/missile_map/src/missile_map.js:144-157 | a custom URL replaces the preset URL, forces zoom bounds 1 to 19 and an empty attribution; otherwise the preset of the table at lines 20-56 is used unchanged; either way the bounds are 1 to 19 |
| `Formatter.StaticColor` | appserver/static/visualizations/missile_map/src/missile_map.js:84 | the `staticColor` property, `#65a637` when unset |
| `Formatter.HasFieldIff` | appserver/static/visualizations/missile_map/src/missile_map.js:89-92 | the schema filter finds a match exactly when some entry carries the name |
| `Formatter.FormatRow` | appserver/static/visualizations/missile_map/src/missile_map.js:100-123 | absent `color`, `animate`, `pulse_at_start` and `weight` give the static color, true, false and the configured thickness; the row's weight is used only when the active thickness equals the configured one |
| `Formatter.FormatRows` | appserver/static/visualizations/missile_map/src/missile_map.js:99-124 | one edge per row, the k-th edge formatted from the k-th row |
| `Formatter.DrilldownFields` | appserver/static/visualizations/missile_map/src/missile_map.js:127-131 | the returned field list is `start_lat`, `start_lon`, `start_label` |
| `Formatter.FormatData` | appserver/static/visualizations/missile_map/src/missile_map.js:74-134 | nothing to render exactly when the results are missing or empty; the missing-fields error (its exact message) exactly when there are rows and a required field is absent; otherwise the field list, one edge per row and the raw input |
| `Formatter.FormatFailsIffRequiredFieldMissing` | appserver/static/visualizations/missile_map/src/missile_map.js:88-97 | with rows present, the error is raised if and only if one of the four required names is carried by no schema entry |
| `Formatter.FormattedEdgeAt` | appserver/static/visualizations/missile_map/src/missile_map.js:100-123 | edge k has `from = [start_lon, start_lat]`, `to = [end_lon, end_lat]`; when the field is absent, the static color, `animate` true, `pulse_at_start` false and empty labels; when present, the escaped color and the normalized `animate` and `pulse_at_start` of the row |
| `Formatter.WeightRule` | appserver/static/visualizations/missile_map/src/missile_map.js:107 | the row's weight is used exactly when the row has one and the configured thickness equals the active one |
| `Formatter.UnboundActiveThicknessIgnoresRowWeight` | appserver/static/visualizations/missile_map/src/missile_map.js:99-107 | with the callback's unbound `this`, every edge carries the configured thickness |
| `Formatter.SingleRowExample` | appserver/static/visualizations/missile_map/src/missile_map.js:99-124 | a one-row search with only a start label gives exactly the edge with every default filled in |
| `MarkerSelection.FirstOccurrencesSpec` | appserver/static/visualizations/missile_map/src/missile_map.js:243 | the keys in `Map` insertion order hold exactly the keys given, are distinct, and are ordered by first occurrence |
| `MarkerSelection.MarkersSpec` | appserver/static/visualizations/missile_map/src/missile_map.js:243 | the markers' keys are the edges' keys in first-occurrence order, every edge's key has a marker, and each marker is the last edge with its key |
| `MarkerSelection.SameLatitudeCollapses` | appserver/static/visualizations/missile_map/src/missile_map.js:243 | two edges whose points share a latitude give one marker, the later edge, whatever their longitudes |
| `MarkerSelection.FirstOccurrences` | appserver/static/visualizations/missile_map/src/missile_map.js:243 | the distinct keys are no more than the keys, and there is at least one when there is any key |
| `MarkerSelection.Markers` | appserver/static/visualizations/missile_map/src/missile_map.js:243-264 | for the end markers (line 243) and the start markers (line 264): no more markers than edges, and at least one marker when there is an edge |
| `MarkerSelection.DistinctMarkers` | appserver/static/visualizations/missile_map/src/missile_map.js:243 | the insertion pass over a `Map` and the read-out of its values yield exactly `Markers` |
| `MarkerSelection.MarkerText` | appserver/static/visualizations/missile_map/src/missile_map.js:246-247 | the tooltip is the label, or `Lat: <lat>\nLon: <lon>` when the label is empty; it is never empty |
| `Drilldown.IsEnabledDrilldown` | appserver/static/visualizations/missile_map/src/missile_map.js:294-297 | drilldown is on exactly when the raw drilldown property is present and equals `all` (the truthiness test, then the strict comparison) |
| `Drilldown.StartValues` | appserver/static/visualizations/missile_map/src/missile_map.js:307-311 | the clicked edge offers exactly `start_label`, `start_lon` and `start_lat`, and only the label is text |
| `Drilldown.DescribeDrilldown` | appserver/static/visualizations/missile_map/src/missile_map.js:299-317 | the payload's action is field-value drilldown; its keys are exactly the requested fields, each mapped to the clicked edge's start label, longitude or latitude, or to undefined; over the formatter's field list it holds exactly the three start values |
| `View.RequestFor` | appserver/static/visualizations/missile_map/src/missile_map.js:144-180 | the settings of one update: the resolved tiles; a set latitude, longitude and zoom used as given, and 35, -95 and 5 when unset; labels and scroll-wheel zoom on when unset; the line thickness and the drilldown setting |
| `View.DirtyFlags` | appserver/static/visualizations/missile_map/src/missile_map.js:159-177 | no flag is set exactly when the active tiles and thickness, the recorded view, and any recorded labels value all equal the request |
| `View.SettleZoom` | appserver/static/visualizations/missile_map/src/missile_map.js:212-224 | with ordered bounds, the zoom options are set and the zoom ends within the bounds, unchanged when it was already within; with reversed bounds nothing happens |
| `View.LayerPhase` | appserver/static/visualizations/missile_map/src/missile_map.js:182-229 | the map exists afterwards; the first update makes exactly the one creation call; later, a call is made exactly when a flag is set; the marker group and drilldown flags are untouched |
| `View.Step` | appserver/static/visualizations/missile_map/src/missile_map.js:139-292 | without data nothing changes and no call is made; with data the map exists, a marker group exists, and the drilldown flag is the configured one |
| `View.MissileMap.constructor` | appserver/static/visualizations/missile_map/src/missile_map.js:66-70 | `initialize`: no map, nothing active, nothing logged |
| `View.MissileMap.ClampZoom` | appserver/static/visualizations/missile_map/src/missile_map.js:212-224 | when the bounds are ordered, the zoom options are set, and the zoom is lowered to the maximum, raised to the minimum, or kept with `zoomend` fired |
| `View.MissileMap.Redraw` | appserver/static/visualizations/missile_map/src/missile_map.js:194-227 | the rebuild: a new overlay and tile layer, `setView` and the recorded view only when the bounds changed, the clamp, and the three active values recorded |
| `View.MissileMap.UpdateLayers` | appserver/static/visualizations/missile_map/src/missile_map.js:182-229 | creates the map on the first update, rebuilds when a flag is set, and otherwise changes nothing |
| `View.MissileMap.OpenGroup` | appserver/static/visualizations/missile_map/src/missile_map.js:231-236 | an existing marker group is cleared, then a fresh one is added, and the group is recorded |
| `View.MissileMap.AddMarkers` | appserver/static/visualizations/missile_map/src/missile_map.js:244-284 | one transparent marker per selected edge, in order, with its tooltip open when labels are shown |
| `View.MissileMap.DrawMarkers` | appserver/static/visualizations/missile_map/src/missile_map.js:232-289 | clears any previous group, adds a fresh one, adds the destination markers and then the clickable origin markers, hands the edges to the overlay, and pauses it |
| `View.MissileMap.UpdateSettings` | appserver/static/visualizations/missile_map/src/missile_map.js:159-229 | records the drilldown setting and then does the layer part: the new state and calls are those of `LayerPhase` |
| `View.MissileMap.Render` | appserver/static/visualizations/missile_map/src/missile_map.js:159-289 | once the settings are read, the update's new state and its calls are those of the specification `Apply` |
| `View.MissileMap.UpdateView` | appserver/static/visualizations/missile_map/src/missile_map.js:139-292 | the new Render State and the calls made are exactly those of `Step`; without data nothing changes |
| `ViewProperties.FirstUpdateCreatesMap` | appserver/static/visualizations/missile_map/src/missile_map.js:182-192 | the first update creates the map with the requested tiles, view, thickness and scroll-wheel setting; every later call belongs to the markers; no active value and no view is recorded |
| `ViewProperties.NoSecondInitialization` | appserver/static/visualizations/missile_map/src/missile_map.js:182-192 | once the map exists, no update creates it again, and it stays created |
| `ViewProperties.SecondUpdateRebuilds` | appserver/static/visualizations/missile_map/src/missile_map.js:171-194 | since the first update records nothing, the next update always finds a flag set and rebuilds |
| `ViewProperties.RebuildIffDirty` | appserver/static/visualizations/missile_map/src/missile_map.js:159-194 | once the map exists, an update rebuilds if and only if one of the four flags is set; without a rebuild every call belongs to the markers |
| `ViewProperties.ShowLabelsIgnoredUntilActive` | appserver/static/visualizations/missile_map/src/missile_map.js:176-177 | the labels flag stays clear while no labels value is active |
| `ViewProperties.RebuildRecordsRequest` | appserver/static/visualizations/missile_map/src/missile_map.js:205-227 | after a rebuild the active tiles, thickness and labels are the requested ones, and so is the recorded view |
| `ViewProperties.NoRebuildKeepsState` | appserver/static/visualizations/missile_map/src/missile_map.js:194 | without a rebuild only the drilldown flag and the marker group change |
| `ViewProperties.RebuildClampsZoom` | appserver/static/visualizations/missile_map/src/missile_map.js:212-224 | after a rebuild the map zoom lies within the resolved bounds; the clamp's calls follow the rebuild (and `setView`) directly |
| `ViewProperties.RepeatedUpdateIsIdempotent` | appserver/static/visualizations/missile_map/src/missile_map.js:159-194 | once the map exists, repeating an update with the same configuration rebuilds nothing and leaves the state unchanged |
| `ViewProperties.StepKeepsConsistent` | appserver/static/visualizations/missile_map/src/missile_map.js:66-229 | the three active values are set together and only once the map exists, and the recorded view only with them, from `initialize` on and across every update |
| `ViewProperties.DestinationsBeforeOrigins` | appserver/static/visualizations/missile_map/src/missile_map.js:238-289 | no destination marker follows an origin marker, only origin markers carry a drilldown edge, and the update ends with `setData` and `pause` |
| `ViewProperties.MoveViewStep` | appserver/static/visualizations/missile_map/src/missile_map.js:205-210 | when the bounds flag is set, the update moves the map with exactly one `setView`, right after the rebuild call, and records the requested view |
| `ViewProperties.NewBoundsExample` | appserver/static/visualizations/missile_map/src/missile_map.js:205-210 | a view that differs from the recorded one in latitude, longitude or zoom is applied with exactly one `setView`, right after the rebuild, and is recorded |
| `ViewProperties.KeptViewNoSetView` | appserver/static/visualizations/missile_map/src/missile_map.js:205-210 | once the map exists and the view is unchanged, the layer part makes no `setView` call and keeps the recorded view |
| `ViewProperties.CustomTilesExample` | appserver/static/visualizations/missile_map/src/missile_map.js:151-159 | switching from a preset to a custom URL rebuilds on that URL with bounds 1 to 19 and an empty attribution |

## Left out

- Leaflet and the migration overlay are not executed. Their calls are recorded as abstract operations. How they draw, animate or limit the zoom of `setView` is not part of this model.
- `this.animated`: its writes in `formatData` and `updateView` are not part of the Render State, because nothing the model covers reads them.
- `reflow`, `getInitialDataParams` (raw output, 50000 results) and the class-name setup in `initialize` are host glue and are left out.
- `getCurrentConfig`, `getCurrentData` and the property namespace are inputs: the configuration and namespace are fields of `Host.Config`, and `DescribeDrilldown` takes the field list as a parameter.
- Floating point is not modelled: `parseFloat`, `parseInt` and number-to-text are uninterpreted helpers. `NaN` comparisons are not modelled.
- JavaScript loose equality between numbers and numeric strings is not modelled. The configured latitude, longitude and zoom are compared as strings, and their defaults are the strings `35`, `-95` and `5`.
- `View.MissileMap.UpdateView`: a `tileSet` naming no preset makes the source throw while reading the preset. This is a precondition (`Tiles.KnownTileSet`) rather than an error outcome.
- `View.MissileMap.UpdateView`: a user zoom between updates is not modelled. The map zoom changes only through this model's own calls.
- `View.MissileMap.UpdateView`: an exception thrown by a library call midway through an update is not modelled, so the partial state it would leave is not covered.
- `this.drilldown(...)`, the host call that `_drilldown` ends with, is left out. `Drilldown.DescribeDrilldown` returns the description the host would receive.
- The click binding of an origin marker is recorded as the edge the marker carries. The call into `_drilldown` on a click is modelled separately by `DescribeDrilldown`.
- `Host.Helpers`: the model fixes four values of the helpers instead of leaving them open. `escapeHtml` of an absent property (JavaScript `undefined`) is taken to be the empty string. `normalizeBoolean` of the literal `true` (the default of `|| true` at lines 169 and 178) is taken to be true. `parseInt` of the literal `1` (the default of `|| 1` at lines 85 and 174) is taken to be 1.
- `Host.Helpers`: one `normalizeBoolean` stands for both `vizUtils.normalizeBoolean` (lines 105-106) and `Splunk.util.normalizeBoolean` (lines 169 and 178). The model assumes the two agree.
- `ViewProperties.RepeatedUpdateIsIdempotent`: holds here for every configuration because the model's `parseInt` always yields an integer. In the source, a non-numeric `lineThickness` gives `NaN` at line 174, the comparison at line 175 is then always unequal, and every update rebuilds, so the source is not idempotent for such a configuration.
