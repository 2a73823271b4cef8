/** What the view updater promises across updates, stated about its
    specification `Step`. */
module ViewProperties {
  import opened Host
  import opened Tiles
  import opened Formatter
  import opened MarkerSelection
  import opened View

  /** The calls of the marker part: never a layer, view or zoom call. */
  predicate MarkerCall(op: Op)
  {
    op.ClearMarkers? || op.AddMarkersGroup? || op.AddMarker? || op.SetData? || op.Pause?
  }

  /** Every marker call of one end: markers of that end, in list order. */
  lemma {:induction false} MarkerOpsAt(h: Helpers, ms: seq<Edge>, end: End, showLabels: bool)
    ensures |MarkerOps(h, ms, end, showLabels)| == |ms|
    ensures forall i :: 0 <= i < |ms| ==> MarkerOps(h, ms, end, showLabels)[i] == MarkerOp(h, ms[i], end, showLabels)
  {
    if ms != [] {
      var init := ms[..|ms| - 1];
      MarkerOpsAt(h, init, end, showLabels);
      var ops := MarkerOps(h, ms, end, showLabels);
      assert ops == MarkerOps(h, init, end, showLabels) + [MarkerOp(h, ms[|ms| - 1], end, showLabels)];
      forall i | 0 <= i < |init| ensures ops[i] == MarkerOp(h, ms[i], end, showLabels) {
        assert init[i] == ms[i];
      }
    }
  }

  /** Every call of one end adds a marker, and it carries a drilldown edge
      exactly when the end is the origin. */
  lemma MarkerOpsEnd(h: Helpers, ms: seq<Edge>, end: End, showLabels: bool)
    ensures forall i :: 0 <= i < |MarkerOps(h, ms, end, showLabels)| ==>
      MarkerOps(h, ms, end, showLabels)[i].AddMarker? &&
      (MarkerOps(h, ms, end, showLabels)[i].clickEdge.Some? <==> end == Origin)
  {
    MarkerOpsAt(h, ms, end, showLabels);
  }

  predicate MarkerCalls(ops: seq<Op>)
  {
    forall i :: 0 <= i < |ops| ==> MarkerCall(ops[i])
  }

  lemma MarkerCallsAppend(a: seq<Op>, b: seq<Op>)
    requires MarkerCalls(a) && MarkerCalls(b)
    ensures MarkerCalls(a + b)
  {
    forall i | 0 <= i < |a + b| ensures MarkerCall((a + b)[i]) {
      if i >= |a| { assert (a + b)[i] == b[i - |a|]; }
    }
  }

  lemma MarkerPhaseCalls(h: Helpers, hadGroup: bool, es: seq<Edge>, showLabels: bool)
    ensures MarkerCalls(MarkerPhase(h, hadGroup, es, showLabels))
    ensures MarkerPhase(h, hadGroup, es, showLabels)[0] == if hadGroup then ClearMarkers else AddMarkersGroup
  {
    DrawPhaseCalls(h, hadGroup, Markers(es, Destination), Markers(es, Origin), es, showLabels);
  }

  lemma DrawPhaseCalls(h: Helpers, hadGroup: bool, dests: seq<Edge>, origins: seq<Edge>, es: seq<Edge>, showLabels: bool)
    ensures MarkerCalls(DrawPhase(h, hadGroup, dests, origins, es, showLabels))
    ensures DrawPhase(h, hadGroup, dests, origins, es, showLabels)[0] == if hadGroup then ClearMarkers else AddMarkersGroup
  {
    var dest := MarkerOps(h, dests, Destination, showLabels);
    var orig := MarkerOps(h, origins, Origin, showLabels);
    MarkerOpsEnd(h, dests, Destination, showLabels);
    MarkerOpsEnd(h, origins, Origin, showLabels);
    MarkerCallsAppend(OpenMarkersGroup(hadGroup), dest);
    MarkerCallsAppend(OpenMarkersGroup(hadGroup) + dest, orig);
    MarkerCallsAppend(OpenMarkersGroup(hadGroup) + dest + orig, [SetData(es), Pause]);
  }

  /** The first update with data creates the map, and records no active
      values and no view. */
  lemma FirstUpdateCreatesMap(h: Helpers, s: ViewState, data: Formatted, cfg: Config)
    requires KnownTileSet(h, cfg) && !s.isInitializedDom
    ensures var rq := RequestFor(h, cfg);
            var (s', ops) := Step(h, s, Some(data), cfg);
      && s'.isInitializedDom
      && ops[0] == CreateMap(rq.tiles.url, rq.tiles.attribution, rq.lat, rq.lon, rq.zoom,
                             rq.lineThickness, rq.scrollWheelZoom)
      && MarkerCalls(ops[1..])
      && s'.activeTileset == s.activeTileset && s'.activeLineThickness == s.activeLineThickness
      && s'.activeShowLabels == s.activeShowLabels
      && s'.lat == s.lat && s'.lon == s.lon && s'.zoom == s.zoom
  {
    var rq := RequestFor(h, cfg);
    MarkerPhaseCalls(h, s.hasMarkersGroup, data.formatted, rq.showLabels);
  }

  /** A rebuild makes no `CreateMap` call. */
  lemma LayerPhaseCreatesOnlyFirst(h: Helpers, s: ViewState, rq: Request)
    requires s.isInitializedDom
    ensures NoCreateCall(LayerPhase(h, s, rq).1)
  {
    if AnyDirty(DirtyFlags(s, rq)) {
      var bounds := DirtyFlags(s, rq).bounds;
      var z := if bounds then ZoomLevel(h, rq.zoom) else s.mapZoom;
      var head := [RebuildLayers(rq.tiles.url, rq.tiles.attribution, rq.lineThickness)]
                  + (if bounds then [SetView(rq.lat, rq.lon, rq.zoom)] else []);
      var settled := SettleZoom(z, rq.tiles);
      assert LayerPhase(h, s, rq).1 == head + settled.1;
      forall i | 0 <= i < |head + settled.1| ensures !(head + settled.1)[i].CreateMap? {
        if i >= |head| { assert (head + settled.1)[i] == settled.1[i - |head|]; }
      }
    }
  }

  predicate NoCreateCall(ops: seq<Op>)
  {
    forall i :: 0 <= i < |ops| ==> !ops[i].CreateMap?
  }

  lemma NoCreateCallAppend(a: seq<Op>, b: seq<Op>)
    requires NoCreateCall(a) && NoCreateCall(b)
    ensures NoCreateCall(a + b)
  {
    forall i | 0 <= i < |a + b| ensures !(a + b)[i].CreateMap? {
      if i >= |a| { assert (a + b)[i] == b[i - |a|]; }
    }
  }

  /** The map is created only once: after it exists, no update creates it
      again, and it stays created. */
  lemma NoSecondInitialization(h: Helpers, s: ViewState, data: Formatted, cfg: Config)
    requires KnownTileSet(h, cfg) && s.isInitializedDom
    ensures Step(h, s, Some(data), cfg).0.isInitializedDom
    ensures NoCreateCall(Step(h, s, Some(data), cfg).1)
  {
    var rq := RequestFor(h, cfg);
    StepParts(h, s, data, cfg);
    LayerPhaseCreatesOnlyFirst(h, s, rq);
    MarkerPhaseCalls(h, s.hasMarkersGroup, data.formatted, rq.showLabels);
    NoCreateCallAppend(LayerPhase(h, s, rq).1, MarkerPhase(h, s.hasMarkersGroup, data.formatted, rq.showLabels));
  }

  /** Hence the update after the very first one always rebuilds. */
  lemma SecondUpdateRebuilds(h: Helpers, data: Formatted, cfg: Config, data2: Formatted, cfg2: Config)
    requires KnownTileSet(h, cfg) && KnownTileSet(h, cfg2)
    ensures var s1 := Step(h, Initial(), Some(data), cfg).0;
      && s1.isInitializedDom
      && AnyDirty(DirtyFlags(s1, RequestFor(h, cfg2)))
      && Step(h, s1, Some(data2), cfg2).1[0].RebuildLayers?
  {
  }

  /** Once the map exists, an update rebuilds the layers exactly when one
      of the four flags is set. */
  lemma RebuildIffDirty(h: Helpers, s: ViewState, data: Formatted, cfg: Config)
    requires KnownTileSet(h, cfg) && s.isInitializedDom
    ensures var ops := Step(h, s, Some(data), cfg).1;
      ops[0].RebuildLayers? <==> AnyDirty(DirtyFlags(s, RequestFor(h, cfg)))
    ensures var ops := Step(h, s, Some(data), cfg).1;
      !AnyDirty(DirtyFlags(s, RequestFor(h, cfg))) ==> MarkerCalls(ops)
  {
    MarkerPhaseCalls(h, s.hasMarkersGroup, data.formatted, RequestFor(h, cfg).showLabels);
  }

  /** The labels flag stays clear until a rebuild has recorded a labels value. */
  lemma ShowLabelsIgnoredUntilActive(s: ViewState, rq: Request)
    requires s.activeShowLabels.None?
    ensures !DirtyFlags(s, rq).showLabels
  {
  }

  /** A rebuild records the requested tiles, thickness and labels, and the
      requested view only when the bounds flag was set. */
  lemma RebuildRecordsRequest(h: Helpers, s: ViewState, data: Formatted, cfg: Config)
    requires KnownTileSet(h, cfg) && s.isInitializedDom
    requires AnyDirty(DirtyFlags(s, RequestFor(h, cfg)))
    ensures var rq := RequestFor(h, cfg);
            var s' := Step(h, s, Some(data), cfg).0;
            var bounds := DirtyFlags(s, rq).bounds;
      && s'.activeTileset == Some(rq.tiles.url)
      && s'.activeLineThickness == Some(rq.lineThickness)
      && s'.activeShowLabels == Some(rq.showLabels)
      && (bounds ==> s'.lat == Some(rq.lat) && s'.lon == Some(rq.lon) && s'.zoom == Some(rq.zoom))
      && (!bounds ==> s'.lat == s.lat && s'.lon == s.lon && s'.zoom == s.zoom)
      && s'.lat == Some(rq.lat) && s'.lon == Some(rq.lon) && s'.zoom == Some(rq.zoom)
  {
  }

  /** Without a rebuild the Render State and the map zoom stay as they were. */
  lemma NoRebuildKeepsState(h: Helpers, s: ViewState, data: Formatted, cfg: Config)
    requires KnownTileSet(h, cfg) && s.isInitializedDom
    requires !AnyDirty(DirtyFlags(s, RequestFor(h, cfg)))
    ensures Step(h, s, Some(data), cfg).0 ==
      s.(useDrilldown := RequestFor(h, cfg).drilldown, hasMarkersGroup := true)
  {
  }

  /** The zoom clamp of one rebuild, followed by any further calls. */
  lemma RebuildZoomCalls(h: Helpers, s: ViewState, rq: Request, rest: seq<Op>)
    requires s.isInitializedDom && AnyDirty(DirtyFlags(s, rq))
    requires rq.tiles.minZoom <= rq.tiles.maxZoom
    ensures var s' := LayerPhase(h, s, rq).0;
            var ops := LayerPhase(h, s, rq).1 + rest;
            var z := if DirtyFlags(s, rq).bounds then ZoomLevel(h, rq.zoom) else s.mapZoom;
            var k := if DirtyFlags(s, rq).bounds then 2 else 1;
      && rq.tiles.minZoom as number <= s'.mapZoom <= rq.tiles.maxZoom as number
      && ops[k] == SetZoomOptions(rq.tiles.minZoom, rq.tiles.maxZoom)
      && (z > rq.tiles.maxZoom as number ==>
            s'.mapZoom == rq.tiles.maxZoom as number && ops[k + 1] == SetZoom(rq.tiles.maxZoom as number))
      && (z < rq.tiles.minZoom as number ==>
            s'.mapZoom == rq.tiles.minZoom as number && ops[k + 1] == SetZoom(rq.tiles.minZoom as number))
      && (rq.tiles.minZoom as number <= z <= rq.tiles.maxZoom as number ==>
            s'.mapZoom == z && ops[k + 1] == FireZoomEnd)
  {
    var bounds := DirtyFlags(s, rq).bounds;
    var z := if bounds then ZoomLevel(h, rq.zoom) else s.mapZoom;
    var head := [RebuildLayers(rq.tiles.url, rq.tiles.attribution, rq.lineThickness)]
                + (if bounds then [SetView(rq.lat, rq.lon, rq.zoom)] else []);
    var settled := SettleZoom(z, rq.tiles);
    assert LayerPhase(h, s, rq) == Rebuild(h, s, rq);
    assert Rebuild(h, s, rq).1 == head + settled.1;
    assert |settled.1| == 2;
    AppendAssociates(head, settled.1, rest);
    assert (head + (settled.1 + rest))[|head|] == settled.1[0];
    assert (head + (settled.1 + rest))[|head| + 1] == settled.1[1];
  }

  /** The zoom clamp: after a rebuild the map zoom lies within the resolved
      bounds; a zoom above the maximum is set to it, one below the minimum
      is raised to it, and otherwise `zoomend` is fired. */
  lemma RebuildClampsZoom(h: Helpers, s: ViewState, data: Formatted, cfg: Config)
    requires KnownTileSet(h, cfg) && s.isInitializedDom
    requires AnyDirty(DirtyFlags(s, RequestFor(h, cfg)))
    ensures var rq := RequestFor(h, cfg);
            var (s', ops) := Step(h, s, Some(data), cfg);
            var z := if DirtyFlags(s, rq).bounds then ZoomLevel(h, rq.zoom) else s.mapZoom;
            var k := if DirtyFlags(s, rq).bounds then 2 else 1;
      && rq.tiles.minZoom as number <= s'.mapZoom <= rq.tiles.maxZoom as number
      && ops[k] == SetZoomOptions(rq.tiles.minZoom, rq.tiles.maxZoom)
      && (z > rq.tiles.maxZoom as number ==>
            s'.mapZoom == rq.tiles.maxZoom as number && ops[k + 1] == SetZoom(rq.tiles.maxZoom as number))
      && (z < rq.tiles.minZoom as number ==>
            s'.mapZoom == rq.tiles.minZoom as number && ops[k + 1] == SetZoom(rq.tiles.minZoom as number))
      && (rq.tiles.minZoom as number <= z <= rq.tiles.maxZoom as number ==>
            s'.mapZoom == z && ops[k + 1] == FireZoomEnd)
  {
    var rq := RequestFor(h, cfg);
    StepParts(h, s, data, cfg);
    RebuildZoomCalls(h, s, rq, MarkerPhase(h, s.hasMarkersGroup, data.formatted, rq.showLabels));
  }

  /** Repeating an update with the same configuration rebuilds nothing and
      leaves the state as it is. */
  lemma RepeatedUpdateIsIdempotent(h: Helpers, s: ViewState, data: Formatted, data2: Formatted, cfg: Config)
    requires KnownTileSet(h, cfg) && s.isInitializedDom
    ensures var s1 := Step(h, s, Some(data), cfg).0;
      && !AnyDirty(DirtyFlags(s1, RequestFor(h, cfg)))
      && Step(h, s1, Some(data2), cfg).0 == s1
      && !Step(h, s1, Some(data2), cfg).1[0].RebuildLayers?
  {
    var rq := RequestFor(h, cfg);
    var s1 := Step(h, s, Some(data), cfg).0;
    if AnyDirty(DirtyFlags(s, rq)) {
      RebuildRecordsRequest(h, s, data, cfg);
    }
    RebuildIffDirty(h, s1, data2, cfg);
  }

  /** The Render State's consistency holds from `initialize` on. */
  lemma StepKeepsConsistent(h: Helpers, s: ViewState, data: Option<Formatted>, cfg: Config)
    requires data.Some? ==> KnownTileSet(h, cfg)
    requires Consistent(s)
    ensures Consistent(Step(h, s, data, cfg).0)
    ensures Consistent(Initial())
  {
    if data.Some? {
      var rq := RequestFor(h, cfg);
      LayerPhaseKeepsConsistent(h, s, rq);
      assert Step(h, s, data, cfg).0 == LayerPhase(h, s, rq).0.(useDrilldown := rq.drilldown, hasMarkersGroup := true);
    }
  }

  lemma LayerPhaseKeepsConsistent(h: Helpers, s: ViewState, rq: Request)
    requires Consistent(s)
    ensures Consistent(LayerPhase(h, s, rq).0)
  {
    if s.isInitializedDom && AnyDirty(DirtyFlags(s, rq)) {
      var t := Rebuild(h, s, rq).0;
      assert t.activeTileset.Some? && t.activeLineThickness.Some? && t.activeShowLabels.Some?;
      assert t.lat.Some? <==> t.lon.Some?;
      assert t.lat.Some? <==> t.zoom.Some?;
    }
  }

  lemma LayerPhaseAddsNoMarker(h: Helpers, s: ViewState, rq: Request)
    ensures forall i :: 0 <= i < |LayerPhase(h, s, rq).1| ==> !LayerPhase(h, s, rq).1[i].AddMarker?
  {
    if s.isInitializedDom && AnyDirty(DirtyFlags(s, rq)) {
      var bounds := DirtyFlags(s, rq).bounds;
      var z := if bounds then ZoomLevel(h, rq.zoom) else s.mapZoom;
      var head := [RebuildLayers(rq.tiles.url, rq.tiles.attribution, rq.lineThickness)]
                  + (if bounds then [SetView(rq.lat, rq.lon, rq.zoom)] else []);
      var settled := SettleZoom(z, rq.tiles);
      assert LayerPhase(h, s, rq).1 == head + settled.1;
      forall i | 0 <= i < |head + settled.1| ensures !(head + settled.1)[i].AddMarker? {
        if i >= |head| { assert (head + settled.1)[i] == settled.1[i - |head|]; }
      }
    }
  }

  /** Once a marker with a drilldown edge has been added, every later marker
      carries one too. */
  predicate OriginsLast(ops: seq<Op>)
  {
    forall i, j :: 0 <= i < j < |ops| && ops[i].AddMarker? && ops[j].AddMarker? && ops[i].clickEdge.Some? ==>
      ops[j].clickEdge.Some?
  }

  predicate NoMarkerCall(ops: seq<Op>)
  {
    forall i :: 0 <= i < |ops| ==> !ops[i].AddMarker?
  }

  lemma OriginsLastSplit(pre: seq<Op>, dest: seq<Op>, orig: seq<Op>, tail: seq<Op>)
    requires NoMarkerCall(pre) && NoMarkerCall(tail)
    requires forall i :: 0 <= i < |dest| ==> dest[i].AddMarker? && dest[i].clickEdge.None?
    requires forall i :: 0 <= i < |orig| ==> orig[i].AddMarker? && orig[i].clickEdge.Some?
    ensures OriginsLast(pre + dest + orig + tail)
  {
    var ops := pre + dest + orig + tail;
    var p, d, o := |pre|, |pre| + |dest|, |pre| + |dest| + |orig|;
    forall k | 0 <= k < p ensures ops[k] == pre[k] { }
    forall k | p <= k < d ensures ops[k] == dest[k - p] { }
    forall k | d <= k < o ensures ops[k] == orig[k - d] { }
    forall k | o <= k < |ops| ensures ops[k] == tail[k - o] { }
  }

  lemma DrawPhaseShape(h: Helpers, layers: seq<Op>, hadGroup: bool, dests: seq<Edge>, origins: seq<Edge>, es: seq<Edge>, showLabels: bool)
    ensures layers + DrawPhase(h, hadGroup, dests, origins, es, showLabels) ==
      (layers + OpenMarkersGroup(hadGroup))
      + MarkerOps(h, dests, Destination, showLabels)
      + MarkerOps(h, origins, Origin, showLabels)
      + [SetData(es), Pause]
  {
    var open := OpenMarkersGroup(hadGroup);
    var dest := MarkerOps(h, dests, Destination, showLabels);
    var orig := MarkerOps(h, origins, Origin, showLabels);
    var tail := [SetData(es), Pause];
    AppendAssociates(layers, open + dest + orig, tail);
    AppendAssociates(layers, open + dest, orig);
    AppendAssociates(layers, open, dest);
  }

  lemma DrawPhaseOriginsLast(h: Helpers, layers: seq<Op>, hadGroup: bool, dests: seq<Edge>, origins: seq<Edge>, es: seq<Edge>, showLabels: bool)
    requires NoMarkerCall(layers)
    ensures OriginsLast(layers + DrawPhase(h, hadGroup, dests, origins, es, showLabels))
  {
    var open := OpenMarkersGroup(hadGroup);
    DrawPhaseShape(h, layers, hadGroup, dests, origins, es, showLabels);
    MarkerOpsEnd(h, dests, Destination, showLabels);
    MarkerOpsEnd(h, origins, Origin, showLabels);
    forall i | 0 <= i < |layers + open| ensures !(layers + open)[i].AddMarker? {
      if i >= |layers| { assert (layers + open)[i] == open[i - |layers|]; }
    }
    OriginsLastSplit(layers + open, MarkerOps(h, dests, Destination, showLabels),
                     MarkerOps(h, origins, Origin, showLabels), [SetData(es), Pause]);
  }

  /** All destination markers are added before any origin marker, and only
      origin markers carry an edge for drilldown; the update ends by handing
      the edges to the missile layer and pausing it. */
  lemma DestinationsBeforeOrigins(h: Helpers, s: ViewState, data: Formatted, cfg: Config)
    requires KnownTileSet(h, cfg)
    ensures OriginsLast(Step(h, s, Some(data), cfg).1)
    ensures var ops := Step(h, s, Some(data), cfg).1;
      |ops| >= 2 && ops[|ops| - 2] == SetData(data.formatted) && ops[|ops| - 1] == Pause
  {
    var rq := RequestFor(h, cfg);
    var layers := LayerPhase(h, s, rq).1;
    var phase := MarkerPhase(h, s.hasMarkersGroup, data.formatted, rq.showLabels);
    assert Step(h, s, Some(data), cfg).1 == layers + phase;
    LayerPhaseAddsNoMarker(h, s, rq);
    var es := data.formatted;
    DrawPhaseOriginsLast(h, layers, s.hasMarkersGroup, Markers(es, Destination), Markers(es, Origin), es, rq.showLabels);
  }

  /** A rebuild that moves the view: one `setView`, right after the
      rebuild call, and none among the further calls. */
  lemma MoveViewCalls(h: Helpers, s: ViewState, rq: Request, rest: seq<Op>)
    requires s.isInitializedDom && DirtyFlags(s, rq).bounds
    requires forall i :: 0 <= i < |rest| ==> !rest[i].SetView?
    ensures var s' := LayerPhase(h, s, rq).0;
            var ops := LayerPhase(h, s, rq).1 + rest;
      && s'.lat == Some(rq.lat) && s'.lon == Some(rq.lon) && s'.zoom == Some(rq.zoom)
      && ops[1] == SetView(rq.lat, rq.lon, rq.zoom)
      && forall i :: 0 <= i < |ops| && ops[i].SetView? ==> i == 1
  {
    var z := ZoomLevel(h, rq.zoom);
    var head := [RebuildLayers(rq.tiles.url, rq.tiles.attribution, rq.lineThickness), SetView(rq.lat, rq.lon, rq.zoom)];
    var settled := SettleZoom(z, rq.tiles);
    assert LayerPhase(h, s, rq) == Rebuild(h, s, rq);
    assert Rebuild(h, s, rq).1 == head + settled.1;
    AppendAssociates(head, settled.1, rest);
    var tail := settled.1 + rest;
    var ops := head + tail;
    forall k | 2 <= k < |ops| ensures ops[k] == tail[k - 2] { }
    forall k | 0 <= k < |tail| ensures !tail[k].SetView? {
      if k >= |settled.1| { assert tail[k] == rest[k - |settled.1|]; }
    }
  }

  /** Once the map exists, an update whose view is unchanged makes no
      `setView` call and keeps the recorded view. */
  lemma KeptViewNoSetView(h: Helpers, s: ViewState, rq: Request)
    requires s.isInitializedDom && !DirtyFlags(s, rq).bounds
    ensures forall i :: 0 <= i < |LayerPhase(h, s, rq).1| ==> !LayerPhase(h, s, rq).1[i].SetView?
    ensures var s' := LayerPhase(h, s, rq).0;
      (s'.lat, s'.lon, s'.zoom) == (s.lat, s.lon, s.zoom)
  {
    if AnyDirty(DirtyFlags(s, rq)) {
      var settled := SettleZoom(s.mapZoom, rq.tiles);
      var ops := [RebuildLayers(rq.tiles.url, rq.tiles.attribution, rq.lineThickness)] + settled.1;
      assert LayerPhase(h, s, rq).1 == ops;
      forall i | 0 <= i < |ops| ensures !ops[i].SetView? {
        if i >= 1 { assert ops[i] == settled.1[i - 1]; }
      }
    }
  }

  /** An update that finds the bounds flag set moves the map with one
      `setView`, right after the rebuild call, and records the view. */
  lemma MoveViewStep(h: Helpers, s: ViewState, data: Formatted, cfg: Config)
    requires KnownTileSet(h, cfg) && s.isInitializedDom
    requires DirtyFlags(s, RequestFor(h, cfg)).bounds
    ensures var rq := RequestFor(h, cfg);
            var (s', ops) := Step(h, s, Some(data), cfg);
      && s'.lat == Some(rq.lat) && s'.lon == Some(rq.lon) && s'.zoom == Some(rq.zoom)
      && ops[1] == SetView(rq.lat, rq.lon, rq.zoom)
      && forall i :: 0 <= i < |ops| && ops[i].SetView? ==> i == 1
  {
    var rq := RequestFor(h, cfg);
    MoveViewApply(h, s, data.formatted, rq);
    assert Step(h, s, Some(data), cfg) == Apply(h, s, data.formatted, rq);
  }

  lemma MoveViewApply(h: Helpers, s: ViewState, es: seq<Edge>, rq: Request)
    requires s.isInitializedDom && DirtyFlags(s, rq).bounds
    ensures var (s', ops) := Apply(h, s, es, rq);
      && s'.lat == Some(rq.lat) && s'.lon == Some(rq.lon) && s'.zoom == Some(rq.zoom)
      && ops[1] == SetView(rq.lat, rq.lon, rq.zoom)
      && forall i :: 0 <= i < |ops| && ops[i].SetView? ==> i == 1
  {
    var rest := MarkerPhase(h, s.hasMarkersGroup, es, rq.showLabels);
    MarkerPhaseCalls(h, s.hasMarkersGroup, es, rq.showLabels);
    MoveViewCalls(h, s, rq, rest);
  }

  /** A new view: one update moves the map to the configured latitude 10,
      longitude 20 and zoom 3, with one `setView`, and records them. */
  lemma NewBoundsExample(h: Helpers, s: ViewState, data: Formatted, cfg: Config)
    requires KnownTileSet(h, cfg) && s.isInitializedDom
    requires RequestFor(h, cfg).lat == "10" && RequestFor(h, cfg).lon == "20" && RequestFor(h, cfg).zoom == "3"
    requires (s.lat, s.lon, s.zoom) != (Some("10"), Some("20"), Some("3"))
    ensures var (s', ops) := Step(h, s, Some(data), cfg);
      && s'.lat == Some("10") && s'.lon == Some("20") && s'.zoom == Some("3")
      && ops[1] == SetView("10", "20", "3")
      && forall i :: 0 <= i < |ops| && ops[i].SetView? ==> i == 1
  {
    assert DirtyFlags(s, RequestFor(h, cfg)).bounds;
    MoveViewStep(h, s, data, cfg);
  }

  /** A custom URL after a preset: the next update rebuilds on the custom
      URL with zoom bounds 1 to 19 and an empty attribution. */
  lemma CustomTilesExample(h: Helpers, s: ViewState, data: Formatted, cfg: Config)
    requires KnownTileSet(h, cfg) && s.isInitializedDom
    requires s.activeTileset == Some(TILE_PRESETS["satellite_tiles"].url)
    requires CustomTileSet(h, cfg) == "http://example/{z}/{x}/{y}"
    ensures Step(h, s, Some(data), cfg).1[0] ==
      RebuildLayers("http://example/{z}/{x}/{y}", Some(""), LineThickness(h, cfg))
    ensures RequestFor(h, cfg).tiles == TileConfig(1, 19, "http://example/{z}/{x}/{y}", Some(""))
  {
    var satellite := "http://server.arcgisonline.com/ArcGIS/rest/services/World_Imagery/MapServer/tile/{z}/{y}/{x}";
    assert TILE_PRESETS["satellite_tiles"].url == satellite;
    assert |"http://example/{z}/{x}/{y}"| != |satellite|;
  }
}
