/** The view updater: the Render State kept across updates, the decision
    whether to rebuild the map layers, and the effects on the map, recorded
    as a log of abstract operations. */
module View {
  import opened Host
  import opened Tiles
  import opened Formatter
  import opened MarkerSelection
  import opened Drilldown

  /** What an update asks of the map library and the overlay. */
  datatype Op =
    | CreateMap(url: string, attribution: Option<string>, lat: string, lon: string, zoom: string,
                lineThickness: int, scrollWheelZoom: bool)
    | RebuildLayers(url: string, attribution: Option<string>, lineThickness: int)
    | SetView(lat: string, lon: string, zoom: string)
    | SetZoomOptions(minZoom: int, maxZoom: int)
    | SetZoom(level: number)
    | FireZoomEnd
    | ClearMarkers
    | AddMarkersGroup
    | AddMarker(at: Coord, text: string, tooltipOpen: bool, clickEdge: Option<Edge>)
    | SetData(edges: seq<Edge>)
    | Pause

  /** The settings one update reads from the configuration. */
  datatype Request = Request(
    tiles: TileConfig,
    lat: string,
    lon: string,
    zoom: string,
    showLabels: bool,
    lineThickness: int,
    scrollWheelZoom: bool,
    drilldown: bool)

  function RequestFor(h: Helpers, cfg: Config): (rq: Request)
    requires KnownTileSet(h, cfg)
    ensures rq.tiles == ResolveTiles(h, cfg)
    ensures EscapedProperty(h, cfg, "mapLatitude") == "" ==> rq.lat == "35"
    ensures EscapedProperty(h, cfg, "mapLongitude") == "" ==> rq.lon == "-95"
    ensures EscapedProperty(h, cfg, "mapZoom") == "" ==> rq.zoom == "5"
    ensures EscapedProperty(h, cfg, "mapLatitude") != "" ==> rq.lat == EscapedProperty(h, cfg, "mapLatitude")
    ensures EscapedProperty(h, cfg, "mapLongitude") != "" ==> rq.lon == EscapedProperty(h, cfg, "mapLongitude")
    ensures EscapedProperty(h, cfg, "mapZoom") != "" ==> rq.zoom == EscapedProperty(h, cfg, "mapZoom")
    ensures EscapedProperty(h, cfg, "showLabels") == "" ==> rq.showLabels
    ensures EscapedProperty(h, cfg, "scrollWheelZoom") == "" ==> rq.scrollWheelZoom
    ensures rq.lineThickness == LineThickness(h, cfg)
    ensures rq.drilldown == IsEnabledDrilldown(cfg)
  {
    Request(
      ResolveTiles(h, cfg),
      Or(EscapedProperty(h, cfg, "mapLatitude"), "35"),
      Or(EscapedProperty(h, cfg, "mapLongitude"), "-95"),
      Or(EscapedProperty(h, cfg, "mapZoom"), "5"),
      BooleanProperty(h, cfg, "showLabels"),
      LineThickness(h, cfg),
      BooleanProperty(h, cfg, "scrollWheelZoom"),
      IsEnabledDrilldown(cfg))
  }

  /** The zoom level the map takes from a zoom setting. */
  function ZoomLevel(h: Helpers, zoom: string): number
  {
    h.parseFloat(zoom)
  }

  /** The Render State, with the map's current zoom and whether a marker
      group exists; `None` stands for a field never assigned. */
  datatype ViewState = ViewState(
    isInitializedDom: bool,
    activeTileset: Option<string>,
    activeLineThickness: Option<int>,
    activeShowLabels: Option<bool>,
    lat: Option<string>,
    lon: Option<string>,
    zoom: Option<string>,
    useDrilldown: bool,
    hasMarkersGroup: bool,
    mapZoom: number)

  /** The state right after `initialize`. */
  function Initial(): ViewState
  {
    ViewState(false, None, None, None, None, None, None, false, false, 0.0)
  }

  /** The Render State's own consistency: the three active values are set
      together, only once the map exists, and the recorded view only with them. */
  predicate Consistent(s: ViewState)
  {
    && (s.activeTileset.Some? <==> s.activeLineThickness.Some?)
    && (s.activeTileset.Some? <==> s.activeShowLabels.Some?)
    && (s.activeTileset.Some? ==> s.isInitializedDom)
    && (s.lat.Some? <==> s.lon.Some?)
    && (s.lat.Some? <==> s.zoom.Some?)
    && (s.lat.Some? ==> s.activeTileset.Some?)
  }

  datatype Flags = Flags(tiles: bool, lineWidth: bool, bounds: bool, showLabels: bool)

  /** The four dirty flags of an update: nothing is dirty exactly when the
      map already shows the requested tiles, line width and view, and the
      label setting is either not yet recorded or unchanged. */
  function DirtyFlags(s: ViewState, rq: Request): (f: Flags)
    ensures !AnyDirty(f) <==>
      && s.activeTileset == Some(rq.tiles.url)
      && s.activeLineThickness == Some(rq.lineThickness)
      && (s.lat, s.lon, s.zoom) == (Some(rq.lat), Some(rq.lon), Some(rq.zoom))
      && (s.activeShowLabels.None? || s.activeShowLabels == Some(rq.showLabels))
  {
    Flags(
      s.activeTileset != Some(rq.tiles.url),
      s.activeLineThickness != Some(rq.lineThickness),
      s.lat != Some(rq.lat) || s.lon != Some(rq.lon) || s.zoom != Some(rq.zoom),
      if s.activeShowLabels.Some? then rq.showLabels != s.activeShowLabels.value else false)
  }

  predicate AnyDirty(f: Flags)
  {
    f.tiles || f.lineWidth || f.bounds || f.showLabels
  }

  /** The zoom clamp after a rebuild: the new map zoom and the calls made. */
  function SettleZoom(z: number, t: TileConfig): (r: (number, seq<Op>))
    ensures t.minZoom <= t.maxZoom ==>
      t.minZoom as number <= r.0 <= t.maxZoom as number && |r.1| == 2 &&
      r.1[0] == SetZoomOptions(t.minZoom, t.maxZoom)
    ensures t.minZoom <= t.maxZoom && t.minZoom as number <= z <= t.maxZoom as number ==> r.0 == z
    ensures t.maxZoom < t.minZoom ==> r == (z, [])
  {
    if t.minZoom <= t.maxZoom then
      if z > t.maxZoom as number then (t.maxZoom as number, [SetZoomOptions(t.minZoom, t.maxZoom), SetZoom(t.maxZoom as number)])
      else if z < t.minZoom as number then (t.minZoom as number, [SetZoomOptions(t.minZoom, t.maxZoom), SetZoom(t.minZoom as number)])
      else (z, [SetZoomOptions(t.minZoom, t.maxZoom), FireZoomEnd])
    else (z, [])
  }

  /** A rebuild of the overlay and the tile layer. */
  function Rebuild(h: Helpers, s: ViewState, rq: Request): (r: (ViewState, seq<Op>))
  {
    var bounds := DirtyFlags(s, rq).bounds;
    var z := if bounds then ZoomLevel(h, rq.zoom) else s.mapZoom;
    var settled := SettleZoom(z, rq.tiles);
    (s.(lat := if bounds then Some(rq.lat) else s.lat,
        lon := if bounds then Some(rq.lon) else s.lon,
        zoom := if bounds then Some(rq.zoom) else s.zoom,
        mapZoom := settled.0,
        activeTileset := Some(rq.tiles.url),
        activeLineThickness := Some(rq.lineThickness),
        activeShowLabels := Some(rq.showLabels)),
     [RebuildLayers(rq.tiles.url, rq.tiles.attribution, rq.lineThickness)]
     + (if bounds then [SetView(rq.lat, rq.lon, rq.zoom)] else [])
     + settled.1)
  }

  /** The layer part of an update: create the map the first time, rebuild
      when a flag is set, otherwise nothing. */
  function LayerPhase(h: Helpers, s: ViewState, rq: Request): (r: (ViewState, seq<Op>))
    ensures r.0.isInitializedDom
    ensures r.0.hasMarkersGroup == s.hasMarkersGroup && r.0.useDrilldown == s.useDrilldown
    ensures !s.isInitializedDom ==> |r.1| == 1 && r.1[0].CreateMap?
    ensures s.isInitializedDom ==> (r.1 != [] <==> AnyDirty(DirtyFlags(s, rq)))
  {
    if !s.isInitializedDom then
      (s.(isInitializedDom := true, mapZoom := ZoomLevel(h, rq.zoom)),
       [CreateMap(rq.tiles.url, rq.tiles.attribution, rq.lat, rq.lon, rq.zoom, rq.lineThickness, rq.scrollWheelZoom)])
    else if AnyDirty(DirtyFlags(s, rq)) then Rebuild(h, s, rq)
    else (s, [])
  }

  /** One marker: transparent, with its tooltip open when labels are shown;
      an origin marker carries its edge for the drilldown click. */
  function MarkerOp(h: Helpers, e: Edge, end: End, showLabels: bool): Op
  {
    AddMarker(Point(e, end), MarkerText(h, e, end), showLabels, if end == Origin then Some(e) else None)
  }

  function MarkerOps(h: Helpers, ms: seq<Edge>, end: End, showLabels: bool): (ops: seq<Op>)
  {
    if ms == [] then [] else MarkerOps(h, ms[..|ms| - 1], end, showLabels) + [MarkerOp(h, ms[|ms| - 1], end, showLabels)]
  }

  /** Clearing the previous marker group, if any, and adding a fresh one. */
  function OpenMarkersGroup(hadGroup: bool): seq<Op>
  {
    if hadGroup then [ClearMarkers, AddMarkersGroup] else [AddMarkersGroup]
  }

  /** The marker part of an update, which always runs. */
  function MarkerPhase(h: Helpers, hadGroup: bool, es: seq<Edge>, showLabels: bool): seq<Op>
  {
    DrawPhase(h, hadGroup, Markers(es, Destination), Markers(es, Origin), es, showLabels)
  }

  /** The marker part for given destination and origin marker lists. */
  function DrawPhase(h: Helpers, hadGroup: bool, dests: seq<Edge>, origins: seq<Edge>, es: seq<Edge>, showLabels: bool): seq<Op>
  {
    OpenMarkersGroup(hadGroup)
    + MarkerOps(h, dests, Destination, showLabels)
    + MarkerOps(h, origins, Origin, showLabels)
    + [SetData(es), Pause]
  }

  /** The specification of `updateView`: the next state and the effects. */
  function Step(h: Helpers, s: ViewState, data: Option<Formatted>, cfg: Config): (r: (ViewState, seq<Op>))
    requires data.Some? ==> KnownTileSet(h, cfg)
    ensures data.None? ==> r == (s, [])
    ensures data.Some? ==>
      r.0.isInitializedDom && r.0.hasMarkersGroup && r.0.useDrilldown == IsEnabledDrilldown(cfg)
  {
    if data.None? then (s, []) else Apply(h, s, data.value.formatted, RequestFor(h, cfg))
  }

  /** An update with data, once the settings have been read. */
  function Apply(h: Helpers, s: ViewState, es: seq<Edge>, rq: Request): (r: (ViewState, seq<Op>))
  {
    var layers := LayerPhase(h, s, rq);
    (layers.0.(useDrilldown := rq.drilldown, hasMarkersGroup := true),
     layers.1 + MarkerPhase(h, s.hasMarkersGroup, es, rq.showLabels))
  }

  /** `Step` with data, split into its layer and marker parts. */
  lemma StepParts(h: Helpers, s: ViewState, data: Formatted, cfg: Config)
    requires KnownTileSet(h, cfg)
    ensures var rq := RequestFor(h, cfg);
      Step(h, s, Some(data), cfg) ==
        (LayerPhase(h, s, rq).0.(useDrilldown := rq.drilldown, hasMarkersGroup := true),
         LayerPhase(h, s, rq).1 + MarkerPhase(h, s.hasMarkersGroup, data.formatted, rq.showLabels))
  {
  }

  /** The layer decision does not look at the drilldown setting. */
  lemma LayerPhaseIgnoresDrilldown(h: Helpers, s: ViewState, rq: Request, d: bool)
    ensures LayerPhase(h, s.(useDrilldown := d), rq).0 == LayerPhase(h, s, rq).0.(useDrilldown := d)
    ensures LayerPhase(h, s.(useDrilldown := d), rq).1 == LayerPhase(h, s, rq).1
  {
    assert DirtyFlags(s.(useDrilldown := d), rq) == DirtyFlags(s, rq);
  }

  lemma AppendAssociates<T>(a: seq<T>, b: seq<T>, c: seq<T>)
    ensures (a + b) + c == a + (b + c)
  {
  }

  class MissileMap {
    var isInitializedDom: bool
    var activeTileset: Option<string>
    var activeLineThickness: Option<int>
    var activeShowLabels: Option<bool>
    var lat: Option<string>
    var lon: Option<string>
    var zoom: Option<string>
    var useDrilldown: bool
    var hasMarkersGroup: bool
    /** The map's current zoom level. */
    var mapZoom: number
    /** Every call made on the map library and the overlay so far. */
    var log: seq<Op>

    function State(): ViewState
      reads this
    {
      ViewState(isInitializedDom, activeTileset, activeLineThickness, activeShowLabels,
                lat, lon, zoom, useDrilldown, hasMarkersGroup, mapZoom)
    }

    /** `initialize`. */
    constructor ()
      ensures State() == Initial() && log == []
    {
      isInitializedDom := false;
      activeTileset, activeLineThickness, activeShowLabels := None, None, None;
      lat, lon, zoom := None, None, None;
      useDrilldown, hasMarkersGroup := false, false;
      mapZoom := 0.0;
      log := [];
    }

    /** The `forEach` that adds one end's markers to the group. */
    method AddMarkers(h: Helpers, ms: seq<Edge>, end: End, showLabels: bool)
      modifies this`log
      ensures log == old(log) + MarkerOps(h, ms, end, showLabels)
    {
      for i := 0 to |ms|
        invariant log == old(log) + MarkerOps(h, ms[..i], end, showLabels)
      {
        assert ms[..i + 1][..i] == ms[..i];
        log := log + [MarkerOp(h, ms[i], end, showLabels)];
      }
      assert ms[..|ms|] == ms;
    }

    /** The zoom clamp after a rebuild, against the resolved bounds. */
    method ClampZoom(t: TileConfig)
      modifies this
      ensures State() == old(State()).(mapZoom := SettleZoom(old(mapZoom), t).0)
      ensures log == old(log) + SettleZoom(old(mapZoom), t).1
    {
      var minZoom, maxZoom := t.minZoom, t.maxZoom;
      if minZoom <= maxZoom {
        if mapZoom > maxZoom as number {
          log := log + [SetZoomOptions(minZoom, maxZoom), SetZoom(maxZoom as number)];
          mapZoom := maxZoom as number;
        } else if mapZoom < minZoom as number {
          log := log + [SetZoomOptions(minZoom, maxZoom), SetZoom(minZoom as number)];
          mapZoom := minZoom as number;
        } else {
          log := log + [SetZoomOptions(minZoom, maxZoom), FireZoomEnd];
        }
      }
    }

    /** The rebuild branch of `updateView`: a new overlay and tile layer,
        a `setView` when the bounds changed, the zoom clamp, and the
        settings recorded as active. */
    method Redraw(h: Helpers, rq: Request, bounds: bool)
      requires bounds == DirtyFlags(State(), rq).bounds
      modifies this
      ensures State() == Rebuild(h, old(State()), rq).0
      ensures log == old(log) + Rebuild(h, old(State()), rq).1
    {
      ghost var viewOps: seq<Op> := if bounds then [SetView(rq.lat, rq.lon, rq.zoom)] else [];
      var rebuilt := [RebuildLayers(rq.tiles.url, rq.tiles.attribution, rq.lineThickness)];
      log := log + rebuilt;
      if bounds {
        log := log + [SetView(rq.lat, rq.lon, rq.zoom)];
        mapZoom := ZoomLevel(h, rq.zoom);
        lat, lon, zoom := Some(rq.lat), Some(rq.lon), Some(rq.zoom);
      }
      AppendAssociates(old(log), rebuilt, viewOps);
      ghost var z := mapZoom;
      ClampZoom(rq.tiles);
      AppendAssociates(old(log), rebuilt + viewOps, SettleZoom(z, rq.tiles).1);
      activeTileset := Some(rq.tiles.url);
      activeLineThickness := Some(rq.lineThickness);
      activeShowLabels := Some(rq.showLabels);
    }

    /** The layer part of `updateView`, given the settings read and the
        four flags computed from them. */
    method UpdateLayers(h: Helpers, rq: Request, flags: Flags)
      requires flags == DirtyFlags(State(), rq)
      modifies this
      ensures State() == LayerPhase(h, old(State()), rq).0
      ensures log == old(log) + LayerPhase(h, old(State()), rq).1
    {
      if !isInitializedDom {
        log := log + [CreateMap(rq.tiles.url, rq.tiles.attribution, rq.lat, rq.lon, rq.zoom, rq.lineThickness, rq.scrollWheelZoom)];
        mapZoom := ZoomLevel(h, rq.zoom);
        isInitializedDom := true;
      } else if flags.tiles || flags.lineWidth || flags.bounds || flags.showLabels {
        Redraw(h, rq, flags.bounds);
      }
    }

    /** Clearing the previous marker group and adding a fresh one. */
    method OpenGroup()
      modifies this
      ensures State() == old(State()).(hasMarkersGroup := true)
      ensures log == old(log) + OpenMarkersGroup(old(hasMarkersGroup))
    {
      if hasMarkersGroup {
        log := log + [ClearMarkers];
      }
      hasMarkersGroup := true;
      log := log + [AddMarkersGroup];
    }

    /** The marker part of `updateView`: a fresh group, destinations first
        so that the clickable origin markers lie on top, then the edges
        handed to the overlay, which is paused. */
    method DrawMarkers(h: Helpers, formatted: seq<Edge>, showLabels: bool)
      modifies this
      ensures State() == old(State()).(hasMarkersGroup := true)
      ensures log == old(log) + MarkerPhase(h, old(hasMarkersGroup), formatted, showLabels)
    {
      ghost var opening := OpenMarkersGroup(hasMarkersGroup);
      OpenGroup();
      var markersDest := DistinctMarkers(formatted, Destination);
      ghost var dest := MarkerOps(h, markersDest, Destination, showLabels);
      AddMarkers(h, markersDest, Destination, showLabels);
      AppendAssociates(old(log), opening, dest);
      var markersSrc := DistinctMarkers(formatted, Origin);
      ghost var src := MarkerOps(h, markersSrc, Origin, showLabels);
      AddMarkers(h, markersSrc, Origin, showLabels);
      AppendAssociates(old(log), opening + dest, src);
      // The local `animated` is never set, so the overlay is always paused.
      log := log + [SetData(formatted), Pause];
      AppendAssociates(old(log), opening + dest + src, [SetData(formatted), Pause]);
    }

    /** `updateView`. */
    method UpdateView(h: Helpers, data: Option<Formatted>, cfg: Config)
      requires data.Some? ==> KnownTileSet(h, cfg)
      modifies this
      ensures State() == Step(h, old(State()), data, cfg).0
      ensures log == old(log) + Step(h, old(State()), data, cfg).1
    {
      if data.None? {
        return;
      }
      var rq := RequestFor(h, cfg);
      Render(h, data.value.formatted, rq);
    }

    /** The body of `updateView` once the settings have been read: the
        layers, then the markers. */
    method Render(h: Helpers, formatted: seq<Edge>, rq: Request)
      modifies this
      ensures State() == Apply(h, old(State()), formatted, rq).0
      ensures log == old(log) + Apply(h, old(State()), formatted, rq).1
    {
      ghost var layers := LayerPhase(h, State(), rq);
      ghost var marks := MarkerPhase(h, hasMarkersGroup, formatted, rq.showLabels);
      UpdateSettings(h, rq);
      DrawMarkers(h, formatted, rq.showLabels);
      AppendAssociates(old(log), layers.1, marks);
    }

    /** The drilldown flag, the dirty flags, and the layer part. */
    method UpdateSettings(h: Helpers, rq: Request)
      modifies this
      ensures State() == LayerPhase(h, old(State()), rq).0.(useDrilldown := rq.drilldown)
      ensures log == old(log) + LayerPhase(h, old(State()), rq).1
    {
      var s := State();
      var flags := DirtyFlags(s, rq);
      useDrilldown := rq.drilldown;
      LayerPhaseIgnoresDrilldown(h, s, rq, rq.drilldown);
      UpdateLayers(h, rq, flags);
    }
  }
}
