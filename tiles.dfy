/** The tile preset table and the resolution of the tile configuration
    for one update. */
module Tiles {
  import opened Host

  /** A base map: zoom bounds, URL template and attribution text (the two
      Splunk presets have none). */
  datatype TileConfig = TileConfig(minZoom: int, maxZoom: int, url: string, attribution: Option<string>)

  const TILE_PRESETS: map<string, TileConfig> := map[
    "satellite_tiles" := TileConfig(1, 19,
      "http://server.arcgisonline.com/ArcGIS/rest/services/World_Imagery/MapServer/tile/{z}/{y}/{x}",
      Some("Tiles &copy; Esri &mdash; Source: Esri, i-cubed, USDA, USGS, AEX, GeoEye, Getmapping, Aerogrid, IGN, IGP, UPR-EGP, and the GIS User Community")),
    "openstreetmap_tiles" := TileConfig(1, 19,
      "http://{s}.tile.openstreetmap.org/{z}/{x}/{y}.png",
      Some("&copy; <a href=\"http://www.openstreetmap.org/copyright\">OpenStreetMap</a>")),
    "light_tiles" := TileConfig(1, 19,
      "http://{s}.basemaps.cartocdn.com/light_all/{z}/{x}/{y}.png",
      Some("&copy; <a href=\"http://www.openstreetmap.org/copyright\">OpenStreetMap</a> contributors, &copy; <a href=\"http://cartodb.com/attributions\">CartoDB</a>")),
    "dark_tiles" := TileConfig(1, 19,
      "http://{s}.basemaps.cartocdn.com/dark_all/{z}/{x}/{y}.png",
      Some("&copy; <a href=\"http://www.openstreetmap.org/copyright\">OpenStreetMap</a> contributors, &copy; <a href=\"http://cartodb.com/attributions\">CartoDB</a>")),
    "splunk" := TileConfig(1, 19, "/splunkd/__raw/services/mbtiles/splunk-tiles/{z}/{x}/{y}", None),
    "splunk_dark" := TileConfig(1, 19, "/splunkd/__raw/services/mbtiles/splunk-tiles-dark/{z}/{x}/{y}", None)
  ]

  const DEFAULT_TILESET := "splunk"

  /** The zoom bounds that a custom URL forces. */
  const CUSTOM_MIN_ZOOM := 1
  const CUSTOM_MAX_ZOOM := 19

  /** The preset key asked for: the `tileSet` property, `splunk` by default. */
  function TileSetKey(h: Helpers, cfg: Config): (key: string)
    ensures EscapedProperty(h, cfg, "tileSet") == "" ==> key == DEFAULT_TILESET
    ensures EscapedProperty(h, cfg, "tileSet") != "" ==> key == EscapedProperty(h, cfg, "tileSet")
  {
    Or(EscapedProperty(h, cfg, "tileSet"), DEFAULT_TILESET)
  }

  /** The custom URL override, empty when none is set. */
  function CustomTileSet(h: Helpers, cfg: Config): (url: string)
  {
    Or(EscapedProperty(h, cfg, "customTileSet"), "")
  }

  /** An update can only look up a key the preset table holds. */
  predicate KnownTileSet(h: Helpers, cfg: Config)
  {
    TileSetKey(h, cfg) in TILE_PRESETS
  }

  /** The tile configuration of one update: the preset, unless a custom URL
      replaces its URL and resets bounds and attribution. */
  function ResolveTiles(h: Helpers, cfg: Config): (t: TileConfig)
    requires KnownTileSet(h, cfg)
    ensures CustomTileSet(h, cfg) != "" ==>
      t == TileConfig(CUSTOM_MIN_ZOOM, CUSTOM_MAX_ZOOM, CustomTileSet(h, cfg), Some(""))
    ensures CustomTileSet(h, cfg) == "" ==> t == TILE_PRESETS[TileSetKey(h, cfg)]
    ensures t.minZoom == 1 && t.maxZoom == 19
  {
    var preset := TILE_PRESETS[TileSetKey(h, cfg)];
    var custom := CustomTileSet(h, cfg);
    if custom != "" then TileConfig(CUSTOM_MIN_ZOOM, CUSTOM_MAX_ZOOM, custom, Some(""))
    else preset
  }
}
