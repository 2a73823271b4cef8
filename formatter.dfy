/** The data formatter: search rows to a list of directed edges. */
module Formatter {
  import opened Host

  /** A raw search row: field name to field text.  A field the row lacks
      is absent from the map. */
  type Row = map<string, string>

  /** An entry of the declared schema. */
  datatype Field = Field(name: string)

  /** What the search hands over: the rows (possibly missing) and the
      declared schema. */
  datatype SearchData = SearchData(results: Option<seq<Row>>, fields: seq<Field>)

  /** A point as the overlay wants it, `[lon, lat]`. */
  datatype Coord = Coord(lon: number, lat: number)
  type number = real

  /** The configured line thickness, or the row's own `weight` text. */
  datatype Weight = Configured(thickness: int) | FromRow(text: string)

  datatype Edge = Edge(
    from: Coord,
    to: Coord,
    labels: (string, string),
    color: string,
    animate: bool,
    pulseAtStart: bool,
    weight: Weight)

  /** The formatter's result: the drilldown field list, the edges and the
      raw input. */
  datatype Formatted = Formatted(fields: seq<string>, formatted: seq<Edge>, raw: SearchData)

  /** Nothing to render, the schema error, or a formatted result. */
  datatype FormatOutcome = NothingToRender | Failure(message: string) | Success(result: Formatted)

  const REQUIRED_FIELDS: seq<string> := ["start_lat", "start_lon", "end_lat", "end_lon"]
  const DEFAULT_STATIC_COLOR := "#65a637"
  const MISSING_FIELDS_MESSAGE :=
    "This visualization requires the following fields [start_lat,start_lon,end_lat,end_lon]. Please check your SPL search."

  /** The `staticColor` property, `#65a637` when unset. */
  function StaticColor(h: Helpers, cfg: Config): (c: string)
    ensures EscapedProperty(h, cfg, "staticColor") == "" ==> c == DEFAULT_STATIC_COLOR
    ensures EscapedProperty(h, cfg, "staticColor") != "" ==> c == EscapedProperty(h, cfg, "staticColor")
  {
    Or(EscapedProperty(h, cfg, "staticColor"), DEFAULT_STATIC_COLOR)
  }

  /** Whether some schema entry carries the name. */
  function HasField(fields: seq<Field>, name: string): (found: bool)
  {
    fields != [] && (fields[0].name == name || HasField(fields[1..], name))
  }

  lemma {:induction false} HasFieldIff(fields: seq<Field>, name: string)
    ensures HasField(fields, name) <==> exists i :: 0 <= i < |fields| && fields[i].name == name
  {
    if fields != [] {
      HasFieldIff(fields[1..], name);
      if HasField(fields[1..], name) {
        var i :| 0 <= i < |fields[1..]| && fields[1..][i].name == name;
        assert fields[i + 1].name == name;
      }
      forall i | 1 <= i < |fields| && fields[i].name == name
        ensures HasField(fields[1..], name)
      {
        assert fields[1..][i - 1].name == name;
      }
    }
  }

  /** Every required field is named in the schema. */
  predicate HasRequiredFields(fields: seq<Field>)
  {
    forall j :: 0 <= j < |REQUIRED_FIELDS| ==> HasField(fields, REQUIRED_FIELDS[j])
  }

  /** No row to render: the rows are missing or there are none. */
  predicate NoRows(data: SearchData)
  {
    data.results.None? || data.results.value == []
  }

  /** A row's field as `d.name` reads it: `parseFloat(undefined)` is
      `parseFloat("undefined")`, so an absent field reads as that text. */
  function RowText(d: Row, name: string): (text: string)
  {
    if name in d then d[name] else "undefined"
  }

  /** The edge of one row.  `activeThickness` is what the row callback sees
      as the active line thickness. */
  function FormatRow(h: Helpers, staticColor: string, lineThickness: int,
                     activeThickness: Option<int>, d: Row): (e: Edge)
    ensures "color" !in d ==> e.color == staticColor
    ensures "animate" !in d ==> e.animate
    ensures "pulse_at_start" !in d ==> !e.pulseAtStart
    ensures "weight" !in d ==> e.weight == Configured(lineThickness)
    ensures e.weight.FromRow? ==> activeThickness == Some(lineThickness)
  {
    Edge(
      Coord(h.parseFloat(RowText(d, "start_lon")), h.parseFloat(RowText(d, "start_lat"))),
      Coord(h.parseFloat(RowText(d, "end_lon")), h.parseFloat(RowText(d, "end_lat"))),
      (if "start_label" in d then d["start_label"] else "",
       if "end_label" in d then d["end_label"] else ""),
      if "color" in d then h.escapeHtml(d["color"]) else staticColor,
      if "animate" in d then h.normalizeBoolean(d["animate"]) else true,
      if "pulse_at_start" in d then h.normalizeBoolean(d["pulse_at_start"]) else false,
      if "weight" !in d || activeThickness != Some(lineThickness) then Configured(lineThickness)
      else FromRow(d["weight"]))
  }

  /** The `map` over the rows: one edge per row, in order. */
  function FormatRows(h: Helpers, staticColor: string, lineThickness: int,
                      activeThickness: Option<int>, rows: seq<Row>): (es: seq<Edge>)
    ensures |es| == |rows|
    ensures forall i :: 0 <= i < |rows| ==>
      es[i] == FormatRow(h, staticColor, lineThickness, activeThickness, rows[i])
  {
    if rows == [] then []
    else [FormatRow(h, staticColor, lineThickness, activeThickness, rows[0])]
         + FormatRows(h, staticColor, lineThickness, activeThickness, rows[1..])
  }

  predicate StartsWith(s: string, prefix: string)
  {
    |prefix| <= |s| && s[..|prefix|] == prefix
  }

  /** The names that start with `start`, in order. */
  function StartFields(names: seq<string>): (starts: seq<string>)
  {
    if names == [] then []
    else (if StartsWith(names[0], "start") then [names[0]] else []) + StartFields(names[1..])
  }

  /** The field list handed to drilldown: the required fields that start
      with `start`, then `start_label`. */
  function DrilldownFields(): (r: seq<string>)
    ensures r == ["start_lat", "start_lon", "start_label"]
  {
    assert StartsWith("start_lat", "start") && StartsWith("start_lon", "start");
    assert "end_lat"[..5][0] != "start"[0] && "end_lon"[..5][0] != "start"[0];
    assert StartFields(REQUIRED_FIELDS[3..]) == [];
    StartFields(REQUIRED_FIELDS) + ["start_label"]
  }

  /** `formatData`.  `activeThickness` is the active line thickness as the
      row callback reads it. */
  function FormatData(h: Helpers, cfg: Config, activeThickness: Option<int>,
                      data: SearchData): (r: FormatOutcome)
    ensures r == NothingToRender <==> NoRows(data)
    ensures r.Failure? <==> !NoRows(data) && !HasRequiredFields(data.fields)
    ensures r.Failure? ==> r.message == MISSING_FIELDS_MESSAGE
    ensures r.Success? ==>
      && r.result.fields == ["start_lat", "start_lon", "start_label"]
      && r.result.raw == data
      && |r.result.formatted| == |data.results.value|
  {
    if NoRows(data) then NothingToRender
    else if !HasRequiredFields(data.fields) then Failure(MISSING_FIELDS_MESSAGE)
    else
      var rows := data.results.value;
      Success(Formatted(
        DrilldownFields(),
        FormatRows(h, StaticColor(h, cfg), LineThickness(h, cfg), activeThickness, rows),
        data))
  }

  /** With rows present, formatting fails exactly when one of the four
      required names is carried by no schema entry, whatever the rows hold. */
  lemma FormatFailsIffRequiredFieldMissing(h: Helpers, cfg: Config, activeThickness: Option<int>,
                                           data: SearchData)
    requires !NoRows(data)
    ensures FormatData(h, cfg, activeThickness, data) == Failure(MISSING_FIELDS_MESSAGE) <==>
      exists j :: 0 <= j < |REQUIRED_FIELDS| &&
        forall i :: 0 <= i < |data.fields| ==> data.fields[i].name != REQUIRED_FIELDS[j]
  {
    forall j | 0 <= j < |REQUIRED_FIELDS| {
      HasFieldIff(data.fields, REQUIRED_FIELDS[j]);
    }
  }

  /** The edge formatted from row `k`: coordinates swapped to `[lon, lat]`,
      and the defaults of every optional field. */
  lemma FormattedEdgeAt(h: Helpers, cfg: Config, activeThickness: Option<int>,
                        data: SearchData, k: nat)
    requires FormatData(h, cfg, activeThickness, data).Success?
    requires k < |data.results.value|
    ensures var e := FormatData(h, cfg, activeThickness, data).result.formatted[k];
            var d := data.results.value[k];
      && e.from == Coord(h.parseFloat(RowText(d, "start_lon")), h.parseFloat(RowText(d, "start_lat")))
      && e.to == Coord(h.parseFloat(RowText(d, "end_lon")), h.parseFloat(RowText(d, "end_lat")))
      && ("color" !in d ==> e.color == StaticColor(h, cfg))
      && ("color" !in d && EscapedProperty(h, cfg, "staticColor") == "" ==> e.color == "#65a637")
      && ("color" in d ==> e.color == h.escapeHtml(d["color"]))
      && ("animate" !in d ==> e.animate)
      && ("animate" in d ==> e.animate == h.normalizeBoolean(d["animate"]))
      && ("pulse_at_start" !in d ==> !e.pulseAtStart)
      && ("pulse_at_start" in d ==> e.pulseAtStart == h.normalizeBoolean(d["pulse_at_start"]))
      && ("start_label" !in d ==> e.labels.0 == "")
      && ("end_label" !in d ==> e.labels.1 == "")
      && ("start_label" in d ==> e.labels.0 == d["start_label"])
      && ("end_label" in d ==> e.labels.1 == d["end_label"])
  {
  }

  /** An edge takes the row's own weight only when the row has one and the
      configured thickness equals the active one. */
  lemma WeightRule(h: Helpers, cfg: Config, activeThickness: Option<int>, data: SearchData, k: nat)
    requires FormatData(h, cfg, activeThickness, data).Success?
    requires k < |data.results.value|
    ensures var e := FormatData(h, cfg, activeThickness, data).result.formatted[k];
            var d := data.results.value[k];
      e.weight == (if "weight" in d && activeThickness == Some(LineThickness(h, cfg))
                   then FromRow(d["weight"]) else Configured(LineThickness(h, cfg)))
  {
  }

  /** The row callback is a plain function, so the `this` it reads is not
      the visualization and its active thickness is undefined: every edge
      then carries the configured thickness. */
  lemma UnboundActiveThicknessIgnoresRowWeight(h: Helpers, cfg: Config, data: SearchData)
    requires FormatData(h, cfg, None, data).Success?
    ensures forall e :: e in FormatData(h, cfg, None, data).result.formatted ==>
      e.weight == Configured(LineThickness(h, cfg))
  {
  }

  /** The worked example: one row with a start label and nothing optional. */
  lemma SingleRowExample(h: Helpers, cfg: Config, activeThickness: Option<int>)
    requires EscapedProperty(h, cfg, "staticColor") == ""
    ensures var d: Row := map["start_lat" := "1", "start_lon" := "2", "end_lat" := "3",
                              "end_lon" := "4", "start_label" := "A"];
            var schema := [Field("start_lat"), Field("start_lon"), Field("end_lat"), Field("end_lon")];
            var r := FormatData(h, cfg, activeThickness, SearchData(Some([d]), schema));
      && r.Success?
      && r.result.formatted == [Edge(Coord(h.parseFloat("2"), h.parseFloat("1")),
                                     Coord(h.parseFloat("4"), h.parseFloat("3")),
                                     ("A", ""), "#65a637", true, false,
                                     Configured(LineThickness(h, cfg)))]
  {
    var d: Row := map["start_lat" := "1", "start_lon" := "2", "end_lat" := "3",
                      "end_lon" := "4", "start_label" := "A"];
    var schema := [Field("start_lat"), Field("start_lon"), Field("end_lat"), Field("end_lon")];
    forall j | 0 <= j < |REQUIRED_FIELDS| ensures HasField(schema, REQUIRED_FIELDS[j]) {
      HasFieldIff(schema, REQUIRED_FIELDS[j]);
      assert schema[j].name == REQUIRED_FIELDS[j];
    }
    assert d.Keys == {"start_lat", "start_lon", "end_lat", "end_lon", "start_label"};
    assert "color" !in d && "animate" !in d && "pulse_at_start" !in d;
    assert "weight" !in d && "end_label" !in d;
    var e := FormatRow(h, "#65a637", LineThickness(h, cfg), activeThickness, d);
    assert e == Edge(Coord(h.parseFloat("2"), h.parseFloat("1")),
                     Coord(h.parseFloat("4"), h.parseFloat("3")),
                     ("A", ""), "#65a637", true, false, Configured(LineThickness(h, cfg)));
    assert FormatRows(h, "#65a637", LineThickness(h, cfg), activeThickness, [d]) == [e];
  }
}
