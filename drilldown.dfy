/** The drilldown mapper: from a clicked origin marker's edge to the
    field-value payload the host receives. */
module Drilldown {
  import opened Host
  import opened Formatter

  const DRILLDOWN_KEY := "display.visualizations.custom.drilldown"

  /** `_isEnabledDrilldown`: the raw (not namespaced) drilldown setting is
      the string `all`. */
  function IsEnabledDrilldown(cfg: Config): (enabled: bool)
    ensures enabled <==> DRILLDOWN_KEY in cfg.props && cfg.props[DRILLDOWN_KEY] == "all"
  {
    // A missing key reads as `undefined`, which is falsy like the empty string.
    var v := if DRILLDOWN_KEY in cfg.props then Some(cfg.props[DRILLDOWN_KEY]) else None;
    v.Some? && v.value != "" && v.value == "all"
  }

  /** A drilldown value: a label's text or a coordinate. */
  datatype DrillValue = Text(text: string) | Number(n: number)

  datatype Action = FieldValueDrilldown

  /** The payload: every requested field, `None` standing for `undefined`
      where the edge has nothing for that name. */
  datatype DrilldownDescription = DrilldownDescription(action: Action, data: map<string, Option<DrillValue>>)

  /** What a clicked edge offers: its start label and start coordinates. */
  function StartValues(e: Edge): (values: map<string, DrillValue>)
    ensures values.Keys == {"start_label", "start_lon", "start_lat"}
    ensures forall f :: f in values ==> (values[f].Text? <==> f == "start_label")
  {
    map["start_label" := Text(e.labels.0), "start_lon" := Number(e.from.lon), "start_lat" := Number(e.from.lat)]
  }

  function Lookup(values: map<string, DrillValue>, field: string): Option<DrillValue>
  {
    if field in values then Some(values[field]) else None
  }

  /** `_drilldown` without the host call: the description sent for a click
      on `e`, given the host's field list. */
  method DescribeDrilldown(fields: seq<string>, e: Edge) returns (d: DrilldownDescription)
    ensures d.action == FieldValueDrilldown
    ensures forall f :: f in d.data <==> f in fields
    ensures forall f :: f in d.data ==> d.data[f] == Lookup(StartValues(e), f)
    ensures fields == DrilldownFields() ==>
      d.data == map["start_lat" := Some(Number(e.from.lat)), "start_lon" := Some(Number(e.from.lon)),
                    "start_label" := Some(Text(e.labels.0))]
  {
    var values := StartValues(e);
    var data: map<string, Option<DrillValue>> := map[];
    for i := 0 to |fields|
      invariant forall f :: f in data <==> f in fields[..i]
      invariant forall f :: f in data ==> data[f] == Lookup(values, f)
    {
      assert fields[..i + 1] == fields[..i] + [fields[i]];
      data := data[fields[i] := Lookup(values, fields[i])];
    }
    assert fields[..|fields|] == fields;
    d := DrilldownDescription(FieldValueDrilldown, data);
    if fields == DrilldownFields() {
      FormatterFieldsPayload(e, data);
    }
  }

  /** Over the formatter's field list the payload holds exactly the three
      start values of the clicked edge. */
  lemma FormatterFieldsPayload(e: Edge, data: map<string, Option<DrillValue>>)
    requires forall f :: f in data <==> f in DrilldownFields()
    requires forall f :: f in data ==> data[f] == Lookup(StartValues(e), f)
    ensures data == map["start_lat" := Some(Number(e.from.lat)), "start_lon" := Some(Number(e.from.lon)),
                        "start_label" := Some(Text(e.labels.0))]
  {
    var expected := map["start_lat" := Some(Number(e.from.lat)), "start_lon" := Some(Number(e.from.lon)),
                        "start_label" := Some(Text(e.labels.0))];
    assert data.Keys == expected.Keys;
    assert data["start_lat"] == expected["start_lat"];
    assert data["start_lon"] == expected["start_lon"];
    assert data["start_label"] == expected["start_label"];
  }
}
