/** Marker selection: one marker per distinct key, where the key is what
    the JavaScript `Map` built from `[lon, e] && [lat, e]` is keyed by,
    the latitude alone. */
module MarkerSelection {
  import opened Host
  import opened Formatter

  /** Which end of an edge a marker stands for. */
  datatype End = Origin | Destination

  function Point(e: Edge, end: End): Coord
  {
    if end == Origin then e.from else e.to
  }

  /** The label of that end (`labels[0]` for the origin, `labels[1]` for the destination). */
  function Label(e: Edge, end: End): string
  {
    if end == Origin then e.labels.0 else e.labels.1
  }

  /** The `Map` key of an edge: the second component of `[lon, lat]`. */
  function Key(e: Edge, end: End): number
  {
    Point(e, end).lat
  }

  /** The keys of the edges, in order. */
  function Keys(es: seq<Edge>, end: End): (ks: seq<number>)
    ensures |ks| == |es|
    ensures forall i :: 0 <= i < |es| ==> ks[i] == Key(es[i], end)
  {
    if es == [] then [] else Keys(es[..|es| - 1], end) + [Key(es[|es| - 1], end)]
  }

  /** The keys in the order a `Map` first receives them. */
  function FirstOccurrences(ks: seq<number>): (u: seq<number>)
    ensures |u| <= |ks|
    ensures ks != [] ==> u != []
  {
    if ks == [] then []
    else
      var p := FirstOccurrences(ks[..|ks| - 1]);
      if ks[|ks| - 1] in p then p else p + [ks[|ks| - 1]]
  }

  /** The position of the first occurrence of `k`. */
  function FirstIndex(ks: seq<number>, k: number): (j: nat)
    requires k in ks
    ensures j < |ks| && ks[j] == k
    ensures forall m :: 0 <= m < j ==> ks[m] != k
  {
    if ks[0] == k then 0 else 1 + FirstIndex(ks[1..], k)
  }

  /** The position of the last occurrence of `k`: the value a `Map` keeps. */
  function LastIndex(ks: seq<number>, k: number): (j: nat)
    requires k in ks
    ensures j < |ks| && ks[j] == k
    ensures forall m :: j < m < |ks| ==> ks[m] != k
  {
    if ks[|ks| - 1] == k then |ks| - 1 else LastIndex(ks[..|ks| - 1], k)
  }

  lemma FirstIndexOfPrefix(ks: seq<number>, x: number, k: number)
    requires k in ks
    ensures FirstIndex(ks + [x], k) == FirstIndex(ks, k)
  {
    var j := FirstIndex(ks, k);
    assert (ks + [x])[j] == k;
  }

  lemma LastIndexOfExtension(ks: seq<number>, x: number, k: number)
    requires k in ks + [x]
    ensures LastIndex(ks + [x], k) == if x == k then |ks| else LastIndex(ks, k)
  {
    assert (ks + [x])[..|ks|] == ks;
  }

  /** The first occurrences are distinct, hold exactly the keys, and are
      ordered by where each key first occurs. */
  lemma {:induction false} FirstOccurrencesSpec(ks: seq<number>)
    ensures forall k :: k in FirstOccurrences(ks) <==> k in ks
    ensures forall i, j :: 0 <= i < j < |FirstOccurrences(ks)| ==>
      FirstOccurrences(ks)[i] != FirstOccurrences(ks)[j]
    ensures forall i, j :: 0 <= i < j < |FirstOccurrences(ks)| ==>
      FirstIndex(ks, FirstOccurrences(ks)[i]) < FirstIndex(ks, FirstOccurrences(ks)[j])
  {
    if ks != [] {
      var init, x := ks[..|ks| - 1], ks[|ks| - 1];
      assert ks == init + [x];
      FirstOccurrencesSpec(init);
      var p := FirstOccurrences(init);
      forall k | k in init {
        FirstIndexOfPrefix(init, x, k);
      }
      if x !in p {
        assert FirstIndex(ks, x) == |init| by {
          assert ks[|init|] == x;
        }
      }
    }
  }

  /** The markers of one end: one per distinct key, in first-occurrence
      order, each the last edge with that key. */
  function Markers(es: seq<Edge>, end: End): (ms: seq<Edge>)
    ensures |ms| <= |es|
    ensures es != [] ==> ms != []
  {
    var ks := Keys(es, end);
    var u := FirstOccurrences(ks);
    FirstOccurrencesSpec(ks);
    seq(|u|, i requires 0 <= i < |u| => es[LastIndex(ks, u[i])])
  }

  /** What the marker list promises: its keys are the edges' keys in
      first-occurrence order (so pairwise distinct and covering every
      edge), and each marker is the last edge with its key. */
  lemma MarkersSpec(es: seq<Edge>, end: End)
    ensures Keys(Markers(es, end), end) == FirstOccurrences(Keys(es, end))
    ensures forall i, j :: 0 <= i < j < |Markers(es, end)| ==>
      Key(Markers(es, end)[i], end) != Key(Markers(es, end)[j], end)
    ensures forall j :: 0 <= j < |es| ==> Key(es[j], end) in Keys(Markers(es, end), end)
    ensures forall i :: 0 <= i < |Markers(es, end)| ==>
      var k := Key(Markers(es, end)[i], end);
      k in Keys(es, end) && Markers(es, end)[i] == es[LastIndex(Keys(es, end), k)]
  {
    var ks := Keys(es, end);
    var ms := Markers(es, end);
    FirstOccurrencesSpec(ks);
    assert Keys(ms, end) == FirstOccurrences(ks);
    forall j | 0 <= j < |es| ensures Key(es[j], end) in Keys(ms, end) {
      assert ks[j] in ks;
    }
  }

  /** As written, two places on the same latitude share one marker, the
      later one, even when their longitudes differ. */
  lemma SameLatitudeCollapses(a: Edge, b: Edge, end: End)
    requires Point(a, end).lat == Point(b, end).lat
    ensures Markers([a, b], end) == [b]
  {
    var ks := Keys([a, b], end);
    assert ks == [Key(a, end), Key(b, end)];
    assert FirstOccurrences(ks) == [Key(a, end)] by {
      assert ks[..1] == [Key(a, end)];
      assert FirstOccurrences(ks[..1]) == [Key(a, end)] by {
        assert ks[..1][..0] == [];
      }
    }
  }

  /** The state of the `Map` after inserting the first `i` edges: its keys
      in insertion order, and the value held under each. */
  ghost predicate Inserted(es: seq<Edge>, end: End, i: nat, keys: seq<number>, byKey: map<number, Edge>)
    requires i <= |es|
  {
    && keys == FirstOccurrences(Keys(es, end)[..i])
    && (forall k :: k in byKey <==> k in Keys(es, end)[..i])
    && (forall k :: k in byKey ==> byKey[k] == es[LastIndex(Keys(es, end)[..i], k)])
  }

  lemma FirstOccurrencesStep(ks: seq<number>, k: number)
    ensures FirstOccurrences(ks + [k]) == if k in ks then FirstOccurrences(ks) else FirstOccurrences(ks) + [k]
  {
    assert (ks + [k])[..|ks|] == ks;
    FirstOccurrencesSpec(ks);
  }

  lemma ValuesStep(es: seq<Edge>, ks: seq<number>, k: number, byKey: map<number, Edge>)
    requires |ks| < |es|
    requires forall k' :: k' in byKey <==> k' in ks
    requires forall k' :: k' in byKey ==> byKey[k'] == es[LastIndex(ks, k')]
    ensures forall k' :: k' in byKey[k := es[|ks|]] <==> k' in ks + [k]
    ensures forall k' :: k' in byKey[k := es[|ks|]] ==> byKey[k := es[|ks|]][k'] == es[LastIndex(ks + [k], k')]
  {
    forall k' | k' in byKey[k := es[|ks|]] ensures byKey[k := es[|ks|]][k'] == es[LastIndex(ks + [k], k')] {
      LastIndexOfExtension(ks, k, k');
    }
  }

  /** Inserting edge `i` under its key moves the `Map` to the next prefix. */
  lemma InsertStep(es: seq<Edge>, end: End, i: nat, keys: seq<number>, byKey: map<number, Edge>)
    requires i < |es| && Inserted(es, end, i, keys, byKey)
    ensures var k := Key(es[i], end);
      Inserted(es, end, i + 1, if k in byKey then keys else keys + [k], byKey[k := es[i]])
  {
    var k := Key(es[i], end);
    var ks := Keys(es, end)[..i];
    assert Keys(es, end)[..i + 1] == ks + [k];
    FirstOccurrencesStep(ks, k);
    ValuesStep(es, ks, k, byKey);
  }

  /** `[...new Map(...).values()]`: one pass inserting each edge under its
      key, then the values in key-insertion order. */
  method DistinctMarkers(es: seq<Edge>, end: End) returns (ms: seq<Edge>)
    ensures ms == Markers(es, end)
  {
    var keys: seq<number> := [];
    var byKey: map<number, Edge> := map[];
    for i := 0 to |es|
      invariant Inserted(es, end, i, keys, byKey)
    {
      InsertStep(es, end, i, keys, byKey);
      var k := Key(es[i], end);
      if k !in byKey {
        keys := keys + [k];
      }
      byKey := byKey[k := es[i]];
    }
    assert Keys(es, end)[..|es|] == Keys(es, end);
    FirstOccurrencesSpec(Keys(es, end));
    forall m | 0 <= m < |keys| ensures keys[m] in byKey {
      assert keys[m] in FirstOccurrences(Keys(es, end));
    }
    ms := [];
    for j := 0 to |keys|
      invariant |ms| == j
      invariant forall m :: 0 <= m < j ==> ms[m] == byKey[keys[m]]
    {
      ms := ms + [byKey[keys[j]]];
    }
  }

  /** The tooltip text: the label, or the `Lat:`/`Lon:` fallback when the
      label is empty. */
  function MarkerText(h: Helpers, e: Edge, end: End): (t: string)
    ensures Label(e, end) != "" ==> t == Label(e, end)
    ensures Label(e, end) == "" ==>
      t == "Lat: " + h.numberToString(Point(e, end).lat) + "\nLon: " + h.numberToString(Point(e, end).lon)
    ensures t != ""
  {
    var text := "Lat: " + h.numberToString(Point(e, end).lat) + "\nLon: " + h.numberToString(Point(e, end).lon);
    if Label(e, end) == "" then text else Label(e, end)
  }
}
