/**
 * The fixed layer catalog of the map component: 22 layer descriptors, each
 * with a closed six-way construction kind, and the per-layer colour table.
 */
module Catalog {
  import opened Wrappers

  /** The closed `type` tag of a layer descriptor. */
  datatype LayerKind = GeoJson | Graphics | Feature | Csv | FeatureCollection | ClientSide

  /** The tag string the source writes for each kind. */
  function KindTag(k: LayerKind): string
  {
    match k
    case GeoJson => "geojson"
    case Graphics => "graphics"
    case Feature => "feature"
    case Csv => "csv"
    case FeatureCollection => "feature-collection"
    case ClientSide => "client-side"
  }

  /** Reads a tag string; only the six declared tags are kinds. */
  function KindOfTag(tag: string): (r: Option<LayerKind>)
    ensures r.Some? ==> KindTag(r.value) == tag
  {
    if tag == "geojson" then Some(GeoJson)
    else if tag == "graphics" then Some(Graphics)
    else if tag == "feature" then Some(Feature)
    else if tag == "csv" then Some(Csv)
    else if tag == "feature-collection" then Some(FeatureCollection)
    else if tag == "client-side" then Some(ClientSide)
    else None
  }

  /** Every kind's tag reads back as that kind, so the six tags are distinct. */
  lemma KindTagRoundTrip(k: LayerKind)
    ensures KindOfTag(KindTag(k)) == Some(k)
  {
    match k
    case GeoJson =>
    case Graphics =>
      assert KindTag(k) != "geojson" by { assert KindTag(k)[1] != "geojson"[1]; }
    case Feature =>
      assert KindTag(k) != "geojson" by { assert KindTag(k)[0] != "geojson"[0]; }
      assert KindTag(k) != "graphics" by { assert KindTag(k)[0] != "graphics"[0]; }
    case Csv =>
    case FeatureCollection =>
      assert KindTag(k) != "feature" by { assert |KindTag(k)| != |"feature"|; }
    case ClientSide =>
      assert KindTag(k) != "csv" by { assert |KindTag(k)| != |"csv"|; }
  }

  /** A layer descriptor: identity, labels and construction kind. */
  datatype LayerType = LayerType(id: string, name: string, description: string, kind: LayerKind, layerTypeName: string)

  /** The catalog, in the source's order. */
  const LayerTypes: seq<LayerType> := [
    LayerType("geojson", "Earthquakes (GeoJSON)", "GeoJSON Layer - USGS Earthquake Data", GeoJson, "GeoJSON Layer"),
    LayerType("graphics", "ISS Location (Graphics)", "Graphics Layer - International Space Station Real-time Position", Graphics, "Graphics Layer"),
    LayerType("feature", "World Countries (Feature)", "Feature Layer - World Countries from REST Countries API", Feature, "Feature Layer"),
    LayerType("csv", "World Airports (CSV)", "CSV Layer - Airports Data from OurAirports", Csv, "CSV Layer"),
    LayerType("feature-collection", "World Cities (Collection)", "Feature Layer (Collection) - World Cities Database", FeatureCollection, "Feature Layer"),
    LayerType("client-side", "Heritage Sites (Client-Side)", "Feature Layer (Client-Side) - UNESCO World Heritage Sites", ClientSide, "Feature Layer"),
    LayerType("geojson-2", "Volcanoes (GeoJSON)", "GeoJSON Layer - Volcano Database", GeoJson, "GeoJSON Layer"),
    LayerType("graphics-2", "ISS Path (Graphics)", "Graphics Layer - ISS Orbital Path Visualization", Graphics, "Graphics Layer"),
    LayerType("feature-2", "Countries (Feature)", "Feature Layer - Country Population Distribution", Feature, "Feature Layer"),
    LayerType("csv-2", "Major Airports (CSV)", "CSV Layer - Major International Airports", Csv, "CSV Layer"),
    LayerType("collection-2", "Major Cities (Collection)", "Feature Collection - Top 1000 World Cities by Population", FeatureCollection, "Feature Layer"),
    LayerType("client-side-2", "Volcanoes (Client-Side)", "Client-side Feature Layer - Active Volcanoes", ClientSide, "Feature Layer"),
    LayerType("geojson-3", "Earthquakes Extended (GeoJSON)", "GeoJSON Layer - Extended Earthquake Analysis", GeoJson, "GeoJSON Layer"),
    LayerType("graphics-3", "Airports Visualization (Graphics)", "Graphics Layer - Airport Distribution Heat Map", Graphics, "Graphics Layer"),
    LayerType("feature-3", "Global Population (Feature)", "Feature Layer - Global Population Density Map", Feature, "Feature Layer"),
    LayerType("csv-3", "Cities Data (CSV)", "CSV Layer - World Cities Detailed Information", Csv, "CSV Layer"),
    LayerType("collection-3", "Heritage Sites (Collection)", "Feature Collection - UNESCO World Heritage Sites Network", FeatureCollection, "Feature Layer"),
    LayerType("client-side-3", "Heritage Network (Client-Side)", "Client-side Feature Layer - Heritage Sites Connection Map", ClientSide, "Feature Layer"),
    LayerType("geojson-4", "Volcanoes Extended (GeoJSON)", "GeoJSON Layer - Extended Volcano Analysis", GeoJson, "GeoJSON Layer"),
    LayerType("graphics-4", "Countries Heat Map (Graphics)", "Graphics Layer - Country Population Heat Map", Graphics, "Graphics Layer"),
    LayerType("feature-4", "Global Airports (Feature)", "Feature Layer - Airport Network Analysis", Feature, "Feature Layer"),
    LayerType("csv-4", "World Data (CSV)", "CSV Layer - Comprehensive World Data Integration", Csv, "CSV Layer")
  ]

  /** The first descriptor in `ts` whose id is `id` (Array.prototype.find). */
  function FindIn(ts: seq<LayerType>, id: string): (r: Option<LayerType>)
    ensures r.Some? ==> r.value in ts && r.value.id == id
    ensures r.None? <==> forall j :: 0 <= j < |ts| ==> ts[j].id != id
    ensures r.Some? ==> r.value == ts[IndexIn(ts, id)]
  {
    if ts == [] then None
    else if ts[0].id == id then Some(ts[0])
    else FindIn(ts[1..], id)
  }

  /** The first position in `ts` whose id is `id`, or -1 (Array.prototype.findIndex). */
  function IndexIn(ts: seq<LayerType>, id: string): (r: int)
    ensures -1 <= r < |ts|
    ensures r >= 0 ==> ts[r].id == id && forall j :: 0 <= j < r ==> ts[j].id != id
    ensures r == -1 <==> forall j :: 0 <= j < |ts| ==> ts[j].id != id
  {
    if ts == [] then -1
    else if ts[0].id == id then 0
    else var k := IndexIn(ts[1..], id); if k == -1 then -1 else k + 1
  }

  function FindLayer(id: string): Option<LayerType> { FindIn(LayerTypes, id) }

  function IndexOfLayer(id: string): int { IndexIn(LayerTypes, id) }

  predicate InCatalog(id: string) { FindLayer(id).Some? }

  /** The set of catalog ids. */
  function CatalogIds(): set<string> { set k | 0 <= k < |LayerTypes| :: LayerTypes[k].id }

  lemma InCatalogIff(id: string)
    ensures InCatalog(id) <==> id in CatalogIds()
  {
    if InCatalog(id) {
      var k := IndexOfLayer(id);
      assert LayerTypes[k].id == id;
    }
  }

  /** No two catalog entries share an id. */
  lemma CatalogIdsDistinct()
    ensures forall i, j :: 0 <= i < j < |LayerTypes| ==> LayerTypes[i].id != LayerTypes[j].id
  {
  }

  /** The catalog position of entry k is k, so the catalog has 22 distinct ids. */
  lemma IndexOfCatalogEntry(k: nat)
    requires k < |LayerTypes|
    ensures IndexOfLayer(LayerTypes[k].id) == k
    ensures FindLayer(LayerTypes[k].id) == Some(LayerTypes[k])
  {
    CatalogIdsDistinct();
  }

  /** An RGBA colour: three channels and an alpha. */
  datatype Rgba = Rgba(r: nat, g: nat, b: nat, a: real)

  /** The colour used when a layer id has no table entry. */
  const DefaultColor := Rgba(255, 69, 0, 0.8)

  /** The per-layer colour table. */
  const LayerColors: map<string, Rgba> := map[
    "geojson" := Rgba(255, 69, 0, 0.8),
    "graphics" := Rgba(0, 191, 255, 0.8),
    "feature" := Rgba(50, 205, 50, 0.8),
    "csv" := Rgba(255, 215, 0, 0.8),
    "collection-2" := Rgba(138, 43, 226, 0.8),
    "client-side" := Rgba(220, 20, 60, 0.8),
    "geojson-2" := Rgba(255, 140, 0, 0.8),
    "graphics-2" := Rgba(30, 144, 255, 0.8),
    "feature-2" := Rgba(34, 139, 34, 0.8),
    "csv-2" := Rgba(218, 165, 32, 0.8),
    "feature-collection" := Rgba(147, 112, 219, 0.8),
    "client-side-2" := Rgba(199, 21, 133, 0.8),
    "geojson-3" := Rgba(255, 99, 71, 0.8),
    "graphics-3" := Rgba(70, 130, 180, 0.8),
    "feature-3" := Rgba(60, 179, 113, 0.8),
    "csv-3" := Rgba(184, 134, 11, 0.8),
    "collection-3" := Rgba(123, 104, 238, 0.8),
    "client-side-3" := Rgba(186, 85, 211, 0.8),
    "geojson-4" := Rgba(255, 127, 80, 0.8),
    "graphics-4" := Rgba(95, 158, 160, 0.8),
    "feature-4" := Rgba(46, 139, 87, 0.8),
    "csv-4" := Rgba(205, 133, 63, 0.8)
  ]

  /** The table colour of a layer, or the default orange-red for an id the table lacks. */
  function ColorForLayer(layerId: string): (c: Rgba)
    ensures layerId in LayerColors ==> c == LayerColors[layerId]
    ensures layerId !in LayerColors ==> c == DefaultColor
  {
    if layerId in LayerColors then LayerColors[layerId] else DefaultColor
  }

  /** The colour table is keyed by exactly the catalog's ids. */
  lemma ColorTableCoversCatalog()
    ensures LayerColors.Keys == CatalogIds()
  {
    var ids := seq(|LayerTypes|, k requires 0 <= k < |LayerTypes| => LayerTypes[k].id);
    assert ids == ["geojson", "graphics", "feature", "csv", "feature-collection", "client-side",
                   "geojson-2", "graphics-2", "feature-2", "csv-2", "collection-2", "client-side-2",
                   "geojson-3", "graphics-3", "feature-3", "csv-3", "collection-3", "client-side-3",
                   "geojson-4", "graphics-4", "feature-4", "csv-4"];
    forall key | key in LayerColors
      ensures key in CatalogIds()
    {
      assert key in ids;
      var k :| 0 <= k < |ids| && ids[k] == key;
      assert LayerTypes[k].id == key;
    }
  }

  /** The ids of a descriptor list, in list order. */
  function IdsOf(ts: seq<LayerType>): (ids: seq<string>)
    ensures |ids| == |ts|
    ensures forall k :: 0 <= k < |ids| ==> ids[k] == ts[k].id
  {
    seq(|ts|, k requires 0 <= k < |ts| => ts[k].id)
  }

  /** A list's ids are exactly the ids FindIn can find in it. */
  lemma IdsOfFindable(ts: seq<LayerType>, id: string)
    ensures id in IdsOf(ts) <==> FindIn(ts, id).Some?
  {
    if FindIn(ts, id).Some? {
      assert IdsOf(ts)[IndexIn(ts, id)] == id;
    }
  }

  function CatalogIdSeq(): seq<string> { IdsOf(LayerTypes) }

  lemma CatalogIdSeqElements()
    ensures (set id | id in CatalogIdSeq()) == CatalogIds()
  {
    var ids := CatalogIdSeq();
    forall id | id in CatalogIds() ensures id in ids {
      var k :| 0 <= k < |LayerTypes| && LayerTypes[k].id == id;
      assert ids[k] == id;
    }
  }

  /** A sequence has at least as many positions as distinct elements. */
  lemma {:induction false} CardSetOfSeq<T>(xs: seq<T>)
    ensures |(set x | x in xs)| <= |xs|
  {
    if xs != [] {
      var init := xs[..|xs| - 1];
      CardSetOfSeq(init);
      assert (set x | x in xs) == (set x | x in init) + {xs[|xs| - 1]} by {
        assert xs == init + [xs[|xs| - 1]];
      }
    }
  }

  /** A sequence without repeats has exactly as many distinct elements as positions. */
  lemma {:induction false} CardSetOfDistinctSeq<T>(xs: seq<T>)
    requires forall i, j :: 0 <= i < j < |xs| ==> xs[i] != xs[j]
    ensures |(set x | x in xs)| == |xs|
  {
    if xs != [] {
      var init := xs[..|xs| - 1];
      CardSetOfDistinctSeq(init);
      assert xs[|xs| - 1] !in init;
      assert (set x | x in xs) == (set x | x in init) + {xs[|xs| - 1]} by {
        assert xs == init + [xs[|xs| - 1]];
      }
    }
  }

  /** The catalog holds exactly 22 distinct ids, one per entry. */
  lemma CatalogIdsCount()
    ensures |CatalogIds()| == |LayerTypes| == 22
  {
    CatalogIdSeqElements();
    CatalogIdsDistinct();
    var ids := CatalogIdSeq();
    assert forall k :: 0 <= k < |ids| ==> ids[k] == LayerTypes[k].id;
    CardSetOfDistinctSeq(ids);
  }
}
