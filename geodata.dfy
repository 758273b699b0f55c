/**
 * The per-build data path of the map component: the synthetic feature
 * generator, the prefix filter, and the affine remap of global lon/lat into
 * the fixed target box (latitude 29.5..33.3, longitude 34.2..35.9).
 * Arithmetic is over exact reals.
 */
module GeoData {
  import opened Wrappers
  import opened Text

  /** A position, longitude first, as in `geometry.coordinates`. */
  datatype Coord = Coord(lon: real, lat: real)

  /** The target bounding box. */
  const MinLat: real := 29.5
  const MaxLat: real := 33.3
  const MinLon: real := 34.2
  const MaxLon: real := 35.9

  predicate InWorld(lon: real, lat: real) { -180.0 <= lon <= 180.0 && -90.0 <= lat <= 90.0 }

  predicate InBox(c: Coord) { MinLon <= c.lon <= MaxLon && MinLat <= c.lat <= MaxLat }

  /**
   * Normalises each axis to [0, 1] over the world range and interpolates it
   * into the box. Inputs outside the world range are extrapolated, not clamped.
   */
  function ToIsrael(lon: real, lat: real): (r: Coord)
    ensures InWorld(lon, lat) ==> InBox(r)
    ensures lon == -180.0 && lat == -90.0 ==> r == Coord(MinLon, MinLat)
    ensures lon == 180.0 && lat == 90.0 ==> r == Coord(MaxLon, MaxLat)
    ensures lon == 0.0 && lat == 0.0 ==> r == Coord(MinLon + 0.5 * (MaxLon - MinLon), MinLat + 0.5 * (MaxLat - MinLat))
    ensures lon < -180.0 ==> r.lon < MinLon
    ensures lon > 180.0 ==> r.lon > MaxLon
    ensures lat < -90.0 ==> r.lat < MinLat
    ensures lat > 90.0 ==> r.lat > MaxLat
  {
    var normalizedLon := (lon + 180.0) / 360.0;
    var normalizedLat := (lat + 90.0) / 180.0;
    Coord(MinLon + normalizedLon * (MaxLon - MinLon), MinLat + normalizedLat * (MaxLat - MinLat))
  }

  /** The inverse remap: the global position that ToIsrael sends to `c`. */
  function FromIsrael(c: Coord): (r: Coord)
    ensures ToIsrael(r.lon, r.lat) == c
    ensures InBox(c) ==> InWorld(r.lon, r.lat)
  {
    Coord((c.lon - MinLon) / (MaxLon - MinLon) * 360.0 - 180.0,
          (c.lat - MinLat) / (MaxLat - MinLat) * 180.0 - 90.0)
  }

  /** ToIsrael is injective: two positions with the same image are equal. */
  lemma ToIsraelInjective(lon1: real, lat1: real, lon2: real, lat2: real)
    requires ToIsrael(lon1, lat1) == ToIsrael(lon2, lat2)
    ensures lon1 == lon2 && lat1 == lat2
  {
    var c := ToIsrael(lon1, lat1);
    assert FromIsrael(c) == Coord(lon1, lat1);
    assert FromIsrael(c) == Coord(lon2, lat2);
  }

  /** A `Math.random()` value. */
  type Unit = r: real | 0.0 <= r < 1.0

  /** The random draws and the clock reading consumed by one generated feature. */
  datatype Sample = Sample(lon: Unit, lat: Unit, latitude: Unit, longitude: Unit,
                           mag: Unit, depth: Unit, felt: Unit, time: string)

  /** The attribute record of a feature. */
  datatype Properties = Properties(
    id: string, latitude: real, longitude: real, mag: real, magnitudeType: string,
    place: string, time: string, depth: real, status: string, feltReports: int,
    significant: string, tsunami: string, reportedBy: string)

  datatype Feature = Feature(coordinates: Coord, properties: Properties)

  /** A data object; `features` is absent when the object has no `features` member. */
  datatype LayerData = LayerData(features: Option<seq<Feature>>)

  /** `data.features || []`. */
  function FeaturesOrEmpty(d: LayerData): seq<Feature>
  {
    d.features.GetOr([])
  }

  /** The i-th generated feature. */
  function MockFeature(i: nat, s: Sample): (f: Feature)
    ensures f.properties.id == "feature-" + NatToString(i)
    ensures InWorld(f.coordinates.lon, f.coordinates.lat)
  {
    Feature(Coord(s.lon * 360.0 - 180.0, s.lat * 180.0 - 90.0),
            Properties("feature-" + NatToString(i), s.latitude * 180.0 - 90.0,
                       s.longitude * 360.0 - 180.0, s.mag * 8.0, "ml",
                       "Location " + NatToString(i), s.time, s.depth * 100.0, "reviewed",
                       (s.felt * 100.0).Floor, "false", "false", "USGS"))
  }

  /** The sampling cap of the generator. */
  const MockCap: nat := 100

  /** The number of iterations of `for (i = 0; i < Math.min(amount, 100); i++)`. */
  function MockCount(amount: int): (n: nat)
    ensures n <= MockCap
    ensures amount >= 0 ==> n == if amount < MockCap then amount else MockCap
    ensures amount < 0 ==> n == 0
  {
    var count := if amount < MockCap then amount else MockCap;
    if count < 0 then 0 else count
  }

  /** What the generator returns for `amount`, feature i drawn from `draw(i)`. */
  function MockData(amount: int, draw: nat -> Sample): (d: LayerData)
    ensures d.features.Some?
    ensures |d.features.value| == MockCount(amount)
    ensures forall i :: 0 <= i < |d.features.value| ==>
              d.features.value[i].properties.id == "feature-" + NatToString(i)
    ensures forall i :: 0 <= i < |d.features.value| ==>
              InWorld(d.features.value[i].coordinates.lon, d.features.value[i].coordinates.lat)
  {
    var fs := seq(MockCount(amount), i requires 0 <= i => MockFeature(i, draw(i)));
    assert forall i :: 0 <= i < |fs| ==> fs[i] == MockFeature(i, draw(i));
    LayerData(Some(fs))
  }

  /** The generator's loop: pushes one feature per iteration. */
  method CreateMockLayerData(entitiesAmount: int, draw: nat -> Sample) returns (data: LayerData)
    ensures data == MockData(entitiesAmount, draw)
  {
    var features: seq<Feature> := [];
    var count := if entitiesAmount < MockCap then entitiesAmount else MockCap;
    var i := 0;
    while i < count
      invariant 0 <= i
      invariant i == 0 || i <= count
      invariant |features| == i
      invariant forall k :: 0 <= k < i ==> features[k] == MockFeature(k, draw(k))
    {
      features := features + [MockFeature(i, draw(i))];
      i := i + 1;
    }
    assert i == MockCount(entitiesAmount);
    ghost var spec := MockData(entitiesAmount, draw).features.value;
    assert forall k :: 0 <= k < |features| ==> features[k] == spec[k];
    assert features == spec;
    data := LayerData(Some(features));
  }

  /** Generated feature ids are pairwise distinct. */
  lemma MockIdsDistinct(amount: int, draw: nat -> Sample, i: nat, j: nat)
    requires i < j < MockCount(amount)
    ensures MockData(amount, draw).features.value[i].properties.id
            != MockData(amount, draw).features.value[j].properties.id
  {
    var fs := MockData(amount, draw).features.value;
    if fs[i].properties.id == fs[j].properties.id {
      TaggedNumeralInjective("feature-", i, j);
    }
  }

  /** The end index of `slice(0, amount)` on a length-n array. */
  function SliceEnd(n: nat, amount: int): (e: nat)
    ensures e <= n
    ensures amount >= 0 ==> e == if amount < n then amount else n
    ensures amount < 0 ==> e == if n + amount < 0 then 0 else n + amount
  {
    if amount < 0 then (if n + amount < 0 then 0 else n + amount)
    else if amount < n then amount else n
  }

  /** Keeps the first `amount` features; data without features is returned as is. */
  function FilterByAmount(d: LayerData, amount: int): (r: LayerData)
    ensures d.features.None? ==> r == d
    ensures d.features.Some? ==> r.features.Some? && r.features.value <= d.features.value
    ensures d.features.Some? ==> |r.features.value| == SliceEnd(|d.features.value|, amount)
  {
    match d.features
    case None => d
    case Some(fs) => LayerData(Some(fs[..SliceEnd(|fs|, amount)]))
  }

  /** For a non-negative amount the filter keeps exactly min(amount, n) features. */
  lemma FilterKeepsMin(d: LayerData, amount: nat)
    requires d.features.Some?
    ensures var n := |d.features.value|;
            |FilterByAmount(d, amount).features.value| == if amount < n then amount else n
  {
  }

  /** The generator already honours the amount, so filtering its output changes nothing. */
  lemma FilterOfMockIsIdentity(amount: int, draw: nat -> Sample)
    ensures FilterByAmount(MockData(amount, draw), amount) == MockData(amount, draw)
  {
    var fs := MockData(amount, draw).features.value;
    assert SliceEnd(|fs|, amount) == |fs|;
    assert fs[..|fs|] == fs;
  }

  /** A feature with its coordinates remapped and everything else kept. */
  function RemapFeature(f: Feature): Feature
  {
    f.(coordinates := ToIsrael(f.coordinates.lon, f.coordinates.lat))
  }

  /** Remaps every feature's coordinates, keeping count, order and properties. */
  function TransformData(d: LayerData): (r: LayerData)
    ensures d.features.None? ==> r == d
    ensures d.features.Some? ==> r.features.Some? && |r.features.value| == |d.features.value|
    ensures d.features.Some? ==> forall i :: 0 <= i < |d.features.value| ==>
              r.features.value[i].properties == d.features.value[i].properties &&
              r.features.value[i].coordinates ==
                ToIsrael(d.features.value[i].coordinates.lon, d.features.value[i].coordinates.lat)
  {
    match d.features
    case None => d
    case Some(fs) => LayerData(Some(seq(|fs|, i requires 0 <= i < |fs| => RemapFeature(fs[i]))))
  }

  /** The transform is undone feature by feature by the inverse remap. */
  lemma TransformDataInvertible(d: LayerData, i: nat)
    requires d.features.Some? && i < |d.features.value|
    ensures FromIsrael(TransformData(d).features.value[i].coordinates) == d.features.value[i].coordinates
  {
    var c := d.features.value[i].coordinates;
    var t := TransformData(d).features.value[i].coordinates;
    assert t == ToIsrael(c.lon, c.lat);
    ToIsraelInjective(FromIsrael(t).lon, FromIsrael(t).lat, c.lon, c.lat);
  }

  /** Filtering and remapping commute: the prefix of the remap is the remap of the prefix. */
  lemma TransformCommutesWithFilter(d: LayerData, amount: int)
    ensures TransformData(FilterByAmount(d, amount)) == FilterByAmount(TransformData(d), amount)
  {
    if d.features.Some? {
      var a := TransformData(FilterByAmount(d, amount)).features.value;
      var b := FilterByAmount(TransformData(d), amount).features.value;
      assert |a| == |b|;
      forall i | 0 <= i < |a| ensures a[i] == b[i] {
      }
      assert a == b;
    }
  }

  /** The data one build hands to its strategy. */
  function BuildData(amount: int, draw: nat -> Sample): LayerData
  {
    TransformData(FilterByAmount(MockData(amount, draw), amount))
  }

  /**
   * What a build hands to its strategy: min(amount, 100) features (none for a
   * negative amount), feature i still identified as `feature-i`, and every
   * position inside the target box.
   */
  lemma BuildDataShape(amount: int, draw: nat -> Sample)
    ensures BuildData(amount, draw).features.Some?
    ensures |BuildData(amount, draw).features.value| == MockCount(amount)
    ensures forall i :: 0 <= i < MockCount(amount) ==>
              BuildData(amount, draw).features.value[i].properties.id == "feature-" + NatToString(i)
    ensures forall i :: 0 <= i < MockCount(amount) ==>
              InBox(BuildData(amount, draw).features.value[i].coordinates)
  {
    FilterOfMockIsIdentity(amount, draw);
  }
}
