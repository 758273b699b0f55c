/**
 * The six layer-construction strategies of the map component. Each one turns
 * the remapped feature set and the resolved symbol into a LayerPlan: the
 * argument record the strategy hands to the mapping engine's layer
 * constructor. The constructor itself is outside the model.
 */
module Strategies {
  import opened Wrappers
  import opened Text
  import opened Catalog
  import opened GeoData
  import opened Symbols

  /** The popup template: every strategy shows the id; all but CSV also show latitude and longitude. */
  datatype Popup = IdOnly | IdLatLon

  datatype FieldType = Oid | StringField | DoubleField

  datatype Field = Field(name: string, alias: Option<string>, fieldType: FieldType)

  /**
   * Graphic attributes: a feature's whole property record, or the
   * four-attribute summary (object id under `objectIdField`, id, latitude,
   * longitude) of the collection and client-side strategies.
   */
  datatype Attributes =
    | AllProperties(properties: Properties)
    | Summary(objectIdField: string, objectId: nat, id: string, latitude: real, longitude: real)

  /** A point graphic; `wkid` is the spatial reference the point declares, if any. */
  datatype Graphic = Graphic(point: Coord, wkid: Option<nat>, attributes: Attributes)

  /** What a strategy asks the engine to construct. */
  datatype LayerPlan =
    | GeoJsonLayer(features: seq<Feature>, symbol: SymbolSpec, popup: Popup)
    | GraphicsLayer(graphics: seq<Graphic>, symbol: SymbolSpec, popup: Popup)
    | FeatureLayer(source: seq<Graphic>, objectIdField: string, fields: seq<Field>,
                   pointGeometry: bool, wkid: Option<nat>, symbol: SymbolSpec, popup: Popup)
    | CsvLayer(csv: string, latitudeField: string, longitudeField: string,
               symbol: SymbolSpec, popup: Popup)

  /** The geographic coordinate system every client-side layer declares. */
  const Wgs84: nat := 4326

  const FeatureFields: seq<Field> := [
    Field("OBJECTID", None, Oid), Field("id", None, StringField),
    Field("latitude", None, DoubleField), Field("longitude", None, DoubleField)]

  const CollectionFields: seq<Field> := [
    Field("ObjectID", None, Oid), Field("id", None, StringField),
    Field("latitude", None, DoubleField), Field("longitude", None, DoubleField)]

  const ClientSideFields: seq<Field> := [
    Field("OBJECTID", Some("OBJECTID"), Oid), Field("id", Some("ID"), StringField),
    Field("latitude", Some("Latitude"), DoubleField), Field("longitude", Some("Longitude"), DoubleField)]

  // ----- CSV text -----

  const CsvHeader: string := "longitude,latitude,id"

  /** One CSV record, `lon,lat,"id"`; `show` renders a number as JavaScript does. */
  function CsvRow(f: Feature, show: real -> string): string
  {
    show(f.coordinates.lon) + "," + show(f.coordinates.lat) + ",\"" + f.properties.id + "\""
  }

  function CsvRows(fs: seq<Feature>, show: real -> string): (rows: seq<string>)
    ensures |rows| == |fs|
    ensures forall i :: 0 <= i < |fs| ==> rows[i] == CsvRow(fs[i], show)
  {
    seq(|fs|, i requires 0 <= i < |fs| => CsvRow(fs[i], show))
  }

  /** Lines joined into a text, each one followed by a newline. */
  function Terminated(lines: seq<string>): string
  {
    if lines == [] then "" else lines[0] + "\n" + Terminated(lines[1..])
  }

  lemma {:induction false} TerminatedSnoc(lines: seq<string>, line: string)
    ensures Terminated(lines + [line]) == Terminated(lines) + line + "\n"
  {
    if lines != [] {
      assert (lines + [line])[1..] == lines[1..] + [line];
      TerminatedSnoc(lines[1..], line);
    } else {
      assert Terminated([line]) == line + "\n" + Terminated([]);
    }
  }

  /** The CSV document: the header, then one record per feature in feature order. */
  function CsvText(fs: seq<Feature>, show: real -> string): string
  {
    Terminated([CsvHeader] + CsvRows(fs, show))
  }

  /** The CSV strategy's loop: appends one record per feature to the text. */
  method BuildCsvText(fs: seq<Feature>, show: real -> string) returns (csvContent: string)
    ensures csvContent == CsvText(fs, show)
  {
    csvContent := CsvHeader + "\n";
    assert csvContent == Terminated([CsvHeader]);
    var i := 0;
    while i < |fs|
      invariant 0 <= i <= |fs|
      invariant csvContent == Terminated([CsvHeader] + CsvRows(fs[..i], show))
    {
      var f := fs[i];
      TerminatedSnoc([CsvHeader] + CsvRows(fs[..i], show), CsvRow(f, show));
      assert [CsvHeader] + CsvRows(fs[..i + 1], show) == [CsvHeader] + CsvRows(fs[..i], show) + [CsvRow(f, show)];
      csvContent := csvContent + show(f.coordinates.lon) + "," + show(f.coordinates.lat) + ",\"" + f.properties.id + "\"" + "\n";
      i := i + 1;
    }
    assert fs[..i] == fs;
  }

  /** The position of the first newline in `s`, or |s| if there is none. */
  function LineEnd(s: string): (k: nat)
    ensures k <= |s|
    ensures k < |s| ==> s[k] == '\n'
    ensures forall j :: 0 <= j < k ==> s[j] != '\n'
  {
    if s == [] || s[0] == '\n' then 0 else 1 + LineEnd(s[1..])
  }

  /** Splits a text into its newline-terminated lines. */
  function SplitLines(s: string): seq<string>
    decreases |s|
  {
    if s == [] then [] else
    var k := LineEnd(s);
    [s[..k]] + SplitLines(if k < |s| then s[k + 1..] else [])
  }

  /** Splitting undoes Terminated for lines that contain no newline. */
  lemma {:induction false} SplitTerminated(lines: seq<string>)
    requires forall i :: 0 <= i < |lines| ==> '\n' !in lines[i]
    ensures SplitLines(Terminated(lines)) == lines
  {
    if lines != [] {
      var l, rest := lines[0], Terminated(lines[1..]);
      var s := Terminated(lines);
      assert s == l + "\n" + rest;
      LineEndOfLine(l, rest);
      assert s[..|l|] == l;
      assert s[|l| + 1..] == rest;
      SplitTerminated(lines[1..]);
    }
  }

  lemma LineEndOfLine(l: string, rest: string)
    requires '\n' !in l
    ensures LineEnd(l + "\n" + rest) == |l|
  {
    var s := l + "\n" + rest;
    assert forall j :: 0 <= j < |l| ==> s[j] == l[j];
    assert s[|l|] == '\n';
  }

  /**
   * The CSV text reads back, line by line, as the header followed by exactly
   * one record per feature in feature order, provided no rendered number and
   * no id contains a newline.
   */
  lemma CsvLines(fs: seq<Feature>, show: real -> string)
    requires forall x :: '\n' !in show(x)
    requires forall i :: 0 <= i < |fs| ==> '\n' !in fs[i].properties.id
    ensures SplitLines(CsvText(fs, show)) == [CsvHeader] + CsvRows(fs, show)
    ensures |SplitLines(CsvText(fs, show))| == |fs| + 1
  {
    var lines := [CsvHeader] + CsvRows(fs, show);
    forall i | 0 <= i < |lines| ensures '\n' !in lines[i] {
      if i > 0 {
        var f := fs[i - 1];
        assert lines[i] == show(f.coordinates.lon) + "," + show(f.coordinates.lat) + ",\"" + f.properties.id + "\"";
      }
    }
    SplitTerminated(lines);
  }

  // ----- the six strategies -----

  /** One graphic per feature carrying the feature's whole property record. */
  function PlainGraphics(fs: seq<Feature>): (gs: seq<Graphic>)
    ensures |gs| == |fs|
    ensures forall i :: 0 <= i < |fs| ==>
              && gs[i].point == fs[i].coordinates
              && gs[i].wkid == None
              && gs[i].attributes == AllProperties(fs[i].properties)
  {
    seq(|fs|, i requires 0 <= i < |fs| => Graphic(fs[i].coordinates, None, AllProperties(fs[i].properties)))
  }

  /** One graphic per feature whose object id is its index. */
  function IndexedGraphics(fs: seq<Feature>, objectIdField: string, wkid: Option<nat>): (gs: seq<Graphic>)
    ensures |gs| == |fs|
    ensures forall i :: 0 <= i < |fs| ==>
              && gs[i].point == fs[i].coordinates
              && gs[i].wkid == wkid
              && gs[i].attributes.Summary?
              && gs[i].attributes.objectIdField == objectIdField
              && gs[i].attributes.objectId == i
              && gs[i].attributes.id == fs[i].properties.id
              && gs[i].attributes.latitude == fs[i].properties.latitude
              && gs[i].attributes.longitude == fs[i].properties.longitude
  {
    seq(|fs|, i requires 0 <= i < |fs| =>
      Graphic(fs[i].coordinates, wkid,
              Summary(objectIdField, i, fs[i].properties.id, fs[i].properties.latitude, fs[i].properties.longitude)))
  }

  /** The plan the strategy of `kind` produces for `data` (features absent counts as none). */
  function PlanFor(layerTypes: seq<LayerType>, kind: LayerKind, data: LayerData, layerId: string,
                   symbolType: string, show: real -> string): LayerPlan
  {
    var fs := FeaturesOrEmpty(data);
    var symbol := SymbolForType(layerTypes, layerId, symbolType);
    match kind
    case GeoJson => GeoJsonLayer(fs, symbol, IdLatLon)
    case Graphics => GraphicsLayer(PlainGraphics(fs), symbol, IdLatLon)
    case Feature => FeatureLayer(PlainGraphics(fs), "OBJECTID", FeatureFields, false, None, symbol, IdLatLon)
    case Csv => CsvLayer(CsvText(fs, show), "latitude", "longitude", symbol, IdOnly)
    case FeatureCollection =>
      FeatureLayer(IndexedGraphics(fs, "ObjectID", None), "ObjectID", CollectionFields, true, None, symbol, IdLatLon)
    case ClientSide =>
      FeatureLayer(IndexedGraphics(fs, "OBJECTID", Some(Wgs84)), "OBJECTID", ClientSideFields, true, Some(Wgs84), symbol, IdLatLon)
  }

  /** The graphics strategy's loop: adds one graphic per feature to the layer. */
  method BuildGraphics(fs: seq<Feature>) returns (graphics: seq<Graphic>)
    ensures graphics == PlainGraphics(fs)
  {
    graphics := [];
    var i := 0;
    while i < |fs|
      invariant 0 <= i <= |fs|
      invariant graphics == PlainGraphics(fs[..i])
    {
      var f := fs[i];
      assert PlainGraphics(fs[..i + 1]) == PlainGraphics(fs[..i]) + [Graphic(f.coordinates, None, AllProperties(f.properties))];
      graphics := graphics + [Graphic(f.coordinates, None, AllProperties(f.properties))];
      i := i + 1;
    }
    assert fs[..i] == fs;
  }

  /** The dispatch over the closed kind tag: one strategy per kind. */
  method BuildLayer(layerTypes: seq<LayerType>, kind: LayerKind, data: LayerData, layerId: string,
                    symbolType: string, show: real -> string) returns (plan: LayerPlan)
    ensures plan == PlanFor(layerTypes, kind, data, layerId, symbolType, show)
  {
    var features := FeaturesOrEmpty(data);
    var symbol := SymbolForType(layerTypes, layerId, symbolType);
    match kind {
      case GeoJson =>
        plan := GeoJsonLayer(features, symbol, IdLatLon);
      case Graphics =>
        var graphics := BuildGraphics(features);
        plan := GraphicsLayer(graphics, symbol, IdLatLon);
      case Feature =>
        plan := FeatureLayer(PlainGraphics(features), "OBJECTID", FeatureFields, false, None, symbol, IdLatLon);
      case Csv =>
        var csvContent := BuildCsvText(features, show);
        plan := CsvLayer(csvContent, "latitude", "longitude", symbol, IdOnly);
      case FeatureCollection =>
        plan := FeatureLayer(IndexedGraphics(features, "ObjectID", None), "ObjectID", CollectionFields,
                             true, None, symbol, IdLatLon);
      case ClientSide =>
        plan := FeatureLayer(IndexedGraphics(features, "OBJECTID", Some(Wgs84)), "OBJECTID", ClientSideFields,
                             true, Some(Wgs84), symbol, IdLatLon);
    }
  }

  // ----- properties of the plans -----

  /** The point positions a plan draws (a CSV layer's positions are inside its text). */
  function PlanPoints(plan: LayerPlan): seq<Coord>
  {
    match plan
    case GeoJsonLayer(fs, _, _) => seq(|fs|, i requires 0 <= i < |fs| => fs[i].coordinates)
    case GraphicsLayer(gs, _, _) => seq(|gs|, i requires 0 <= i < |gs| => gs[i].point)
    case FeatureLayer(gs, _, _, _, _, _, _) => seq(|gs|, i requires 0 <= i < |gs| => gs[i].point)
    case CsvLayer(_, _, _, _, _) => []
  }

  /**
   * Every strategy draws exactly the data's features at their given
   * positions, in order, with the resolved symbol; all popups show the id,
   * and all but CSV also show latitude and longitude.
   */
  lemma PlanDrawsFeatures(layerTypes: seq<LayerType>, kind: LayerKind, data: LayerData, layerId: string,
                          symbolType: string, show: real -> string)
    ensures var plan := PlanFor(layerTypes, kind, data, layerId, symbolType, show);
            var fs := FeaturesOrEmpty(data);
            && plan.symbol == SymbolForType(layerTypes, layerId, symbolType)
            && (plan.popup == IdLatLon <==> kind != Csv)
            && (kind != Csv ==>
                  && |PlanPoints(plan)| == |fs|
                  && forall i :: 0 <= i < |fs| ==> PlanPoints(plan)[i] == fs[i].coordinates)
            && (kind == Csv ==> plan.csv == CsvText(fs, show))
  {
  }

  /**
   * The object-id scheme per kind: the collection strategy names its id
   * field `ObjectID`, the other feature strategies `OBJECTID`; the indexed
   * strategies number graphic i as i and keep its feature id; only the
   * client-side strategy declares a spatial reference.
   */
  lemma PlanIdentityScheme(layerTypes: seq<LayerType>, kind: LayerKind, data: LayerData, layerId: string,
                           symbolType: string, show: real -> string)
    ensures var plan := PlanFor(layerTypes, kind, data, layerId, symbolType, show);
            var fs := FeaturesOrEmpty(data);
            && (plan.FeatureLayer? <==> kind in {LayerKind.Feature, FeatureCollection, ClientSide})
            && (plan.FeatureLayer? ==> plan.objectIdField == (if kind == FeatureCollection then "ObjectID" else "OBJECTID"))
            && (plan.FeatureLayer? ==> plan.wkid == (if kind == ClientSide then Some(Wgs84) else None))
            && (kind in {FeatureCollection, ClientSide} ==>
                  forall i :: 0 <= i < |fs| ==>
                    && plan.source[i].attributes.Summary?
                    && plan.source[i].attributes.objectId == i
                    && plan.source[i].attributes.objectIdField == plan.objectIdField
                    && plan.source[i].attributes.id == fs[i].properties.id)
  {
  }

  /**
   * For a build's data every drawn position lies inside the target box; a
   * CSV layer's text is written from features that all lie inside it.
   */
  lemma BuildPlanInBox(layerTypes: seq<LayerType>, kind: LayerKind, amount: int, draw: nat -> Sample,
                       layerId: string, symbolType: string, show: real -> string)
    ensures var plan := PlanFor(layerTypes, kind, BuildData(amount, draw), layerId, symbolType, show);
            forall i :: 0 <= i < |PlanPoints(plan)| ==> InBox(PlanPoints(plan)[i])
    ensures var plan := PlanFor(layerTypes, kind, BuildData(amount, draw), layerId, symbolType, show);
            var fs := FeaturesOrEmpty(BuildData(amount, draw));
            kind == Csv ==> plan.csv == CsvText(fs, show) && forall i :: 0 <= i < |fs| ==> InBox(fs[i].coordinates)
  {
    BuildDataShape(amount, draw);
    PlanDrawsFeatures(layerTypes, kind, BuildData(amount, draw), layerId, symbolType, show);
  }

  /** A build's CSV text has exactly one record line per generated feature. */
  lemma BuildCsvLineCount(amount: int, draw: nat -> Sample, show: real -> string)
    requires forall x :: '\n' !in show(x)
    ensures |SplitLines(CsvText(FeaturesOrEmpty(BuildData(amount, draw)), show))| == MockCount(amount) + 1
  {
    var fs := FeaturesOrEmpty(BuildData(amount, draw));
    BuildDataShape(amount, draw);
    forall i | 0 <= i < |fs| ensures '\n' !in fs[i].properties.id {
      assert fs[i].properties.id == "feature-" + NatToString(i);
      assert forall j :: 0 <= j < |NatToString(i)| ==> IsDigit(NatToString(i)[j]);
    }
    CsvLines(fs, show);
  }
}
