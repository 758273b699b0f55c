/**
 * The symbol resolver of the map component: a marker description per
 * symbol family, coloured by the layer's table colour. The two picture
 * families carry an icon; its SVG markup is represented by the template it
 * is drawn from and the fill colour embedded in it.
 */
module Symbols {
  import opened Wrappers
  import opened Text
  import opened Catalog

  datatype MarkerStyle = Circle | Square | Diamond | Cross | X | Triangle

  /**
   * A picture-marker icon: `Badge` is the ringed circle of the
   * `picture-marker` family, `Template(k, _)` the k-th of the six
   * `complex-svg` templates.
   */
  datatype Icon = Badge(fill: Rgba) | Template(index: nat, fill: Rgba)

  /** A renderable marker description (outlines are always white). */
  datatype SymbolSpec =
    | SimpleMarker(style: MarkerStyle, color: Rgba, sizePx: nat, outlineWidth: nat)
    | PictureMarker(icon: Icon, widthPx: nat, heightPx: nat)

  /** The number of complex-svg templates. */
  const TemplateCount: nat := 6

  /**
   * The complex-svg template of a layer: its position in the catalog
   * `layerTypes` (0 if absent) mod 6.
   */
  function ComplexSvgIndex(layerTypes: seq<LayerType>, layerId: string): (k: nat)
    ensures k < TemplateCount
    ensures FindIn(layerTypes, layerId).Some? ==> k == IndexIn(layerTypes, layerId) % TemplateCount
    ensures FindIn(layerTypes, layerId).None? ==> k == 0
  {
    var layerIndex := IndexIn(layerTypes, layerId);
    (if layerIndex >= 0 then layerIndex else 0) % TemplateCount
  }

  function ComplexSvg(layerTypes: seq<LayerType>, layerId: string): Icon
  {
    Template(ComplexSvgIndex(layerTypes, layerId), ColorForLayer(layerId))
  }

  /** Entry k of the catalog is drawn with template k mod 6. */
  lemma ComplexSvgOfCatalogEntry(k: nat)
    requires k < |LayerTypes|
    ensures ComplexSvgIndex(LayerTypes, LayerTypes[k].id) == k % TemplateCount
  {
    IndexOfCatalogEntry(k);
  }

  /** Any six consecutive catalog entries use six different templates. */
  lemma ComplexSvgVaries(i: nat, j: nat)
    requires i < j < |LayerTypes| && j - i < TemplateCount
    ensures ComplexSvgIndex(LayerTypes, LayerTypes[i].id) != ComplexSvgIndex(LayerTypes, LayerTypes[j].id)
  {
    ComplexSvgOfCatalogEntry(i);
    ComplexSvgOfCatalogEntry(j);
    ResiduesDiffer(i, j);
  }

  lemma ResiduesDiffer(i: nat, j: nat)
    requires i < j && j - i < TemplateCount
    ensures i % TemplateCount != j % TemplateCount
  {
    var qi, qj := i / TemplateCount, j / TemplateCount;
    assert i == qi * TemplateCount + i % TemplateCount;
    assert j == qj * TemplateCount + j % TemplateCount;
  }

  /** The symbol families the resolver knows, one per key of its table. */
  datatype SymbolFamily =
    | SimpleMarkerFamily | CircleFamily | SquareFamily | DiamondFamily | CrossFamily | XFamily
    | TriangleFamily | PictureMarkerFamily | ComplexSvgFamily

  /** The key string of a family. */
  function FamilyTag(f: SymbolFamily): string
  {
    match f
    case SimpleMarkerFamily => "simple-marker"
    case CircleFamily => "circle"
    case SquareFamily => "square"
    case DiamondFamily => "diamond"
    case CrossFamily => "cross"
    case XFamily => "x"
    case TriangleFamily => "triangle"
    case PictureMarkerFamily => "picture-marker"
    case ComplexSvgFamily => "complex-svg"
  }

  /** The family a key names, if any. */
  function FamilyOf(symbolType: string): (r: Option<SymbolFamily>)
    ensures r.Some? ==> FamilyTag(r.value) == symbolType
  {
    if symbolType == "simple-marker" then Some(SimpleMarkerFamily)
    else if symbolType == "circle" then Some(CircleFamily)
    else if symbolType == "square" then Some(SquareFamily)
    else if symbolType == "diamond" then Some(DiamondFamily)
    else if symbolType == "cross" then Some(CrossFamily)
    else if symbolType == "x" then Some(XFamily)
    else if symbolType == "triangle" then Some(TriangleFamily)
    else if symbolType == "picture-marker" then Some(PictureMarkerFamily)
    else if symbolType == "complex-svg" then Some(ComplexSvgFamily)
    else None
  }

  /** Every family's key reads back as that family: the nine keys are distinct. */
  lemma FamilyTagRoundTrip(f: SymbolFamily)
    ensures FamilyOf(FamilyTag(f)) == Some(f)
  {
    var t := FamilyTag(f);
    match f
    case SimpleMarkerFamily =>
    case CircleFamily =>
      assert t != "simple-marker" by { assert t[0] != "simple-marker"[0]; }
    case SquareFamily =>
      assert t != "simple-marker" by { assert t[1] != "simple-marker"[1]; }
      assert t != "circle" by { assert t[0] != "circle"[0]; }
    case DiamondFamily =>
    case CrossFamily =>
      assert t != "circle" by { assert t[1] != "circle"[1]; }
    case XFamily =>
    case TriangleFamily =>
    case PictureMarkerFamily =>
    case ComplexSvgFamily =>
      assert t != "circle" by { assert t[1] != "circle"[1]; }
      assert t != "cross" by { assert t[1] != "cross"[1]; }
  }

  /** The table entry of a family for one layer. */
  function FamilySymbol(layerTypes: seq<LayerType>, layerId: string, f: SymbolFamily): SymbolSpec
  {
    var color := ColorForLayer(layerId);
    match f
    case SimpleMarkerFamily => SimpleMarker(Circle, color, 8, 1)
    case CircleFamily => SimpleMarker(Circle, color, 10, 2)
    case SquareFamily => SimpleMarker(Square, color, 10, 1)
    case DiamondFamily => SimpleMarker(Diamond, color, 12, 1)
    case CrossFamily => SimpleMarker(Cross, color, 12, 2)
    case XFamily => SimpleMarker(X, color, 12, 2)
    case TriangleFamily => SimpleMarker(Triangle, color, 12, 1)
    case PictureMarkerFamily => PictureMarker(Badge(color), 20, 20)
    case ComplexSvgFamily => PictureMarker(ComplexSvg(layerTypes, layerId), 20, 20)
  }

  /** The colour a symbol is drawn in. */
  function SymbolColor(s: SymbolSpec): Rgba
  {
    match s
    case SimpleMarker(_, c, _, _) => c
    case PictureMarker(icon, _, _) => icon.fill
  }

  /**
   * The entry for the selected family, or the 8px simple circle for an
   * unknown family; either way drawn in the layer's colour.
   */
  function SymbolForType(layerTypes: seq<LayerType>, layerId: string, symbolType: string): (s: SymbolSpec)
    ensures FamilyOf(symbolType).Some? ==> s == FamilySymbol(layerTypes, layerId, FamilyOf(symbolType).value)
    ensures FamilyOf(symbolType).None? ==> s == SimpleMarker(Circle, ColorForLayer(layerId), 8, 1)
    ensures SymbolColor(s) == ColorForLayer(layerId)
  {
    match FamilyOf(symbolType)
    case Some(f) => FamilySymbol(layerTypes, layerId, f)
    case None => FamilySymbol(layerTypes, layerId, SimpleMarkerFamily)
  }

  /** Only the two picture families produce picture markers; complex-svg uses the layer's template. */
  lemma SymbolShapeByFamily(layerTypes: seq<LayerType>, layerId: string, f: SymbolFamily)
    ensures SymbolForType(layerTypes, layerId, FamilyTag(f)).PictureMarker? <==>
            f == PictureMarkerFamily || f == ComplexSvgFamily
    ensures f == ComplexSvgFamily ==>
            SymbolForType(layerTypes, layerId, FamilyTag(f)).icon ==
            Template(ComplexSvgIndex(layerTypes, layerId), ColorForLayer(layerId))
  {
    FamilyTagRoundTrip(f);
  }

  /** `rgba(r, g, b, a)` for the layer's colour, `showAlpha` rendering the alpha number. */
  function LayerColorStyle(layerId: string, showAlpha: real -> string): (r: string)
    ensures ColorForLayer(layerId) == DefaultColor && showAlpha(0.8) == "0.8" ==> r == "rgba(255, 69, 0, 0.8)"
  {
    var c := ColorForLayer(layerId);
    "rgba(" + NatToString(c.r) + ", " + NatToString(c.g) + ", " + NatToString(c.b) + ", " + showAlpha(c.a) + ")"
  }
}
