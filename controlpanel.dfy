/**
 * The control panel of the map page: the bounded, newest-first history of
 * applied settings, the panel's two disclosure flags, and the small lookups
 * the panel displays (entity counts, symbol and basemap names, layer colour
 * swatches). Wall-clock timestamps are a parameter.
 */
module ControlPanel {
  import opened Wrappers
  import opened Text
  import opened Catalog
  import opened Symbols

  // ----- entity counts -----

  /** The catalog size the total count assumes when no catalog has arrived yet. */
  const FallbackLayerCount := 22

  /** Entities drawn once every layer is shown: the amount per layer times the catalog size (22 when empty). */
  function TotalEntities(entitiesAmount: int, layerCount: nat): (r: int)
    ensures layerCount > 0 ==> r == entitiesAmount * layerCount
    ensures layerCount == 0 ==> r == entitiesAmount * FallbackLayerCount
  {
    entitiesAmount * (if layerCount == 0 then FallbackLayerCount else layerCount)
  }

  /** Entities drawn by the active layers: the amount per layer times the active count. */
  function ActiveEntitiesCount(entitiesAmount: int, activeLayerIds: set<string>): (r: int)
    ensures r == entitiesAmount * |activeLayerIds|
    ensures activeLayerIds == {} ==> r == 0
    ensures entitiesAmount >= 0 ==> r >= 0
  {
    entitiesAmount * |activeLayerIds|
  }

  /**
   * With a non-negative amount and only catalog ids active, the active count
   * never exceeds the total the catalog offers.
   */
  lemma ActiveAtMostTotal(entitiesAmount: int, layerTypes: seq<LayerType>, activeLayerIds: set<string>)
    requires entitiesAmount >= 0
    requires forall id :: id in activeLayerIds ==> id in IdsOf(layerTypes)
    ensures ActiveEntitiesCount(entitiesAmount, activeLayerIds) <= TotalEntities(entitiesAmount, |layerTypes|)
  {
    var ids := IdsOf(layerTypes);
    var known := set id | id in ids;
    CardSetOfSeq(ids);
    assert known == activeLayerIds + (known - activeLayerIds);
    var n := if |layerTypes| == 0 then FallbackLayerCount else |layerTypes|;
    assert |activeLayerIds| <= n;
    MulMonotone(entitiesAmount, |activeLayerIds|, n);
  }

  lemma MulMonotone(a: int, m: nat, n: nat)
    requires a >= 0 && m <= n
    ensures a * m <= a * n
  {
  }

  // ----- symbol names -----

  /** The panel's display names, keyed by symbol-type id. */
  const SymbolNames: map<string, string> := map[
    "simple-marker" := "Simple Point",
    "circle" := "Circle",
    "square" := "Square",
    "diamond" := "Diamond",
    "cross" := "Cross",
    "x" := "X Symbol",
    "triangle" := "Triangle",
    "picture-marker" := "SVG Icon",
    "complex-svg" := "Complex SVG"
  ]

  /** The symbol-type ids the panel has a display name for. */
  const NamedSymbolTypes: set<string> := SymbolNames.Keys

  /** No display name is empty or the bare id, so a named type never falls back to its id. */
  lemma SymbolNamesShown()
    ensures forall t :: t in SymbolNames ==> SymbolNames[t] != "" && SymbolNames[t] != t
  {
  }

  /** The display name of a symbol-type id, or the id itself when it has none (an empty name would fall back too). */
  function SymbolTypeName(symbolType: string): (r: string)
    ensures symbolType in SymbolNames ==> r == SymbolNames[symbolType]
    ensures symbolType !in SymbolNames ==> r == symbolType
  {
    SymbolNamesShown();
    if symbolType in SymbolNames && SymbolNames[symbolType] != "" then SymbolNames[symbolType] else symbolType
  }

  /**
   * The panel names exactly the symbol types the map draws with a symbol
   * of their own: a type has a display name iff the map's symbol table
   * knows it.
   */
  lemma NamedIffDrawn(symbolType: string)
    ensures symbolType in NamedSymbolTypes <==> FamilyOf(symbolType).Some?
  {
    if FamilyOf(symbolType).Some? {
      FamilyTagRoundTrip(FamilyOf(symbolType).value);
    }
  }

  // ----- basemap names -----

  datatype BasemapOption = BasemapOption(id: string, name: string)

  /** The basemaps the panel offers, in menu order. */
  const BasemapOptions: seq<BasemapOption> := [
    BasemapOption("streets-vector", "Streets"),
    BasemapOption("satellite", "Satellite"),
    BasemapOption("hybrid", "Hybrid (Satellite + Labels)"),
    BasemapOption("topo-vector", "Topographic"),
    BasemapOption("gray-vector", "Gray Canvas"),
    BasemapOption("dark-gray-vector", "Dark Gray Canvas"),
    BasemapOption("oceans", "Oceans"),
    BasemapOption("national-geographic", "National Geographic"),
    BasemapOption("terrain", "Terrain"),
    BasemapOption("osm", "OpenStreetMap"),
    BasemapOption("streets-night-vector", "Streets (Night)"),
    BasemapOption("streets-navigation-vector", "Streets (Navigation)"),
    BasemapOption("streets-relief-vector", "Streets (Relief)")
  ]

  /** The position of the first option with id `id`, or -1. */
  function OptionIndex(options: seq<BasemapOption>, id: string): (k: int)
    ensures -1 <= k < |options|
    ensures k >= 0 ==> options[k].id == id && forall j :: 0 <= j < k ==> options[j].id != id
    ensures k == -1 <==> forall j :: 0 <= j < |options| ==> options[j].id != id
  {
    if options == [] then -1
    else if options[0].id == id then 0
    else var k := OptionIndex(options[1..], id); if k == -1 then -1 else k + 1
  }

  /** The name of the first option with id `id`, or `id` itself when none matches. */
  function BasemapName(options: seq<BasemapOption>, id: string): (r: string)
    ensures OptionIndex(options, id) >= 0 ==> r == options[OptionIndex(options, id)].name
    ensures OptionIndex(options, id) == -1 ==> r == id
  {
    if options == [] then id
    else if options[0].id == id then options[0].name
    else BasemapName(options[1..], id)
  }

  /** In a menu without repeated ids, every option shows its own name. */
  lemma {:induction false} BasemapNameOfDistinct(options: seq<BasemapOption>, k: nat)
    requires k < |options|
    requires forall i, j :: 0 <= i < j < |options| ==> options[i].id != options[j].id
    ensures BasemapName(options, options[k].id) == options[k].name
  {
    if k > 0 {
      var rest := options[1..];
      assert options[0].id != options[k].id;
      assert rest[k - 1] == options[k];
      forall i, j | 0 <= i < j < |rest| ensures rest[i].id != rest[j].id {
        assert rest[i] == options[i + 1] && rest[j] == options[j + 1];
      }
      BasemapNameOfDistinct(rest, k - 1);
    }
  }

  /** The basemap menu repeats no id. */
  lemma BasemapIdsDistinct()
    ensures forall i, j :: 0 <= i < j < |BasemapOptions| ==> BasemapOptions[i].id != BasemapOptions[j].id
  {
  }

  /** Every offered basemap shows its own name. */
  lemma BasemapNameOfOption(k: nat)
    requires k < |BasemapOptions|
    ensures BasemapName(BasemapOptions, BasemapOptions[k].id) == BasemapOptions[k].name
  {
    BasemapIdsDistinct();
    BasemapNameOfDistinct(BasemapOptions, k);
  }

  // ----- layer colour swatches -----

  /** The panel's own table of CSS colours, keyed by layer id. */
  const ColorStyles: map<string, string> := map[
    "geojson" := "rgba(255, 69, 0, 0.8)",
    "graphics" := "rgba(0, 191, 255, 0.8)",
    "feature" := "rgba(50, 205, 50, 0.8)",
    "csv" := "rgba(255, 215, 0, 0.8)",
    "collection-2" := "rgba(138, 43, 226, 0.8)",
    "client-side" := "rgba(220, 20, 60, 0.8)",
    "geojson-2" := "rgba(255, 140, 0, 0.8)",
    "graphics-2" := "rgba(30, 144, 255, 0.8)",
    "feature-2" := "rgba(34, 139, 34, 0.8)",
    "csv-2" := "rgba(218, 165, 32, 0.8)",
    "feature-collection" := "rgba(147, 112, 219, 0.8)",
    "client-side-2" := "rgba(199, 21, 133, 0.8)",
    "geojson-3" := "rgba(255, 99, 71, 0.8)",
    "graphics-3" := "rgba(70, 130, 180, 0.8)",
    "feature-3" := "rgba(60, 179, 113, 0.8)",
    "csv-3" := "rgba(184, 134, 11, 0.8)",
    "collection-3" := "rgba(123, 104, 238, 0.8)",
    "client-side-3" := "rgba(186, 85, 211, 0.8)",
    "geojson-4" := "rgba(255, 127, 80, 0.8)",
    "graphics-4" := "rgba(95, 158, 160, 0.8)",
    "feature-4" := "rgba(46, 139, 87, 0.8)",
    "csv-4" := "rgba(205, 133, 63, 0.8)"
  ]

  const DefaultColorStyle := "rgba(255, 69, 0, 0.8)"

  /** The swatch colour of a layer: its table entry (never empty), or orange-red for an unknown id. */
  function ColorStyle(layerId: string): (r: string)
    ensures layerId in ColorStyles ==> r == ColorStyles[layerId]
    ensures layerId !in ColorStyles ==> r == DefaultColorStyle
  {
    if layerId in ColorStyles && ColorStyles[layerId] != "" then ColorStyles[layerId] else DefaultColorStyle
  }

  /**
   * Off the catalog the map's rgba text and the panel's swatch agree: both
   * fall back to the same orange-red, once the alpha 0.8 renders as `0.8`.
   */
  lemma LayerColorStyleOffCatalog(layerId: string, showAlpha: real -> string)
    requires layerId !in CatalogIds()
    requires showAlpha(0.8) == "0.8"
    ensures ColorForLayer(layerId) == DefaultColor
    ensures LayerColorStyle(layerId, showAlpha) == ColorStyle(layerId) == DefaultColorStyle
  {
    SwatchTableCoversCatalog();
  }

  // ----- settings history -----

  const HistoryCap := 20

  /** One applied-settings record, as displayed: names rather than ids. */
  datatype HistoryEntry = HistoryEntry(timestamp: nat, basemap: string, symbolType: string,
                                       totalEntities: int, loadingTime: real, activeLayersCount: nat)

  /** What applying the settings announces to the map. */
  datatype Settings = Settings(basemap: string, symbolType: string, entitiesAmount: int)

  /** `h` with `e` in front, cut to the 20 newest entries. */
  function WithNewest(h: seq<HistoryEntry>, e: HistoryEntry): (r: seq<HistoryEntry>)
    ensures |r| == if |h| + 1 <= HistoryCap then |h| + 1 else HistoryCap
    ensures r[0] == e
    ensures forall i :: 1 <= i < |r| ==> r[i] == h[i - 1]
  {
    var pushed := [e] + h;
    if |pushed| > HistoryCap then pushed[..HistoryCap] else pushed
  }

  /** The history that recording `es` in order, one after another, leaves on top of `h`. */
  function RecordAll(h: seq<HistoryEntry>, es: seq<HistoryEntry>): seq<HistoryEntry>
  {
    if es == [] then h else WithNewest(RecordAll(h, es[..|es| - 1]), es[|es| - 1])
  }

  function Reversed<T>(s: seq<T>): (r: seq<T>)
    ensures |r| == |s|
    ensures forall i :: 0 <= i < |s| ==> r[i] == s[|s| - 1 - i]
  {
    if s == [] then [] else [s[|s| - 1]] + Reversed(s[..|s| - 1])
  }

  /**
   * Recording entries into an empty history keeps the 20 most recent ones,
   * newest first.
   */
  lemma {:induction false} RecordAllKeepsNewest(es: seq<HistoryEntry>)
    ensures var n := if |es| <= HistoryCap then |es| else HistoryCap;
            RecordAll([], es) == Reversed(es)[..n]
  {
    if es != [] {
      var init := es[..|es| - 1];
      RecordAllKeepsNewest(init);
      var n := if |es| <= HistoryCap then |es| else HistoryCap;
      var rec := RecordAll([], es);
      var want := Reversed(es)[..n];
      assert |rec| == |want|;
      forall i | 0 <= i < |rec| ensures rec[i] == want[i] {
        if i > 0 {
          assert rec[i] == RecordAll([], init)[i - 1];
        }
      }
    }
  }

  /** The fields of the panel that recording and the toggles leave alone. */
  datatype PanelInputs = PanelInputs(layerTypes: seq<LayerType>, activeLayerIds: set<string>, isLoading: bool,
                                     totalLoadingTime: real, selectedBasemap: string,
                                     selectedSymbolType: string, entitiesAmount: int)

  class Panel {
    var layerTypes: seq<LayerType>
    var activeLayerIds: set<string>
    var isLoading: bool
    var totalLoadingTime: real
    var selectedBasemap: string
    var selectedSymbolType: string
    var entitiesAmount: int
    var isLayerPanelOpen: bool
    var isHistoryExpanded: bool
    var history: seq<HistoryEntry>

    ghost predicate Valid()
      reads this
    {
      |history| <= HistoryCap
    }

    function Inputs(): PanelInputs
      reads this
    {
      PanelInputs(layerTypes, activeLayerIds, isLoading, totalLoadingTime,
                  selectedBasemap, selectedSymbolType, entitiesAmount)
    }

    /** The record of the current settings, stamped `now`. */
    function CurrentEntry(now: nat): HistoryEntry
      reads this
    {
      HistoryEntry(now, BasemapName(BasemapOptions, selectedBasemap), SymbolTypeName(selectedSymbolType),
                   entitiesAmount, totalLoadingTime, |activeLayerIds|)
    }

    constructor ()
      ensures Valid() && history == []
      ensures Inputs() == PanelInputs([], {}, false, 0.0, "streets-vector", "simple-marker", 50000)
      ensures !isLayerPanelOpen && !isHistoryExpanded
    {
      layerTypes := [];
      activeLayerIds := {};
      isLoading := false;
      totalLoadingTime := 0.0;
      selectedBasemap := "streets-vector";
      selectedSymbolType := "simple-marker";
      entitiesAmount := 50000;
      isLayerPanelOpen := false;
      isHistoryExpanded := false;
      history := [];
    }

    method ToggleLayerPanel()
      modifies this
      ensures isLayerPanelOpen == !old(isLayerPanelOpen)
      ensures isHistoryExpanded == old(isHistoryExpanded) && history == old(history) && Inputs() == old(Inputs())
    {
      isLayerPanelOpen := !isLayerPanelOpen;
    }

    method ToggleHistory()
      modifies this
      ensures isHistoryExpanded == !old(isHistoryExpanded)
      ensures isLayerPanelOpen == old(isLayerPanelOpen) && history == old(history) && Inputs() == old(Inputs())
    {
      isHistoryExpanded := !isHistoryExpanded;
    }

    method ClearHistory()
      modifies this
      ensures Valid() && history == []
      ensures isLayerPanelOpen == old(isLayerPanelOpen) && isHistoryExpanded == old(isHistoryExpanded)
      ensures Inputs() == old(Inputs())
    {
      history := [];
    }

    /** Records the current settings, stamped `now`, as the newest entry of the bounded history. */
    method AddToHistory(now: nat)
      requires Valid()
      modifies this
      ensures Valid()
      ensures history == WithNewest(old(history), old(CurrentEntry(now)))
      ensures isLayerPanelOpen == old(isLayerPanelOpen) && isHistoryExpanded == old(isHistoryExpanded)
      ensures Inputs() == old(Inputs())
    {
      var entry := HistoryEntry(now, BasemapName(BasemapOptions, selectedBasemap),
                                SymbolTypeName(selectedSymbolType), entitiesAmount, totalLoadingTime,
                                |activeLayerIds|);
      history := [entry] + history;
      if |history| > HistoryCap {
        history := history[..HistoryCap];
      }
    }

    /** Announces the selected settings and records them in the history. */
    method ApplySettings(now: nat) returns (applied: Settings)
      requires Valid()
      modifies this
      ensures Valid()
      ensures applied == Settings(selectedBasemap, selectedSymbolType, entitiesAmount)
      ensures history == WithNewest(old(history), old(CurrentEntry(now)))
      ensures isLayerPanelOpen == old(isLayerPanelOpen) && isHistoryExpanded == old(isHistoryExpanded)
      ensures Inputs() == old(Inputs())
    {
      applied := Settings(selectedBasemap, selectedSymbolType, entitiesAmount);
      AddToHistory(now);
    }
  }

  /** The panel's swatch table has an entry for exactly the catalog's layers, as the map's colour table does. */
  lemma SwatchTableCoversCatalog()
    ensures ColorStyles.Keys == LayerColors.Keys == CatalogIds()
  {
    var keys := {"geojson", "graphics", "feature", "csv", "feature-collection", "client-side",
                 "geojson-2", "graphics-2", "feature-2", "csv-2", "collection-2", "client-side-2",
                 "geojson-3", "graphics-3", "feature-3", "csv-3", "collection-3", "client-side-3",
                 "geojson-4", "graphics-4", "feature-4", "csv-4"};
    assert ColorStyles.Keys == keys;
    assert LayerColors.Keys == keys;
    ColorTableCoversCatalog();
  }
}
