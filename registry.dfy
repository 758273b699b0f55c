/**
 * The layer registry of the map component: the id -> layer map and the
 * active-id set kept in step, and the operations that add, toggle, reload
 * and bulk-load layers. The mapping engine (layer constructors and the
 * map surface's add/remove) is an oracle that yields a handle or fails.
 * The catalog is the component's `layerTypes` field.
 */
module Registry {
  import opened Wrappers
  import opened Catalog
  import opened GeoData
  import opened Symbols
  import opened Strategies

  /** An opaque reference to a layer object owned by the mapping engine. */
  datatype Handle = Handle(serial: nat)

  /**
   * What one layer build takes from outside: the random draws of the
   * generator, the number rendering of the CSV text, and the engine, which
   * constructs the planned layer and adds it to the map, or fails (throws
   * or yields nothing).
   */
  datatype Env = Env(draw: nat -> Sample, show: real -> string, engine: LayerPlan -> Option<Handle>)

  /** The outcome of building `layerId`: no handle for an id outside the catalog or a failed build. */
  function Built(layerTypes: seq<LayerType>, layerId: string, entitiesAmount: int, symbolType: string,
                 env: Env): (r: Option<Handle>)
    ensures FindIn(layerTypes, layerId).None? ==> r.None?
  {
    match FindIn(layerTypes, layerId)
    case None => None
    case Some(cfg) =>
      env.engine(PlanFor(layerTypes, cfg.kind, BuildData(entitiesAmount, env.draw), layerId, symbolType, env.show))
  }

  /** The outcome of building each id, id `id` with environment `envFor(id)`. */
  function BuiltEach(layerTypes: seq<LayerType>, entitiesAmount: int, symbolType: string,
                     envFor: string -> Env): string -> Option<Handle>
  {
    id => Built(layerTypes, id, entitiesAmount, symbolType, envFor(id))
  }

  /** Only ids of `layerTypes` can be built. */
  ghost predicate OnlyCatalog(built: string -> Option<Handle>, layerTypes: seq<LayerType>)
  {
    forall id :: built(id).Some? ==> FindIn(layerTypes, id).Some?
  }

  lemma BuiltEachOnlyCatalog(layerTypes: seq<LayerType>, entitiesAmount: int, symbolType: string,
                             envFor: string -> Env)
    ensures OnlyCatalog(BuiltEach(layerTypes, entitiesAmount, symbolType, envFor), layerTypes)
  {
    var built := BuiltEach(layerTypes, entitiesAmount, symbolType, envFor);
    forall id | built(id).Some? ensures FindIn(layerTypes, id).Some? {
      assert built(id) == Built(layerTypes, id, entitiesAmount, symbolType, envFor(id));
    }
  }

  /** The registry's abstract state. */
  datatype RegistryState = RegistryState(activeLayers: map<string, Handle>, activeLayerIds: set<string>)

  const Empty := RegistryState(map[], {})

  /** The id set is the map's key set, and only catalog layers are registered. */
  predicate Consistent(s: RegistryState, layerTypes: seq<LayerType>)
  {
    && s.activeLayerIds == s.activeLayers.Keys
    && forall id :: id in s.activeLayers ==> FindIn(layerTypes, id).Some?
  }

  /** One `addLayer`: on success the id is registered with its new handle, otherwise nothing changes. */
  function Add(s: RegistryState, layerId: string, built: Option<Handle>): (r: RegistryState)
    ensures built.None? ==> r == s
    ensures built.Some? ==> r.activeLayers == s.activeLayers[layerId := built.value]
    ensures built.Some? ==> r.activeLayerIds == s.activeLayerIds + {layerId}
  {
    match built
    case None => s
    case Some(h) => RegistryState(s.activeLayers[layerId := h], s.activeLayerIds + {layerId})
  }

  lemma AddConsistent(s: RegistryState, layerTypes: seq<LayerType>, layerId: string, built: Option<Handle>)
    requires Consistent(s, layerTypes)
    requires built.Some? ==> FindIn(layerTypes, layerId).Some?
    ensures Consistent(Add(s, layerId, built), layerTypes)
  {
  }

  /** One `toggleLayer`: nothing while loading; otherwise remove an active id or add an inactive one. */
  function Toggle(s: RegistryState, isLoading: bool, layerId: string, built: Option<Handle>): (r: RegistryState)
    ensures isLoading ==> r == s
    ensures !isLoading && layerId in s.activeLayers ==>
              r.activeLayers == s.activeLayers - {layerId} && r.activeLayerIds == s.activeLayerIds - {layerId}
    ensures !isLoading && layerId !in s.activeLayers ==> r == Add(s, layerId, built)
  {
    if isLoading then s
    else if layerId in s.activeLayers then RegistryState(s.activeLayers - {layerId}, s.activeLayerIds - {layerId})
    else Add(s, layerId, built)
  }

  lemma ToggleConsistent(s: RegistryState, layerTypes: seq<LayerType>, isLoading: bool, layerId: string,
                         built: Option<Handle>)
    requires Consistent(s, layerTypes)
    requires built.Some? ==> FindIn(layerTypes, layerId).Some?
    ensures Consistent(Toggle(s, isLoading, layerId, built), layerTypes)
  {
  }

  /** Adds each id of `ids` in turn, the i-th with outcome `built(ids[i])`. */
  function AddAll(s: RegistryState, ids: seq<string>, built: string -> Option<Handle>): RegistryState
  {
    if ids == [] then s
    else var last := ids[|ids| - 1]; Add(AddAll(s, ids[..|ids| - 1], built), last, built(last))
  }

  /** The state after `reloadLayersWithNewSymbol`: every prior id rebuilt, those that fail dropped. */
  function Reloaded(s: RegistryState, built: string -> Option<Handle>): (r: RegistryState)
    ensures r.activeLayerIds <= s.activeLayerIds
    ensures forall id :: id in s.activeLayerIds ==> (id in r.activeLayerIds <==> built(id).Some?)
  {
    RegistryState(map id | id in s.activeLayers && built(id).Some? :: built(id).value,
                  set id | id in s.activeLayerIds && built(id).Some?)
  }

  /** The handles of the ids of `done` whose rebuild succeeds. */
  function RebuiltOn(done: set<string>, built: string -> Option<Handle>): (m: map<string, Handle>)
    ensures m.Keys <= done
    ensures forall id :: id in done ==> (id in m <==> built(id).Some?)
  {
    map id | id in done && built(id).Some? :: built(id).value
  }

  /** Rebuilding one more id extends the rebuilt map by that id's outcome. */
  lemma RebuiltOnStep(done: set<string>, x: string, built: string -> Option<Handle>)
    ensures RebuiltOn(done + {x}, built) ==
            Add(RegistryState(RebuiltOn(done, built), {}), x, built(x)).activeLayers
  {
    var lhs := RebuiltOn(done + {x}, built);
    var rhs := Add(RegistryState(RebuiltOn(done, built), {}), x, built(x)).activeLayers;
    assert lhs.Keys == rhs.Keys;
    forall id | id in lhs ensures lhs[id] == rhs[id] {
    }
  }

  /** The reloaded state is the rebuilt map of the prior ids and its key set. */
  lemma ReloadedIsRebuiltOn(s: RegistryState, built: string -> Option<Handle>)
    requires s.activeLayerIds == s.activeLayers.Keys
    ensures Reloaded(s, built) == RegistryState(RebuiltOn(s.activeLayers.Keys, built),
                                                RebuiltOn(s.activeLayers.Keys, built).Keys)
  {
  }

  lemma ReloadedConsistent(s: RegistryState, layerTypes: seq<LayerType>, built: string -> Option<Handle>)
    requires Consistent(s, layerTypes)
    ensures Consistent(Reloaded(s, built), layerTypes)
  {
  }

  // ----- properties of the registry operations -----

  /**
   * Toggling an id twice, when the build in the adding step succeeds, gives
   * back the original active set; starting from an inactive id it gives back
   * the whole original state.
   */
  lemma ToggleTwice(s: RegistryState, layerTypes: seq<LayerType>, layerId: string,
                    first: Option<Handle>, second: Option<Handle>)
    requires Consistent(s, layerTypes)
    requires layerId in s.activeLayers ==> second.Some?
    requires layerId !in s.activeLayers ==> first.Some?
    ensures Toggle(Toggle(s, false, layerId, first), false, layerId, second).activeLayerIds == s.activeLayerIds
    ensures layerId !in s.activeLayers ==> Toggle(Toggle(s, false, layerId, first), false, layerId, second) == s
  {
    var t := Toggle(s, false, layerId, first);
    if layerId !in s.activeLayers {
      assert t.activeLayers - {layerId} == s.activeLayers;
      assert t.activeLayerIds - {layerId} == s.activeLayerIds;
    }
  }

  /** What sequential adds register: every id whose build succeeds, on top of what was there. */
  lemma {:induction false} AddAllIds(s: RegistryState, ids: seq<string>, built: string -> Option<Handle>)
    ensures AddAll(s, ids, built).activeLayerIds == s.activeLayerIds + (set id | id in ids && built(id).Some?)
  {
    if ids != [] {
      var init, last := ids[..|ids| - 1], ids[|ids| - 1];
      AddAllIds(s, init, built);
      assert ids == init + [last];
      assert (set id | id in ids && built(id).Some?) ==
             (set id | id in init && built(id).Some?) + (if built(last).Some? then {last} else {});
    }
  }

  /** Sequential adds keep the registry consistent. */
  lemma {:induction false} AddAllConsistent(s: RegistryState, layerTypes: seq<LayerType>, ids: seq<string>,
                                            built: string -> Option<Handle>)
    requires Consistent(s, layerTypes)
    requires OnlyCatalog(built, layerTypes)
    ensures Consistent(AddAll(s, ids, built), layerTypes)
  {
    if ids != [] {
      AddAllConsistent(s, layerTypes, ids[..|ids| - 1], built);
      AddConsistent(AddAll(s, ids[..|ids| - 1], built), layerTypes, ids[|ids| - 1], built(ids[|ids| - 1]));
    }
  }

  /**
   * Rebuilding the prior ids one after another, in any order without
   * repeats, lands in the same state: the reload does not depend on the
   * order in which the map yields its keys.
   */
  lemma ReloadedIsSequentialAdds(s: RegistryState, ids: seq<string>, built: string -> Option<Handle>)
    requires forall i, j :: 0 <= i < j < |ids| ==> ids[i] != ids[j]
    requires (set id | id in ids) == s.activeLayers.Keys
    ensures AddAll(Empty, ids, built).activeLayers == Reloaded(s, built).activeLayers
  {
    AddAllPrefix(ids, built, |ids|);
    assert ids[..|ids|] == ids;
  }

  lemma {:induction false} AddAllPrefix(ids: seq<string>, built: string -> Option<Handle>, n: nat)
    requires n <= |ids|
    requires forall i, j :: 0 <= i < j < |ids| ==> ids[i] != ids[j]
    ensures AddAll(Empty, ids[..n], built).activeLayers ==
            map id | id in ids[..n] && built(id).Some? :: built(id).value
  {
    if n > 0 {
      AddAllPrefix(ids, built, n - 1);
      assert ids[..n][..n - 1] == ids[..n - 1];
      var last := ids[n - 1];
      var prev := AddAll(Empty, ids[..n - 1], built).activeLayers;
      var cur := AddAll(Empty, ids[..n], built).activeLayers;
      assert cur == if built(last).Some? then prev[last := built(last).value] else prev;
      var spec := map id | id in ids[..n] && built(id).Some? :: built(id).value;
      forall id ensures id in cur <==> id in spec {
        assert id in ids[..n] <==> id in ids[..n - 1] || id == last by {
          assert ids[..n] == ids[..n - 1] + [last];
        }
      }
      forall id | id in cur ensures cur[id] == spec[id] {
      }
      assert cur == spec;
    } else {
      assert AddAll(Empty, ids[..0], built) == Empty;
    }
  }

  /** With every rebuild succeeding the reload ends with the active set it started with. */
  lemma ReloadKeepsIds(s: RegistryState, built: string -> Option<Handle>)
    requires forall id :: id in s.activeLayerIds ==> built(id).Some?
    ensures Reloaded(s, built).activeLayerIds == s.activeLayerIds
  {
  }

  /**
   * Loading every layer of `layerTypes` into an empty registry activates
   * exactly those whose build succeeds: at most one per descriptor.
   */
  lemma LoadAllFromEmpty(layerTypes: seq<LayerType>, built: string -> Option<Handle>)
    ensures AddAll(Empty, IdsOf(layerTypes), built).activeLayerIds ==
            (set id | id in IdsOf(layerTypes) && built(id).Some?)
    ensures |AddAll(Empty, IdsOf(layerTypes), built).activeLayerIds| <= |layerTypes|
  {
    var ids := IdsOf(layerTypes);
    AddAllIds(Empty, ids, built);
    CardSetOfSeq(ids);
    var r := AddAll(Empty, ids, built).activeLayerIds;
    assert (set id | id in ids) == r + ((set id | id in ids) - r);
  }

  /** The initial load of the 22-entry catalog activates at most 22 layers. */
  lemma LoadCatalogAtMost22(built: string -> Option<Handle>)
    ensures |AddAll(Empty, IdsOf(LayerTypes), built).activeLayerIds| <= 22
  {
    LoadAllFromEmpty(LayerTypes, built);
  }

  // ----- the component -----

  /** The map component's registry state and the inputs its builds read. */
  class EsriMap {
    const layerTypes: seq<LayerType>
    var selectedBasemap: string
    var selectedSymbolType: string
    var entitiesAmount: int
    var isLoading: bool
    var activeLayers: map<string, Handle>
    var activeLayerIds: set<string>

    function State(): RegistryState
      reads this
    {
      RegistryState(activeLayers, activeLayerIds)
    }

    ghost predicate Valid()
      reads this
    {
      Consistent(State(), layerTypes)
    }

    constructor ()
      ensures Valid() && State() == Empty && layerTypes == LayerTypes
      ensures selectedBasemap == "streets-vector" && selectedSymbolType == "simple-marker"
      ensures entitiesAmount == 50000 && !isLoading
    {
      layerTypes := LayerTypes;
      selectedBasemap := "streets-vector";
      selectedSymbolType := "simple-marker";
      entitiesAmount := 50000;
      isLoading := false;
      activeLayers := map[];
      activeLayerIds := {};
    }

    function IsLayerActive(layerId: string): (r: bool)
      reads this
      requires Valid()
      ensures r <==> layerId in activeLayers
    {
      layerId in activeLayerIds
    }

    /**
     * Builds one layer: look it up in the catalog, generate, filter and
     * remap the data, dispatch to the kind's strategy, hand the plan to the
     * engine, and register the handle on success. Every failure is absorbed.
     */
    method AddLayer(layerId: string, env: Env)
      requires Valid()
      modifies this
      ensures Valid()
      ensures State() == Add(old(State()), layerId, Built(layerTypes, layerId, entitiesAmount, selectedSymbolType, env))
      ensures selectedBasemap == old(selectedBasemap) && selectedSymbolType == old(selectedSymbolType)
      ensures entitiesAmount == old(entitiesAmount) && isLoading == old(isLoading)
    {
      var layerConfig := FindIn(layerTypes, layerId);
      if layerConfig.None? {
        return;
      }
      var mockData := CreateMockLayerData(entitiesAmount, env.draw);
      var filteredData := FilterByAmount(mockData, entitiesAmount);
      var transformedData := TransformData(filteredData);
      var plan := BuildLayer(layerTypes, layerConfig.value.kind, transformedData, layerId, selectedSymbolType, env.show);
      var newLayer := env.engine(plan);
      if newLayer.Some? {
        activeLayers := activeLayers[layerId := newLayer.value];
        activeLayerIds := activeLayerIds + {layerId};
      }
    }

    /**
     * Removes an active layer or builds an inactive one; ignored while
     * loading. Returns the active set it announces, none when ignored.
     */
    method ToggleLayer(layerId: string, env: Env) returns (emitted: Option<set<string>>)
      requires Valid()
      modifies this
      ensures Valid()
      ensures State() == Toggle(old(State()), isLoading, layerId,
                                Built(layerTypes, layerId, entitiesAmount, selectedSymbolType, env))
      ensures emitted == if isLoading then None else Some(activeLayerIds)
      ensures selectedBasemap == old(selectedBasemap) && selectedSymbolType == old(selectedSymbolType)
      ensures entitiesAmount == old(entitiesAmount) && isLoading == old(isLoading)
    {
      if isLoading {
        return None;
      }
      if layerId in activeLayers {
        activeLayers := activeLayers - {layerId};
        activeLayerIds := activeLayerIds - {layerId};
      } else {
        AddLayer(layerId, env);
      }
      emitted := Some(activeLayerIds);
    }

    /** One step of the reload: rebuilds `layerId` on top of the ids in `done`. */
    method RebuildOne(layerId: string, envFor: string -> Env,
                      ghost done: set<string>, ghost built: string -> Option<Handle>)
      requires Valid()
      requires built == BuiltEach(layerTypes, entitiesAmount, selectedSymbolType, envFor)
      requires activeLayers == RebuiltOn(done, built)
      modifies this
      ensures Valid()
      ensures activeLayers == RebuiltOn(done + {layerId}, built)
      ensures selectedBasemap == old(selectedBasemap) && selectedSymbolType == old(selectedSymbolType)
      ensures entitiesAmount == old(entitiesAmount) && isLoading == old(isLoading)
    {
      AddLayer(layerId, envFor(layerId));
      assert built(layerId) == Built(layerTypes, layerId, entitiesAmount, selectedSymbolType, envFor(layerId));
      RebuiltOnStep(done, layerId, built);
    }

    /** The reload's loop: rebuilds each id of `ids`, in an unspecified order, into an empty registry. */
    method RebuildAll(ids: set<string>, envFor: string -> Env, ghost built: string -> Option<Handle>)
      requires Valid() && activeLayers == map[]
      requires built == BuiltEach(layerTypes, entitiesAmount, selectedSymbolType, envFor)
      modifies this
      ensures Valid()
      ensures activeLayers == RebuiltOn(ids, built)
      ensures selectedBasemap == old(selectedBasemap) && selectedSymbolType == old(selectedSymbolType)
      ensures entitiesAmount == old(entitiesAmount) && isLoading == old(isLoading)
    {
      var pending := ids;
      while pending != {}
        invariant pending <= ids
        invariant Valid()
        invariant activeLayers == RebuiltOn(ids - pending, built)
        invariant selectedBasemap == old(selectedBasemap) && selectedSymbolType == old(selectedSymbolType)
        invariant entitiesAmount == old(entitiesAmount) && isLoading == old(isLoading)
        decreases pending
      {
        var layerId :| layerId in pending;
        RebuildOne(layerId, envFor, ids - pending, built);
        assert ids - (pending - {layerId}) == (ids - pending) + {layerId};
        pending := pending - {layerId};
      }
    }

    /**
     * Removes every active layer and rebuilds each with the current symbol
     * family, id `id` using `envFor(id)`. Returns the announced active set.
     */
    method ReloadLayersWithNewSymbol(envFor: string -> Env) returns (emitted: set<string>)
      requires Valid()
      modifies this
      ensures Valid()
      ensures State() == Reloaded(old(State()), BuiltEach(layerTypes, entitiesAmount, selectedSymbolType, envFor))
      ensures emitted == activeLayerIds
      ensures selectedBasemap == old(selectedBasemap) && selectedSymbolType == old(selectedSymbolType)
      ensures entitiesAmount == old(entitiesAmount) && isLoading == old(isLoading)
    {
      ghost var before := State();
      ghost var built := BuiltEach(layerTypes, entitiesAmount, selectedSymbolType, envFor);
      var ids := activeLayers.Keys;
      activeLayers := map[];
      activeLayerIds := {};
      RebuildAll(ids, envFor, built);
      ReloadedIsRebuiltOn(before, built);
      emitted := activeLayerIds;
    }

    /** One step of the bulk load: adds `ids[i]` after `ids[..i]`. */
    method LoadOne(ids: seq<string>, i: nat, envFor: string -> Env,
                   ghost start: RegistryState, ghost built: string -> Option<Handle>)
      requires i < |ids|
      requires Valid()
      requires built == BuiltEach(layerTypes, entitiesAmount, selectedSymbolType, envFor)
      requires State() == AddAll(start, ids[..i], built)
      modifies this
      ensures Valid()
      ensures State() == AddAll(start, ids[..i + 1], built)
      ensures selectedBasemap == old(selectedBasemap) && selectedSymbolType == old(selectedSymbolType)
      ensures entitiesAmount == old(entitiesAmount) && isLoading == old(isLoading)
    {
      AddLayer(ids[i], envFor(ids[i]));
      assert built(ids[i]) == Built(layerTypes, ids[i], entitiesAmount, selectedSymbolType, envFor(ids[i]));
      assert ids[..i + 1][..i] == ids[..i];
    }

    /** Builds every catalog layer in catalog order, layer `id` using `envFor(id)`. */
    method LoadAllVisibleLayers(envFor: string -> Env)
      requires Valid()
      modifies this
      ensures Valid()
      ensures State() == AddAll(old(State()), IdsOf(layerTypes),
                                BuiltEach(layerTypes, entitiesAmount, selectedSymbolType, envFor))
      ensures selectedBasemap == old(selectedBasemap) && selectedSymbolType == old(selectedSymbolType)
      ensures entitiesAmount == old(entitiesAmount) && isLoading == old(isLoading)
    {
      ghost var built := BuiltEach(layerTypes, entitiesAmount, selectedSymbolType, envFor);
      var ids := IdsOf(layerTypes);
      var i := 0;
      while i < |ids|
        invariant 0 <= i <= |ids|
        invariant Valid()
        invariant State() == AddAll(old(State()), ids[..i], built)
        invariant selectedBasemap == old(selectedBasemap) && selectedSymbolType == old(selectedSymbolType)
        invariant entitiesAmount == old(entitiesAmount) && isLoading == old(isLoading)
      {
        LoadOne(ids, i, envFor, old(State()), built);
        i := i + 1;
      }
      assert ids[..i] == ids;
    }
  }
}
