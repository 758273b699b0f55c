# esri-poc map page, modelled in Dafny

This project models the logic of the map page of the esri-poc Angular app.
Three parts are covered:

- **The map component** (`esri-map.component.ts`):
  - the catalog of 22 layer descriptors and the per-layer colour table;
  - the affine remap of world coordinates into the Israel bounding box;
  - the per-build data path: mock generation capped at 100 features, the amount filter, and the remap of every feature;
  - symbol resolution: the colour lookup, the symbol-type table with its `simple-marker` fallback, and the choice of complex-SVG template by catalog index mod 6;
  - the six-way dispatch over the layer kind into a layer plan, including the CSV text the CSV strategy writes;
  - the layer registry: an id-to-layer map and an active-id set kept in step by `addLayer`, `toggleLayer`, `reloadLayersWithNewSymbol` and the initial bulk load.
- **The control panel** (`control-panel.component.ts`): the newest-first settings history bounded at 20 entries, the two disclosure flags, and the small lookups with fallbacks (entity counts, symbol and basemap names, colour swatches).
- **The sidebar service** (`sidebar.service.ts`): choosing a section menu from the router url.

The mapping engine is an oracle. The layer constructors and the map's `add` together become one function `engine: LayerPlan -> Option<Handle>`. `None` stands for a build that throws or yields nothing. The random draws become `draw: nat -> Sample`, whose reals lie in [0, 1). JavaScript's number-to-text rendering becomes `show: real -> string`. The current time becomes a `now: nat` parameter.

`addLayer` contains no `await`. So when `Promise.all` starts several of them, each one runs to completion in call order. Modelling each call atomically, and the bulk operations as loops, is therefore exact.

Modules:
- `Wrappers`: `Option`.
- `Text`: decimal rendering of naturals.
- `Catalog`: the descriptors, kinds and colour table.
- `GeoData`: coordinates, features and the data path.
- `Symbols`: symbol resolution.
- `Strategies`: the dispatch and the CSV text.
- `Registry`: the registry and its `EsriMap` class.
- `ControlPanel`: the panel and its `Panel` class.
- `Sidebar`: the menu rule.

## Model

| member | source | states |
|---|---|---|
| Catalog.KindOfTag | src/app/pages/maps/map/esri-map/esri-map.component.ts:8 | a recognised `type` string is the tag of the kind it yields |
| Catalog.KindTagRoundTrip | src/app/pages/maps/map/esri-map/esri-map.component.ts:8 | the six kind tags are distinct: each tag parses back to its own kind |
| Catalog.FindIn | src/app/pages/maps/map/esri-map/esri-map.component.ts:233 | `find` by id: the result is a member with that id, at the first matching position; no result iff no descriptor has the id |
| Catalog.IndexIn | src/app/pages/maps/map/esri-map/esri-map.component.ts:353 | `findIndex` by id: -1 iff no descriptor has the id, otherwise the first position holding it |
| Catalog.InCatalogIff | src/app/pages/maps/map/esri-map/esri-map.component.ts:74-97 | an id is found in the catalog iff it is one of the catalog's ids |
| Catalog.CatalogIdsDistinct | src/app/pages/maps/map/esri-map/esri-map.component.ts:74-97 | no two of the 22 descriptors share an id |
| Catalog.IndexOfCatalogEntry | src/app/pages/maps/map/esri-map/esri-map.component.ts:74-97 | looking up entry k's id finds entry k at position k |
| Catalog.CatalogIdsCount | src/app/pages/maps/map/esri-map/esri-map.component.ts:74-97 | the catalog has 22 entries and exactly 22 distinct ids |
| Catalog.ColorForLayer | src/app/pages/maps/map/esri-map/esri-map.component.ts:339-341 | the table colour for a listed id, [255, 69, 0, 0.8] for any other id |
| Catalog.ColorTableCoversCatalog | src/app/pages/maps/map/esri-map/esri-map.component.ts:46-69 | the colour table is keyed by exactly the catalog's ids, so no catalog layer falls back to the default colour |
| Catalog.IdsOf | src/app/pages/maps/map/esri-map/esri-map.component.ts:161-164 | the ids of a descriptor list are listed in list order, one per descriptor |
| Catalog.IdsOfFindable | src/app/pages/maps/map/esri-map/esri-map.component.ts:161-164 | an id is among a list's ids iff `find` finds it in that list |
| Catalog.CatalogIdSeqElements | src/app/pages/maps/map/esri-map/esri-map.component.ts:74-97 | the id list of the catalog holds exactly the catalog's ids |
| Text.NatToString | src/app/pages/maps/map/esri-map/esri-map.component.ts:289-294 | the decimal text of a number is non-empty and made only of digits |
| Text.ParseNatToString | src/app/pages/maps/map/esri-map/esri-map.component.ts:289 | reading the decimal text back gives the number: the rendering loses nothing |
| Text.NatToStringInjective | src/app/pages/maps/map/esri-map/esri-map.component.ts:289 | different numbers have different decimal texts |
| Text.TaggedNumeralInjective | src/app/pages/maps/map/esri-map/esri-map.component.ts:289 | a fixed prefix followed by different numbers gives different texts |
| GeoData.ToIsrael | src/app/pages/maps/map/esri-map/esri-map.component.ts:331-337 | a world-range input lands in the box [34.2, 35.9] x [29.5, 33.3]; (-180, -90) maps to the lower corner, (180, 90) to the upper corner, (0, 0) to the midpoint; inputs outside the world range are extrapolated past the box edges, never clamped |
| GeoData.FromIsrael | src/app/pages/maps/map/esri-map/esri-map.component.ts:331-337 | the inverse remap: remapping its result gives back the point, and box points come from world-range inputs |
| GeoData.ToIsraelInjective | src/app/pages/maps/map/esri-map/esri-map.component.ts:331-337 | distinct inputs never land on the same point |
| GeoData.MockFeature | src/app/pages/maps/map/esri-map/esri-map.component.ts:284-304 | feature i has id `feature-i` and a world-range position |
| GeoData.MockCount | src/app/pages/maps/map/esri-map/esri-map.component.ts:281-283 | the generated count is min(amount, 100), and 0 for a negative amount |
| GeoData.MockData | src/app/pages/maps/map/esri-map/esri-map.component.ts:279-307 | has features, exactly MockCount(amount) of them; feature i has id `feature-i` and a world-range position |
| GeoData.CreateMockLayerData | src/app/pages/maps/map/esri-map/esri-map.component.ts:279-307 | the push loop produces exactly MockData |
| GeoData.MockIdsDistinct | src/app/pages/maps/map/esri-map/esri-map.component.ts:289 | the generated feature ids are pairwise distinct |
| GeoData.SliceEnd | src/app/pages/maps/map/esri-map/esri-map.component.ts:313 | the end `slice(0, amount)` stops at: min(amount, n) for a non-negative amount, max(n + amount, 0) for a negative one |
| GeoData.FilterByAmount | src/app/pages/maps/map/esri-map/esri-map.component.ts:309-314 | data without features comes back unchanged; otherwise the features are a prefix of the input of length SliceEnd |
| GeoData.FilterKeepsMin | src/app/pages/maps/map/esri-map/esri-map.component.ts:309-314 | for a non-negative amount the filter keeps exactly the first min(amount, n) features |
| GeoData.FilterOfMockIsIdentity | src/app/pages/maps/map/esri-map/esri-map.component.ts:239-240 | filtering generated data by the amount it was generated with changes nothing |
| GeoData.TransformData | src/app/pages/maps/map/esri-map/esri-map.component.ts:316-329 | data without features comes back unchanged; otherwise the count, the order and every feature's properties are kept, and each position is replaced by its remap |
| GeoData.TransformDataInvertible | src/app/pages/maps/map/esri-map/esri-map.component.ts:316-337 | the original position of every feature can be recovered from the transformed data |
| GeoData.TransformCommutesWithFilter | src/app/pages/maps/map/esri-map/esri-map.component.ts:239-241 | filtering and then remapping gives the same data as remapping and then filtering |
| GeoData.BuildDataShape | src/app/pages/maps/map/esri-map/esri-map.component.ts:239-241 | the data a build draws has MockCount(amount) features, feature i has id `feature-i`, and every position lies in the box |
| Symbols.ComplexSvgIndex | src/app/pages/maps/map/esri-map/esri-map.component.ts:353-355 | the template index is below 6: the catalog position of the id mod 6, or 0 when the id is absent |
| Symbols.ComplexSvgOfCatalogEntry | src/app/pages/maps/map/esri-map/esri-map.component.ts:353-355 | catalog entry k is drawn with template k mod 6 |
| Symbols.ComplexSvgVaries | src/app/pages/maps/map/esri-map/esri-map.component.ts:353-355 | any six consecutive catalog entries use six different templates |
| Symbols.FamilyOf | src/app/pages/maps/map/esri-map/esri-map.component.ts:361-374 | a symbol-type string names a family only when it is that family's key |
| Symbols.FamilyTagRoundTrip | src/app/pages/maps/map/esri-map/esri-map.component.ts:361-374 | the nine keys are distinct: each key selects its own family |
| Symbols.LayerColorStyle | src/app/pages/maps/map/esri-map/esri-map.component.ts:199-202 | the rgba text of the layer's colour; for an id with the default colour, and the alpha 0.8 rendered as `0.8`, it is `rgba(255, 69, 0, 0.8)` |
| Symbols.SymbolForType | src/app/pages/maps/map/esri-map/esri-map.component.ts:358-377 | a known symbol type gives its table entry; an unknown one gives the `simple-marker` entry (circle, 8 px, outline 1); every entry carries the layer's colour |
| Symbols.SymbolShapeByFamily | src/app/pages/maps/map/esri-map/esri-map.component.ts:370-374 | exactly `picture-marker` and `complex-svg` give picture markers, and `complex-svg` uses the layer's template and colour |
| Strategies.CsvRows | src/app/pages/maps/map/esri-map/esri-map.component.ts:450-454 | one record per feature, in feature order |
| Strategies.TerminatedSnoc | src/app/pages/maps/map/esri-map/esri-map.component.ts:449-454 | appending one line to the text adds that line and a newline at the end |
| Strategies.BuildCsvText | src/app/pages/maps/map/esri-map/esri-map.component.ts:449-454 | the `forEach` loop builds exactly the header line followed by one terminated record per feature |
| Strategies.SplitTerminated | src/app/pages/maps/map/esri-map/esri-map.component.ts:449-454 | newline-terminated lines without newlines of their own split back into those lines |
| Strategies.CsvLines | src/app/pages/maps/map/esri-map/esri-map.component.ts:449-454 | the CSV text splits into the header `longitude,latitude,id` followed by one `lon,lat,"id"` record per feature in order: the text has |features| + 1 lines |
| Strategies.BuildCsvLineCount | src/app/pages/maps/map/esri-map/esri-map.component.ts:446-455 | the CSV text of a build has exactly one record line per generated feature |
| Strategies.PlainGraphics | src/app/pages/maps/map/esri-map/esri-map.component.ts:405-416 | one graphic per feature, in order: graphic i sits at feature i's position, declares no spatial reference and carries feature i's whole property record as attributes |
| Strategies.IndexedGraphics | src/app/pages/maps/map/esri-map/esri-map.component.ts:471-478 | one graphic per feature, in order: graphic i sits at feature i's position with the given spatial reference, and its attributes are object id i under the given field name plus feature i's id, latitude and longitude |
| Strategies.BuildGraphics | src/app/pages/maps/map/esri-map/esri-map.component.ts:402-418 | the graphics loop adds exactly the graphics PlainGraphics lists |
| Strategies.BuildLayer | src/app/pages/maps/map/esri-map/esri-map.component.ts:244-264 | the dispatch builds the plan its kind's strategy defines |
| Strategies.PlanDrawsFeatures | src/app/pages/maps/map/esri-map/esri-map.component.ts:380-519 | every strategy uses the resolved symbol; all but CSV show id, latitude and longitude in the popup, and CSV shows the id only; the non-CSV strategies draw exactly the features' positions in order; the CSV strategy carries the CSV text |
| Strategies.PlanIdentityScheme | src/app/pages/maps/map/esri-map/esri-map.component.ts:421-519 | exactly the feature, collection and client-side kinds build feature layers; the collection names its id field `ObjectID` and the others `OBJECTID`; only client-side declares a spatial reference, and it is WGS84 (wkid 4326); the indexed strategies number graphic i as i and keep its feature id |
| Strategies.BuildPlanInBox | src/app/pages/maps/map/esri-map/esri-map.component.ts:239-264 | every position a build draws lies inside the Israel box; for the CSV kind the layer's text is written from features that all lie inside it |
| Registry.Built | src/app/pages/maps/map/esri-map/esri-map.component.ts:229-277 | an id missing from the catalog never yields a layer |
| Registry.BuiltEachOnlyCatalog | src/app/pages/maps/map/esri-map/esri-map.component.ts:233-237 | only catalog ids can be built |
| Registry.Add | src/app/pages/maps/map/esri-map/esri-map.component.ts:266-270 | a failed build changes nothing; a successful one sets the id's handle in the map and adds the id to the set |
| Registry.AddConsistent | src/app/pages/maps/map/esri-map/esri-map.component.ts:266-270 | adding keeps the id set equal to the map's keys, all of them catalog ids |
| Registry.Toggle | src/app/pages/maps/map/esri-map/esri-map.component.ts:179-194 | while loading nothing changes; an active id is removed from both map and set; an inactive id is added as by `addLayer` |
| Registry.ToggleConsistent | src/app/pages/maps/map/esri-map/esri-map.component.ts:179-194 | toggling keeps the id set equal to the map's keys, all of them catalog ids |
| Registry.Reloaded | src/app/pages/maps/map/esri-map/esri-map.component.ts:211-227 | the reload adds no id outside the prior set, and a prior id survives iff its rebuild succeeds |
| Registry.RebuiltOn | src/app/pages/maps/map/esri-map/esri-map.component.ts:222-223 | the rebuilt map holds exactly the ids whose rebuild succeeds |
| Registry.RebuiltOnStep | src/app/pages/maps/map/esri-map/esri-map.component.ts:222-223 | rebuilding one more id is one `addLayer` on top of the rebuilt map |
| Registry.ReloadedIsRebuiltOn | src/app/pages/maps/map/esri-map/esri-map.component.ts:211-227 | the reloaded state is the rebuilt map of the prior ids, with its key set as the id set |
| Registry.ReloadedConsistent | src/app/pages/maps/map/esri-map/esri-map.component.ts:211-227 | the reload keeps the id set equal to the map's keys |
| Registry.ToggleTwice | src/app/pages/maps/map/esri-map/esri-map.component.ts:179-194 | toggling an id twice, with the adding build succeeding, restores the active set; starting from an inactive id it restores the whole state |
| Registry.AddAllIds | src/app/pages/maps/map/esri-map/esri-map.component.ts:161-164 | sequential adds register exactly the ids whose build succeeds, on top of those already there |
| Registry.AddAllConsistent | src/app/pages/maps/map/esri-map/esri-map.component.ts:161-164 | sequential adds keep the registry consistent |
| Registry.ReloadedIsSequentialAdds | src/app/pages/maps/map/esri-map/esri-map.component.ts:212-223 | rebuilding the prior ids one after another, in any order without repeats, ends in the reloaded map: the key order of the map does not matter |
| Registry.AddAllPrefix | src/app/pages/maps/map/esri-map/esri-map.component.ts:222-223 | after the first n of distinct ids, the map holds those whose build succeeds |
| Registry.ReloadKeepsIds | src/app/pages/maps/map/esri-map/esri-map.component.ts:211-227 | when every rebuild succeeds the reload ends with the active set it started with |
| Registry.LoadAllFromEmpty | src/app/pages/maps/map/esri-map/esri-map.component.ts:154-177 | loading every descriptor into an empty registry activates exactly those whose build succeeds, at most one per descriptor |
| Registry.LoadCatalogAtMost22 | src/app/pages/maps/map/esri-map/esri-map.component.ts:154-177 | the initial load of the catalog activates at most 22 layers |
| Registry.EsriMap.constructor | src/app/pages/maps/map/esri-map/esri-map.component.ts:24-35 | basemap `streets-vector`, symbol type `simple-marker`, 50000 entities, not loading, no active layers, the 22-entry catalog |
| Registry.EsriMap.IsLayerActive | src/app/pages/maps/map/esri-map/esri-map.component.ts:196-198 | a layer is active iff it has a layer in the map |
| Registry.EsriMap.AddLayer | src/app/pages/maps/map/esri-map/esri-map.component.ts:229-277 | the new state is Add of the old one with this build's outcome; the registry stays consistent; nothing else changes |
| Registry.EsriMap.ToggleLayer | src/app/pages/maps/map/esri-map/esri-map.component.ts:179-194 | the new state is Toggle of the old one; it announces the active set, and announces nothing while loading; nothing else changes |
| Registry.EsriMap.RebuildOne | src/app/pages/maps/map/esri-map/esri-map.component.ts:222-223 | one rebuild extends the rebuilt map by that id's outcome |
| Registry.EsriMap.RebuildAll | src/app/pages/maps/map/esri-map/esri-map.component.ts:222-223 | rebuilding every prior id into the cleared registry yields the rebuilt map |
| Registry.EsriMap.ReloadLayersWithNewSymbol | src/app/pages/maps/map/esri-map/esri-map.component.ts:211-227 | the new state is Reloaded of the old one with the current symbol type; it announces the new active set; nothing else changes |
| Registry.EsriMap.LoadOne | src/app/pages/maps/map/esri-map/esri-map.component.ts:161-164 | one step of the bulk load adds the next id |
| Registry.EsriMap.LoadAllVisibleLayers | src/app/pages/maps/map/esri-map/esri-map.component.ts:154-177 | the new state is the old one with every catalog id added in catalog order, each build failing or succeeding on its own |
| ControlPanel.TotalEntities | src/app/pages/maps/map/control-panel/control-panel.component.ts:130-132 | the amount times the catalog size, or times 22 when no catalog is given |
| ControlPanel.ActiveEntitiesCount | src/app/pages/maps/map/control-panel/control-panel.component.ts:134-136 | the amount per layer times the number of active layers: 0 with no active layer, never negative for a non-negative amount |
| ControlPanel.ActiveAtMostTotal | src/app/pages/maps/map/control-panel/control-panel.component.ts:130-136 | with a non-negative amount and only catalog ids active, the active count never exceeds the total |
| ControlPanel.SymbolTypeName | src/app/pages/maps/map/control-panel/control-panel.component.ts:138-151 | each of the nine known symbol types gets its own display name from the names table; any other id is shown as itself |
| ControlPanel.SymbolNamesShown | src/app/pages/maps/map/control-panel/control-panel.component.ts:139-149 | every name in the table is non-empty and differs from its id, so the `||` fallback never replaces a listed name |
| ControlPanel.NamedIffDrawn | src/app/pages/maps/map/control-panel/control-panel.component.ts:139-149 | the panel names exactly the symbol types the map has a symbol of their own for |
| ControlPanel.OptionIndex | src/app/pages/maps/map/control-panel/control-panel.component.ts:154 | -1 iff no option has the id, otherwise the first option holding it |
| ControlPanel.BasemapName | src/app/pages/maps/map/control-panel/control-panel.component.ts:153-156 | the name of the first option with the id, or the id itself when none matches |
| ControlPanel.BasemapNameOfDistinct | src/app/pages/maps/map/control-panel/control-panel.component.ts:153-156 | in a menu without repeated ids, every option shows its own name |
| ControlPanel.BasemapIdsDistinct | src/app/pages/maps/map/control-panel/control-panel.component.ts:49-63 | the 13 basemap options have distinct ids |
| ControlPanel.BasemapNameOfOption | src/app/pages/maps/map/control-panel/control-panel.component.ts:49-63 | every offered basemap shows its own name |
| ControlPanel.ColorStyle | src/app/pages/maps/map/control-panel/control-panel.component.ts:85-111 | a listed id gets its table string, any other id `rgba(255, 69, 0, 0.8)` |
| ControlPanel.SwatchTableCoversCatalog | src/app/pages/maps/map/control-panel/control-panel.component.ts:86-109 | the swatch table has an entry for exactly the catalog's layers, as the map's colour table does |
| ControlPanel.LayerColorStyleOffCatalog | src/app/pages/maps/map/esri-map/esri-map.component.ts:199-202 | for an id outside the catalog the map's rgba text (`Symbols.LayerColorStyle`) and the panel's swatch are the same fallback `rgba(255, 69, 0, 0.8)`, once the alpha 0.8 renders as `0.8` |
| ControlPanel.WithNewest | src/app/pages/maps/map/control-panel/control-panel.component.ts:168-172 | the new entry is first, the old entries follow in order, and the length is min(old length + 1, 20), so the oldest entry is dropped past 20 |
| ControlPanel.RecordAllKeepsNewest | src/app/pages/maps/map/control-panel/control-panel.component.ts:158-173 | recording entries one after another into an empty history keeps the 20 most recent, newest first |
| ControlPanel.Panel.constructor | src/app/pages/maps/map/control-panel/control-panel.component.ts:30-47 | the panel's defaults: empty history, both panels closed, `streets-vector`, `simple-marker`, 50000 |
| ControlPanel.Panel.ToggleLayerPanel | src/app/pages/maps/map/control-panel/control-panel.component.ts:69-71 | flips the layer-panel flag and changes nothing else, so a second call restores it |
| ControlPanel.Panel.ToggleHistory | src/app/pages/maps/map/control-panel/control-panel.component.ts:73-75 | flips the history flag and changes nothing else, so a second call restores it |
| ControlPanel.Panel.ClearHistory | src/app/pages/maps/map/control-panel/control-panel.component.ts:77-79 | the history is empty afterwards and nothing else changes |
| ControlPanel.Panel.AddToHistory | src/app/pages/maps/map/control-panel/control-panel.component.ts:158-173 | the history becomes WithNewest of the old one and the current settings' record, and stays within 20 entries |
| ControlPanel.Panel.ApplySettings | src/app/pages/maps/map/control-panel/control-panel.component.ts:117-124 | announces the selected basemap, symbol type and amount, then records them in the history |
| Sidebar.SplitOn | src/app/components/sidebar/sidebar.service.ts:97 | `split('/')` yields at least one piece, and no piece contains a slash |
| Sidebar.JoinSplit | src/app/components/sidebar/sidebar.service.ts:97 | the pieces joined with slashes give back the url |
| Sidebar.SplitAfterPiece | src/app/components/sidebar/sidebar.service.ts:97 | a slash-free piece followed by a slash splits off as the first piece |
| Sidebar.SplitWithoutSeparator | src/app/components/sidebar/sidebar.service.ts:97 | a slash-free url is a single piece |
| Sidebar.MenuOf | src/app/components/sidebar/sidebar.service.ts:98 | a known section gets its own menu, any other name the home menu; the result is always one of the four menus |
| Sidebar.Route | src/app/components/sidebar/sidebar.service.ts:97 | the section is the second piece of the url, or `home` when that piece is missing or empty; it is never empty and never contains a slash |
| Sidebar.MenuFor | src/app/components/sidebar/sidebar.service.ts:96-99 | the lookup is total: the result is always one of the four menus |
| Sidebar.RootIsHome | src/app/components/sidebar/sidebar.service.ts:97 | `''` and `'/'` select home |
| Sidebar.RouteIsSecondPiece | src/app/components/sidebar/sidebar.service.ts:97 | the section is the piece after the first slash, whatever precedes it and whatever follows it |
| Sidebar.MapsSubpath | src/app/components/sidebar/sidebar.service.ts:97 | `/maps/x` selects the maps section and its menu |
| Sidebar.KnownSectionMenu | src/app/components/sidebar/sidebar.service.ts:9-98 | `/home`, `/maps`, `/layers` and `/analysis`, alone or with a sub-path, show their own menu |
| Sidebar.UnknownSectionIsHome | src/app/components/sidebar/sidebar.service.ts:98 | a url whose section has no menu shows the home menu |
| Sidebar.SectionNamesPlain | src/app/components/sidebar/sidebar.service.ts:9-88 | no section name contains `?`, `#` or `;` |
| Sidebar.SlashFreeSuffixHidesSection | src/app/components/sidebar/sidebar.service.ts:97-98 | a known section followed by a slash-free query, fragment or matrix suffix is read as one section that has no menu |
| Sidebar.RouteUpToSlash | src/app/components/sidebar/sidebar.service.ts:97 | after `/` and a slash-free section, the route is the section followed by what comes next, up to the next `/` |
| Sidebar.SuffixHidesSection | src/app/components/sidebar/sidebar.service.ts:97-98 | a known section followed by a query, fragment or matrix parameters, with or without later slashes, is not recognised: the route becomes the section plus the suffix up to its first `/`, and the home menu is shown |
| Sidebar.QueryHidesSection | src/app/components/sidebar/sidebar.service.ts:97-98 | `/maps?tab=1` shows the home menu |
| Sidebar.PathPart | src/app/components/sidebar/sidebar.service.ts:97 | the longest prefix of the url without `?`, `#` or `;` |
| Sidebar.PathRoute | src/app/components/sidebar/sidebar.service.ts:97 | the section of the path part, never empty and never containing a slash |
| Sidebar.PathMenuFor | src/app/components/sidebar/sidebar.service.ts:96-99 | the corrected lookup is total too |
| Sidebar.PathPartOfPlain | src/app/components/sidebar/sidebar.service.ts:97 | a mark-free prefix followed by a mark or by nothing is the path part |
| Sidebar.KnownSectionWithSuffix | src/app/components/sidebar/sidebar.service.ts:97-98 | under the corrected rule a known section keeps its menu whatever query, fragment or matrix parameters follow |
| Sidebar.PathRouteAgrees | src/app/components/sidebar/sidebar.service.ts:97-98 | the corrected rule agrees with the rule as written on every url without marks |
| Sidebar.QueryKeepsSection | src/app/components/sidebar/sidebar.service.ts:97-98 | under the corrected rule `/maps?tab=1` shows the maps menu |

## Left out

- AMD module loading, the `Map` and `MapView` construction, `view.when()` and the basemap setter are foreign ArcGIS calls. They are not modelled.
- The concrete layer constructors and `map.add` are one oracle that yields a handle or fails. `map.remove` is not modelled: removing a layer only updates the registry.
- `Blob`, `URL.createObjectURL`, `JSON.stringify` and `btoa` are browser APIs. A complex-SVG icon is modelled as its template index and colour, and the other picture marker as a badge of the layer colour.
- The random attribute values are the parameter `draw`. The `time` attribute is an opaque string, and the other constant attributes are kept as fields.
- JavaScript number formatting inside the CSV text is the parameter `show`. The lemmas about lines assume that `show` never produces a newline.
- Symbols.LayerColorStyle: the map component's rgba text renders the alpha through a parameter. Only its fallback is tied to the panel's swatch (`ControlPanel.LayerColorStyleOffCatalog`). That the 22 table texts equal the panel's 22 swatch strings is not proved, because each string comparison is too costly for the solver on the literal tables.
- Symbols.FamilySymbol: the complex-SVG icon is modelled with the layer's full colour, alpha included. The source's SVG templates write only `fill="rgb(r,g,b)"`, so the alpha never reaches an icon marker.
- `GeoData.ToIsrael` uses exact reals. IEEE rounding is not modelled, for example 35.9 - 34.2 is not exactly 1.7 in floating point.
- `entitiesAmount` is an integer. A fractional JavaScript number is not modelled.
- `performance.now` timings, `loadingTimeChanged`, the history's wall-clock timestamp (the parameter `now`) and all console output are not modelled.
- `Promise.all` and async suspension are not modelled as interleavings. Each `addLayer` runs atomically, which is exact because it never awaits.
- The key order in which `reloadLayersWithNewSymbol` visits the map is not fixed: `RebuildAll` picks ids in any order. `Registry.ReloadedIsSequentialAdds` shows that the order does not change the result.
- Angular inputs, outputs and event emitters, `onSettingsChange` (a console log only) and `onLayerToggle` (an emit only) are not modelled. A method's announced value is its return value. The source emits the live `Set` object itself, so the parent's copy aliases the map's set and sees later changes unannounced; the model returns a value and does not capture that aliasing.
- The parent page's copy of the active set is not part of this model. `LoadAllVisibleLayers` announces nothing, as the source's initial load emits only the loading time, so that copy stays empty after the initial load until the first toggle or reload.
- The sidebar's rxjs plumbing (`filter`, `startWith`, `map`) is not modelled. The menu rule is a function of the url alone, and its signature shows that it depends on nothing else.
- Lookups of JavaScript prototype keys (`constructor`, `toString`) in the object tables are not modelled. No route or select option of the app produces one.
- The CSV text does not escape quotes inside ids. Generated ids never contain quotes.
- The white outline colour of the simple markers is a constant of the table and is not carried in the model.
- `map.component.ts` and the header, sidebar and route shells hold static data and component plumbing. They are not part of this model.

## Findings

| source | as written | input that shows it | evidently intended | confidence | as-written member | corrected member |
|---|---|---|---|---|---|---|
| src/app/components/sidebar/sidebar.service.ts:97 | the section is read from `router.url`, which still carries the query string, fragment and matrix parameters | `/maps?tab=1`: the router shows the maps page, but the section becomes `maps?tab=1` and the sidebar shows the home menu | the section is read from the path part only, so `/maps?tab=1` shows the maps menu | medium, not executed | Sidebar.QueryHidesSection | Sidebar.KnownSectionWithSuffix |
