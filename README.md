# SpriteFusion map building, modelled in Dafny

This project models the map-building core of the SpriteFusion plugin for the
Excalibur game engine. Two classes make up that core.

- `SpriteFusionResource` holds a registry from tile ids to entity factories,
  the validated map data, the sprite sheet and the list of built layers.
  - It registers and unregisters factories, warning on overwrite and on
    removing an absent id.
  - `load` builds one `Layer` per authored layer, in reverse authored order,
    with consecutive z values from `startZIndex`.
  - Registering a factory once loaded re-runs it on every built layer.
  - `getSpriteById` and `getTileMap` look things up.
  - `addToScene` adds every tile map and entity to a scene and may limit the
    camera to the map.
- `Layer` builds a grid of the map's size. It resolves each tile of its layer
  in list order:
  - the tile is offered to the attribute callback;
  - in an object layer, the tile is skipped;
  - otherwise the tile is handed to the factory registered for its id, or
    drawn into its cell with the sprite at that index.
  - `runFactory` re-scans the tiles with a newly registered factory.

The zod schemas of the map file (`SpriteFusionMapData`, `LayerData`) are
modelled as parsers over a JSON datatype. Shape predicates and round-trip
lemmas sit beside them.

Layout:

- `wrappers.dfy`: `Option`.
- `host.dfy`: opaque engine handles (sprite, entity, factory, callback,
  scene, vector).
- `json.dfy`: decoded JSON and JavaScript truthiness.
- `js_number.dfy`: unary `+` on a tile-id string.
- `schema.dfy`: the zod schemas.
- `spritefusion.dfy`: the `TileMap`, `Layer` and `Resource` classes and the
  specification functions their methods are proved against. Both source
  files import each other, so both classes live in one module.
- `layer_facts.dfy` and `resource_facts.dfy`: what those specification
  functions amount to. They say which calls are made and in which order,
  which entities a layer holds, what each cell holds, what the registry
  holds and where each item lands in the scene.

Everything the plugin does to the outside world is appended, in order, to
`Resource.effects`. That covers warnings, attribute-callback calls, factory
calls, scene additions and camera limits. What a factory closure returns is
the arrow `Resource.run`, fixed at construction.

Behaviours of the code that may surprise, and that the model follows:

- `runFactory` calls the new factory for every tile of the layer, not only
  the tiles whose id equals the registered id. Each call passes that tile's
  own id.
- `getSpriteById` does throw. Before `load` the sprite sheet is undefined,
  and indexing it is a TypeError. The model returns `Lookup.Throws` then,
  unless the key is a string that reads as NaN.
- A second `load` is not refused. It appends a second set of layers, whose z
  values again start at `startZIndex`.
- The factory registry is a JavaScript `Map` keyed by numbers. Its
  SameValueZero comparison makes NaN a key like any other, and the model's
  `Num` (an integer or NaN) compares the same way.

## Model

| member | source | states |
|---|---|---|
| Schema.ParseTile | src/layer.ts:7-12 | a tile parses iff it is an object with a string `id` and numeric `x` and `y`; `attributes` is unconstrained |
| Schema.ParseTiles | src/layer.ts:6-13 | a tile array parses iff every item does; the result keeps the items in order, one per item |
| Schema.ParseLayer | src/layer.ts:4-15 | a layer parses iff it has a string `name`, an array of valid tiles, and `collider` absent or boolean |
| Schema.ParseLayers | src/spritefusion-resource.ts:9 | a layer array parses iff every item does, keeping order |
| Schema.ParseMap | src/spritefusion-resource.ts:5-10 | the map parses iff `tileSize`, `mapWidth`, `mapHeight` are numbers and `layers` is an array of valid layers; no sign or integer check |
| Schema.TilesRoundTrip | src/layer.ts:6-13 | encoding any tile list and parsing it back gives the same list |
| Schema.LayerRoundTrip | src/layer.ts:4-15 | encoding any layer record and parsing it back gives the same record |
| Schema.LayersRoundTrip | src/spritefusion-resource.ts:9 | encoding any layer list and parsing it back gives the same list |
| Schema.MapRoundTrip | src/spritefusion-resource.ts:5-10 | every typed map, whatever its numbers, survives encoding and validation unchanged |
| JsNumber.ToNumber | src/layer.ts:42 | unary `+` on a tile id: NaN iff the string is non-empty and not a digit run after at most one sign; otherwise the digits' value, negated after a minus; the empty string is 0 |
| JsNumber.ToNumberDecimal | src/layer.ts:42 | for an id below 2^53, `+` applied to its decimal form gives that id, and with a leading minus gives its negation |
| Json.Truthy | src/layer.ts:44 | a tile's `attributes` are truthy iff present and not one of `null`, `false`, `0`, `""` |
| SpriteFusion.SpriteAt | src/layer.ts:75 | indexing the sprite sheet gives a sprite iff the id is an integer inside the sheet, and then the sprite at that index |
| SpriteFusion.TileMap.constructor | src/layer.ts:32-38 | a fresh `mapWidth` x `mapHeight` grid of empty, non-solid cells at the origin, in no scene |
| SpriteFusion.Layer.constructor | src/layer.ts:24-79 | grid of the map's size, cells `tileSize` square, z equal to `order`, collider equal to `!!data.collider`; entities, cells and calls are those of building every tile under the resource's current registry |
| SpriteFusion.Layer.Build | src/layer.ts:41-78 | from an empty grid and no entities, resolving the tiles in list order yields `BuildEntities`, `CellAfter` for every cell, and appends `BuildEffects` |
| SpriteFusion.Layer.ResolveTile | src/layer.ts:42-77 | one tile: callback call if attributes are truthy and a callback exists; then nothing in an object layer, else the factory call and its entity, else the sprite appended to its cell and the solid flag set; no other cell changes |
| SpriteFusion.Layer.RunFactory | src/layer.ts:81-100 | with no factory for `tileId`, nothing changes; otherwise the entities grow by `RunEntities` and the calls and scene additions by `RunEffects`; cells are not in its frame |
| SpriteFusion.Resource.constructor | src/spritefusion-resource.ts:102-120 | defaults: z from `startZIndex` or 0, camera strategy off unless true, no object layers; not loaded, no layers; the registry and warnings are those of registering the constructor's entries in order |
| SpriteFusion.Resource.RegisterEntries | src/spritefusion-resource.ts:117-119 | each entry registered in order under its key read as a number: registry `RegisterAll`, warnings `RegisterAllWarnings` |
| SpriteFusion.Resource.Register | src/spritefusion-resource.ts:122-132 | the registry maps `tileId` to the factory, other ids unchanged; a warning first iff the id was present; once loaded, every layer in order re-runs the factory, with its entities extended accordingly |
| SpriteFusion.Resource.RunAll | src/spritefusion-resource.ts:127-131 | each layer, in build order, re-runs the factory exactly once |
| SpriteFusion.Resource.Unregister | src/spritefusion-resource.ts:134-139 | the id is removed and every other id is unchanged; a warning iff it was absent |
| SpriteFusion.Resource.Load | src/spritefusion-resource.ts:141-172 | fails with nothing changed iff the map does not validate; otherwise stores the map and sheet and appends one fresh layer per authored layer, the k-th built from the k-th layer from the end with z `startZIndex + k` |
| SpriteFusion.Resource.BuildAll | src/spritefusion-resource.ts:165-171 | builds and appends one layer per entry, in order, with z counting up from `startZIndex`; the calls are those of building each in turn |
| SpriteFusion.Resource.IsLoaded | src/spritefusion-resource.ts:173-175 | not loaded implies no layers and no sprite sheet |
| SpriteFusion.Resource.GetSpriteById | src/spritefusion-resource.ts:177-184 | a string reading as NaN gives `undefined`; it throws iff the sprite sheet is not loaded and the key is not such a string; it gives a sprite iff the key reads as an index inside the sheet, and then the sprite at that index |
| SpriteFusion.Resource.GetTileMap | src/spritefusion-resource.ts:186-193 | `undefined` iff no layer has the name; otherwise the tile map of the first layer in build order with that name |
| SpriteFusion.Resource.AddToScene | src/spritefusion-resource.ts:195-217 | every tile map moved to `pos` (default the origin) and put in the scene, z unchanged; additions as `SceneEffects`; one camera limit of `mapWidth*tileSize` x `mapHeight*tileSize` iff the strategy is on and a layer exists |
| SpriteFusion.Resource.AddLayers | src/spritefusion-resource.ts:197-203 | every layer in order: tile map moved and added, then its entities |
| SpriteFusion.Resource.AddEntities | src/spritefusion-resource.ts:200-202 | the entities are added in order |
| SpriteFusion.ReversedElements | src/spritefusion-resource.ts:165-167 | reversing the authored layers keeps exactly the same layers |
| LayerFacts.AttributeCallsOfBuild | src/layer.ts:41-55 | building calls the callback exactly once per tile with truthy attributes, in tile order, with that tile and the map data, whether or not the layer is an object layer; never without a callback |
| LayerFacts.CallbackCallsIndex | src/layer.ts:44-54 | the k-th callback call passes the k-th such tile |
| LayerFacts.CallbackBeforeFactory | src/layer.ts:44-73 | a tile's callback call comes before its factory call |
| LayerFacts.FactoryCallsOfBuild | src/layer.ts:57-73 | outside an object layer, exactly one factory call per tile whose id has a factory, in tile order, with the tile's cell and id; none otherwise |
| LayerFacts.EntitiesFromCalls | src/layer.ts:61-70 | the layer's entities are exactly those its factory calls returned, one per returned entity, in call order |
| LayerFacts.ObjectLayerInert | src/layer.ts:57-59 | an object layer calls no factory, holds no entity and leaves every cell empty |
| LayerFacts.CellContents | src/layer.ts:75-77 | outside an object layer, a cell holds exactly the sprites of the tiles naming it without a factory, in tile order, and is solid iff one was drawn and the layer is a collider |
| LayerFacts.UntouchedCell | src/layer.ts:41-78 | a cell no factory-less tile names stays empty and non-solid |
| LayerFacts.EveryTileCallsIndex | src/layer.ts:82-91 | the k-th `runFactory` call is at the k-th tile's cell with that tile's own id |
| LayerFacts.RunCalls | src/layer.ts:81-91 | `runFactory` calls the factory once for every tile, in tile order, whatever the tile's id |
| LayerFacts.RunReturns | src/layer.ts:86-93 | the entities `runFactory` appends are those its calls return, in call order |
| LayerFacts.RunSceneAdds | src/layer.ts:92-96 | each appended entity is added to the tile map's scene, in order, iff the tile map is in a scene |
| ResourceFacts.RegisterAllLookup | src/spritefusion-resource.ts:117-126 | after registering entries, an id has a factory iff it had one or some key reads as it; the last such entry wins; other ids keep theirs |
| ResourceFacts.RegisterAllCount | src/spritefusion-resource.ts:122-126 | each registration either adds an id or warns: warnings plus new ids number the entries |
| ResourceFacts.LastFactoryNone | src/spritefusion-resource.ts:117-118 | no entry's key reads as an id iff the last-entry lookup finds none |
| ResourceFacts.NoWarningsIff | src/spritefusion-resource.ts:117-125 | registering entries warns not at all iff their keys read as distinct ids absent from the registry |
| ResourceFacts.CanonicalKeysNoWarnings | src/spritefusion-resource.ts:117-119 | factories supplied under the decimal forms of distinct ids below 2^53 register without a warning |
| ResourceFacts.NumberStringRoundTrip | src/spritefusion-resource.ts:118 | the property name `String(n)` of an id below 2^53 in magnitude, or of NaN, reads back as that number |
| ResourceFacts.PropertyAt | src/spritefusion-resource.ts:118 | indexing the options object finds nothing iff no entry has that property name, and otherwise the value of an entry with that name |
| ResourceFacts.AsWrittenFactory | src/spritefusion-resource.ts:118 | `entityTileIdFactories[+key]` is `undefined` iff no entry's key is the property name of the number `key` reads as, and otherwise that entry's factory |
| ResourceFacts.NonCanonicalKeyLost | src/spritefusion-resource.ts:117-118 | as written, the key "01" looks up the absent property "1", so `undefined` is registered where the entry's factory was meant |
| ResourceFacts.CanonicalKeysAgree | src/spritefusion-resource.ts:117-118 | with the decimal forms of distinct ids below 2^53 as keys, the lookup as written finds each entry's own factory |
| ResourceFacts.RegisterCalls | src/spritefusion-resource.ts:127-131 | registering once loaded calls the factory layer by layer in build order, once per tile: as many calls as the layers have tiles |
| ResourceFacts.ReversedIndex | src/spritefusion-resource.ts:165-170 | the k-th built layer is the k-th authored layer from the end |
| ResourceFacts.ReversedTwice | src/spritefusion-resource.ts:165-167 | reversing the built order gives the authored order back |
| ResourceFacts.SceneTileMapAt | src/spritefusion-resource.ts:197-199 | layer k's tile map is added right after every earlier layer's tile map and entities |
| ResourceFacts.SceneEntityAt | src/spritefusion-resource.ts:197-202 | layer k's entities are added right after its tile map, in order |
| ResourceFacts.SceneCount | src/spritefusion-resource.ts:197-203 | the scene receives the tile maps and entities and nothing else |

## Left out

- Fetching and JSON-decoding the map (src/spritefusion-resource.ts:142-143). These are network I/O. `Load` takes the decoded JSON.
- Loading the sprite-sheet image and slicing it (src/spritefusion-resource.ts:146-164). These are Excalibur calls. `Load` takes the resulting sprites as a sequence.
- The `await` points inside `load`. The model treats `load` as one step. It does not model the window where `data` is already set (line 145) but the image has not loaded, nor an image failure that leaves `data` set and no layers.
- Excalibur internals:
  - the tile map is a grid of cells holding a graphics list and a solid flag;
  - `worldPos` is the cell's integer position;
  - `scene.add` of a tile map is assumed to set the tile map's scene;
  - the camera bounds are a recorded width, height and position.
- The closures. Factories and the attribute callback are opaque handles, and their calls are recorded. What a factory returns is the fixed arrow `run`. Side effects inside a closure, including re-entrant calls into the resource, are not modelled.
- `console.warn` is a recorded `Warned` effect, not logging.
- SpriteFusion.Layer.constructor: requires whole-number map dimensions, and in-grid coordinates for every tile outside an object layer. The source dereferences `tile!` for such tiles and crashes otherwise.
- SpriteFusion.Layer.RunFactory: requires in-grid coordinates for every tile when a factory exists, for the same reason.
- SpriteFusion.Resource.Load: requires the validated map to fit the grid as above when it has a layer. A map without layers builds no grid, so it loads whatever its dimensions.
- SpriteFusion.Resource.Load: computes layer k's z as the exact integer `startZIndex + k`. In JavaScript `order` is a double: it may start fractional, and from 2^53 on `order++` no longer increases it, so two layers can share a z. The model promises distinct, increasing integer z values.
- SpriteFusion.Resource.BuildAll: the same exact z arithmetic as `Load`, for the same reason.
- SpriteFusion.Resource.constructor: holds `startZIndex` as an integer. The source's option is any number, including a fraction such as 0.5.
- SpriteFusion.Resource.AddToScene: records the camera box as the exact real products `mapWidth * tileSize` and `mapHeight * tileSize`. JavaScript rounds the double product: a width of 3 and a tile size of 0.1 give 0.30000000000000004.
- JsNumber.ToNumber: handles only the empty string, decimal digits, and digits after one `+` or `-`. Whitespace, fractions, exponents, hexadecimal and `Infinity` read as NaN here. Tile ids are decimal integers, so non-integer numbers are not represented.
- JsNumber.ToNumber: reads a digit run as an exact, unbounded integer. JavaScript numbers are doubles: from 2^53 on, neighbouring ids round to one number (`+"9007199254740993"` is 9007199254740992), so two such ids share a registry key. The lemmas that depend on exact ids are stated below 2^53 only.
- ToNumberDecimal: stated for ids below 2^53 only, because above that JavaScript's `+` rounds.
- CanonicalKeysNoWarnings: stated for ids below 2^53 only. Ids 2^53 and 2^53 + 1 read as the same number in JavaScript and the second registration warns.
- CanonicalKeysAgree: stated for ids below 2^53 only. JavaScript writes large numbers differently (`String(1e21)` is `"1e+21"`), so the lookup as written misses the key `"1000000000000000000000"`.
- ResourceFacts.NumberString: writes every integer in plain decimal. JavaScript switches to exponent form from 1e21, and above 2^53 the number is already rounded.
- SpriteFusion.Resource.constructor: its registry is the one `RegisterEntries` builds, so it has the same gap as the next line.
- SpriteFusion.Resource.RegisterEntries: takes the keys in the given order. JavaScript's for-in order puts integer-like keys first, in ascending order. The model registers each entry's own factory; the lookup as written is modelled separately (see Findings).
- The `Loadable` interface, the `example/` demo and the webpack configuration are outside the core.

## Findings

| source | as written | input that shows it | evidently intended | confidence | as-written member | corrected member |
|---|---|---|---|---|---|---|
| src/spritefusion-resource.ts:117-118 | the factory is looked up again as `entityTileIdFactories[+key]` | the key "01": `+key` is 1, the property "1" does not exist, so `undefined` is registered under 1: tiles with id 1 get no entity, and a later registration of 1 warns of an overwrite | register the entry's own value, `entityTileIdFactories[key]`, under `+key` | not executed; medium | ResourceFacts.NonCanonicalKeyLost | ResourceFacts.RegisterAllLookup |
