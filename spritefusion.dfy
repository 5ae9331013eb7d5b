/**
 * The map-building core of the SpriteFusion plugin: the resource that owns
 * the tile-id factory registry and the layers, and the layer that resolves
 * each tile of a layer to a decorated grid cell or a factory-built entity.
 *
 * The two source files import each other (a layer keeps a back-reference to
 * its resource), so both classes live in this one module. What the engine
 * and the caller observe (warnings, factory and attribute-callback calls,
 * scene additions, camera limits) is appended to `Resource.effects`; the
 * methods are proved against the specification functions below, which say
 * what each tile contributes.
 */
module SpriteFusion {
  import opened Wrappers
  import opened Host
  import opened Json
  import opened JsNumber
  import opened Schema

  // ----- values -----

  /** One grid cell: the graphics stacked on it (`None` is an undefined sprite) and its solid flag. */
  datatype Cell = Cell(graphics: seq<Option<Sprite>>, solid: bool)

  /** A cell as the tile map creates it. */
  const EmptyCell := Cell([], false)

  /** The position of a grid cell, standing for the engine's world position of that cell. */
  datatype CellPos = CellPos(x: int, y: int)

  /** The argument of a factory call. */
  datatype FactoryProps = FactoryProps(worldPos: CellPos, id: Num, layer: Layer)

  /** The argument of an attribute-callback call. */
  datatype AttributeData = AttributeData(tileData: TileData, mapData: MapData)

  datatype Warning = AlreadyRegistered(id: Num) | NotRegistered(id: Num)

  datatype SceneItem = TileMapItem(tilemap: TileMap) | EntityItem(entity: Entity)

  /** `BoundingBox.fromDimension(width, height, Vector.Zero, pos)`. */
  datatype CameraBounds = CameraBounds(width: real, height: real, pos: Vec)

  /** One thing the plugin does to the world outside it, in the order it happens. */
  datatype Effect =
    | Warned(warning: Warning)
    | AttributeCalled(callback: Callback, att: AttributeData)
    | FactoryCalled(factory: Factory, props: FactoryProps)
    | SceneAdded(scene: SceneHandle, item: SceneItem)
    | CameraLimited(scene: SceneHandle, bounds: CameraBounds)

  /** What each registered factory closure returns for given props. */
  type FactoryRun = (Factory, FactoryProps) -> Option<Entity>

  /** `getSpriteById` accepts a string or a number. */
  datatype SpriteKey = StringKey(s: string) | NumberKey(n: Num)

  /** The outcome of `getSpriteById`: a value (possibly `undefined`), or a TypeError. */
  datatype Lookup = Value(sprite: Option<Sprite>) | Throws

  /** The construction options of the resource; `None` is an omitted option. */
  datatype Options = Options(
    mapPath: string,
    spritesheetPath: string,
    useTileMapCameraStrategy: Option<bool>,
    entityTileIdFactories: Option<seq<(string, Factory)>>,
    tileAttributeFactory: Option<Callback>,
    objectLayers: Option<seq<string>>,
    startZIndex: Option<int>)

  /** Everything a layer's construction reads besides the layer's own data. */
  datatype Env = Env(
    mapData: MapData,
    factories: map<Num, Factory>,
    sprites: seq<Sprite>,
    callback: Option<Callback>,
    objectLayers: seq<string>)

  // ----- grid geometry -----

  /** `v` is an integer in `[0, bound)`. */
  predicate IsIndex(v: real, bound: int) {
    v == v.Floor as real && 0 <= v.Floor < bound
  }

  /** `v` is a non-negative integer. */
  predicate IsCount(v: real) {
    v == v.Floor as real && 0.0 <= v
  }

  /** The tile names a cell of a `columns` x `rows` grid. */
  predicate InGrid(t: TileData, columns: int, rows: int) {
    IsIndex(t.x, columns) && IsIndex(t.y, rows)
  }

  /** The tile names cell (x, y). */
  predicate At(t: TileData, x: int, y: int) {
    t.x.Floor == x && t.y.Floor == y
  }

  function PosOf(t: TileData): CellPos {
    CellPos(t.x.Floor, t.y.Floor)
  }

  /**
   * What `load` needs of a validated map beyond the schema: whole-number
   * dimensions once there is a layer to build a grid for, and every tile of
   * a layer that is not an object layer on the grid (such a tile's cell is
   * dereferenced).
   */
  predicate Fits(m: MapData, objectLayers: seq<string>) {
    && (m.layers != [] ==> IsCount(m.mapWidth) && IsCount(m.mapHeight))
    && forall d :: d in m.layers && d.name !in objectLayers ==>
         forall t :: t in d.tiles ==> InGrid(t, m.mapWidth.Floor, m.mapHeight.Floor)
  }

  // ----- what one tile does -----

  /** `sprites[n]`: the sprite at index `n`, `undefined` outside the sheet or for NaN. */
  function SpriteAt(sprites: seq<Sprite>, n: Num): (r: Option<Sprite>)
    ensures r.Some? <==> n.Int? && 0 <= n.i < |sprites|
    ensures r.Some? ==> r.value == sprites[n.i]
  {
    if n.Int? && 0 <= n.i < |sprites| then Some(sprites[n.i]) else None
  }

  /** How the layer constructor resolves a tile after the attribute callback. */
  datatype Resolution = Skipped | Dispatched(factory: Factory) | Decorated(sprite: Option<Sprite>)

  function Resolve(t: TileData, d: LayerData, env: Env): Resolution {
    if d.name in env.objectLayers then Skipped
    else
      var id := ToNumber(t.id);
      if id in env.factories then Dispatched(env.factories[id])
      else Decorated(SpriteAt(env.sprites, id))
  }

  function PropsFor(t: TileData, self: Layer): FactoryProps {
    FactoryProps(PosOf(t), ToNumber(t.id), self)
  }

  /** The attribute-callback call a tile causes, if any. */
  function AttributeEffects(t: TileData, env: Env): seq<Effect> {
    if Truthy(t.attributes) && env.callback.Some?
    then [AttributeCalled(env.callback.value, AttributeData(t, env.mapData))]
    else []
  }

  /** The factory call a tile causes, if any. */
  function FactoryEffects(t: TileData, d: LayerData, env: Env, self: Layer): seq<Effect> {
    match Resolve(t, d, env)
    case Dispatched(f) => [FactoryCalled(f, PropsFor(t, self))]
    case _ => []
  }

  /** The calls one tile causes while its layer is built: the attribute callback first. */
  function TileEffects(t: TileData, d: LayerData, env: Env, self: Layer): seq<Effect> {
    AttributeEffects(t, env) + FactoryEffects(t, d, env, self)
  }

  /** The entity one tile adds to its layer while the layer is built. */
  function TileEntities(t: TileData, d: LayerData, env: Env, self: Layer): seq<Entity> {
    match Resolve(t, d, env)
    case Dispatched(f) => OptionToSeq(self.resource.run(f, PropsFor(t, self)))
    case _ => []
  }

  /** Cell (x, y) after the tile `t` has been resolved, given its content `c` before. */
  function Decorate(c: Cell, t: TileData, d: LayerData, env: Env, x: int, y: int): Cell {
    match Resolve(t, d, env)
    case Decorated(s) => if At(t, x, y) then Cell(c.graphics + [s], d.collider == Some(true)) else c
    case _ => c
  }

  // ----- what a whole tile list does, tile by tile in list order -----

  function BuildEffects(tiles: seq<TileData>, d: LayerData, env: Env, self: Layer): seq<Effect> {
    if tiles == [] then []
    else BuildEffects(tiles[..|tiles| - 1], d, env, self) + TileEffects(tiles[|tiles| - 1], d, env, self)
  }

  function BuildEntities(tiles: seq<TileData>, d: LayerData, env: Env, self: Layer): seq<Entity> {
    if tiles == [] then []
    else BuildEntities(tiles[..|tiles| - 1], d, env, self) + TileEntities(tiles[|tiles| - 1], d, env, self)
  }

  function CellAfter(tiles: seq<TileData>, d: LayerData, env: Env, x: int, y: int): Cell {
    if tiles == [] then EmptyCell
    else Decorate(CellAfter(tiles[..|tiles| - 1], d, env, x, y), tiles[|tiles| - 1], d, env, x, y)
  }

  /** Extending the resolved prefix of a tile list by one tile: the calls. */
  lemma EffectsStep(tiles: seq<TileData>, i: int, d: LayerData, env: Env, self: Layer)
    requires 0 <= i < |tiles|
    ensures BuildEffects(tiles[..i + 1], d, env, self) == BuildEffects(tiles[..i], d, env, self) + TileEffects(tiles[i], d, env, self)
  {
    assert tiles[..i + 1][..i] == tiles[..i];
  }

  /** Extending the resolved prefix of a tile list by one tile: the entities. */
  lemma EntitiesStep(tiles: seq<TileData>, i: int, d: LayerData, env: Env, self: Layer)
    requires 0 <= i < |tiles|
    ensures BuildEntities(tiles[..i + 1], d, env, self) == BuildEntities(tiles[..i], d, env, self) + TileEntities(tiles[i], d, env, self)
  {
    assert tiles[..i + 1][..i] == tiles[..i];
  }

  /** Extending the resolved prefix of a tile list by one tile: the cells. */
  lemma CellsStep(tiles: seq<TileData>, i: int, d: LayerData, env: Env)
    requires 0 <= i < |tiles|
    ensures forall x, y :: CellAfter(tiles[..i + 1], d, env, x, y) == Decorate(CellAfter(tiles[..i], d, env, x, y), tiles[i], d, env, x, y)
  {
    assert tiles[..i + 1][..i] == tiles[..i];
  }

  /** The calls `runFactory` makes for one tile with factory `f`, the layer's tile map being in `scene`. */
  function RunTileEffects(t: TileData, f: Factory, self: Layer, scene: Option<SceneHandle>): seq<Effect> {
    var props := PropsFor(t, self);
    [FactoryCalled(f, props)] + EntityAdd(self.resource.run(f, props), scene)
  }

  /** Adding a returned entity to the tile map's scene, when there is both an entity and a scene. */
  function EntityAdd(e: Option<Entity>, scene: Option<SceneHandle>): seq<Effect> {
    if e.Some? && scene.Some? then [SceneAdded(scene.value, EntityItem(e.value))] else []
  }

  function RunEffects(tiles: seq<TileData>, f: Factory, self: Layer, scene: Option<SceneHandle>): seq<Effect> {
    if tiles == [] then []
    else RunEffects(tiles[..|tiles| - 1], f, self, scene) + RunTileEffects(tiles[|tiles| - 1], f, self, scene)
  }

  function RunEntities(tiles: seq<TileData>, f: Factory, self: Layer): seq<Entity> {
    if tiles == [] then []
    else RunEntities(tiles[..|tiles| - 1], f, self) + OptionToSeq(self.resource.run(f, PropsFor(tiles[|tiles| - 1], self)))
  }

  // ----- what the resource does across its layers, in build order -----

  /** The calls made while building the layers `ls`, one after the other. */
  function LoadEffects(ls: seq<Layer>, env: Env): seq<Effect> {
    if ls == [] then []
    else
      var l := ls[|ls| - 1];
      LoadEffects(ls[..|ls| - 1], env) + BuildEffects(l.data.tiles, l.data, env, l)
  }

  /** The scene each layer's tile map is in. */
  function ScenesOf(ls: seq<Layer>): (r: seq<Option<SceneHandle>>)
    reads set l | l in ls :: l.tilemap
    ensures |r| == |ls| && forall k :: 0 <= k < |ls| ==> r[k] == ls[k].tilemap.scene
  {
    if ls == [] then [] else ScenesOf(ls[..|ls| - 1]) + [ls[|ls| - 1].tilemap.scene]
  }

  /** The calls `runFactory` makes on each of the layers `ls` in turn, the k-th tile map being in `scenes[k]`. */
  function RegisterEffects(ls: seq<Layer>, scenes: seq<Option<SceneHandle>>, f: Factory): seq<Effect>
    requires |scenes| == |ls|
  {
    if ls == [] then []
    else
      var l := ls[|ls| - 1];
      RegisterEffects(ls[..|ls| - 1], scenes[..|ls| - 1], f) + RunEffects(l.data.tiles, f, l, scenes[|ls| - 1])
  }

  lemma RegisterStep(ls: seq<Layer>, scenes: seq<Option<SceneHandle>>, i: int, f: Factory)
    requires |scenes| == |ls| && 0 <= i < |ls|
    ensures RegisterEffects(ls[..i + 1], scenes[..i + 1], f)
         == RegisterEffects(ls[..i], scenes[..i], f) + RunEffects(ls[i].data.tiles, f, ls[i], scenes[i])
  {
    assert ls[..i + 1][..i] == ls[..i];
    assert scenes[..i + 1][..i] == scenes[..i];
  }

  lemma LoadStep(ls: seq<Layer>, l: Layer, env: Env)
    ensures LoadEffects(ls + [l], env) == LoadEffects(ls, env) + BuildEffects(l.data.tiles, l.data, env, l)
  {
    assert (ls + [l])[..|ls|] == ls;
  }

  function EntityAdds(es: seq<Entity>, scene: SceneHandle): seq<Effect> {
    if es == [] then [] else EntityAdds(es[..|es| - 1], scene) + [SceneAdded(scene, EntityItem(es[|es| - 1]))]
  }

  /** The entities each layer holds. */
  function EntitiesOf(ls: seq<Layer>): (r: seq<seq<Entity>>)
    reads set l | l in ls
    ensures |r| == |ls| && forall k :: 0 <= k < |ls| ==> r[k] == ls[k].entities
  {
    if ls == [] then [] else EntitiesOf(ls[..|ls| - 1]) + [ls[|ls| - 1].entities]
  }

  /**
   * The scene additions `addToScene` makes: each layer's tile map, then
   * that layer's entities `ents[k]`.
   */
  function SceneEffects(ls: seq<Layer>, ents: seq<seq<Entity>>, scene: SceneHandle): seq<Effect>
    requires |ents| == |ls|
  {
    if ls == [] then []
    else
      SceneEffects(ls[..|ls| - 1], ents[..|ls| - 1], scene)
      + [SceneAdded(scene, TileMapItem(ls[|ls| - 1].tilemap))] + EntityAdds(ents[|ls| - 1], scene)
  }

  lemma SceneStep(ls: seq<Layer>, ents: seq<seq<Entity>>, i: int, scene: SceneHandle)
    requires |ents| == |ls| && 0 <= i < |ls|
    ensures SceneEffects(ls[..i + 1], ents[..i + 1], scene)
         == SceneEffects(ls[..i], ents[..i], scene) + [SceneAdded(scene, TileMapItem(ls[i].tilemap))] + EntityAdds(ents[i], scene)
  {
    assert ls[..i + 1][..i] == ls[..i];
    assert ents[..i + 1][..i] == ents[..i];
  }

  /** The camera box of a map anchored at its top-left corner `pos`. */
  function MapBounds(m: MapData, pos: Vec): CameraBounds {
    CameraBounds(m.mapWidth * m.tileSize, m.mapHeight * m.tileSize, pos)
  }

  // ----- registration, as the constructor performs it -----

  /** The registry after registering `entries` in order, each under `+key`. */
  function RegisterAll(m: map<Num, Factory>, entries: seq<(string, Factory)>): map<Num, Factory> {
    if entries == [] then m
    else
      var e := entries[|entries| - 1];
      RegisterAll(m, entries[..|entries| - 1])[ToNumber(e.0) := e.1]
  }

  /** The warning `register` emits when `id` already has a factory in `m`. */
  function OverwriteWarning(m: map<Num, Factory>, id: Num): seq<Effect> {
    if id in m then [Warned(AlreadyRegistered(id))] else []
  }

  /** The warning `unregister` emits when `id` has no factory in `m`. */
  function MissingWarning(m: map<Num, Factory>, id: Num): seq<Effect> {
    if id !in m then [Warned(NotRegistered(id))] else []
  }

  /** The overwrite warnings those registrations emit. */
  function RegisterAllWarnings(m: map<Num, Factory>, entries: seq<(string, Factory)>): seq<Effect> {
    if entries == [] then []
    else
      var init := entries[..|entries| - 1];
      RegisterAllWarnings(m, init) + OverwriteWarning(RegisterAll(m, init), ToNumber(entries[|entries| - 1].0))
  }

  // ----- the engine's tile map -----

  /** The engine tile map of one layer: a `columns` x `rows` grid of cells, indexed `cells[x, y]`. */
  class TileMap {
    const name: string
    const columns: nat
    const rows: nat
    const tileSize: real
    const cells: array2<Cell>
    var z: int
    var pos: Vec
    var scene: Option<SceneHandle>

    ghost predicate Valid() {
      cells.Length0 == columns && cells.Length1 == rows
    }

    constructor (name: string, rows: nat, columns: nat, tileSize: real)
      ensures Valid() && fresh(cells)
      ensures this.name == name && this.rows == rows && this.columns == columns && this.tileSize == tileSize
      ensures z == 0 && pos == Origin && scene == None
      ensures forall x, y :: 0 <= x < columns && 0 <= y < rows ==> cells[x, y] == EmptyCell
    {
      this.name := name;
      this.rows := rows;
      this.columns := columns;
      this.tileSize := tileSize;
      cells := new Cell[columns, rows]((x, y) => EmptyCell);
      z := 0;
      pos := Origin;
      scene := None;
    }
  }

  // ----- a layer -----

  class Layer {
    const data: LayerData
    const order: int
    const resource: Resource
    const collider: bool
    const tilemap: TileMap
    var entities: seq<Entity>

    ghost predicate Valid() {
      && tilemap.Valid()
      && tilemap.name == data.name
      && collider == (data.collider == Some(true))
    }

    /** Every tile of the layer names a cell of its grid. */
    ghost predicate Placed() {
      forall t :: t in data.tiles ==> InGrid(t, tilemap.columns, tilemap.rows)
    }

    /** The entities and cells are what building `tiles` under `env` gives. */
    ghost predicate Built(tiles: seq<TileData>, env: Env)
      reads this`entities, tilemap.cells
      requires Valid()
    {
      && entities == BuildEntities(tiles, data, env, this)
      && forall x, y :: 0 <= x < tilemap.columns && 0 <= y < tilemap.rows ==>
           tilemap.cells[x, y] == CellAfter(tiles, data, env, x, y)
    }

    /** The whole tile list has been built under `env`. */
    ghost predicate BuiltUnder(env: Env)
      reads this`entities, tilemap.cells
      requires Valid()
    {
      Built(data.tiles, env)
    }

    /**
     * The layer is what the constructor makes of `d` with z `z` under
     * `env`: a grid of the map's size at the origin, in no scene, with
     * every tile built.
     */
    ghost predicate BuiltFrom(d: LayerData, z: int, env: Env)
      reads this`entities, tilemap, tilemap.cells
    {
      && Valid() && data == d && order == z
      && tilemap.columns == env.mapData.mapWidth.Floor && tilemap.rows == env.mapData.mapHeight.Floor
      && tilemap.tileSize == env.mapData.tileSize
      && tilemap.z == z && tilemap.pos == Origin && tilemap.scene == None
      && BuiltUnder(env)
    }

    /**
     * Builds the layer: a grid of the map's size with z `order`, then each
     * tile in list order is offered to the attribute callback, skipped in
     * an object layer, dispatched to its factory, or drawn into its cell.
     */
    constructor (data: LayerData, order: int, resource: Resource, attributeCallback: Option<Callback>, objectLayers: seq<string>)
      requires resource.data.Some? && resource.sprites.Some?
      requires IsCount(resource.data.value.mapWidth) && IsCount(resource.data.value.mapHeight)
      requires data.name !in objectLayers ==>
        forall t :: t in data.tiles ==> InGrid(t, resource.data.value.mapWidth.Floor, resource.data.value.mapHeight.Floor)
      modifies resource`effects
      ensures Valid() && fresh(tilemap) && fresh(tilemap.cells)
      ensures this.data == data && this.order == order && this.resource == resource
      ensures tilemap.columns == resource.data.value.mapWidth.Floor && tilemap.rows == resource.data.value.mapHeight.Floor
      ensures tilemap.tileSize == resource.data.value.tileSize
      ensures tilemap.z == order && tilemap.pos == Origin && tilemap.scene == None
      ensures var env := Env(resource.data.value, resource.factories, resource.sprites.value, attributeCallback, objectLayers);
        && BuiltUnder(env)
        && resource.effects == old(resource.effects) + BuildEffects(data.tiles, data, env, this)
    {
      this.data := data;
      this.order := order;
      this.resource := resource;
      collider := data.collider == Some(true);
      var m := resource.data.value;
      tilemap := new TileMap(data.name, m.mapHeight.Floor, m.mapWidth.Floor, m.tileSize);
      entities := [];
      new;
      tilemap.z := order;
      ghost var env := Env(m, resource.factories, resource.sprites.value, attributeCallback, objectLayers);
      Build(attributeCallback, objectLayers, env);
    }

    /** The constructor's loop: resolves the tiles in list order, starting from an empty grid and no entities. */
    method Build(attributeCallback: Option<Callback>, objectLayers: seq<string>, ghost env: Env)
      requires Valid() && resource.data.Some? && resource.sprites.Some?
      requires env == Env(resource.data.value, resource.factories, resource.sprites.value, attributeCallback, objectLayers)
      requires data.name !in objectLayers ==> Placed()
      requires entities == []
      requires forall x, y :: 0 <= x < tilemap.columns && 0 <= y < tilemap.rows ==> tilemap.cells[x, y] == EmptyCell
      modifies this`entities, tilemap.cells, resource`effects
      ensures BuiltUnder(env)
      ensures resource.effects == old(resource.effects) + BuildEffects(data.tiles, data, env, this)
    {
      var tiles := data.tiles;
      var i := 0;
      while i < |tiles|
        invariant 0 <= i <= |tiles|
        invariant Built(tiles[..i], env)
        invariant resource.effects == old(resource.effects) + BuildEffects(tiles[..i], data, env, this)
      {
        assert tiles[i] in data.tiles;
        BuildNext(tiles, i, attributeCallback, objectLayers, env, old(resource.effects));
        i := i + 1;
      }
      assert tiles[..i] == tiles;
    }

    /** One step of the constructor's loop: the tile `tiles[i]` extends the built prefix. */
    method BuildNext(tiles: seq<TileData>, i: nat, attributeCallback: Option<Callback>, objectLayers: seq<string>, ghost env: Env, ghost before: seq<Effect>)
      requires Valid() && resource.data.Some? && resource.sprites.Some?
      requires env == Env(resource.data.value, resource.factories, resource.sprites.value, attributeCallback, objectLayers)
      requires i < |tiles| && (data.name !in objectLayers ==> InGrid(tiles[i], tilemap.columns, tilemap.rows))
      requires Built(tiles[..i], env)
      requires resource.effects == before + BuildEffects(tiles[..i], data, env, this)
      modifies this`entities, tilemap.cells, resource`effects
      ensures Built(tiles[..i + 1], env)
      ensures resource.effects == before + BuildEffects(tiles[..i + 1], data, env, this)
    {
      EffectsStep(tiles, i, data, env, this);
      EntitiesStep(tiles, i, data, env, this);
      CellsStep(tiles, i, data, env);
      AppendAssoc(before, BuildEffects(tiles[..i], data, env, this), TileEffects(tiles[i], data, env, this));
      ResolveTile(tiles[i], attributeCallback, objectLayers, env);
    }

    /**
     * What the constructor does with one tile `t`: offers it to the
     * attribute callback when it has truthy attributes, then, outside an
     * object layer, either hands it to the factory registered for its id or
     * draws it into its cell with the sprite at that index.
     */
    method ResolveTile(t: TileData, attributeCallback: Option<Callback>, objectLayers: seq<string>, ghost env: Env)
      requires Valid() && resource.data.Some? && resource.sprites.Some?
      requires env == Env(resource.data.value, resource.factories, resource.sprites.value, attributeCallback, objectLayers)
      requires data.name !in objectLayers ==> InGrid(t, tilemap.columns, tilemap.rows)
      modifies this`entities, tilemap.cells, resource`effects
      ensures entities == old(entities) + TileEntities(t, data, env, this)
      ensures resource.effects == old(resource.effects) + TileEffects(t, data, env, this)
      ensures forall x, y :: 0 <= x < tilemap.columns && 0 <= y < tilemap.rows ==>
        tilemap.cells[x, y] == Decorate(old(tilemap.cells[x, y]), t, data, env, x, y)
    {
      var spriteId := ToNumber(t.id);
      if Truthy(t.attributes) && attributeCallback.Some? {
        resource.effects := resource.effects + [AttributeCalled(attributeCallback.value, AttributeData(t, resource.data.value))];
      }
      if data.name in objectLayers {
        // an object layer: the tile only feeds the attribute callback
      } else if spriteId in resource.factories {
        var factory := resource.factories[spriteId];
        var props := FactoryProps(CellPos(t.x.Floor, t.y.Floor), spriteId, this);
        resource.effects := resource.effects + [FactoryCalled(factory, props)];
        var entity := resource.run(factory, props);
        if entity.Some? {
          entities := entities + [entity.value];
        }
      } else {
        var sprite := SpriteAt(resource.sprites.value, spriteId);
        var x, y := t.x.Floor, t.y.Floor;
        tilemap.cells[x, y] := Cell(tilemap.cells[x, y].graphics + [sprite], tilemap.cells[x, y].solid);
        tilemap.cells[x, y] := Cell(tilemap.cells[x, y].graphics, data.collider == Some(true));
      }
    }

    /**
     * Re-scans every tile of the layer with the factory registered for
     * `tileId` (whatever each tile's own id), appending each entity it
     * returns and adding it to the tile map's scene when there is one.
     */
    method RunFactory(tileId: Num)
      requires Valid()
      requires tileId in resource.factories ==> Placed()
      modifies this`entities, resource`effects
      ensures tileId !in resource.factories ==> entities == old(entities) && resource.effects == old(resource.effects)
      ensures tileId in resource.factories ==>
        var f := resource.factories[tileId];
        && entities == old(entities) + RunEntities(data.tiles, f, this)
        && resource.effects == old(resource.effects) + RunEffects(data.tiles, f, this, tilemap.scene)
    {
      var tiles := data.tiles;
      var i := 0;
      while i < |tiles|
        invariant 0 <= i <= |tiles|
        invariant tileId !in resource.factories ==> entities == old(entities) && resource.effects == old(resource.effects)
        invariant tileId in resource.factories ==>
          var f := resource.factories[tileId];
          && entities == old(entities) + RunEntities(tiles[..i], f, this)
          && resource.effects == old(resource.effects) + RunEffects(tiles[..i], f, this, tilemap.scene)
      {
        var t := tiles[i];
        assert tiles[..i + 1][..i] == tiles[..i];
        var spriteId := ToNumber(t.id);
        if tileId in resource.factories {
          var factory := resource.factories[tileId];
          var props := FactoryProps(CellPos(t.x.Floor, t.y.Floor), spriteId, this);
          resource.effects := resource.effects + [FactoryCalled(factory, props)];
          var entity := resource.run(factory, props);
          if entity.Some? {
            entities := entities + [entity.value];
            if tilemap.scene.Some? {
              resource.effects := resource.effects + [SceneAdded(tilemap.scene.value, EntityItem(entity.value))];
            }
          }
        }
        i := i + 1;
      }
      assert tiles[..i] == tiles;
    }
  }

  // ----- the resource -----

  class Resource {
    const mapPath: string
    const spriteSheetPath: string
    const startZIndex: int
    const useTileMapCameraStrategy: bool
    const tileAttributeFactory: Option<Callback>
    const objectLayers: seq<string>
    /** What the registered factory closures return. */
    const run: FactoryRun
    /** The validated map, `undefined` until `load`. */
    var data: Option<MapData>
    var mapData: MapData
    /** The sprite sheet's sprites, `undefined` until `load`. */
    var sprites: Option<seq<Sprite>>
    var layers: seq<Layer>
    var factories: map<Num, Factory>
    var effects: seq<Effect>

    /** `ls` are distinct layers of this resource. */
    ghost predicate OwnLayers(ls: seq<Layer>) {
      && (forall i, j :: 0 <= i < j < |ls| ==> ls[i] != ls[j])
      && (forall l :: l in ls ==> l.resource == this && l.Valid())
    }

    lemma OwnLayersAppend(ls: seq<Layer>, l: Layer)
      requires OwnLayers(ls) && l !in ls && l.resource == this && l.Valid()
      ensures OwnLayers(ls + [l])
    {
    }

    ghost predicate Valid()
      reads this`layers, this`data, this`sprites
    {
      && OwnLayers(layers)
      && (data.Some? <==> sprites.Some?)
      && (layers != [] ==> data.Some?)
    }

    /** Every tile of every layer names a cell of its layer's grid. */
    ghost predicate AllPlaced()
      reads this`layers
    {
      forall l :: l in layers ==> l.Placed()
    }

    /** The environment a layer built now is built in. */
    ghost function EnvNow(): Env
      reads this`data, this`factories, this`sprites
      requires data.Some? && sprites.Some?
    {
      Env(data.value, factories, sprites.value, tileAttributeFactory, objectLayers)
    }

    constructor (options: Options, run: FactoryRun)
      ensures Valid() && AllPlaced()
      ensures mapPath == options.mapPath && spriteSheetPath == options.spritesheetPath
      ensures startZIndex == (if options.startZIndex.Some? then options.startZIndex.value else 0)
      ensures useTileMapCameraStrategy == (options.useTileMapCameraStrategy == Some(true))
      ensures tileAttributeFactory == options.tileAttributeFactory
      ensures objectLayers == (if options.objectLayers.Some? then options.objectLayers.value else [])
      ensures this.run == run
      ensures data == None && sprites == None && layers == [] && mapData == MapData(0.0, 0.0, 0.0, [])
      ensures var entries := if options.entityTileIdFactories.Some? then options.entityTileIdFactories.value else [];
        && factories == RegisterAll(map[], entries)
        && effects == RegisterAllWarnings(map[], entries)
    {
      mapData := MapData(0.0, 0.0, 0.0, []);
      mapPath := options.mapPath;
      spriteSheetPath := options.spritesheetPath;
      startZIndex := if options.startZIndex.Some? then options.startZIndex.value else 0;
      useTileMapCameraStrategy := if options.useTileMapCameraStrategy.Some? then options.useTileMapCameraStrategy.value else false;
      tileAttributeFactory := options.tileAttributeFactory;
      objectLayers := if options.objectLayers.Some? then options.objectLayers.value else [];
      this.run := run;
      data := None;
      sprites := None;
      layers := [];
      factories := map[];
      effects := [];
      new;
      var entries := if options.entityTileIdFactories.Some? then options.entityTileIdFactories.value else [];
      RegisterEntries(entries);
    }

    /** The constructor's loop over `entityTileIdFactories`: each entry registered in order, under its key read as a number. */
    method RegisterEntries(entries: seq<(string, Factory)>)
      requires layers == [] && data == None && sprites == None
      modifies this`factories, this`effects
      ensures factories == RegisterAll(old(factories), entries)
      ensures effects == old(effects) + RegisterAllWarnings(old(factories), entries)
    {
      var i := 0;
      while i < |entries|
        invariant 0 <= i <= |entries|
        invariant factories == RegisterAll(old(factories), entries[..i])
        invariant effects == old(effects) + RegisterAllWarnings(old(factories), entries[..i])
      {
        assert entries[..i + 1][..i] == entries[..i];
        AppendAssoc(old(effects), RegisterAllWarnings(old(factories), entries[..i]),
          OverwriteWarning(RegisterAll(old(factories), entries[..i]), ToNumber(entries[i].0)));
        Register(ToNumber(entries[i].0), entries[i].1);
        i := i + 1;
      }
      assert entries[..i] == entries;
    }

    /**
     * Registers `factory` for `tileId`, warning first when that id already
     * has one. Once loaded, every built layer re-runs it, in build order.
     */
    method Register(tileId: Num, factory: Factory)
      requires Valid()
      requires data.Some? ==> AllPlaced()
      modifies this`factories, this`effects, layers
      ensures Valid()
      ensures factories == old(factories)[tileId := factory]
      ensures data.None? ==> effects == old(effects) + OverwriteWarning(old(factories), tileId)
      ensures data.Some? ==>
        effects == old(effects) + OverwriteWarning(old(factories), tileId) + RegisterEffects(layers, old(ScenesOf(layers)), factory)
      ensures data.Some? ==> forall j :: 0 <= j < |layers| ==>
        layers[j].entities == old(layers[j].entities) + RunEntities(layers[j].data.tiles, factory, layers[j])
    {
      ghost var ents := EntitiesOf(layers);
      ghost var scenes := ScenesOf(layers);
      effects := effects + OverwriteWarning(factories, tileId);
      factories := factories[tileId := factory];
      if IsLoaded() {
        RunAll(tileId, factory, scenes, ents);
      }
      ValidKept();
    }

    /** The resource's invariant depends only on its layer list, map and sprite sheet. */
    twostate lemma ValidKept()
      requires old(Valid()) && unchanged(this`layers, this`data, this`sprites)
      ensures Valid()
    {
    }

    /** `register`'s loop: every built layer, in build order, re-runs the factory now registered for `tileId`. */
    method RunAll(tileId: Num, factory: Factory, ghost scenes: seq<Option<SceneHandle>>, ghost ents: seq<seq<Entity>>)
      requires Valid() && AllPlaced() && |scenes| == |layers| && |ents| == |layers|
      requires tileId in factories && factories[tileId] == factory
      requires forall j :: 0 <= j < |layers| ==> layers[j].tilemap.scene == scenes[j]
      requires forall j :: 0 <= j < |layers| ==> layers[j].entities == ents[j]
      modifies this`effects, layers
      ensures effects == old(effects) + RegisterEffects(layers, scenes, factory)
      ensures forall j :: 0 <= j < |layers| ==> layers[j].entities == ents[j] + RunEntities(layers[j].data.tiles, factory, layers[j])
    {
      var i := 0;
      while i < |layers|
        invariant 0 <= i <= |layers|
        invariant forall j :: 0 <= j < |layers| ==> layers[j].tilemap.scene == scenes[j]
        invariant effects == old(effects) + RegisterEffects(layers[..i], scenes[..i], factory)
        invariant RanUpTo(i, factory, ents)
      {
        assert layers[i] in layers;
        RegisterNext(i, tileId, factory, old(effects), scenes, ents);
        i := i + 1;
      }
      assert layers[..i] == layers;
      assert scenes[..i] == scenes;
    }

    /** The first `i` layers have re-run `factory` after the entities `ents` they held; the rest hold `ents` still. */
    ghost predicate RanUpTo(i: nat, factory: Factory, ents: seq<seq<Entity>>)
      reads this`layers, layers
    {
      && i <= |layers| && |ents| == |layers|
      && (forall j :: 0 <= j < i ==> layers[j].entities == ents[j] + RunEntities(layers[j].data.tiles, factory, layers[j]))
      && (forall j :: i <= j < |layers| ==> layers[j].entities == ents[j])
    }

    /** One step of `register`'s loop: layer `i` re-runs the factory now registered for `tileId`. */
    method RegisterNext(i: nat, tileId: Num, factory: Factory, ghost before: seq<Effect>,
                        ghost scenes: seq<Option<SceneHandle>>, ghost ents: seq<seq<Entity>>)
      requires i < |layers| && |scenes| == |layers| && |ents| == |layers|
      requires layers[i].Valid() && layers[i].resource == this && layers[i].Placed()
      requires tileId in factories && factories[tileId] == factory
      requires layers[i].tilemap.scene == scenes[i]
      requires effects == before + RegisterEffects(layers[..i], scenes[..i], factory)
      requires OwnLayers(layers) && RanUpTo(i, factory, ents)
      modifies this`effects, layers[i]
      ensures effects == before + RegisterEffects(layers[..i + 1], scenes[..i + 1], factory)
      ensures RanUpTo(i + 1, factory, ents)
    {
      RegisterStep(layers, scenes, i, factory);
      AppendAssoc(before, RegisterEffects(layers[..i], scenes[..i], factory), RunEffects(layers[i].data.tiles, factory, layers[i], scenes[i]));
      layers[i].RunFactory(tileId);
    }

    /** Removes the factory of `tileId`, warning when there is none; entities already built stay. */
    method Unregister(tileId: Num)
      modifies this`factories, this`effects
      ensures factories == old(factories) - {tileId}
      ensures effects == old(effects) + MissingWarning(old(factories), tileId)
    {
      effects := effects + MissingWarning(factories, tileId);
      factories := factories - {tileId};
    }

    /**
     * `load` once the map JSON has been fetched and decoded and the sprite
     * sheet sliced into `sheet`: validates the map (failing with nothing
     * changed), then builds one layer per authored layer in reverse
     * authored order, with z `startZIndex`, `startZIndex + 1`, ...
     */
    method Load(json: Json, sheet: seq<Sprite>) returns (ok: bool)
      requires Valid()
      requires ParseMap(json).Some? ==> Fits(ParseMap(json).value, objectLayers)
      modifies this`data, this`mapData, this`sprites, this`layers, this`effects
      ensures Valid()
      ensures ok == ParseMap(json).Some?
      ensures !ok ==>
        data == old(data) && mapData == old(mapData) && sprites == old(sprites) && layers == old(layers) && effects == old(effects)
      ensures ok ==>
        var m := ParseMap(json).value;
        && data == Some(m) && mapData == m && sprites == Some(sheet)
        && |layers| == |old(layers)| + |m.layers| && layers[..|old(layers)|] == old(layers)
      ensures ok ==>
        var m := ParseMap(json).value;
        var built := layers[|old(layers)|..];
        && (forall k :: 0 <= k < |built| ==> fresh(built[k]) && fresh(built[k].tilemap) && fresh(built[k].tilemap.cells))
        && (forall k :: 0 <= k < |built| ==> built[k].BuiltFrom(Reversed(m.layers)[k], startZIndex + k, EnvNow()))
        && effects == old(effects) + LoadEffects(built, EnvNow())
    {
      var parsed := ParseMap(json);
      if parsed.None? {
        return false;
      }
      var m := parsed.value;
      data := Some(m);
      mapData := m;
      sprites := Some(sheet);
      var authored := Reversed(m.layers);
      forall d | d in authored
        ensures d in m.layers
      {
        ReversedElements(m.layers, d);
      }
      ghost var built := BuildAll(authored);
      DropAppend(old(layers), built);
      ok := true;
    }

    /**
     * `load`'s loop: builds one layer per entry of `authored`, in order,
     * with z `startZIndex`, `startZIndex + 1`, ..., and appends each.
     */
    method BuildAll(authored: seq<LayerData>) returns (ghost built: seq<Layer>)
      requires Valid() && data.Some? && sprites.Some? && Fits(data.value, objectLayers)
      requires forall d :: d in authored ==> d in data.value.layers
      modifies this`layers, this`effects
      ensures Valid() && |built| == |authored| && layers == old(layers) + built
      ensures forall k :: 0 <= k < |built| ==> fresh(built[k]) && fresh(built[k].tilemap) && fresh(built[k].tilemap.cells)
      ensures forall k :: 0 <= k < |built| ==> built[k].BuiltFrom(authored[k], startZIndex + k, EnvNow())
      ensures effects == old(effects) + LoadEffects(built, EnvNow())
    {
      built := [];
      var order := startZIndex;
      var i := 0;
      while i < |authored|
        invariant 0 <= i <= |authored| && order == startZIndex + i && |built| == i
        invariant Valid() && layers == old(layers) + built
        invariant forall k :: 0 <= k < i ==> fresh(built[k]) && fresh(built[k].tilemap) && fresh(built[k].tilemap.cells)
        invariant forall k :: 0 <= k < i ==> built[k].BuiltFrom(authored[k], startZIndex + k, EnvNow())
        invariant effects == old(effects) + LoadEffects(built, EnvNow())
      {
        var layer := LoadNext(authored, i, order, built, old(effects));
        AppendAssoc(old(layers), built, [layer]);
        built := built + [layer];
        order := order + 1;
        i := i + 1;
      }
    }

    /** One step of `load`'s loop: builds the layer of `authored[i]` with z `order` and appends it. */
    method LoadNext(authored: seq<LayerData>, i: nat, order: int, ghost built: seq<Layer>, ghost before: seq<Effect>) returns (layer: Layer)
      requires Valid() && data.Some? && sprites.Some? && Fits(data.value, objectLayers)
      requires i < |authored| && authored[i] in data.value.layers && |built| == i && order == startZIndex + i
      requires forall k :: 0 <= k < i ==> built[k].BuiltFrom(authored[k], startZIndex + k, EnvNow())
      requires effects == before + LoadEffects(built, EnvNow())
      modifies this`layers, this`effects
      ensures Valid() && layers == old(layers) + [layer]
      ensures fresh(layer) && fresh(layer.tilemap) && fresh(layer.tilemap.cells)
      ensures forall k :: 0 <= k <= i ==> (built + [layer])[k].BuiltFrom(authored[k], startZIndex + k, EnvNow())
      ensures effects == before + LoadEffects(built + [layer], EnvNow())
    {
      layer := new Layer(authored[i], order, this, tileAttributeFactory, objectLayers);
      OwnLayersAppend(layers, layer);
      LoadStep(built, layer, EnvNow());
      AppendAssoc(before, LoadEffects(built, EnvNow()), BuildEffects(authored[i].tiles, authored[i], EnvNow(), layer));
      layers := layers + [layer];
    }

    function IsLoaded(): (r: bool)
      reads this`layers, this`data, this`sprites
      requires Valid()
      ensures !r ==> layers == [] && sprites == None
    {
      data.Some?
    }

    /**
     * `getSpriteById`: a string that converts to NaN gives `undefined`;
     * otherwise the sprite sheet is indexed, which throws before `load`.
     */
    function GetSpriteById(tileId: SpriteKey): (r: Lookup)
      reads this`sprites
      ensures tileId.StringKey? && ToNumber(tileId.s).NaN? ==> r == Value(None)
      ensures r.Throws? <==> sprites.None? && !(tileId.StringKey? && ToNumber(tileId.s).NaN?)
      ensures var n := if tileId.StringKey? then ToNumber(tileId.s) else tileId.n;
        r.Value? && r.sprite.Some? <==> sprites.Some? && n.Int? && 0 <= n.i < |sprites.value|
      ensures r.Value? && r.sprite.Some? ==>
        var n := if tileId.StringKey? then ToNumber(tileId.s) else tileId.n;
        n.Int? && 0 <= n.i < |sprites.value| && r.sprite.value == sprites.value[n.i]
    {
      var spriteId := match tileId case StringKey(s) => ToNumber(s) case NumberKey(n) => n;
      if tileId.StringKey? && spriteId.NaN? then Value(None)
      else if sprites.None? then Throws
      else Value(SpriteAt(sprites.value, spriteId))
    }

    /** `getTileMap`: the tile map of the first layer, in build order, with that name. */
    method GetTileMap(layerName: string) returns (r: Option<TileMap>)
      ensures r.None? <==> forall i :: 0 <= i < |layers| ==> layers[i].data.name != layerName
      ensures r.Some? ==>
        exists i :: && 0 <= i < |layers| && layers[i].data.name == layerName && r.value == layers[i].tilemap
                    && forall j :: 0 <= j < i ==> layers[j].data.name != layerName
    {
      var i := 0;
      while i < |layers|
        invariant 0 <= i <= |layers|
        invariant forall j :: 0 <= j < i ==> layers[j].data.name != layerName
      {
        if layers[i].data.name == layerName {
          return Some(layers[i].tilemap);
        }
        i := i + 1;
      }
      return None;
    }

    /**
     * `addToScene`: for each layer in build order, moves its tile map to
     * `pos` (default the origin) and adds the tile map, then its entities,
     * to `scene`; then, if asked for at construction and some layer exists,
     * limits the camera to the map's pixel size.
     */
    method AddToScene(scene: SceneHandle, pos: Option<Vec>)
      requires Valid()
      modifies (set l | l in layers :: l.tilemap), this`effects
      ensures var p := if pos.Some? then pos.value else Origin;
        forall j :: 0 <= j < |layers| ==>
          layers[j].tilemap.pos == p && layers[j].tilemap.scene == Some(scene) && layers[j].tilemap.z == old(layers[j].tilemap.z)
      ensures !useTileMapCameraStrategy || layers == [] ==>
        effects == old(effects) + SceneEffects(layers, old(EntitiesOf(layers)), scene)
      ensures useTileMapCameraStrategy && layers != [] ==>
        var p := if pos.Some? then pos.value else Origin;
        effects == old(effects) + SceneEffects(layers, old(EntitiesOf(layers)), scene) + [CameraLimited(scene, MapBounds(data.value, p))]
    {
      var p := if pos.Some? then pos.value else Origin;
      AddLayers(scene, p, EntitiesOf(layers));
      if useTileMapCameraStrategy {
        if |layers| > 0 {
          effects := effects + [CameraLimited(scene, MapBounds(data.value, p))];
        }
      }
    }

    /** The loop of `addToScene`: every layer, in order, moved to `p` and added with its entities `ents` to `scene`. */
    method AddLayers(scene: SceneHandle, p: Vec, ghost ents: seq<seq<Entity>>)
      requires |ents| == |layers| && forall k :: 0 <= k < |layers| ==> ents[k] == layers[k].entities
      modifies (set l | l in layers :: l.tilemap), this`effects
      ensures forall j :: 0 <= j < |layers| ==>
        layers[j].tilemap.pos == p && layers[j].tilemap.scene == Some(scene) && layers[j].tilemap.z == old(layers[j].tilemap.z)
      ensures effects == old(effects) + SceneEffects(layers, ents, scene)
    {
      var i := 0;
      while i < |layers|
        invariant 0 <= i <= |layers|
        invariant forall j :: 0 <= j < i ==> layers[j].tilemap.pos == p && layers[j].tilemap.scene == Some(scene)
        invariant forall j :: 0 <= j < |layers| ==> layers[j].tilemap.z == old(layers[j].tilemap.z)
        invariant effects == old(effects) + SceneEffects(layers[..i], ents[..i], scene)
      {
        AddLayerNext(i, scene, p, ents, old(effects));
        i := i + 1;
      }
      assert layers[..i] == layers;
      assert ents[..i] == ents;
    }

    /** One step of `addToScene`'s loop: moves layer `i`'s tile map to `p` and adds it, then its entities, to `scene`. */
    method AddLayerNext(i: nat, scene: SceneHandle, p: Vec, ghost ents: seq<seq<Entity>>, ghost before: seq<Effect>)
      requires i < |layers| && |ents| == |layers| && ents[i] == layers[i].entities
      requires effects == before + SceneEffects(layers[..i], ents[..i], scene)
      modifies layers[i].tilemap, this`effects
      ensures layers[i].tilemap.pos == p && layers[i].tilemap.scene == Some(scene) && layers[i].tilemap.z == old(layers[i].tilemap.z)
      ensures effects == before + SceneEffects(layers[..i + 1], ents[..i + 1], scene)
    {
      var layer := layers[i];
      SceneStep(layers, ents, i, scene);
      layer.tilemap.pos := p;
      effects := effects + [SceneAdded(scene, TileMapItem(layer.tilemap))];
      layer.tilemap.scene := Some(scene);
      AddEntities(layer.entities, scene);
      AppendAssoc(before, SceneEffects(layers[..i], ents[..i], scene), [SceneAdded(scene, TileMapItem(layer.tilemap))]);
      AppendAssoc(before, SceneEffects(layers[..i], ents[..i], scene) + [SceneAdded(scene, TileMapItem(layer.tilemap))], EntityAdds(ents[i], scene));
    }

    /** Adds each of `es`, in order, to `scene`. */
    method AddEntities(es: seq<Entity>, scene: SceneHandle)
      modifies this`effects
      ensures effects == old(effects) + EntityAdds(es, scene)
    {
      var k := 0;
      while k < |es|
        invariant 0 <= k <= |es|
        invariant effects == old(effects) + EntityAdds(es[..k], scene)
      {
        assert es[..k + 1][..k] == es[..k];
        AppendAssoc(old(effects), EntityAdds(es[..k], scene), [SceneAdded(scene, EntityItem(es[k]))]);
        effects := effects + [SceneAdded(scene, EntityItem(es[k]))];
        k := k + 1;
      }
      assert es[..k] == es;
    }
  }

  // ----- sequence helpers -----

  lemma AppendAssoc<T>(a: seq<T>, b: seq<T>, c: seq<T>)
    ensures a + (b + c) == (a + b) + c
  {
  }

  lemma DropAppend<T>(a: seq<T>, b: seq<T>)
    ensures (a + b)[|a|..] == b
  {
  }

  // ----- reversing the authored layer list -----

  /** `layers.slice().reverse()`. */
  function Reversed<T>(s: seq<T>): (r: seq<T>)
    ensures |r| == |s|
  {
    if s == [] then [] else Reversed(s[1..]) + [s[0]]
  }

  lemma {:induction false} ReversedElements<T>(s: seq<T>, x: T)
    ensures x in Reversed(s) <==> x in s
  {
    if s != [] {
      ReversedElements(s[1..], x);
      assert s == [s[0]] + s[1..];
    }
  }
}
