/**
 * What building one layer and re-running a factory on it amount to, stated
 * independently of the tile-by-tile definitions in `SpriteFusion`: which
 * calls are made, in which order, which entities end up on the layer and
 * what each grid cell holds.
 */
module LayerFacts {
  import opened Wrappers
  import opened Host
  import opened Json
  import opened JsNumber
  import opened Schema
  import opened SpriteFusion

  // ----- projecting the recorded effects -----

  /** The kinds of things the plugin does to the outside world. */
  datatype Kind = Warnings | AttributeCalls | FactoryCalls | SceneAdds | CameraLimits

  function KindOf(e: Effect): Kind {
    match e
    case Warned(_) => Warnings
    case AttributeCalled(_, _) => AttributeCalls
    case FactoryCalled(_, _) => FactoryCalls
    case SceneAdded(_, _) => SceneAdds
    case CameraLimited(_, _) => CameraLimits
  }

  /** The effects of kind `k` among `es`, in order. */
  function Only(es: seq<Effect>, k: Kind): (r: seq<Effect>)
    ensures |r| <= |es|
  {
    if es == [] then []
    else Only(es[..|es| - 1], k) + (if KindOf(es[|es| - 1]) == k then [es[|es| - 1]] else [])
  }

  /** Projecting a concatenation projects each part. */
  lemma {:induction false} OnlyAppend(a: seq<Effect>, b: seq<Effect>, k: Kind)
    ensures Only(a + b, k) == Only(a, k) + Only(b, k)
  {
    if b != [] {
      var init, last := b[..|b| - 1], b[|b| - 1];
      var tail := if KindOf(last) == k then [last] else [];
      assert (a + b)[..|a + b| - 1] == a + init;
      assert (a + b)[|a + b| - 1] == last;
      calc {
        Only(a + b, k);
        Only(a + init, k) + tail;
        { OnlyAppend(a, init, k); }
        (Only(a, k) + Only(init, k)) + tail;
        { AppendAssoc(Only(a, k), Only(init, k), tail); }
        Only(a, k) + (Only(init, k) + tail);
      }
    } else {
      assert a + b == a;
    }
  }

  lemma AppendNil<T>(s: seq<T>)
    ensures s + [] == s
  {
  }

  /** Projecting a single effect keeps it or drops it. */
  lemma OnlyOne(e: Effect, k: Kind)
    ensures Only([e], k) == if KindOf(e) == k then [e] else []
  {
    assert [e][..0] == [];
  }

  /** What one tile of a layer under construction contributes to each projection. */
  lemma TileProjections(t: TileData, d: LayerData, env: Env, self: Layer)
    ensures Only(TileEffects(t, d, env, self), AttributeCalls) == AttributeEffects(t, env)
    ensures Only(TileEffects(t, d, env, self), FactoryCalls) == FactoryEffects(t, d, env, self)
  {
    var att, fac := AttributeEffects(t, env), FactoryEffects(t, d, env, self);
    OnlyAppend(att, fac, AttributeCalls);
    OnlyAppend(att, fac, FactoryCalls);
    if att != [] {
      OnlyOne(att[0], AttributeCalls);
      OnlyOne(att[0], FactoryCalls);
    }
    if fac != [] {
      OnlyOne(fac[0], AttributeCalls);
      OnlyOne(fac[0], FactoryCalls);
    }
  }

  /** The entities the factory calls among `es` return, in call order. */
  function Returned(es: seq<Effect>, run: FactoryRun): seq<Entity> {
    if es == [] then []
    else
      Returned(es[..|es| - 1], run) +
      match es[|es| - 1]
      case FactoryCalled(f, props) => OptionToSeq(run(f, props))
      case _ => []
  }

  lemma {:induction false} ReturnedAppend(a: seq<Effect>, b: seq<Effect>, run: FactoryRun)
    ensures Returned(a + b, run) == Returned(a, run) + Returned(b, run)
  {
    if b != [] {
      var init, last := b[..|b| - 1], b[|b| - 1];
      var tail := match last case FactoryCalled(f, props) => OptionToSeq(run(f, props)) case _ => [];
      assert (a + b)[..|a + b| - 1] == a + init;
      assert (a + b)[|a + b| - 1] == last;
      calc {
        Returned(a + b, run);
        Returned(a + init, run) + tail;
        { ReturnedAppend(a, init, run); }
        (Returned(a, run) + Returned(init, run)) + tail;
        { AppendAssoc(Returned(a, run), Returned(init, run), tail); }
        Returned(a, run) + (Returned(init, run) + tail);
      }
    } else {
      assert a + b == a;
    }
  }

  // ----- the attribute callback -----

  /** The tiles whose `attributes` are truthy, in list order. */
  function TruthyTiles(tiles: seq<TileData>): (r: seq<TileData>)
    ensures |r| <= |tiles|
  {
    if tiles == [] then []
    else TruthyTiles(tiles[..|tiles| - 1]) + (if Truthy(tiles[|tiles| - 1].attributes) then [tiles[|tiles| - 1]] else [])
  }

  /** One call of `cb` per tile of `ts`, in order, each with the map data `m`. */
  function CallbackCalls(ts: seq<TileData>, cb: Callback, m: MapData): (r: seq<Effect>)
    ensures |r| == |ts|
  {
    if ts == [] then [] else CallbackCalls(ts[..|ts| - 1], cb, m) + [AttributeCalled(cb, AttributeData(ts[|ts| - 1], m))]
  }

  /** The k-th of those calls passes the k-th tile. */
  lemma {:induction false} CallbackCallsIndex(ts: seq<TileData>, cb: Callback, m: MapData, k: int)
    requires 0 <= k < |ts|
    ensures CallbackCalls(ts, cb, m)[k] == AttributeCalled(cb, AttributeData(ts[k], m))
  {
    if k < |ts| - 1 {
      CallbackCallsIndex(ts[..|ts| - 1], cb, m, k);
    }
  }

  lemma CallbackCallsSnoc(ts: seq<TileData>, t: TileData, cb: Callback, m: MapData)
    ensures CallbackCalls(ts + [t], cb, m) == CallbackCalls(ts, cb, m) + [AttributeCalled(cb, AttributeData(t, m))]
  {
    assert (ts + [t])[..|ts|] == ts;
  }

  /**
   * Building a layer calls the attribute callback exactly once for each
   * tile with truthy attributes, in tile order, with that tile and the
   * map data, and never without a callback. Whether the layer is an object
   * layer and whether a factory is registered play no part.
   */
  lemma {:induction false} AttributeCallsOfBuild(tiles: seq<TileData>, d: LayerData, env: Env, self: Layer)
    ensures Only(BuildEffects(tiles, d, env, self), AttributeCalls)
         == if env.callback.Some? then CallbackCalls(TruthyTiles(tiles), env.callback.value, env.mapData) else []
  {
    if tiles != [] {
      var init, t := tiles[..|tiles| - 1], tiles[|tiles| - 1];
      var before := Only(BuildEffects(init, d, env, self), AttributeCalls);
      AttributeCallsOfBuild(init, d, env, self);
      OnlyAppend(BuildEffects(init, d, env, self), TileEffects(t, d, env, self), AttributeCalls);
      TileProjections(t, d, env, self);
      assert Only(BuildEffects(tiles, d, env, self), AttributeCalls) == before + AttributeEffects(t, env);
      if env.callback.Some? && Truthy(t.attributes) {
        CallbackCallsSnoc(TruthyTiles(init), t, env.callback.value, env.mapData);
      } else {
        AppendNil(before);
        AppendNil(TruthyTiles(init));
      }
    }
  }

  /** A tile's attribute callback comes before its factory call. */
  lemma CallbackBeforeFactory(t: TileData, d: LayerData, env: Env, self: Layer, f: Factory)
    requires Truthy(t.attributes) && env.callback.Some? && Resolve(t, d, env) == Dispatched(f)
    ensures TileEffects(t, d, env, self)
         == [AttributeCalled(env.callback.value, AttributeData(t, env.mapData)), FactoryCalled(f, PropsFor(t, self))]
  {
  }

  // ----- factories during construction -----

  /**
   * For each tile outside an object layer whose id has a factory, in tile
   * order, a call of that factory at the tile's cell with the tile's id.
   */
  function DispatchCalls(tiles: seq<TileData>, d: LayerData, env: Env, self: Layer): seq<Effect> {
    if tiles == [] || d.name in env.objectLayers then []
    else
      var t := tiles[|tiles| - 1];
      var id := ToNumber(t.id);
      DispatchCalls(tiles[..|tiles| - 1], d, env, self)
      + (if id in env.factories then [FactoryCalled(env.factories[id], FactoryProps(PosOf(t), id, self))] else [])
  }

  /**
   * Building a layer makes exactly those factory calls, and no other:
   * neither the attribute callback nor the drawing of cells calls a
   * factory.
   */
  lemma {:induction false} FactoryCallsOfBuild(tiles: seq<TileData>, d: LayerData, env: Env, self: Layer)
    ensures Only(BuildEffects(tiles, d, env, self), FactoryCalls) == DispatchCalls(tiles, d, env, self)
  {
    if tiles != [] {
      var init, t := tiles[..|tiles| - 1], tiles[|tiles| - 1];
      var before := Only(BuildEffects(init, d, env, self), FactoryCalls);
      FactoryCallsOfBuild(init, d, env, self);
      OnlyAppend(BuildEffects(init, d, env, self), TileEffects(t, d, env, self), FactoryCalls);
      TileProjections(t, d, env, self);
      if d.name in env.objectLayers {
        assert FactoryEffects(t, d, env, self) == [];
        AppendNil(before);
      } else {
        assert Only(BuildEffects(tiles, d, env, self), FactoryCalls) == before + FactoryEffects(t, d, env, self);
      }
    }
  }

  /**
   * The entities a built layer holds are exactly those its factory calls
   * returned, one per call that returned one, in call order.
   */
  lemma {:induction false} EntitiesFromCalls(tiles: seq<TileData>, d: LayerData, env: Env, self: Layer)
    ensures BuildEntities(tiles, d, env, self) == Returned(Only(BuildEffects(tiles, d, env, self), FactoryCalls), self.resource.run)
  {
    if tiles != [] {
      var init, t := tiles[..|tiles| - 1], tiles[|tiles| - 1];
      var fac := FactoryEffects(t, d, env, self);
      EntitiesFromCalls(init, d, env, self);
      OnlyAppend(BuildEffects(init, d, env, self), TileEffects(t, d, env, self), FactoryCalls);
      TileProjections(t, d, env, self);
      ReturnedAppend(Only(BuildEffects(init, d, env, self), FactoryCalls), fac, self.resource.run);
      if fac != [] {
        assert fac[..0] == [];
      }
    }
  }

  /** An object layer calls no factory, holds no entity and draws nothing. */
  lemma {:induction false} ObjectLayerInert(tiles: seq<TileData>, d: LayerData, env: Env, self: Layer, x: int, y: int)
    requires d.name in env.objectLayers
    ensures Only(BuildEffects(tiles, d, env, self), FactoryCalls) == []
    ensures BuildEntities(tiles, d, env, self) == []
    ensures CellAfter(tiles, d, env, x, y) == EmptyCell
  {
    FactoryCallsOfBuild(tiles, d, env, self);
    if tiles != [] {
      ObjectLayerInert(tiles[..|tiles| - 1], d, env, self, x, y);
    }
  }

  // ----- the grid -----

  /**
   * The sprites drawn into cell (x, y) outside an object layer: for each
   * tile naming that cell whose id has no factory, in tile order, the
   * sprite at the index the id reads as.
   */
  function Drawn(tiles: seq<TileData>, env: Env, x: int, y: int): (r: seq<Option<Sprite>>)
    ensures |r| <= |tiles|
  {
    if tiles == [] then []
    else
      var t := tiles[|tiles| - 1];
      Drawn(tiles[..|tiles| - 1], env, x, y)
      + (if At(t, x, y) && ToNumber(t.id) !in env.factories then [SpriteAt(env.sprites, ToNumber(t.id))] else [])
  }

  /**
   * Outside an object layer, a cell ends up holding exactly the sprites
   * drawn into it, in tile order, and is solid iff something was drawn
   * into it and the layer is a collider layer.
   */
  lemma {:induction false} CellContents(tiles: seq<TileData>, d: LayerData, env: Env, x: int, y: int)
    requires d.name !in env.objectLayers
    ensures var drawn := Drawn(tiles, env, x, y);
      CellAfter(tiles, d, env, x, y) == Cell(drawn, drawn != [] && d.collider == Some(true))
  {
    if tiles != [] {
      CellContents(tiles[..|tiles| - 1], d, env, x, y);
    }
  }

  /** A cell no tile names, or whose every tile has a factory, stays empty. */
  lemma {:induction false} UntouchedCell(tiles: seq<TileData>, d: LayerData, env: Env, x: int, y: int)
    requires forall t :: t in tiles && At(t, x, y) ==> ToNumber(t.id) in env.factories
    ensures CellAfter(tiles, d, env, x, y) == EmptyCell
  {
    if tiles != [] {
      UntouchedCell(tiles[..|tiles| - 1], d, env, x, y);
    }
  }

  // ----- runFactory -----

  /** One call of `f` per tile of `tiles`, in order, each at the tile's cell with the tile's own id. */
  function EveryTileCalls(tiles: seq<TileData>, f: Factory, self: Layer): (r: seq<Effect>)
    ensures |r| == |tiles|
  {
    if tiles == [] then [] else EveryTileCalls(tiles[..|tiles| - 1], f, self) + [FactoryCalled(f, PropsFor(tiles[|tiles| - 1], self))]
  }

  /** The k-th of those calls is at the k-th tile's cell with that tile's own id. */
  lemma {:induction false} EveryTileCallsIndex(tiles: seq<TileData>, f: Factory, self: Layer, k: int)
    requires 0 <= k < |tiles|
    ensures EveryTileCalls(tiles, f, self)[k] == FactoryCalled(f, FactoryProps(PosOf(tiles[k]), ToNumber(tiles[k].id), self))
  {
    if k < |tiles| - 1 {
      EveryTileCallsIndex(tiles[..|tiles| - 1], f, self, k);
    }
  }

  /** What `runFactory` does for one tile, in each projection. */
  lemma RunTileProjections(t: TileData, f: Factory, self: Layer, scene: Option<SceneHandle>)
    ensures Only(RunTileEffects(t, f, self, scene), FactoryCalls) == [FactoryCalled(f, PropsFor(t, self))]
    ensures Only(RunTileEffects(t, f, self, scene), SceneAdds) == EntityAdd(self.resource.run(f, PropsFor(t, self)), scene)
  {
    var call, add := FactoryCalled(f, PropsFor(t, self)), EntityAdd(self.resource.run(f, PropsFor(t, self)), scene);
    OnlyAppend([call], add, FactoryCalls);
    OnlyAppend([call], add, SceneAdds);
    OnlyOne(call, FactoryCalls);
    OnlyOne(call, SceneAdds);
    if add != [] {
      OnlyOne(add[0], FactoryCalls);
      OnlyOne(add[0], SceneAdds);
    }
  }

  /**
   * `runFactory` calls the factory once for every tile of the layer, in
   * tile order, whatever the tile's id, each time passing the tile's own
   * id and cell.
   */
  lemma {:induction false} RunCalls(tiles: seq<TileData>, f: Factory, self: Layer, scene: Option<SceneHandle>)
    ensures Only(RunEffects(tiles, f, self, scene), FactoryCalls) == EveryTileCalls(tiles, f, self)
  {
    if tiles != [] {
      var init, t := tiles[..|tiles| - 1], tiles[|tiles| - 1];
      RunCalls(init, f, self, scene);
      OnlyAppend(RunEffects(init, f, self, scene), RunTileEffects(t, f, self, scene), FactoryCalls);
      RunTileProjections(t, f, self, scene);
    }
  }

  /** The entities `runFactory` appends are those its calls return, in call order. */
  lemma {:induction false} RunReturns(tiles: seq<TileData>, f: Factory, self: Layer)
    ensures RunEntities(tiles, f, self) == Returned(EveryTileCalls(tiles, f, self), self.resource.run)
  {
    if tiles != [] {
      var init, t := tiles[..|tiles| - 1], tiles[|tiles| - 1];
      var call := FactoryCalled(f, PropsFor(t, self));
      RunReturns(init, f, self);
      ReturnedAppend(EveryTileCalls(init, f, self), [call], self.resource.run);
      assert [call][..0] == [];
    }
  }

  /** Adding an optional entity after a list of entities. */
  lemma EntityAddsSnoc(es: seq<Entity>, e: Option<Entity>, scene: SceneHandle)
    ensures EntityAdds(es + OptionToSeq(e), scene) == EntityAdds(es, scene) + EntityAdd(e, Some(scene))
  {
    if e.Some? {
      assert (es + [e.value])[..|es|] == es;
    } else {
      AppendNil(es);
      AppendNil(EntityAdds(es, scene));
    }
  }

  /**
   * `runFactory` adds each entity it appends to the tile map's scene, in
   * order, when the tile map is in a scene, and adds nothing otherwise.
   */
  lemma {:induction false} RunSceneAdds(tiles: seq<TileData>, f: Factory, self: Layer, scene: Option<SceneHandle>)
    ensures Only(RunEffects(tiles, f, self, scene), SceneAdds)
         == if scene.Some? then EntityAdds(RunEntities(tiles, f, self), scene.value) else []
  {
    if tiles != [] {
      var init, t := tiles[..|tiles| - 1], tiles[|tiles| - 1];
      var e := self.resource.run(f, PropsFor(t, self));
      RunSceneAdds(init, f, self, scene);
      OnlyAppend(RunEffects(init, f, self, scene), RunTileEffects(t, f, self, scene), SceneAdds);
      RunTileProjections(t, f, self, scene);
      if scene.Some? {
        EntityAddsSnoc(RunEntities(init, f, self), e, scene.value);
      }
    }
  }
}
