/**
 * The zod schemas of the map file: `LayerData` (a layer and its tiles) and
 * `SpriteFusionMapData` (the whole map). Each schema is modelled twice: as
 * the parser zod runs (field by field, array item by array item, giving the
 * typed record or a failure) and as a declarative shape predicate over the
 * JSON value. Lemmas tie the two together and show that encoding a typed
 * record and parsing it back is the identity.
 */
module Schema {
  import opened Wrappers
  import opened Json

  /** One tile of a layer. `attributes` is `z.any()`: absent, or any JSON value. */
  datatype TileData = TileData(id: string, x: real, y: real, attributes: Option<Json>)

  /** One layer: its name, its tiles and the optional collider flag. */
  datatype LayerData = LayerData(name: string, tiles: seq<TileData>, collider: Option<bool>)

  /** The whole map. No sign or integrality is required of the three numbers. */
  datatype MapData = MapData(tileSize: real, mapWidth: real, mapHeight: real, layers: seq<LayerData>)

  // ----- declarative shapes -----

  predicate StringAt(members: map<string, Json>, key: string) {
    key in members && members[key].JStr?
  }

  predicate NumberAt(members: map<string, Json>, key: string) {
    key in members && members[key].JNum?
  }

  /** `{ id: z.string(), x: z.number(), y: z.number(), attributes: z.any() }` */
  predicate TileShape(j: Json) {
    j.JObj? && StringAt(j.members, "id") && NumberAt(j.members, "x") && NumberAt(j.members, "y")
  }

  /** `LayerData`: a string name, an array of tiles, and `collider` absent or boolean. */
  predicate LayerShape(j: Json) {
    && j.JObj?
    && StringAt(j.members, "name")
    && "tiles" in j.members && j.members["tiles"].JArr?
    && (forall k :: 0 <= k < |j.members["tiles"].items| ==> TileShape(j.members["tiles"].items[k]))
    && ("collider" in j.members ==> j.members["collider"].JBool?)
  }

  /** `SpriteFusionMapData`: three numbers and an array of layers. */
  predicate MapShape(j: Json) {
    && j.JObj?
    && NumberAt(j.members, "tileSize")
    && NumberAt(j.members, "mapWidth")
    && NumberAt(j.members, "mapHeight")
    && "layers" in j.members && j.members["layers"].JArr?
    && (forall k :: 0 <= k < |j.members["layers"].items| ==> LayerShape(j.members["layers"].items[k]))
  }

  // ----- the parsers -----

  function ParseTile(j: Json): (r: Option<TileData>)
    ensures r.Some? <==> TileShape(j)
  {
    match j
    case JObj(m) =>
      (match (Member(m, "id"), Member(m, "x"), Member(m, "y"))
       case (Some(JStr(id)), Some(JNum(x)), Some(JNum(y))) => Some(TileData(id, x, y, Member(m, "attributes")))
       case _ => None)
    case _ => None
  }

  /** `z.array(tile)`: every item must parse; the result keeps the items' order. */
  function ParseTiles(items: seq<Json>): (r: Option<seq<TileData>>)
    ensures r.Some? <==> forall k :: 0 <= k < |items| ==> TileShape(items[k])
    ensures r.Some? ==> |r.value| == |items| && forall k :: 0 <= k < |items| ==> ParseTile(items[k]) == Some(r.value[k])
  {
    if items == [] then Some([])
    else
      match (ParseTile(items[0]), ParseTiles(items[1..]))
      case (Some(t), Some(ts)) => Some([t] + ts)
      case _ => None
  }

  /** `z.optional(z.boolean())` */
  function ParseCollider(v: Option<Json>): Option<Option<bool>> {
    match v
    case None => Some(None)
    case Some(JBool(b)) => Some(Some(b))
    case Some(_) => None
  }

  function ParseLayer(j: Json): (r: Option<LayerData>)
    ensures r.Some? <==> LayerShape(j)
  {
    match j
    case JObj(m) =>
      (match (Member(m, "name"), Member(m, "tiles"), ParseCollider(Member(m, "collider")))
       case (Some(JStr(name)), Some(JArr(items)), Some(collider)) =>
         (match ParseTiles(items)
          case Some(tiles) => Some(LayerData(name, tiles, collider))
          case None => None)
       case _ => None)
    case _ => None
  }

  function ParseLayers(items: seq<Json>): (r: Option<seq<LayerData>>)
    ensures r.Some? <==> forall k :: 0 <= k < |items| ==> LayerShape(items[k])
    ensures r.Some? ==> |r.value| == |items| && forall k :: 0 <= k < |items| ==> ParseLayer(items[k]) == Some(r.value[k])
  {
    if items == [] then Some([])
    else
      match (ParseLayer(items[0]), ParseLayers(items[1..]))
      case (Some(l), Some(ls)) => Some([l] + ls)
      case _ => None
  }

  /**
   * `SpriteFusionMapData.parse`: the typed map, or `None` where zod throws.
   * Validation is all or nothing.
   */
  function ParseMap(j: Json): (r: Option<MapData>)
    ensures r.Some? <==> MapShape(j)
  {
    match j
    case JObj(m) =>
      (match (Member(m, "tileSize"), Member(m, "mapWidth"), Member(m, "mapHeight"), Member(m, "layers"))
       case (Some(JNum(size)), Some(JNum(w)), Some(JNum(h)), Some(JArr(items))) =>
         (match ParseLayers(items)
          case Some(layers) => Some(MapData(size, w, h, layers))
          case None => None)
       case _ => None)
    case _ => None
  }

  // ----- encoding typed records back to JSON -----

  function EncodeTile(t: TileData): Json {
    var fields := map["id" := JStr(t.id), "x" := JNum(t.x), "y" := JNum(t.y)];
    JObj(if t.attributes.Some? then fields["attributes" := t.attributes.value] else fields)
  }

  function EncodeTiles(ts: seq<TileData>): (items: seq<Json>)
    ensures |items| == |ts|
    ensures forall k :: 0 <= k < |ts| ==> items[k] == EncodeTile(ts[k])
  {
    if ts == [] then [] else [EncodeTile(ts[0])] + EncodeTiles(ts[1..])
  }

  function EncodeLayer(l: LayerData): Json {
    var fields := map["name" := JStr(l.name), "tiles" := JArr(EncodeTiles(l.tiles))];
    JObj(if l.collider.Some? then fields["collider" := JBool(l.collider.value)] else fields)
  }

  function EncodeLayers(ls: seq<LayerData>): (items: seq<Json>)
    ensures |items| == |ls|
    ensures forall k :: 0 <= k < |ls| ==> items[k] == EncodeLayer(ls[k])
  {
    if ls == [] then [] else [EncodeLayer(ls[0])] + EncodeLayers(ls[1..])
  }

  function EncodeMap(m: MapData): Json {
    JObj(map["tileSize" := JNum(m.tileSize), "mapWidth" := JNum(m.mapWidth),
             "mapHeight" := JNum(m.mapHeight), "layers" := JArr(EncodeLayers(m.layers))])
  }

  // ----- round trips -----

  lemma TileRoundTrip(t: TileData)
    ensures ParseTile(EncodeTile(t)) == Some(t)
  {
  }

  lemma {:induction false} TilesRoundTrip(ts: seq<TileData>)
    ensures ParseTiles(EncodeTiles(ts)) == Some(ts)
  {
    if ts != [] {
      var items := EncodeTiles(ts);
      TileRoundTrip(ts[0]);
      assert items[1..] == EncodeTiles(ts[1..]);
      TilesRoundTrip(ts[1..]);
      assert [ts[0]] + ts[1..] == ts;
    }
  }

  lemma LayerRoundTrip(l: LayerData)
    ensures ParseLayer(EncodeLayer(l)) == Some(l)
  {
    TilesRoundTrip(l.tiles);
  }

  lemma {:induction false} LayersRoundTrip(ls: seq<LayerData>)
    ensures ParseLayers(EncodeLayers(ls)) == Some(ls)
  {
    if ls != [] {
      var items := EncodeLayers(ls);
      LayerRoundTrip(ls[0]);
      assert items[1..] == EncodeLayers(ls[1..]);
      LayersRoundTrip(ls[1..]);
      assert [ls[0]] + ls[1..] == ls;
    }
  }

  /**
   * Every typed map survives encoding and validation unchanged, whatever
   * its numbers: negative, zero or fractional sizes pass the schema.
   */
  lemma MapRoundTrip(m: MapData)
    ensures ParseMap(EncodeMap(m)) == Some(m)
  {
    LayersRoundTrip(m.layers);
  }
}
