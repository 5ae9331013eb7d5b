/**
 * What the resource's registry, its `load` order, its re-running of
 * factories on registration and its `addToScene` amount to, stated
 * independently of the step-by-step definitions in `SpriteFusion`.
 */
module ResourceFacts {
  import opened Wrappers
  import opened Host
  import opened JsNumber
  import opened SpriteFusion
  import opened LayerFacts

  // ----- the registry -----

  /** The factory of the last of `entries` whose key reads as `id`. */
  function LastFactory(entries: seq<(string, Factory)>, id: Num): Option<Factory> {
    if entries == [] then None
    else if ToNumber(entries[|entries| - 1].0) == id then Some(entries[|entries| - 1].1)
    else LastFactory(entries[..|entries| - 1], id)
  }

  /**
   * Registering `entries` in order: an id has a factory afterwards iff it
   * had one or some entry's key reads as it, and the last such entry wins;
   * ids no entry names keep their factory.
   */
  lemma {:induction false} RegisterAllLookup(m: map<Num, Factory>, entries: seq<(string, Factory)>, id: Num)
    ensures id in RegisterAll(m, entries) <==> id in m || LastFactory(entries, id).Some?
    ensures LastFactory(entries, id).Some? ==> RegisterAll(m, entries)[id] == LastFactory(entries, id).value
    ensures LastFactory(entries, id).None? && id in m ==> RegisterAll(m, entries)[id] == m[id]
  {
    if entries != [] {
      RegisterAllLookup(m, entries[..|entries| - 1], id);
    }
  }

  /**
   * Each registration either adds a new id or warns: the warnings and the
   * ids gained together number the entries.
   */
  lemma {:induction false} RegisterAllCount(m: map<Num, Factory>, entries: seq<(string, Factory)>)
    ensures |RegisterAllWarnings(m, entries)| + |RegisterAll(m, entries).Keys| == |m.Keys| + |entries|
  {
    if entries != [] {
      var init := entries[..|entries| - 1];
      var before := RegisterAll(m, init);
      var id := ToNumber(entries[|entries| - 1].0);
      RegisterAllCount(m, init);
      if id in before {
        assert before[id := entries[|entries| - 1].1].Keys == before.Keys;
      } else {
        assert before[id := entries[|entries| - 1].1].Keys == before.Keys + {id};
      }
    }
  }

  /** The keys of `entries` read as pairwise distinct numbers, none of which `m` has. */
  predicate FreshKeys(m: map<Num, Factory>, entries: seq<(string, Factory)>) {
    && (forall i :: 0 <= i < |entries| ==> ToNumber(entries[i].0) !in m)
    && (forall i, j :: 0 <= i < j < |entries| ==> ToNumber(entries[i].0) != ToNumber(entries[j].0))
  }

  lemma {:induction false} LastFactoryNone(entries: seq<(string, Factory)>, id: Num)
    ensures LastFactory(entries, id).None? <==> forall i :: 0 <= i < |entries| ==> ToNumber(entries[i].0) != id
  {
    if entries != [] {
      var init := entries[..|entries| - 1];
      LastFactoryNone(init, id);
      assert forall i :: 0 <= i < |init| ==> init[i] == entries[i];
    }
  }

  /** Fresh keys, one entry at a time: the earlier keys are fresh and the last key is new. */
  lemma FreshKeysSnoc(m: map<Num, Factory>, entries: seq<(string, Factory)>)
    requires entries != []
    ensures var init, id := entries[..|entries| - 1], ToNumber(entries[|entries| - 1].0);
      FreshKeys(m, entries)
      <==> FreshKeys(m, init) && id !in m && forall i :: 0 <= i < |init| ==> ToNumber(init[i].0) != id
  {
    var init := entries[..|entries| - 1];
    assert forall i :: 0 <= i < |init| ==> init[i] == entries[i];
  }

  /** Registering `entries` warns not at all iff their keys are fresh and distinct. */
  lemma {:induction false} NoWarningsIff(m: map<Num, Factory>, entries: seq<(string, Factory)>)
    ensures RegisterAllWarnings(m, entries) == [] <==> FreshKeys(m, entries)
  {
    if entries != [] {
      var init := entries[..|entries| - 1];
      var id := ToNumber(entries[|entries| - 1].0);
      var earlier := RegisterAllWarnings(m, init);
      var last := OverwriteWarning(RegisterAll(m, init), id);
      NoWarningsIff(m, init);
      RegisterAllLookup(m, init, id);
      LastFactoryNone(init, id);
      FreshKeysSnoc(m, entries);
      assert RegisterAllWarnings(m, entries) == earlier + last;
      assert earlier + last == [] <==> earlier == [] && last == [];
      assert last == [] <==> id !in m && LastFactory(init, id).None?;
    }
  }

  /** Distinct ids below 2^53 have decimal forms that read as distinct numbers. */
  lemma DecimalKeysDistinct(a: nat, b: nat)
    requires a != b && a < MaxSafe && b < MaxSafe
    ensures ToNumber(DecimalString(a)) != ToNumber(DecimalString(b))
  {
    ToNumberDecimal(a);
    ToNumberDecimal(b);
  }

  /**
   * A construction-time registry whose keys are the decimal forms of
   * distinct ids below 2^53 emits no warning.
   */
  lemma CanonicalKeysNoWarnings(entries: seq<(string, Factory)>, ids: seq<nat>)
    requires |ids| == |entries| && forall i :: 0 <= i < |ids| ==> ids[i] < MaxSafe
    requires forall i :: 0 <= i < |entries| ==> entries[i].0 == DecimalString(ids[i])
    requires forall i, j :: 0 <= i < j < |ids| ==> ids[i] != ids[j]
    ensures RegisterAllWarnings(map[], entries) == []
  {
    forall i, j | 0 <= i < j < |entries|
      ensures ToNumber(entries[i].0) != ToNumber(entries[j].0)
    {
      DecimalKeysDistinct(ids[i], ids[j]);
    }
    NoWarningsIff(map[], entries);
  }

  // ----- the constructor's lookup as written -----

  /** `String(n)`: the property name a number becomes when it indexes an object. */
  function NumberString(n: Num): string {
    match n
    case NaN => "NaN"
    case Int(i) => if i < 0 then "-" + DecimalString(-i) else DecimalString(i)
  }

  /** Below 2^53 in magnitude, and for NaN, reading the property name back gives the number. */
  lemma NumberStringRoundTrip(n: Num)
    requires n.Int? ==> -(MaxSafe as int) < n.i < MaxSafe
    ensures ToNumber(NumberString(n)) == n
  {
    if n.Int? {
      if n.i < 0 {
        ToNumberDecimal(-n.i);
      } else {
        ToNumberDecimal(n.i);
      }
    }
  }

  /** `options[p]`: the factory stored under property `p`, or `undefined`. */
  function PropertyAt(entries: seq<(string, Factory)>, p: string): (r: Option<Factory>)
    ensures r.None? <==> forall i :: 0 <= i < |entries| ==> entries[i].0 != p
    ensures r.Some? ==> exists i :: 0 <= i < |entries| && entries[i] == (p, r.value)
  {
    if entries == [] then None
    else if entries[|entries| - 1].0 == p then Some(entries[|entries| - 1].1)
    else PropertyAt(entries[..|entries| - 1], p)
  }

  /** `entityTileIdFactories[+key]`: the constructor looks the factory up again under the number the key reads as. */
  function AsWrittenFactory(entries: seq<(string, Factory)>, key: string): (r: Option<Factory>)
    ensures r.None? <==> forall i :: 0 <= i < |entries| ==> entries[i].0 != NumberString(ToNumber(key))
    ensures r.Some? ==> exists i :: 0 <= i < |entries| && entries[i] == (NumberString(ToNumber(key)), r.value)
  {
    PropertyAt(entries, NumberString(ToNumber(key)))
  }

  /** The property a distinct key names holds that key's own factory. */
  lemma {:induction false} PropertyAtIndex(entries: seq<(string, Factory)>, i: int)
    requires 0 <= i < |entries|
    requires forall j :: 0 <= j < |entries| && j != i ==> entries[j].0 != entries[i].0
    ensures PropertyAt(entries, entries[i].0) == Some(entries[i].1)
  {
    if i < |entries| - 1 {
      var init := entries[..|entries| - 1];
      assert forall j :: 0 <= j < |init| ==> init[j] == entries[j];
      PropertyAtIndex(init, i);
    }
  }

  /**
   * A key that is not the canonical form of its number loses its factory:
   * `"01"` reads as 1, the property `"1"` does not exist, and `undefined`
   * is what gets registered under 1, where the entry's own factory was meant.
   */
  lemma NonCanonicalKeyLost(f: Factory)
    ensures AsWrittenFactory([("01", f)], "01") == None
    ensures LastFactory([("01", f)], Int(1)) == Some(f)
  {
    assert AllDigits("01");
    assert "01"[..1] == "0";
    assert DigitsValue("0") == 0;
    assert DigitsValue("01") == 1;
    assert ToNumber("01") == Int(1);
    assert DigitChar(1) == '1';
    assert NumberString(Int(1)) == "1";
    assert "01" != "1";
    assert PropertyAt([("01", f)][..0], "1") == None;
  }

  /**
   * With canonical, distinct keys below 2^53 the lookup as written finds
   * each entry's own factory, so it registers what the model registers.
   */
  lemma CanonicalKeysAgree(entries: seq<(string, Factory)>, ids: seq<nat>, i: int)
    requires |ids| == |entries| && 0 <= i < |entries|
    requires forall j :: 0 <= j < |ids| ==> ids[j] < MaxSafe
    requires forall j :: 0 <= j < |entries| ==> entries[j].0 == DecimalString(ids[j])
    requires forall j, k :: 0 <= j < k < |ids| ==> ids[j] != ids[k]
    ensures AsWrittenFactory(entries, entries[i].0) == Some(entries[i].1)
  {
    ToNumberDecimal(ids[i]);
    forall j | 0 <= j < |entries| && j != i
      ensures entries[j].0 != entries[i].0
    {
      DecimalKeysDistinct(ids[i], ids[j]);
    }
    PropertyAtIndex(entries, i);
  }

  // ----- register after load -----

  /** For each layer of `ls` in turn, one call of `f` per tile of that layer. */
  function LayersCalls(ls: seq<Layer>, f: Factory): seq<Effect> {
    if ls == [] then [] else LayersCalls(ls[..|ls| - 1], f) + EveryTileCalls(ls[|ls| - 1].data.tiles, f, ls[|ls| - 1])
  }

  /** The number of tiles of the layers `ls`. */
  function TileCount(ls: seq<Layer>): nat {
    if ls == [] then 0 else TileCount(ls[..|ls| - 1]) + |ls[|ls| - 1].data.tiles|
  }

  /**
   * Registering a factory once loaded calls it, layer by layer in build
   * order, once for each tile of the layer: as many calls as the layers
   * have tiles.
   */
  lemma {:induction false} RegisterCalls(ls: seq<Layer>, scenes: seq<Option<SceneHandle>>, f: Factory)
    requires |scenes| == |ls|
    ensures Only(RegisterEffects(ls, scenes, f), FactoryCalls) == LayersCalls(ls, f)
    ensures |LayersCalls(ls, f)| == TileCount(ls)
  {
    if ls != [] {
      var n := |ls| - 1;
      RegisterCalls(ls[..n], scenes[..n], f);
      OnlyAppend(RegisterEffects(ls[..n], scenes[..n], f), RunEffects(ls[n].data.tiles, f, ls[n], scenes[n]), FactoryCalls);
      RunCalls(ls[n].data.tiles, f, ls[n], scenes[n]);
    }
  }

  // ----- load order -----

  /** The k-th layer built is the k-th authored layer from the end. */
  lemma {:induction false} ReversedIndex<T>(s: seq<T>, k: int)
    requires 0 <= k < |s|
    ensures Reversed(s)[k] == s[|s| - 1 - k]
  {
    if k < |s| - 1 {
      ReversedIndex(s[1..], k);
    }
  }

  /** Reversing twice gives the authored order back. */
  lemma ReversedTwice<T>(s: seq<T>)
    ensures Reversed(Reversed(s)) == s
  {
    var r := Reversed(s);
    forall k | 0 <= k < |s|
      ensures Reversed(r)[k] == s[k]
    {
      ReversedIndex(r, k);
      ReversedIndex(s, |s| - 1 - k);
    }
  }

  // ----- addToScene -----

  /** Where layer `k`'s tile map lands among the scene additions: after every earlier layer and its entities. */
  function Offset(ents: seq<seq<Entity>>, k: nat): nat
    requires k <= |ents|
  {
    if k == 0 then 0 else Offset(ents, k - 1) + 1 + |ents[k - 1]|
  }

  lemma {:induction false} EntityAddsIndex(es: seq<Entity>, scene: SceneHandle)
    ensures |EntityAdds(es, scene)| == |es|
    ensures forall e :: 0 <= e < |es| ==> EntityAdds(es, scene)[e] == SceneAdded(scene, EntityItem(es[e]))
  {
    if es != [] {
      EntityAddsIndex(es[..|es| - 1], scene);
    }
  }

  lemma {:induction false} OffsetGrows(ents: seq<seq<Entity>>, k: nat, n: nat)
    requires k < n <= |ents|
    ensures Offset(ents, k) + 1 + |ents[k]| <= Offset(ents, n)
  {
    if k < n - 1 {
      OffsetGrows(ents, k, n - 1);
    }
  }

  /** The additions for the first `n` layers number their tile maps and entities. */
  lemma {:induction false} SceneLength(ls: seq<Layer>, ents: seq<seq<Entity>>, scene: SceneHandle, n: nat)
    requires |ents| == |ls| && n <= |ls|
    ensures |SceneEffects(ls[..n], ents[..n], scene)| == Offset(ents, n)
  {
    if n > 0 {
      SceneLength(ls, ents, scene, n - 1);
      SceneStep(ls, ents, n - 1, scene);
      EntityAddsIndex(ents[n - 1], scene);
    }
  }

  /** The additions for fewer layers are a prefix of those for more. */
  lemma {:induction false} ScenePrefix(ls: seq<Layer>, ents: seq<seq<Entity>>, scene: SceneHandle, k: nat, n: nat)
    requires |ents| == |ls| && k <= n <= |ls|
    ensures Offset(ents, k) <= |SceneEffects(ls[..n], ents[..n], scene)|
    ensures SceneEffects(ls[..n], ents[..n], scene)[..Offset(ents, k)] == SceneEffects(ls[..k], ents[..k], scene)
  {
    SceneLength(ls, ents, scene, k);
    SceneLength(ls, ents, scene, n);
    if k < n {
      var before := SceneEffects(ls[..n - 1], ents[..n - 1], scene);
      ScenePrefix(ls, ents, scene, k, n - 1);
      SceneStep(ls, ents, n - 1, scene);
      SceneLength(ls, ents, scene, n - 1);
      if k < n - 1 {
        OffsetGrows(ents, k, n - 1);
      }
      var after := SceneEffects(ls[..n], ents[..n], scene);
      assert after[..|before|] == before;
      assert after[..Offset(ents, k)] == before[..Offset(ents, k)];
    } else {
      var adds := SceneEffects(ls[..k], ents[..k], scene);
      assert adds[..|adds|] == adds;
    }
  }

  /** The additions up to and including layer `k`'s open `addToScene`'s additions. */
  lemma SceneUpTo(ls: seq<Layer>, ents: seq<seq<Entity>>, scene: SceneHandle, k: nat)
    requires |ents| == |ls| && k < |ls|
    ensures var adds := SceneEffects(ls, ents, scene);
      && Offset(ents, k + 1) <= |adds|
      && |SceneEffects(ls[..k], ents[..k], scene)| == Offset(ents, k)
      && adds[..Offset(ents, k + 1)]
         == SceneEffects(ls[..k], ents[..k], scene) + [SceneAdded(scene, TileMapItem(ls[k].tilemap))] + EntityAdds(ents[k], scene)
  {
    assert ls[..|ls|] == ls && ents[..|ls|] == ents;
    ScenePrefix(ls, ents, scene, k + 1, |ls|);
    SceneLength(ls, ents, scene, k);
    SceneStep(ls, ents, k, scene);
  }

  /** Layer `k`'s tile map comes after every earlier layer's tile map and entities. */
  lemma SceneTileMapAt(ls: seq<Layer>, ents: seq<seq<Entity>>, scene: SceneHandle, k: nat)
    requires |ents| == |ls| && k < |ls|
    ensures Offset(ents, k) < |SceneEffects(ls, ents, scene)|
    ensures SceneEffects(ls, ents, scene)[Offset(ents, k)] == SceneAdded(scene, TileMapItem(ls[k].tilemap))
  {
    var adds := SceneEffects(ls, ents, scene);
    var o := Offset(ents, k);
    SceneUpTo(ls, ents, scene, k);
    assert adds[o] == adds[..Offset(ents, k + 1)][o];
  }

  /** Layer `k`'s entities follow its tile map directly, in order. */
  lemma SceneEntityAt(ls: seq<Layer>, ents: seq<seq<Entity>>, scene: SceneHandle, k: nat, e: nat)
    requires |ents| == |ls| && k < |ls| && e < |ents[k]|
    ensures Offset(ents, k) + 1 + e < |SceneEffects(ls, ents, scene)|
    ensures SceneEffects(ls, ents, scene)[Offset(ents, k) + 1 + e] == SceneAdded(scene, EntityItem(ents[k][e]))
  {
    var adds := SceneEffects(ls, ents, scene);
    var i := Offset(ents, k) + 1 + e;
    SceneUpTo(ls, ents, scene, k);
    EntityAddsIndex(ents[k], scene);
    assert adds[i] == adds[..Offset(ents, k + 1)][i];
  }

  /** `addToScene`'s additions are the layers' tile maps and entities and nothing else. */
  lemma SceneCount(ls: seq<Layer>, ents: seq<seq<Entity>>, scene: SceneHandle)
    requires |ents| == |ls|
    ensures |SceneEffects(ls, ents, scene)| == Offset(ents, |ls|)
  {
    SceneLength(ls, ents, scene, |ls|);
    assert ls[..|ls|] == ls && ents[..|ls|] == ents;
  }
}
