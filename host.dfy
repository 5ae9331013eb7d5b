/**
 * Values that belong to the game engine or to the plugin's caller. The
 * plugin only stores them, passes them on and compares them for identity,
 * so each is an opaque handle.
 */
module Host {

  /** A sprite of the sprite sheet. */
  datatype Sprite = Sprite(handle: nat)

  /** An entity built by a tile-id factory. */
  datatype Entity = Entity(handle: nat)

  /** A tile-id factory closure registered with the resource. */
  datatype Factory = Factory(handle: nat)

  /** The attribute callback closure supplied at construction. */
  datatype Callback = Callback(handle: nat)

  /** A scene of the engine. */
  datatype SceneHandle = SceneHandle(handle: nat)

  /** An engine vector. */
  datatype Vec = Vec(x: real, y: real)

  /** `vec(0, 0)`, the default position of a tile map. */
  const Origin := Vec(0.0, 0.0)
}
