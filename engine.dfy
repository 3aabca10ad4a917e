/**
  The parts of the game engine that the core scripts talk to, reduced to the
  state they read and write: the project's layer names, the physics world's
  two collision filters, and the tree of game objects under a root.
*/
module Engine {

  /** The engine has 32 layers, numbered 0 to 31. */
  const LayerCount: int := 32

  const PlayerLightName: string := "Player-light"
  const PlayerShadowName: string := "Player-shadow"
  const ObstacleLightName: string := "Obstacle-light"
  const ObstacleShadowName: string := "Obstacle-shadow"

  /**
    The project's layer names. Every named layer is one of the 32 layers and
    no layer carries two names.
  */
  ghost predicate ValidLayerTable(table: map<string, int>) {
    && (forall n :: n in table ==> 0 <= table[n] < LayerCount)
    && (forall a, b :: a in table && b in table && a != b ==> table[a] != table[b])
  }

  /** The engine's name-to-layer lookup: the layer's number, or -1 for a name the project does not define. */
  function NameToLayer(table: map<string, int>, name: string): (layer: int)
    ensures ValidLayerTable(table) ==> -1 <= layer < LayerCount
    ensures layer != -1 && ValidLayerTable(table) ==> name in table
  {
    if name in table then table[name] else -1
  }

  /** A 2D vector: a velocity or a position in the plane. */
  datatype Vec2 = Vec2(x: real, y: real)

  /** Collider components are identified by an instance number. */
  type ColliderId = int

  /** A layer-collision matrix, as a set of suppressed pairs, is symmetric. */
  ghost predicate Symmetric(m: set<(int, int)>) {
    forall a, b :: (a, b) in m ==> (b, a) in m
  }

  /** The collider pair was switched off, in either order. */
  predicate CollisionIgnored(ignoredColliders: set<(ColliderId, ColliderId)>, c1: ColliderId, c2: ColliderId) {
    (c1, c2) in ignoredColliders || (c2, c1) in ignoredColliders
  }

  /**
    The engine raises no contact, solid or trigger, between two colliders
    whose layers are suppressed in the layer-collision matrix or whose pair
    was switched off.
  */
  predicate ContactSuppressed(ignoredLayers: set<(int, int)>, ignoredColliders: set<(ColliderId, ColliderId)>,
                              layerA: int, colA: ColliderId, layerB: int, colB: ColliderId) {
    (layerA, layerB) in ignoredLayers || CollisionIgnored(ignoredColliders, colA, colB)
  }

  /**
    The global state of the 2D physics engine that the core changes: the
    layer-collision matrix (the set of layer pairs whose contacts are not
    computed, kept symmetric as the engine keeps it) and the collider pairs
    whose contacts were switched off one by one.
  */
  class PhysicsWorld {
    var ignoredLayers: set<(int, int)>
    var ignoredColliders: set<(ColliderId, ColliderId)>

    ghost predicate Valid()
      reads this
    {
      Symmetric(ignoredLayers)
    }

    constructor ()
      ensures Valid() && ignoredLayers == {} && ignoredColliders == {}
    {
      ignoredLayers := {};
      ignoredColliders := {};
    }

    /** Whether contacts between the two layers are suppressed. */
    predicate GetIgnoreLayerCollision(a: int, b: int)
      reads this
    {
      (a, b) in ignoredLayers
    }

    /** Whether the engine raises contacts between the two colliders (see ContactSuppressed). */
    predicate RaisesContact(layerA: int, colA: ColliderId, layerB: int, colB: ColliderId)
      reads this
    {
      !ContactSuppressed(ignoredLayers, ignoredColliders, layerA, colA, layerB, colB)
    }

    /** Sets one entry of the layer-collision matrix, in both orders. */
    method IgnoreLayerCollision(a: int, b: int, ignore: bool)
      requires Valid()
      modifies this`ignoredLayers
      ensures Valid()
      ensures ignore ==> ignoredLayers == old(ignoredLayers) + {(a, b), (b, a)}
      ensures !ignore ==> ignoredLayers == old(ignoredLayers) - {(a, b), (b, a)}
    {
      if ignore {
        ignoredLayers := ignoredLayers + {(a, b), (b, a)};
      } else {
        ignoredLayers := ignoredLayers - {(a, b), (b, a)};
      }
    }

    /** Switches contacts between two colliders off (or back on). */
    method IgnoreCollision(c1: ColliderId, c2: ColliderId, ignore: bool)
      modifies this`ignoredColliders
      ensures ignore ==> ignoredColliders == old(ignoredColliders) + {(c1, c2)}
      ensures !ignore ==> ignoredColliders == old(ignoredColliders) - {(c1, c2), (c2, c1)}
    {
      if ignore {
        ignoredColliders := ignoredColliders + {(c1, c2)};
      } else {
        ignoredColliders := ignoredColliders - {(c1, c2), (c2, c1)};
      }
    }
  }

  /**
    A game object with the subtree of game objects under it. `Repr` is the
    set of all objects in the subtree, this one included; the tree's shape
    never changes, only the objects' layers and whether they were handed to
    the engine's destroy call.
  */
  class GameObject {
    var layer: int
    var destroyed: bool
    const children: seq<GameObject>
    ghost const Repr: set<GameObject>

    ghost predicate Valid()
      decreases Repr
    {
      && this in Repr
      && (forall c :: c in children ==> c in Repr && c.Repr <= Repr && this !in c.Repr && c.Valid())
      && Repr == {this} + ReprOfAll(children)
    }

    constructor (layer: int, children: seq<GameObject>)
      requires forall c :: c in children ==> c.Valid()
      ensures Valid()
      ensures this.layer == layer && !destroyed && this.children == children
      ensures Repr == {this} + ReprOfAll(children)
    {
      this.layer := layer;
      this.destroyed := false;
      this.children := children;
      this.Repr := {this} + ReprOfAll(children);
      new;
      forall c | c in children
        ensures c.Repr <= Repr
      {
        ReprOfAllCovers(children, c);
      }
    }
  }

  /** The objects of the subtrees under `cs`. */
  ghost function ReprOfAll(cs: seq<GameObject>): (objs: set<GameObject>)
  {
    if cs == [] then {} else ReprOfAll(cs[..|cs| - 1]) + cs[|cs| - 1].Repr
  }

  /** The subtree of every object in `cs` is part of `ReprOfAll(cs)`. */
  lemma {:induction false} ReprOfAllCovers(cs: seq<GameObject>, c: GameObject)
    requires c in cs
    ensures c.Repr <= ReprOfAll(cs)
    decreases |cs|
  {
    if c != cs[|cs| - 1] {
      assert c in cs[..|cs| - 1];
      ReprOfAllCovers(cs[..|cs| - 1], c);
    }
  }

  /** Every object of `ReprOfAll(cs)` lies in the subtree of one of `cs`. */
  lemma {:induction false} ReprOfAllMember(cs: seq<GameObject>, n: GameObject)
    requires n in ReprOfAll(cs)
    ensures exists j :: 0 <= j < |cs| && n in cs[j].Repr
    decreases |cs|
  {
    if n !in cs[|cs| - 1].Repr {
      ReprOfAllMember(cs[..|cs| - 1], n);
      var j :| 0 <= j < |cs| - 1 && n in cs[..|cs| - 1][j].Repr;
      assert n in cs[j].Repr;
    }
  }

  /** What the tree invariant gives about the `i`-th child of a valid object. */
  lemma ChildInvariant(go: GameObject, i: nat)
    requires go.Valid() && i < |go.children|
    ensures go.children[i].Valid()
    ensures go.children[i].Repr <= go.Repr && go !in go.children[i].Repr
  {
    assert go.children[i] in go.children;
  }
}
