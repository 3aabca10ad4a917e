/**
  The obstacle spawner (Assets/Spawner.cs): a timer that fires a spawn every
  `obstacleSpawnTime` seconds, the lane choice, the alignment of the spawned
  obstacle's lowest collider with the lane, and the fix-ups applied to the
  spawned obstacle's tree.
*/
module Spawning {
  import opened Wrappers
  import opened Engine

  // ---------------------------------------------------------------------
  // Prefab names
  // ---------------------------------------------------------------------

  /** Lower-cases one character; only the ASCII letters A-Z change. */
  function LowerChar(c: char): (d: char)
    ensures 'A' <= c <= 'Z' ==> 'a' <= d <= 'z' && d as int - c as int == 32
    ensures !('A' <= c <= 'Z') ==> d == c
  {
    if 'A' <= c <= 'Z' then (c as int + 32) as char else c
  }

  /** The string's invariant lower-case form, character by character. */
  function ToLowerInvariant(s: string): (r: string)
    ensures |r| == |s|
    ensures forall i :: 0 <= i < |s| ==> r[i] == LowerChar(s[i])
  {
    if s == [] then [] else [LowerChar(s[0])] + ToLowerInvariant(s[1..])
  }

  /** The string with every space (U+0020) removed. */
  function RemoveSpaces(s: string): (r: string)
    ensures ' ' !in r
    ensures |r| <= |s|
    ensures ' ' !in s ==> r == s
  {
    if s == [] then []
    else if s[0] == ' ' then RemoveSpaces(s[1..])
    else [s[0]] + RemoveSpaces(s[1..])
  }

  /** `sub` occurs in `s` starting at index `i`. */
  predicate OccursAt(s: string, sub: string, i: nat) {
    i + |sub| <= |s| && s[i..i + |sub|] == sub
  }

  /** The string search `s.Contains(sub)`. */
  predicate Contains(s: string, sub: string) {
    exists i: nat :: i <= |s| && OccursAt(s, sub, i)
  }

  const Type1Tag: string := "type1"

  /** The test the spawner applies to a prefab's name (Assets/Spawner.cs:77-81). */
  predicate IsType1(name: string)
    ensures IsType1(name) ==> |name| >= |Type1Tag|
  {
    var n := ToLowerInvariant(name);
    Contains(n, Type1Tag) || Contains(RemoveSpaces(n), Type1Tag)
  }

  lemma {:induction false} RemoveSpacesAppend(a: string, b: string)
    ensures RemoveSpaces(a + b) == RemoveSpaces(a) + RemoveSpaces(b)
  {
    if a == [] {
      assert a + b == b;
    } else {
      assert (a + b)[0] == a[0];
      assert (a + b)[1..] == a[1..] + b;
      RemoveSpacesAppend(a[1..], b);
    }
  }

  /** A spaceless word found in `s` is still found once the spaces are gone. */
  lemma ContainsSurvivesRemoveSpaces(s: string, sub: string)
    requires ' ' !in sub
    requires Contains(s, sub)
    ensures Contains(RemoveSpaces(s), sub)
  {
    var i: nat :| i <= |s| && OccursAt(s, sub, i);
    var pre, post := s[..i], s[i + |sub|..];
    assert s == pre + sub + post;
    RemoveSpacesAppend(pre + sub, post);
    RemoveSpacesAppend(pre, sub);
    var t := RemoveSpaces(s);
    assert t == RemoveSpaces(pre) + sub + RemoveSpaces(post);
    assert OccursAt(t, sub, |RemoveSpaces(pre)|);
  }

  /**
    The first disjunct of the test is subsumed by the second: a name is of
    type 1 exactly when its lower-cased, spaceless form contains "type1".
  */
  lemma IsType1Iff(name: string)
    ensures IsType1(name) <==> Contains(RemoveSpaces(ToLowerInvariant(name)), Type1Tag)
  {
    var n := ToLowerInvariant(name);
    if Contains(n, Type1Tag) {
      ContainsSurvivesRemoveSpaces(n, Type1Tag);
    }
  }

  /** A name whose lower-cased, spaceless form holds "type1" at some index is of type 1. */
  lemma IsType1FromOccurrence(name: string, i: nat)
    requires OccursAt(RemoveSpaces(ToLowerInvariant(name)), Type1Tag, i)
    ensures IsType1(name)
  {
  }

  lemma LowerTypeSpaceOne()
    ensures ToLowerInvariant("Type 1") == "type 1"
  {
    var n := ToLowerInvariant("Type 1");
    assert n[0] == 't' && n[1] == 'y' && n[2] == 'p' && n[3] == 'e' && n[4] == ' ' && n[5] == '1';
  }

  lemma StripTypeSpaceOne()
    ensures RemoveSpaces("type 1") == Type1Tag
  {
    assert "type 1" == "type" + " " + "1";
    RemoveSpacesAppend("type" + " ", "1");
    RemoveSpacesAppend("type", " ");
  }

  /** "Type 1" is recognised: only the spaceless test finds it. */
  lemma Type1WithSpace()
    ensures IsType1("Type 1")
  {
    LowerTypeSpaceOne();
    StripTypeSpaceOne();
    IsType1FromOccurrence("Type 1", 0);
  }

  /** Upper case is recognised too. */
  lemma Type1UpperCase()
    ensures IsType1("TYPE1")
  {
    var n := ToLowerInvariant("TYPE1");
    assert n[0] == 't' && n[1] == 'y' && n[2] == 'p' && n[3] == 'e' && n[4] == '1';
    assert n == Type1Tag;
    assert OccursAt(n, Type1Tag, 0);
  }

  // ---------------------------------------------------------------------
  // Lanes
  // ---------------------------------------------------------------------

  /** The fixed lane of a type-1 prefab. */
  const Type1Lane: real := -4.0

  /** The heights the other prefabs are spawned at, `spawnHeights`. */
  const SpawnHeights: seq<real> := [-4.0, -3.1]

  /**
    The height a prefab is spawned at: the type-1 lane, or the height the
    random draw `heightIndex` picks from `SpawnHeights`.
  */
  function ChosenY(name: string, heightIndex: nat): (y: real)
    requires heightIndex < |SpawnHeights|
    ensures IsType1(name) ==> y == Type1Lane
    ensures !IsType1(name) ==> y == SpawnHeights[heightIndex]
    ensures y == -4.0 || y == -3.1
  {
    if IsType1(name) then Type1Lane else SpawnHeights[heightIndex]
  }

  // ---------------------------------------------------------------------
  // Obstacles
  // ---------------------------------------------------------------------

  datatype BodyType = Dynamic | Kinematic | Static
  datatype DetectionMode = Discrete | Continuous

  /** A 2D rigid body: the fields the spawner sets. */
  datatype Body = Body(bodyType: BodyType, gravityScale: real, freezeRotation: bool,
                       detection: DetectionMode, velocity: Vec2)

  /** The body the engine creates when a Rigidbody2D component is added. */
  const NewBody: Body := Body(Dynamic, 1.0, false, Discrete, Vec2(0.0, 0.0))

  /** A body set up the way the spawner wants obstacles: moved only by its velocity. */
  predicate IsKinematicSetup(b: Body) {
    b.bodyType == Kinematic && b.gravityScale == 0.0 && b.freezeRotation && b.detection == Continuous
  }

  /**
    A 2D collider: whether it is enabled, whether it is a trigger, and the
    bottom of its bounds measured from the position of the obstacle's root.
  */
  datatype Collider = Collider(enabled: bool, isTrigger: bool, bottomOffset: real)

  /**
    An obstacle template: its name, the layer of its root and of every other
    object of its tree, every collider of the tree, and the rigid bodies on
    its active objects in the order the engine's search visits them.
  */
  datatype Prefab = Prefab(name: string, rootLayer: int, childLayers: seq<int>,
                           colliders: seq<Collider>, bodies: seq<Body>)

  /**
    A spawned obstacle. The source only ever looks at the spawned tree through
    the engine's "all components in children" queries, so the tree is kept
    as those queries return it: `layers` holds the layer of every object of
    the tree (the root first, inactive objects included) and `colliders`
    every collider of the tree.
  */
  class Obstacle {
    var x: real
    var y: real
    const layers: array<int>
    const colliders: array<Collider>
    var bodies: seq<Body>

    ghost predicate Valid()
      reads this
    {
      layers.Length > 0
    }

    /** The engine's instantiation of a prefab at a position. */
    constructor Instantiate(prefab: Prefab, x: real, y: real)
      ensures Valid() && fresh(layers) && fresh(colliders)
      ensures this.x == x && this.y == y
      ensures layers[..] == [prefab.rootLayer] + prefab.childLayers
      ensures colliders[..] == prefab.colliders
      ensures bodies == prefab.bodies
    {
      this.x := x;
      this.y := y;
      var ls := [prefab.rootLayer] + prefab.childLayers;
      this.layers := new int[|ls|](i requires 0 <= i < |ls| => ls[i]);
      this.colliders := new Collider[|prefab.colliders|](i requires 0 <= i < |prefab.colliders| => prefab.colliders[i]);
      this.bodies := prefab.bodies;
    }
  }

  /** Some collider of the sequence is enabled. */
  predicate HasEnabled(cols: seq<Collider>) {
    exists i :: 0 <= i < |cols| && cols[i].enabled
  }

  /**
    The obstacle, at root height `y`, sits on `lane`: the lowest bottom of
    its enabled colliders is exactly `lane`. Disabled colliders do not count.
  */
  ghost predicate RestsOn(cols: seq<Collider>, y: real, lane: real) {
    && (forall i :: 0 <= i < |cols| && cols[i].enabled ==> lane <= y + cols[i].bottomOffset)
    && (exists i :: 0 <= i < |cols| && cols[i].enabled && y + cols[i].bottomOffset == lane)
  }

  /**
    The lowest bottom, in world coordinates, over the enabled colliders of an
    obstacle whose root is at height `y`; None when no collider is enabled.
  */
  method LowestEnabledBottom(cols: array<Collider>, y: real) returns (bottom: Option<real>)
    ensures bottom.None? <==> !HasEnabled(cols[..])
    ensures bottom.Some? ==> RestsOn(cols[..], y, bottom.value)
  {
    bottom := None;
    for i := 0 to cols.Length
      invariant bottom.None? <==> !HasEnabled(cols[..i])
      invariant bottom.Some? ==> RestsOn(cols[..i], y, bottom.value)
    {
      var c := cols[i];
      if c.enabled {
        var b := y + c.bottomOffset;
        if bottom.None? || b < bottom.value {
          bottom := Some(b);
        }
      }
      assert cols[..i + 1] == cols[..i] + [c];
    }
    assert cols[..cols.Length] == cols[..];
  }

  // ---------------------------------------------------------------------
  // The spawner
  // ---------------------------------------------------------------------

  class Spawner {
    /** The configured prefab slots; `None` is a slot left unassigned. */
    var obstaclePrefabs: seq<Option<Prefab>>
    var obstacleSpawnTime: real
    var obstacleSpeed: real
    /** The spawner's own horizontal position. */
    var x: real
    var timeUntilObstacleSpawn: real

    /** A spawner with the settings configured on it, at horizontal position `x`; the timer starts at 0. */
    constructor (prefabs: seq<Option<Prefab>>, spawnTime: real, speed: real, x: real)
      ensures obstaclePrefabs == prefabs && this.x == x
      ensures obstacleSpawnTime == spawnTime && obstacleSpeed == speed
      ensures timeUntilObstacleSpawn == 0.0
    {
      obstaclePrefabs := prefabs;
      obstacleSpawnTime := spawnTime;
      obstacleSpeed := speed;
      this.x := x;
      timeUntilObstacleSpawn := 0.0;
    }

    /** A spawner with the script's defaults: a spawn every 2 seconds, at speed 1. */
    constructor Default(prefabs: seq<Option<Prefab>>, x: real)
      ensures obstaclePrefabs == prefabs && this.x == x
      ensures obstacleSpawnTime == 2.0 && obstacleSpeed == 1.0
      ensures timeUntilObstacleSpawn == 0.0
    {
      obstaclePrefabs := prefabs;
      obstacleSpawnTime := 2.0;
      obstacleSpeed := 1.0;
      this.x := x;
      timeUntilObstacleSpawn := 0.0;
    }

    /**
      The prefab drawn at `prefabIndex` can be spawned: the slot exists and
      is assigned. An empty array (the draw over [0, 0) gives 0) or an
      unassigned slot makes the spawn throw before anything is created.
    */
    predicate CanSpawn(prefabIndex: nat)
      reads this
    {
      prefabIndex < |obstaclePrefabs| && obstaclePrefabs[prefabIndex].Some?
    }

    /**
      One frame: `dt` is the frame's duration, `prefabIndex` and
      `heightIndex` the two random draws a spawn would use. Returns the
      spawned obstacle, or null when the timer has not reached the threshold
      or the drawn slot cannot be spawned. In the latter case the spawn
      throws before the timer is reset, so the timer keeps the sum and every
      later frame draws again.
    */
    method Update(dt: real, prefabIndex: nat, heightIndex: nat) returns (spawned: Obstacle?)
      requires timeUntilObstacleSpawn + dt >= obstacleSpawnTime ==>
                 && (prefabIndex < |obstaclePrefabs| || (obstaclePrefabs == [] && prefabIndex == 0))
                 && heightIndex < |SpawnHeights|
      modifies this`timeUntilObstacleSpawn
      ensures (spawned != null) <==> old(timeUntilObstacleSpawn) + dt >= obstacleSpawnTime && CanSpawn(prefabIndex)
      ensures spawned != null ==> timeUntilObstacleSpawn == 0.0
      ensures spawned == null ==> timeUntilObstacleSpawn == old(timeUntilObstacleSpawn) + dt
      ensures old(timeUntilObstacleSpawn) + dt < obstacleSpawnTime ==> timeUntilObstacleSpawn < obstacleSpawnTime
      ensures old(timeUntilObstacleSpawn) >= 0.0 && dt >= 0.0 ==> timeUntilObstacleSpawn >= 0.0
      ensures spawned != null ==> fresh(spawned) && spawned.Valid()
      ensures spawned != null ==>
                var prefab := obstaclePrefabs[prefabIndex].value;
                Spawned(spawned, prefab, ChosenY(prefab.name, heightIndex))
    {
      timeUntilObstacleSpawn := timeUntilObstacleSpawn + dt;
      if timeUntilObstacleSpawn >= obstacleSpawnTime {
        if !CanSpawn(prefabIndex) {
          // The spawn throws on the missing prefab; the reset below is not reached.
          return null;
        }
        spawned := Spawn(prefabIndex, heightIndex);
        timeUntilObstacleSpawn := 0.0;
      } else {
        spawned := null;
      }
    }

    /**
      What a spawn leaves behind, for the obstacle made from `prefab` for the
      lane `lane`: placed at the spawner's x and resting on the lane, every
      object of its tree on the root's layer, every collider a trigger and
      otherwise as in the prefab, and its first body kinematic and moving
      left at `obstacleSpeed`.
    */
    ghost predicate Spawned(o: Obstacle, prefab: Prefab, lane: real)
      reads this, o, o.layers, o.colliders
    {
      && o.x == x
      && (HasEnabled(prefab.colliders) ==> RestsOn(o.colliders[..], o.y, lane))
      && (!HasEnabled(prefab.colliders) ==> o.y == lane)
      && o.layers.Length == 1 + |prefab.childLayers|
      && (forall i :: 0 <= i < o.layers.Length ==> o.layers[i] == prefab.rootLayer)
      && o.colliders.Length == |prefab.colliders|
      && (forall i :: 0 <= i < o.colliders.Length ==>
            o.colliders[i] == prefab.colliders[i].(isTrigger := true))
      && |o.bodies| == (if prefab.bodies == [] then 1 else |prefab.bodies|)
      && IsKinematicSetup(o.bodies[0])
      && o.bodies[0].velocity == Vec2(-obstacleSpeed, 0.0)
      && o.bodies[1..] == (if prefab.bodies == [] then [] else prefab.bodies[1..])
    }

    method Spawn(prefabIndex: nat, heightIndex: nat) returns (spawned: Obstacle)
      requires CanSpawn(prefabIndex) && heightIndex < |SpawnHeights|
      ensures fresh(spawned) && spawned.Valid()
      ensures var prefab := obstaclePrefabs[prefabIndex].value;
              Spawned(spawned, prefab, ChosenY(prefab.name, heightIndex))
    {
      var prefab := obstaclePrefabs[prefabIndex].value;
      var chosenY := ChosenY(prefab.name, heightIndex);
      spawned := new Obstacle.Instantiate(prefab, x, chosenY);

      var bottom := LowestEnabledBottom(spawned.colliders, spawned.y);
      if bottom.Some? {
        ShiftRestsOn(spawned.colliders[..], spawned.y, bottom.value, chosenY - bottom.value);
        spawned.y := spawned.y + (chosenY - bottom.value);
      }

      PostSpawnFixups(spawned);

      if |spawned.bodies| > 0 {
        spawned.bodies := spawned.bodies[0 := spawned.bodies[0].(velocity := Vec2(-obstacleSpeed, 0.0))];
      }
    }

    static method PostSpawnFixups(root: Obstacle)
      requires root.Valid()
      modifies root.layers, root.colliders, root`bodies
      ensures forall i :: 0 <= i < root.layers.Length ==> root.layers[i] == old(root.layers[0])
      ensures forall i :: 0 <= i < root.colliders.Length ==>
                root.colliders[i] == old(root.colliders[i]).(isTrigger := true)
      ensures KinematicEnsured(old(root.bodies), root.bodies)
    {
      ForceChildrenLayersToRoot(root);
      MakeAllCollidersTrigger(root);
      EnsureHasKinematicRB(root);
    }

    /** Every object of the tree, inactive ones included, takes the root's layer. */
    static method ForceChildrenLayersToRoot(root: Obstacle)
      requires root.Valid()
      modifies root.layers
      ensures forall i :: 0 <= i < root.layers.Length ==> root.layers[i] == old(root.layers[0])
      ensures root.layers[0] == old(root.layers[0])
    {
      var layer := root.layers[0];
      for i := 0 to root.layers.Length
        invariant forall j :: 0 <= j < i ==> root.layers[j] == layer
        invariant forall j :: i <= j < root.layers.Length ==> root.layers[j] == old(root.layers[j])
      {
        root.layers[i] := layer;
      }
    }

    /** Every collider of the tree becomes a trigger; nothing else about it changes. */
    static method MakeAllCollidersTrigger(root: Obstacle)
      modifies root.colliders
      ensures forall i :: 0 <= i < root.colliders.Length ==>
                root.colliders[i] == old(root.colliders[i]).(isTrigger := true)
    {
      for i := 0 to root.colliders.Length
        invariant forall j :: 0 <= j < i ==> root.colliders[j] == old(root.colliders[j]).(isTrigger := true)
        invariant forall j :: i <= j < root.colliders.Length ==> root.colliders[j] == old(root.colliders[j])
      {
        root.colliders[i] := root.colliders[i].(isTrigger := true);
      }
    }

    /**
      The bodies after EnsureHasKinematicRB, from the bodies before: a new
      body is added only when there was none, the first body (found or added)
      is set up kinematic, and the others are untouched.
    */
    static ghost predicate KinematicEnsured(before: seq<Body>, after: seq<Body>) {
      var first := if before == [] then NewBody else before[0];
      && |after| == (if before == [] then 1 else |before|)
      && IsKinematicSetup(after[0])
      && after[0].velocity == first.velocity
      && after[1..] == (if before == [] then [] else before[1..])
    }

    static method EnsureHasKinematicRB(root: Obstacle)
      modifies root`bodies
      ensures KinematicEnsured(old(root.bodies), root.bodies)
    {
      if root.bodies == [] {
        root.bodies := [NewBody];
      }
      var rb := root.bodies[0];
      rb := rb.(bodyType := Kinematic, gravityScale := 0.0, freezeRotation := true, detection := Continuous);
      root.bodies := root.bodies[0 := rb];
    }
  }

  /** Raising an obstacle by `d` raises the lowest bottom of its colliders by `d`. */
  lemma ShiftRestsOn(cols: seq<Collider>, y: real, lane: real, d: real)
    requires RestsOn(cols, y, lane)
    ensures RestsOn(cols, y + d, lane + d)
  {
    var i :| 0 <= i < |cols| && cols[i].enabled && y + cols[i].bottomOffset == lane;
    assert (y + d) + cols[i].bottomOffset == lane + d;
  }
}
