/**
  The start-up script that fills in the layer-collision matrix
  (Assets/Physics2DLayerEnforcer.cs): when all four layer names resolve, the
  same-colour pairs (Player-shadow, Obstacle-shadow) and (Player-light,
  Obstacle-light) are suppressed; otherwise the matrix is left alone.
*/
module LayerEnforcement {
  import opened Engine
  import opened Contact

  /** Some name failed to resolve; the script then logs an error and stops. */
  predicate AnyMissing(ids: LayerIds) {
    ids.pl == -1 || ids.ps == -1 || ids.ol == -1 || ids.os == -1
  }

  /** The pairs the script suppresses, in both orders. */
  function SameColourPairs(ids: LayerIds): (pairs: set<(int, int)>) {
    {(ids.ps, ids.os), (ids.os, ids.ps), (ids.pl, ids.ol), (ids.ol, ids.pl)}
  }

  /**
    The matrix after the script has run on the matrix `m`: unchanged when a
    name is missing; otherwise both same-colour pairs are suppressed, in both
    orders, and no other entry changes.
  */
  function EnforcedLayers(m: set<(int, int)>, table: map<string, int>): (r: set<(int, int)>)
    ensures AnyMissing(ResolveLayerIds(table)) ==> r == m
    ensures !AnyMissing(ResolveLayerIds(table)) ==>
              var ids := ResolveLayerIds(table);
              && (ids.ps, ids.os) in r && (ids.os, ids.ps) in r
              && (ids.pl, ids.ol) in r && (ids.ol, ids.pl) in r
    ensures forall p :: p !in SameColourPairs(ResolveLayerIds(table)) ==> (p in r <==> p in m)
    ensures m <= r
  {
    var ids := ResolveLayerIds(table);
    if AnyMissing(ids) then m else m + SameColourPairs(ids)
  }

  /**
    The script's Awake: the matrix becomes EnforcedLayers of the old matrix;
    collider pairs are untouched. When all names resolve, the two entries the
    script logs at the end both read as suppressed.
  */
  method Awake(world: PhysicsWorld, table: map<string, int>)
    requires world.Valid()
    modifies world`ignoredLayers
    ensures world.Valid()
    ensures world.ignoredLayers == EnforcedLayers(old(world.ignoredLayers), table)
    ensures var ids := ResolveLayerIds(table);
            !AnyMissing(ids) ==> world.GetIgnoreLayerCollision(ids.ps, ids.os) && world.GetIgnoreLayerCollision(ids.pl, ids.ol)
  {
    var pl := NameToLayer(table, PlayerLightName);
    var ps := NameToLayer(table, PlayerShadowName);
    var ol := NameToLayer(table, ObstacleLightName);
    var os := NameToLayer(table, ObstacleShadowName);

    if pl == -1 || ps == -1 || ol == -1 || os == -1 {
      return;
    }

    world.IgnoreLayerCollision(ps, os, true);
    world.IgnoreLayerCollision(pl, ol, true);
  }

  /** The pairs are set, not toggled: running the script twice is the same as running it once. */
  lemma EnforceIdempotent(m: set<(int, int)>, table: map<string, int>)
    ensures EnforcedLayers(EnforcedLayers(m, table), table) == EnforcedLayers(m, table)
  {
  }

  /** With four distinct layers, the different-colour pairs keep whatever setting they had. */
  lemma MismatchedPairsKept(m: set<(int, int)>, table: map<string, int>)
    requires Resolved(ResolveLayerIds(table))
    ensures var ids := ResolveLayerIds(table);
            && ((ids.pl, ids.os) in EnforcedLayers(m, table) <==> (ids.pl, ids.os) in m)
            && ((ids.ps, ids.ol) in EnforcedLayers(m, table) <==> (ids.ps, ids.ol) in m)
  {
  }

  /**
    Every pairing of a player layer with an obstacle layer ends up suppressed
    by one of the two mechanisms, provided the obstacle's collider is solid.
    Same-colour pairs are suppressed by the matrix from start-up on. For a
    different-colour pair, once the first solid contact between the player's
    collider `mine` and the obstacle's collider `other` has been handled,
    their contacts are switched off. A trigger collider raises no solid
    contact, so for it the second mechanism never runs.
  */
  lemma EveryPairSuppressed(table: map<string, int>, m: set<(int, int)>,
                            cs: set<(ColliderId, ColliderId)>,
                            me: int, ot: int, myColliders: seq<ColliderId>, mine: ColliderId, other: ColliderId)
    requires ValidLayerTable(table)
    requires PlayerLightName in table && PlayerShadowName in table
    requires ObstacleLightName in table && ObstacleShadowName in table
    requires me == table[PlayerLightName] || me == table[PlayerShadowName]
    requires ot == table[ObstacleLightName] || ot == table[ObstacleShadowName]
    requires mine in myColliders
    ensures var ids := ResolveLayerIds(table);
            var cs' := cs + (if IgnoresOnCollision(ids, me, ot) then set c | c in myColliders :: (c, other) else {});
            && (IsLethalTrigger(ids, me, ot) ==> (me, ot) in EnforcedLayers(m, table))
            && (!IsLethalTrigger(ids, me, ot) ==> CollisionIgnored(cs', mine, other))
            && ContactSuppressed(EnforcedLayers(m, table), cs', me, mine, ot, other)
  {
    var ids := ResolveLayerIds(table);
    ResolvedFromTable(table);
    ExactlyOneRule(ids, me, ot);
  }

  /**
    The same-colour trigger rule can never fire once this script has run,
    with all four layer names defined, on `world`'s earlier matrix `m`:
    every contact the engine still raises between a collider on layer `me`
    and one on layer `ot` is one the trigger rule does not find lethal. With
    a name missing the script changes nothing, and a lethal contact stays
    possible (`MissingNameKeepsLethal`).
  */
  lemma LethalPairsNeverRaised(world: PhysicsWorld, table: map<string, int>, m: set<(int, int)>,
                               me: int, mine: ColliderId, ot: int, other: ColliderId)
    requires !AnyMissing(ResolveLayerIds(table))
    requires world.ignoredLayers == EnforcedLayers(m, table)
    ensures world.RaisesContact(me, mine, ot, other) ==> !IsLethalTrigger(ResolveLayerIds(table), me, ot)
  {
  }

  /**
    When a layer name is missing the script returns before touching the
    matrix, so a lethal pair that was not suppressed before stays raised.
  */
  lemma MissingNameKeepsLethal(table: map<string, int>, m: set<(int, int)>, cs: set<(ColliderId, ColliderId)>,
                               me: int, mine: ColliderId, ot: int, other: ColliderId)
    requires AnyMissing(ResolveLayerIds(table))
    requires IsLethalTrigger(ResolveLayerIds(table), me, ot)
    requires (me, ot) !in m && !CollisionIgnored(cs, mine, other)
    ensures !ContactSuppressed(EnforcedLayers(m, table), cs, me, mine, ot, other)
  {
  }

  /** The script keeps the matrix symmetric. */
  lemma EnforcePreservesSymmetry(m: set<(int, int)>, table: map<string, int>)
    requires Symmetric(m)
    ensures Symmetric(EnforcedLayers(m, table))
  {
  }
}
