/**
  The player's contact rules (Assets/PlayerCollision.cs): a decision table
  over the four layers Player-light, Player-shadow, Obstacle-light and
  Obstacle-shadow. A trigger contact with an obstacle of the player's own
  colour destroys the player; a solid contact with an obstacle of the other
  colour switches contacts off between the player's colliders and that
  obstacle's collider.
*/
module Contact {
  import opened Engine

  /** The four layer numbers the script looks up once, at start-up; -1 for a name the project lacks. */
  datatype LayerIds = LayerIds(pl: int, ps: int, ol: int, os: int)

  function ResolveLayerIds(table: map<string, int>): (ids: LayerIds)
    ensures ids.pl == NameToLayer(table, PlayerLightName)
    ensures ids.ps == NameToLayer(table, PlayerShadowName)
    ensures ids.ol == NameToLayer(table, ObstacleLightName)
    ensures ids.os == NameToLayer(table, ObstacleShadowName)
    ensures ValidLayerTable(table) ==>
              && -1 <= ids.pl < LayerCount && -1 <= ids.ps < LayerCount
              && -1 <= ids.ol < LayerCount && -1 <= ids.os < LayerCount
  {
    LayerIds(NameToLayer(table, PlayerLightName), NameToLayer(table, PlayerShadowName),
             NameToLayer(table, ObstacleLightName), NameToLayer(table, ObstacleShadowName))
  }

  /** All four names resolve, to four different layers. */
  predicate Resolved(ids: LayerIds) {
    && ids.pl != -1 && ids.ps != -1 && ids.ol != -1 && ids.os != -1
    && ids.pl != ids.ps && ids.pl != ids.ol && ids.pl != ids.os
    && ids.ps != ids.ol && ids.ps != ids.os && ids.ol != ids.os
  }

  /** A project that defines all four names resolves them to four different layers. */
  lemma ResolvedFromTable(table: map<string, int>)
    requires ValidLayerTable(table)
    requires PlayerLightName in table && PlayerShadowName in table
    requires ObstacleLightName in table && ObstacleShadowName in table
    ensures Resolved(ResolveLayerIds(table))
  {
  }

  /** The trigger-contact test: the player and the obstacle are of the same colour. */
  predicate IsLethalTrigger(ids: LayerIds, me: int, ot: int)
    ensures IsLethalTrigger(ids, me, ot) ==> IsObstacle(ids, ot)
  {
    (me == ids.pl && ot == ids.ol) || (me == ids.ps && ot == ids.os)
  }

  predicate IsObstacle(ids: LayerIds, ot: int) {
    ot == ids.ol || ot == ids.os
  }

  /** The player and the obstacle are of different colours. */
  predicate IsMismatchedPair(ids: LayerIds, me: int, ot: int) {
    (me == ids.pl && ot == ids.os) || (me == ids.ps && ot == ids.ol)
  }

  /** The solid-contact test. */
  predicate IgnoresOnCollision(ids: LayerIds, me: int, ot: int)
    ensures IgnoresOnCollision(ids, me, ot) ==> me == ids.pl || me == ids.ps
  {
    IsObstacle(ids, ot) && IsMismatchedPair(ids, me, ot)
  }

  /** The obstacle guard adds nothing: a mismatched pair always has an obstacle on the other side. */
  lemma MismatchImpliesObstacle(ids: LayerIds, me: int, ot: int)
    ensures IgnoresOnCollision(ids, me, ot) <==> IsMismatchedPair(ids, me, ot)
  {
  }

  /**
    With four distinct layers, each pairing of a player layer with an
    obstacle layer falls under exactly one of the two rules: same colour is
    lethal on a trigger contact, different colour is let through on a solid one.
  */
  lemma ExactlyOneRule(ids: LayerIds, me: int, ot: int)
    requires Resolved(ids)
    requires me == ids.pl || me == ids.ps
    requires ot == ids.ol || ot == ids.os
    ensures IsLethalTrigger(ids, me, ot) != IgnoresOnCollision(ids, me, ot)
    ensures IsLethalTrigger(ids, me, ot) <==> ((me == ids.pl) == (ot == ids.ol))
  {
  }

  /** No contact with a layer outside the two obstacle layers is ever acted on. */
  lemma NonObstacleIgnored(ids: LayerIds, me: int, ot: int)
    requires ot != ids.ol && ot != ids.os
    ensures !IsLethalTrigger(ids, me, ot) && !IgnoresOnCollision(ids, me, ot)
  {
  }

  class PlayerCollision {
    /** The player's own game object, the one the script sits on. */
    const gameObject: GameObject
    var ids: LayerIds

    /** The four ids start at 0, the default of the script's integer fields, until Awake looks them up. */
    constructor (gameObject: GameObject)
      ensures this.gameObject == gameObject && ids == LayerIds(0, 0, 0, 0)
    {
      this.gameObject := gameObject;
      this.ids := LayerIds(0, 0, 0, 0);
    }

    method Awake(table: map<string, int>)
      modifies this`ids
      ensures ids == ResolveLayerIds(table)
    {
      var pl := NameToLayer(table, PlayerLightName);
      var ps := NameToLayer(table, PlayerShadowName);
      var ol := NameToLayer(table, ObstacleLightName);
      var os := NameToLayer(table, ObstacleShadowName);
      ids := LayerIds(pl, ps, ol, os);
    }

    /**
      A trigger contact with a collider on layer `otherLayer`: the player is
      handed to the engine's destroy call exactly when the pair is lethal.
      Nothing else changes, and the ignored pairs are not touched.
    */
    method OnTriggerEnter2D(otherLayer: int)
      modifies gameObject`destroyed
      ensures gameObject.destroyed == (old(gameObject.destroyed) || IsLethalTrigger(ids, gameObject.layer, otherLayer))
    {
      var me, ot := gameObject.layer, otherLayer;
      if (me == ids.pl && ot == ids.ol) || (me == ids.ps && ot == ids.os) {
        gameObject.destroyed := true;
      }
    }

    /**
      A solid contact with collider `other` on layer `otherLayer`;
      `myColliders` are the colliders on the player's active objects. When the
      colours differ, exactly the pairs (each of the player's colliders,
      `other`) are added to the ignored pairs; otherwise nothing changes. The
      player is never destroyed here.
    */
    method OnCollisionEnter2D(world: PhysicsWorld, otherLayer: int, other: ColliderId, myColliders: seq<ColliderId>)
      modifies world`ignoredColliders
      ensures world.ignoredColliders ==
                old(world.ignoredColliders) +
                (if IgnoresOnCollision(ids, gameObject.layer, otherLayer)
                 then set c | c in myColliders :: (c, other) else {})
    {
      var me := gameObject.layer;
      var ot := otherLayer;
      var isObstacle := ot == ids.ol || ot == ids.os;
      var isMismatchedPair := (me == ids.pl && ot == ids.os) || (me == ids.ps && ot == ids.ol);
      if isObstacle && isMismatchedPair {
        for i := 0 to |myColliders|
          invariant world.ignoredColliders ==
                      old(world.ignoredColliders) + set c | c in myColliders[..i] :: (c, other)
        {
          world.IgnoreCollision(myColliders[i], other, true);
          assert myColliders[..i + 1] == myColliders[..i] + [myColliders[i]];
        }
        assert myColliders[..|myColliders|] == myColliders;
      }
    }
  }
}
