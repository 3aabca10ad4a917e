# Light/Shadow runner: a Dafny model of the game logic

This project models the game logic of a small 2D endless runner. The player switches between a
Light and a Shadow form. Obstacles of both colours scroll in from the right. Whether a contact
kills the player or lets them pass depends on the colour of the player's layer and the colour
of the obstacle's layer.

The model covers six scripts, one Dafny module each:

- `Spawning` (`spawner.dfy`) models `Assets/Spawner.cs`. It has the spawn timer, the lane
  choice with the name test for "type 1" prefabs, and the alignment of the spawned obstacle's
  lowest enabled collider with its lane. It also has the fix-ups applied to the spawned tree:
  root layer everywhere, triggers only, and one kinematic body moving left.
- `Contact` (`player_collision.dfy`) models `Assets/PlayerCollision.cs`. It is the decision
  table over the four layers Player-light, Player-shadow, Obstacle-light and Obstacle-shadow.
  A trigger contact with an obstacle of the same colour destroys the player. A solid contact
  with an obstacle of the other colour switches off contacts between the player's colliders
  and that collider.
- `LayerEnforcement` (`layer_enforcer.dfy`) models `Assets/Physics2DLayerEnforcer.cs`. At
  start-up it suppresses the two same-colour pairs in the layer-collision matrix. It also holds
  the lemmas that connect it with `Contact`.
- `FormSwitching` (`form_switcher.dfy`) models `Assets/PlayerFormSwitcher.cs`. It has the
  Light/Shadow toggle with its cooldown, the recursive layer assignment over the player's
  subtree, and the tinting of the player's sprites.
- `GameState` (`game_manager.dfy`) models `Assets/SimpleGameManager.cs`. It has the pause and
  game-over flags, the engine time scale, survival time, the score, and the singleton rule.
- `Movement` (`player_movement.dfy`) models `Assets/PlayerMovement.cs`. It is the per-frame
  jump and crouch step.

Two helper modules support them:

- `Engine` (`engine.dfy`) holds what the scripts use from the game engine:
  - the name-to-layer lookup, as a table that gives -1 for missing names;
  - the physics world's two collision filters (the layer matrix and the ignored collider pairs);
  - game-object trees with a `Repr` footprint.
- `Wrappers` (`wrappers.dfy`) holds `Option`.

Where a script changes objects in place, the model uses classes with `modifies` clauses. These
are the spawner's timer, the spawned obstacle's arrays, the player's object tree, the renderers,
the physics world, the manager and the movement state. Per-frame engine inputs become
parameters:

- elapsed time and the clock;
- key and button states;
- the ground check;
- the random draws;
- the layer table.

For `SimpleGameManager` and `PlayerMovement`, each method is tied to a step function over a
state datatype. The properties are proved about those functions as lemmas.

The model combines the contact rules with the start-up matrix, and the combination gives two
results.

- Every pair that the trigger rule finds lethal is a same-colour pair, and the enforcer
  suppresses that pair in the layer-collision matrix. So once the enforcer has run with all four
  layer names defined, no contact the engine still raises is lethal
  (`LayerEnforcement.LethalPairsNeverRaised`). This holds for every obstacle. When a name is
  missing, the enforcer changes nothing, and a lethal contact stays possible
  (`LayerEnforcement.MissingNameKeepsLethal`).
- For a solid obstacle collider, a different-colour pair is suppressed per collider after its
  first solid contact. So every pairing of a player layer with an obstacle layer ends up
  suppressed by one of the two mechanisms (`LayerEnforcement.EveryPairSuppressed`). The spawner
  turns every collider of a spawned obstacle into a trigger (`Spawning.Spawner.MakeAllCollidersTrigger`).
  A trigger raises no solid contact, so for spawned obstacles the per-collider ignore never runs.
  Different-colour pairs then keep raising trigger contacts, which are harmless.

Taken together, once the enforcer has run with all four layer names defined, no contact can
destroy the player. This combines `LethalPairsNeverRaised` with the contracts of the two contact
handlers: only a lethal trigger contact destroys the player, and a solid contact never does. No
single lemma states it.

The combination also assumes that the player's colliders carry the layer of the player's own
object. The trigger rule reads that object's layer, while the layer matrix filters on each
collider's own object. `ApplyForm` gives the whole subtree one layer after a successful lookup,
which makes the assumption hold.

The scripts also disagree about what the colours mean. The enforcer's own comment
(Assets/Physics2DLayerEnforcer.cs:14) says that the same colour passes through and different
colours collide. Yet the trigger rule destroys the player on a same-colour contact
(Assets/PlayerCollision.cs:20). The solid-contact rule lets different colours pass
(Assets/PlayerCollision.cs:32-36). This model follows what each script's code does.

## Model

| member | source | states |
|---|---|---|
| `Spawning.Spawner.constructor` | Assets/Spawner.cs:5-10 | The spawner has the configured prefab slots, interval and speed, and the timer starts at 0. |
| `Spawning.Spawner.Default` | Assets/Spawner.cs:5-10 | The script's defaults: the spawn interval is 2 seconds and the speed 1. The timer starts at 0. |
| `Spawning.Spawner.Update` | Assets/Spawner.cs:12-25 | The timer grows by dt. An obstacle is spawned exactly when the sum reaches `obstacleSpawnTime` and the drawn slot holds a prefab. A spawn resets the timer to 0. Otherwise the timer keeps the sum, and the sum is below the threshold when it did not fire. The timer also keeps the sum when firing on an empty array or an unassigned slot, because the spawn throws before the reset and every later frame draws again. With dt ≥ 0 the timer never goes negative. |
| `Spawning.Spawner.Spawn` | Assets/Spawner.cs:22-45 | The new obstacle sits at the spawner's x and rests on the chosen lane. Every node has the root's layer. Every collider is a trigger and otherwise as in the prefab. Its first body is kinematic and moves at (-`obstacleSpeed`, 0). |
| `Spawning.ChosenY` | Assets/Spawner.cs:8-25 | A type-1 prefab gets lane -4. Any other gets the drawn entry of {-4, -3.1}. The result is always -4 or -3.1. |
| `Spawning.ToLowerInvariant` | Assets/Spawner.cs:79 | Same length as the input; each character is lower-cased on its own. |
| `Spawning.RemoveSpaces` | Assets/Spawner.cs:80 | The result has no space and is no longer than the input. A string without spaces is returned unchanged. |
| `Spawning.IsType1` | Assets/Spawner.cs:77-81 | A type-1 name has at least five characters. `IsType1Iff`, `Type1WithSpace` and `Type1UpperCase` state what the test accepts. |
| `Spawning.IsType1Iff` | Assets/Spawner.cs:77-81 | A name is of type 1 iff its lower-cased, spaceless form contains "type1". The first disjunct of the test adds nothing. |
| `Spawning.Type1WithSpace` | Assets/Spawner.cs:80 | "Type 1" is recognised as type 1. |
| `Spawning.Type1UpperCase` | Assets/Spawner.cs:79-80 | "TYPE1" is recognised as type 1. |
| `Spawning.Obstacle.Instantiate` | Assets/Spawner.cs:27-28 | The instance is at (spawner x, lane). It has the prefab's layers (root first), colliders and bodies. |
| `Spawning.LowestEnabledBottom` | Assets/Spawner.cs:32-37 | Gives None iff no collider is enabled. Otherwise gives the minimum world-space bottom over the enabled colliders: a lower bound that some enabled collider attains. Disabled colliders are ignored. |
| `Spawning.ShiftRestsOn` | Assets/Spawner.cs:37-38 | Moving the obstacle up by d moves its lowest enabled bottom up by d. So the shift `chosenY - bottom` puts that bottom exactly on the lane. |
| `Spawning.Spawner.PostSpawnFixups` | Assets/Spawner.cs:47-52 | Combines the three fix-ups that follow. |
| `Spawning.Spawner.ForceChildrenLayersToRoot` | Assets/Spawner.cs:54-59 | Every node of the tree, inactive ones included, gets the root's old layer. The root's own layer does not change. |
| `Spawning.Spawner.MakeAllCollidersTrigger` | Assets/Spawner.cs:61-65 | Every collider becomes a trigger. No other collider field changes. |
| `Spawning.Spawner.EnsureHasKinematicRB` | Assets/Spawner.cs:67-75 | A body is added only when none exists. The first body is set to kinematic, gravity 0, frozen rotation and continuous detection. The other bodies are unchanged. |
| `Contact.ResolveLayerIds` | Assets/PlayerCollision.cs:9-15 | Each of the four ids is the lookup of its layer name. With a valid table, each id is a layer in [0, 32) or -1 for a missing name. `ResolvedFromTable` gives distinctness. |
| `Contact.ResolvedFromTable` | Assets/PlayerCollision.cs:9-15 | When the project defines all four names, they resolve to four distinct valid layers. |
| `Contact.PlayerCollision.constructor` | Assets/PlayerCollision.cs:7 | The four layer ids start at 0, the integer default, until Awake looks them up. |
| `Contact.PlayerCollision.Awake` | Assets/PlayerCollision.cs:9-15 | The script's ids become the resolved ids. |
| `Contact.PlayerCollision.OnTriggerEnter2D` | Assets/PlayerCollision.cs:17-24 | The player is destroyed iff (me, other) is (Player-light, Obstacle-light) or (Player-shadow, Obstacle-shadow). Otherwise nothing changes. The ignored pairs are not touched. |
| `Contact.PlayerCollision.OnCollisionEnter2D` | Assets/PlayerCollision.cs:26-41 | When the colours differ (PL/OS or PS/OL), the ignored-pair set grows by exactly (each player collider, the contacted collider). Otherwise it is unchanged. The player is never destroyed here. |
| `Contact.IsLethalTrigger` | Assets/PlayerCollision.cs:19-20 | A lethal trigger contact is always with an obstacle layer. `ExactlyOneRule` and `NonObstacleIgnored` state its meaning over the four layers. |
| `Contact.IgnoresOnCollision` | Assets/PlayerCollision.cs:28-36 | Only a player layer ever ignores a solid contact. `MismatchImpliesObstacle` and `ExactlyOneRule` state the rest of its meaning. |
| `Contact.MismatchImpliesObstacle` | Assets/PlayerCollision.cs:31-36 | The `isObstacle` guard is implied by the mismatch test. |
| `Contact.ExactlyOneRule` | Assets/PlayerCollision.cs:19-36 | With four distinct layers, every (player layer, obstacle layer) pairing is exactly one of "trigger-lethal" or "solid-ignored". Lethal means same colour. |
| `Contact.NonObstacleIgnored` | Assets/PlayerCollision.cs:17-41 | A contact with any non-obstacle layer (ground, an unresolved id) is neither lethal nor ignored. |
| `LayerEnforcement.EnforcedLayers` | Assets/Physics2DLayerEnforcer.cs:12-16 | If a name is missing, the matrix is unchanged. Otherwise (PS, OS) and (PL, OL) are suppressed in both orders. No other entry changes. |
| `LayerEnforcement.Awake` | Assets/Physics2DLayerEnforcer.cs:5-19 | The matrix becomes `EnforcedLayers` of the old matrix and stays symmetric. Collider pairs are untouched. When all names resolve, both entries the script logs read as suppressed. |
| `LayerEnforcement.EnforceIdempotent` | Assets/Physics2DLayerEnforcer.cs:15-16 | Running the script twice gives the same matrix as running it once. |
| `LayerEnforcement.MismatchedPairsKept` | Assets/Physics2DLayerEnforcer.cs:14-16 | The pairs (PL, OS) and (PS, OL) keep their earlier setting. |
| `LayerEnforcement.MissingNameKeepsLethal` | Assets/Physics2DLayerEnforcer.cs:12 | With a layer name missing, a lethal pair that was not suppressed before stays unsuppressed. |
| `LayerEnforcement.EnforcePreservesSymmetry` | Assets/Physics2DLayerEnforcer.cs:15-16 | A symmetric matrix stays symmetric. |
| `LayerEnforcement.LethalPairsNeverRaised` | Assets/Physics2DLayerEnforcer.cs:15-16 | In a world whose matrix the script has enforced, no contact the engine still raises is one the trigger rule calls lethal. The converse is not claimed. |
| `LayerEnforcement.EveryPairSuppressed` | Assets/Physics2DLayerEnforcer.cs:12-16 | For a solid obstacle collider, every player-layer × obstacle-layer pairing ends up suppressed. Same-colour pairs are suppressed by the matrix. Different-colour pairs are suppressed by the per-collider ignore after their first solid contact, which trigger colliders never raise. |
| `FormSwitching.Toggled` | Assets/PlayerFormSwitcher.cs:46 | A toggle always changes the form. |
| `FormSwitching.ToggleTwice` | Assets/PlayerFormSwitcher.cs:46 | Toggling twice restores the form. |
| `FormSwitching.LayerNameFor` | Assets/PlayerFormSwitcher.cs:52 | Light uses `lightLayerName`; Shadow uses `shadowLayerName`. |
| `FormSwitching.CooldownGate` | Assets/PlayerFormSwitcher.cs:39-42 | A toggle happens iff the key is down and now ≥ `_nextToggle`. It then sets `_nextToggle` to now + `toggleCooldown`. Otherwise `_nextToggle` stays. |
| `FormSwitching.TogglesSpaced` | Assets/PlayerFormSwitcher.cs:37-44 | Over any run of frames, key-driven toggles are at least `toggleCooldown` apart. The first is no earlier than the starting `_nextToggle`. |
| `FormSwitching.PlayerFormSwitcher.constructor` | Assets/PlayerFormSwitcher.cs:10-27 | With the settings configured on the component, the initial form is Light and `_nextToggle` starts at 0. |
| `FormSwitching.PlayerFormSwitcher.Default` | Assets/PlayerFormSwitcher.cs:10-27 | The default settings are cooldown 0.15, the layers Player-light and Player-shadow, white and (0, 0, 0, 0.9), tinting on and no renderers. The form is Light and `_nextToggle` is 0. |
| `FormSwitching.PlayerFormSwitcher.FormColor` | Assets/PlayerFormSwitcher.cs:59 | Light uses `lightColor`; Shadow uses `shadowColor`. |
| `FormSwitching.PlayerFormSwitcher.Awake` | Assets/PlayerFormSwitcher.cs:29-33 | An empty `visuals` is replaced by the renderers found in the subtree. A non-empty one is kept. |
| `FormSwitching.PlayerFormSwitcher.Start` | Assets/PlayerFormSwitcher.cs:35 | Applies the current form without effects. |
| `FormSwitching.PlayerFormSwitcher.Update` | Assets/PlayerFormSwitcher.cs:37-44 | The form toggles, and its layer and tint are applied, exactly when `CooldownGate` allows. Otherwise neither the tree nor the renderers change. |
| `FormSwitching.PlayerFormSwitcher.ToggleForm` | Assets/PlayerFormSwitcher.cs:46 | The form becomes the other form and is applied. |
| `FormSwitching.PlayerFormSwitcher.SetForm` | Assets/PlayerFormSwitcher.cs:48 | `CurrentForm` becomes f even when the layer lookup then fails. |
| `FormSwitching.PlayerFormSwitcher.ApplyForm` | Assets/PlayerFormSwitcher.cs:50-64 | When the lookup gives -1, neither layers nor tints change. Otherwise every node of the subtree gets the layer. With `useTint`, every non-null renderer gets the form's colour and null entries are skipped. |
| `FormSwitching.PlayerFormSwitcher.SetLayerRecursively` | Assets/PlayerFormSwitcher.cs:77-81 | Every object of the subtree gets the layer. Nothing else changes. |
| `GameState.FloorToInt` | Assets/SimpleGameManager.cs:274-277 | The score n is the floor: n ≤ t < n + 1. |
| `GameState.TogglePauseSpec` | Assets/SimpleGameManager.cs:218-236 | A no-op once the game is over. Otherwise it flips the pause, with time scale 0 when paused and 1 when not. The other fields are kept. |
| `GameState.GameOverSpec` | Assets/SimpleGameManager.cs:238-243 | Afterwards the game is over. A running game gets time scale 0; an ended game is left alone. Pause and survival time are kept. |
| `GameState.GameOverIdempotent` | Assets/SimpleGameManager.cs:238-243 | Calling GameOver twice is the same as calling it once. |
| `GameState.UpdateSpec` | Assets/SimpleGameManager.cs:38-55 | A frame neither ends nor starts the game, and changes nothing once the game is over. `OnePauseKeyToggles`, `NoPauseKeyKeepsPause`, `BothPauseKeysCancel`, `UpdateSurvivalTime`, `OverIsFinal` and `SurvivalTimeMonotone` state its meaning case by case. |
| `GameState.OnePauseKeyToggles` | Assets/SimpleGameManager.cs:40-48 | In a running game, a frame with exactly one of Escape and P flips the pause flag, with time scale 0 when paused and 1 when not. |
| `GameState.NoPauseKeyKeepsPause` | Assets/SimpleGameManager.cs:40-48 | A frame with neither key keeps the pause flag and the time scale. |
| `GameState.UpdateSurvivalTime` | Assets/SimpleGameManager.cs:50-54 | Survival time grows by exactly dt when the game is started, not paused and not over. Otherwise it is unchanged. |
| `GameState.BothPauseKeysCancel` | Assets/SimpleGameManager.cs:40-48 | Escape and P in the same frame leave the pause flag where it was. |
| `GameState.OverIsFinal` | Assets/SimpleGameManager.cs:38-54 | Once the game is over, no sequence of frames, pause toggles or game-overs changes the state. The game stays over, and the pause flag, survival time and time scale keep their values. |
| `GameState.TimeStopsForGood` | Assets/SimpleGameManager.cs:218-243 | After GameOver ends a running game, the time scale stays 0 whatever follows. |
| `GameState.SurvivalTimeMonotone` | Assets/SimpleGameManager.cs:50-54 | With non-negative frame durations, survival time never decreases. |
| `GameState.SimpleGameManager.constructor` | Assets/SimpleGameManager.cs:8-12 | The game starts unpaused and not over, with survival time 0. |
| `GameState.SimpleGameManager.Awake` | Assets/SimpleGameManager.cs:20-30 | The manager becomes `Instance` when there is none, or when the current one's game object has been destroyed (the engine's null test). Otherwise it destroys its own game object and leaves `Instance` as it was. |
| `GameState.SimpleGameManager.Start` | Assets/SimpleGameManager.cs:32-36 | The game is marked as started. |
| `GameState.SimpleGameManager.Update` | Assets/SimpleGameManager.cs:38-55 | The new state is `UpdateSpec` of the old one. |
| `GameState.SimpleGameManager.TogglePause` | Assets/SimpleGameManager.cs:218-236 | The new state is `TogglePauseSpec` of the old one. |
| `GameState.SimpleGameManager.GameOver` | Assets/SimpleGameManager.cs:238-259 | The new state is `GameOverSpec` of the old one. When the screen has the final-score text, it shows the floor of the survival time. |
| `GameState.SimpleGameManager.GetSurvivalTime` | Assets/SimpleGameManager.cs:269-272 | Returns the survival time. |
| `GameState.SimpleGameManager.GetScore` | Assets/SimpleGameManager.cs:274-277 | The score is the whole number of seconds survived: score ≤ t < score + 1. |
| `Movement.Step` | Assets/PlayerMovement.cs:21-60 | The grounded flag is the frame's ground check. `TakeOff`, `HoldJump`, `ReleaseOverrides` and `IdleFrameKeepsJump` cover the jump sections case by case. `ResetOnlyOnRelease`, `CrouchHeight`, `ScaleXZKept` and the timer-bound lemmas state the rest of its meaning. |
| `Movement.IdleFrameKeepsJump` | Assets/PlayerMovement.cs:26-46 | A frame with no take-off, no held climb and no release keeps `isJumping`, `jumpTimer` and the velocity. |
| `Movement.ResetOnlyOnRelease` | Assets/PlayerMovement.cs:26-46 | Without a release, the jump timer is kept or grows by exactly dt. Only a release resets it. |
| `Movement.TakeOff` | Assets/PlayerMovement.cs:26-40 | Grounded with jump pressed, vertical velocity becomes `jumpForce`. Since the timer is not reset on take-off, the jump survives the same frame's hold check only when the timer is below `jumpTime`. |
| `Movement.HoldJump` | Assets/PlayerMovement.cs:32-40 | Holding while jumping: below `jumpTime`, the climb continues and the timer grows by dt. Otherwise `isJumping` becomes false and the timer is unchanged. |
| `Movement.ReleaseOverrides` | Assets/PlayerMovement.cs:42-46 | Releasing jump leaves `isJumping` false and `jumpTimer` 0, whatever the earlier branches did that frame. |
| `Movement.CrouchHeight` | Assets/PlayerMovement.cs:49-59 | Releasing crouch gives scale y = 1. Otherwise, grounded with crouch held gives `crouchHeight`, or 1 while jumping. In every other case scale y is kept. |
| `Movement.ScaleXZKept` | Assets/PlayerMovement.cs:49-59 | Scale x and z never change. |
| `Movement.StepKeepsTimerBounded` | Assets/PlayerMovement.cs:32-46 | For frames no longer than maxDt, one step keeps the jump timer ≥ 0. It also keeps the timer either 0 or below `jumpTime` + maxDt. |
| `Movement.RunKeepsTimerBounded` | Assets/PlayerMovement.cs:21-60 | Over any run of such frames, the jump timer stays bounded in the same way. |
| `Movement.PlayerMovement.constructor` | Assets/PlayerMovement.cs:5-19 | The settings are the ones configured on the component, and the velocity and scale come from the scene. The player is neither grounded nor jumping, and the timer is 0. |
| `Movement.PlayerMovement.Default` | Assets/PlayerMovement.cs:6-19 | The default settings are `jumpForce` 10, `jumpTime` 0.3 and `crouchHeight` 0.5. The player is neither grounded nor jumping, and the timer is 0. |
| `Movement.PlayerMovement.Update` | Assets/PlayerMovement.cs:21-60 | The new state is `Step` of the old one. |

## Left out

- `Time.timeScale` belongs to the engine and is shared by everything in the game. The model
  keeps it as a field of each manager and assumes it is 1 when the manager is created. The other
  scripts receive their frame durations as parameters, so the model does not tie those durations
  to the time scale (a time scale of 0 makes them 0 in the engine).
- User interface: building the canvas, texts and screens, updating the score text, and showing
  or hiding the pause and game-over screens. This is presentation only. `GameOver` records the
  final score it would show.
- The squash effect of the form switch, a frame-by-frame scale tween. `ApplyForm` takes its
  `doFx` flag but starts nothing.
- Engine services are inputs or abstract effects: the ground check, transform syncing,
  instantiation, destruction, name-to-layer lookup, logging and the time scale. Destroying an
  object only sets its `destroyed` flag. The contact filter is a predicate in `Engine`.
- Random draws are index parameters that must lie within the drawn range.
- Input polling: key and button states are per-frame booleans.
- Floating point: time, positions and speeds are `real`, so no rounding is modelled. The spawner
  folds the lowest bottom from `float.MaxValue` down. The model uses `None` as the start value
  instead, so a collider whose bottom is at or above `float.MaxValue` counts here, where the
  source would ignore it.
- `Spawning.ToLowerInvariant`: lower-cases only the ASCII letters A to Z. The source's
  invariant-culture lower-casing also maps other Unicode letters.
- `Spawning.Obstacle`: the rigid bodies are the ones the engine's search finds from an active
  root, in search order. Bodies on inactive objects, and a root that is inactive, are not
  modelled.
- The ignored collider pairs are stored in the order the script passes them. Symmetry is
  expressed by `Engine.CollisionIgnored`.
- `Assets/SimpleInputHandler.cs` is not part of this model. It forwards P to `TogglePause`, so
  with it present P toggles twice per frame.
