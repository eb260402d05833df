# River Raid scaffold: entity, render-layer and game-state registries

This Dafny project models the coordination layer of a browser River Raid
clone. The layer has three process-wide registries, the player entity, and
the game scene that drives them:

- the **entity registry** (`EntityManager`) maps entity ids to entities;
- the **render layer registry** (`RenderManager`) maps layer names to
  ordered sequences of entity references;
- the **game state store** (`StateManager`) is a key/value map whose key
  `score` holds an additive score;
- the **player** (`Player`) holds its own position, velocity, fuel, speed,
  lives and flags, and syncs them one way from the rendering engine on
  every frame;
- the **game scene** (`GameScene`) does three things. On entry it resets the
  state, spawns the player at the centre-bottom spawn point (400, 520) and
  puts it in the `players` layer. While the player is active it syncs the
  player every tick. On teardown it takes the player out of both registries.

Each manager is a class whose methods update its map in place. Every
method's `ensures` gives the new map in terms of the old one. The lemmas
prove the promised properties about the functions that describe those maps:

- `RemoveFirst` is first-occurrence removal by reference.
- `AddedTo` and `RemovedFrom` give a layer map after an add or a remove.
- `ScoreOf`, `ScoreAdded` and `ScoresAdded` give the score and the state
  after one or more score updates.

The lazily created singletons are holder objects with an optional
`instance` field. The scene's constructor takes the three holders and calls
`GetInstance` on each.

Modules and files:

- `common.dfy` (`Common`): option, vectors, decimal text of numbers
- `gameplay.dfy` (`Gameplay`): canvas size and texture key
- `player.dfy` (`Entities`): the player and its id format
- `entity_manager.dfy` (`EntityManagement`)
- `render_manager.dfy` (`RenderLayers`)
- `state_manager.dfy` (`GameStateStore`)
- `game_scene.dfy` (`GameScenes`). It also holds three client methods that
  follow the player-rendering integration test step by step:
  `NewSceneOnFreshManagers`, `PlayerRenderingScenario` and
  `TeardownScenario`. They take the three singleton holders, in whatever
  state, as parameters.

Modelling choices:

- The clock reading `Date.now()` becomes a parameter `stamp: nat`. A
  player's id is `"player_"` followed by the decimal text of `stamp`.
- The engine side of the sprite is plain fields: the transform `x`/`y`,
  `depth`, `textureKey`, and `bodyVelocity`, which is `None` when there is
  no body with a velocity. Attaching the sprite to arcade physics gives it
  a body at rest, so a new player has `bodyVelocity == Some((0, 0))`.
- Stored state values are `Num`, `Text`, `Flag` or `Null`. `Falsy` follows
  JavaScript truthiness, which decides what `get('score') || 0` returns. On
  a truthy non-number score, `Plus` follows JavaScript's `+`: text is
  concatenated with the decimal text of the points, and `true` counts as 1.

## Model

| member | source | states |
|---|---|---|
| `Common.NatToDecimal` | apps/web/src/game/entities/Player.ts:19 | the text that stands for the timestamp in an id is non-empty and all decimal digits, with no leading zero |
| `Common.DecimalRoundTrip` | apps/web/src/game/entities/Player.ts:19 | reading the decimal text of a timestamp back gives the timestamp |
| `Common.DecimalInjective` | apps/web/src/game/entities/Player.ts:19 | two timestamps have the same decimal text exactly when they are equal |
| `Entities.PlayerId` | apps/web/src/game/entities/Player.ts:19 | the id of a player created at a clock reading is `player_` followed by one or more decimal digits (the unit test's `/^player_\d+$/`), and those digits are the reading's decimal text |
| `Entities.PlayerIdCollision` | apps/web/src/game/entities/Player.ts:19 | two players get the same id exactly when they are created at the same millisecond |
| `Entities.Player.constructor` | apps/web/src/game/entities/Player.ts:15-43 | engine x/y and `position` are the given point, velocity (0, 0), texture `player_sprite`, fuel 100, max speed 300, current speed 0, lives 3, alive and active, depth 10, a body at rest, id in `player_<digits>` form |
| `Entities.Player.Update` | apps/web/src/game/entities/Player.ts:45-56 | `position` becomes the engine's (x, y); `velocity` becomes the body velocity when there is one and is otherwise unchanged; only `position` and `velocity` may change |
| `Entities.Player.Destroy` | apps/web/src/game/entities/Player.ts:58-60 | `active` and `isAlive` become false; only those two fields may change |
| `EntityManagement.EntityManager.constructor` | apps/web/src/game/managers/EntityManager.ts:5 | a new registry is empty |
| `EntityManagement.EntityManager.SpawnPlayer` | apps/web/src/game/managers/EntityManager.ts:18-22 | returns a new player with the initial values, registered under its id (overwriting any earlier entry there); lookup of its id then gives it |
| `EntityManagement.EntityManager.RegisterEntity` | apps/web/src/game/managers/EntityManager.ts:24-26 | maps the entity's id to it, overwriting on collision; the key set grows by at most that id and all other entries are unchanged |
| `EntityManagement.EntityManager.RemoveEntity` | apps/web/src/game/managers/EntityManager.ts:28-30 | deletes that key only; for an absent id the registry is unchanged |
| `EntityManagement.EntityManager.GetEntity` | apps/web/src/game/managers/EntityManager.ts:32-34 | returns the registered entity, or null for an unregistered id, and changes nothing |
| `EntityManagement.EntityManager.RecycleEntity` | apps/web/src/game/managers/EntityManager.ts:36-39 | the entity becomes inactive and its id is no longer registered; every other id keeps its entry |
| `EntityManagement.EntityManagerSingleton.GetInstance` | apps/web/src/game/managers/EntityManager.ts:7-12 | returns the existing registry when there is one, otherwise a new empty one, which becomes the instance |
| `EntityManagement.EntityManagerSingleton.ResetInstance` | apps/web/src/game/managers/EntityManager.ts:14-16 | discards the instance, so that the next `GetInstance` creates a fresh empty registry |
| `RenderLayers.RemoveFirst` | apps/web/src/game/managers/RenderManager.ts:23-31 | removing an entity that is present shortens the layer by one; removing one that is absent leaves the layer as it was |
| `RenderLayers.RemoveFirstMultiset` | apps/web/src/game/managers/RenderManager.ts:26-28 | exactly one reference to the entity is removed and no other element |
| `RenderLayers.RemoveFirstAt` | apps/web/src/game/managers/RenderManager.ts:26-28 | splicing out the first occurrence found by `indexOf` is first-occurrence removal, and the other elements keep their order |
| `RenderLayers.RemoveFirstAfterAppend` | apps/web/src/game/managers/RenderManager.ts:16-31 | appending an entity not yet present and then removing it gives back the original sequence |
| `RenderLayers.RemoveFirstOfDuplicate` | apps/web/src/game/managers/RenderManager.ts:16-31 | after two appends of a new entity, one removal leaves one reference to it at the end |
| `RenderLayers.AddThenRemoveRestores` | apps/web/src/game/managers/RenderManager.ts:16-31 | add then remove of an entity not in layer `n` leaves every layer reading as before; a layer that was missing stays, empty |
| `RenderLayers.AddTwiceKeepsBoth` | apps/web/src/game/managers/RenderManager.ts:16-21 | duplicates are not rejected: adding the same entity twice puts two references to it at the end of the layer |
| `RenderLayers.IndexOf` | apps/web/src/game/managers/RenderManager.ts:26 | returns -1 exactly when the entity is absent; otherwise returns the index of its first reference |
| `RenderLayers.RenderManager.constructor` | apps/web/src/game/managers/RenderManager.ts:3 | a new layer registry has no layers |
| `RenderLayers.RenderManager.AddToLayer` | apps/web/src/game/managers/RenderManager.ts:16-21 | layer `n` becomes its old contents (empty if missing) followed by the entity; every other layer is unchanged |
| `RenderLayers.RenderManager.RemoveFromLayer` | apps/web/src/game/managers/RenderManager.ts:23-31 | layer `n` loses exactly the first reference to the entity (its length drops by one); a no-op when the layer is missing or lacks the entity; other layers unchanged |
| `RenderLayers.RenderManager.GetLayer` | apps/web/src/game/managers/RenderManager.ts:33-35 | returns the layer's contents, or empty for a missing layer, and creates nothing |
| `RenderLayers.RenderManagerSingleton.GetInstance` | apps/web/src/game/managers/RenderManager.ts:5-10 | returns the existing layer registry when there is one, otherwise a new empty one, which becomes the instance |
| `RenderLayers.RenderManagerSingleton.ResetInstance` | apps/web/src/game/managers/RenderManager.ts:12-14 | discards the instance |
| `GameStateStore.ScoresAddUp` | apps/web/src/game/managers/StateManager.ts:16-19 | from a numeric score, a run of updates moves the score by exactly their sum (negative ones included); no other key is touched |
| `GameStateStore.ScoresConcatenateOnText` | apps/web/src/game/managers/StateManager.ts:16-19 | a text score is never added to: JavaScript's `+` makes a run of updates append the decimal text of each update's points, in order, and the score stays text |
| `GameStateStore.ScoreExample` | apps/web/src/game/managers/StateManager.ts:16-23 | an unset score reads 0; +5 then -2 reads 3 |
| `GameStateStore.OrZeroCoalesces` | apps/web/src/game/managers/StateManager.ts:22 | the score's default to 0 gives 0 exactly when the stored value is falsy (`Falsy`: 0, empty text, false, null) and gives a truthy value back unchanged |
| `GameStateStore.StateManager.constructor` | apps/web/src/game/managers/StateManager.ts:3 | a new store is empty |
| `GameStateStore.StateManager.UpdateScore` | apps/web/src/game/managers/StateManager.ts:16-19 | writes the score plus the points under `score`, an unset or falsy score counting as 0; a numeric score changes by exactly the points; other keys unchanged |
| `GameStateStore.StateManager.GetScore` | apps/web/src/game/managers/StateManager.ts:21-23 | returns the score under `score`, or 0 when it was never set, and changes nothing |
| `GameStateStore.StateManager.SetState` | apps/web/src/game/managers/StateManager.ts:25-27 | stores the value under the key, all other keys unchanged; a number stored under `score` is what the score then reads |
| `GameStateStore.StateManager.GetState` | apps/web/src/game/managers/StateManager.ts:29-31 | returns the stored value, or absent for an unset key, and changes nothing |
| `GameStateStore.StateManager.Reset` | apps/web/src/game/managers/StateManager.ts:33-36 | afterwards the map is exactly `{score: 0}` |
| `GameStateStore.StateManagerSingleton.GetInstance` | apps/web/src/game/managers/StateManager.ts:5-10 | returns the existing store when there is one, otherwise a new empty one, which becomes the instance |
| `GameStateStore.StateManagerSingleton.ResetInstance` | apps/web/src/game/managers/StateManager.ts:12-14 | discards the instance |
| `GameScenes.GameScene.constructor` | apps/web/src/game/scenes/GameScene.ts:14-19 | the scene has no player and holds the current instance of each manager (a new empty one where none existed) |
| `GameScenes.GameScene.Create` | apps/web/src/game/scenes/GameScene.ts:21-33 | the state is exactly `{score: 0}`; a new player with the initial values stands at (GAME_WIDTH/2, GAME_HEIGHT-80) = (400, 520) with depth 10 and a body at rest, is registered under its id, and is appended to `players`, where it was not before; on fresh managers that layer is exactly that player |
| `GameScenes.GameScene.Update` | apps/web/src/game/scenes/GameScene.ts:47-51 | syncs position and velocity exactly when a player exists and is active; otherwise nothing changes; the engine fields (x, y, depth, texture, body velocity), stats and flags never change |
| `GameScenes.GameScene.Destroy` | apps/web/src/game/scenes/GameScene.ts:53-59 | with a player: removes its first reference from `players`, unregisters its id, marks it inactive and clears the reference, while the player stays alive and keeps every other field (it is recycled, not destroyed); without one, both registries are unchanged |
| `GameScenes.NewSceneOnFreshManagers` | apps/web/tests/integration/player-rendering.test.ts:79-86 | whatever the three singletons held before, after their reset a new scene holds fresh empty managers, which are the singletons' new instances, and no player |
| `GameScenes.PlayerRenderingScenario` | apps/web/tests/integration/player-rendering.test.ts:96-145 | after the set-up, scene entry and one tick: the player is at (400, 520) with depth 10 and the player texture, is what the registry gives for its id, is the only entry of `players`, and the score is 0 |
| `GameScenes.TeardownScenario` | apps/web/tests/integration/player-rendering.test.ts:147-155 | after the set-up, scene entry and teardown: the id is unregistered, `players` is empty, the player is inactive but alive, and the scene has no player (its body further asserts that a second teardown leaves both registries as they were and that a later tick leaves the player inactive) |

## Left out

- Engine calls are not modelled. These are `scene.add.existing`, `scene.physics.add.existing`, `body.setSize`, the sprite's own `super.destroy` (Player.ts:61), the game scene's `super({ key: SCENE_KEYS.GAME })` (GameScene.ts:15) and `super.destroy()` (GameScene.ts:60), and the two debug text objects in the game scene. The engine-side state is kept only as the fields listed above.
- The `scene` parameter of `spawnPlayer` and of the player constructor is not modelled. Its only use is the engine calls above.
- The player's optional `inputManager` parameter is not modelled; it is unused. The `delta` and `time` parameters are taken but unused, as in the source.
- `Date.now()` is a clock. Its reading is taken as a parameter, and id uniqueness is not claimed: `PlayerIdCollision` shows it fails for equal readings, in which case the registry overwrites.
- The entity registry and render layers hold `Player` objects only. The source accepts any value (`any`), with no check that it has an `id`, but `Player` is the only entity kind the code defines, and recycling needs its `active` field.
- `RenderLayers.RenderManager.GetLayer` returns the layer's contents as a value. For an existing layer the source hands back the live internal array, so changes made through that alias are not modelled.
- A player's `id` is modelled as fixed once the constructor assigns it. In the source it is a writable public field (Player.ts:5), but nothing in this code reassigns it.
- `position` and `velocity` are values (`Vec`), not shared records, so aliasing of those records is not modelled.
- Numbers are unbounded integers. Floating point, `NaN`, and stored values that are objects, arrays or `undefined` are not modelled.
- The singletons are modelled as explicit holder objects, not static fields: Dafny has no mutable static state.
- The boot scene, the engine configuration and the page entry point are not modelled. The boot scene is UI text, a loading bar and logging callbacks. The engine configuration registers only the boot scene. The page entry point is DOM wiring.
- No boot-to-game transition exists in the code, so none is modelled. The boot scene loads a data-URI image under the key `placeholder` (BootScene.ts:32); its key and timer callbacks only log (BootScene.ts:54-61).
