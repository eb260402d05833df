/**
 * The game scene: it holds the three process-wide managers, creates the
 * player on entry, syncs it every frame while it is active, and takes it
 * out of both registries on teardown.
 */
module GameScenes {
  import opened Common
  import opened Gameplay
  import opened Entities
  import opened EntityManagement
  import opened RenderLayers
  import opened GameStateStore

  const PLAYERS_LAYER: string := "players"

  /** Horizontal centre of the canvas. */
  const SPAWN_X: int := GAME_WIDTH / 2

  /** 80 pixels above the bottom edge of the canvas. */
  const SPAWN_Y: int := GAME_HEIGHT - 80

  class GameScene {
    var player: Player?
    const entityManager: EntityManager
    const stateManager: StateManager
    const renderManager: RenderManager

    /** Captures the current instance of each manager, creating those that do not exist yet. */
    constructor (entities: EntityManagerSingleton, states: StateManagerSingleton,
                 renders: RenderManagerSingleton)
      modifies entities, states, renders
      ensures player == null
      ensures entityManager == entities.instance && stateManager == states.instance
              && renderManager == renders.instance
      ensures old(entities.instance) != null ==> entityManager == old(entities.instance)
      ensures old(entities.instance) == null ==> fresh(entityManager) && entityManager.entities == map[]
      ensures old(states.instance) != null ==> stateManager == old(states.instance)
      ensures old(states.instance) == null ==> fresh(stateManager) && stateManager.gameState == map[]
      ensures old(renders.instance) != null ==> renderManager == old(renders.instance)
      ensures old(renders.instance) == null ==> fresh(renderManager) && renderManager.layers == map[]
    {
      var em := entities.GetInstance();
      var sm := states.GetInstance();
      var rm := renders.GetInstance();
      entityManager, stateManager, renderManager := em, sm, rm;
      player := null;
    }

    /**
     * Resets the game state, spawns the player (clock reading `stamp`) at
     * the centre-bottom spawn point and adds it to the `players` layer.
     */
    method Create(stamp: nat)
      modifies this, stateManager, entityManager, renderManager
      ensures stateManager.gameState == RESET_STATE && ScoreOf(stateManager.gameState) == Num(0)
      ensures player != null && fresh(player)
      ensures player.x == SPAWN_X == 400 && player.y == SPAWN_Y == 520
      ensures player.position == Vec(400, 520) && player.velocity == Vec(0, 0)
      ensures player.depth == 10 && player.textureKey == PLAYER_SPRITE && player.HasInitialStats()
      ensures player.bodyVelocity == Some(Vec(0, 0))
      ensures player.id == PlayerId(stamp)
      ensures entityManager.entities == old(entityManager.entities)[player.id := player]
      ensures renderManager.layers == AddedTo(old(renderManager.layers), PLAYERS_LAYER, player)
      ensures player !in old(LayerOf(renderManager.layers, PLAYERS_LAYER))
      ensures LayerOf(renderManager.layers, PLAYERS_LAYER)
              == old(LayerOf(renderManager.layers, PLAYERS_LAYER)) + [player]
      ensures old(LayerOf(renderManager.layers, PLAYERS_LAYER)) == [] ==>
                LayerOf(renderManager.layers, PLAYERS_LAYER) == [player]
    {
      stateManager.Reset();
      var p := entityManager.SpawnPlayer(stamp, SPAWN_X, SPAWN_Y);
      player := p;
      renderManager.AddToLayer(PLAYERS_LAYER, p);
    }

    /** Per-frame tick: syncs the player exactly when it exists and is active. */
    method Update(time: int, delta: int)
      modifies player
      ensures player == old(player)
      ensures player != null ==>
                player.x == old(player.x) && player.y == old(player.y)
                && player.bodyVelocity == old(player.bodyVelocity) && player.depth == old(player.depth)
                && player.textureKey == old(player.textureKey)
                && player.active == old(player.active) && player.isAlive == old(player.isAlive)
                && player.fuel == old(player.fuel) && player.lives == old(player.lives)
                && player.maxSpeed == old(player.maxSpeed) && player.currentSpeed == old(player.currentSpeed)
      ensures player != null && old(player.active) ==>
                player.position == Vec(player.x, player.y)
                && (player.bodyVelocity.Some? ==> player.velocity == player.bodyVelocity.value)
                && (player.bodyVelocity.None? ==> player.velocity == old(player.velocity))
      ensures player != null && !old(player.active) ==> unchanged(player)
    {
      if player != null && player.active {
        player.Update(delta);
      }
    }

    /**
     * Teardown: takes the player out of the `players` layer, recycles it
     * and drops the reference; without a player nothing changes. Recycling
     * only clears `active`: the player is not destroyed, so it stays alive
     * and keeps every other field.
     */
    method Destroy()
      modifies this, renderManager, entityManager, player
      ensures player == null
      ensures old(player) == null ==> unchanged(renderManager, entityManager)
      ensures old(player) != null ==>
                renderManager.layers == RemovedFrom(old(renderManager.layers), PLAYERS_LAYER, old(player))
                && entityManager.entities == old(entityManager.entities) - {old(player).id}
                && !old(player).active
      ensures old(player) != null ==>
                old(player).isAlive == old(player.isAlive)
                && old(player).position == old(player.position) && old(player).velocity == old(player.velocity)
                && old(player).fuel == old(player.fuel) && old(player).lives == old(player.lives)
                && old(player).maxSpeed == old(player.maxSpeed)
                && old(player).currentSpeed == old(player.currentSpeed)
                && old(player).x == old(player.x) && old(player).y == old(player.y)
                && old(player).depth == old(player.depth) && old(player).textureKey == old(player.textureKey)
                && old(player).bodyVelocity == old(player.bodyVelocity)
    {
      if player != null {
        renderManager.RemoveFromLayer(PLAYERS_LAYER, player);
        entityManager.RecycleEntity(player);
        player := null;
      }
    }
  }

  /**
   * The first part of the set-up before each integration test: the three
   * singletons are reset, whatever they held, and a scene is built on them,
   * so it gets fresh empty managers. The scenarios below add the scene's
   * `Create` step.
   */
  method NewSceneOnFreshManagers(entities: EntityManagerSingleton, states: StateManagerSingleton,
                                 renders: RenderManagerSingleton) returns (scene: GameScene)
    modifies entities, states, renders
    ensures fresh(scene) && fresh(scene.entityManager) && fresh(scene.stateManager)
            && fresh(scene.renderManager)
    ensures scene.entityManager == entities.instance && scene.stateManager == states.instance
            && scene.renderManager == renders.instance
    ensures scene.player == null && scene.entityManager.entities == map[]
            && scene.stateManager.gameState == map[] && scene.renderManager.layers == map[]
  {
    entities.ResetInstance();
    states.ResetInstance();
    renders.ResetInstance();
    scene := new GameScene(entities, states, renders);
  }

  /**
   * Scene entry after the set-up, then one tick: the player is at the spawn
   * point with depth 10 and the player texture, it is what the registry
   * gives for its id, the `players` layer holds just it, and the score is 0.
   */
  method PlayerRenderingScenario(entities: EntityManagerSingleton, states: StateManagerSingleton,
                                 renders: RenderManagerSingleton, stamp: nat)
    returns (scene: GameScene, p: Player)
    modifies entities, states, renders
    ensures fresh(scene) && fresh(p) && scene.player == p
    ensures p.x == 400 && p.y == 520 && p.depth == 10 && p.textureKey == PLAYER_SPRITE && p.active
    ensures p.position == Vec(400, 520)
    ensures p.id in scene.entityManager.entities && scene.entityManager.entities[p.id] == p
    ensures LayerOf(scene.renderManager.layers, PLAYERS_LAYER) == [p]
    ensures ScoreOf(scene.stateManager.gameState) == Num(0)
  {
    scene := NewSceneOnFreshManagers(entities, states, renders);
    var again := entities.GetInstance();
    assert again == scene.entityManager;
    scene.Create(stamp);
    p := scene.player;
    assert scene.renderManager.layers == map[PLAYERS_LAYER := [p]];
    var found := scene.entityManager.GetEntity(p.id);
    assert found == p;
    var layer := scene.renderManager.GetLayer(PLAYERS_LAYER);
    assert layer == [p];
    var score := scene.stateManager.GetScore();
    assert score == Num(0);

    scene.Update(0, 16);
  }

  /**
   * Scene entry after the set-up, then teardown: the id is no longer
   * registered, the `players` layer is empty, the player is inactive (but,
   * not being destroyed, still alive) and the scene has no player; a second
   * teardown and a tick then change nothing.
   */
  method TeardownScenario(entities: EntityManagerSingleton, states: StateManagerSingleton,
                          renders: RenderManagerSingleton, stamp: nat)
    returns (scene: GameScene, p: Player)
    modifies entities, states, renders
    ensures fresh(scene) && fresh(p) && scene.player == null
    ensures p.id !in scene.entityManager.entities
    ensures LayerOf(scene.renderManager.layers, PLAYERS_LAYER) == []
    ensures !p.active && p.isAlive
  {
    scene := NewSceneOnFreshManagers(entities, states, renders);
    scene.Create(stamp);
    p := scene.player;
    assert scene.renderManager.layers == map[PLAYERS_LAYER := [p]];

    scene.Destroy();
    assert p.isAlive && !p.active;
    assert RemoveFirst([p], p) == [];
    assert scene.renderManager.layers == map[PLAYERS_LAYER := []];
    assert scene.entityManager.entities == map[];
    var found := scene.entityManager.GetEntity(p.id);
    assert found == null;
    var layer := scene.renderManager.GetLayer(PLAYERS_LAYER);
    assert layer == [];

    var layersBefore := scene.renderManager.layers;
    var entitiesBefore := scene.entityManager.entities;
    scene.Destroy();
    assert scene.renderManager.layers == layersBefore;
    assert scene.entityManager.entities == entitiesBefore;
    scene.Update(16, 16);
    assert !p.active;
  }
}
