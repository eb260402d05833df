/**
 * The entity registry: a map from entity id to entity, updated in place.
 * Registration overwrites on an id collision and removal of an absent id
 * is silently ignored.
 */
module EntityManagement {
  import opened Entities

  class EntityManager {
    var entities: map<string, Player>

    constructor ()
      ensures entities == map[]
    {
      entities := map[];
    }

    /** Constructs a player at (`x`, `y`) at clock reading `stamp` and registers it. */
    method SpawnPlayer(stamp: nat, x: int, y: int) returns (player: Player)
      modifies this
      ensures fresh(player)
      ensures player.id == PlayerId(stamp)
      ensures player.x == x && player.y == y && player.position == Common.Vec(x, y)
      ensures player.velocity == Common.Vec(0, 0) && player.depth == 10
      ensures player.textureKey == Gameplay.PLAYER_SPRITE
      ensures player.bodyVelocity == Common.Some(Common.Vec(0, 0))
      ensures player.HasInitialStats()
      ensures entities == old(entities)[player.id := player]
      ensures player.id in entities && entities[player.id] == player
    {
      player := new Player(stamp, x, y);
      entities := entities[player.id := player];
    }

    /** Maps `entity.id` to `entity`, replacing whatever was there. */
    method RegisterEntity(entity: Player)
      modifies this
      ensures entities == old(entities)[entity.id := entity]
      ensures entities.Keys == old(entities).Keys + {entity.id}
      ensures forall k :: k in old(entities) && k != entity.id ==> entities[k] == old(entities)[k]
    {
      entities := entities[entity.id := entity];
    }

    /** Deletes the entry under `id`, if any. */
    method RemoveEntity(id: string)
      modifies this
      ensures entities == old(entities) - {id}
      ensures id !in old(entities) ==> entities == old(entities)
    {
      entities := entities - {id};
    }

    /** The entity registered under `id`, or null when there is none. */
    method GetEntity(id: string) returns (entity: Player?)
      ensures id in entities ==> entity == entities[id]
      ensures id !in entities ==> entity == null
    {
      entity := if id in entities then entities[id] else null;
    }

    /** Deactivates `entity` and deletes the entry under its id. */
    method RecycleEntity(entity: Player)
      modifies this, entity`active
      ensures !entity.active
      ensures entity.id !in entities
      ensures entities == old(entities) - {entity.id}
    {
      entity.active := false;
      entities := entities - {entity.id};
    }
  }

  /** The lazily created process-wide registry. */
  class EntityManagerSingleton {
    var instance: EntityManager?

    constructor ()
      ensures instance == null
    {
      instance := null;
    }

    /** The current registry, created empty on first use. */
    method GetInstance() returns (manager: EntityManager)
      modifies this
      ensures instance == manager
      ensures old(instance) != null ==> manager == old(instance)
      ensures old(instance) == null ==> fresh(manager) && manager.entities == map[]
    {
      if instance == null {
        instance := new EntityManager();
      }
      manager := instance;
    }

    /** Discards the registry; the next `GetInstance` creates a new one. */
    method ResetInstance()
      modifies this
      ensures instance == null
    {
      instance := null;
    }
  }
}
