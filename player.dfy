/**
 * The player entity. The rendering engine's side of the sprite is kept as
 * plain fields: the engine transform (`x`, `y`), the render depth, the
 * texture key and the velocity of the physics body, if there is one.
 */
module Entities {
  import opened Common
  import Gameplay

  const PLAYER_ID_PREFIX: string := "player_"

  /**
   * The id a player constructed at clock reading `stamp` milliseconds gets:
   * `player_` followed by the decimal text of the reading.
   */
  function PlayerId(stamp: nat): (id: string)
    ensures IsPlayerId(id)
    ensures id[|PLAYER_ID_PREFIX|..] == NatToDecimal(stamp)
  {
    var id := PLAYER_ID_PREFIX + NatToDecimal(stamp);
    assert id[|PLAYER_ID_PREFIX|..] == NatToDecimal(stamp);
    id
  }

  /** `player_` followed by one or more decimal digits. */
  predicate IsPlayerId(id: string) {
    |id| > |PLAYER_ID_PREFIX| && id[..|PLAYER_ID_PREFIX|] == PLAYER_ID_PREFIX
    && AllDigits(id[|PLAYER_ID_PREFIX|..])
  }

  /**
   * Ids are the clock reading in disguise: two players get the same id
   * exactly when they are constructed in the same millisecond.
   */
  lemma PlayerIdCollision(s: nat, t: nat)
    ensures PlayerId(s) == PlayerId(t) <==> s == t
  {
    if PlayerId(s) == PlayerId(t) {
      DecimalInjective(s, t);
    }
  }

  class Player {
    // entity state
    const id: string
    var position: Vec
    var velocity: Vec
    var active: bool
    // player state
    var fuel: int
    var maxSpeed: int
    var currentSpeed: int
    var lives: int
    var isAlive: bool
    // engine side of the sprite
    var x: int
    var y: int
    var depth: int
    var textureKey: string
    var bodyVelocity: Option<Vec>

    /** The fixed player values every new player starts with. */
    predicate HasInitialStats()
      reads this
    {
      fuel == 100 && maxSpeed == 300 && currentSpeed == 0 && lives == 3
      && isAlive && active
    }

    /**
     * A player created at (`x0`, `y0`) at clock reading `stamp`. Attaching
     * the sprite to the scene's physics gives it a body at rest.
     */
    constructor (stamp: nat, x0: int, y0: int)
      ensures id == PlayerId(stamp) && IsPlayerId(id)
      ensures x == x0 && y == y0 && textureKey == Gameplay.PLAYER_SPRITE
      ensures position == Vec(x0, y0) && velocity == Vec(0, 0)
      ensures HasInitialStats()
      ensures depth == 10
      ensures bodyVelocity == Some(Vec(0, 0))
    {
      x, y, textureKey := x0, y0, Gameplay.PLAYER_SPRITE;
      id := PlayerId(stamp);
      position := Vec(x0, y0);
      velocity := Vec(0, 0);
      active := true;
      fuel := 100;
      maxSpeed := 300;
      currentSpeed := 0;
      lives := 3;
      isAlive := true;
      bodyVelocity := Some(Vec(0, 0));
      depth := 10;
    }

    /**
     * Per-frame sync from the engine into the entity: the position always,
     * the velocity only when there is a body with a velocity. Nothing is
     * written back to the engine and no other field changes.
     */
    method Update(delta: int)
      modifies this`position, this`velocity
      ensures position == Vec(x, y)
      ensures bodyVelocity.Some? ==> velocity == bodyVelocity.value
      ensures bodyVelocity.None? ==> velocity == old(velocity)
    {
      position := position.(x := x);
      position := position.(y := y);
      if bodyVelocity.Some? {
        velocity := velocity.(x := bodyVelocity.value.x);
        velocity := velocity.(y := bodyVelocity.value.y);
      }
    }

    /** Marks the player inactive and dead; nothing else changes. */
    method Destroy()
      modifies this`active, this`isAlive
      ensures !active && !isAlive
    {
      active := false;
      isAlive := false;
    }
  }
}
