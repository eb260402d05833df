/** Shared gameplay constants. */
module Gameplay {

  /** Width of the game canvas in pixels. */
  const GAME_WIDTH: int := 800

  /** Height of the game canvas in pixels. */
  const GAME_HEIGHT: int := 600

  /** Texture key of the player's sprite. */
  const PLAYER_SPRITE: string := "player_sprite"
}
