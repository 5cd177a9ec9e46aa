/** Constants shared by the play scene: the canvas size configured in
    src/index.js and the fixed numbers of src/scenes/PlayScene.js. */
module Common {

  /** Height of the game canvas in pixels. */
  const HEIGHT: int := 600

  /** Number of upper/lower pipe pairs kept alive at any time. */
  const PIPES_TO_RENDER: nat := 4

  /** Number of pipe sprites in the pool: one upper and one lower per pair. */
  const PIPE_SPRITES: nat := 2 * PIPES_TO_RENDER

  /** Smallest distance between a pipe end and the top or bottom edge. */
  const PIPE_MARGIN: int := 20

  /** Speed given to the bird by a flap (applied upwards). */
  const FLAP_VELOCITY: int := 300

  /** Seconds counted down after the game is resumed. */
  const COUNTDOWN_SECONDS: int := 3

  /** Math.max on two integers. */
  function Max(a: int, b: int): (m: int)
    ensures m >= a && m >= b
    ensures m == a || m == b
  {
    if a >= b then a else b
  }
}
