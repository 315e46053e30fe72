/** The game's fixed dimensions, in pixels and frames (Pong.java:23-32). */
module Constants {
  /** Ball radius. */
  const RADIUS := 10
  /** Launch speed of a serve; the serve itself is not part of this model. */
  const START_SPEED := 9
  /** Frames between two speed-ups; the speed-up is not part of this model. */
  const ACCELERATION := 125
  /** Largest step a paddle makes in one frame. */
  const SPEED := 12
  /** Half the height of a paddle. */
  const HEIGHT := 50
  /** Width of a paddle. */
  const WIDTH := 20
  /** Slack around a paddle within which the ball still counts as returned. */
  const TOLERANCE := 5
  /** Gap between a paddle and its side of the playfield. */
  const PADDING := 10

  /** The x coordinate of the ball's centre when it touches the left paddle. */
  const LEFT_LINE := PADDING + WIDTH + RADIUS

  /** The x coordinate of the ball's centre when it touches the right paddle. */
  function RightLine(width: int): (x: int)
    ensures width - x == LEFT_LINE
  {
    width - PADDING - WIDTH - RADIUS
  }
}
