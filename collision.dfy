/** The integer tests and reflections of the ball against the paddles and
    the walls (Pong.java:179-224). */
module Collision {
  import opened JavaInt
  import opened Constants

  /** The ball, met on a paddle's contact line at row `collisionPoint`, is
      returned by a paddle centred at `paddle` (Pong.java:181-182, 199-200):
      the band is symmetric about the paddle centre and reaches just short of
      HEIGHT + TOLERANCE on either side. */
  predicate InBand(collisionPoint: int, paddle: int)
    ensures InBand(collisionPoint, paddle) <==> Abs(collisionPoint - paddle) < HEIGHT + TOLERANCE
  {
    paddle - HEIGHT - TOLERANCE < collisionPoint && collisionPoint < paddle + HEIGHT + TOLERANCE
  }

  /** Ball row and vertical speed after the top check (Pong.java:215-218)
      and then the bottom check (Pong.java:221-224). */
  function WallReflect(y: int, vy: int, height: int): (r: (int, int))
    ensures RADIUS < y < height - RADIUS ==> r == (y, vy)
    ensures height > 2 * RADIUS && y <= RADIUS && 2 * RADIUS - y < height - RADIUS ==>
              r == (2 * RADIUS - y, Abs(vy))
    ensures height > 2 * RADIUS && y >= height - RADIUS ==>
              r == (2 * (height - RADIUS) - y, -Abs(vy))
    ensures height > 2 * RADIUS && 3 * RADIUS - height <= y <= 2 * height - 3 * RADIUS ==>
              RADIUS <= r.0 <= height - RADIUS
  {
    var (y1, vy1) := if y <= RADIUS then (2 * RADIUS - y, Abs(vy)) else (y, vy);
    if y1 >= height - RADIUS then (2 * (height - RADIUS) - y1, -1 * Abs(vy1)) else (y1, vy1)
  }
}
