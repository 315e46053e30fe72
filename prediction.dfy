/** Where a CPU_HARD paddle expects the ball: `computeDestination`
    (Pong.java:61-78). The ball's course is projected in a straight line to
    the paddle's contact line, and the projection is folded back into the
    band the ball's centre can occupy. The fold is proved here to be exactly
    the result of bouncing off the top and bottom walls. */
module Prediction {
  import opened JavaInt
  import opened Constants

  /** Reference: a point on a line between two reflecting walls at `lo` and
      `hi`, reflected until it lies between them. */
  function Bounce(y: int, lo: int, hi: int): (r: int)
    requires lo < hi
    ensures lo <= r <= hi
    ensures lo <= y <= hi ==> r == y
    decreases if y > hi then y - hi else if y < lo then lo - y else 0
  {
    if y > hi then Bounce(2 * hi - y, lo, hi)
    else if y < lo then Bounce(2 * lo - y, lo, hi)
    else y
  }

  /** Bouncing `t` pixels past the lower wall, in a band of width `w`, in
      closed form: the quotient by `w` says whether the point travels up or
      down, the remainder how far along the band it is. */
  function Triangle(t: nat, w: int): int
    requires w > 0
  {
    if (t / w) % 2 == 0 then t % w else w - t % w
  }

  /** Triangle on the first period, case by case. */
  lemma TriangleFirstPeriod(t: nat, w: int)
    requires 0 < w && t <= 2 * w
    ensures Triangle(t, w) == if t <= w then t else 2 * w - t
  {
    if t < w {
      DivModUnique(t, w, 0, t);
    } else if t < 2 * w {
      DivModUnique(t, w, 1, t - w);
    } else {
      DivModUnique(t, w, 2, 0);
    }
  }

  /** Triangle repeats every two band widths. */
  lemma TrianglePeriodic(t: nat, w: int)
    requires 0 < w && t >= 2 * w
    ensures Triangle(t, w) == Triangle(t - 2 * w, w)
  {
    var q, r := t / w, t % w;
    DivModUnique(t, w, q, r);
    DivModUnique(t - 2 * w, w, q - 2, r);
  }

  lemma {:induction false} BounceClosedForm(t: nat, lo: int, hi: int)
    requires lo < hi
    ensures Bounce(lo + t, lo, hi) == lo + Triangle(t, hi - lo)
    decreases t
  {
    var w := hi - lo;
    if t <= 2 * w {
      TriangleFirstPeriod(t, w);
      if t > w {
        assert Bounce(lo + t, lo, hi) == Bounce(lo + (2 * w - t), lo, hi);
      }
    } else {
      TrianglePeriodic(t, w);
      assert Bounce(lo + t, lo, hi) == Bounce(lo + (2 * w - t), lo, hi);
      assert Bounce(lo + (2 * w - t), lo, hi) == Bounce(lo + (t - 2 * w), lo, hi);
      BounceClosedForm(t - 2 * w, lo, hi);
    }
  }

  /** The horizontal distance the ball still covers before its centre
      reaches the contact line it travels toward. */
  function Travel(ballX: int, vx: int, width: int): int {
    if vx > 0 then RightLine(width) - ballX else ballX - LEFT_LINE
  }

  /** The straight-line projection of Pong.java:62-65: the ball's row when
      its centre reaches the contact line of the paddle it travels toward,
      using Java's truncating `(dx * vy) / vx`. It is the exact crossing row
      `ballY + travel * vy / |vx|` rounded toward the ball's own row: it
      falls short of the exact course by less than one pixel and never goes
      beyond it, in either direction of travel. */
  function Projection(ballX: int, ballY: int, vx: int, vy: int, width: int): (p: int)
    requires vx != 0
    ensures var e := p - ballY;
            var a := Travel(ballX, vx, width) * vy;
            Abs(e * Abs(vx)) <= Abs(a) &&
            Abs(a - e * Abs(vx)) < Abs(vx) &&
            (a >= 0 ==> a - e * Abs(vx) >= 0) &&
            (a <= 0 ==> a - e * Abs(vx) <= 0)
  {
    if vx > 0 then ballY + Div((RightLine(width) - ballX) * vy, vx)
    else
      var a := (ballX - LEFT_LINE) * vy;
      assert -Div(a, vx) * Abs(vx) == Div(a, vx) * vx;
      ballY - Div(a, vx)
  }

  /** The mirror at the top wall (Pong.java:67-68) followed by the fold at
      the bottom (Pong.java:70-77), with Java's `/` and `%`. */
  function Fold(d: int, height: int): (r: int)
    requires height != 2 * RADIUS
    ensures height > 2 * RADIUS ==> RADIUS <= r <= height - RADIUS
  {
    var d1 := if d <= RADIUS then 2 * PADDING - d else d;
    if d1 > height - 10 then
      var t := d1 - RADIUS;
      var span := height - 2 * RADIUS;
      (if Rem(Div(t, span), 2) == 0 then Rem(t, span) else span - Rem(t, span)) + RADIUS
    else d1
  }

  /** The value `computeDestination` stores in `player.destination`; it
      always lies where the ball's centre can be. */
  function Destination(ballX: int, ballY: int, vx: int, vy: int, width: int, height: int): (r: int)
    requires vx != 0 && height != 2 * RADIUS
    ensures height > 2 * RADIUS ==> RADIUS <= r <= height - RADIUS
  {
    Fold(Projection(ballX, ballY, vx, vy, width), height)
  }

  /** The mirror-and-modulo fold is wall bouncing: whenever the playfield is
      taller than the ball, folding a row gives what reflecting it off the
      walls at RADIUS and height - RADIUS gives. */
  lemma FoldIsBounce(d: int, height: int)
    requires height > 2 * RADIUS
    ensures Fold(d, height) == Bounce(d, RADIUS, height - RADIUS)
  {
    var lo, hi := RADIUS, height - RADIUS;
    var d1 := if d <= RADIUS then 2 * PADDING - d else d;
    assert Bounce(d, lo, hi) == Bounce(d1, lo, hi);
    if d1 > height - 10 {
      var t := d1 - RADIUS;
      var span := height - 2 * RADIUS;
      DivRemNonNegative(t, span);
      DivRemNonNegative(t / span, 2);
      assert Fold(d, height) == Triangle(t, span) + RADIUS;
      BounceClosedForm(t, lo, hi);
    }
  }

  /** The predicted intercept is the wall-bounced straight-line projection. */
  lemma DestinationIsBouncedProjection(ballX: int, ballY: int, vx: int, vy: int, width: int, height: int)
    requires vx != 0 && height > 2 * RADIUS
    ensures Destination(ballX, ballY, vx, vy, width, height)
            == Bounce(Projection(ballX, ballY, vx, vy, width), RADIUS, height - RADIUS)
  {
    FoldIsBounce(Projection(ballX, ballY, vx, vy, width), height);
  }

  /** A projection that already lies strictly below the top line and no
      lower than height - 10 is kept as it is. */
  lemma DestinationKeepsProjection(ballX: int, ballY: int, vx: int, vy: int, width: int, height: int)
    requires vx != 0 && height != 2 * RADIUS
    requires RADIUS < Projection(ballX, ballY, vx, vy, width) <= height - 10
    ensures Destination(ballX, ballY, vx, vy, width, height) == Projection(ballX, ballY, vx, vy, width)
  {
  }
}
