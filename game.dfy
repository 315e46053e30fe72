/** The game state and the integer parts of a frame (Pong.java).

    Every double-valued speed of the source is held here as its truncation
    `(int)ball_x_speed`, `(int)ball_y_speed`: that is the only form in which
    the modelled code reads it as a number, and truncation commutes with
    `Math.abs` and with negation, so the reflections below act on it exactly.
    The window's width, height and mouse row are parameters of the methods
    that query them. */
module Game {
  import opened JavaInt
  import opened Constants
  import opened Players
  import opened Paddle
  import opened Prediction
  import opened Collision

  /** java.awt.event.KeyEvent.VK_UP and VK_DOWN. */
  const VK_UP := 38
  const VK_DOWN := 40

  class Pong {
    const player1: Player
    const player2: Player

    var newGame: bool
    var ballX: int
    var ballY: int
    var ballXSpeed: int
    var ballYSpeed: int

    var mouseInside: bool
    var keyUp: bool
    var keyDown: bool

    ghost predicate Valid()
      reads this, player1, player2
    {
      player1 != player2 && player1.Valid() && player2.Valid() &&
      player1.points >= 0 && player2.points >= 0
    }

    constructor (p1Type: int, p2Type: int)
      ensures Valid() && fresh(player1) && fresh(player2)
      ensures player1.kind == NormalizeType(p1Type) && player2.kind == NormalizeType(p2Type)
      ensures player1.position == 0 && player1.destination == 0 && player1.points == 0
      ensures player2.position == 0 && player2.destination == 0 && player2.points == 0
      ensures newGame && ballX == 0 && ballY == 0 && ballXSpeed == 0 && ballYSpeed == 0
      ensures !mouseInside && !keyUp && !keyDown
    {
      player1 := new Player(p1Type);
      player2 := new Player(p2Type);
      newGame := true;
      ballX, ballY, ballXSpeed, ballYSpeed := 0, 0, 0, 0;
      mouseInside, keyUp, keyDown := false, false, false;
    }

    /** Stores in `player.destination` the row where the ball, bouncing off
        the walls, meets the contact line it is heading for. */
    method ComputeDestination(player: Player, width: int, height: int)
      requires ballXSpeed != 0 && height != 2 * RADIUS
      modifies player`destination
      ensures player.destination == Destination(ballX, ballY, ballXSpeed, ballYSpeed, width, height)
      ensures height > 2 * RADIUS ==>
                player.destination == Bounce(Projection(ballX, ballY, ballXSpeed, ballYSpeed, width),
                                             RADIUS, height - RADIUS)
      ensures height > 2 * RADIUS ==> RADIUS <= player.destination <= height - RADIUS
    {
      if ballXSpeed > 0 {
        player.destination := ballY + Div((width - PADDING - WIDTH - RADIUS - ballX) * ballYSpeed, ballXSpeed);
      } else {
        player.destination := ballY - Div((ballX - PADDING - WIDTH - RADIUS) * ballYSpeed, ballXSpeed);
      }

      ghost var projected := player.destination;
      assert projected == Projection(ballX, ballY, ballXSpeed, ballYSpeed, width);

      if player.destination <= RADIUS {
        player.destination := 2 * PADDING - player.destination;
      }

      if player.destination > height - 10 {
        player.destination := player.destination - RADIUS;
        if Rem(Div(player.destination, height - 2 * RADIUS), 2) == 0 {
          player.destination := Rem(player.destination, height - 2 * RADIUS);
        } else {
          player.destination := height - 2 * RADIUS - Rem(player.destination, height - 2 * RADIUS);
        }
        player.destination := player.destination + RADIUS;
      }
      assert player.destination == Fold(projected, height);

      if height > 2 * RADIUS {
        DestinationIsBouncedProjection(ballX, ballY, ballXSpeed, ballYSpeed, width, height);
      }
    }

    /** One bounded step of `player` toward `destination`, then the clamp
        into the playfield; nothing at all when it is already there. */
    method MovePlayer(player: Player, destination: int, height: int)
      modifies player`position
      ensures player.position == PaddleStep(old(player.position), destination, height)
    {
      var distance := Abs(player.position - destination);

      if distance != 0 {
        var direction := Div(-(player.position - destination), distance);

        if distance > SPEED {
          distance := SPEED;
        }

        player.position := player.position + direction * distance;

        if player.position - HEIGHT < 0 {
          player.position := HEIGHT;
        }
        if player.position + HEIGHT > height {
          player.position := height - HEIGHT;
        }
      }
    }

    /** Moves `player` toward the target its control mode picks. */
    method ComputePosition(player: Player, mouseY: int, height: int)
      requires player.Valid()
      modifies player`position
      ensures player.position == PositionAfter(player.kind, mouseInside, keyUp, keyDown, mouseY,
                                               old(player.position), player.destination, ballY, height)
    {
      if player.GetType() == MOUSE {
        if mouseInside {
          MovePlayer(player, mouseY, height);
        }
      } else if player.GetType() == KEYBOARD {
        if keyUp && !keyDown {
          MovePlayer(player, player.position - SPEED, height);
        } else if keyDown && !keyUp {
          MovePlayer(player, player.position + SPEED, height);
        }
      } else if player.GetType() == CPU_HARD {
        MovePlayer(player, player.destination, height);
      } else if player.GetType() == CPU_EASY {
        MovePlayer(player, ballY, height);
      }
    }

    /** The paddle phase of a frame (Pong.java:155-160): a human paddle
        always moves, a CPU paddle only while the ball comes toward it. */
    method MovePaddles(mouseY: int, height: int)
      requires Valid()
      modifies player1`position, player2`position
      ensures Valid()
      ensures player1.position ==
                if IsHuman(player1.kind) || ballXSpeed < 0
                then PositionAfter(player1.kind, mouseInside, keyUp, keyDown, mouseY,
                                   old(player1.position), player1.destination, ballY, height)
                else old(player1.position)
      ensures player2.position ==
                if IsHuman(player2.kind) || ballXSpeed > 0
                then PositionAfter(player2.kind, mouseInside, keyUp, keyDown, mouseY,
                                   old(player2.position), player2.destination, ballY, height)
                else old(player2.position)
      ensures InPlayfield(old(player1.position), height) ==> InPlayfield(player1.position, height)
      ensures InPlayfield(old(player2.position), height) ==> InPlayfield(player2.position, height)
    {
      if player1.GetType() == MOUSE || player1.GetType() == KEYBOARD || ballXSpeed < 0 {
        ComputePosition(player1, mouseY, height);
      }
      if player2.GetType() == MOUSE || player2.GetType() == KEYBOARD || ballXSpeed > 0 {
        ComputePosition(player2, mouseY, height);
      }
    }

    /** The left edge (Pong.java:179-194). Once the ball reaches the left
        contact line, a paddle that covers `collisionPoint` sends it back; a
        miss scores a point for player 2 and asks for a new serve.
        `deflectedYSpeed` is the vertical speed after the paddle's
        deflection, a floating-point computation taken as given. */
    method CollideLeft(collisionPoint: int, deflectedYSpeed: int, width: int, height: int)
      requires Valid()
      requires player2.kind == CPU_HARD ==> ballXSpeed != 0 && height != 2 * RADIUS
      modifies this`ballX, this`ballXSpeed, this`ballYSpeed, this`newGame
      modifies player2`points, player2`destination
      ensures Valid()
      ensures ballY == old(ballY)
      ensures old(ballX) > LEFT_LINE ==>
                ballX == old(ballX) && ballXSpeed == old(ballXSpeed) && ballYSpeed == old(ballYSpeed) &&
                newGame == old(newGame) && player2.points == old(player2.points) &&
                player2.destination == old(player2.destination)
      ensures old(ballX) <= LEFT_LINE && InBand(collisionPoint, player1.position) ==>
                ballX == 2 * LEFT_LINE - old(ballX) && ballX >= LEFT_LINE &&
                ballXSpeed == Abs(old(ballXSpeed)) && ballXSpeed >= 0 &&
                ballYSpeed == deflectedYSpeed &&
                newGame == old(newGame) && player2.points == old(player2.points) &&
                player2.destination ==
                  (if player2.kind == CPU_HARD
                   then Destination(ballX, ballY, ballXSpeed, ballYSpeed, width, height)
                   else old(player2.destination))
      ensures old(ballX) <= LEFT_LINE && !InBand(collisionPoint, player1.position) ==>
                ballX == old(ballX) && ballXSpeed == old(ballXSpeed) && ballYSpeed == old(ballYSpeed) &&
                newGame && player2.points == old(player2.points) + 1 &&
                player2.destination == old(player2.destination)
    {
      if ballX <= PADDING + WIDTH + RADIUS {
        if collisionPoint > player1.position - HEIGHT - TOLERANCE &&
           collisionPoint < player1.position + HEIGHT + TOLERANCE {
          ballX := 2 * (PADDING + WIDTH + RADIUS) - ballX;
          ballXSpeed := Abs(ballXSpeed);
          ballYSpeed := deflectedYSpeed;
          if player2.GetType() == CPU_HARD {
            ComputeDestination(player2, width, height);
          }
        } else {
          player2.points := player2.points + 1;
          newGame := true;
        }
      }
    }

    /** The right edge (Pong.java:197-212), the mirror image of the left:
        a miss scores for player 1. */
    method CollideRight(collisionPoint: int, deflectedYSpeed: int, width: int, height: int)
      requires Valid()
      requires player1.kind == CPU_HARD ==> ballXSpeed != 0 && height != 2 * RADIUS
      modifies this`ballX, this`ballXSpeed, this`ballYSpeed, this`newGame
      modifies player1`points, player1`destination
      ensures Valid()
      ensures ballY == old(ballY)
      ensures old(ballX) < RightLine(width) ==>
                ballX == old(ballX) && ballXSpeed == old(ballXSpeed) && ballYSpeed == old(ballYSpeed) &&
                newGame == old(newGame) && player1.points == old(player1.points) &&
                player1.destination == old(player1.destination)
      ensures old(ballX) >= RightLine(width) && InBand(collisionPoint, player2.position) ==>
                ballX == 2 * RightLine(width) - old(ballX) && ballX <= RightLine(width) &&
                ballXSpeed == -Abs(old(ballXSpeed)) && ballXSpeed <= 0 &&
                ballYSpeed == deflectedYSpeed &&
                newGame == old(newGame) && player1.points == old(player1.points) &&
                player1.destination ==
                  (if player1.kind == CPU_HARD
                   then Destination(ballX, ballY, ballXSpeed, ballYSpeed, width, height)
                   else old(player1.destination))
      ensures old(ballX) >= RightLine(width) && !InBand(collisionPoint, player2.position) ==>
                ballX == old(ballX) && ballXSpeed == old(ballXSpeed) && ballYSpeed == old(ballYSpeed) &&
                newGame && player1.points == old(player1.points) + 1 &&
                player1.destination == old(player1.destination)
    {
      if ballX >= width - PADDING - WIDTH - RADIUS {
        if collisionPoint > player2.position - HEIGHT - TOLERANCE &&
           collisionPoint < player2.position + HEIGHT + TOLERANCE {
          ballX := 2 * (width - PADDING - WIDTH - RADIUS) - ballX;
          ballXSpeed := -1 * Abs(ballXSpeed);
          ballYSpeed := deflectedYSpeed;
          if player1.GetType() == CPU_HARD {
            ComputeDestination(player1, width, height);
          }
        } else {
          player1.points := player1.points + 1;
          newGame := true;
        }
      }
    }

    /** The top and bottom walls (Pong.java:215-224). */
    method CollideWalls(height: int)
      modifies this`ballY, this`ballYSpeed
      ensures (ballY, ballYSpeed) == WallReflect(old(ballY), old(ballYSpeed), height)
    {
      if ballY <= RADIUS {
        ballYSpeed := Abs(ballYSpeed);
        ballY := 2 * RADIUS - ballY;
      }
      if ballY >= height - RADIUS {
        ballYSpeed := -1 * Abs(ballYSpeed);
        ballY := 2 * (height - RADIUS) - ballY;
      }
    }

    method MouseEntered()
      modifies this`mouseInside
      ensures mouseInside
    {
      mouseInside := true;
    }

    method MouseExited()
      modifies this`mouseInside
      ensures !mouseInside
    {
      mouseInside := false;
    }

    /** Pressing UP or DOWN sets that key's flag; any other key does nothing. */
    method KeyPressed(keyCode: int)
      modifies this`keyUp, this`keyDown
      ensures keyUp == (old(keyUp) || keyCode == VK_UP)
      ensures keyDown == (old(keyDown) || keyCode == VK_DOWN)
    {
      if keyCode == VK_UP {
        keyUp := true;
      } else if keyCode == VK_DOWN {
        keyDown := true;
      }
    }

    /** Releasing UP or DOWN clears that key's flag; any other key does nothing. */
    method KeyReleased(keyCode: int)
      modifies this`keyUp, this`keyDown
      ensures keyUp == (old(keyUp) && keyCode != VK_UP)
      ensures keyDown == (old(keyDown) && keyCode != VK_DOWN)
    {
      if keyCode == VK_UP {
        keyUp := false;
      } else if keyCode == VK_DOWN {
        keyDown := false;
      }
    }
  }
}
