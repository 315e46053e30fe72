/** How a paddle moves in one frame: the bounded step of `movePlayer`
    (Pong.java:81-97) and the choice of where to step to made by
    `computePosition` (Pong.java:100-125), as functions of the values they
    read. The class in module Game performs them in place. */
module Paddle {
  import opened JavaInt
  import opened Constants
  import opened Players

  datatype Option<T> = None | Some(value: T)

  /** The step toward `destination` before clamping: at most SPEED pixels,
      never past the destination, and onto it when it is within reach. */
  function Approach(position: int, destination: int): (r: int)
    requires position != destination
    ensures Abs(r - position) == Min(Abs(position - destination), SPEED)
    ensures position < destination ==> position < r <= destination
    ensures destination < position ==> destination <= r < position
    ensures Abs(position - destination) <= SPEED ==> r == destination
  {
    var distance := Abs(position - destination);
    var direction := Div(-(position - destination), distance);
    assert direction == (if position < destination then 1 else -1);
    position + direction * Min(distance, SPEED)
  }

  /** The legal range of a paddle centre in a playfield of this height. */
  predicate InPlayfield(position: int, height: int) {
    HEIGHT <= position <= height - HEIGHT
  }

  /** The two successive clamps of Pong.java:92-95: first the top edge, then
      the bottom edge. When the playfield can hold a paddle the result is the
      point of the legal range nearest to `position`; when it cannot, the
      bottom clamp wins. */
  function ClampPaddle(position: int, height: int): (r: int)
    ensures height >= 2 * HEIGHT ==> InPlayfield(r, height)
    ensures InPlayfield(position, height) ==> r == position
    ensures height >= 2 * HEIGHT && position < HEIGHT ==> r == HEIGHT
    ensures position > height - HEIGHT ==> r == height - HEIGHT
    ensures height < 2 * HEIGHT ==> r == height - HEIGHT
  {
    var top := if position - HEIGHT < 0 then HEIGHT else position;
    if top + HEIGHT > height then height - HEIGHT else top
  }

  /** The new centre after `movePlayer(player, destination)`. A paddle
      already at its destination is left exactly where it is, unclamped. */
  function PaddleStep(position: int, destination: int, height: int): (r: int)
    ensures position == destination ==> r == position
    ensures position != destination && height >= 2 * HEIGHT ==> InPlayfield(r, height)
    ensures InPlayfield(position, height) ==> InPlayfield(r, height)
    ensures InPlayfield(position, height) ==> Abs(r - position) <= SPEED
  {
    if position == destination then position
    else ClampPaddle(Approach(position, destination), height)
  }

  /** Where `computePosition` sends a paddle of type `kind`, or None when it
      issues no move this frame. */
  function Target(kind: int, mouseInside: bool, keyUp: bool, keyDown: bool, mouseY: int,
                  position: int, destination: int, ballY: int): (t: Option<int>)
    ensures kind == MOUSE ==> t == (if mouseInside then Some(mouseY) else None)
    ensures kind == KEYBOARD ==> (t.None? <==> keyUp == keyDown)
    ensures kind == KEYBOARD && keyUp && !keyDown ==> t == Some(position - SPEED)
    ensures kind == KEYBOARD && keyDown && !keyUp ==> t == Some(position + SPEED)
    ensures kind == CPU_HARD ==> t == Some(destination)
    ensures kind == CPU_EASY ==> t == Some(ballY)
    ensures !IsPlayerType(kind) ==> t.None?
  {
    if kind == MOUSE then
      if mouseInside then Some(mouseY) else None
    else if kind == KEYBOARD then
      if keyUp && !keyDown then Some(position - SPEED)
      else if keyDown && !keyUp then Some(position + SPEED)
      else None
    else if kind == CPU_HARD then Some(destination)
    else if kind == CPU_EASY then Some(ballY)
    else None
  }

  /** The paddle centre after `computePosition`. */
  function PositionAfter(kind: int, mouseInside: bool, keyUp: bool, keyDown: bool, mouseY: int,
                         position: int, destination: int, ballY: int, height: int): (r: int)
    ensures kind == MOUSE && !mouseInside ==> r == position
    ensures kind == KEYBOARD && keyUp == keyDown ==> r == position
    ensures kind == CPU_HARD ==> r == PaddleStep(position, destination, height)
    ensures kind == CPU_EASY ==> r == PaddleStep(position, ballY, height)
    ensures InPlayfield(position, height) ==> InPlayfield(r, height)
  {
    match Target(kind, mouseInside, keyUp, keyDown, mouseY, position, destination, ballY)
    case None => position
    case Some(t) => PaddleStep(position, t, height)
  }

  /** A keyboard paddle inside the playfield moves by exactly SPEED per
      frame while one key is held, until it meets the edge. */
  lemma KeyboardStep(position: int, keyUp: bool, height: int, mouseInside: bool, mouseY: int,
                     destination: int, ballY: int)
    requires InPlayfield(position, height)
    ensures PositionAfter(KEYBOARD, mouseInside, keyUp, !keyUp, mouseY, position, destination, ballY, height)
            == if keyUp then (if position - SPEED < HEIGHT then HEIGHT else position - SPEED)
               else (if position + SPEED > height - HEIGHT then height - HEIGHT else position + SPEED)
  {
  }

  /** A CPU paddle never overshoots its target: it ends between where it was
      and where it aims, whenever both lie in the playfield. */
  lemma CpuStepBetween(position: int, target: int, height: int)
    requires InPlayfield(position, height) && InPlayfield(target, height)
    ensures var r := PaddleStep(position, target, height);
            (position <= target ==> position <= r <= target) &&
            (target <= position ==> target <= r <= position)
  {
    if position != target {
      var a := Approach(position, target);
      assert InPlayfield(a, height);
    }
  }
}
