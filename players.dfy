/** A paddle and the player steering it (Player.java). */
module Players {

  /** The four control modes (Player.java:12-15). */
  const CPU_EASY := 0
  const CPU_HARD := 1
  const MOUSE := 2
  const KEYBOARD := 3

  predicate IsPlayerType(t: int) {
    t == CPU_EASY || t == CPU_HARD || t == MOUSE || t == KEYBOARD
  }

  /** A human steers the paddle: it moves whatever the ball does. */
  predicate IsHuman(t: int) {
    t == MOUSE || t == KEYBOARD
  }

  /** The control mode a Player ends up with for a requested one: any value
      outside 0..3 is replaced by CPU_EASY, any other is kept. */
  function NormalizeType(t: int): (r: int)
    ensures IsPlayerType(r)
    ensures 0 <= t <= 3 ==> r == t
    ensures !(0 <= t <= 3) <==> (r == CPU_EASY && t != CPU_EASY)
  {
    if t < 0 || t > 3 then CPU_EASY else t
  }

  class Player {
    /** The control mode; private and without a setter in the source, so a
        `const` here: nothing can change it after construction. */
    const kind: int
    /** Vertical centre of the paddle. */
    var position: int
    /** Predicted intercept, steered to by a CPU_HARD paddle. */
    var destination: int
    /** Score. */
    var points: int

    predicate Valid() {
      IsPlayerType(kind)
    }

    constructor (t: int)
      ensures Valid() && kind == NormalizeType(t)
      ensures position == 0 && destination == 0 && points == 0
    {
      var chosen := t;
      if chosen < 0 || chosen > 3 {
        chosen := CPU_EASY;
      }
      kind := chosen;
      position := 0;
      destination := 0;
      points := 0;
    }

    function GetType(): (r: int)
      requires Valid()
      ensures r == kind && IsPlayerType(r)
    {
      kind
    }
  }
}
