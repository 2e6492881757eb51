/** The player and its guarded horizontal steps (`movePlayer`). */
module Motion {
  import opened Geometry

  /** The player's box and its per-step speed. */
  datatype Player = Player(x: real, y: real, width: real, height: real, speed: real)

  /** The box the overlap test uses for the player. */
  function Box(p: Player): (r: Rect)
    ensures r.x == p.x && r.y == p.y && r.width == p.width && r.height == p.height
  {
    Rect(p.x, p.y, p.width, p.height)
  }

  /** The player after one `movePlayer` call: a left step if the left key is
      held and x > 0, then a right step if the right key is held and the right
      edge, taken after the left step, is still inside the canvas. */
  function Moved(p: Player, leftKey: bool, rightKey: bool, canvasWidth: real): Player
  {
    var afterLeft := if leftKey && p.x > 0.0 then p.(x := p.x - p.speed) else p;
    if rightKey && afterLeft.x + afterLeft.width < canvasWidth
    then afterLeft.(x := afterLeft.x + afterLeft.speed)
    else afterLeft
  }

  /** Only x changes, and only by -speed, 0 or +speed; with no key held nothing changes. */
  lemma MovedFrame(p: Player, leftKey: bool, rightKey: bool, canvasWidth: real)
    ensures var q := Moved(p, leftKey, rightKey, canvasWidth);
            q == p.(x := q.x) && (q.x == p.x - p.speed || q.x == p.x || q.x == p.x + p.speed)
    ensures !leftKey && !rightKey ==> Moved(p, leftKey, rightKey, canvasWidth) == p
  {
  }

  /** With only the left key held, the step is taken exactly when x > 0. */
  lemma MovedLeftOnly(p: Player, canvasWidth: real)
    ensures Moved(p, true, false, canvasWidth).x == if p.x > 0.0 then p.x - p.speed else p.x
  {
  }

  /** With only the right key held, the step is taken exactly when the right edge is inside the canvas. */
  lemma MovedRightOnly(p: Player, canvasWidth: real)
    ensures Moved(p, false, true, canvasWidth).x ==
            if p.x + p.width < canvasWidth then p.x + p.speed else p.x
  {
  }

  /** The right guard reads the x left by the left step: with both keys held the
      two steps cancel even when the right edge started outside the canvas. */
  lemma RightGuardSeesLeftStep(p: Player, canvasWidth: real)
    requires p.x > 0.0 && p.x + p.width >= canvasWidth && p.x - p.speed + p.width < canvasWidth
    ensures Moved(p, true, true, canvasWidth).x == p.x
  {
  }

  /** The guards do not keep the player on the canvas: a left step from x = 1
      with speed 5 ends at x = -4. */
  lemma LeftStepCanOvershoot()
    ensures Moved(Player(1.0, 0.0, 70.0, 60.0, 5.0), true, false, 800.0).x == -4.0
  {
  }
}
