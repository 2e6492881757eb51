/** The whole game state as a value and one tick of the game loop as a
    function of it, composed from one function per operation in the order
    `update` calls them. The imperative methods in module Dodge are proved to
    change the game object exactly as these functions say. */
module Loop {
  import opened Geometry
  import opened Obstacles
  import opened Shield
  import opened Motion
  import opened Ramping

  /** The inputs one tick reads from outside: the three key flags, the clock in
      milliseconds, the spawn roll in [0, 1) and the random draws the
      placement loop would make in turn. */
  datatype Tick = Tick(leftKey: bool, rightKey: bool, aKey: bool, now: int, spawnRoll: real, xDraws: seq<real>)

  /** The game's mutable globals (the canvas size is fixed and passed separately). */
  datatype State = State(
    player: Player,
    obstacles: seq<Rect>,
    knobs: Difficulty,
    score: nat,
    highScore: int,
    gameOver: bool,
    lastTime: int,
    defense: Defense)

  /** What every tick and every restart keeps. */
  ghost predicate Good(s: State)
  {
    && Inv(s.defense)
    && Disjoint(s.obstacles)
    && s.player.speed >= 2.0
  }

  /** Player speed from a random draw in [0, 1): a value in [5, 12). */
  function SpeedFromDraw(draw: real): (speed: real)
    requires 0.0 <= draw < 1.0
    ensures 5.0 <= speed < 12.0
  {
    draw * (12.0 - 5.0) + 5.0
  }

  /** The state at page load; `storedHighScore` is the value already read from the store. */
  function Initial(canvasWidth: real, canvasHeight: real, speedDraw: real, storedHighScore: int, now: int): State
    requires 0.0 <= speedDraw < 1.0
  {
    State(Player(canvasWidth / 3.0, canvasHeight - 100.0, 70.0, 60.0, SpeedFromDraw(speedDraw)),
          [], InitialDifficulty, 0, storedHighScore, false, now, Idle)
  }

  /** `movePlayer`. */
  function AfterMove(s: State, leftKey: bool, rightKey: bool, canvasWidth: real): State
  {
    s.(player := Moved(s.player, leftKey, rightKey, canvasWidth))
  }

  /** `moveObstacles`. */
  function AfterFall(s: State, canvasHeight: real): State
  {
    s.(obstacles := Advance(s.obstacles, s.knobs.obstacleSpeed, canvasHeight))
  }

  /** `detectCollision`: a hit with the shield down ends the game and raises the
      high score to the current score if that is larger. */
  function AfterCollide(s: State): State
  {
    if !s.defense.active && HitsAny(Box(s.player), s.obstacles) then
      s.(gameOver := true, highScore := if s.score > s.highScore then s.score else s.highScore)
    else s
  }

  /** `increaseDifficulty` at time `now`. */
  function AfterRamp(s: State, now: int): State
  {
    var r := Ramp(s.knobs, s.player.speed, s.lastTime, s.score, now);
    s.(knobs := r.knobs, player := s.player.(speed := r.playerSpeed), lastTime := r.lastTime)
  }

  /** `updateDefense`. */
  function AfterShield(s: State, aKey: bool): State
  {
    s.(defense := Step(s.defense, aKey))
  }

  /** The spawn roll and `createObstacle`, using the parameters as the ramp left them. */
  function AfterSpawn(s: State, spawnRoll: real, xDraws: seq<real>, canvasWidth: real): State
  {
    if spawnRoll < s.knobs.obstacleFrequency then
      match FirstFit(s.obstacles, xDraws, canvasWidth, s.knobs.obstacleWidth, s.knobs.obstacleHeight)
      case Some(o) => s.(obstacles := s.obstacles + [o])
      case None => s
    else s
  }

  /** `update`: nothing once the game is over; otherwise every step in order,
      then one more point. */
  function Next(s: State, t: Tick, canvasWidth: real, canvasHeight: real): State
  {
    if s.gameOver then s
    else
      var s1 := AfterMove(s, t.leftKey, t.rightKey, canvasWidth);
      var s2 := AfterFall(s1, canvasHeight);
      var s3 := AfterCollide(s2);
      var s4 := AfterRamp(s3, t.now);
      var s5 := AfterShield(s4, t.aKey);
      var s6 := AfterSpawn(s5, t.spawnRoll, t.xDraws, canvasWidth);
      s6.(score := s6.score + 1)
  }

  /** The assignments of `resetGame`, before the tick it ends with. */
  function Restarted(s: State, canvasWidth: real, canvasHeight: real, speedDraw: real, now: int): State
    requires 0.0 <= speedDraw < 1.0
  {
    State(s.player.(x := canvasWidth / 2.0, y := canvasHeight - 100.0, speed := SpeedFromDraw(speedDraw)),
          [], ResetDifficulty, 0, s.highScore, false, now, Idle)
  }

  /** `resetGame`: the assignments, then one call of `update`. */
  function Reset(s: State, canvasWidth: real, canvasHeight: real, speedDraw: real, now: int, t: Tick): State
    requires 0.0 <= speedDraw < 1.0
  {
    Next(Restarted(s, canvasWidth, canvasHeight, speedDraw, now), t, canvasWidth, canvasHeight)
  }

  lemma InitialGood(canvasWidth: real, canvasHeight: real, speedDraw: real, storedHighScore: int, now: int)
    requires 0.0 <= speedDraw < 1.0
    ensures Good(Initial(canvasWidth, canvasHeight, speedDraw, storedHighScore, now))
  {
  }

  lemma AfterFallGood(s: State, canvasHeight: real)
    requires Good(s)
    ensures Good(AfterFall(s, canvasHeight))
  {
    AdvanceKeepsDisjoint(s.obstacles, s.knobs.obstacleSpeed, canvasHeight);
  }

  lemma AfterRampGood(s: State, now: int)
    requires Good(s)
    ensures Good(AfterRamp(s, now))
  {
    RampKeepsPlayerSpeed(s.knobs, s.player.speed, s.lastTime, s.score, now);
  }

  lemma AfterShieldGood(s: State, aKey: bool)
    requires Good(s)
    ensures Good(AfterShield(s, aKey))
  {
    StepKeepsInv(s.defense, aKey);
  }

  lemma AfterSpawnGood(s: State, spawnRoll: real, xDraws: seq<real>, canvasWidth: real)
    requires Good(s)
    ensures Good(AfterSpawn(s, spawnRoll, xDraws, canvasWidth))
  {
    FirstFitKeepsDisjoint(s.obstacles, xDraws, canvasWidth, s.knobs.obstacleWidth, s.knobs.obstacleHeight);
  }

  /** Every tick keeps the obstacles pairwise disjoint, the shield counters
      consistent and the player's speed at least 2. */
  lemma NextGood(s: State, t: Tick, canvasWidth: real, canvasHeight: real)
    requires Good(s)
    ensures Good(Next(s, t, canvasWidth, canvasHeight))
  {
    if !s.gameOver {
      var s1 := AfterMove(s, t.leftKey, t.rightKey, canvasWidth);
      var s2 := AfterFall(s1, canvasHeight);
      AfterFallGood(s1, canvasHeight);
      var s3 := AfterCollide(s2);
      var s4 := AfterRamp(s3, t.now);
      AfterRampGood(s3, t.now);
      var s5 := AfterShield(s4, t.aKey);
      AfterShieldGood(s4, t.aKey);
      AfterSpawnGood(s5, t.spawnRoll, t.xDraws, canvasWidth);
    }
  }

  /** A finished game does not change; a running one gains exactly one point,
      also on the tick in which it ends. */
  lemma NextScore(s: State, t: Tick, canvasWidth: real, canvasHeight: real)
    ensures s.gameOver ==> Next(s, t, canvasWidth, canvasHeight) == s
    ensures !s.gameOver ==> Next(s, t, canvasWidth, canvasHeight).score == s.score + 1
  {
  }

  /** A running game ends exactly when the shield was down at the start of the
      tick and the moved player overlaps an obstacle after the fall. */
  lemma NextGameOver(s: State, t: Tick, canvasWidth: real, canvasHeight: real)
    requires !s.gameOver
    ensures Next(s, t, canvasWidth, canvasHeight).gameOver <==>
            !s.defense.active &&
            HitsAny(Box(Moved(s.player, t.leftKey, t.rightKey, canvasWidth)),
                    Advance(s.obstacles, s.knobs.obstacleSpeed, canvasHeight))
  {
  }

  /** The high score changes only on the tick that ends the game, and then
      becomes the larger of itself and the score before that tick's point. */
  lemma NextHighScore(s: State, t: Tick, canvasWidth: real, canvasHeight: real)
    ensures var r := Next(s, t, canvasWidth, canvasHeight);
            r.highScore == if r.gameOver && !s.gameOver then (if s.score > s.highScore then s.score else s.highScore)
                           else s.highScore
    ensures Next(s, t, canvasWidth, canvasHeight).highScore >= s.highScore
  {
  }

  /** After a tick the obstacles are the fallen survivors, in order, and at most one new one. */
  lemma NextObstacles(s: State, t: Tick, canvasWidth: real, canvasHeight: real)
    requires !s.gameOver
    ensures var fallen := Advance(s.obstacles, s.knobs.obstacleSpeed, canvasHeight);
            var r := Next(s, t, canvasWidth, canvasHeight).obstacles;
            |fallen| <= |r| <= |fallen| + 1 && r[..|fallen|] == fallen
  {
    var fallen := Advance(s.obstacles, s.knobs.obstacleSpeed, canvasHeight);
    var r := Next(s, t, canvasWidth, canvasHeight).obstacles;
    assert r == fallen || (|r| == |fallen| + 1 && r[..|fallen|] == fallen);
  }

  /** The difficulty parameters never go down during a game. */
  lemma NextDifficultyMonotone(s: State, t: Tick, canvasWidth: real, canvasHeight: real)
    ensures var k := Next(s, t, canvasWidth, canvasHeight).knobs;
            && k.obstacleSpeed >= s.knobs.obstacleSpeed && k.obstacleFrequency >= s.knobs.obstacleFrequency
            && k.obstacleWidth >= s.knobs.obstacleWidth && k.obstacleHeight >= s.knobs.obstacleHeight
  {
    if !s.gameOver {
      var s3 := AfterCollide(AfterFall(AfterMove(s, t.leftKey, t.rightKey, canvasWidth), canvasHeight));
      RampMonotone(s3.knobs, s3.player.speed, s3.lastTime, s3.score, t.now);
    }
  }

  /** After a restart the game runs again with score 1 (the restart ends with
      a tick), the restart difficulty, at most one obstacle, the shield as one
      call leaves an idle one, and the high score kept. */
  lemma ResetState(s: State, canvasWidth: real, canvasHeight: real, speedDraw: real, now: int, t: Tick)
    requires 0.0 <= speedDraw < 1.0
    ensures var r := Reset(s, canvasWidth, canvasHeight, speedDraw, now, t);
            && !r.gameOver && r.score == 1 && r.highScore == s.highScore
            && r.knobs == ResetDifficulty && |r.obstacles| <= 1
            && r.defense == Step(Idle, t.aKey)
            && r.player == Moved(Player(canvasWidth / 2.0, canvasHeight - 100.0, s.player.width, s.player.height,
                                        SpeedFromDraw(speedDraw)), t.leftKey, t.rightKey, canvasWidth)
  {
    var s0 := Restarted(s, canvasWidth, canvasHeight, speedDraw, now);
    assert Advance(s0.obstacles, s0.knobs.obstacleSpeed, canvasHeight) == [];
  }

  lemma ResetGood(s: State, canvasWidth: real, canvasHeight: real, speedDraw: real, now: int, t: Tick)
    requires 0.0 <= speedDraw < 1.0
    ensures Good(Reset(s, canvasWidth, canvasHeight, speedDraw, now, t))
  {
    NextGood(Restarted(s, canvasWidth, canvasHeight, speedDraw, now), t, canvasWidth, canvasHeight);
  }

  /** What happens between two frames: a tick of the loop, or the Enter key
      (which restarts only a finished game). */
  datatype Event = Frame(t: Tick) | Enter(speedDraw: real, now: int, t: Tick)

  predicate Draws(events: seq<Event>)
  {
    forall i :: 0 <= i < |events| ==> events[i].Enter? ==> 0.0 <= events[i].speedDraw < 1.0
  }

  /** The state after a run of events. */
  function Play(s: State, events: seq<Event>, canvasWidth: real, canvasHeight: real): State
    requires Draws(events)
    decreases |events|
  {
    if events == [] then s
    else
      var p := Play(s, events[..|events| - 1], canvasWidth, canvasHeight);
      match events[|events| - 1]
      case Frame(t) => Next(p, t, canvasWidth, canvasHeight)
      case Enter(d, now, t) => if p.gameOver then Reset(p, canvasWidth, canvasHeight, d, now, t) else p
  }

  /** Over any run of ticks and restarts, the high score never goes down and the
      state stays good. */
  lemma {:induction false} PlayKeepsHighScoreAndGood(s: State, events: seq<Event>, canvasWidth: real, canvasHeight: real)
    requires Draws(events) && Good(s)
    ensures Play(s, events, canvasWidth, canvasHeight).highScore >= s.highScore
    ensures Good(Play(s, events, canvasWidth, canvasHeight))
    decreases |events|
  {
    if events != [] {
      var init := events[..|events| - 1];
      assert Draws(init) by {
        forall i | 0 <= i < |init| ensures init[i].Enter? ==> 0.0 <= init[i].speedDraw < 1.0 {
          assert init[i] == events[i];
        }
      }
      PlayKeepsHighScoreAndGood(s, init, canvasWidth, canvasHeight);
      var p := Play(s, init, canvasWidth, canvasHeight);
      match events[|events| - 1]
      case Frame(t) =>
        NextHighScore(p, t, canvasWidth, canvasHeight);
        NextGood(p, t, canvasWidth, canvasHeight);
      case Enter(d, now, t) =>
        if p.gameOver {
          ResetState(p, canvasWidth, canvasHeight, d, now, t);
          ResetGood(p, canvasWidth, canvasHeight, d, now, t);
        }
    }
  }

  /** Every event of the run is a tick of the loop. */
  predicate AllFrames(events: seq<Event>)
  {
    forall i :: 0 <= i < |events| ==> events[i].Frame?
  }

  /** Over a run of ticks from a running game the score gains one point per
      tick for as long as the game runs and is frozen after the tick that ends
      it: it never exceeds the start plus the number of ticks, reaches exactly
      that while the game is still running, and a finished game stays finished. */
  lemma {:induction false} FramesScore(s: State, events: seq<Event>, canvasWidth: real, canvasHeight: real)
    requires AllFrames(events) && Draws(events)
    ensures var r := Play(s, events, canvasWidth, canvasHeight);
            && s.score <= r.score <= s.score + |events|
            && (!r.gameOver ==> r.score == s.score + |events|)
            && (s.gameOver ==> r == s)
    decreases |events|
  {
    if events != [] {
      var init := events[..|events| - 1];
      assert AllFrames(init) && Draws(init) by {
        forall i | 0 <= i < |init| ensures init[i] == events[i] {
        }
      }
      FramesScore(s, init, canvasWidth, canvasHeight);
      var p := Play(s, init, canvasWidth, canvasHeight);
      NextScore(p, events[|events| - 1].t, canvasWidth, canvasHeight);
    }
  }
}
