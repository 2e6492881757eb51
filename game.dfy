/** The game's module-level globals as one object, and the operations that
    update them in place. Random draws, the clock and the key flags are passed
    in by the caller. Each method is proved to change the object exactly as
    the matching function of module Loop says. */
module Dodge {
  import opened Geometry
  import opened Obstacles
  import opened Shield
  import opened Motion
  import opened Ramping
  import opened Loop

  class Game {
    const canvasWidth: real
    const canvasHeight: real

    var player: Player
    var obstacles: seq<Rect>
    var obstacleWidth: real
    var obstacleHeight: real
    var obstacleSpeed: real
    var obstacleFrequency: real

    var score: nat
    var highScore: int
    /** The value last read from or written to the persistent store. */
    ghost var storedHighScore: int

    var gameOver: bool
    var lastTime: int

    var defenseActive: bool
    var defenseDuration: int
    var defenseCooldown: int

    /** The globals as a value. */
    function Snapshot(): State
      reads this
    {
      State(player, obstacles, Difficulty(obstacleSpeed, obstacleFrequency, obstacleWidth, obstacleHeight),
            score, highScore, gameOver, lastTime, Defense(defenseActive, defenseDuration, defenseCooldown))
    }

    ghost predicate Valid()
      reads this
    {
      Good(Snapshot()) && storedHighScore == highScore
    }

    /** Page load; `storedHighScore` is the value already read from the store. */
    constructor (width: real, height: real, speedDraw: real, storedHighScore: int, now: int)
      requires 0.0 <= speedDraw < 1.0
      ensures Valid()
      ensures canvasWidth == width && canvasHeight == height
      ensures Snapshot() == Initial(width, height, speedDraw, storedHighScore, now)
    {
      canvasWidth := width;
      canvasHeight := height;
      player := Player(width / 3.0, height - 100.0, 70.0, 60.0, SpeedFromDraw(speedDraw));
      obstacles := [];
      obstacleWidth := 50.0;
      obstacleHeight := 50.0;
      obstacleSpeed := 4.0;
      obstacleFrequency := 0.03;
      score := 0;
      highScore := storedHighScore;
      this.storedHighScore := storedHighScore;
      gameOver := false;
      lastTime := now;
      defenseActive := false;
      defenseDuration := 0;
      defenseCooldown := 0;
      InitialGood(width, height, speedDraw, storedHighScore, now);
    }

    /** `movePlayer`: the guarded left and right steps. */
    method MovePlayer(leftKey: bool, rightKey: bool)
      modifies this`player
      ensures Snapshot() == AfterMove(old(Snapshot()), leftKey, rightKey, canvasWidth)
    {
      if leftKey && player.x > 0.0 {
        player := player.(x := player.x - player.speed);
      }
      if rightKey && player.x + player.width < canvasWidth {
        player := player.(x := player.x + player.speed);
      }
    }

    /** `checkCollisionWithExistingObstacles`: the scan for an obstacle that overlaps `candidate`. */
    method CollidesWithExisting(candidate: Rect) returns (hit: bool)
      ensures hit <==> exists i :: 0 <= i < |obstacles| && Overlaps(candidate, obstacles[i])
    {
      for i := 0 to |obstacles|
        invariant forall j :: 0 <= j < i ==> !Overlaps(candidate, obstacles[j])
      {
        if Overlaps(candidate, obstacles[i]) {
          return true;
        }
      }
      return false;
    }

    /** `createObstacle`: try the draws in turn and append the first candidate
        that overlaps nothing; when every draw is rejected nothing changes. */
    method CreateObstacle(draws: seq<real>) returns (placed: bool)
      modifies this`obstacles
      ensures var f := FirstFit(old(obstacles), draws, canvasWidth, obstacleWidth, obstacleHeight);
              placed == f.Some? && obstacles == (if f.Some? then old(obstacles) + [f.value] else old(obstacles))
    {
      var newObstacle := Rect(0.0, 0.0, 0.0, 0.0);
      var isColliding := true;
      var k := 0;
      while isColliding && k < |draws|
        invariant 0 <= k <= |draws|
        invariant obstacles == old(obstacles)
        invariant isColliding ==>
          FirstFit(obstacles, draws, canvasWidth, obstacleWidth, obstacleHeight) ==
          FirstFit(obstacles, draws[k..], canvasWidth, obstacleWidth, obstacleHeight)
        invariant !isColliding ==>
          FirstFit(obstacles, draws, canvasWidth, obstacleWidth, obstacleHeight) == Some(newObstacle)
      {
        assert draws[k..][1..] == draws[k + 1..];
        newObstacle := Candidate(draws[k], canvasWidth, obstacleWidth, obstacleHeight);
        isColliding := CollidesWithExisting(newObstacle);
        k := k + 1;
      }
      placed := !isColliding;
      if placed {
        obstacles := obstacles + [newObstacle];
      }
    }

    /** `moveObstacles`: lower every obstacle by `obstacleSpeed` and splice out
        those now below the canvas, stepping the index back after a removal. */
    method MoveObstacles()
      modifies this`obstacles
      ensures Snapshot() == AfterFall(old(Snapshot()), canvasHeight)
    {
      ghost var done := 0;
      var i: int := 0;
      while i < |obstacles|
        invariant 0 <= i <= |obstacles| && 0 <= done <= |old(obstacles)|
        invariant obstacles[..i] == Advance(old(obstacles)[..done], obstacleSpeed, canvasHeight)
        invariant obstacles[i..] == old(obstacles)[done..]
        decreases |obstacles| - i
      {
        ghost var prefix := old(obstacles)[..done + 1];
        assert prefix[..done] == old(obstacles)[..done];
        assert prefix[done] == obstacles[i];
        obstacles := obstacles[i := Lower(obstacles[i], obstacleSpeed)];
        if obstacles[i].y > canvasHeight {
          obstacles := obstacles[..i] + obstacles[i + 1..];
          i := i - 1;
        }
        i := i + 1;
        done := done + 1;
        assert old(obstacles)[done..] == old(obstacles)[done - 1..][1..];
      }
      assert old(obstacles)[..done] == old(obstacles);
    }

    /** `detectCollision`: with the shield down, a hit ends the game and a new
        high score is recorded and persisted; with the shield up every hit is ignored. */
    method DetectCollision()
      modifies this`gameOver, this`highScore, this`storedHighScore
      ensures Snapshot() == AfterCollide(old(Snapshot()))
      ensures storedHighScore == if highScore != old(highScore) then highScore else old(storedHighScore)
    {
      for i := 0 to |obstacles|
        invariant storedHighScore == if highScore != old(highScore) then highScore else old(storedHighScore)
        invariant player == old(player) && obstacles == old(obstacles) && score == old(score)
        invariant if !defenseActive && exists j :: 0 <= j < i && Overlaps(Box(player), obstacles[j])
                  then gameOver && highScore == (if score > old(highScore) then score else old(highScore))
                  else gameOver == old(gameOver) && highScore == old(highScore)
      {
        if Overlaps(Box(player), obstacles[i]) {
          if defenseActive {
            continue;
          }
          if score > highScore {
            highScore := score;
            storedHighScore := highScore;
          }
          gameOver := true;
        }
      }
    }

    /** `updateDefense`: one step of the shield's counter machine. */
    method UpdateDefense(aKey: bool)
      modifies this`defenseActive, this`defenseDuration, this`defenseCooldown
      ensures Snapshot() == AfterShield(old(Snapshot()), aKey)
    {
      if defenseActive {
        defenseDuration := defenseDuration + 1;
        if defenseDuration > MaxDuration {
          defenseActive := false;
          defenseDuration := 0;
        }
      }
      if defenseCooldown > 0 {
        defenseCooldown := defenseCooldown - 1;
      }
      if aKey && defenseCooldown == 0 && !defenseActive {
        defenseActive := true;
        defenseCooldown := CooldownTicks;
      }
    }

    /** `increaseDifficulty`, with the elapsed time computed in seconds as the source does. */
    method IncreaseDifficulty(now: int)
      modifies this`obstacleSpeed, this`obstacleFrequency, this`obstacleWidth, this`obstacleHeight
      modifies this`player, this`lastTime
      ensures Snapshot() == AfterRamp(old(Snapshot()), now)
    {
      var elapsedTime := (now - lastTime) as real / 1000.0;
      if elapsedTime > 5.0 {
        lastTime := now;
        if score > 100 {
          obstacleSpeed := obstacleSpeed + 0.5;
          obstacleFrequency := obstacleFrequency + 0.01;
          obstacleWidth := obstacleWidth + 5.0;
          obstacleHeight := obstacleHeight + 5.0;
          player := player.(speed := Max(2.0, player.speed - 0.2));
        }
      }
    }

    /** The first half of `update`: the two moves and the collision test. */
    method MoveAndCollide(t: Tick)
      modifies this`player, this`obstacles, this`gameOver, this`highScore, this`storedHighScore
      ensures Snapshot() == AfterCollide(AfterFall(AfterMove(old(Snapshot()), t.leftKey, t.rightKey, canvasWidth), canvasHeight))
      ensures storedHighScore == if highScore != old(highScore) then highScore else old(storedHighScore)
    {
      MovePlayer(t.leftKey, t.rightKey);
      MoveObstacles();
      DetectCollision();
    }

    /** The second half of `update`: the ramp, the shield, the spawn roll and the point. */
    method RampShieldSpawn(t: Tick)
      modifies this`obstacleSpeed, this`obstacleFrequency, this`obstacleWidth, this`obstacleHeight
      modifies this`player, this`lastTime, this`obstacles, this`score
      modifies this`defenseActive, this`defenseDuration, this`defenseCooldown
      ensures var s := AfterSpawn(AfterShield(AfterRamp(old(Snapshot()), t.now), t.aKey), t.spawnRoll, t.xDraws, canvasWidth);
              Snapshot() == s.(score := s.score + 1)
    {
      IncreaseDifficulty(t.now);
      UpdateDefense(t.aKey);
      if t.spawnRoll < obstacleFrequency {
        var _ := CreateObstacle(t.xDraws);
      }
      score := score + 1;
    }

    /** `update`: one tick of the loop. */
    method Update(t: Tick)
      requires Valid()
      modifies this
      ensures Valid()
      ensures Snapshot() == Next(old(Snapshot()), t, canvasWidth, canvasHeight)
    {
      if gameOver {
        return;
      }
      MoveAndCollide(t);
      RampShieldSpawn(t);
      NextGood(old(Snapshot()), t, canvasWidth, canvasHeight);
    }

    /** The restart difficulty of `resetGame`. */
    method RestoreDifficulty()
      modifies this`obstacleSpeed, this`obstacleFrequency, this`obstacleWidth, this`obstacleHeight
      ensures Snapshot().knobs == ResetDifficulty
    {
      obstacleSpeed := 3.0;
      obstacleFrequency := 0.02;
      obstacleWidth := 50.0;
      obstacleHeight := 50.0;
    }

    /** The shield as `resetGame` leaves it: down, both counters zero. */
    method ClearShield()
      modifies this`defenseActive, this`defenseDuration, this`defenseCooldown
      ensures Snapshot().defense == Idle
    {
      defenseActive := false;
      defenseCooldown := 0;
      defenseDuration := 0;
    }

    /** The assignments of `resetGame`: the restart difficulty, a fresh random
        speed, an idle shield and the clock reference set to `now`; the high
        score and the player's size are kept. */
    method Restart(speedDraw: real, now: int)
      requires 0.0 <= speedDraw < 1.0
      modifies this`player, this`obstacles, this`score, this`gameOver, this`lastTime
      modifies this`obstacleSpeed, this`obstacleFrequency, this`obstacleWidth, this`obstacleHeight
      modifies this`defenseActive, this`defenseDuration, this`defenseCooldown
      ensures player == old(player).(x := canvasWidth / 2.0, y := canvasHeight - 100.0, speed := SpeedFromDraw(speedDraw))
      ensures obstacles == [] && score == 0 && !gameOver && lastTime == now
      ensures Snapshot().knobs == ResetDifficulty && Snapshot().defense == Idle
    {
      player := player.(x := canvasWidth / 2.0, y := canvasHeight - 100.0, speed := SpeedFromDraw(speedDraw));
      obstacles := [];
      score := 0;
      gameOver := false;
      RestoreDifficulty();
      ClearShield();
      lastTime := now;
    }

    /** `resetGame`: the assignments, then the first tick of the new game. */
    method ResetGame(speedDraw: real, now: int, t: Tick)
      requires Valid()
      requires 0.0 <= speedDraw < 1.0
      modifies this
      ensures Valid()
      ensures Snapshot() == Reset(old(Snapshot()), canvasWidth, canvasHeight, speedDraw, now, t)
    {
      Restart(speedDraw, now);
      assert Snapshot() == Restarted(old(Snapshot()), canvasWidth, canvasHeight, speedDraw, now);
      ResetGood(old(Snapshot()), canvasWidth, canvasHeight, speedDraw, now, t);
      Update(t);
    }

    /** The Enter key: restart only a finished game. */
    method PressEnter(speedDraw: real, now: int, t: Tick)
      requires Valid()
      requires 0.0 <= speedDraw < 1.0
      modifies this
      ensures Valid()
      ensures Snapshot() == Play(old(Snapshot()), [Enter(speedDraw, now, t)], canvasWidth, canvasHeight)
    {
      if gameOver {
        ResetGame(speedDraw, now, t);
      }
    }
  }
}
