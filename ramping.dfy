/** The difficulty ramp (`increaseDifficulty`): gated on wall-clock time
    since the last check and on the score. */
module Ramping {
  import opened Geometry

  /** The four parameters the ramp raises. */
  datatype Difficulty = Difficulty(obstacleSpeed: real, obstacleFrequency: real, obstacleWidth: real, obstacleHeight: real)

  /** Difficulty at page load. */
  const InitialDifficulty: Difficulty := Difficulty(4.0, 0.03, 50.0, 50.0)
  /** Difficulty after a restart; speed and frequency differ from page load. */
  const ResetDifficulty: Difficulty := Difficulty(3.0, 0.02, 50.0, 50.0)

  /** Everything one ramp check may change: the parameters, the player's
      speed and the clock reference (milliseconds). */
  datatype Ramped = Ramped(knobs: Difficulty, playerSpeed: real, lastTime: int)

  /** One ramp check at time `now`: nothing happens within 5000 ms of the last
      check; otherwise the clock reference moves to `now`, and past a score of
      100 the parameters go up and the player's speed goes down to no less than 2. */
  function Ramp(k: Difficulty, playerSpeed: real, lastTime: int, score: int, now: int): Ramped
  {
    if now - lastTime <= 5000 then Ramped(k, playerSpeed, lastTime)
    else if score > 100 then
      Ramped(Difficulty(k.obstacleSpeed + 0.5, k.obstacleFrequency + 0.01, k.obstacleWidth + 5.0, k.obstacleHeight + 5.0),
             Max(2.0, playerSpeed - 0.2), now)
    else Ramped(k, playerSpeed, now)
  }

  /** Parameters never go down and the player never speeds up. */
  lemma RampMonotone(k: Difficulty, playerSpeed: real, lastTime: int, score: int, now: int)
    ensures var r := Ramp(k, playerSpeed, lastTime, score, now);
            && r.knobs.obstacleSpeed >= k.obstacleSpeed && r.knobs.obstacleFrequency >= k.obstacleFrequency
            && r.knobs.obstacleWidth >= k.obstacleWidth && r.knobs.obstacleHeight >= k.obstacleHeight
            && (r.playerSpeed <= playerSpeed || r.playerSpeed == 2.0)
  {
  }

  /** The player's speed stays at least 2 once it is. */
  lemma RampKeepsPlayerSpeed(k: Difficulty, playerSpeed: real, lastTime: int, score: int, now: int)
    requires playerSpeed >= 2.0
    ensures var r := Ramp(k, playerSpeed, lastTime, score, now);
            2.0 <= r.playerSpeed <= playerSpeed
  {
  }

  /** Within 5000 ms nothing changes; after it, the parameters change only past a
      score of 100, and then every one of them strictly increases. */
  lemma RampGate(k: Difficulty, playerSpeed: real, lastTime: int, score: int, now: int)
    ensures var r := Ramp(k, playerSpeed, lastTime, score, now);
            now - lastTime <= 5000 ==> r == Ramped(k, playerSpeed, lastTime)
    ensures var r := Ramp(k, playerSpeed, lastTime, score, now);
            now - lastTime > 5000 ==>
              && r.lastTime == now
              && (r.knobs != k <==> score > 100)
              && (score > 100 ==> && r.knobs.obstacleSpeed > k.obstacleSpeed
                                  && r.knobs.obstacleFrequency > k.obstacleFrequency
                                  && r.knobs.obstacleWidth > k.obstacleWidth
                                  && r.knobs.obstacleHeight > k.obstacleHeight)
  {
  }
}
