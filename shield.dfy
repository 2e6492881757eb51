/** The shield ability as a machine over two integer tick counters: how long
    the shield has been up, and how many ticks remain before it may be raised
    again. The cooldown is started when the shield is raised, so it runs
    during the active period too. */
module Shield {

  /** Ticks the shield may stay up: it drops on the tick its duration exceeds this. */
  const MaxDuration: int := 120
  /** Cooldown set when the shield is raised. */
  const CooldownTicks: int := 600

  datatype Defense = Defense(active: bool, duration: int, cooldown: int)

  /** The shield state no one has used: down, both counters zero. */
  const Idle: Defense := Defense(false, 0, 0)
  /** The state right after the shield is raised. */
  const JustRaised: Defense := Defense(true, 0, CooldownTicks)

  /** What holds of the counters in every reachable state. */
  ghost predicate Inv(d: Defense)
  {
    && (d.active ==> d.duration + d.cooldown == CooldownTicks && 0 <= d.duration <= MaxDuration)
    && (!d.active ==> d.duration == 0)
    && 0 <= d.cooldown <= CooldownTicks
  }

  /** One `updateDefense` call with the shield key held (`aKey`) or not. */
  function Step(d: Defense, aKey: bool): Defense
  {
    var d1 := if !d.active then d
              else if d.duration + 1 > MaxDuration then Defense(false, 0, d.cooldown)
              else d.(duration := d.duration + 1);
    var d2 := if d1.cooldown > 0 then d1.(cooldown := d1.cooldown - 1) else d1;
    if aKey && d2.cooldown == 0 && !d2.active then d2.(active := true, cooldown := CooldownTicks) else d2
  }

  /** The state after a run of `updateDefense` calls, one per key reading. */
  function Run(d: Defense, keys: seq<bool>): Defense
    decreases |keys|
  {
    if keys == [] then d else Step(Run(d, keys[..|keys| - 1]), keys[|keys| - 1])
  }

  lemma InitialInv()
    ensures Inv(Idle) && Inv(JustRaised)
  {
  }

  /** Every call keeps the counter invariant. */
  lemma StepKeepsInv(d: Defense, aKey: bool)
    requires Inv(d)
    ensures Inv(Step(d, aKey))
  {
  }

  /** Any run of calls keeps the counter invariant. */
  lemma {:induction false} RunKeepsInv(d: Defense, keys: seq<bool>)
    requires Inv(d)
    ensures Inv(Run(d, keys))
    decreases |keys|
  {
    if keys != [] {
      RunKeepsInv(d, keys[..|keys| - 1]);
      StepKeepsInv(Run(d, keys[..|keys| - 1]), keys[|keys| - 1]);
    }
  }

  /** The shield is raised by a call exactly when the key is held, it was down,
      and the cooldown had at most one tick left; raising it gives a zero
      duration and the full cooldown. */
  lemma StepRaisesOnlyWhenReady(d: Defense, aKey: bool)
    requires Inv(d)
    ensures var r := Step(d, aKey);
            (r.active && !d.active) <==> (aKey && !d.active && d.cooldown <= 1)
    ensures var r := Step(d, aKey);
            r.active && !d.active ==> r == JustRaised
  {
  }

  /** The call that drops the shield does not restart the cooldown: it only
      counts it down, from CooldownTicks - MaxDuration. */
  lemma StepExpiry(d: Defense, aKey: bool)
    requires Inv(d) && d.active && d.duration == MaxDuration
    ensures Step(d, aKey) == Defense(false, 0, CooldownTicks - MaxDuration - 1)
  {
  }

  /** From the state right after raising, whatever keys are read: the shield
      stays up for 120 calls, drops on the 121st, cannot come back before the
      600th, and on the 600th comes back exactly when the key is held. */
  lemma {:induction false} Timeline(keys: seq<bool>)
    requires |keys| <= CooldownTicks
    ensures var n := |keys|;
            var r := Run(JustRaised, keys);
            if n <= MaxDuration then r == Defense(true, n, CooldownTicks - n)
            else if n < CooldownTicks then r == Defense(false, 0, CooldownTicks - n)
            else r == (if keys[n - 1] then JustRaised else Idle)
    decreases |keys|
  {
    if keys != [] {
      Timeline(keys[..|keys| - 1]);
    }
  }
}
