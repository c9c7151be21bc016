/** The cooldown countdown: one tick per second, floored at zero. */
module Cooldown {

  /** Seconds of cooldown after every query that returns normally. */
  const SuccessCooldown: nat := 4

  /** The interval's state updater: `prev <= 1 ? 0 : prev - 1`. */
  function NextCooldown(prev: nat): (r: nat)
    ensures r <= prev
    ensures r == 0 <==> prev <= 1
    ensures prev > 1 ==> r == prev - 1
  {
    if prev <= 1 then 0 else prev - 1
  }

  /** The cooldown after `ticks` ticks starting from `start`. */
  function CooldownAfter(start: nat, ticks: nat): nat {
    if ticks == 0 then start else NextCooldown(CooldownAfter(start, ticks - 1))
  }

  /** A cooldown of n seconds counts down by one per tick and reaches zero after n ticks. */
  lemma {:induction false} CountdownReachesZero(n: nat, ticks: nat)
    ensures ticks <= n ==> CooldownAfter(n, ticks) == n - ticks
    ensures ticks >= n ==> CooldownAfter(n, ticks) == 0
  {
    if ticks > 0 {
      CountdownReachesZero(n, ticks - 1);
    }
  }
}
