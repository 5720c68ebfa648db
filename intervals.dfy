/**
 * Repeating timers (`setInterval`) and animation-frame chains
 * (`requestAnimationFrame`) as the hooks hold them: through one stored handle.
 */
module Intervals {

  /**
   * `live` counts the timers armed through this handle that still fire;
   * `held` says whether the stored handle refers to one of them. A timer
   * whose handle was overwritten keeps firing and can no longer be cleared.
   */
  datatype Interval = Interval(live: nat, held: bool) {
    predicate Valid() { held ==> live > 0 }
  }

  const Idle: Interval := Interval(0, false)

  /** `handle = setInterval(...)`: one more live timer, and the handle now refers to it. */
  function Arm(i: Interval): (r: Interval)
    ensures r.Valid() && r.held
    ensures r.live == i.live + 1
  {
    Interval(i.live + 1, true)
  }

  /** `clearInterval(handle)`: stops the timer the handle refers to, if it is still live. */
  function Clear(i: Interval): (r: Interval)
    requires i.Valid()
    ensures r.Valid() && !r.held
    ensures r.live == (if i.held then i.live - 1 else i.live)
  {
    if i.held then Interval(i.live - 1, false) else i
  }

  /** Clearing before arming leaves exactly one live timer, when at most one was live. */
  lemma ClearThenArmKeepsOne(i: Interval)
    requires i.live == (if i.held then 1 else 0)
    ensures Arm(Clear(i)) == Interval(1, true)
  {
  }

  /**
   * Arming over a handle that still refers to a live timer loses that timer:
   * clearing through the handle afterwards stops only the new one.
   */
  lemma ArmOverHeldLeaks(i: Interval)
    requires i.Valid() && i.held
    ensures Clear(Arm(i)).live == i.live && Clear(Arm(i)).live > 0 && !Clear(Arm(i)).held
  {
  }
}
