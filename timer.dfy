/**
 * The pausable clock of `useTimer`: `time` counts 100 ms ticks up to
 * `limit / 100`, and one toggle serves as start, pause, resume and
 * restart-after-completion.
 */
module Timer {

  /**
   * The tick count at which a clock with this limit (in ms) is complete:
   * the least `t` with `t * 100 >= limit`, that is `limit / 100` rounded up.
   */
  function Completion(limit: nat): nat
  {
    (limit + 99) / 100
  }

  /** `t < limit / 100` (a real division in the source) holds exactly below `Completion(limit)`. */
  lemma BelowLimit(limit: nat, t: nat)
    ensures t * 100 < limit <==> t < Completion(limit)
  {
    var c := Completion(limit);
    assert c * 100 <= limit + 99 < c * 100 + 100;
    if t < c {
      assert t * 100 <= c * 100 - 100;
    } else {
      assert t * 100 >= c * 100;
    }
  }

  /** A limit that is a multiple of 100 completes at exactly `limit / 100`, where `time * 100 == limit`. */
  lemma CompletionOfMultiple(limit: nat)
    requires limit % 100 == 0
    ensures Completion(limit) == limit / 100 && Completion(limit) * 100 == limit
  {
  }

  /** The `setTime` updater of the tick: count up while below the limit, else stay. */
  function NextTime(limit: nat, t: nat): (r: nat)
    ensures r == t + 1 <==> t < Completion(limit)
    ensures r == t || r == t + 1
  {
    BelowLimit(limit, t);
    if limit != 0 && t * 100 < limit then t + 1 else t
  }

  /** The time after `n` ticks of the updater, starting from `t`. */
  function TicksFrom(limit: nat, t: nat, n: nat): nat
    decreases n
  {
    if n == 0 then t else TicksFrom(limit, NextTime(limit, t), n - 1)
  }

  /** Ticks count up one by one and stop at the completion value, never past it. */
  lemma {:induction false} TicksSaturate(limit: nat, t: nat, n: nat)
    requires t <= Completion(limit)
    ensures TicksFrom(limit, t, n) == if t + n <= Completion(limit) then t + n else Completion(limit)
    decreases n
  {
    if n > 0 {
      BelowLimit(limit, t);
      TicksSaturate(limit, NextTime(limit, t), n - 1);
    }
  }

  /**
   * Time never goes back under ticks: a value below the current time is never
   * reached again before a reset. This is why the scheduler's exact-equality
   * test never fires for a threshold that a tick has passed unobserved.
   */
  lemma {:induction false} TicksNeverRevisit(limit: nat, t: nat, n: nat, earlier: nat)
    requires earlier < t
    ensures earlier < TicksFrom(limit, t, n)
    decreases n
  {
    if n > 0 {
      TicksNeverRevisit(limit, NextTime(limit, t), n - 1, earlier);
    }
  }

  /**
   * With a limit that is not a multiple of 100 the clock stops at
   * `Completion(limit)`, where `time * 100 != limit`: the toggle then never
   * resets it, and every later tick stops the clock again at once.
   */
  lemma {:induction false} StuckWithoutRestart(limit: nat, n: nat)
    requires limit % 100 != 0
    ensures TicksFrom(limit, Completion(limit), n) == Completion(limit)
    ensures Completion(limit) * 100 != limit
  {
    TicksSaturate(limit, Completion(limit), n);
  }

  class Clock {
    /** `limit` in ms; 0 stands for an absent limit, which the source treats alike (both are falsy). */
    const limit: nat
    var time: nat
    var isRunning: bool

    ghost predicate Valid()
      reads this
    {
      time <= Completion(limit)
    }

    constructor (limit: nat)
      ensures Valid() && this.limit == limit && time == 0 && !isRunning
    {
      this.limit := limit;
      time := 0;
      isRunning := false;
    }

    /** `time * 100 === limit` while stopped: the state the toggle treats as completed. */
    predicate Completed()
      reads this
    {
      !isRunning && time * 100 == limit
    }

    /** One call of the interval callback; the interval exists only while `isRunning`. */
    method Tick()
      requires Valid() && isRunning
      modifies this
      ensures Valid()
      ensures time == NextTime(limit, old(time))
      ensures isRunning <==> old(time) < Completion(limit)
      ensures time == (if isRunning then old(time) + 1 else old(time))
    {
      BelowLimit(limit, time);
      if limit != 0 && time * 100 < limit {
        time := time + 1;
      } else {
        isRunning := false;
      }
    }

    /** `onStart`: run, restarting from 0 if stopped at completion. */
    method Start()
      requires Valid()
      modifies this
      ensures Valid() && isRunning
      ensures time == if old(Completed()) then 0 else old(time)
    {
      if !isRunning && time * 100 == limit {
        time := 0;
      }
      isRunning := true;
    }

    /** `onResume`: the same operation as `onStart`. */
    method Resume()
      requires Valid()
      modifies this
      ensures Valid() && isRunning
      ensures time == if old(Completed()) then 0 else old(time)
    {
      Start();
    }

    /** `onStop`: stop and rewind. */
    method Stop()
      modifies this
      ensures Valid() && !isRunning && time == 0
    {
      isRunning := false;
      time := 0;
    }

    /** `onPauseOrResume`: flip running, restarting from 0 if stopped at completion. */
    method PauseOrResume()
      requires Valid()
      modifies this
      ensures Valid()
      ensures isRunning == !old(isRunning)
      ensures time == if old(Completed()) then 0 else old(time)
    {
      if !isRunning && time * 100 == limit {
        time := 0;
      }
      isRunning := !isRunning;
    }
  }

  /** Pause then resume (or resume then pause) with no tick between restores the clock, away from completion. */
  method ToggleTwiceRestores(c: Clock)
    requires c.Valid() && c.time * 100 != c.limit
    modifies c
    ensures c.Valid() && c.time == old(c.time) && c.isRunning == old(c.isRunning)
  {
    c.PauseOrResume();
    c.PauseOrResume();
  }
}
