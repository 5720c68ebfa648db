/**
 * The scene scheduler shared by both engines: `nextStep` holds the cumulative
 * duration (seconds) up to and including the current scene, and the scene
 * advances when the clock's tick count equals `nextStep * 10`.
 */
module Scheduler {
  import opened Scenes

  /** The sum of the durations of scenes `0..i`: what `nextStep` holds while scene `i` shows. */
  function Threshold(scenes: seq<Scene>, i: nat): nat
    requires i < |scenes|
    decreases i
  {
    if i == 0 then scenes[0].duration else Threshold(scenes, i - 1) + scenes[i].duration
  }

  /** Outcome of one advance: the new index, the new `nextStep`, and whether playback stops. */
  datatype Outcome = Outcome(index: nat, nextStep: nat, stop: bool)

  /**
   * The `setCurrentSceneIndex` updater run when `time === nextStep * 10`:
   * past the last scene it wraps to scene 0 and stops playback, otherwise it
   * moves on by one and adds the new scene's duration to `nextStep`.
   */
  function Advance(scenes: seq<Scene>, prev: nat, nextStep: nat): (r: Outcome)
    requires prev < |scenes|
    ensures r.index < |scenes|
  {
    if prev + 1 >= |scenes| then Outcome(0, scenes[0].duration, true)
    else Outcome(prev + 1, nextStep + scenes[prev + 1].duration, false)
  }

  /**
   * An advance keeps `nextStep` equal to the cumulative duration of the
   * scenes up to the current one, moves on by exactly one, and wraps to
   * scene 0 (stopping) exactly from the last scene.
   */
  lemma AdvanceKeepsThreshold(scenes: seq<Scene>, prev: nat)
    requires prev < |scenes|
    ensures var r := Advance(scenes, prev, Threshold(scenes, prev));
      && r.nextStep == Threshold(scenes, r.index)
      && r.stop == (prev == |scenes| - 1)
      && (r.stop ==> r.index == 0)
      && (!r.stop ==> r.index == prev + 1)
  {
  }

  /** A later scene's threshold exceeds an earlier one's by at least the later scene's duration. */
  lemma {:induction false} ThresholdGrowth(scenes: seq<Scene>, i: nat, j: nat)
    requires i < j < |scenes|
    ensures Threshold(scenes, i) + scenes[j].duration <= Threshold(scenes, j)
    decreases j
  {
    if j > i + 1 {
      ThresholdGrowth(scenes, i, j - 1);
    }
  }

  /** The scheduler state after `n` advances from the initial one (scene 0). */
  function Advanced(scenes: seq<Scene>, n: nat): (r: Outcome)
    requires |scenes| > 0
    ensures r.index < |scenes|
    decreases n
  {
    if n == 0 then Outcome(0, scenes[0].duration, false)
    else
      var p := Advanced(scenes, n - 1);
      Advance(scenes, p.index, p.nextStep)
  }

  /**
   * Advances visit the scenes in order, each with its cumulative threshold,
   * and only the advance after the last scene wraps back to scene 0 and stops.
   */
  lemma {:induction false} AdvancedSchedule(scenes: seq<Scene>, n: nat)
    requires 0 < |scenes| && n <= |scenes|
    ensures n < |scenes| ==> Advanced(scenes, n) == Outcome(n, Threshold(scenes, n), false)
    ensures n == |scenes| ==> Advanced(scenes, n) == Outcome(0, Threshold(scenes, 0), true)
    decreases n
  {
    if n > 0 {
      AdvancedSchedule(scenes, n - 1);
    }
  }

  /** The shipped script's thresholds are 3, 8, 11 and 16 seconds; the last equals the video length. */
  lemma ShippedThresholds()
    ensures Threshold(ShippedScenes, 0) == 3
    ensures Threshold(ShippedScenes, 1) == 8
    ensures Threshold(ShippedScenes, 2) == 11
    ensures Threshold(ShippedScenes, 3) == 16 == VideoLength
  {
  }
}
