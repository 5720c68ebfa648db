/**
 * Concrete runs of the engines: the shipped script played to the end and
 * restarted, and the runs that show the exact-equality scheduler, the two
 * separate playing flags, and the transition and frame-chain handles.
 */
module Scenarios {
  import opened Scenes
  import opened Intervals
  import opened Timer
  import opened Scheduler
  import opened Transition
  import RenderScene
  import AlternateEngine

  /** The scene the shipped script shows at tick `t` of a run: thresholds at 30, 80, 110 and 160. */
  function ShippedIndexAt(t: nat): nat
  {
    if t < 30 then 0 else if t < 80 then 1 else if t < 110 then 2 else if t < 160 then 3 else 0
  }

  /**
   * Play the shipped script from mount, checking the scheduler after every
   * tick. The scene follows the thresholds 30, 80, 110, 160; entering the
   * video scene at 30 starts the transition; at 160 the scheduler wraps to
   * scene 0 and stops `isPlaying` while the clock still runs; the clock's next
   * tick stops it at 160, and the next toggle restarts it from 0.
   */
  method ShippedPlayback() returns (indices: seq<nat>, transitionAt30: bool, playingAt160: bool,
                                    runningAt160: bool, stoppedAt: nat, runningAfterTick: bool,
                                    restartedAt: nat, playingAfterRestart: bool)
    ensures |indices| == 160
    ensures forall k :: 0 <= k < 160 ==> indices[k] == ShippedIndexAt(k + 1)
    ensures transitionAt30
    ensures !playingAt160 && runningAt160
    ensures stoppedAt == 160 && !runningAfterTick
    ensures restartedAt == 0 && playingAfterRestart
  {
    ShippedThresholds();
    var e := new RenderScene.Engine(ShippedScenes, VideoLength, CanvasWidth);
    e.TogglePlayPause();
    indices, transitionAt30 := [], false;
    var k := 0;
    while k < 159
      invariant 0 <= k <= 159
      invariant e.Valid() && !e.crashed && e.scenes == ShippedScenes && e.width == CanvasWidth
      invariant e.clock.limit == 16000 && e.clock.time == k && e.clock.isRunning
      invariant e.isPlaying && e.sceneIndex == ShippedIndexAt(k)
      invariant e.slide.x == 0 && (k >= 30 ==> e.slide.active)
      invariant |indices| == k
      invariant forall j :: 0 <= j < k ==> indices[j] == ShippedIndexAt(j + 1)
      invariant k >= 30 ==> transitionAt30
    {
      e.TimerTick();
      e.SchedulerCheck();
      indices := indices + [e.sceneIndex];
      if k + 1 == 30 {
        transitionAt30 := e.slide.active;
      }
      k := k + 1;
    }
    e.TimerTick();
    e.SchedulerCheck();
    indices := indices + [e.sceneIndex];
    playingAt160, runningAt160 := e.isPlaying, e.clock.isRunning;
    e.TimerTick();
    stoppedAt, runningAfterTick := e.clock.time, e.clock.isRunning;
    e.TogglePlayPause();
    restartedAt, playingAfterRestart := e.clock.time, e.isPlaying;
  }

  /**
   * The scheduler compares with `==`: if the clock ticks past the first
   * threshold (30) before the scheduler looks, the scene does not advance,
   * and no later tick before a restart brings the time back to 30.
   */
  method MissedTickSkipsAdvance() returns (index: nat, time: nat)
    ensures index == 0 && time == 31
    ensures forall n :: TicksFrom(16000, time, n) != 30
  {
    ShippedThresholds();
    var e := new RenderScene.Engine(ShippedScenes, VideoLength, CanvasWidth);
    e.TogglePlayPause();
    var k := 0;
    while k < 31
      invariant 0 <= k <= 31
      invariant e.Valid() && !e.crashed && e.scenes == ShippedScenes
      invariant e.clock.limit == 16000 && e.clock.time == k && e.clock.isRunning
      invariant e.sceneIndex == 0
    {
      e.TimerTick();
      k := k + 1;
    }
    e.SchedulerCheck();
    index, time := e.sceneIndex, e.clock.time;
    forall n | true
      ensures TicksFrom(16000, time, n) != 30
    {
      TicksNeverRevisit(16000, time, n, 30);
    }
  }

  /**
   * `isPlaying` and the clock's `isRunning` are separate flags. In a one-scene
   * script of 1 s, the scheduler wraps at tick 10 and clears `isPlaying`
   * while the clock still runs; a toggle before the clock's next tick sets
   * `isPlaying` but pauses the clock, and the toggle after that clears
   * `isPlaying` and restarts the clock from 0.
   */
  method ToggleAtWrapDesynchronises() returns (playing1: bool, running1: bool,
                                               playing2: bool, running2: bool, time2: nat)
    ensures playing1 && !running1
    ensures !playing2 && running2 && time2 == 0
  {
    var scenes := [Scene(0, "Hello", "image.jpg", None, 1, Image, None, None)];
    var e := new RenderScene.Engine(scenes, 1, CanvasWidth);
    e.TogglePlayPause();
    var k := 0;
    while k < 9
      invariant 0 <= k <= 9
      invariant e.Valid() && !e.crashed && e.scenes == scenes
      invariant e.clock.limit == 1000 && e.clock.time == k && e.clock.isRunning
      invariant e.isPlaying && e.sceneIndex == 0
    {
      e.TimerTick();
      e.SchedulerCheck();
      k := k + 1;
    }
    e.TimerTick();
    e.SchedulerCheck();
    assert !e.isPlaying && e.clock.isRunning && e.clock.time == 10;
    e.TogglePlayPause();
    playing1, running1 := e.isPlaying, e.clock.isRunning;
    e.TogglePlayPause();
    playing2, running2, time2 := e.isPlaying, e.clock.isRunning, e.clock.time;
  }

  /**
   * A script that opens with a video scene: the mount effect starts the
   * transition and the paused playback effect clears its ticker. The first
   * play does not re-arm it (`imageX` is still 0), and its draw throws,
   * because the first scene has no previous scene to paint: no frame chain
   * is started. The transition stays active with no ticker, so the typing
   * interval, which survives the throw, never adds a character.
   */
  method VideoFirstScenePlayThrows() returns (crashed: bool, chains: nat, active: bool,
                                              tickers: nat, caption: string)
    ensures crashed && chains == 0
    ensures active && tickers == 0 && caption == []
  {
    var scenes := [Scene(0, "Hello", "clip.mp4", None, 1, Video, None, None)];
    var e := new RenderScene.Engine(scenes, 1, CanvasWidth);
    e.TogglePlayPause();
    e.TypeStep();
    crashed, chains := e.crashed, e.frames.live;
    active, tickers, caption := e.slide.active, e.slide.ticker.live, e.caption;
  }

  /**
   * Two video scenes in a row, the second entered before any draw ended the
   * first transition: the second entry arms a ticker over the live one. When
   * the draw ends the transition it clears only the newer ticker; the older
   * one keeps lowering `imageX` after the transition, and pausing does not
   * stop it either.
   */
  method LingeringTransitionLeaksTicker() returns (live: nat, held: bool, active: bool, x: int, liveAfterPause: nat)
    ensures live == 1 && !held && !active && x == -(Speed as int)
    ensures liveAfterPause == 1
  {
    var scenes := [Scene(0, "One", "image.jpg", None, 1, Image, None, None),
                   Scene(1, "Two", "clip.mp4", None, 1, Video, None, None),
                   Scene(2, "Three", "clip.mp4", None, 1, Video, None, None)];
    assert Threshold(scenes, 0) == 1 && Threshold(scenes, 1) == 2;
    var e := new RenderScene.Engine(scenes, 3, CanvasWidth);
    e.TogglePlayPause();
    var k := 0;
    while k < 20
      invariant 0 <= k <= 20
      invariant e.Valid() && !e.crashed && e.scenes == scenes && e.width == CanvasWidth
      invariant e.clock.limit == 3000 && e.clock.time == k && e.clock.isRunning
      invariant e.isPlaying && e.frames.live == 1
      invariant e.sceneIndex == (if k < 10 then 0 else if k < 20 then 1 else 2)
      invariant e.slide == (if k < 10 then Still
                            else if k < 20 then Slide(true, 0, Interval(1, true))
                            else Slide(true, 0, Interval(2, true)))
    {
      e.TimerTick();
      e.SchedulerCheck();
      k := k + 1;
    }
    var j := 0;
    while j < 81
      invariant 0 <= j <= 81
      invariant e.Valid() && !e.crashed && e.scenes == scenes && e.width == CanvasWidth && e.sceneIndex == 2
      invariant e.isPlaying && e.frames.live == 1
      invariant e.slide == Slide(true, -(Speed * j) as int, Interval(2, true))
    {
      e.TransitionTick();
      j := j + 1;
    }
    e.FrameTick();
    e.TransitionTick();
    live, held, active, x := e.slide.ticker.live, e.slide.ticker.held, e.slide.active, e.slide.x;
    e.TogglePlayPause();
    liveAfterPause := e.slide.ticker.live;
  }

  /**
   * Pause and resume once. The main engine cancels the pending frame before
   * restarting its redraw chain, so one chain stays live; the alternate
   * engine restarts without cancelling, so the pre-pause chain keeps running
   * beside the new one.
   */
  method ResumeFrameChains() returns (mainChains: nat, alternateChains: nat)
    ensures mainChains == 1 && alternateChains == 2
  {
    var e := new RenderScene.Engine(ShippedScenes, VideoLength, CanvasWidth);
    e.TogglePlayPause();
    e.TogglePlayPause();
    e.TogglePlayPause();
    mainChains := e.frames.live;
    var a := new AlternateEngine.Engine(ShippedScenes, VideoLength);
    a.TogglePlayPause();
    a.TogglePlayPause();
    a.TogglePlayPause();
    alternateChains := a.frames.live;
  }
}
