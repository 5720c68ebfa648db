/**
 * The alternate engine of `solution1.tsx` (not used by the application): the
 * same clock and scheduler, a typist without transition gating (default
 * period 80 ms), no transition at all, and a frame chain that is restarted
 * without cancelling the previous one.
 */
module AlternateEngine {
  import opened Scenes
  import opened Media
  import opened Intervals
  import opened Timer
  import opened Scheduler
  import opened Typist

  /** The typing period used when a scene gives none (ms). */
  const DefaultTypingSpeed: nat := 80

  class Engine {
    const scenes: seq<Scene>
    /** The `useTimer` clock, limit `videoLength * 1000`. */
    const clock: Clock

    var sceneIndex: nat
    var nextStep: nat
    var isPlaying: bool
    /** `currentTextRef` */
    var caption: string
    /** `updateTextInterval` and the period it was armed with. */
    var typing: Interval
    var typingPeriod: nat
    /** `animationFrameRef`: the redraw chains. */
    var frames: Interval
    var video: Player

    ghost predicate Valid()
      reads this, clock
    {
      && |scenes| > 0
      && sceneIndex < |scenes|
      && nextStep == Threshold(scenes, sceneIndex)
      && caption <= scenes[sceneIndex].sentence
      && typing.live == (if typing.held then 1 else 0)
      && frames.Valid()
      && clock.Valid()
    }

    /** The sentence of the current scene. */
    function Sentence(): string
      reads this
      requires sceneIndex < |scenes|
    {
      scenes[sceneIndex].sentence
    }

    /**
     * The two playback effects, run when the scene or `isPlaying` changed,
     * from the given ref values. Playing: clear and re-arm the typing ticker
     * (twice, once per effect) with the scene's period, start one more frame
     * chain without cancelling the pending one, cue the next scene's video,
     * and play the video of a video scene. Paused: pause the video and clear
     * the typing ticker.
     */
    ghost predicate PlaybackRan(rerun: bool, typing0: Interval, period0: nat, frames0: Interval, video0: Player)
      reads this
    {
      && sceneIndex < |scenes|
      && typing0.Valid() && frames0.Valid()
      && var scene := scenes[sceneIndex];
         if !rerun then
           typing == typing0 && typingPeriod == period0 && frames == frames0 && video == video0
         else if isPlaying then
           && typing == Arm(Clear(Arm(Clear(typing0))))
           && typingPeriod == TypingPeriod(scene, DefaultTypingSpeed)
           && frames == Arm(frames0)
           && var cued := Cue(video0, scenes, sceneIndex);
              video == (if scene.kind == Video then cued.(playing := true) else cued)
         else
           typing == Clear(typing0) && typingPeriod == period0 && frames == frames0
           && video == video0.(playing := false)
    }

    /** Mount: initial state, then the effects of the first render (paused). */
    constructor (scenes: seq<Scene>, videoLength: nat)
      requires |scenes| > 0
      ensures Valid() && fresh(clock)
      ensures this.scenes == scenes
      ensures clock.limit == videoLength * 1000 && clock.time == 0 && !clock.isRunning
      ensures sceneIndex == 0 && nextStep == scenes[0].duration && !isPlaying && caption == []
      ensures typing == Idle && frames == Idle && video == Unloaded
    {
      this.scenes := scenes;
      clock := new Clock(videoLength * 1000);
      sceneIndex := 0;
      nextStep := scenes[0].duration;
      isPlaying := false;
      caption := [];
      typing := Idle;
      typingPeriod := 0;
      frames := Idle;
      video := Unloaded;
      new;
      Playback(true);
    }

    /** The playback effects; see `PlaybackRan`. */
    method Playback(rerun: bool)
      requires sceneIndex < |scenes| && typing.Valid() && frames.Valid()
      modifies this`typing, this`typingPeriod, this`frames, this`video
      ensures PlaybackRan(rerun, old(typing), old(typingPeriod), old(frames), old(video))
    {
      if !rerun {
        return;
      }
      var scene := scenes[sceneIndex];
      if isPlaying {
        // first effect
        typing := Arm(Clear(typing));
        typingPeriod := TypingPeriod(scene, DefaultTypingSpeed);
        frames := Arm(frames);
        video := Cue(video, scenes, sceneIndex);
        // second effect
        typing := Arm(Clear(typing));
        if scene.kind == Video {
          video := video.(playing := true);
        }
      } else {
        video := video.(playing := false);
        typing := Clear(typing);
      }
    }

    /** One tick of the clock's interval. */
    method TimerTick()
      requires Valid() && clock.isRunning
      modifies clock
      ensures Valid()
      ensures clock.time == NextTime(clock.limit, old(clock.time))
      ensures clock.isRunning <==> old(clock.time) < Completion(clock.limit)
    {
      clock.Tick();
    }

    /**
     * The scheduler effect: only when `time == nextStep * 10` exactly, cancel
     * the pending frame, empty the caption and advance (wrapping to scene 0
     * and stopping `isPlaying` after the last scene); then the playback
     * effects if the scene or `isPlaying` changed. Any other time changes
     * nothing.
     */
    method SchedulerCheck()
      requires Valid()
      modifies this
      ensures Valid()
      ensures clock.time != old(nextStep) * 10 ==> unchanged(this)
      ensures clock.time == old(nextStep) * 10 ==>
        var step := Advance(scenes, old(sceneIndex), old(nextStep));
        && sceneIndex == step.index && nextStep == step.nextStep
        && isPlaying == (old(isPlaying) && !step.stop)
        && caption == []
        && PlaybackRan(sceneIndex != old(sceneIndex) || isPlaying != old(isPlaying),
                       old(typing), old(typingPeriod), Clear(old(frames)), old(video))
    {
      if clock.time == nextStep * 10 {
        AdvanceKeepsThreshold(scenes, sceneIndex);
        frames := Clear(frames);
        caption := [];
        var step := Advance(scenes, sceneIndex, nextStep);
        var prevIndex, wasPlaying := sceneIndex, isPlaying;
        if step.stop {
          isPlaying := false;
        }
        sceneIndex, nextStep := step.index, step.nextStep;
        Playback(sceneIndex != prevIndex || isPlaying != wasPlaying);
      }
    }

    /** One tick of the typing interval: extend the caption by one character of the sentence. */
    method TypeStep()
      requires Valid() && typing.live > 0
      modifies this`caption
      ensures Valid()
      ensures caption == TypedCaption(Sentence(), old(caption))
    {
      caption := TypedCaption(scenes[sceneIndex].sentence, caption);
    }

    /** One frame of a redraw chain: it requests its next frame, which the handle then refers to. */
    method FrameTick()
      requires Valid() && frames.live > 0
      modifies this`frames
      ensures Valid()
      ensures frames == Interval(old(frames.live), true)
    {
      frames := frames.(held := true);
    }

    /**
     * `handlePauseOrResume`: clear the typing interval, flip `isPlaying`,
     * toggle the clock; then the playback effects run.
     */
    method TogglePlayPause()
      requires Valid()
      modifies this, clock
      ensures Valid()
      ensures isPlaying == !old(isPlaying)
      ensures clock.isRunning == !old(clock.isRunning)
      ensures clock.time == if old(clock.Completed()) then 0 else old(clock.time)
      ensures sceneIndex == old(sceneIndex) && nextStep == old(nextStep) && caption == old(caption)
      ensures PlaybackRan(true, Clear(old(typing)), old(typingPeriod), old(frames), old(video))
    {
      typing := Clear(typing);
      isPlaying := !isPlaying;
      clock.PauseOrResume();
      Playback(true);
    }
  }
}
