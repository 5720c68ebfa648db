/**
 * The playback engine of `useRenderScene`: the clock, the scheduler, the
 * caption typist, the transition controller and the frame chain, each timer
 * or frame callback being one atomic method. React's effect phase after a
 * render is part of the method that caused the render.
 */
module RenderScene {
  import opened Scenes
  import opened Media
  import opened Intervals
  import opened Timer
  import opened Scheduler
  import opened Typist
  import opened Transition

  /** `DEFAULT_TYPING_SPEED` (ms). */
  const DefaultTypingSpeed: nat := 65

  class Engine {
    const scenes: seq<Scene>
    /** `canvas.width` in pixels. */
    const width: nat
    /** The `useTimer` clock, limit `videoLength * 1000`. */
    const clock: Clock

    var sceneIndex: nat
    var nextStep: nat
    var isPlaying: bool
    /** `currentTextRef` */
    var caption: string
    /** `updateTextInterval` and the period it was armed with. */
    var typing: Interval
    var typingPeriod: nat
    /** `imageTransition`, `imageX` and `transitionInterval`. */
    var slide: Slide
    /** `animationFrameRef`: the redraw chain. */
    var frames: Interval
    var video: Player
    var audioSource: string
    var audioPlaying: bool
    /**
     * An effect has thrown. React then unmounts the tree: the clock's effect
     * cleanup clears its interval, no effect runs again and the canvas that
     * takes the toggle is gone, while the typing and transition intervals,
     * which have no cleanup, keep firing.
     */
    var crashed: bool

    ghost predicate Valid()
      reads this, clock
    {
      && |scenes| > 0
      && sceneIndex < |scenes|
      && nextStep == Threshold(scenes, sceneIndex)
      && caption <= scenes[sceneIndex].sentence
      && typing.live == (if typing.held then 1 else 0)
      && slide.ticker.Valid()
      && frames.live == (if frames.held then 1 else 0)
      && clock.Valid()
    }

    /** The sentence of the current scene. */
    function Sentence(): string
      reads this
      requires sceneIndex < |scenes|
    {
      scenes[sceneIndex].sentence
    }

    /**
     * The effect phase after a render, from the refs as they were before the
     * call (`typing0` and `frames0` are the handles as the render left them):
     * the scene-entry effect when `entered`, then the playback effect when
     * `rerun`.
     */
    twostate predicate EffectsRan(entered: bool, rerun: bool, typing0: Interval, frames0: Interval)
      reads this
    {
      && sceneIndex < |scenes|
      && old(slide.ticker.Valid())
      && var scene := scenes[sceneIndex];
         if entered then
           PlaybackRan(rerun, Enter(old(slide), scene.kind), Cue(old(video), scenes, sceneIndex),
                       AudioSource(scene), false, typing0, old(typingPeriod), frames0)
         else
           PlaybackRan(rerun, old(slide), old(video), old(audioSource), old(audioPlaying),
                       typing0, old(typingPeriod), frames0)
    }

    /**
     * The playback effect, run when `rerun`, from the given ref values.
     * Playing: re-arm the typing ticker with the scene's period, re-arm a
     * transition under way in a video scene and play the video, cancel the
     * pending frame, then draw once and request the next frame; in the first
     * scene, a video with its transition active makes that draw throw, and no
     * frame is requested. Paused: clear the typing ticker and the transition
     * ticker, pause video and audio. Scene, caption and `imageX` are left
     * alone either way, and only a throwing draw sets `crashed`.
     */
    ghost predicate PlaybackRan(rerun: bool, slide0: Slide, video0: Player, audio0: string, audioPlaying0: bool,
                                typing0: Interval, period0: nat, frames0: Interval)
      reads this
    {
      && sceneIndex < |scenes|
      && slide0.ticker.Valid() && typing0.Valid() && frames0.Valid()
      && var kind := scenes[sceneIndex].kind;
         if !rerun then
           && !crashed
           && slide == slide0 && video == video0
           && audioSource == audio0 && audioPlaying == audioPlaying0
           && typing == typing0 && typingPeriod == period0 && frames == frames0
         else if isPlaying then
           var resumed := Resume(slide0, kind);
           && video == (if kind == Video then video0.(playing := true) else video0)
           && audioSource == audio0 && audioPlaying == audioPlaying0
           && typing == Arm(Clear(typing0))
           && typingPeriod == TypingPeriod(scenes[sceneIndex], DefaultTypingSpeed)
           && (crashed <==> DrawThrows(resumed, kind, PreviousScene(scenes, sceneIndex)))
           && (if crashed then slide == resumed && frames == Clear(frames0)
               else slide == Draw(resumed, kind, width) && frames == Arm(Clear(frames0)))
         else
           && !crashed
           && slide == Pause(slide0) && video == video0.(playing := false)
           && audioSource == audio0 && !audioPlaying
           && typing == Clear(typing0) && typingPeriod == period0 && frames == frames0
    }

    /** Mount: initial state, then the effect phase of the first render. */
    constructor (scenes: seq<Scene>, videoLength: nat, width: nat)
      requires |scenes| > 0
      ensures Valid() && fresh(clock)
      ensures this.scenes == scenes && this.width == width
      ensures clock.limit == videoLength * 1000 && clock.time == 0 && !clock.isRunning
      ensures sceneIndex == 0 && nextStep == scenes[0].duration && !isPlaying && caption == []
      ensures slide == Pause(Enter(Still, scenes[0].kind))
      ensures video == Cue(Unloaded, scenes, 0).(playing := false)
      ensures audioSource == AudioSource(scenes[0]) && !audioPlaying
      ensures typing == Idle && frames == Idle && !crashed
    {
      this.scenes := scenes;
      this.width := width;
      clock := new Clock(videoLength * 1000);
      sceneIndex := 0;
      nextStep := scenes[0].duration;
      isPlaying := false;
      caption := [];
      typing := Idle;
      typingPeriod := 0;
      slide := Still;
      frames := Idle;
      video := Unloaded;
      audioSource := "";
      audioPlaying := false;
      crashed := false;
      new;
      RunEffects(true, true);
    }

    /** The effect phase; see `EffectsRan`. */
    method RunEffects(entered: bool, rerun: bool)
      requires sceneIndex < |scenes| && slide.ticker.Valid() && typing.Valid() && frames.Valid()
      requires !crashed
      modifies this`slide, this`video, this`audioSource, this`audioPlaying,
               this`typing, this`typingPeriod, this`frames, this`crashed
      ensures EffectsRan(entered, rerun, old(typing), old(frames))
    {
      if entered {
        EnterScene();
      }
      Playback(rerun);
    }

    /**
     * The scene-entry effect: cue the next scene's video if it is one,
     * install the scene's audio source, and start a transition into a video
     * scene (arming a ticker over the stored handle).
     */
    method EnterScene()
      requires sceneIndex < |scenes| && slide.ticker.Valid()
      modifies this`slide, this`video, this`audioSource, this`audioPlaying
      ensures slide == Enter(old(slide), scenes[sceneIndex].kind) && slide.ticker.Valid()
      ensures video == Cue(old(video), scenes, sceneIndex)
      ensures audioSource == AudioSource(scenes[sceneIndex]) && !audioPlaying
    {
      var scene := scenes[sceneIndex];
      video := Cue(video, scenes, sceneIndex);
      audioSource := AudioSource(scene);
      audioPlaying := false;
      slide := Enter(slide, scene.kind);
    }

    /** The playback effect; see `PlaybackRan`. */
    method Playback(rerun: bool)
      requires sceneIndex < |scenes| && slide.ticker.Valid() && typing.Valid() && frames.Valid()
      requires !crashed
      modifies this`slide, this`video, this`audioSource, this`audioPlaying,
               this`typing, this`typingPeriod, this`frames, this`crashed
      ensures PlaybackRan(rerun, old(slide), old(video), old(audioSource), old(audioPlaying),
                          old(typing), old(typingPeriod), old(frames))
    {
      if !rerun {
        return;
      }
      var scene := scenes[sceneIndex];
      if isPlaying {
        typing := Arm(Clear(typing));
        typingPeriod := TypingPeriod(scene, DefaultTypingSpeed);
        slide := Resume(slide, scene.kind);
        if scene.kind == Video {
          video := video.(playing := true);
        }
        frames := Clear(frames);
        if DrawThrows(slide, scene.kind, PreviousScene(scenes, sceneIndex)) {
          crashed := true;
        } else {
          slide := Draw(slide, scene.kind, width);
          frames := Arm(frames);
        }
      } else {
        typing := Clear(typing);
        slide := Pause(slide);
        video := video.(playing := false);
        audioPlaying := false;
      }
    }

    /** One tick of the clock's interval. */
    method TimerTick()
      requires Valid() && clock.isRunning && !crashed
      modifies clock
      ensures Valid()
      ensures clock.time == NextTime(clock.limit, old(clock.time))
      ensures clock.isRunning <==> old(clock.time) < Completion(clock.limit)
    {
      clock.Tick();
    }

    /**
     * The scheduler effect: only when `time == nextStep * 10` exactly, cancel
     * the frame chain, empty the caption and advance (wrapping to scene 0
     * and stopping `isPlaying` after the last scene); then the effect phase.
     * Any other time changes nothing, and no scene change throws: a scene
     * entered while playing is never the first one.
     */
    method SchedulerCheck()
      requires Valid() && !crashed
      modifies this
      ensures Valid() && !crashed
      ensures clock.time != old(nextStep) * 10 ==> unchanged(this)
      ensures clock.time == old(nextStep) * 10 ==>
        var step := Advance(scenes, old(sceneIndex), old(nextStep));
        && sceneIndex == step.index && nextStep == step.nextStep
        && isPlaying == (old(isPlaying) && !step.stop)
        && caption == []
        && EffectsRan(sceneIndex != old(sceneIndex),
                      sceneIndex != old(sceneIndex) || isPlaying != old(isPlaying),
                      old(typing), Clear(old(frames)))
    {
      if clock.time == nextStep * 10 {
        AdvanceKeepsThreshold(scenes, sceneIndex);
        frames := Clear(frames);
        caption := [];
        var step := Advance(scenes, sceneIndex, nextStep);
        var prevIndex, wasPlaying := sceneIndex, isPlaying;
        if step.stop {
          isPlaying := false;
        }
        sceneIndex, nextStep := step.index, step.nextStep;
        RunEffects(sceneIndex != prevIndex, sceneIndex != prevIndex || isPlaying != wasPlaying);
      }
    }

    /**
     * One tick of the typing interval: nothing while a transition is active;
     * otherwise start the paused audio if the caption is not complete, and
     * extend the caption by one character of the sentence.
     */
    method TypeStep()
      requires Valid() && typing.live > 0
      modifies this`caption, this`audioPlaying
      ensures Valid()
      ensures slide.active ==> caption == old(caption) && audioPlaying == old(audioPlaying)
      ensures !slide.active ==>
        && caption == TypedCaption(Sentence(), old(caption))
        && audioPlaying == (old(audioPlaying) || |old(caption)| < |Sentence()|)
    {
      if slide.active {
        return;
      }
      var sentence := scenes[sceneIndex].sentence;
      if !audioPlaying && |caption| < |sentence| {
        audioPlaying := true;
      }
      caption := TypedCaption(sentence, caption);
    }

    /** One firing of a live transition ticker. */
    method TransitionTick()
      requires Valid() && slide.ticker.live > 0
      modifies this`slide
      ensures Valid()
      ensures slide == Step(old(slide))
    {
      slide := Step(slide);
    }

    /**
     * One frame of the redraw chain: draw the current scene and request the
     * next frame. A draw that throws requests none, and the chain ends.
     */
    method FrameTick()
      requires Valid() && frames.live > 0
      modifies this`slide, this`frames
      ensures Valid()
      ensures DrawThrows(old(slide), scenes[sceneIndex].kind, PreviousScene(scenes, sceneIndex)) ==>
        slide == old(slide) && frames == Idle
      ensures !DrawThrows(old(slide), scenes[sceneIndex].kind, PreviousScene(scenes, sceneIndex)) ==>
        slide == Draw(old(slide), scenes[sceneIndex].kind, width) && frames == old(frames)
    {
      var kind := scenes[sceneIndex].kind;
      if DrawThrows(slide, kind, PreviousScene(scenes, sceneIndex)) {
        frames := Interval(frames.live - 1, false);
      } else {
        slide := Draw(slide, kind, width);
        frames := frames.(held := true);
      }
    }

    /**
     * `handlePauseOrResume`: clear the typing interval, flip `isPlaying`,
     * toggle the clock; then the playback effect runs, and may throw.
     */
    method TogglePlayPause()
      requires Valid() && !crashed
      modifies this, clock
      ensures Valid()
      ensures isPlaying == !old(isPlaying)
      ensures clock.isRunning == !old(clock.isRunning)
      ensures clock.time == if old(clock.Completed()) then 0 else old(clock.time)
      ensures sceneIndex == old(sceneIndex) && nextStep == old(nextStep) && caption == old(caption)
      ensures EffectsRan(false, true, Clear(old(typing)), old(frames))
    {
      typing := Clear(typing);
      isPlaying := !isPlaying;
      clock.PauseOrResume();
      RunEffects(false, true);
    }
  }
}
