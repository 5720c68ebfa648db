# Scene playback engine of canvas-rendering-hook

The application plays a scripted sequence of image and video scenes on a
canvas and types a caption under each. This project models the engine
behind it as sequential, atomic callbacks:

- **The pausable clock** of `useTimer` (`Timer.Clock`). `time` counts 100 ms ticks up to `limit / 100`, and the clock stops itself there. One toggle serves as start, pause, resume and restart after completion.
- **The scene scheduler** (`Scheduler`). `nextStep` holds the cumulative duration of the scenes up to the current one. The scene advances only when `time == nextStep * 10` exactly, and it wraps to scene 0 (clearing `isPlaying`) after the last one.
- **The caption typist** (`Typist`). Each typing step shows one more character of the sentence.
- **The transition controller** (`Transition`). Entering a video scene slides the previous image off to the left.
- **Timer handles and frame chains** (`Intervals`). A handle counts the timers still firing and whether the stored handle refers to one of them. Arming over a held handle therefore loses a timer, exactly as in the source.
- **The engine of `useRenderScene`** (`RenderScene.Engine`). It has one method per callback: clock tick, scheduler check, typing step, transition tick, animation frame, and the play/pause toggle.
  - The effect phase React runs after a render is part of the method that caused the render.
  - The scene-entry effect runs when the scene index changed.
  - The playback effect runs when the index or `isPlaying` changed.
- **The alternate engine of `solution1.tsx`** (`AlternateEngine.Engine`). It has the same clock and scheduler, a typist with no transition gating (default period 80 ms), no transition, and a frame chain restarted without cancelling the previous one.
- **Concrete runs** (`Scenarios`).
  - The shipped script (durations 3, 5, 3, 5 s over a 16 s video) advances at ticks 30, 80, 110 and 160. At 160 it wraps to scene 0 with `isPlaying` false, the clock stops on its next tick, and the next toggle restarts it from 0.
  - Further runs show:
    - a tick the scheduler misses skips the advance for good;
    - `isPlaying` and `isRunning` drift apart after a toggle at the wrap;
    - the first play of a script that opens with a video throws in its draw, and its caption is never typed;
    - two video scenes in a row leave an orphaned transition ticker running;
    - the alternate engine keeps two frame chains after a pause and resume.

Interleavings of the real timers become arbitrary call sequences of these
methods. Each callback requires its timer to be live (the clock is running, or
the typing, transition or frame handle has a live timer).

## Model

| member | source | states |
|---|---|---|
| Scenes.OrDefault | src/hooks/useRenderScene.tsx:166-169 | `x \|\| fallback` on an optional number: the result is the given value when it is present and non-zero, and the fallback when it is absent or 0 |
| Scenes.TypingPeriod | src/hooks/useRenderScene.tsx:166-169 | the typing period is the scene's `typingSpeed` when that is non-zero, otherwise the default, and it is positive whenever the default is |
| Scenes.StartPosition | src/hooks/useRenderScene.tsx:143 | a cued video starts at the scene's `startFrom` when that is present and non-zero, and at 0 when it is absent or 0 |
| Scenes.AudioSource | src/hooks/useRenderScene.tsx:149 | the audio source is the scene's `audio` when present, and the empty string when absent |
| Scenes.PreviousScene | src/hooks/useRenderScene.tsx:108 | `scenesData[currentSceneIndex - 1]` is the scene before the current one exactly when the index is between 1 and the scene count, and `undefined` otherwise (in particular for the first scene) |
| Media.Cue | src/hooks/useRenderScene.tsx:135-145 | the video element changes only when a next scene exists and is a video; it then holds that scene's media at `startFrom \|\| 0`, paused |
| Intervals.Arm | src/hooks/useRenderScene.tsx:154 | `setInterval` stored through a handle: one more live timer, and the handle now refers to it |
| Intervals.Clear | src/hooks/useRenderScene.tsx:37-42 | `clearInterval` through the handle stops the timer it refers to, if any, and no other; afterwards the handle refers to no live timer |
| Intervals.ClearThenArmKeepsOne | src/hooks/useRenderScene.tsx:165-169 | clearing a handle before re-arming it, with at most one timer live, leaves exactly one live timer, held |
| Intervals.ArmOverHeldLeaks | src/hooks/useRenderScene.tsx:152-157 | arming over a handle that still holds a live timer loses it: a later clear leaves as many timers live as before the arming, none of them reachable |
| Timer.BelowLimit | src/hooks/useTimer.tsx:12 | the guard `prevTime < limit / 100` holds exactly for `prevTime` below the completion count `ceil(limit / 100)` |
| Timer.NextTime | src/hooks/useTimer.tsx:11-18 | the tick updater adds 1 exactly when `time` is below the completion count `ceil(limit / 100)` (never with limit 0), and otherwise leaves `time` as it is |
| Timer.CompletionOfMultiple | src/hooks/useTimer.tsx:31 | for a limit that is a multiple of 100 the clock completes at `limit / 100`, where `time * 100 == limit` |
| Timer.TicksSaturate | src/hooks/useTimer.tsx:10-20 | from any time within bounds, `n` ticks count up by exactly `n` and saturate at the completion count, never past it |
| Timer.TicksNeverRevisit | src/hooks/useTimer.tsx:10-20 | ticks never bring `time` back to a value below it, so a threshold passed unobserved is never met again before a restart |
| Timer.StuckWithoutRestart | src/hooks/useTimer.tsx:12-17 | with a limit that is not a multiple of 100 the clock stops where `time * 100 != limit`, ticks keep it there, and the toggle's reset never fires |
| Timer.Clock.constructor | src/hooks/useTimer.tsx:3-6 | a new clock is at time 0, not running |
| Timer.Clock.Tick | src/hooks/useTimer.tsx:10-20 | below the completion count `time` goes up by exactly 1 and the clock keeps running; at or past it, or with limit 0 (absent), `time` stays and the clock stops; `time` never exceeds the completion count |
| Timer.Clock.Start | src/hooks/useTimer.tsx:30-35 | afterwards the clock runs; `time` is reset to 0 only if the clock was stopped at completion |
| Timer.Clock.Resume | src/hooks/useTimer.tsx:43-48 | the same postcondition as `Start`, by calling it |
| Timer.Clock.Stop | src/hooks/useTimer.tsx:37-41 | always ends stopped at time 0 |
| Timer.Clock.PauseOrResume | src/hooks/useTimer.tsx:50-55 | flips `isRunning`; resets `time` to 0 exactly when stopped with `time * 100 == limit`, and otherwise leaves it; keeps `time` within bounds |
| Timer.ToggleTwiceRestores | src/hooks/useTimer.tsx:50-55 | pause then resume (or the reverse) with no tick between, away from completion, restores `time` and `isRunning` |
| Scheduler.Advance | src/hooks/useRenderScene.tsx:201-213 | the advanced index is always a valid scene index |
| Scheduler.AdvanceKeepsThreshold | src/hooks/useRenderScene.tsx:199-215 | an advance keeps `nextStep` equal to the sum of the durations up to the current scene; it stops and wraps to scene 0 exactly from the last scene, and otherwise moves on by one |
| Scheduler.ThresholdGrowth | src/hooks/useRenderScene.tsx:211 | a later scene's threshold exceeds an earlier one's by at least the later scene's duration |
| Scheduler.Advanced | src/hooks/useRenderScene.tsx:199-215 | any number of advances from the initial state leaves a valid scene index |
| Scheduler.AdvancedSchedule | src/hooks/useRenderScene.tsx:199-215 | advance `n` (below the scene count) shows scene `n` with its cumulative threshold and keeps playing; the advance after the last scene shows scene 0 with its duration and stops |
| Scheduler.ShippedThresholds | src/utils/mediaData.ts:3-40 | the shipped script's thresholds are 3, 8, 11 and 16 s, the last equal to the video length the application passes |
| Typist.TypedCaption | src/hooks/useRenderScene.tsx:129-132 | a typing step yields a prefix of the sentence, one character longer than the caption and clamped at the sentence's length, and extends a caption that was a prefix |
| Typist.TypingStopsAtSentence | src/hooks/useRenderScene.tsx:129-132 | a complete caption stays as it is |
| Typist.TypingRevealsPrefix | src/hooks/useRenderScene.tsx:129-132 | after `n` typing steps from the empty caption, the caption is the first `min(n, length)` characters of the sentence |
| Transition.Enter | src/hooks/useRenderScene.tsx:152-157 | entering a video scene activates the transition and arms one more ticker over the handle; entering an image scene changes nothing, not even a lingering transition |
| Transition.Resume | src/hooks/useRenderScene.tsx:171-176 | playback start re-arms a ticker exactly when the scene is a video and a transition is active with `imageX < 0` |
| Transition.Step | src/hooks/useRenderScene.tsx:155 | one firing of a transition ticker lowers `imageX` by 10 and leaves the transition's activity and handle alone |
| Transition.Draw | src/hooks/useRenderScene.tsx:88-93 | a draw starts no ticker; when it changes the transition it ends it with `imageX` 0, and `clearInterval` stops the ticker the handle held (one fewer live) and leaves the handle empty |
| Transition.DrawThrows | src/hooks/useRenderScene.tsx:79-81 | a draw throws only while a transition is active in a video scene (where it paints the previous scene's image), never when a previous scene exists, and always when there is none |
| Transition.Pause | src/hooks/useRenderScene.tsx:185 | pausing stops the ticker the handle held (one fewer live), leaves the handle empty, and keeps `imageX` and the transition's activity |
| Transition.StepsLower | src/hooks/useRenderScene.tsx:154-156 | `n` ticker firings lower `imageX` by exactly `10 * n` and change nothing else |
| Transition.SlideEnds | src/hooks/useRenderScene.tsx:88-93 | a transition from `imageX` 0 ends at the first draw after more than `width / 10` firings, and no draw before that ends it |
| Transition.DrawEndsIff | src/hooks/useRenderScene.tsx:88-93 | after a draw the transition is active exactly when it was and it is not a video scene with `\|imageX\| > width`; a transition it ends is left at 0 |
| Transition.EnterOverLiveTickerLeaks | src/hooks/useRenderScene.tsx:152-157 | entering a video scene while the previous ticker is still held leaves, once the draw ends the transition, a live ticker no handle refers to |
| RenderScene.Engine.constructor | src/hooks/useRenderScene.tsx:14-28 | mount: scene 0 with `nextStep` the first duration, paused, empty caption, a clock with limit `videoLength * 1000` at 0; the first effect phase has cued the video, installed the audio, and entered then paused the first scene's transition; nothing has thrown |
| RenderScene.Engine.EnterScene | src/hooks/useRenderScene.tsx:135-157 | the scene-entry effect cues the next scene's video, installs the scene's audio source (paused), and enters the transition |
| RenderScene.Engine.Playback | src/hooks/useRenderScene.tsx:161-188 | playing: re-arms the typing ticker (one live) at `typingSpeed \|\| 65`, resumes a transition under way, plays a video scene's video and cancels the pending frame; then the draw either ends or keeps the transition and restarts the frame chain (one live), or, in the first scene with a video and an active transition (no previous scene to paint, lines 81 and 108), throws and starts no chain; paused: clears the typing and transition tickers and pauses video and audio; the scene, caption and `imageX` are untouched, and only the throwing draw sets `crashed` |
| RenderScene.Engine.RunEffects | src/hooks/useRenderScene.tsx:135-197 | the effect phase: the entry effect when the scene changed, then the playback effect when asked, with its throwing outcome |
| RenderScene.Engine.TimerTick | src/hooks/useTimer.tsx:10-20 | one clock tick, with the tick's contract, keeping the engine invariant |
| RenderScene.Engine.SchedulerCheck | src/hooks/useRenderScene.tsx:199-215 | at any time other than `nextStep * 10` nothing changes; at that time the frame chain is cancelled, the caption emptied, the scene advanced (wrapping and clearing only `isPlaying` after the last one), and the effects run for what changed; `nextStep` stays the cumulative threshold, and no scene change throws |
| RenderScene.Engine.TypeStep | src/hooks/useRenderScene.tsx:116-133 | nothing changes while a transition is active; otherwise the audio starts if it was paused and the caption is incomplete, and the caption grows by one character of the sentence, staying a prefix of it |
| RenderScene.Engine.TransitionTick | src/hooks/useRenderScene.tsx:154-156 | each firing of a live ticker lowers `imageX` by 10, whether or not the transition is still active |
| RenderScene.Engine.FrameTick | src/hooks/useRenderScene.tsx:104-114 | a frame draws the current scene, which may end the transition, and requests the next frame through the same handle, so the chain stays live; a draw that throws requests none, and the chain ends |
| RenderScene.Engine.TogglePlayPause | src/hooks/useRenderScene.tsx:217-221 | clears the typing ticker, flips `isPlaying`, toggles the clock with its own reset rule, and runs the playback effect, including its throwing outcome; scene, `nextStep` and caption are unchanged |
| AlternateEngine.Engine.constructor | src/hooks/solution1.tsx:10-24 | mount: scene 0, paused, empty caption, no timers, nothing cued, a clock with limit `videoLength * 1000` at 0 |
| AlternateEngine.Engine.Playback | src/hooks/solution1.tsx:80-133 | playing: both effects clear and re-arm the typing ticker at `typingSpeed \|\| 80` (one live), one more frame chain starts without cancelling the pending one, the next video is cued and a video scene's video plays; paused: the typing ticker is cleared and the video paused |
| AlternateEngine.Engine.TimerTick | src/hooks/useTimer.tsx:10-20 | one clock tick, with the tick's contract, keeping the engine invariant |
| AlternateEngine.Engine.SchedulerCheck | src/hooks/solution1.tsx:135-152 | the same exact-equality scheduler: nothing changes off the threshold; at it the pending frame is cancelled, the caption emptied, the scene advanced, and the playback effects run for what changed |
| AlternateEngine.Engine.TypeStep | src/hooks/solution1.tsx:86-90 | a typing step with no gating: the caption grows by one character of the sentence, staying a prefix of it |
| AlternateEngine.Engine.FrameTick | src/hooks/solution1.tsx:58-78 | a frame of a chain requests the next one, and the handle refers to it |
| AlternateEngine.Engine.TogglePlayPause | src/hooks/solution1.tsx:154-158 | clears the typing ticker, flips `isPlaying`, toggles the clock and runs the playback effects; scene, `nextStep` and caption are unchanged |
| Scenarios.ShippedPlayback | src/hooks/useRenderScene.tsx:199-215 | with the shipped script and a scheduler check after every tick, the scene at tick `t` follows thresholds 30, 80, 110, 160; the transition starts at 30; at 160 `isPlaying` is false while the clock runs; the next tick stops the clock at 160, and the next toggle restarts it at 0, playing |
| Scenarios.MissedTickSkipsAdvance | src/hooks/useRenderScene.tsx:200 | if the scheduler first looks at tick 31, scene 0 stays, and no further tick brings the time back to 30 |
| Scenarios.ToggleAtWrapDesynchronises | src/hooks/useRenderScene.tsx:217-221 | a toggle after the wrap, before the clock's next tick, gives `isPlaying` true with the clock stopped; the next toggle gives `isPlaying` false with the clock running from 0 |
| Scenarios.VideoFirstScenePlayThrows | src/hooks/useRenderScene.tsx:79-112 | when the script opens with a video, the first play throws in its draw (the first scene has no previous scene to paint) and starts no frame chain; the transition stays active with no ticker, so the typing interval adds nothing |
| Scenarios.LingeringTransitionLeaksTicker | src/hooks/useRenderScene.tsx:152-157 | two video scenes in a row: after the draw ends the transition one ticker is still live and unheld, it keeps lowering `imageX` (to -10), and a pause does not stop it |
| Scenarios.ResumeFrameChains | src/hooks/solution1.tsx:80-92 | after pause and resume the main engine has one live frame chain, the alternate engine two |

## Left out

- Canvas drawing, image decoding and text rendering are foreign browser APIs. Only their effect on the transition state is modelled (`Transition.Draw`), along with the throw when the previous scene's media is read in the first scene (`Transition.DrawThrows`). The x offsets at which the video and the outgoing image are painted are not modelled.
- The video and audio elements are reduced to a source, a start position and a playing flag.
  - Assigning a source is taken to leave the element paused, as the media element's load algorithm does.
  - `onloadedmetadata` in `solution1.tsx` (lines 103-107) is not modelled: the video plays when the second effect says so.
- Wall-clock time and timer periods (100 ms, 20 ms, typing periods, animation frames) are not modelled; only the period a typing ticker was armed with is recorded. Real interleavings are arbitrary call sequences of the callback methods.
- Closures that captured an old scene index or `isPlaying` are not modelled: a callback acts on the current scene. A frame chain started while playing keeps its captured `isPlaying` (true) and keeps firing after a pause. The model keeps it live in the same way, but draws with the current scene's kind.
- The null refs of the first render in `solution1.tsx` (lines 20-22 read the refs during render) are not modelled; the elements are taken as present.
- `substring` works on UTF-16 code units; captions are sequences of characters here.
- RenderScene.Engine.SchedulerCheck: `duration` and `videoLength` are JavaScript numbers in the source, while `Scene` holds them as naturals. The test is `time === nextStep * 10`, so a cumulative `nextStep` whose tenfold is not an integer (0.25, or 0.1 + 0.2 accumulating to 0.30000000000000004) never equals the integer tick count, and such a scene never advances, in either engine (`AlternateEngine.Engine.SchedulerCheck` alike). A fractional `nextStep` whose tenfold is an integer (0.5, 0.1) advances as usual. The model cannot express the fractional cases. `startFrom` and `typingSpeed` are naturals here for the same reason.
- After an effect throws (`crashed`), only the callbacks whose timers outlive the unmounted tree are modelled: the typing and transition tickers and the frame chain. The clock tick, the scheduler and the toggle require that nothing has thrown, because the unmount clears the clock's interval, runs no further effects and removes the canvas that takes the click. React's error reporting is not modelled.
- Scene types other than `"image"` and `"video"` are not modelled.
- `useInterval` and `useTimeout` (`useTimer.tsx` lines 69-98) are thin wrappers over the timer APIs. `useVideoWithText.tsx` is media-event plumbing around a floating-point stop condition and is not used by the application. The markup and progress bar of `App.tsx` are display only.
