/**
 * The transition controller of the main engine: entering a video scene
 * slides the previous image out to the left while the video slides in from
 * the right. State: `imageTransition` (active), `imageX` (x) and the handle
 * of the ticker that lowers `imageX`.
 */
module Transition {
  import opened Scenes
  import opened Intervals

  /** `IMAGE_TRANSITION_SPEED`: pixels per transition tick (one tick every 20 ms). */
  const Speed: nat := 10

  datatype Slide = Slide(active: bool, x: int, ticker: Interval)

  const Still: Slide := Slide(false, 0, Idle)

  function Abs(x: int): nat { if x < 0 then -x else x }

  /**
   * Scene entry: a video scene activates the transition and arms a ticker,
   * overwriting the stored handle; an image scene changes nothing, not even
   * a transition still lingering from before.
   */
  function Enter(s: Slide, kind: Kind): (r: Slide)
    ensures s.ticker.Valid() ==> r.ticker.Valid()
    ensures r.x == s.x
    ensures kind == Video ==> r.active && r.ticker.held && r.ticker.live == s.ticker.live + 1
    ensures kind == Image ==> r == s
  {
    if kind == Video then s.(active := true, ticker := Arm(s.ticker)) else s
  }

  /** Playback (re)start in a video scene re-arms the ticker of a transition under way. */
  function Resume(s: Slide, kind: Kind): (r: Slide)
    ensures s.ticker.Valid() ==> r.ticker.Valid()
    ensures r.x == s.x && r.active == s.active
    ensures r != s <==> kind == Video && s.active && s.x < 0
    ensures r != s ==> r.ticker.held && r.ticker.live == s.ticker.live + 1
  {
    if kind == Video && s.x < 0 && s.active then s.(ticker := Arm(s.ticker)) else s
  }

  /** One firing of a live ticker; tickers do not look at `active`. */
  function Step(s: Slide): (r: Slide)
    ensures r.x + Speed == s.x
    ensures r.active == s.active && r.ticker == s.ticker
  {
    s.(x := s.x - Speed)
  }

  /**
   * The draw routine of a video scene ends the transition once the image has
   * left the canvas; a draw never starts a ticker.
   */
  function Draw(s: Slide, kind: Kind, width: nat): (r: Slide)
    requires s.ticker.Valid()
    ensures r.ticker.Valid() && r.ticker.live <= s.ticker.live
    ensures r != s ==> !r.active && r.x == 0 && !r.ticker.held
    ensures r != s ==> r.ticker.live == (if s.ticker.held then s.ticker.live - 1 else s.ticker.live)
  {
    if kind == Video && s.active && Abs(s.x) > width then Slide(false, 0, Clear(s.ticker))
    else s
  }

  /**
   * During a transition the draw of a video scene also paints the previous
   * scene's image, reading that scene's media; the first scene has no
   * previous scene (`previous` is absent), and there the draw throws before
   * it requests a frame.
   */
  predicate DrawThrows(s: Slide, kind: Kind, previous: Option<Scene>): (r: bool)
    ensures r ==> kind == Video && s.active
    ensures previous.Some? ==> !r
    ensures previous.None? && kind == Video && s.active ==> r
  {
    kind == Video && s.active && previous.None?
  }

  /** Pausing clears the ticker the handle refers to, and keeps position and activity. */
  function Pause(s: Slide): (r: Slide)
    requires s.ticker.Valid()
    ensures r.ticker.Valid() && !r.ticker.held && r.ticker.live <= s.ticker.live
    ensures r.ticker.live == (if s.ticker.held then s.ticker.live - 1 else s.ticker.live)
    ensures r.x == s.x && r.active == s.active
  {
    s.(ticker := Clear(s.ticker))
  }

  /** `n` ticker firings. */
  function Steps(s: Slide, n: nat): Slide
    decreases n
  {
    if n == 0 then s else Steps(Step(s), n - 1)
  }

  /** Each firing lowers `x` by 10 and touches nothing else, so `x` only decreases under ticks. */
  lemma {:induction false} StepsLower(s: Slide, n: nat)
    ensures Steps(s, n) == s.(x := s.x - Speed * n)
    decreases n
  {
    if n > 0 {
      StepsLower(Step(s), n - 1);
    }
  }

  /**
   * A transition that starts at 0 ends at the first draw after
   * `width / 10 + 1` ticks, and no draw before that ends it.
   */
  lemma SlideEnds(s: Slide, width: nat, n: nat)
    requires s.active && s.x == 0 && s.ticker.Valid()
    ensures Steps(s, n).ticker == s.ticker
    ensures Draw(Steps(s, n), Video, width).active <==> n <= width / Speed
  {
    StepsLower(s, n);
  }

  /** A draw ends the transition exactly when it is active in a video scene with `|x| > width`; then `x` is 0 again. */
  lemma DrawEndsIff(s: Slide, kind: Kind, width: nat)
    requires s.ticker.Valid()
    ensures Draw(s, kind, width).active <==> s.active && !(kind == Video && Abs(s.x) > width)
    ensures !Draw(s, kind, width).active ==> Draw(s, kind, width).x == (if s.active then 0 else s.x)
  {
  }

  /**
   * Entering a video scene while a ticker is still live and held loses that
   * ticker: once the draw ends the transition, one ticker is still live and
   * no handle refers to it, so it keeps lowering `x` after the transition.
   */
  lemma EnterOverLiveTickerLeaks(s: Slide, width: nat)
    requires s.ticker.Valid() && s.ticker.held && Abs(s.x) > width
    ensures var t := Draw(Enter(s, Video), Video, width);
      !t.active && t.x == 0 && t.ticker.live == s.ticker.live > 0 && !t.ticker.held
  {
  }
}
