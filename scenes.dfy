/**
 * The scene script: one record per scene, as `SceneDataType` declares it, and
 * the script the application ships with.
 */
module Scenes {

  datatype Option<T> = None | Some(value: T)

  /** The `type` field; the source compares it with "image" and "video". */
  datatype Kind = Image | Video

  /**
   * One scripted scene. `duration` is in seconds. The optional numbers are
   * read with `||` by the engines, so `Some(0)` behaves like `None`.
   */
  datatype Scene = Scene(
    index: nat,
    sentence: string,
    media: string,
    audio: Option<string>,
    duration: nat,
    kind: Kind,
    startFrom: Option<nat>,
    typingSpeed: Option<nat>)

  /** `x || fallback` for an optional number: absent and 0 are both falsy. */
  function OrDefault(x: Option<nat>, fallback: nat): (r: nat)
    ensures x.Some? && x.value != 0 ==> r == x.value
    ensures (x == None || x == Some(0)) ==> r == fallback
  {
    if x.Some? && x.value != 0 then x.value else fallback
  }

  /** The period of a scene's typing interval: `typingSpeed || fallback`. */
  function TypingPeriod(s: Scene, fallback: nat): (r: nat)
    ensures fallback > 0 ==> r > 0
    ensures s.typingSpeed.Some? && s.typingSpeed.value != 0 ==> r == s.typingSpeed.value
    ensures s.typingSpeed == None || s.typingSpeed == Some(0) ==> r == fallback
  {
    OrDefault(s.typingSpeed, fallback)
  }

  /** Where a cued video starts playing: `startFrom || 0`. */
  function StartPosition(s: Scene): (r: nat)
    ensures s.startFrom.Some? && s.startFrom.value != 0 ==> r == s.startFrom.value
    ensures s.startFrom == None || s.startFrom == Some(0) ==> r == 0
  {
    OrDefault(s.startFrom, 0)
  }

  /** The audio source a scene installs: `audio || ""` (an empty `audio` gives "" either way). */
  function AudioSource(s: Scene): (r: string)
    ensures s.audio.Some? ==> r == s.audio.value
    ensures s.audio.None? ==> r == ""
  {
    match s.audio
    case Some(a) => a
    case None => ""
  }

  /**
   * `scenes[i - 1]` as the script array answers it: the scene before `i`, or
   * `undefined` (absent) for the first scene and any index past the end.
   */
  function PreviousScene(scenes: seq<Scene>, i: nat): (r: Option<Scene>)
    ensures r.Some? <==> 0 < i <= |scenes|
    ensures r.Some? ==> r.value == scenes[i - 1]
  {
    if 0 < i <= |scenes| then Some(scenes[i - 1]) else None
  }

  /** The `videoLength` the application passes (seconds). */
  const VideoLength: nat := 16

  /** The canvas width the application renders on (pixels). */
  const CanvasWidth: nat := 800

  /** The script the application ships with. */
  const ShippedScenes: seq<Scene> := [
    Scene(0, "This is a simple Javascript test",
          "https://miro.medium.com/max/1024/1*OK8xc3Ic6EGYg2k6BeGabg.jpeg",
          Some("/assets/audio/this_is_a_simple_Javascript_test.mp3"),
          3, Image, None, None),
    Scene(1, "Here comes the video!",
          "https://media.gettyimages.com/videos/goodlooking-young-woman-in%02casual-clothing-is-painting-in-workroom-video-id1069900546",
          Some("/assets/audio/here_comes_the_video!.mp3"),
          5, Video, Some(5), None),
    Scene(2, "This is a second repeated screen",
          "https://miro.medium.com/max/1024/1*OK8xc3Ic6EGYg2k6BeGabg.jpeg",
          Some("/assets/audio/this_is_a_second_repeated_screen.mp3"),
          3, Image, None, None),
    Scene(3, "This is our last video!",
          "https://media.gettyimages.com/videos/goodlooking-young-woman-in%02casual-clothing-is-painting-in-workroom-video-id1069900546",
          Some("/assets/audio/this_is_our_last_video.mp3"),
          5, Video, Some(8), None)
  ]
}

/**
 * The opaque video element, reduced to what the engines set on it: its
 * source, its start position and whether it plays. Assigning a source runs
 * the media element's load algorithm, which leaves it paused.
 */
module Media {
  import opened Scenes

  datatype Player = Player(source: string, start: nat, playing: bool)

  const Unloaded: Player := Player("", 0, false)

  /**
   * Cue the scene after `i` when there is one and it is a video: load its
   * media at `startFrom || 0`, paused; otherwise the player is left as it is.
   */
  function Cue(v: Player, scenes: seq<Scene>, i: nat): (r: Player)
    requires i < |scenes|
    ensures r != v ==> i + 1 < |scenes| && scenes[i + 1].kind == Video
    ensures i + 1 < |scenes| && scenes[i + 1].kind == Video ==>
              r == Player(scenes[i + 1].media, StartPosition(scenes[i + 1]), false)
  {
    if i + 1 < |scenes| && scenes[i + 1].kind == Video then
      Player(scenes[i + 1].media, StartPosition(scenes[i + 1]), false)
    else
      v
  }
}
