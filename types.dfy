/** Entities and constants of the stick game (stick.js lines 1-23). */
module GameTypes {

  // Game constants, as declared at the top of stick.js.
  const PlatformHeight: real := 100.0
  const HeroDistanceFromEdge: real := 10.0
  const PaddingX: real := 100.0
  const PerfectAreaSize: real := 10.0
  const HeroWidth: real := 17.0
  const WalkingSpeed: real := 4.0
  const TransitioningSpeed: real := 2.0
  const FallingSpeed: real := 2.0
  const StretchingSpeed: real := 4.0
  const TurningSpeed: real := 4.0

  /** A platform: its left edge and its width. Never changed once created. */
  datatype Platform = Platform(x: real, w: real)

  /** A stick: its foot, its length and its rotation in degrees (0 upright, 90 flat). */
  datatype Stick = Stick(x: real, length: real, rotation: real)

  /** The values the `phase` string of the game loop can take. */
  datatype Phase = Waiting | Stretching | Turning | Walking | Transitioning | Falling

  /** What makes the game loop throw. */
  datatype GameError =
    | NoStick                         // `sticks[sticks.length - 1]` is undefined
    | StickNotHorizontal(rotation: real) // the hit test's guard on the last stick
    | NoTargetPlatform                // `nextPlatform.x` on an undefined platform

  datatype Option<T> = None | Some(value: T)

  datatype Result<T> = Ok(value: T) | Err(error: GameError)

  function Last<T>(s: seq<T>): T
    requires |s| > 0
  {
    s[|s| - 1]
  }

  /** `s` with its last element replaced: the in-place update of the last stick. */
  function SetLast<T>(s: seq<T>, x: T): seq<T>
    requires |s| > 0
  {
    s[|s| - 1 := x]
  }
}
