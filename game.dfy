/**
 * The game session: the globals of stick.js (lines 3-8) as the fields of one
 * object, and the routines that change them in place.
 */
module Game {
  import opened GameTypes
  import opened Platforms
  import opened HitTest
  import opened GameStep

  class Game {
    var phase: Phase
    var heroX: real
    var heroY: real
    var sceneOffset: real
    var score: int
    var platforms: seq<Platform>
    var sticks: seq<Stick>

    /** The session's current value. */
    function State(): Snapshot
      reads this
    {
      Snapshot(phase, heroX, heroY, sceneOffset, score, platforms, sticks)
    }

    ghost predicate Valid()
      reads this
    {
      Inv(State())
    }

    /** `init`'s part in the game state: it starts with a reset. */
    constructor (draws: seq<Draw>)
      requires InitialDraws(draws)
      ensures Valid() && State() == Initial(draws)
    {
      new;
      ResetGame(draws);
    }

    /** `generatePlatform`: appends one platform after the last, placed by the draws `d`. */
    method GeneratePlatform(d: Draw)
      requires |platforms| > 0 && InRange(d)
      modifies this
      ensures platforms == old(platforms) + [NextPlatform(Last(old(platforms)), d)]
      ensures State() == old(State()).(platforms := platforms)
      ensures old(Valid()) ==> Valid()
    {
      if Valid() {
        SpacedAppend(platforms, d);
        if phase == Transitioning {
          HitSurvivesAppend(platforms, sticks, NextPlatform(Last(platforms), d));
        }
      }
      var lastPlatform := Last(platforms);
      var furthestX := lastPlatform.x + lastPlatform.w;
      var x := furthestX + (MinGap + d.gap) as real;
      var w := (MinWidth + d.width) as real;
      platforms := platforms + [Platform(x, w)];
    }

    /** `resetGame`: rebuilds the whole state, generating four platforms after the first. */
    method ResetGame(draws: seq<Draw>)
      requires InitialDraws(draws)
      modifies this
      ensures Valid() && State() == Initial(draws)
    {
      phase := Waiting;
      sceneOffset := 0.0;
      score := 0;

      platforms := [FirstPlatform];
      GeneratePlatform(draws[0]);
      GeneratePlatform(draws[1]);
      GeneratePlatform(draws[2]);
      GeneratePlatform(draws[3]);

      sticks := [Stick(platforms[0].x + platforms[0].w, 0.0, 0.0)];

      heroX := platforms[0].x + platforms[0].w - HeroDistanceFromEdge;
      heroY := 0.0;
      InitialInv(draws);
    }

    /** `onMouseDown`. */
    method OnMouseDown()
      modifies this
      ensures State() == Press(old(State()))
      ensures old(Valid()) ==> Valid()
    {
      if phase == Waiting {
        phase := Stretching;
      }
    }

    /** `onMouseUp`. */
    method OnMouseUp()
      modifies this
      ensures State() == Release(old(State()))
      ensures old(Valid()) ==> Valid()
    {
      if phase == Stretching {
        phase := Turning;
      }
    }

    /**
     * One pass of `animate`'s phase switch, `dt` after the previous frame. It keeps
     * the invariant and does what Step specifies, so it never throws.
     */
    method Animate(dt: real, draw: Draw, maxHeroY: real) returns (effects: Effects)
      requires Valid() && dt >= 0.0 && InRange(draw)
      modifies this
      ensures Valid()
      ensures Step(old(State()), dt, draw, maxHeroY) == Ok(Outcome(State(), effects))
    {
      StepKeepsInv(State(), dt, draw, maxHeroY);
      effects := Redraw;
      match phase {
        case Waiting =>
          effects := Idle;
        case Stretching =>
          var st := Last(sticks);
          sticks := SetLast(sticks, st.(length := st.length + dt / StretchingSpeed));
        case Turning =>
          var st := Last(sticks);
          var before := sticks;
          sticks := SetLast(sticks, st.(rotation := st.rotation + dt / TurningSpeed));
          if Last(sticks).rotation > 90.0 {
            sticks := SetLast(sticks, st.(rotation := 90.0));
            assert sticks == SetLast(before, st.(rotation := 90.0));
            var hit := PlatformTheStickHits(platforms, sticks).value;
            if hit.platform.Some? {
              score := score + (if hit.perfect then 2 else 1);
              effects := effects.(scoreShown := true, perfectShown := hit.perfect);
              GeneratePlatform(draw);
            }
            phase := Walking;
          }
        case Walking =>
          heroX := heroX + dt / WalkingSpeed;
          var hit := PlatformTheStickHits(platforms, sticks).value;
          if hit.platform.Some? {
            var p := hit.platform.value;
            var maxHeroX := p.x + p.w - HeroDistanceFromEdge;
            if heroX > maxHeroX {
              heroX := maxHeroX;
              phase := Transitioning;
            }
          } else {
            var st := Last(sticks);
            var maxHeroX := st.x + st.length + HeroWidth;
            if heroX > maxHeroX {
              heroX := maxHeroX;
              phase := Falling;
            }
          }
        case Transitioning =>
          sceneOffset := sceneOffset + dt / TransitioningSpeed;
          var p := PlatformTheStickHits(platforms, sticks).value.platform.value;
          if sceneOffset > p.x + p.w - PaddingX {
            sticks := sticks + [Stick(p.x + p.w, 0.0, 0.0)];
            phase := Waiting;
          }
        case Falling =>
          var st := Last(sticks);
          if st.rotation < 180.0 {
            sticks := SetLast(sticks, st.(rotation := st.rotation + dt / TurningSpeed));
          }
          heroY := heroY + dt / FallingSpeed;
          if heroY > maxHeroY {
            effects := effects.(restartShown := true, continues := false);
          }
      }
    }
  }
}
