/**
 * The game state machine as values: the state the loop works on, one tick of
 * `animate` (stick.js lines 47-136), the two input handlers (lines 343-355) and
 * the state `resetGame` builds (lines 390-405), with what they keep invariant.
 */
module GameStep {
  import opened GameTypes
  import opened Platforms
  import opened HitTest

  /** The game's global variables that the loop and the handlers change. */
  datatype Snapshot = Snapshot(
    phase: Phase,
    heroX: real,
    heroY: real,
    sceneOffset: real,
    score: int,
    platforms: seq<Platform>,
    sticks: seq<Stick>)

  /**
   * What a tick does beyond the state: `updateScore()`, `showPerfect()`,
   * `showRestartButton()`, and whether it redraws and schedules the next frame.
   */
  datatype Effects = Effects(scoreShown: bool, perfectShown: bool, restartShown: bool, continues: bool)

  datatype Outcome = Outcome(next: Snapshot, effects: Effects)

  const Idle := Effects(false, false, false, false)
  const Redraw := Effects(false, false, false, true)

  /** Points a hit earns on the turning-to-walking transition. */
  function Points(h: Hit): nat {
    if h.platform.None? then 0 else if h.perfect then 2 else 1
  }

  /**
   * One tick of the game loop, `dt` after the previous one; `draw` is what the
   * random source yields if a platform is generated, `maxHeroY` the falling
   * threshold. An `Err` is where the loop would throw.
   */
  function Step(s: Snapshot, dt: real, draw: Draw, maxHeroY: real): (r: Result<Outcome>)
    requires InRange(draw)
    ensures s.phase == Waiting ==> r.Ok?
    ensures s.phase in {Stretching, Turning, Falling} ==> (r.Err? <==> |s.sticks| == 0)
    ensures s.phase == Walking ==> (r.Err? <==> PlatformTheStickHits(s.platforms, s.sticks).Err?)
    ensures s.phase == Transitioning ==>
              (r.Err? <==> (PlatformTheStickHits(s.platforms, s.sticks).Err? ||
                            PlatformTheStickHits(s.platforms, s.sticks).value.platform.None?))
  {
    match s.phase
    case Waiting =>
      Ok(Outcome(s, Idle))
    case Stretching =>
      if |s.sticks| == 0 then Err(NoStick)
      else
        var st := Last(s.sticks);
        Ok(Outcome(s.(sticks := SetLast(s.sticks, st.(length := st.length + dt / StretchingSpeed))), Redraw))
    case Turning =>
      if |s.sticks| == 0 then Err(NoStick)
      else
        var st := Last(s.sticks);
        var rotation := st.rotation + dt / TurningSpeed;
        if rotation <= 90.0 then
          Ok(Outcome(s.(sticks := SetLast(s.sticks, st.(rotation := rotation))), Redraw))
        else
          var sticks := SetLast(s.sticks, st.(rotation := 90.0));
          var hit := PlatformTheStickHits(s.platforms, sticks).value;
          if hit.platform.Some? then
            var platforms := s.platforms + [NextPlatform(Last(s.platforms), draw)];
            var next := s.(sticks := sticks, score := s.score + Points(hit), platforms := platforms, phase := Walking);
            Ok(Outcome(next, Effects(true, hit.perfect, false, true)))
          else
            Ok(Outcome(s.(sticks := sticks, phase := Walking), Redraw))
    case Walking =>
      var heroX := s.heroX + dt / WalkingSpeed;
      var r := PlatformTheStickHits(s.platforms, s.sticks);
      if r.Err? then Err(r.error)
      else
        match r.value.platform {
          case Some(p) =>
            var maxHeroX := p.x + p.w - HeroDistanceFromEdge;
            if heroX > maxHeroX then Ok(Outcome(s.(heroX := maxHeroX, phase := Transitioning), Redraw))
            else Ok(Outcome(s.(heroX := heroX), Redraw))
          case None =>
            var maxHeroX := FarX(Last(s.sticks)) + HeroWidth;
            if heroX > maxHeroX then Ok(Outcome(s.(heroX := maxHeroX, phase := Falling), Redraw))
            else Ok(Outcome(s.(heroX := heroX), Redraw))
        }
    case Transitioning =>
      var sceneOffset := s.sceneOffset + dt / TransitioningSpeed;
      var r := PlatformTheStickHits(s.platforms, s.sticks);
      if r.Err? then Err(r.error)
      else if r.value.platform.None? then Err(NoTargetPlatform)
      else
        var p := r.value.platform.value;
        if sceneOffset > p.x + p.w - PaddingX then
          var next := s.(sceneOffset := sceneOffset, sticks := s.sticks + [Stick(p.x + p.w, 0.0, 0.0)], phase := Waiting);
          Ok(Outcome(next, Redraw))
        else
          Ok(Outcome(s.(sceneOffset := sceneOffset), Redraw))
    case Falling =>
      if |s.sticks| == 0 then Err(NoStick)
      else
        var st := Last(s.sticks);
        var sticks := if st.rotation < 180.0 then SetLast(s.sticks, st.(rotation := st.rotation + dt / TurningSpeed)) else s.sticks;
        var heroY := s.heroY + dt / FallingSpeed;
        var next := s.(sticks := sticks, heroY := heroY);
        if heroY > maxHeroY then Ok(Outcome(next, Effects(false, false, true, false)))
        else Ok(Outcome(next, Redraw))
  }

  /** `onMouseDown`: a press starts stretching when the game waits and is ignored otherwise. */
  function Press(s: Snapshot): (r: Snapshot)
    ensures r.phase != s.phase <==> s.phase == Waiting
    ensures r.phase != s.phase ==> r.phase == Stretching
    ensures r.(phase := s.phase) == s
  {
    if s.phase == Waiting then s.(phase := Stretching) else s
  }

  /** `onMouseUp`: a release starts turning while the stick stretches and is ignored otherwise. */
  function Release(s: Snapshot): (r: Snapshot)
    ensures r.phase != s.phase <==> s.phase == Stretching
    ensures r.phase != s.phase ==> r.phase == Turning
    ensures r.(phase := s.phase) == s
  {
    if s.phase == Stretching then s.(phase := Turning) else s
  }

  /** Four draws for the four platforms `resetGame` generates. */
  predicate InitialDraws(draws: seq<Draw>) {
    |draws| == 4 && forall i :: 0 <= i < 4 ==> InRange(draws[i])
  }

  /** The first platform; the first stick stands on its right edge and the hero 10 short of it. */
  const FirstPlatform := Platform(50.0, 50.0)

  /** The state `resetGame` builds. */
  function Initial(draws: seq<Draw>): (s: Snapshot)
    requires InitialDraws(draws)
    ensures s.phase == Waiting && s.score == 0 && s.sceneOffset == 0.0
    ensures |s.platforms| == 5 && s.platforms[0] == Platform(50.0, 50.0)
    ensures forall i :: 0 < i < 5 ==> s.platforms[i] == NextPlatform(s.platforms[i - 1], draws[i - 1])
    ensures forall i :: 0 < i < 5 ==> Placement(s.platforms[i - 1], s.platforms[i])
    ensures s.sticks == [Stick(100.0, 0.0, 0.0)]
    ensures s.heroX == 90.0 && s.heroY == 0.0
  {
    var p1 := NextPlatform(FirstPlatform, draws[0]);
    var p2 := NextPlatform(p1, draws[1]);
    var p3 := NextPlatform(p2, draws[2]);
    var p4 := NextPlatform(p3, draws[3]);
    var platforms := [FirstPlatform, p1, p2, p3, p4];
    Snapshot(
      Waiting,
      RightEdge(platforms[0]) - HeroDistanceFromEdge,
      0.0,
      0.0,
      0,
      platforms,
      [Stick(RightEdge(platforms[0]), 0.0, 0.0)])
  }

  /**
   * What holds of the game between ticks: the platforms were generated, a stick
   * exists, and the last stick's rotation matches the phase (flat while the hero
   * walks, with a platform to walk to while the scene pans).
   */
  predicate Inv(s: Snapshot) {
    && Spaced(s.platforms)
    && |s.sticks| > 0
    && s.score >= 0
    && s.sceneOffset >= 0.0
    && Last(s.sticks).length >= 0.0
    && (s.phase != Falling ==> s.heroY == 0.0)
    && match s.phase
       case Waiting => Last(s.sticks).rotation == 0.0
       case Stretching => Last(s.sticks).rotation == 0.0
       case Turning => 0.0 <= Last(s.sticks).rotation <= 90.0
       case Walking => Last(s.sticks).rotation == 90.0
       case Transitioning =>
         Last(s.sticks).rotation == 90.0 && PlatformTheStickHits(s.platforms, s.sticks).value.platform.Some?
       case Falling => Last(s.sticks).rotation >= 90.0
  }

  /** A fresh game satisfies the invariant. */
  lemma InitialInv(draws: seq<Draw>)
    requires InitialDraws(draws)
    ensures Inv(Initial(draws))
  {
  }

  /** A tick from a state satisfying the invariant never throws, and keeps the invariant. */
  lemma StepKeepsInv(s: Snapshot, dt: real, draw: Draw, maxHeroY: real)
    requires Inv(s) && dt >= 0.0 && InRange(draw)
    ensures Step(s, dt, draw, maxHeroY).Ok?
    ensures Inv(Step(s, dt, draw, maxHeroY).value.next)
  {
  }

  /** The input handlers keep the invariant. */
  lemma InputKeepsInv(s: Snapshot)
    requires Inv(s)
    ensures Inv(Press(s)) && Inv(Release(s))
  {
  }

  /** The score never decreases within a game. */
  lemma ScoreNeverDecreases(s: Snapshot, dt: real, draw: Draw, maxHeroY: real)
    requires InRange(draw) && Step(s, dt, draw, maxHeroY).Ok?
    ensures Step(s, dt, draw, maxHeroY).value.next.score >= s.score
  {
  }

  /** The score changes only on the turning-to-walking transition. */
  lemma ScoreChangesOnlyWhenTurningEnds(s: Snapshot, dt: real, draw: Draw, maxHeroY: real)
    requires InRange(draw) && Step(s, dt, draw, maxHeroY).Ok?
    requires Step(s, dt, draw, maxHeroY).value.next.score != s.score
    ensures s.phase == Turning && Step(s, dt, draw, maxHeroY).value.next.phase == Walking
  {
  }

  /**
   * The turning tick: the rotation advances by dt/4; once it passes 90 it is set to
   * 90, the stick is evaluated, the score rises by 2, 1 or 0 and a platform is
   * appended exactly on a hit, and the hero starts walking.
   */
  lemma TurningStep(s: Snapshot, dt: real, draw: Draw, maxHeroY: real)
    requires Inv(s) && s.phase == Turning && dt >= 0.0 && InRange(draw)
    ensures var st := Last(s.sticks);
            var o := Step(s, dt, draw, maxHeroY).value;
            var flat := SetLast(s.sticks, st.(rotation := 90.0));
            var hit := PlatformTheStickHits(s.platforms, flat).value;
            if st.rotation + dt / TurningSpeed > 90.0 then
              && o.next.phase == Walking
              && o.next.sticks == flat
              && o.next.score == s.score + Points(hit)
              && o.next.platforms[..|s.platforms|] == s.platforms
              && |o.next.platforms| == |s.platforms| + (if hit.platform.Some? then 1 else 0)
              && o.next.platforms == (if hit.platform.Some? then s.platforms + [NextPlatform(Last(s.platforms), draw)]
                                      else s.platforms)
              && o.effects.perfectShown == hit.perfect
              && o.effects.scoreShown == hit.platform.Some?
              && !o.effects.restartShown && o.effects.continues
              && o.next.(sticks := s.sticks, score := s.score, platforms := s.platforms, phase := Turning) == s
            else
              && o.next == s.(sticks := SetLast(s.sticks, st.(rotation := st.rotation + dt / TurningSpeed)))
              && Last(o.next.sticks).rotation <= 90.0
              && o.effects == Redraw
  {
    StepKeepsInv(s, dt, draw, maxHeroY);
  }

  /**
   * The walking tick: the hero advances by dt/4, clamped to 10 short of the far
   * edge of the platform the stick reaches, or to 17 past the stick's end on a
   * miss; reaching the clamp moves on to transitioning or falling.
   */
  lemma WalkingStep(s: Snapshot, dt: real, draw: Draw, maxHeroY: real)
    requires Inv(s) && s.phase == Walking && InRange(draw)
    ensures var hit := PlatformTheStickHits(s.platforms, s.sticks).value;
            var limit := if hit.platform.Some? then RightEdge(hit.platform.value) - HeroDistanceFromEdge
                         else FarX(Last(s.sticks)) + HeroWidth;
            var o := Step(s, dt, draw, maxHeroY).value;
            && o.next.heroX == (if s.heroX + dt / WalkingSpeed > limit then limit else s.heroX + dt / WalkingSpeed)
            && o.next.phase == (if s.heroX + dt / WalkingSpeed <= limit then Walking
                                else if hit.platform.Some? then Transitioning else Falling)
            && o.next.(heroX := s.heroX, phase := Walking) == s
            && o.effects == Redraw
  {
  }

  /**
   * The transitioning tick: the scene pans by dt/2; once past the reached
   * platform's far edge less PaddingX, one flat zero-length stick is appended on
   * that edge and the game waits for the next press.
   */
  lemma TransitioningStep(s: Snapshot, dt: real, draw: Draw, maxHeroY: real)
    requires Inv(s) && s.phase == Transitioning && InRange(draw)
    ensures var p := PlatformTheStickHits(s.platforms, s.sticks).value.platform.value;
            var offset := s.sceneOffset + dt / TransitioningSpeed;
            var o := Step(s, dt, draw, maxHeroY).value;
            && o.next.sceneOffset == offset
            && o.next.phase == (if offset > RightEdge(p) - PaddingX then Waiting else Transitioning)
            && o.next.sticks == (if offset > RightEdge(p) - PaddingX then s.sticks + [Stick(RightEdge(p), 0.0, 0.0)] else s.sticks)
            && o.next.(sceneOffset := s.sceneOffset, sticks := s.sticks, phase := Transitioning) == s
            && o.effects == Redraw
  {
  }

  /** The stretching tick changes only the last stick's length, which grows by dt/4. */
  lemma StretchingStep(s: Snapshot, dt: real, draw: Draw, maxHeroY: real)
    requires Inv(s) && s.phase == Stretching && dt >= 0.0 && InRange(draw)
    ensures var o := Step(s, dt, draw, maxHeroY).value;
            && |o.next.sticks| == |s.sticks|
            && o.next.sticks[..|s.sticks| - 1] == s.sticks[..|s.sticks| - 1]
            && Last(o.next.sticks) == Last(s.sticks).(length := Last(s.sticks).length + dt / StretchingSpeed)
            && Last(o.next.sticks).length >= Last(s.sticks).length
            && o.next.(sticks := s.sticks) == s
            && o.effects == Redraw
  {
  }

  /** Platforms are only ever appended, at most one per tick. */
  lemma PlatformsAppendOnly(s: Snapshot, dt: real, draw: Draw, maxHeroY: real)
    requires InRange(draw) && Step(s, dt, draw, maxHeroY).Ok?
    ensures var ps := Step(s, dt, draw, maxHeroY).value.next.platforms;
            && |s.platforms| <= |ps| <= |s.platforms| + 1
            && ps[..|s.platforms|] == s.platforms
  {
  }

  /**
   * The walking tick that follows a hit targets the platform the turning tick
   * found, although a platform was appended in between.
   */
  lemma WalkingTargetsTurningHit(s: Snapshot, dt: real, draw: Draw, maxHeroY: real)
    requires Inv(s) && s.phase == Turning && dt >= 0.0 && InRange(draw)
    requires Step(s, dt, draw, maxHeroY).value.next.phase == Walking
    ensures var n := Step(s, dt, draw, maxHeroY).value.next;
            PlatformTheStickHits(n.platforms, n.sticks) == PlatformTheStickHits(s.platforms, n.sticks)
  {
    StepKeepsInv(s, dt, draw, maxHeroY);
    var st := Last(s.sticks);
    var flat := SetLast(s.sticks, st.(rotation := 90.0));
    var hit := PlatformTheStickHits(s.platforms, flat).value;
    if hit.platform.Some? {
      HitSurvivesAppend(s.platforms, flat, NextPlatform(Last(s.platforms), draw));
    }
  }

  /** A stick that turns flat with its far end on a platform's midpoint scores 2 and shows the perfect pulse. */
  lemma PerfectLandingScoresTwo(s: Snapshot, dt: real, draw: Draw, maxHeroY: real, k: int)
    requires Inv(s) && s.phase == Turning && InRange(draw)
    requires Last(s.sticks).rotation + dt / TurningSpeed > 90.0
    requires 0 <= k < |s.platforms|
    requires FarX(Last(s.sticks)) == s.platforms[k].x + s.platforms[k].w / 2.0
    ensures var o := Step(s, dt, draw, maxHeroY).value;
            && o.next.phase == Walking
            && o.next.score == s.score + 2
            && o.effects.perfectShown && o.effects.scoreShown
  {
    var st := Last(s.sticks);
    var flat := SetLast(s.sticks, st.(rotation := 90.0));
    assert FarX(Last(flat)) == FarX(st);
    MidpointIsPerfect(s.platforms, flat, k);
  }

  /**
   * A miss ends the game: the walking tick that carries the hero past 17 beyond
   * the stick's end starts the fall, and a falling tick that takes the hero below
   * the threshold shows the restart button and stops the loop.
   */
  lemma MissEndsTheGame(s: Snapshot, dt1: real, dt2: real, draw: Draw, maxHeroY: real)
    requires Inv(s) && s.phase == Walking && InRange(draw)
    requires PlatformTheStickHits(s.platforms, s.sticks).value.platform.None?
    requires s.heroX + dt1 / WalkingSpeed > FarX(Last(s.sticks)) + HeroWidth
    requires dt2 / FallingSpeed > maxHeroY
    ensures var s1 := Step(s, dt1, draw, maxHeroY).value.next;
            && s1.phase == Falling
            && s1.heroX == FarX(Last(s.sticks)) + HeroWidth
            && Step(s1, dt2, draw, maxHeroY).Ok?
            && Step(s1, dt2, draw, maxHeroY).value.effects == Effects(false, false, true, false)
  {
  }

  /** The waiting tick changes nothing, redraws nothing and schedules no further frame. */
  lemma WaitingStep(s: Snapshot, dt: real, draw: Draw, maxHeroY: real)
    requires s.phase == Waiting && InRange(draw)
    ensures Step(s, dt, draw, maxHeroY) == Ok(Outcome(s, Idle))
  {
  }

  /**
   * The falling tick: the hero drops by dt/2, the last stick keeps turning by
   * dt/4 while its rotation is below 180, and the restart button shows and the
   * loop stops exactly when the hero is below the threshold.
   */
  lemma FallingStep(s: Snapshot, dt: real, draw: Draw, maxHeroY: real)
    requires Inv(s) && s.phase == Falling && InRange(draw)
    ensures var st := Last(s.sticks);
            var o := Step(s, dt, draw, maxHeroY).value;
            && Step(s, dt, draw, maxHeroY).Ok?
            && o.next.heroY == s.heroY + dt / FallingSpeed
            && |o.next.sticks| == |s.sticks|
            && o.next.sticks[..|s.sticks| - 1] == s.sticks[..|s.sticks| - 1]
            && Last(o.next.sticks) == (if st.rotation < 180.0 then st.(rotation := st.rotation + dt / TurningSpeed) else st)
            && o.next.(heroY := s.heroY, sticks := s.sticks) == s
            && (o.effects.restartShown <==> o.next.heroY > maxHeroY)
            && (o.effects.continues <==> !o.effects.restartShown)
            && !o.effects.scoreShown && !o.effects.perfectShown
  {
  }

  /**
   * When the loop stops scheduling frames: a tick that does not throw schedules
   * the next frame unless the game waits or the restart button was just shown.
   */
  lemma LoopContinuesUnlessWaitingOrOver(s: Snapshot, dt: real, draw: Draw, maxHeroY: real)
    requires InRange(draw) && Step(s, dt, draw, maxHeroY).Ok?
    ensures var e := Step(s, dt, draw, maxHeroY).value.effects;
            !e.continues <==> s.phase == Waiting || e.restartShown
  {
  }

  /** Only a falling tick that takes the hero below the threshold shows the restart button. */
  lemma RestartOnlyWhenFalling(s: Snapshot, dt: real, draw: Draw, maxHeroY: real)
    requires InRange(draw) && Step(s, dt, draw, maxHeroY).Ok?
    requires Step(s, dt, draw, maxHeroY).value.effects.restartShown
    ensures s.phase == Falling && Step(s, dt, draw, maxHeroY).value.next.heroY > maxHeroY
  {
  }
}
