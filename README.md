# Stick game: the game logic of stick.js, modelled in Dafny

The game is a timing game. The player holds the mouse button to grow a stick on the edge of the current
platform. On release the stick turns down flat. If its far end lands on the next platform, the hero
walks across, the scene pans and a new stick appears. If it lands in the gap, the hero walks off the
end of the stick and falls. A landing inside a 10-wide window around the platform's midpoint is
"perfect" and scores 2 instead of 1.

The model covers the part of `stick.js` that changes game state:

- `types.dfy` (`GameTypes`): the constants, platforms, sticks, phases, and the errors the loop can throw.
- `platforms.dfy` (`Platforms`): `generatePlatform` as a function of the last platform and two injected
  draws. It comes with the bounds on gap and width, its inverse on draws, and the ordering of a
  generated sequence.
- `hit_test.dfy` (`HitTest`): `thePlatformTheStickHits` as a pure function. It finds the first platform
  whose open span contains the stick's far end, and sets the perfect flag.
- `step.dfy` (`GameStep`): specification functions on a value `Snapshot` of the game's globals:
  - one tick of `animate`'s phase switch (`Step`);
  - the two mouse handlers (`Press`, `Release`);
  - the state `resetGame` builds (`Initial`).

  The lemmas in this module state the rules of each phase. They also prove that the invariant `Inv`
  holds initially and is preserved. Under `Inv` the loop never reaches one of its throwing paths.
- `game.dfy` (`Game`): the class `Game`, whose fields are the globals of `stick.js`. Its methods
  `GeneratePlatform`, `ResetGame`, `OnMouseDown`, `OnMouseUp` and `Animate` update the fields in place.
  Each method is proved to produce exactly the state its specification function gives.

Positions, lengths and rotations are exact `real`s. The elapsed time of a tick is the parameter `dt`.
Each random draw of `generatePlatform` is an integer parameter: `0 <= gap < 160` and `0 <= width < 80`,
the values `Math.floor(Math.random() * n)` takes. The falling threshold
`platformHeight + 100 + (height - canvasHeight) / 2` depends on the window height, so it is the
parameter `maxHeroY`. The DOM calls a tick makes are flags of its `Effects` result:
`updateScore` (`scoreShown`), `showPerfect` (`perfectShown`) and `showRestartButton`
(`restartShown`). A fourth flag, `continues`, says whether the tick redraws and schedules the next frame.

Details of `stick.js` the model keeps:

- The hit test uses the open interval `(x, x + w)`: a far end exactly on a platform's edge is a miss.
- The turning phase ends only when the rotation *exceeds* 90. A rotation that reaches exactly 90 stays in
  `turning` until the next tick.
- The walking phase moves on only when the hero *passes* the clamp value.
- There is no terminal phase: after a fall the phase stays `falling`. The tick that takes the hero below the
  threshold shows the restart button and stops scheduling frames (`restartShown`, `continues == false`).

## Model

| member | source | states |
|---|---|---|
| `GameStep.Step` | stick.js:54-130 | one tick of the phase switch as a function of the state, `dt`, the draws and the falling threshold; a waiting tick never throws; a stretching, turning or falling tick throws exactly when there is no stick; a walking tick exactly when the hit test throws; a transitioning tick exactly when the hit test throws or finds no platform (its other rules are stated by the lemmas below) |
| `Platforms.NextPlatform` | stick.js:306-319 | the appended platform starts 40 to 199 (whole) past the last platform's right edge and is 20 to 99 (whole) wide |
| `Platforms.DrawRoundTrip` | stick.js:315-316 | the two draws are recovered from the platform they place, so distinct draws give distinct platforms |
| `Platforms.PlacementIsGenerated` | stick.js:307-318 | every whole placement within those bounds is produced by some pair of in-range draws |
| `Platforms.SpacedAppend` | stick.js:312-318 | appending a generated platform to a spaced sequence keeps it spaced |
| `Platforms.SpacedOrdered` | stick.js:312-315 | in a generated sequence every platform lies strictly right of the right edge of every earlier one |
| `HitTest.FindFirst` | stick.js:327-329 | `find` returns the first index whose platform strictly contains the far end, or none when no platform does |
| `HitTest.PlatformTheStickHits` | stick.js:321-340 | fails with the stick's rotation exactly when the last stick is not at 90 (or there is none); otherwise returns the first platform in order with `x < farX < x + w`, or none when there is no such platform; perfect holds iff a platform was found and `x + w/2 - 5 < farX < x + w/2 + 5`, so perfect implies a hit |
| `HitTest.MidpointIsPerfect` | stick.js:325-337 | in a generated sequence, a far end exactly on platform k's midpoint hits platform k, perfectly |
| `HitTest.GapIsMiss` | stick.js:325-339 | in a generated sequence, a far end between two neighbouring platforms, edges included, yields (none, false) |
| `HitTest.HitSurvivesAppend` | stick.js:67-86 | once the evaluator finds a platform, appending a platform leaves its answer unchanged |
| `GameStep.Press` | stick.js:343-349 | a press changes the phase iff it is `waiting`, then to `stretching`, and changes nothing else |
| `GameStep.Release` | stick.js:351-355 | a release changes the phase iff it is `stretching`, then to `turning`, and changes nothing else |
| `GameStep.Initial` | stick.js:390-405 | reset gives phase `waiting`, score 0, scene offset 0, platforms `{50,50}` then exactly `NextPlatform` of the previous platform for each of the 4 draws in order (each a whole placement), sticks `[{100,0,0}]`, hero at (90, 0) |
| `GameStep.InitialInv` | stick.js:390-405 | the reset state satisfies the game invariant |
| `GameStep.StepKeepsInv` | stick.js:54-130 | from a state satisfying the invariant a tick never throws and keeps the invariant; in particular a target platform exists whenever the phase is `transitioning` |
| `GameStep.InputKeepsInv` | stick.js:343-355 | both mouse handlers keep the invariant |
| `GameStep.ScoreNeverDecreases` | stick.js:69 | no tick lowers the score |
| `GameStep.ScoreChangesOnlyWhenTurningEnds` | stick.js:61-81 | a tick that changes the score is a turning tick that moves on to `walking` |
| `GameStep.TurningStep` | stick.js:61-81 | the rotation grows by dt/4 and, while it stays at most 90, nothing else changes; past 90 it is set to 90, the phase becomes `walking`, the score rises by 2/1/0 for a perfect hit, a plain hit or a miss, exactly `NextPlatform(last, draw)` is appended on a hit and nothing on a miss, the score display updates iff there was a hit, the perfect pulse shows iff the hit is perfect, the loop continues, and nothing else changes |
| `GameStep.WalkingStep` | stick.js:83-101 | heroX becomes the lesser of heroX + dt/4 and the limit (target's right edge - 10 on a hit, stick end + 17 on a miss); passing the limit moves to `transitioning` on a hit and `falling` on a miss, otherwise the phase is unchanged; nothing else changes; the tick redraws and schedules the next frame with no score, perfect or restart signal |
| `GameStep.TransitioningStep` | stick.js:102-115 | the offset grows by dt/2; the phase becomes `waiting` if it passes the target's right edge - 100 and otherwise stays `transitioning`, and exactly on passing one stick `{right edge, 0, 0}` is appended; nothing else changes; the tick redraws and schedules the next frame with no score, perfect or restart signal |
| `GameStep.WaitingStep` | stick.js:55-56 | the waiting tick leaves the state unchanged, redraws nothing and schedules no frame |
| `GameStep.FallingStep` | stick.js:116-126 | heroY grows by dt/2, the last stick's rotation grows by dt/4 iff it is below 180, nothing else changes, the restart button shows iff the new heroY exceeds the threshold, and the loop continues iff it does not |
| `GameStep.LoopContinuesUnlessWaitingOrOver` | stick.js:54-135 | a tick that does not throw schedules the next frame unless the phase is `waiting` or the restart button was just shown |
| `GameStep.RestartOnlyWhenFalling` | stick.js:116-126 | a tick that shows the restart button is a falling tick whose new heroY exceeds the threshold |
| `GameStep.StretchingStep` | stick.js:57-59 | only the last stick's length changes, by dt/4, so it never decreases; the tick redraws and schedules the next frame with no score, perfect or restart signal |
| `GameStep.PlatformsAppendOnly` | stick.js:76 | a tick keeps every existing platform in place and appends at most one |
| `GameStep.WalkingTargetsTurningHit` | stick.js:67-86 | the walking tick after a turning tick evaluates the stick against the new platforms with the same answer as the turning tick |
| `GameStep.PerfectLandingScoresTwo` | stick.js:61-81 | a stick turning flat onto a platform's midpoint scores 2 and shows the perfect pulse |
| `GameStep.MissEndsTheGame` | stick.js:93-125 | on a miss, the walking tick that carries the hero past the stick's end + 17 starts the fall, and a falling tick below the threshold shows the restart button and stops the loop |
| `Game.Game.constructor` | stick.js:26-34 | a new session is in the reset state and satisfies the invariant |
| `Game.Game.GeneratePlatform` | stick.js:306-319 | appends exactly `NextPlatform(last, draws)` to the platforms, changes nothing else, and keeps the invariant |
| `Game.Game.ResetGame` | stick.js:390-405 | reassigns every field to the reset state, through four `GeneratePlatform` calls, and establishes the invariant |
| `Game.Game.OnMouseDown` | stick.js:343-349 | the new state is `Press` of the old one, and the invariant is kept |
| `Game.Game.OnMouseUp` | stick.js:351-355 | the new state is `Release` of the old one, and the invariant is kept |
| `Game.Game.Animate` | stick.js:54-130 | keeps the invariant, and the new fields and the returned effects are exactly those `Step` gives for the old state |

## Left out

- Drawing (`draw`, `drawPlatforms`, `drawHero`, `drawSticks`, `drawBackground`, `drawCloud`): rendering only, no game state changes.
- `init` and `onResize`: DOM lookup, listener wiring and window sizing. The constructor stands for `init`'s call of `resetGame`.
- Frame scheduling: `requestAnimationFrame`, `lastTimestamp` and the first-frame early return. A tick takes `dt` directly, and `continues` records whether the loop would schedule another frame. The press handler's re-arming of the loop is not modelled.
- DOM sinks `updateScore`, `showPerfect` (with its one-second `setTimeout`), `showRestartButton`, `hideRestartButton`: kept only as the `Effects` flags of a tick. Reset's `draw()`, `hideRestartButton()` and `updateScore()` calls are not recorded.
- `Math.random`: replaced by injected draws in range.
- IEEE floating-point rounding: all quantities are exact reals.
- The falling threshold's dependence on the window height: passed in as `maxHeroY`.
- Game.Game.Animate: requires the invariant `Inv`. The throwing paths of the loop are modelled only in `Step`, as `Err` results, without the field updates the source makes before it throws. `StepKeepsInv` proves that these paths are unreachable from any state the game can be in.
- Sticks are records that the source updates in place; the model replaces the last element of the `sticks` sequence. Nothing else holds a reference to a stick, so no aliasing is lost.
- The falling tick's rotation may overshoot 180: the source tests `rotation < 180` first and then adds dt/4 without clamping. This only affects drawing, and the model keeps it as written.
