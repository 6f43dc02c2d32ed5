/** The platform generator (`generatePlatform`, stick.js lines 306-319). */
module Platforms {
  import opened GameTypes

  const MinGap: int := 40
  const MaxGap: int := 200
  const MinWidth: int := 20
  const MaxWidth: int := 100

  /**
   * The two floored uniform draws `generatePlatform` makes:
   * `Math.floor(Math.random() * (maxGap - minGap))` and
   * `Math.floor(Math.random() * (maxWidth - minWidth))`.
   */
  datatype Draw = Draw(gap: int, width: int)

  predicate InRange(d: Draw) {
    0 <= d.gap < MaxGap - MinGap && 0 <= d.width < MaxWidth - MinWidth
  }

  function RightEdge(p: Platform): real {
    p.x + p.w
  }

  /** `p` may directly follow `prev`: gap in [MinGap, MaxGap - 1], width in [MinWidth, MaxWidth - 1]. */
  predicate Follows(prev: Platform, p: Platform) {
    && MinGap as real <= p.x - RightEdge(prev) <= (MaxGap - 1) as real
    && MinWidth as real <= p.w <= (MaxWidth - 1) as real
  }

  predicate IsWhole(r: real) {
    r == r.Floor as real
  }

  /** The placements the generator can produce after `prev`: whole gap and width within bounds. */
  predicate Placement(prev: Platform, p: Platform) {
    Follows(prev, p) && IsWhole(p.x - RightEdge(prev)) && IsWhole(p.w)
  }

  /** The platform `generatePlatform` appends after `last` for the draws `d`. */
  function NextPlatform(last: Platform, d: Draw): (p: Platform)
    requires InRange(d)
    ensures Placement(last, p)
  {
    Platform(RightEdge(last) + (MinGap + d.gap) as real, (MinWidth + d.width) as real)
  }

  /** The draws that place `p` after `prev`, the inverse of NextPlatform. */
  function DrawOf(prev: Platform, p: Platform): Draw {
    Draw((p.x - RightEdge(prev)).Floor - MinGap, p.w.Floor - MinWidth)
  }

  /** Distinct draws give distinct platforms: the draws are recovered from the platform. */
  lemma DrawRoundTrip(last: Platform, d: Draw)
    requires InRange(d)
    ensures DrawOf(last, NextPlatform(last, d)) == d
  {
  }

  /** Every whole placement within the bounds is produced by some draws. */
  lemma PlacementIsGenerated(prev: Platform, p: Platform)
    requires Placement(prev, p)
    ensures InRange(DrawOf(prev, p)) && NextPlatform(prev, DrawOf(prev, p)) == p
  {
  }

  /**
   * The platform sequence of a game: a first platform of positive width,
   * then every platform placed by the generator after its predecessor.
   */
  predicate Spaced(ps: seq<Platform>) {
    && |ps| >= 1
    && ps[0].w > 0.0
    && forall i :: 0 < i < |ps| ==> Follows(ps[i - 1], ps[i])
  }

  /** Appending a generated platform keeps the sequence spaced. */
  lemma SpacedAppend(ps: seq<Platform>, d: Draw)
    requires Spaced(ps) && InRange(d)
    ensures Spaced(ps + [NextPlatform(Last(ps), d)])
  {
  }

  /** In a spaced sequence every platform lies strictly to the right of every earlier one. */
  lemma {:induction false} SpacedOrdered(ps: seq<Platform>, i: int, j: int)
    requires Spaced(ps)
    requires 0 <= i < j < |ps|
    ensures RightEdge(ps[i]) < ps[j].x
  {
    assert Follows(ps[j - 1], ps[j]);
    if i < j - 1 {
      SpacedOrdered(ps, i, j - 1);
      assert Follows(ps[j - 2], ps[j - 1]);
    }
  }
}
