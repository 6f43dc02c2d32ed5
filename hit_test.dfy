/** The collision and scoring evaluator (`thePlatformTheStickHits`, stick.js lines 321-340). */
module HitTest {
  import opened GameTypes
  import opened Platforms

  /** Where the far end of a flat stick lies. */
  function FarX(st: Stick): real {
    st.x + st.length
  }

  /** The platform's open span `(x, x + w)` contains `farX`; a reach on an edge is a miss. */
  predicate Contains(p: Platform, farX: real) {
    p.x < farX < p.x + p.w
  }

  /** `farX` lies strictly inside the window of width PerfectAreaSize centred on the platform's midpoint. */
  predicate InPerfectArea(p: Platform, farX: real) {
    p.x + p.w / 2.0 - PerfectAreaSize / 2.0 < farX < p.x + p.w / 2.0 + PerfectAreaSize / 2.0
  }

  /** Index `i` is the first platform, in sequence order, that contains `farX`. */
  predicate IsFirstHit(ps: seq<Platform>, farX: real, i: int) {
    && 0 <= i < |ps|
    && Contains(ps[i], farX)
    && forall j :: 0 <= j < i ==> !Contains(ps[j], farX)
  }

  /** The search `platforms.find(...)` does, as an index. */
  function FindFirst(ps: seq<Platform>, farX: real): (r: Option<nat>)
    ensures r.Some? ==> IsFirstHit(ps, farX, r.value)
    ensures r.None? ==> forall j :: 0 <= j < |ps| ==> !Contains(ps[j], farX)
  {
    if |ps| == 0 then None
    else if Contains(ps[0], farX) then Some(0)
    else match FindFirst(ps[1..], farX)
      case None => None
      case Some(k) => Some(k + 1)
  }

  /** The pair `[platformTheStickHits, perfectHit]` the evaluator returns. */
  datatype Hit = Hit(platform: Option<Platform>, perfect: bool)

  /** Which platform the last stick reaches, if any, and whether the reach is perfect. */
  function PlatformTheStickHits(ps: seq<Platform>, sticks: seq<Stick>): (r: Result<Hit>)
    ensures r.Ok? <==> |sticks| > 0 && Last(sticks).rotation == 90.0
    ensures |sticks| == 0 ==> r == Err(NoStick)
    ensures |sticks| > 0 && Last(sticks).rotation != 90.0 ==>
              r == Err(StickNotHorizontal(Last(sticks).rotation))
    ensures r.Ok? && r.value.platform.Some? ==>
              exists i :: IsFirstHit(ps, FarX(Last(sticks)), i) && ps[i] == r.value.platform.value
    ensures r.Ok? && r.value.platform.None? ==>
              forall i :: 0 <= i < |ps| ==> !Contains(ps[i], FarX(Last(sticks)))
    ensures r.Ok? ==>
              (r.value.perfect <==>
                 r.value.platform.Some? && InPerfectArea(r.value.platform.value, FarX(Last(sticks))))
  {
    if |sticks| == 0 then Err(NoStick)
    else if Last(sticks).rotation != 90.0 then Err(StickNotHorizontal(Last(sticks).rotation))
    else
      var farX := FarX(Last(sticks));
      match FindFirst(ps, farX)
      case None => Ok(Hit(None, false))
      case Some(i) => Ok(Hit(Some(ps[i]), InPerfectArea(ps[i], farX)))
  }

  /** A flat stick whose far end lands exactly on a platform's midpoint hits that platform, perfectly. */
  lemma MidpointIsPerfect(ps: seq<Platform>, sticks: seq<Stick>, k: int)
    requires Spaced(ps) && 0 <= k < |ps|
    requires |sticks| > 0 && Last(sticks).rotation == 90.0
    requires FarX(Last(sticks)) == ps[k].x + ps[k].w / 2.0
    ensures PlatformTheStickHits(ps, sticks) == Ok(Hit(Some(ps[k]), true))
  {
    var farX := FarX(Last(sticks));
    if k > 0 {
      assert Follows(ps[k - 1], ps[k]);
    }
    assert Contains(ps[k], farX);
    var r := FindFirst(ps, farX);
    assert r.Some?;
    if r.value < k {
      SpacedOrdered(ps, r.value, k);
    }
    assert r.value == k;
  }

  /** A flat stick whose far end lies in the gap between two neighbouring platforms (edges included) hits nothing. */
  lemma GapIsMiss(ps: seq<Platform>, sticks: seq<Stick>, k: int)
    requires Spaced(ps) && 0 <= k < |ps| - 1
    requires |sticks| > 0 && Last(sticks).rotation == 90.0
    requires RightEdge(ps[k]) <= FarX(Last(sticks)) <= ps[k + 1].x
    ensures PlatformTheStickHits(ps, sticks) == Ok(Hit(None, false))
  {
    var farX := FarX(Last(sticks));
    forall j | 0 <= j < |ps|
      ensures !Contains(ps[j], farX)
    {
      if j < k {
        SpacedOrdered(ps, j, k);
        if k > 0 {
          assert Follows(ps[k - 1], ps[k]);
        }
      } else if j > k + 1 {
        SpacedOrdered(ps, k + 1, j);
        assert Follows(ps[k], ps[k + 1]);
      }
    }
    assert FindFirst(ps, farX).None?;
  }

  /** The evaluator finds the same platform after a platform is appended, once it has found one. */
  lemma HitSurvivesAppend(ps: seq<Platform>, sticks: seq<Stick>, q: Platform)
    requires PlatformTheStickHits(ps, sticks).Ok?
    requires PlatformTheStickHits(ps, sticks).value.platform.Some?
    ensures PlatformTheStickHits(ps + [q], sticks) == PlatformTheStickHits(ps, sticks)
  {
    var farX := FarX(Last(sticks));
    var qs := ps + [q];
    var k := FindFirst(ps, farX).value;
    assert qs[k] == ps[k];
    assert FindFirst(qs, farX).value == k;
  }
}
