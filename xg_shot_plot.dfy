/** The dynamic zoom of `shot_plot` in python/xg_shot_plot.py: view limits around the
    shots, at least as wide as the penalty area and reaching past the goal. */
module XgShotPlot {
  import opened Reals
  import opened Shots

  /** Half the width of the penalty area, `16.5 + 7.32 / 2`. */
  const PenaltyHalfWidth: real := 16.5 + 7.32 / 2.0

  /** The penalty mark plus the radius of the centre circle, `11 + 9.15`. */
  const ArcReach: real := 11.0 + 9.15

  /** `buffer`. */
  const Buffer: real := 0.05

  /** The column across the pitch: `shots['x']` when vertical, else `shots['y']`. */
  function Lateral(shots: seq<Shot>, orientVertical: bool): (r: seq<real>)
    ensures |r| == |shots|
  {
    seq(|shots|, i requires 0 <= i < |shots| => if orientVertical then shots[i].x else shots[i].y)
  }

  /** The column along the pitch: `shots['y']` when vertical, else `shots['x']`. */
  function Depth(shots: seq<Shot>, orientVertical: bool): (r: seq<real>)
    ensures |r| == |shots|
  {
    seq(|shots|, i requires 0 <= i < |shots| => if orientVertical then shots[i].y else shots[i].x)
  }

  /** `abs(shots[y] - pitch_width / 2)`. */
  function Offsets(lateral: seq<real>, middle: real): (r: seq<real>)
    ensures |r| == |lateral|
  {
    seq(|lateral|, i requires 0 <= i < |lateral| => Abs(lateral[i] - middle))
  }

  /** `dist_center`. Over no shots the column's maximum is NaN, which Python's `max`
      passes over, leaving the constant. */
  function DistCenter(lateral: seq<real>, pitchWidth: real): (d: real)
    ensures d >= PenaltyHalfWidth
  {
    if |lateral| == 0 then PenaltyHalfWidth
    else Max(PenaltyHalfWidth, MaxOf(Offsets(lateral, pitchWidth / 2.0)))
  }

  /** `dist_groundline`, with the same reading of an empty column. */
  function DistGroundline(depth: seq<real>): (d: real)
    ensures d >= ArcReach
  {
    if |depth| == 0 then ArcReach else Max(ArcReach, MinOf(depth))
  }

  /** `xlim` and `ylim` before orientation. */
  function DepthLimits(depth: seq<real>, pitchLength: real): (b: Bounds)
    ensures b.lo >= ArcReach * (1.0 - Buffer)
  {
    Bounds(DistGroundline(depth) * (1.0 - Buffer), pitchLength * 1.07)
  }

  function LateralLimits(lateral: seq<real>, pitchWidth: real): (b: Bounds)
    ensures b.hi - b.lo >= 2.0 * PenaltyHalfWidth + 0.05 * pitchWidth
  {
    var d := DistCenter(lateral, pitchWidth);
    Bounds((pitchWidth / 2.0 - d) * (1.0 - Buffer), (pitchWidth / 2.0 + d) * (1.0 + Buffer))
  }

  /** Lines 121-131: the arguments of `ax.set_xlim` and `ax.set_ylim`. */
  function ZoomWindow(shots: seq<Shot>, pitchLength: real, pitchWidth: real, orientVertical: bool): (r: (Bounds, Bounds))
    ensures var along := if orientVertical then r.1 else r.0;
            var across := if orientVertical then r.0 else r.1;
            && along.lo >= ArcReach * (1.0 - Buffer)
            && along.hi == pitchLength * 1.07
            && across.hi - across.lo >= 2.0 * PenaltyHalfWidth + 0.05 * pitchWidth
  {
    var xlim := DepthLimits(Depth(shots, orientVertical), pitchLength);
    var ylim := LateralLimits(Lateral(shots, orientVertical), pitchWidth);
    var d := DistCenter(Lateral(shots, orientVertical), pitchWidth);
    assert xlim.lo == DistGroundline(Depth(shots, orientVertical)) * 0.95;
    assert ylim.hi - ylim.lo == 2.0 * d + 0.05 * pitchWidth;
    if orientVertical then (ylim, xlim) else (xlim, ylim)
  }

  // ---------------------------------------------------------------------------
  // Properties

  /** `dist_center` covers the penalty area and every shot's distance from the middle
      line, and is one of them. */
  lemma DistCenterBounds(lateral: seq<real>, pitchWidth: real)
    ensures var d := DistCenter(lateral, pitchWidth);
            && d >= PenaltyHalfWidth
            && (forall i :: 0 <= i < |lateral| ==> d >= Abs(lateral[i] - pitchWidth / 2.0))
            && (d == PenaltyHalfWidth || exists i :: 0 <= i < |lateral| && d == Abs(lateral[i] - pitchWidth / 2.0))
  {
    if |lateral| > 0 {
      var offsets := Offsets(lateral, pitchWidth / 2.0);
      MaxOfIsGreatest(offsets);
      forall i | 0 <= i < |lateral|
        ensures DistCenter(lateral, pitchWidth) >= Abs(lateral[i] - pitchWidth / 2.0)
      {
        assert offsets[i] == Abs(lateral[i] - pitchWidth / 2.0);
      }
      if DistCenter(lateral, pitchWidth) != PenaltyHalfWidth {
        var i :| 0 <= i < |offsets| && offsets[i] == MaxOf(offsets);
        assert DistCenter(lateral, pitchWidth) == Abs(lateral[i] - pitchWidth / 2.0);
      }
    }
  }

  /** `dist_groundline` is at least the reach of the penalty arc, and it is either that
      reach or the depth of the shot nearest the line x = 0; some shot is no deeper than it,
      so among shots it is the larger of the two. */
  lemma DistGroundlineBounds(depth: seq<real>)
    ensures var d := DistGroundline(depth);
            && d >= ArcReach
            && (d == ArcReach || exists i :: 0 <= i < |depth| && d == depth[i])
            && (forall i :: 0 <= i < |depth| ==> d <= depth[i] || d == ArcReach)
            && (|depth| > 0 ==> exists i :: 0 <= i < |depth| && depth[i] <= d)
  {
    if |depth| > 0 {
      MinOfIsLeast(depth);
    }
  }

  /** The lateral limits are a proper interval on a pitch of non-negative width. */
  lemma LateralLimitsOrdered(lateral: seq<real>, pitchWidth: real)
    requires pitchWidth >= 0.0
    ensures LateralLimits(lateral, pitchWidth).lo < LateralLimits(lateral, pitchWidth).hi
  {
    DistCenterBounds(lateral, pitchWidth);
  }

  /** Shots on the pitch are inside the lateral limits. */
  lemma LateralLimitsContain(lateral: seq<real>, pitchWidth: real)
    requires forall i :: 0 <= i < |lateral| ==> 0.0 <= lateral[i] <= pitchWidth
    ensures forall i :: 0 <= i < |lateral| ==>
              LateralLimits(lateral, pitchWidth).lo <= lateral[i] <= LateralLimits(lateral, pitchWidth).hi
  {
    DistCenterBounds(lateral, pitchWidth);
    var d := DistCenter(lateral, pitchWidth);
    var w := pitchWidth / 2.0;
    forall i | 0 <= i < |lateral|
      ensures LateralLimits(lateral, pitchWidth).lo <= lateral[i] <= LateralLimits(lateral, pitchWidth).hi
    {
      assert d >= Abs(lateral[i] - w);
      assert w - d <= lateral[i] <= w + d;
    }
  }

  /** The depth limits reach a shot exactly when it is no closer to the line x = 0 than
      95% of the arc reach: the floor of `dist_groundline` cuts off shots from deep in the
      pitch. The upper limit is past every shot on the pitch. */
  lemma DepthLimitsCut(depth: seq<real>, pitchLength: real)
    requires pitchLength >= 0.0
    ensures forall i :: 0 <= i < |depth| ==>
              (DepthLimits(depth, pitchLength).lo <= depth[i] <==> depth[i] >= ArcReach * (1.0 - Buffer))
    ensures forall i :: 0 <= i < |depth| && depth[i] <= pitchLength ==> depth[i] <= DepthLimits(depth, pitchLength).hi
  {
    DistGroundlineBounds(depth);
  }

  /** Turning the pitch upright swaps the roles of the two columns and of the two axes. */
  lemma VerticalSwapsAxes(shots: seq<Shot>, pitchLength: real, pitchWidth: real)
    ensures var across := ZoomWindow(shots, pitchLength, pitchWidth, false);
            var upright := ZoomWindow(Transposed(shots), pitchLength, pitchWidth, true);
            upright == (across.1, across.0)
  {
    var t := Transposed(shots);
    assert Depth(t, true) == Depth(shots, false);
    assert Lateral(t, true) == Lateral(shots, false);
  }

  /** Every shot with its two coordinates exchanged. */
  function Transposed(shots: seq<Shot>): (r: seq<Shot>)
    ensures |r| == |shots|
  {
    seq(|shots|, i requires 0 <= i < |shots| => shots[i].(x := shots[i].y, y := shots[i].x))
  }
}
