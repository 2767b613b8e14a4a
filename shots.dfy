/** Shot records: the coordinate and label rules of `prep_data` (shot_xg_plot.py)
    and `prepare_data` (python/xg_shot_plot.py), which are the same code, and the
    colour rule both `scatter_shots` functions apply to the frame they are given. */
module Shots {
  import opened Results
  import opened Text
  import opened Collections

  /** A shot event after the join with the lineup: StatsBomb location
      (a 120 x 80 frame), xG, outcome, team, minute, player and the
      player's nickname, which may be missing. */
  datatype RawShot = RawShot(
    location: (real, real),
    xg: real,
    outcome: string,
    team: string,
    minute: nat,
    player: string,
    nickname: Option<string>)

  /** A row of the prepared frame: metric coordinates, xG, team, whether
      it was a goal and the short display label (NaN when the name has no word). */
  datatype Shot = Shot(x: real, y: real, xg: real, team: string, isGoal: bool, info: Option<string>)

  const StatsBombLength: real := 120.0
  const StatsBombWidth: real := 80.0

  // ---------------------------------------------------------------------------
  // Coordinates

  /** Length coordinate in pitch units. */
  function MetricX(x: real, pitchLength: real): (r: real)
    ensures x == 0.0 ==> r == 0.0
    ensures x == StatsBombLength ==> r == pitchLength
  {
    x * pitchLength / StatsBombLength
  }

  /** Width coordinate in pitch units; the axis is flipped. */
  function MetricY(y: real, pitchWidth: real): (r: real)
    ensures y == 0.0 ==> r == pitchWidth
    ensures y == StatsBombWidth ==> r == 0.0
  {
    pitchWidth - y * pitchWidth / StatsBombWidth
  }

  /** Inverse of `MetricX` on a pitch of non-zero length. */
  function StatsBombX(x: real, pitchLength: real): real
    requires pitchLength != 0.0
  {
    x * StatsBombLength / pitchLength
  }

  /** Inverse of `MetricY` on a pitch of non-zero width. */
  function StatsBombY(y: real, pitchWidth: real): real
    requires pitchWidth != 0.0
  {
    (pitchWidth - y) * StatsBombWidth / pitchWidth
  }

  lemma MetricXRoundTrip(x: real, pitchLength: real)
    requires pitchLength != 0.0
    ensures StatsBombX(MetricX(x, pitchLength), pitchLength) == x
    ensures MetricX(StatsBombX(x, pitchLength), pitchLength) == x
  {
  }

  lemma MetricYRoundTrip(y: real, pitchWidth: real)
    requires pitchWidth != 0.0
    ensures StatsBombY(MetricY(y, pitchWidth), pitchWidth) == y
    ensures MetricY(StatsBombY(y, pitchWidth), pitchWidth) == y
  {
  }

  /** The StatsBomb length range lands on the pitch, order preserved. */
  lemma MetricXOnPitch(x1: real, x2: real, pitchLength: real)
    requires 0.0 <= x1 <= x2 <= StatsBombLength && pitchLength >= 0.0
    ensures 0.0 <= MetricX(x1, pitchLength) <= MetricX(x2, pitchLength) <= pitchLength
  {
    ScaleMonotone(0.0, x1, pitchLength);
    ScaleMonotone(x1, x2, pitchLength);
    ScaleMonotone(x2, StatsBombLength, pitchLength);
  }

  lemma ScaleMonotone(a: real, b: real, c: real)
    requires a <= b && 0.0 <= c
    ensures a * c / StatsBombLength <= b * c / StatsBombLength
  {
    assert (b - a) * c >= 0.0;
  }

  /** The StatsBomb width range lands on the pitch, order reversed. */
  lemma MetricYOnPitch(y1: real, y2: real, pitchWidth: real)
    requires 0.0 <= y1 <= y2 <= StatsBombWidth && pitchWidth >= 0.0
    ensures 0.0 <= MetricY(y2, pitchWidth) <= MetricY(y1, pitchWidth) <= pitchWidth
  {
    assert y1 * pitchWidth <= y2 * pitchWidth <= StatsBombWidth * pitchWidth;
  }

  /** `orient_vertical`: the renaming swaps the two columns and the new `x`
      is mirrored across the pitch width. */
  function Oriented(x: real, y: real, pitchWidth: real, orientVertical: bool): (r: (real, real))
    ensures !orientVertical ==> r == (x, y)
    ensures orientVertical ==> r.0 == pitchWidth - y && r.1 == x
    ensures orientVertical && 0.0 <= y <= pitchWidth ==> 0.0 <= r.0 <= pitchWidth
  {
    if orientVertical then (pitchWidth - y, x) else (x, y)
  }

  // ---------------------------------------------------------------------------
  // Labels

  /** The nickname when the lineup has one, else the player's name (`fillna`). */
  function DisplayName(player: string, nickname: Option<string>): (r: string)
    ensures nickname.Some? ==> r == nickname.value
    ensures nickname.None? ==> r == player
  {
    nickname.GetOr(player)
  }

  /** The label "Surname 45'": last word of the name, a blank, the minute, a prime.
      NaN when the name holds no word. */
  function ShotInfo(name: string, minute: nat): (r: Option<string>)
    ensures r.None? <==> AllSpace(name)
  {
    match LastWord(name)
    case None => None
    case Some(w) => Some(w + " " + Decimal(minute) + "'")
  }

  /** Splits a label back into its word and its minute, accepting the minute only in the
      spelling `str(minute)` gives it. */
  function ParseInfo(t: string): Option<(string, nat)> {
    var i := IndexOfBlank(t);
    if i + 2 <= |t| && t[|t| - 1] == '\'' && IsNumeral(t[i + 1..|t| - 1]) then
      Some((t[..i], ParseDecimal(t[i + 1..|t| - 1])))
    else
      None
  }

  /** A label gives back the last word of the name and the minute it was built from. */
  lemma InfoRoundTrip(name: string, minute: nat)
    ensures ShotInfo(name, minute).Some? ==>
      && LastWord(name).Some?
      && ParseInfo(ShotInfo(name, minute).value) == Some((LastWord(name).value, minute))
  {
    if LastWord(name).Some? {
      var w := LastWord(name).value;
      var d := Decimal(minute);
      var t := w + " " + d + "'";
      assert ShotInfo(name, minute).value == t;
      assert forall j :: 0 <= j < |w| ==> t[j] == w[j] && !IsSpace(w[j]);
      assert IndexOfBlank(t) == |w| by {
        assert t[|w|] == ' ';
        IndexOfBlankAt(t, |w|);
      }
      assert t[|w| + 1..|t| - 1] == d;
      assert t[..|w|] == w;
      DecimalRoundTrip(minute);
    }
  }

  /** A label that parses is spelled exactly as `ShotInfo` spells the word and minute it
      parses to, so the round trip pins the label. */
  lemma InfoDetermined(t: string, w: string, minute: nat)
    requires ParseInfo(t) == Some((w, minute))
    ensures t == w + " " + Decimal(minute) + "'"
  {
    var i := IndexOfBlank(t);
    var d := t[i + 1..|t| - 1];
    NumeralIsDecimal(d);
    assert t == t[..i] + [t[i]] + d + [t[|t| - 1]];
  }

  lemma IndexOfBlankAt(t: string, k: nat)
    requires k < |t| && t[k] == ' '
    requires forall j :: 0 <= j < k ==> t[j] != ' '
    ensures IndexOfBlank(t) == k
  {
    var i := IndexOfBlank(t);
    assert !(i < k);
  }

  // ---------------------------------------------------------------------------
  // Rows

  /** One row of `prep_data` / `prepare_data`. */
  function NormalizeShot(raw: RawShot, pitchLength: real, pitchWidth: real, orientVertical: bool): (s: Shot)
    ensures s.isGoal <==> raw.outcome == "Goal"
    ensures s.info == ShotInfo(DisplayName(raw.player, raw.nickname), raw.minute)
    ensures s.xg == raw.xg && s.team == raw.team
    ensures orientVertical ==>
      s.x == raw.location.1 * pitchWidth / StatsBombWidth && s.y == raw.location.0 * pitchLength / StatsBombLength
    ensures !orientVertical ==>
      s.x == raw.location.0 * pitchLength / StatsBombLength && s.y == pitchWidth - raw.location.1 * pitchWidth / StatsBombWidth
  {
    var xy := Oriented(MetricX(raw.location.0, pitchLength), MetricY(raw.location.1, pitchWidth), pitchWidth, orientVertical);
    Shot(xy.0, xy.1, raw.xg, raw.team, raw.outcome == "Goal",
         ShotInfo(DisplayName(raw.player, raw.nickname), raw.minute))
  }

  /** A shot inside the StatsBomb frame ends up on the pitch, in either orientation. */
  lemma NormalizedOnPitch(raw: RawShot, pitchLength: real, pitchWidth: real, orientVertical: bool)
    requires 0.0 <= raw.location.0 <= StatsBombLength && 0.0 <= raw.location.1 <= StatsBombWidth
    requires pitchLength >= 0.0 && pitchWidth >= 0.0
    ensures var s := NormalizeShot(raw, pitchLength, pitchWidth, orientVertical);
      if orientVertical then 0.0 <= s.x <= pitchWidth && 0.0 <= s.y <= pitchLength
      else 0.0 <= s.x <= pitchLength && 0.0 <= s.y <= pitchWidth
  {
    MetricXOnPitch(raw.location.0, raw.location.0, pitchLength);
    MetricYOnPitch(raw.location.1, raw.location.1, pitchWidth);
  }

  /** `prep_data` / `prepare_data` from the join on: the frame's columns are
      computed and reassigned one step at a time, as the pandas code does. */
  method PrepareShots(raw: seq<RawShot>, pitchLength: real, pitchWidth: real, orientVertical: bool)
    returns (shots: seq<Shot>)
    ensures |shots| == |raw|
    ensures forall i :: 0 <= i < |raw| ==> shots[i] == NormalizeShot(raw[i], pitchLength, pitchWidth, orientVertical)
  {
    var n := |raw|;
    // the derived columns: goal flag, display name and label
    var isGoal := seq(n, i requires 0 <= i < n => raw[i].outcome == "Goal");
    var x := seq(n, i requires 0 <= i < n => raw[i].location.0);
    var y := seq(n, i requires 0 <= i < n => raw[i].location.1);
    var name := seq(n, i requires 0 <= i < n => raw[i].nickname.GetOr(raw[i].player));
    var info := seq(n, i requires 0 <= i < n => ShotInfo(name[i], raw[i].minute));
    // StatsBomb units to pitch units, y axis flipped
    x := seq(n, i requires 0 <= i < n => x[i] * pitchLength / StatsBombLength);
    y := seq(n, i requires 0 <= i < n => pitchWidth - y[i] * pitchWidth / StatsBombWidth);
    // upright pitch: the axes trade places and the new x is mirrored
    if orientVertical {
      x, y := y, x;
      x := seq(n, i requires 0 <= i < n => pitchWidth - x[i]);
    }
    shots := seq(n, i requires 0 <= i < n => Shot(x[i], y[i], raw[i].xg, raw[i].team, isGoal[i], info[i]));
  }

  // ---------------------------------------------------------------------------
  // Colours

  /** `data['team'].unique()`: the teams in order of first appearance. */
  function UniqueTeams(rows: seq<Shot>): (t: seq<string>)
    ensures Distinct(t)
    ensures forall i :: 0 <= i < |rows| ==> rows[i].team in t
    ensures forall team :: team in t ==> exists i :: 0 <= i < |rows| && rows[i].team == team
    ensures |rows| > 0 ==> |t| > 0 && t[0] == rows[0].team
  {
    if rows == [] then []
    else
      var p := UniqueTeams(rows[..|rows| - 1]);
      assert forall i :: 0 <= i < |rows| - 1 ==> rows[..|rows| - 1][i] == rows[i];
      Appended(p, rows[|rows| - 1].team)
  }

  /** Before any row of a team listed later, a row of every team listed earlier has appeared. */
  lemma {:induction false} UniqueTeamsInOrder(rows: seq<Shot>, a: nat, b: nat, j: nat)
    requires a < b < |UniqueTeams(rows)|
    requires j < |rows| && rows[j].team == UniqueTeams(rows)[b]
    ensures exists i :: 0 <= i < j && rows[i].team == UniqueTeams(rows)[a]
  {
    var n := |rows|;
    var pre := rows[..n - 1];
    var p := UniqueTeams(pre);
    var t := UniqueTeams(rows);
    var last := rows[n - 1].team;
    assert t == Appended(p, last);
    assert forall i :: 0 <= i < n - 1 ==> pre[i] == rows[i];
    if b < |p| {
      assert t[a] == p[a] && t[b] == p[b];
      if j < n - 1 {
        assert pre[j].team == p[b];
        UniqueTeamsInOrder(pre, a, b, j);
        var i :| 0 <= i < j && pre[i].team == p[a];
        assert rows[i].team == t[a];
      } else {
        assert p[b] in p;
        var j' :| 0 <= j' < n - 1 && pre[j'].team == p[b];
        UniqueTeamsInOrder(pre, a, b, j');
        var i :| 0 <= i < j' && pre[i].team == p[a];
        assert rows[i].team == t[a];
      }
    } else {
      // t[b] is the last row's team, which no earlier row has
      assert last !in p && t == p + [last] && b == |p|;
      assert forall k :: 0 <= k < n - 1 ==> pre[k].team in p;
      assert j == n - 1;
      assert t[a] == p[a] && p[a] in p;
      var i :| 0 <= i < n - 1 && pre[i].team == p[a];
      assert rows[i].team == t[a];
    }
  }

  /** The state of the `edgecolor` and `facecolor` columns after the colour
      step, and whether it ran to the end (`false`: an `IndexError` was raised). */
  datatype Coloring = Coloring(completed: bool, edgecolor: seq<Option<string>>, facecolor: seq<Option<string>>)

  /** `data.loc[data['team'] == team, column] = color` */
  function Paint(rows: seq<Shot>, team: string, color: string, column: seq<Option<string>>): (r: seq<Option<string>>)
    requires |column| == |rows|
    ensures |r| == |rows|
    ensures forall i :: 0 <= i < |rows| ==> r[i] == (if rows[i].team == team then Some(color) else column[i])
  {
    seq(|rows|, i requires 0 <= i < |rows| => if rows[i].team == team then Some(color) else column[i])
  }

  /** The colour step of `scatter_shots`, lines 253-257 of shot_xg_plot.py and
      60-64 of python/xg_shot_plot.py, on the frame's columns. */
  function Recolor(rows: seq<Shot>, colors: seq<string>, edge: seq<Option<string>>, face: seq<Option<string>>): (c: Coloring)
    requires |edge| == |rows| && |face| == |rows|
    ensures |c.edgecolor| == |rows| && |c.facecolor| == |rows|
    ensures c.completed <==> |UniqueTeams(rows)| >= 2 && |colors| >= 2
    ensures c.completed ==> forall i :: 0 <= i < |rows| ==>
      var teams := UniqueTeams(rows);
      && (rows[i].team == teams[0] ==> c.edgecolor[i] == Some(colors[0]))
      && (rows[i].team == teams[1] ==> c.edgecolor[i] == Some(colors[1]))
      && (rows[i].team != teams[0] && rows[i].team != teams[1] ==> c.edgecolor[i] == edge[i])
      && (rows[i].isGoal ==> c.facecolor[i] == c.edgecolor[i])
      && (!rows[i].isGoal ==> c.facecolor[i] == Some("white"))
    ensures !c.completed ==> c.facecolor == face
    ensures !c.completed && |rows| > 0 && |colors| >= 1 ==> forall i :: 0 <= i < |rows| ==>
      c.edgecolor[i] == if rows[i].team == rows[0].team then Some(colors[0]) else edge[i]
    ensures (|rows| == 0 || |colors| == 0) ==> c.edgecolor == edge
  {
    var teams := UniqueTeams(rows);
    if |teams| < 1 || |colors| < 1 then
      Coloring(false, edge, face)
    else
      var edge1 := Paint(rows, teams[0], colors[0], edge);
      if |teams| < 2 || |colors| < 2 then
        Coloring(false, edge1, face)
      else
        var edge2 := Paint(rows, teams[1], colors[1], edge1);
        var face2 := seq(|rows|, i requires 0 <= i < |rows| => if rows[i].isGoal then edge2[i] else Some("white"));
        Coloring(true, edge2, face2)
  }

  /** A data frame of prepared shots, with the two colour columns that
      `scatter_shots` adds to it in place. */
  class ShotFrame {
    var rows: seq<Shot>
    var edgecolor: seq<Option<string>>
    var facecolor: seq<Option<string>>

    ghost predicate Valid()
      reads this
    {
      |edgecolor| == |rows| && |facecolor| == |rows|
    }

    /** A frame without colour columns: every cell reads as NaN. */
    constructor (rows: seq<Shot>)
      ensures Valid() && this.rows == rows
      ensures forall i :: 0 <= i < |rows| ==> edgecolor[i] == None && facecolor[i] == None
    {
      this.rows := rows;
      edgecolor := seq(|rows|, _ => None);
      facecolor := seq(|rows|, _ => None);
    }

    /** Lines 253-257 of shot_xg_plot.py (60-64 of python/xg_shot_plot.py).
        `ok` is false when `teams[0]`, `colors[0]`, `teams[1]` or `colors[1]`
        raises; what the lines before the failing one wrote stays written. */
    method AssignColors(colors: seq<string>) returns (ok: bool)
      requires Valid()
      modifies this
      ensures Valid() && rows == old(rows)
      ensures Coloring(ok, edgecolor, facecolor) == Recolor(rows, colors, old(edgecolor), old(facecolor))
    {
      var teams := UniqueTeams(rows);
      if |colors| < 1 || |teams| < 1 {
        return false;
      }
      edgecolor := Paint(rows, teams[0], colors[0], edgecolor);
      if |colors| < 2 || |teams| < 2 {
        return false;
      }
      edgecolor := Paint(rows, teams[1], colors[1], edgecolor);
      facecolor := edgecolor;
      var r, f := rows, facecolor;
      facecolor := seq(|r|, i requires 0 <= i < |r| => if !r[i].isGoal then Some("white") else f[i]);
      ok := true;
    }

    /** The preparation both `scatter_shots` functions share: the colour columns are
        written into this frame, and what is plotted is a copy sorted by xG, largest
        first (empty when the colour step raised). */
    method PrepareScatter(colors: seq<string>) returns (ok: bool, plotted: seq<ColoredShot>)
      requires Valid()
      modifies this
      ensures Valid() && rows == old(rows)
      ensures Coloring(ok, edgecolor, facecolor) == Recolor(rows, colors, old(edgecolor), old(facecolor))
      ensures ok ==> plotted == SortedByXg(ColoredRows(rows, edgecolor, facecolor))
      ensures !ok ==> plotted == []
    {
      ok := AssignColors(colors);
      if ok {
        plotted := SortedByXg(ColoredRows(rows, edgecolor, facecolor));
      } else {
        plotted := [];
      }
    }
  }

  /** A row of the frame together with its two colour cells. */
  datatype ColoredShot = ColoredShot(shot: Shot, edgecolor: Option<string>, facecolor: Option<string>)

  /** The frame's rows with their colours, in frame order. */
  function ColoredRows(rows: seq<Shot>, edge: seq<Option<string>>, face: seq<Option<string>>): (r: seq<ColoredShot>)
    requires |edge| == |rows| && |face| == |rows|
    ensures |r| == |rows|
    ensures forall i :: 0 <= i < |rows| ==> r[i] == ColoredShot(rows[i], edge[i], face[i])
  {
    seq(|rows|, i requires 0 <= i < |rows| => ColoredShot(rows[i], edge[i], face[i]))
  }

  /** `data.sort_values('xg', ascending=False)`: a copy, largest xG first. */
  function SortedByXg(rows: seq<ColoredShot>): (r: seq<ColoredShot>)
    ensures multiset(r) == multiset(rows)
    ensures forall i, j :: 0 <= i < j < |r| ==> r[i].shot.xg >= r[j].shot.xg
  {
    var r := SortDescending(rows, (c: ColoredShot) => c.shot.xg);
    assert Descending(r, (c: ColoredShot) => c.shot.xg);
    r
  }

  /** The colours the completed colour step gives a shot of the first two teams `teams`. */
  ghost predicate PaintedAs(p: ColoredShot, teams: seq<string>, colors: seq<string>)
    requires |teams| >= 2 && |colors| >= 2
  {
    && (p.shot.isGoal ==> p.facecolor == p.edgecolor)
    && (!p.shot.isGoal ==> p.facecolor == Some("white"))
    && (p.shot.team == teams[0] ==> p.edgecolor == Some(colors[0]))
    && (p.shot.team == teams[1] ==> p.edgecolor == Some(colors[1]))
  }

  /** After a completed colour step every plotted shot is filled with its edge colour when
      it was a goal and white otherwise, and a shot of one of the first two teams carries
      that team's colour. */
  lemma PlottedColors(rows: seq<Shot>, colors: seq<string>, edge: seq<Option<string>>, face: seq<Option<string>>)
    requires |edge| == |rows| && |face| == |rows|
    requires Recolor(rows, colors, edge, face).completed
    ensures |UniqueTeams(rows)| >= 2 && |colors| >= 2
    ensures var c := Recolor(rows, colors, edge, face);
            forall p :: p in SortedByXg(ColoredRows(rows, c.edgecolor, c.facecolor)) ==>
              PaintedAs(p, UniqueTeams(rows), colors)
  {
    var c := Recolor(rows, colors, edge, face);
    var cs := ColoredRows(rows, c.edgecolor, c.facecolor);
    FramePainted(rows, colors, edge, face);
    forall p | p in SortedByXg(cs)
      ensures PaintedAs(p, UniqueTeams(rows), colors)
    {
      assert p in multiset(SortedByXg(cs));
      assert p in cs;
    }
  }

  /** The same in frame order. */
  lemma FramePainted(rows: seq<Shot>, colors: seq<string>, edge: seq<Option<string>>, face: seq<Option<string>>)
    requires |edge| == |rows| && |face| == |rows|
    requires Recolor(rows, colors, edge, face).completed
    ensures |UniqueTeams(rows)| >= 2 && |colors| >= 2
    ensures var c := Recolor(rows, colors, edge, face);
            forall p :: p in ColoredRows(rows, c.edgecolor, c.facecolor) ==> PaintedAs(p, UniqueTeams(rows), colors)
  {
    var c := Recolor(rows, colors, edge, face);
    var cs := ColoredRows(rows, c.edgecolor, c.facecolor);
    forall p | p in cs
      ensures PaintedAs(p, UniqueTeams(rows), colors)
    {
      var i :| 0 <= i < |cs| && cs[i] == p;
      assert p == ColoredShot(rows[i], c.edgecolor[i], c.facecolor[i]);
    }
  }
}
