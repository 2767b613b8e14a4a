/** `scatter_shots` of shot_xg_plot.py: the colour columns, the xG-sorted copy that is
    plotted, and the labels that `repel_labels` places next to the plotted points. */
module ShotXgPlot {
  import opened Results
  import opened Shots
  import opened LabelRepel

  /** The text of a shot's label; a missing label (NaN) formats as "nan". */
  function LabelText(info: Option<string>): (t: string)
    ensures info.Some? ==> t == info.value
  {
    info.GetOr("nan")
  }

  /** `zip(data['x'], data['y'], data['info'])` over the plotted copy. */
  function LabelMarkers(plotted: seq<ColoredShot>): (ms: seq<Marker>)
    ensures |ms| == |plotted|
    ensures forall i :: 0 <= i < |ms| ==>
      ms[i].at == Point(plotted[i].shot.x, plotted[i].shot.y) && ms[i].text == LabelText(plotted[i].shot.info)
  {
    seq(|plotted|, i requires 0 <= i < |plotted| =>
      Marker(Point(plotted[i].shot.x, plotted[i].shot.y), LabelText(plotted[i].shot.info)))
  }

  /** Lines 252-266: colour the caller's frame, sort a copy by xG, and, when `printInfo`
      holds, place the labels with `k = 1.5`. `labelled` is `None` when no labels were
      placed. */
  method ScatterShots(frame: ShotFrame, colors: seq<string>, printInfo: bool, layout: Layout)
    returns (ok: bool, plotted: seq<ColoredShot>, labelled: Option<Result<Placement, RepelError>>)
    requires frame.Valid()
    modifies frame
    ensures frame.Valid() && frame.rows == old(frame.rows)
    ensures Coloring(ok, frame.edgecolor, frame.facecolor)
         == Recolor(frame.rows, colors, old(frame.edgecolor), old(frame.facecolor))
    ensures ok ==> plotted == SortedByXg(ColoredRows(frame.rows, frame.edgecolor, frame.facecolor))
    ensures !ok ==> plotted == []
    ensures labelled == if ok && printInfo then Some(Repel(LabelMarkers(plotted), layout, 1.5)) else None
  {
    ok, plotted := frame.PrepareScatter(colors);
    if ok && printInfo {
      var r := RepelLabels(LabelMarkers(plotted), layout, 1.5);
      labelled := Some(r);
    } else {
      labelled := None;
    }
  }

  /** Whether shot `p`'s marker writes `key` into the initial positions. */
  predicate LabelsKey(p: ColoredShot, key: string) {
    LabelText(p.shot.info) == key || DataKey(LabelText(p.shot.info)) == key
  }

  /** A label text shared by several plotted shots starts out at the last of them, which,
      the copy being sorted by decreasing xG, has the least xG among them. */
  lemma RepeatedLabelAtLeastXg(rows: seq<ColoredShot>, i: nat)
    requires i < |SortedByXg(rows)|
    requires forall j :: i < j < |SortedByXg(rows)| ==>
               !LabelsKey(SortedByXg(rows)[j], LabelText(SortedByXg(rows)[i].shot.info))
    ensures var plotted := SortedByXg(rows);
            var t := LabelText(plotted[i].shot.info);
            && t in InitPos(LabelMarkers(plotted))
            && InitPos(LabelMarkers(plotted))[t] == Point(plotted[i].shot.x, plotted[i].shot.y)
            && forall j :: 0 <= j < |plotted| && LabelText(plotted[j].shot.info) == t ==>
                 plotted[j].shot.xg >= plotted[i].shot.xg
  {
    var plotted := SortedByXg(rows);
    var ms := LabelMarkers(plotted);
    var t := LabelText(plotted[i].shot.info);
    forall j | i < j < |ms|
      ensures !Writes(ms[j], t)
    {
      assert !LabelsKey(plotted[j], t);
    }
    InitPosLastWriter(ms, t, i);
    forall j | 0 <= j < |plotted| && LabelText(plotted[j].shot.info) == t
      ensures plotted[j].shot.xg >= plotted[i].shot.xg
    {
      if i < j {
        assert LabelsKey(plotted[j], t);
      }
    }
  }
}
