# football-analytics shot plots, modelled in Dafny

The repository draws StatsBomb shot maps: every shot of a match becomes a circle on a
football pitch, sized by its expected-goals value (xG), coloured by team and filled when it
was a goal; short labels ("Surname 45'") are pushed clear of the circles by a force layout;
and the view zooms onto the area the shots occupy. This project models the arithmetic and
bookkeeping around the plotting calls and proves what it promises:

- **Shot records** (`Shots`, with `Text` for the label strings): the conversion of
  StatsBomb's 120 x 80 coordinates to a metric pitch with the y axis flipped, the optional
  vertical orientation, the goal flag, the nickname-or-name choice and the label text. Both
  scripts run the same code here (`prep_data` in shot_xg_plot.py, `prepare_data` in
  python/xg_shot_plot.py), so one model, `Shots.PrepareShots`, serves both.
- **Colours and plotting order** (`Shots.ShotFrame`): the colour columns that `scatter_shots`
  writes into the caller's frame in place, and the copy sorted by decreasing xG that is
  plotted.
- **Label placement** (`LabelRepel`, with `Regression` for the least-squares line): the graph
  of a fixed `data_<label>` node and a free `<label>` node per point (a `DiGraph` class
  updated in place), an abstract force layout, the two fits that undo the layout's scaling,
  the rescale of every node, the annotations and the widened view limits.
  `LabelRepel.RepelLabels` is the procedure step by step. It is proved equal to the
  functional specification `LabelRepel.Repel`, and the lemmas are stated about that
  specification.
- **Zoom window** (`XgShotPlot`): the view limits `shot_plot` derives from the shots.
- `ShotXgPlot.ScatterShots` ties the colours, the sorted copy and the label placement
  together as `scatter_shots` in shot_xg_plot.py does.

Two behaviours of the code are kept as written, and lemmas show their effect:

- Both fits assign to `scale`, so the slope of the x fit is overwritten. The one scale used
  on both axes is the slope of the y fit. `LabelRepel.OverwrittenSlope` exhibits a layout
  that stretches x by 2 and keeps y. The x stretch is then not undone, and a fixed node ends
  up at twice its original x.
- The lower view limits are widened by 15% of the *x* span on both axes, and the upper
  limits by 15% of the *y* span (`LabelRepel.ViewLimitsMargins`).

Reals stand for floating point. The layout (`nx.spring_layout`) is a function-typed
parameter. `np.polyfit` of degree 1 is the closed-form least-squares line.

## Model

| member | source | states |
|---|---|---|
| Shots.MetricX | shot_xg_plot.py:53 | the length conversion sends 0 to 0 and 120 to the pitch length |
| Shots.MetricY | shot_xg_plot.py:54 | the flipped width coordinate sends 0 to the pitch width and 80 to 0 |
| Shots.MetricXRoundTrip | shot_xg_plot.py:53 | the length conversion `x * pitch_length / 120` is a bijection with an explicit inverse (both compositions are the identity) |
| Shots.MetricYRoundTrip | shot_xg_plot.py:54 | the width conversion `pitch_width - y * pitch_width / 80` is a bijection with an explicit inverse (both directions) |
| Shots.MetricXOnPitch | shot_xg_plot.py:53 | StatsBomb lengths in [0, 120] land in [0, pitch_length], order preserved |
| Shots.MetricYOnPitch | shot_xg_plot.py:54 | StatsBomb widths in [0, 80] land in [0, pitch_width], order reversed |
| Shots.Oriented | shot_xg_plot.py:60-63 | `orient_vertical` swaps the columns and mirrors the new x: the new x is `pitch_width - y` (so a width in [0, pitch_width] stays in that range), the new y is the old x, and without the flag nothing changes |
| Shots.DisplayName | shot_xg_plot.py:47-48 | the nickname when there is one, else the player's name |
| Shots.ShotInfo | shot_xg_plot.py:49-50 | the label is missing (NaN) exactly when the name has no word |
| Shots.InfoDetermined | shot_xg_plot.py:49-50 | a label that parses to a word and a minute is exactly that word, a blank, `str(minute)` and a prime; with `InfoRoundTrip` this pins every label `ShotInfo` builds |
| Text.NumeralIsDecimal | shot_xg_plot.py:50 | a digit string with no leading zero (other than "0") is `str` of the number it denotes |
| Shots.InfoRoundTrip | shot_xg_plot.py:49-50 | a label splits back into the last word of the name and the minute it was built from; the parse accepts the minute only as `str` spells it |
| Text.LastWord | shot_xg_plot.py:49 | `str.split().str[-1]`: none exactly when the text is all white space, otherwise a maximal run of non-space characters followed only by white space |
| Text.LastWordUnique | shot_xg_plot.py:49 | that characterisation determines the word |
| Text.Decimal | shot_xg_plot.py:50 | `map(str)` of the minute: a non-empty string of digits with no leading zero except for "0" itself |
| Text.DecimalRoundTrip | shot_xg_plot.py:50 | `str(minute)` renders digits that parse back to the minute |
| Shots.NormalizeShot | shot_xg_plot.py:44-63 | goal flag exactly for outcome "Goal"; label from the displayed name; xG and team kept; x = 120-scaled length and y = flipped width, or, vertically, x = `y * pitch_width / 80` and y = `x * pitch_length / 120` (the two flips cancel) |
| Shots.NormalizedOnPitch | shot_xg_plot.py:53-63 | a shot inside the StatsBomb frame lies on the pitch in either orientation |
| Shots.PrepareShots | python/xg_shot_plot.py:29-47 | the column-by-column computation gives one row per shot, each equal to `NormalizeShot` of its record |
| Shots.UniqueTeams | shot_xg_plot.py:253 | `unique()`: no team twice, every row's team listed, only teams of rows listed, the first row's team first |
| Shots.UniqueTeamsInOrder | shot_xg_plot.py:253 | teams are listed in order of first appearance |
| Shots.Paint | shot_xg_plot.py:254-255 | `data.loc[data['team'] == team, 'edgecolor'] = color`: every row of that team gets the colour, every other row keeps its cell |
| Shots.Recolor | shot_xg_plot.py:253-257 | the colour step completes exactly when there are two teams and two colours; then edge colour 0 for the first team, 1 for the second, face colour equal to edge colour for goals and white otherwise; when `teams[1]` or `colors[1]` raises, the first team's cells have been painted and the face column is untouched |
| Shots.ShotFrame.constructor | shot_xg_plot.py:245-254 | the frame handed to `scatter_shots` keeps its rows, and every colour cell starts unset (NaN) before line 254 writes any |
| Shots.ShotFrame.AssignColors | shot_xg_plot.py:253-257 | updates the frame's colour columns in place to `Recolor` of the old ones, rows unchanged |
| Shots.ShotFrame.PrepareScatter | python/xg_shot_plot.py:60-65 | the caller's frame keeps its rows and gains the colour columns; what is plotted is the coloured rows sorted by xG |
| Shots.SortedByXg | shot_xg_plot.py:258 | `sort_values('xg', ascending=False)`: a permutation of the rows, xG non-increasing |
| Collections.SortDescending | shot_xg_plot.py:258 | permutation (multiset equality) and descending by the key |
| Shots.FramePainted | python/xg_shot_plot.py:61-64 | after a completed colour step every row of the first or the second team carries that team's colour, and every row is filled with its edge colour for a goal and white otherwise |
| Shots.PlottedColors | python/xg_shot_plot.py:61-65 | the same holds for every row of the sorted copy that is plotted |
| Regression.Fit | shot_xg_plot.py:218-219 | error exactly for empty samples, unequal lengths or all-equal abscissae; otherwise a line solving the normal equations |
| Regression.FitCharacterized | shot_xg_plot.py:218-219 | the fit is a line exactly when that line solves the normal equations of valid samples (both directions: the solution is unique) |
| Regression.ResidualsBalanced | shot_xg_plot.py:218-219 | a line solves the normal equations exactly when its residuals sum to zero and are orthogonal to the abscissae |
| Regression.FitIsLeastSquares | shot_xg_plot.py:218-219 | no line has a smaller sum of squared residuals than the fitted one |
| Regression.FitRecoversLine | shot_xg_plot.py:218-219 | samples lying exactly on a line (with two distinct abscissae) give that line back |
| Regression.FitIdentity | shot_xg_plot.py:215-219 | fitting coordinates against themselves gives slope 1 and intercept 0 |
| Regression.DenominatorZeroIff | shot_xg_plot.py:218-219 | the determinant of the normal equations is non-negative and zero exactly when all abscissae are equal |
| Reals.MinOfIsLeast | shot_xg_plot.py:239 | `np.min` is a lower bound of the column that some element attains |
| Reals.MaxOfIsGreatest | shot_xg_plot.py:240 | `np.max` is an upper bound of the column that some element attains |
| LabelRepel.DataKey | shot_xg_plot.py:205 | `'data_{0}'.format(label)` is five characters longer than the label |
| LabelRepel.WithNode | shot_xg_plot.py:206-207 | `add_node`: the node is in the graph afterwards, and a node already there leaves the graph unchanged |
| LabelRepel.WithEdge | shot_xg_plot.py:208 | `add_edge`: both endpoints are nodes afterwards and the target is among the source's successors |
| LabelRepel.WithNodeKeepsShape | shot_xg_plot.py:206-207 | `add_node` keeps a graph well formed, appends the node only when new, gives a new node no successors and changes no other successor list |
| LabelRepel.WithEdgeKeepsShape | shot_xg_plot.py:208 | `add_edge` keeps a graph well formed, adds missing endpoints in order, appends the target to the source's successors unless present, gives a new target no successors, and changes no other successor list |
| LabelRepel.DiGraph.constructor | shot_xg_plot.py:201 | a new graph is empty and well formed |
| LabelRepel.DiGraph.AddNode | shot_xg_plot.py:206-207 | updates the graph in place to `WithNode` of the old graph, keeping it well formed |
| LabelRepel.DiGraph.AddEdge | shot_xg_plot.py:208 | updates the graph in place to `WithEdge` of the old graph, keeping it well formed |
| LabelRepel.BuildGraph | shot_xg_plot.py:201-211 | the construction loop yields a fresh, well-formed graph equal to `Build`, and `data_nodes` and `init_pos` equal to `DataNodes` and `InitPos` of the markers |
| LabelRepel.Build | shot_xg_plot.py:204-208 | the graph after the loop; it has no contract of its own, and its shape is stated by `BuildShape` and `NodesAreKeys` |
| LabelRepel.DataNodes | shot_xg_plot.py:209 | one fixed key per marker; `DataNodesLength` states which key each entry is |
| LabelRepel.InitPos | shot_xg_plot.py:210-211 | the initial positions; it has no contract of its own, and its keys and values are stated by `InitPosKeys` and `InitPosLastWriter` |
| LabelRepel.DataNodesLength | shot_xg_plot.py:209 | `data_nodes` has one entry per marker, repeated labels included, entry i being `data_` + label i |
| LabelRepel.InitPosKeys | shot_xg_plot.py:210-211 | `init_pos` has exactly the keys the markers write |
| LabelRepel.InitPosLastWriter | shot_xg_plot.py:210-211 | the last marker writing a key decides its initial position |
| LabelRepel.KeysWritten | shot_xg_plot.py:204-211 | a key is present exactly when some marker writes it; a text is a label exactly when some marker carries it |
| LabelRepel.BuildShape | shot_xg_plot.py:204-208 | the graph has distinct nodes, a successor list exactly for each key, and successors `[data_<n>]` for a label node n and none for others |
| LabelRepel.NodesAreKeys | shot_xg_plot.py:204-208 | the graph's nodes are distinct and are exactly the keys the markers write |
| LabelRepel.EdgesShape | shot_xg_plot.py:208 | an edge is exactly a label node paired with its `data_` key |
| LabelRepel.EdgesOfMarkers | shot_xg_plot.py:208 | `G.edges()` is exactly the pairs (label, `data_` + label), one per distinct label |
| LabelRepel.FixedAfter | shot_xg_plot.py:216 | `pos_after`: one point per marker, the laid-out position of its `data_` node; the contract states the count, `RepelRescales` and `RepelIdentity` what the points do |
| LabelRepel.FixedBefore | shot_xg_plot.py:217 | `pos_before`: one point per marker, the initial position of its `data_` node; the contract states the count, `PlaceRestores` what the points are |
| LabelRepel.Positions | shot_xg_plot.py:221-222 | the rescaled `pos` map; it has no contract of its own, and `PlacePositions` and `RescaleAll` state that every node p becomes `p * scale + shift` |
| LabelRepel.Edges | shot_xg_plot.py:224 | `G.edges()`; it has no contract of its own, and `EdgesShape` and `EdgesOfMarkers` state which pairs it lists and how many |
| LabelRepel.Annotations | shot_xg_plot.py:224-233 | one annotation per edge; `PlaceAnnotations` and `RepelAnnotations` state what each one says |
| LabelRepel.Place | shot_xg_plot.py:221-242 | the rescale, the annotations and the limits; it has no contract of its own, and `PlacePositions`, `PlaceWithinLimits` and `PlaceAnnotations` state its properties |
| LabelRepel.Repel | shot_xg_plot.py:200-242 | the whole procedure reports "no labels" exactly when there are no markers; the lemmas below state the rest |
| LabelRepel.RepelRescales | shot_xg_plot.py:215-222 | when it succeeds, the shifts are the intercepts of the x and y fits, the one scale is the slope of the y fit, and every node p becomes `p * scale + shift` |
| LabelRepel.RepelFails | shot_xg_plot.py:215-219 | the procedure fails exactly when there is no marker or the layout puts every fixed node on one vertical or one horizontal line |
| LabelRepel.RepelWithFits | shot_xg_plot.py:216-222 | given both fits, the result is the placement rescaled by the y slope and shifted by the two intercepts |
| LabelRepel.RepelUndoesUniformScaling | shot_xg_plot.py:215-222 | a layout that scales the fixed nodes by a != 0 and shifts them by b is undone by scale 1/a and shift -b/a |
| LabelRepel.PlaceRestores | shot_xg_plot.py:215-222 | after that rescale every fixed node is back at its initial position |
| LabelRepel.RepelIdentity | shot_xg_plot.py:215-222 | a layout that leaves every fixed node in place (coordinates not all equal on either axis) gives scale 1, shift 0 and leaves every position as laid out |
| LabelRepel.OverwrittenSlope | shot_xg_plot.py:218-219 | for markers at two points with distinct coordinates and a layout that doubles x, the scale is 1 (the y slope) and the second fixed node ends at twice its original x |
| LabelRepel.ViewLimits | shot_xg_plot.py:237-240 | on each axis the lower limit is at most the upper one, whichever span widens it |
| LabelRepel.ViewLimitsMargins | shot_xg_plot.py:237-240 | the limits are min - 0.15 * x span and max + 0.15 * y span on both axes |
| LabelRepel.ViewLimitsContain | shot_xg_plot.py:237-242 | every position lies inside the limits |
| LabelRepel.RepelWithinLimits | shot_xg_plot.py:221-242 | every final node position lies inside the view limits |
| LabelRepel.RepelAnnotations | shot_xg_plot.py:224-233 | one annotation per distinct label, every label annotated, its text at the label node and its arrow to the label's data node |
| LabelRepel.RescaleAll | shot_xg_plot.py:221-222 | the in-place loop over the positions leaves every node at its laid-out position times scale plus shift |
| LabelRepel.Annotate | shot_xg_plot.py:224-233 | the annotation loop emits one annotation per edge, in edge order |
| LabelRepel.PlaceLabels | shot_xg_plot.py:221-242 | rescale, annotations and limits equal the specification `Place` |
| LabelRepel.RepelLabels | shot_xg_plot.py:200-242 | the whole procedure equals the specification `Repel` |
| ShotXgPlot.ScatterShots | shot_xg_plot.py:252-266 | colours the caller's frame in place, plots the xG-sorted copy and, when `print_info` holds, places its labels with k = 1.5; when the colour step raises, nothing is plotted or labelled |
| ShotXgPlot.LabelMarkers | shot_xg_plot.py:266 | marker i sits at plotted shot i's position and carries its label text |
| ShotXgPlot.LabelText | shot_xg_plot.py:266 | the label key passed to `repel_labels`: the shot's label when it has one (the missing case is under Left out) |
| ShotXgPlot.RepeatedLabelAtLeastXg | shot_xg_plot.py:258-266 | a label shared by several plotted shots starts at the last of them, the one with the least xG |
| XgShotPlot.DistCenter | python/xg_shot_plot.py:124-125 | `dist_center` is at least 16.5 + 7.32 / 2 |
| XgShotPlot.DistGroundline | python/xg_shot_plot.py:126 | `dist_groundline` is at least 11 + 9.15 |
| XgShotPlot.DepthLimits | python/xg_shot_plot.py:127 | `xlim`: the lower limit is at least 0.95 * (11 + 9.15) |
| XgShotPlot.LateralLimits | python/xg_shot_plot.py:128-129 | `ylim`: at least 2 * (16.5 + 3.66) + 0.05 * pitch_width wide |
| XgShotPlot.ZoomWindow | python/xg_shot_plot.py:121-131 | on the axis along the pitch (y when upright, x otherwise) the lower limit is at least 0.95 * 20.15 and the upper one is 1.07 * pitch_length; the other axis is at least 2 * (16.5 + 3.66) + 0.05 * pitch_width wide |
| XgShotPlot.DistCenterBounds | python/xg_shot_plot.py:124-125 | `dist_center` is at least 16.5 + 7.32 / 2 and every shot's distance from the middle line, and equals one of them |
| XgShotPlot.DistGroundlineBounds | python/xg_shot_plot.py:126 | `dist_groundline` is at least 11 + 9.15 and is either that or the least depth of a shot; some shot is no deeper than it |
| XgShotPlot.LateralLimitsOrdered | python/xg_shot_plot.py:124-129 | on a pitch of non-negative width the lateral lower limit is strictly below the upper one |
| XgShotPlot.LateralLimitsContain | python/xg_shot_plot.py:124-129 | shots on the pitch lie inside the lateral limits |
| XgShotPlot.DepthLimitsCut | python/xg_shot_plot.py:126-127 | the lower depth limit is at most a shot's depth exactly when that depth is at least 0.95 * 20.15, and the upper limit is past every shot on the pitch |
| XgShotPlot.VerticalSwapsAxes | python/xg_shot_plot.py:121-131 | the upright window of the transposed shots is the lying window with its two axes exchanged |

## Left out

- Reading the JSON event and lineup files, the statsbombpy fetches and the pandas `merge`:
  the model starts from the joined shot record (`Shots.RawShot`).
- `draw_pitch`, python/pitch.py, `add_xg_legend`, the marker sizes
  `xg * shot_markersize_factor`, `savefig` and every matplotlib call. Their effect is
  on the image only. The limits and annotations are returned as data.
- `nx.spring_layout`: the force simulation lives in a library that is not part of this
  model. It is a parameter (`LabelRepel.Layout`), and every lemma holds for any layout.
- `labels.repel`, called by `scatter_shots` in python/xg_shot_plot.py:73: its module is not
  part of this model. That `scatter_shots` is modelled up to the sorted copy
  (`Shots.ShotFrame.PrepareScatter`).
- Floating point: reals stand for the float columns and for numpy's arithmetic, so
  rounding, NaN coordinates and infinities are not modelled. The constants 16.5 + 7.32 / 2
  and 11 + 9.15 are exact.
- Regression.Fit: when every abscissa is equal, `np.polyfit` warns and returns a
  least-squares line chosen by `lstsq` on its scaled system. The model reports
  `RankDeficient` instead.
- LabelRepel.RepelFails: the model reports a failure when the laid-out fixed nodes all share
  one x or one y coordinate. The source instead goes on with the least-squares line that
  `lstsq` chooses for that axis. The placement it then produces, and its warning, are not modelled.
- Shots.SortedByXg: `sort_values` uses an unstable quicksort by default. The model sorts
  stably, and its contract states only what both promise (a permutation, xG non-increasing);
  the order of equal-xG shots is not captured.
- ShotXgPlot.LabelText: a missing label (NaN) becomes the text "nan". The source would use the
  float NaN itself as a graph key, which compares unequal to itself.
- XgShotPlot.DistCenter / XgShotPlot.DistGroundline: with no shots, the pandas reductions
  return NaN, and Python's `max` then keeps its first argument. The model returns the
  constant. The NaN itself is not modelled.
- The zoom window of `shot_plot` in shot_xg_plot.py (lines 314-324) is not modelled. It uses
  the same arithmetic, but over two frames. Line 319 reads the parameter `data`. Line 318
  reads the module-level `shots` bound at line 381. The script passes that same `shots` to
  `shot_plot` (line 383), so there the two frames coincide and the window is the one
  `XgShotPlot.ZoomWindow` computes. A call with any other frame mixes the two, and the
  model does not cover that case.
- Graph edges are listed node by node in insertion order, which is the order networkx uses
  for a `DiGraph`. Any other iteration order of the library is not modelled.
