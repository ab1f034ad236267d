/**
 * The top level of rpg.py (rpg.py:297-309): which loader the flags select,
 * the fixed order donut, grid, recommendations in which the selected plots
 * are made, and what each plot function hands to the renderer
 * (donut rpg.py:110-149, grid rpg.py:151-228, recommendations rpg.py:230-295).
 */
module Orchestrator {
  import opened Wrappers
  import opened Categories
  import opened Severity
  import opened Jitter
  import opened Plots
  import opened PlotState

  /** The flags the run depends on: three switches, and the two string
      options --output-png-file and --legend (absent is None). */
  datatype Args = Args(grid: bool, donut: bool, recommendations: bool,
                       outputPngFile: Option<string>, legend: Option<string>)

  /** Python truthiness of an optional string: present and not empty. */
  predicate Truthy(o: Option<string>) {
    o.Some? && o.value != ""
  }

  datatype Schema = RiskSchema | RecommendationsSchema

  /** The loader the flags select, if any. */
  function LoaderFor(args: Args): (s: Option<Schema>)
    ensures s == Some(RiskSchema) <==> args.donut || args.grid
    ensures s == Some(RecommendationsSchema) <==> !args.donut && !args.grid && args.recommendations
    ensures s == None <==> !args.donut && !args.grid && !args.recommendations
  {
    if args.donut || args.grid then Some(RiskSchema)
    else if args.recommendations then Some(RecommendationsSchema)
    else None
  }

  datatype Mode = Donut | Grid | Recommendations

  function ModeOrder(m: Mode): nat {
    match m
    case Donut => 0
    case Grid => 1
    case Recommendations => 2
  }

  predicate Selected(args: Args, m: Mode) {
    match m
    case Donut => args.donut
    case Grid => args.grid
    case Recommendations => args.recommendations
  }

  /** The plots made, in the order they are made. */
  function Modes(args: Args): (ms: seq<Mode>)
    ensures forall m :: m in ms <==> Selected(args, m)
    ensures forall i, j :: 0 <= i < j < |ms| ==> ModeOrder(ms[i]) < ModeOrder(ms[j])
  {
    (if args.donut then [Donut] else [])
    + (if args.grid then [Grid] else [])
    + (if args.recommendations then [Recommendations] else [])
  }

  /** No plot runs without data loaded, and the donut and grid plots always
      read the risk schema, which has the rating column they need. */
  lemma EveryModeHasData(args: Args, m: Mode)
    requires m in Modes(args)
    ensures LoaderFor(args).Some?
    ensures m != Recommendations ==> LoaderFor(args) == Some(RiskSchema)
  {
  }

  /** Where a plot goes: interactive display, or a file. */
  datatype Destination = Show | SaveTo(path: string)

  function DestinationOf(args: Args): (d: Destination)
    ensures d.SaveTo? <==> Truthy(args.outputPngFile)
    ensures d.SaveTo? ==> d.path == args.outputPngFile.value
  {
    if Truthy(args.outputPngFile) then SaveTo(args.outputPngFile.value) else Show
  }

  /** What one plot function hands to the renderer. */
  datatype Rendered =
    | Ring(counts: Counts, level: Level, centreText: string, categoryLegend: bool, destination: Destination)
    | GridPlot(gridMarks: seq<Option<Mark>>, legend: Option<seq<string>>, destination: Destination)
    | RecommendationsPlot(recommendationMarks: seq<Mark>, legend: Option<seq<string>>, destination: Destination)

  function ModeOf(r: Rendered): Mode {
    match r
    case Ring(_, _, _, _, _) => Donut
    case GridPlot(_, _, _) => Grid
    case RecommendationsPlot(_, _, _) => Recommendations
  }

  /** The generator's index picks for one plot: one x and one y pick per observation. */
  datatype Picks = Picks(xs: seq<nat>, ys: seq<nat>)

  predicate PicksFit(p: Picks, n: nat, xChoices: nat) {
    && |p.xs| == n && |p.ys| == n
    && (forall j :: 0 <= j < n ==> p.xs[j] < xChoices)
    && (forall j :: 0 <= j < n ==> p.ys[j] < 4)
  }

  /** donut: the ring of the three counters, its exposure level's name at the centre. */
  method DrawDonut(data: PlotData, args: Args) returns (r: Rendered)
    requires data.Valid()
    ensures r.Ring? && r.counts == data.Counters() && r.level == Exposure(r.counts)
    ensures r.centreText == LevelName(r.level)
    ensures r.categoryLegend == Truthy(args.legend) && r.destination == DestinationOf(args)
  {
    var counts := data.Counters();
    var level := Exposure(counts);
    r := Ring(counts, level, LevelName(level), Truthy(args.legend), DestinationOf(args));
  }

  /** grid: one marker per observation rated H, M or L, and with --legend the labels appended
      to the shared mylabels list, all of which is handed to the legend call. */
  method DrawGrid(data: PlotData, args: Args, picks: Picks) returns (r: Rendered)
    requires data.Valid() && PicksFit(picks, data.GridLength(), 4)
    modifies data`mylabels
    ensures data.Valid() && r.GridPlot? && r.destination == DestinationOf(args)
    ensures |r.gridMarks| == data.GridLength()
    ensures forall j :: 0 <= j < |r.gridMarks| ==> r.gridMarks[j] == data.GridMarkAt(j, picks.xs[j], picks.ys[j])
    ensures data.mylabels == old(data.mylabels) + (if Truthy(args.legend) then Labels(data.numbers, data.observationNames) else [])
    ensures r.legend == (if Truthy(args.legend) then Some(data.mylabels) else None)
  {
    var marks := data.GridMarks(picks.xs, picks.ys);
    var legend := None;
    if Truthy(args.legend) {
      data.BuildLegend();
      legend := Some(data.mylabels);
    }
    r := GridPlot(marks, legend, DestinationOf(args));
  }

  /** recommendations: as grid, one uniform marker per observation. */
  method DrawRecommendations(data: PlotData, args: Args, picks: Picks) returns (r: Rendered)
    requires data.Valid() && PicksFit(picks, data.RecommendationLength(), 5)
    modifies data`mylabels
    ensures data.Valid() && r.RecommendationsPlot? && r.destination == DestinationOf(args)
    ensures |r.recommendationMarks| == data.RecommendationLength()
    ensures forall j :: 0 <= j < |r.recommendationMarks| ==> r.recommendationMarks[j] == data.RecommendationMarkAt(j, picks.xs[j], picks.ys[j])
    ensures data.mylabels == old(data.mylabels) + (if Truthy(args.legend) then Labels(data.numbers, data.observationNames) else [])
    ensures r.legend == (if Truthy(args.legend) then Some(data.mylabels) else None)
  {
    var marks := data.RecommendationMarks(picks.xs, picks.ys);
    var legend := None;
    if Truthy(args.legend) {
      data.BuildLegend();
      legend := Some(data.mylabels);
    }
    r := RecommendationsPlot(marks, legend, DestinationOf(args));
  }

  /** The file suits the loader the flags select. */
  predicate InputFits(args: Args, rows: seq<seq<string>>) {
    match LoaderFor(args)
    case None => true
    case Some(RiskSchema) => |rows| >= 1 && WellFormed(rows[1..], 5)
    case Some(RecommendationsSchema) => |rows| >= 1 && WellFormed(rows[1..], 4)
  }

  /** The grid markers computed straight from the data rows. */
  function GridMarksFor(data: seq<seq<string>>, picks: Picks): (marks: seq<Option<Mark>>)
    requires WellFormed(data, 5) && PicksFit(picks, |data|, 4)
    ensures |marks| == |data|
  {
    seq(|data|, j requires 0 <= j < |data| =>
      GridMark(data[j][0], data[j][4], GridX(LikelihoodX(data[j][2]), picks.xs[j]), JitterY(ImpactY(data[j][3]), picks.ys[j])))
  }

  /** The recommendations markers computed straight from the data rows. */
  function RecommendationMarksFor(data: seq<seq<string>>, picks: Picks): (marks: seq<Mark>)
    requires WellFormed(data, 4) && PicksFit(picks, |data|, 5)
    ensures |marks| == |data|
  {
    seq(|data|, j requires 0 <= j < |data| =>
      RecommendationMark(data[j][0], RecommendationX(LikelihoodX(data[j][2]), picks.xs[j]), JitterY(ImpactY(data[j][3]), picks.ys[j])))
  }

  /** Row j is drawn in the grid exactly when its rating is H, M or L, and
      then in the cell of its own Likelihood and Impact. */
  lemma GridMarksForRows(data: seq<seq<string>>, picks: Picks, j: nat)
    requires WellFormed(data, 5) && PicksFit(picks, |data|, 4) && j < |data|
    ensures var m := GridMarksFor(data, picks)[j];
      && (m.Some? <==> IsCategory(data[j][4]))
      && (m.Some? ==> m.value.text == data[j][0]
                      && LikelihoodAt(m.value.x) == data[j][2] && ImpactAt(m.value.y) == data[j][3])
  {
    GridPointInCell(data[j][2], data[j][3], picks.xs[j], picks.ys[j]);
  }

  /** Every row gets a recommendations marker, in the cell of its own categories. */
  lemma RecommendationMarksForRows(data: seq<seq<string>>, picks: Picks, j: nat)
    requires WellFormed(data, 4) && PicksFit(picks, |data|, 5) && j < |data|
    ensures var m := RecommendationMarksFor(data, picks)[j];
      && m.text == data[j][0]
      && LikelihoodAt(m.x) == data[j][2] && ImpactAt(m.y) == data[j][3]
  {
    RecommendationPointInCell(data[j][2], data[j][3], picks.xs[j], picks.ys[j]);
  }

  /** The lists hold exactly the rows d, read into lists that started empty. */
  ghost predicate HoldsRows(data: PlotData, d: seq<seq<string>>)
    reads data`numbers, data`observationNames, data`xCoords, data`yCoords, data`amountOfObservations
    requires WellFormed(d, 4)
  {
    && data.numbers == Column(d, 0) && data.observationNames == Column(d, 1)
    && data.xCoords == XColumn(d) && data.yCoords == YColumn(d)
    && data.amountOfObservations == Indices(|d|)
  }

  /** The loader call of the module-level code, into fresh lists. */
  method Load(args: Args, rows: seq<seq<string>>) returns (data: PlotData)
    requires InputFits(args, rows)
    ensures fresh(data) && data.Valid() && data.mylabels == []
    ensures LoaderFor(args) == Some(RiskSchema) ==>
      && HoldsRows(data, rows[1..]) && data.riskRating == RatingColumn(rows[1..])
      && data.Counters() == Tally(RatingColumn(rows[1..]))
    ensures LoaderFor(args) == Some(RecommendationsSchema) ==> HoldsRows(data, rows[1..])
    ensures LoaderFor(args) != Some(RiskSchema) ==> data.riskRating == [] && data.Counters() == Counts(0, 0, 0)
    ensures LoaderFor(args).None? ==>
      && data.numbers == [] && data.observationNames == [] && data.xCoords == [] && data.yCoords == []
      && data.amountOfObservations == []
    ensures LoaderFor(args).Some? ==> Loaded(args, data, rows[1..])
  {
    data := new PlotData();
    var schema := LoaderFor(args);
    if schema == Some(RiskSchema) {
      data.LoadRiskCsv(rows);
      assert [] + RatingColumn(rows[1..]) == RatingColumn(rows[1..]);
      WellFormedNarrow(rows[1..], 5, 4);
    } else if schema == Some(RecommendationsSchema) {
      data.LoadRecommendationsCsv(rows);
    }
  }

  /** Read from lists loaded with rows d, the grid markers are those of the rows:
      the indirection through amount_of_observations is the identity. */
  lemma GridMarksOfRows(data: PlotData, d: seq<seq<string>>, picks: Picks)
    requires data.Valid() && WellFormed(d, 5) && HoldsRows(data, d) && data.riskRating == RatingColumn(d)
    requires PicksFit(picks, |d|, 4)
    ensures data.GridLength() == |d|
    ensures forall j :: 0 <= j < |d| ==> data.GridMarkAt(j, picks.xs[j], picks.ys[j]) == GridMarksFor(d, picks)[j]
  {
    forall j | 0 <= j < |d|
      ensures data.GridMarkAt(j, picks.xs[j], picks.ys[j]) == GridMarksFor(d, picks)[j]
    {
      ColumnsAt(d, 5, j);
    }
  }

  /** The same for the recommendations markers. */
  lemma RecommendationMarksOfRows(data: PlotData, d: seq<seq<string>>, picks: Picks)
    requires data.Valid() && WellFormed(d, 4) && HoldsRows(data, d)
    requires PicksFit(picks, |d|, 5)
    ensures data.RecommendationLength() == |d|
    ensures forall j :: 0 <= j < |d| ==>
      data.RecommendationMarkAt(j, picks.xs[j], picks.ys[j]) == RecommendationMarksFor(d, picks)[j]
  {
    forall j | 0 <= j < |d|
      ensures data.RecommendationMarkAt(j, picks.xs[j], picks.ys[j]) == RecommendationMarksFor(d, picks)[j]
    {
      ColumnsAt(d, 4, j);
    }
  }

  /** Markers read from lists loaded with rows d are those of the rows. */
  lemma GridMarksAre(data: PlotData, d: seq<seq<string>>, picks: Picks, marks: seq<Option<Mark>>)
    requires data.Valid() && WellFormed(d, 5) && HoldsRows(data, d) && data.riskRating == RatingColumn(d)
    requires PicksFit(picks, |d|, 4) && |marks| == data.GridLength()
    requires forall j :: 0 <= j < |marks| ==> marks[j] == data.GridMarkAt(j, picks.xs[j], picks.ys[j])
    ensures marks == GridMarksFor(d, picks)
  {
    GridMarksOfRows(data, d, picks);
  }

  lemma RecommendationMarksAre(data: PlotData, d: seq<seq<string>>, picks: Picks, marks: seq<Mark>)
    requires data.Valid() && WellFormed(d, 4) && HoldsRows(data, d)
    requires PicksFit(picks, |d|, 5) && |marks| == data.RecommendationLength()
    requires forall j :: 0 <= j < |marks| ==> marks[j] == data.RecommendationMarkAt(j, picks.xs[j], picks.ys[j])
    ensures marks == RecommendationMarksFor(d, picks)
  {
    RecommendationMarksOfRows(data, d, picks);
  }

  /** A grid drawn from lists loaded with rows d is the grid of the rows. */
  lemma GridPlotOfRows(args: Args, data: PlotData, d: seq<seq<string>>, picks: Picks, r: Rendered, earlier: seq<string>)
    requires data.Valid() && WellFormed(d, 5) && HoldsRows(data, d) && data.riskRating == RatingColumn(d)
    requires PicksFit(picks, |d|, 4)
    requires r.GridPlot? && r.destination == DestinationOf(args) && |r.gridMarks| == data.GridLength()
    requires forall j :: 0 <= j < |r.gridMarks| ==> r.gridMarks[j] == data.GridMarkAt(j, picks.xs[j], picks.ys[j])
    requires r.legend == if Truthy(args.legend) then Some(earlier + Labels(data.numbers, data.observationNames)) else None
    ensures r == GridOf(args, d, picks, earlier)
  {
    GridMarksAre(data, d, picks, r.gridMarks);
  }

  /** A recommendations plot drawn from lists loaded with rows d is the plot of the rows. */
  lemma RecommendationsPlotOfRows(args: Args, data: PlotData, d: seq<seq<string>>, picks: Picks, r: Rendered, earlier: seq<string>)
    requires data.Valid() && WellFormed(d, 4) && HoldsRows(data, d)
    requires PicksFit(picks, |d|, 5)
    requires r.RecommendationsPlot? && r.destination == DestinationOf(args)
    requires |r.recommendationMarks| == data.RecommendationLength()
    requires forall j :: 0 <= j < |r.recommendationMarks| ==>
      r.recommendationMarks[j] == data.RecommendationMarkAt(j, picks.xs[j], picks.ys[j])
    requires r.legend == if Truthy(args.legend) then Some(earlier + Labels(data.numbers, data.observationNames)) else None
    ensures r == RecommendationsOf(args, d, picks, earlier)
  {
    RecommendationMarksAre(data, d, picks, r.recommendationMarks);
  }

  /** The preconditions of Run: the file suits the selected loader and the
      generator's picks cover every observation of every jittered plot. */
  predicate RunFits(args: Args, rows: seq<seq<string>>, gridPicks: Picks, recommendationPicks: Picks) {
    && InputFits(args, rows)
    && (args.grid ==> |rows| >= 1 && PicksFit(gridPicks, |rows| - 1, 4))
    && (args.recommendations ==> |rows| >= 1 && PicksFit(recommendationPicks, |rows| - 1, 5))
  }

  /** The ring over the data rows d: their tally and its exposure level. */
  function DonutOf(args: Args, d: seq<seq<string>>): Rendered
    requires WellFormed(d, 5)
  {
    var counts := Tally(RatingColumn(d));
    Ring(counts, Exposure(counts), LevelName(Exposure(counts)), Truthy(args.legend), DestinationOf(args))
  }

  /** The labels of the rows d, in file order. */
  function LabelsOf(d: seq<seq<string>>): seq<string>
    requires WellFormed(d, 4)
  {
    Labels(Column(d, 0), Column(d, 1))
  }

  /** The grid over rows d; with --legend it hands the legend call mylabels,
      which held `earlier` before this plot appended its own. */
  function GridOf(args: Args, d: seq<seq<string>>, picks: Picks, earlier: seq<string>): Rendered
    requires WellFormed(d, 5) && PicksFit(picks, |d|, 4)
  {
    GridPlot(GridMarksFor(d, picks), if Truthy(args.legend) then Some(earlier + LabelsOf(d)) else None, DestinationOf(args))
  }

  /** The recommendations plot over rows d, after mylabels already held `earlier`. */
  function RecommendationsOf(args: Args, d: seq<seq<string>>, picks: Picks, earlier: seq<string>): Rendered
    requires WellFormed(d, 4) && PicksFit(picks, |d|, 5)
  {
    RecommendationsPlot(RecommendationMarksFor(d, picks),
                        if Truthy(args.legend) then Some(earlier + LabelsOf(d)) else None,
                        DestinationOf(args))
  }

  /** Everything one run hands to the renderer, plot by plot. */
  function Expected(args: Args, rows: seq<seq<string>>, gridPicks: Picks, recommendationPicks: Picks): seq<Rendered>
    requires RunFits(args, rows, gridPicks, recommendationPicks)
  {
    if LoaderFor(args).None? then []
    else
      var d := rows[1..];
      var earlier := if args.grid && Truthy(args.legend) then LabelsOf(d) else [];
      (if args.donut then [DonutOf(args, d)] else [])
      + (if args.grid then [GridOf(args, d, gridPicks, [])] else [])
      + (if args.recommendations then [RecommendationsOf(args, d, recommendationPicks, earlier)] else [])
  }

  /** The kind of each plot handed over, in order. */
  function Kinds(out: seq<Rendered>): (ks: seq<Mode>)
    ensures |ks| == |out| && forall i :: 0 <= i < |out| ==> ks[i] == ModeOf(out[i])
  {
    if out == [] then [] else Kinds(out[..|out| - 1]) + [ModeOf(out[|out| - 1])]
  }

  /** The selected plots among one ring x, one grid y and one recommendations
      plot z, all for the same destination, follow the selected modes. */
  lemma {:induction false} SelectedInOrder(args: Args, x: Rendered, y: Rendered, z: Rendered)
    requires ModeOf(x) == Donut && ModeOf(y) == Grid && ModeOf(z) == Recommendations
    requires x.destination == DestinationOf(args) && y.destination == DestinationOf(args)
    requires z.destination == DestinationOf(args)
    ensures var out := (if args.donut then [x] else []) + (if args.grid then [y] else [])
                       + (if args.recommendations then [z] else []);
      && Kinds(out) == Modes(args)
      && (forall r <- out :: r.destination == DestinationOf(args))
  {
    SelectedKinds(args, x, y, z);
  }

  /** The kinds of the selected plots among x, y and z are the selected modes. */
  lemma {:induction false} SelectedKinds(args: Args, x: Rendered, y: Rendered, z: Rendered)
    requires ModeOf(x) == Donut && ModeOf(y) == Grid && ModeOf(z) == Recommendations
    ensures Kinds((if args.donut then [x] else []) + (if args.grid then [y] else [])
                  + (if args.recommendations then [z] else [])) == Modes(args)
  {
    var a := if args.donut then [x] else [];
    var b := if args.grid then [y] else [];
    var c := if args.recommendations then [z] else [];
    KindsAppend(a, b);
    KindsAppend(a + b, c);
    assert Kinds(a) == if args.donut then [Donut] else [];
    assert Kinds(b) == if args.grid then [Grid] else [];
    assert Kinds(c) == if args.recommendations then [Recommendations] else [];
  }

  /** Kinds distributes over concatenation. */
  lemma KindsAppend(p: seq<Rendered>, q: seq<Rendered>)
    ensures Kinds(p + q) == Kinds(p) + Kinds(q)
  {
    assert forall i :: 0 <= i < |p + q| ==> Kinds(p + q)[i] == (Kinds(p) + Kinds(q))[i] by {
      forall i | 0 <= i < |p + q|
        ensures Kinds(p + q)[i] == (Kinds(p) + Kinds(q))[i]
      {
        if i < |p| { assert (p + q)[i] == p[i]; } else { assert (p + q)[i] == q[i - |p|]; }
      }
    }
  }

  /** One plot per selected mode, in the order donut, grid, recommendations,
      each sent to the one destination the flags name. */
  lemma ExpectedFollowsModes(args: Args, rows: seq<seq<string>>, gridPicks: Picks, recommendationPicks: Picks)
    requires RunFits(args, rows, gridPicks, recommendationPicks)
    ensures var out := Expected(args, rows, gridPicks, recommendationPicks);
      && Kinds(out) == Modes(args)
      && (forall r <- out :: r.destination == DestinationOf(args))
  {
    if LoaderFor(args).Some? {
      var d := rows[1..];
      var earlier := if args.grid && Truthy(args.legend) then LabelsOf(d) else [];
      var x := if args.donut then DonutOf(args, d) else Ring(Counts(0, 0, 0), High, "High", false, DestinationOf(args));
      var y := if args.grid then GridOf(args, d, gridPicks, []) else GridPlot([], None, DestinationOf(args));
      var z := if args.recommendations then RecommendationsOf(args, d, recommendationPicks, earlier)
               else RecommendationsPlot([], None, DestinationOf(args));
      SelectedInOrder(args, x, y, z);
    }
  }

  /** With both --grid and --legend, the mylabels handed to the recommendations
      legend call holds every label twice: mylabels is shared and never cleared
      between the plots. */
  lemma SharedLabelsAccumulate(args: Args, rows: seq<seq<string>>, gridPicks: Picks, recommendationPicks: Picks)
    requires RunFits(args, rows, gridPicks, recommendationPicks)
    requires args.grid && args.recommendations && Truthy(args.legend)
    ensures var out := Expected(args, rows, gridPicks, recommendationPicks);
      && |out| >= 2
      && out[|out| - 2].legend == Some(LabelsOf(rows[1..]))
      && out[|out| - 1].legend == Some(LabelsOf(rows[1..]) + LabelsOf(rows[1..]))
  {
    assert [] + LabelsOf(rows[1..]) == LabelsOf(rows[1..]);
  }

  /** What Load leaves behind for the plot functions: lists holding exactly
      the data rows d. */
  ghost predicate Loaded(args: Args, data: PlotData, d: seq<seq<string>>)
    reads data`numbers, data`observationNames, data`amountOfObservations, data`riskRating,
      data`xCoords, data`yCoords, data`amountHigh, data`amountMedium, data`amountLow
  {
    && LoaderFor(args).Some? && data.Valid() && WellFormed(d, 4) && HoldsRows(data, d)
    && (LoaderFor(args) == Some(RiskSchema) ==>
          WellFormed(d, 5) && data.riskRating == RatingColumn(d) && data.Counters() == Tally(RatingColumn(d)))
  }

  /** `if args.donut: donut()` over loaded lists. */
  method DonutStep(args: Args, data: PlotData, ghost d: seq<seq<string>>) returns (part: seq<Rendered>)
    requires Loaded(args, data, d)
    ensures part == if args.donut then [DonutOf(args, d)] else []
  {
    part := [];
    if args.donut {
      var r := DrawDonut(data, args);
      part := [r];
    }
  }

  /** `if args.grid: grid()` over loaded lists; the grid is the grid of the
      rows, and its legend call gets what mylabels already held and its own labels. */
  method GridStep(args: Args, data: PlotData, ghost d: seq<seq<string>>, picks: Picks) returns (part: seq<Rendered>)
    requires Loaded(args, data, d)
    requires args.grid ==> PicksFit(picks, |d|, 4)
    modifies data`mylabels
    ensures Loaded(args, data, d)
    ensures part == if args.grid then [GridOf(args, d, picks, old(data.mylabels))] else []
    ensures data.mylabels == old(data.mylabels) + (if args.grid && Truthy(args.legend) then LabelsOf(d) else [])
  {
    part := [];
    if args.grid {
      GridMarksOfRows(data, d, picks);
      var r := DrawGrid(data, args, picks);
      GridPlotOfRows(args, data, d, picks, r, old(data.mylabels));
      part := [r];
    }
  }

  /** `if args.recommendations: recommendations()` over loaded lists, in the same way. */
  method RecommendationsStep(args: Args, data: PlotData, ghost d: seq<seq<string>>, picks: Picks)
    returns (part: seq<Rendered>)
    requires Loaded(args, data, d)
    requires args.recommendations ==> PicksFit(picks, |d|, 5)
    modifies data`mylabels
    ensures Loaded(args, data, d)
    ensures part == if args.recommendations then [RecommendationsOf(args, d, picks, old(data.mylabels))] else []
    ensures data.mylabels == old(data.mylabels) + (if args.recommendations && Truthy(args.legend) then LabelsOf(d) else [])
  {
    part := [];
    if args.recommendations {
      RecommendationMarksOfRows(data, d, picks);
      var r := DrawRecommendations(data, args, picks);
      RecommendationsPlotOfRows(args, data, d, picks, r, old(data.mylabels));
      part := [r];
    }
  }

  /** The module-level code: load once into fresh lists, then make the
      selected plots in the order donut, grid, recommendations. */
  method Run(args: Args, rows: seq<seq<string>>, gridPicks: Picks, recommendationPicks: Picks)
    returns (plots: seq<Rendered>)
    requires RunFits(args, rows, gridPicks, recommendationPicks)
    ensures plots == Expected(args, rows, gridPicks, recommendationPicks)
  {
    var data := Load(args, rows);
    if LoaderFor(args).None? {
      return [];
    }
    ghost var d := rows[1..];
    ghost var earlier := if args.grid && Truthy(args.legend) then LabelsOf(d) else [];
    var donut := DonutStep(args, data, d);
    var grid := GridStep(args, data, d, gridPicks);
    assert data.mylabels == [] + earlier == earlier;
    var recommendations := RecommendationsStep(args, data, d, recommendationPicks);
    plots := donut + grid + recommendations;
  }
}
