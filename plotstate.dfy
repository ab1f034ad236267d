/**
 * The module-level lists and counters of rpg.py (rpg.py:13-22) and the
 * loops that fill and read them: the two CSV loaders (rpg.py:46-108), the
 * per-observation draws of the grid and recommendations plots
 * (rpg.py:173-192, rpg.py:251-259) and the legend builder (rpg.py:196-197).
 * Input is the file's rows, already split into fields; row 0 is the header.
 */
module PlotState {
  import opened Wrappers
  import opened Categories
  import opened Severity
  import opened Jitter
  import opened Plots

  /** Every data row has at least `width` fields and H/M/L in its Likelihood
      and Impact fields (the risk schema has width 5, the recommendations schema 4). */
  predicate WellFormed(data: seq<seq<string>>, width: nat)
    requires width >= 4
  {
    forall i :: 0 <= i < |data| ==> |data[i]| >= width && IsCategory(data[i][2]) && IsCategory(data[i][3])
  }

  /** A row wide enough for the risk schema is wide enough for the recommendations schema. */
  lemma WellFormedNarrow(data: seq<seq<string>>, wide: nat, narrow: nat)
    requires 4 <= narrow <= wide && WellFormed(data, wide)
    ensures WellFormed(data, narrow)
  {
  }

  lemma WellFormedPrefix(data: seq<seq<string>>, width: nat, n: nat)
    requires width >= 4 && WellFormed(data, width) && n <= |data|
    ensures WellFormed(data[..n], width)
  {
    forall i | 0 <= i < n
      ensures |data[..n][i]| >= width && IsCategory(data[..n][i][2]) && IsCategory(data[..n][i][3])
    {
      assert data[..n][i] == data[i];
    }
  }

  /** Field c of every row, in file order. */
  function Column(data: seq<seq<string>>, c: nat): (col: seq<string>)
    requires WellFormed(data, 4) && c < 4
    ensures |col| == |data|
  {
    if data == [] then []
    else
      WellFormedPrefix(data, 4, |data| - 1);
      Column(data[..|data| - 1], c) + [data[|data| - 1][c]]
  }

  /** The risk rating field of every row, in file order. */
  function RatingColumn(data: seq<seq<string>>): (col: seq<string>)
    requires WellFormed(data, 5)
    ensures |col| == |data|
  {
    if data == [] then []
    else
      WellFormedPrefix(data, 5, |data| - 1);
      RatingColumn(data[..|data| - 1]) + [data[|data| - 1][4]]
  }

  /** The quadrant-centre x of every row's Likelihood field. */
  function XColumn(data: seq<seq<string>>): (xs: seq<int>)
    requires WellFormed(data, 4)
    ensures |xs| == |data|
  {
    if data == [] then []
    else
      WellFormedPrefix(data, 4, |data| - 1);
      XColumn(data[..|data| - 1]) + [LikelihoodX(data[|data| - 1][2])]
  }

  /** The quadrant-centre y of every row's Impact field. */
  function YColumn(data: seq<seq<string>>): (ys: seq<int>)
    requires WellFormed(data, 4)
    ensures |ys| == |data|
  {
    if data == [] then []
    else
      WellFormedPrefix(data, 4, |data| - 1);
      YColumn(data[..|data| - 1]) + [ImpactY(data[|data| - 1][3])]
  }

  /** Entry i of each column is row i's field. */
  lemma {:induction false} ColumnsAt(data: seq<seq<string>>, width: nat, i: nat)
    requires width >= 4 && WellFormed(data, width) && i < |data|
    ensures Column(data, 0)[i] == data[i][0] && Column(data, 1)[i] == data[i][1]
    ensures XColumn(data)[i] == LikelihoodX(data[i][2]) && YColumn(data)[i] == ImpactY(data[i][3])
    ensures width >= 5 ==> RatingColumn(data)[i] == data[i][4]
  {
    var n := |data| - 1;
    WellFormedPrefix(data, width, n);
    if i < n {
      ColumnsAt(data[..n], width, i);
      assert data[..n][i] == data[i];
    }
  }

  /** Extending the processed prefix by row i extends every column by that row's entry. */
  lemma ColumnsStep(data: seq<seq<string>>, width: nat, i: nat)
    requires width >= 4 && WellFormed(data, width) && i < |data|
    ensures WellFormed(data[..i], width) && WellFormed(data[..i + 1], width)
    ensures Column(data[..i + 1], 0) == Column(data[..i], 0) + [data[i][0]]
    ensures Column(data[..i + 1], 1) == Column(data[..i], 1) + [data[i][1]]
    ensures XColumn(data[..i + 1]) == XColumn(data[..i]) + [LikelihoodX(data[i][2])]
    ensures YColumn(data[..i + 1]) == YColumn(data[..i]) + [ImpactY(data[i][3])]
    ensures width >= 5 ==> RatingColumn(data[..i + 1]) == RatingColumn(data[..i]) + [data[i][4]]
  {
    WellFormedPrefix(data, width, i);
    WellFormedPrefix(data, width, i + 1);
    assert data[..i + 1][..i] == data[..i];
    assert data[..i + 1][i] == data[i];
  }

  lemma SnocAssoc<T>(a: seq<T>, b: seq<T>, x: T)
    ensures a + (b + [x]) == a + b + [x]
  {
  }

  /** One loader step, for lists that started as n0, m0, x0, y0 before row 0. */
  lemma LoadStep(n0: seq<string>, m0: seq<string>, x0: seq<int>, y0: seq<int>,
                 data: seq<seq<string>>, width: nat, i: nat)
    requires width >= 4 && WellFormed(data, width) && i < |data|
    ensures WellFormed(data[..i], width) && WellFormed(data[..i + 1], width)
    ensures n0 + Column(data[..i + 1], 0) == n0 + Column(data[..i], 0) + [data[i][0]]
    ensures m0 + Column(data[..i + 1], 1) == m0 + Column(data[..i], 1) + [data[i][1]]
    ensures x0 + XColumn(data[..i + 1]) == x0 + XColumn(data[..i]) + [LikelihoodX(data[i][2])]
    ensures y0 + YColumn(data[..i + 1]) == y0 + YColumn(data[..i]) + [ImpactY(data[i][3])]
  {
    ColumnsStep(data, width, i);
    SnocAssoc(n0, Column(data[..i], 0), data[i][0]);
    SnocAssoc(m0, Column(data[..i], 1), data[i][1]);
    SnocAssoc(x0, XColumn(data[..i]), LikelihoodX(data[i][2]));
    SnocAssoc(y0, YColumn(data[..i]), ImpactY(data[i][3]));
  }

  /** The rating column's step, for ratings that started as r0. */
  lemma RatingStep(r0: seq<string>, data: seq<seq<string>>, i: nat)
    requires WellFormed(data, 5) && i < |data|
    ensures WellFormed(data[..i], 5) && WellFormed(data[..i + 1], 5)
    ensures r0 + RatingColumn(data[..i + 1]) == r0 + RatingColumn(data[..i]) + [data[i][4]]
  {
    ColumnsStep(data, 5, i);
    SnocAssoc(r0, RatingColumn(data[..i]), data[i][4]);
  }

  /** What enumerate yields as indices over a list of length n: 0, 1, ..., n - 1. */
  function Indices(n: nat): (r: seq<nat>)
    ensures |r| == n
    ensures forall i :: 0 <= i < n ==> r[i] == i
  {
    if n == 0 then [] else Indices(n - 1) + [n - 1]
  }

  /** x is one of the three column centres, y one of the three row centres. */
  predicate IsCentreX(x: int) {
    x == 150 || x == 300 || x == 450
  }

  predicate IsCentreY(y: int) {
    y == 100 || y == 200 || y == 300
  }

  /** The loaded observations and the severity counters, shared by every plot. */
  class PlotData {
    var numbers: seq<string>
    var observationNames: seq<string>
    var amountOfObservations: seq<nat>
    var riskRating: seq<string>
    var mylabels: seq<string>
    var xCoords: seq<int>
    var yCoords: seq<int>
    var amountHigh: nat
    var amountMedium: nat
    var amountLow: nat

    /** The parallel lists agree in length, every centre is one of the nine,
        every stored index names an observation, and each counter counts
        its letter among the stored ratings. */
    ghost predicate Valid()
      reads this`numbers, this`observationNames, this`amountOfObservations, this`riskRating,
        this`xCoords, this`yCoords, this`amountHigh, this`amountMedium, this`amountLow
    {
      && |observationNames| == |numbers|
      && |xCoords| == |numbers|
      && |yCoords| == |numbers|
      && |riskRating| <= |numbers|
      && (forall i :: 0 <= i < |xCoords| ==> IsCentreX(xCoords[i]))
      && (forall i :: 0 <= i < |yCoords| ==> IsCentreY(yCoords[i]))
      && (forall i :: 0 <= i < |amountOfObservations| ==> amountOfObservations[i] < |numbers|)
      && amountHigh == CountOf(riskRating, "H")
      && amountMedium == CountOf(riskRating, "M")
      && amountLow == CountOf(riskRating, "L")
    }

    /** The tuple (amount_high, amount_medium, amount_low) the donut plots. */
    function Counters(): Counts
      reads this`amountHigh, this`amountMedium, this`amountLow
    {
      Counts(amountHigh, amountMedium, amountLow)
    }

    /** The state at program start: every list empty, every counter zero. */
    constructor ()
      ensures Valid()
      ensures numbers == [] && observationNames == [] && amountOfObservations == []
      ensures riskRating == [] && mylabels == [] && xCoords == [] && yCoords == []
      ensures Counters() == Counts(0, 0, 0)
    {
      numbers, observationNames, amountOfObservations := [], [], [];
      riskRating, mylabels, xCoords, yCoords := [], [], [], [];
      amountHigh, amountMedium, amountLow := 0, 0, 0;
    }

    /** load_risk_csv: skip the header, then for each data row append its
        number, name and rating, its quadrant centre, and count its rating;
        finally append an index for every stored name. */
    method LoadRiskCsv(rows: seq<seq<string>>)
      requires Valid()
      requires |rows| >= 1 && WellFormed(rows[1..], 5)
      modifies this
      ensures Valid()
      ensures numbers == old(numbers) + Column(rows[1..], 0)
      ensures observationNames == old(observationNames) + Column(rows[1..], 1)
      ensures riskRating == old(riskRating) + RatingColumn(rows[1..])
      ensures xCoords == old(xCoords) + XColumn(rows[1..])
      ensures yCoords == old(yCoords) + YColumn(rows[1..])
      ensures amountOfObservations == old(amountOfObservations) + Indices(|observationNames|)
      ensures amountHigh == old(amountHigh) + CountOf(RatingColumn(rows[1..]), "H")
      ensures amountMedium == old(amountMedium) + CountOf(RatingColumn(rows[1..]), "M")
      ensures amountLow == old(amountLow) + CountOf(RatingColumn(rows[1..]), "L")
      ensures mylabels == old(mylabels)
    {
      var data := rows[1..];
      for i := 0 to |data|
        invariant Valid()
        invariant numbers == old(numbers) + Column(data[..i], 0)
        invariant observationNames == old(observationNames) + Column(data[..i], 1)
        invariant riskRating == old(riskRating) + RatingColumn(data[..i])
        invariant xCoords == old(xCoords) + XColumn(data[..i])
        invariant yCoords == old(yCoords) + YColumn(data[..i])
        invariant amountOfObservations == old(amountOfObservations)
        invariant mylabels == old(mylabels)
      {
        LoadStep(old(numbers), old(observationNames), old(xCoords), old(yCoords), data, 5, i);
        RatingStep(old(riskRating), data, i);
        AppendRiskRow(data[i]);
      }
      assert data[..|data|] == data;
      CountOfAppend(old(riskRating), RatingColumn(data), "H");
      CountOfAppend(old(riskRating), RatingColumn(data), "M");
      CountOfAppend(old(riskRating), RatingColumn(data), "L");
      AppendIndices();
    }

    /** The body of load_risk_csv's row loop. */
    method AppendRiskRow(row: seq<string>)
      requires Valid()
      requires |row| >= 5 && IsCategory(row[2]) && IsCategory(row[3])
      modifies this`numbers, this`observationNames, this`riskRating, this`xCoords, this`yCoords,
        this`amountHigh, this`amountMedium, this`amountLow
      ensures Valid()
      ensures numbers == old(numbers) + [row[0]]
      ensures observationNames == old(observationNames) + [row[1]]
      ensures riskRating == old(riskRating) + [row[4]]
      ensures xCoords == old(xCoords) + [LikelihoodX(row[2])]
      ensures yCoords == old(yCoords) + [ImpactY(row[3])]
    {
      numbers := numbers + [row[0]];
      observationNames := observationNames + [row[1]];
      CountOfSnoc(riskRating, row[4], "H");
      CountOfSnoc(riskRating, row[4], "M");
      CountOfSnoc(riskRating, row[4], "L");
      riskRating := riskRating + [row[4]];
      var x := LikelihoodX(row[2]);
      var y := ImpactY(row[3]);
      CountRating(row[4]);
      xCoords := xCoords + [x];
      yCoords := yCoords + [y];
    }

    /** The severity tally of one row: the counter of its rating's letter goes
        up by one; a rating other than H, M, L changes no counter. */
    method CountRating(rating: string)
      modifies this`amountHigh, this`amountMedium, this`amountLow
      ensures amountHigh == old(amountHigh) + (if rating == "H" then 1 else 0)
      ensures amountMedium == old(amountMedium) + (if rating == "M" then 1 else 0)
      ensures amountLow == old(amountLow) + (if rating == "L" then 1 else 0)
    {
      if rating == "H" {
        amountHigh := amountHigh + 1;
      } else if rating == "M" {
        amountMedium := amountMedium + 1;
      } else if rating == "L" {
        amountLow := amountLow + 1;
      }
    }

    /** load_recommendations_csv: as the risk loader, without a rating column,
        so the ratings and counters are left as they were. */
    method LoadRecommendationsCsv(rows: seq<seq<string>>)
      requires Valid()
      requires |rows| >= 1 && WellFormed(rows[1..], 4)
      modifies this
      ensures Valid()
      ensures numbers == old(numbers) + Column(rows[1..], 0)
      ensures observationNames == old(observationNames) + Column(rows[1..], 1)
      ensures xCoords == old(xCoords) + XColumn(rows[1..])
      ensures yCoords == old(yCoords) + YColumn(rows[1..])
      ensures amountOfObservations == old(amountOfObservations) + Indices(|observationNames|)
      ensures riskRating == old(riskRating) && Counters() == old(Counters())
      ensures mylabels == old(mylabels)
    {
      var data := rows[1..];
      for i := 0 to |data|
        invariant Valid()
        invariant numbers == old(numbers) + Column(data[..i], 0)
        invariant observationNames == old(observationNames) + Column(data[..i], 1)
        invariant xCoords == old(xCoords) + XColumn(data[..i])
        invariant yCoords == old(yCoords) + YColumn(data[..i])
        invariant riskRating == old(riskRating) && Counters() == old(Counters())
        invariant amountOfObservations == old(amountOfObservations)
        invariant mylabels == old(mylabels)
      {
        LoadStep(old(numbers), old(observationNames), old(xCoords), old(yCoords), data, 4, i);
        AppendRecommendationRow(data[i]);
      }
      assert data[..|data|] == data;
      AppendIndices();
    }

    /** The body of load_recommendations_csv's row loop. */
    method AppendRecommendationRow(row: seq<string>)
      requires Valid()
      requires |row| >= 4 && IsCategory(row[2]) && IsCategory(row[3])
      modifies this`numbers, this`observationNames, this`xCoords, this`yCoords
      ensures Valid()
      ensures numbers == old(numbers) + [row[0]]
      ensures observationNames == old(observationNames) + [row[1]]
      ensures xCoords == old(xCoords) + [LikelihoodX(row[2])]
      ensures yCoords == old(yCoords) + [ImpactY(row[3])]
    {
      numbers := numbers + [row[0]];
      observationNames := observationNames + [row[1]];
      var x := LikelihoodX(row[2]);
      var y := ImpactY(row[3]);
      xCoords := xCoords + [x];
      yCoords := yCoords + [y];
    }

    /** The closing `for row in enumerate(observation_names)` loop of both loaders. */
    method AppendIndices()
      requires Valid()
      modifies this`amountOfObservations
      ensures Valid()
      ensures amountOfObservations == old(amountOfObservations) + Indices(|observationNames|)
    {
      for j := 0 to |observationNames|
        invariant amountOfObservations == old(amountOfObservations) + Indices(j)
        invariant forall k :: 0 <= k < |amountOfObservations| ==> amountOfObservations[k] < |numbers|
      {
        amountOfObservations := amountOfObservations + [j];
      }
    }

    /** How many observations the grid's zip visits: the shortest of its four lists. */
    function GridLength(): nat
      reads this`numbers, this`amountOfObservations, this`observationNames, this`riskRating
    {
      Min(Min(|numbers|, |amountOfObservations|), Min(|observationNames|, |riskRating|))
    }

    /** How many observations the recommendations plot's zip visits. */
    function RecommendationLength(): nat
      reads this`numbers, this`amountOfObservations, this`observationNames
    {
      Min(Min(|numbers|, |amountOfObservations|), |observationNames|)
    }

    /** What the grid draws for observation j: it is jittered, with the
        generator's picks kx and ky, around the centre stored at index
        amount_of_observations[j], and drawn as its rating dictates. */
    function GridMarkAt(j: nat, kx: nat, ky: nat): (m: Option<Mark>)
      reads this`numbers, this`observationNames, this`amountOfObservations, this`riskRating,
        this`xCoords, this`yCoords, this`amountHigh, this`amountMedium, this`amountLow
      requires Valid() && j < GridLength() && kx < 4 && ky < 4
      ensures m.Some? <==> IsCategory(riskRating[j])
      ensures var c := amountOfObservations[j];
        m.Some? ==>
          && m.value.text == numbers[j]
          && m.value.x in Admissible(xCoords[c] - 90, xCoords[c] - 10, 25)
          && m.value.y in Admissible(yCoords[c] - 80, yCoords[c] - 10, 20)
    {
      var c := amountOfObservations[j];
      GridMark(numbers[j], riskRating[j], GridX(xCoords[c], kx), JitterY(yCoords[c], ky))
    }

    /** An observation is drawn exactly when its rating is H, M or L, and then
        strictly inside the cell of its own centre, within the background. */
    lemma GridMarkInCell(j: nat, kx: nat, ky: nat)
      requires Valid() && j < GridLength() && kx < 4 && ky < 4
      ensures GridMarkAt(j, kx, ky).Some? <==> IsCategory(riskRating[j])
      ensures var m, c := GridMarkAt(j, kx, ky), amountOfObservations[j];
        m.Some? ==>
          && xCoords[c] - 150 < m.value.x < xCoords[c]
          && yCoords[c] - 100 < m.value.y < yCoords[c]
          && 0 <= m.value.x <= 450 && 0 <= m.value.y <= 300
    {
      var c := amountOfObservations[j];
      assert IsCentreX(xCoords[c]) && IsCentreY(yCoords[c]);
    }

    /** The grid loop over zip(numbers, amount_of_observations, observation_names, risk_rating). */
    method GridMarks(xPicks: seq<nat>, yPicks: seq<nat>) returns (marks: seq<Option<Mark>>)
      requires Valid()
      requires |xPicks| == GridLength() && |yPicks| == GridLength()
      requires forall j :: 0 <= j < |xPicks| ==> xPicks[j] < 4
      requires forall j :: 0 <= j < |yPicks| ==> yPicks[j] < 4
      ensures |marks| == GridLength()
      ensures forall j :: 0 <= j < |marks| ==> marks[j] == GridMarkAt(j, xPicks[j], yPicks[j])
    {
      marks := [];
      for j := 0 to GridLength()
        invariant |marks| == j
        invariant forall k :: 0 <= k < j ==> marks[k] == GridMarkAt(k, xPicks[k], yPicks[k])
      {
        var i := amountOfObservations[j];
        var x := GridX(xCoords[i], xPicks[j]);
        var y := JitterY(yCoords[i], yPicks[j]);
        marks := marks + [GridMark(numbers[j], riskRating[j], x, y)];
      }
    }

    /** What the recommendations plot draws for observation j. */
    function RecommendationMarkAt(j: nat, kx: nat, ky: nat): (m: Mark)
      reads this`numbers, this`observationNames, this`amountOfObservations, this`riskRating,
        this`xCoords, this`yCoords, this`amountHigh, this`amountMedium, this`amountLow
      requires Valid() && j < RecommendationLength() && kx < 5 && ky < 4
      ensures var c := amountOfObservations[j];
        && m.text == numbers[j] && m.fill == "#4f81bd" && m.size == 250
        && m.x in Admissible(xCoords[c] - 130, xCoords[c] - 10, 25)
        && m.y in Admissible(yCoords[c] - 80, yCoords[c] - 10, 20)
    {
      var c := amountOfObservations[j];
      RecommendationMark(numbers[j], RecommendationX(xCoords[c], kx), JitterY(yCoords[c], ky))
    }

    /** Every observation is drawn, strictly inside its own cell and right of x = 20. */
    lemma RecommendationMarkInCell(j: nat, kx: nat, ky: nat)
      requires Valid() && j < RecommendationLength() && kx < 5 && ky < 4
      ensures var m, c := RecommendationMarkAt(j, kx, ky), amountOfObservations[j];
        && xCoords[c] - 150 < m.x < xCoords[c]
        && yCoords[c] - 100 < m.y < yCoords[c]
        && 20 <= m.x <= 450 && 0 <= m.y <= 300
        && m.text == numbers[j]
    {
      var c := amountOfObservations[j];
      assert IsCentreX(xCoords[c]) && IsCentreY(yCoords[c]);
    }

    /** The recommendations loop over zip(numbers, amount_of_observations, observation_names). */
    method RecommendationMarks(xPicks: seq<nat>, yPicks: seq<nat>) returns (marks: seq<Mark>)
      requires Valid()
      requires |xPicks| == RecommendationLength() && |yPicks| == RecommendationLength()
      requires forall j :: 0 <= j < |xPicks| ==> xPicks[j] < 5
      requires forall j :: 0 <= j < |yPicks| ==> yPicks[j] < 4
      ensures |marks| == RecommendationLength()
      ensures forall j :: 0 <= j < |marks| ==> marks[j] == RecommendationMarkAt(j, xPicks[j], yPicks[j])
    {
      marks := [];
      for j := 0 to RecommendationLength()
        invariant |marks| == j
        invariant forall k :: 0 <= k < j ==> marks[k] == RecommendationMarkAt(k, xPicks[k], yPicks[k])
      {
        var i := amountOfObservations[j];
        var x := RecommendationX(xCoords[i], xPicks[j]);
        var y := JitterY(yCoords[i], yPicks[j]);
        marks := marks + [RecommendationMark(numbers[j], x, y)];
      }
    }

    /** The legend loop: one "id name" label per pair of zip(numbers,
        observation_names), appended to whatever mylabels already holds. */
    method BuildLegend()
      modifies this`mylabels
      ensures mylabels == old(mylabels) + Labels(numbers, observationNames)
    {
      ghost var labels := Labels(numbers, observationNames);
      for j := 0 to Min(|numbers|, |observationNames|)
        invariant mylabels == old(mylabels) + labels[..j]
      {
        assert labels[..j + 1] == labels[..j] + [labels[j]];
        mylabels := mylabels + [LegendLabel(numbers[j], observationNames[j])];
      }
      assert labels[..|labels|] == labels;
    }
  }
}
