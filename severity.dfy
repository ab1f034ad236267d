/**
 * The severity tally kept by the risk loader (rpg.py:71-76) and the exposure
 * level the donut derives from it (rpg.py:118, rpg.py:127-133).
 */
module Severity {
  import opened Categories

  /** Number of entries of `ratings` equal to `letter`. */
  function CountOf(ratings: seq<string>, letter: string): (n: nat)
    ensures n <= |ratings|
  {
    if ratings == [] then 0
    else CountOf(ratings[..|ratings| - 1], letter) + (if ratings[|ratings| - 1] == letter then 1 else 0)
  }

  /** Number of entries of `ratings` that are one of H, M, L. */
  function RatedCount(ratings: seq<string>): (n: nat)
    ensures n <= |ratings|
  {
    if ratings == [] then 0
    else RatedCount(ratings[..|ratings| - 1]) + (if IsCategory(ratings[|ratings| - 1]) then 1 else 0)
  }

  /** Appending one rating adds one to its own letter's count only. */
  lemma CountOfSnoc(s: seq<string>, x: string, letter: string)
    ensures CountOf(s + [x], letter) == CountOf(s, letter) + (if x == letter then 1 else 0)
  {
    assert (s + [x])[..|s|] == s;
  }

  lemma {:induction false} CountOfAppend(s: seq<string>, t: seq<string>, letter: string)
    ensures CountOf(s + t, letter) == CountOf(s, letter) + CountOf(t, letter)
  {
    if t != [] {
      var t' := t[..|t| - 1];
      assert (s + t)[..|s + t| - 1] == s + t';
      assert (s + t)[|s + t| - 1] == t[|t| - 1];
      CountOfAppend(s, t', letter);
    } else {
      assert s + t == s;
    }
  }

  /** The three counters together count exactly the rows rated H, M or L. */
  lemma {:induction false} CountsSumToRated(ratings: seq<string>)
    ensures CountOf(ratings, "H") + CountOf(ratings, "M") + CountOf(ratings, "L") == RatedCount(ratings)
  {
    if ratings != [] {
      CountsSumToRated(ratings[..|ratings| - 1]);
    }
  }

  /** Every rating is counted exactly when every rating is one of H, M, L. */
  lemma {:induction false} RatedCountAll(ratings: seq<string>)
    ensures RatedCount(ratings) == |ratings| <==> forall i :: 0 <= i < |ratings| ==> IsCategory(ratings[i])
  {
    if ratings != [] {
      var init := ratings[..|ratings| - 1];
      RatedCountAll(init);
      assert forall i :: 0 <= i < |init| ==> init[i] == ratings[i];
    }
  }

  /** AggregateCounts: the three severity counters. */
  datatype Counts = Counts(high: nat, medium: nat, low: nat)

  /** The counters the risk loader ends with, over a column of ratings. */
  function Tally(ratings: seq<string>): (c: Counts)
    ensures c.high + c.medium + c.low == RatedCount(ratings)
  {
    CountsSumToRated(ratings);
    Counts(CountOf(ratings, "H"), CountOf(ratings, "M"), CountOf(ratings, "L"))
  }

  /** ExposureLevel, in priority order High > Medium > Low. */
  datatype Level = High | Medium | Low

  function Priority(l: Level): nat {
    match l
    case High => 0
    case Medium => 1
    case Low => 2
  }

  /** The text drawn at the ring's centre: the level's own name, distinct per level. */
  function LevelName(l: Level): (s: string)
    ensures s == "High" <==> l == High
    ensures s == "Medium" <==> l == Medium
    ensures s == "Low" <==> l == Low
  {
    match l
    case High => "High"
    case Medium => "Medium"
    case Low => "Low"
  }

  function CountFor(c: Counts, l: Level): nat {
    match l
    case High => c.high
    case Medium => c.medium
    case Low => c.low
  }

  /** Python's max over a non-empty tuple. */
  function MaxOf(s: seq<int>): (m: int)
    requires |s| > 0
    ensures m in s
    ensures forall i :: 0 <= i < |s| ==> s[i] <= m
  {
    if |s| == 1 then s[0]
    else
      var rest := MaxOf(s[1..]);
      if rest > s[0] then rest else s[0]
  }

  /** Python's tuple.index: the first position holding v. */
  function IndexOf(s: seq<int>, v: int): (i: nat)
    requires v in s
    ensures i < |s| && s[i] == v
    ensures forall j :: 0 <= j < i ==> s[j] != v
  {
    if s[0] == v then 0 else 1 + IndexOf(s[1..], v)
  }

  /** l has the largest count, and every level of higher priority a strictly smaller one. */
  ghost predicate IsFirstMaximum(c: Counts, l: Level) {
    && Dominates(c, l, High) && Dominates(c, l, Medium) && Dominates(c, l, Low)
  }

  /** l is at least as frequent as l', and strictly more if l' has higher priority. */
  ghost predicate Dominates(c: Counts, l: Level, l': Level) {
    && CountFor(c, l') <= CountFor(c, l)
    && (Priority(l') < Priority(l) ==> CountFor(c, l') < CountFor(c, l))
  }

  /** The donut's exposure level: the label at data.index(max(data)). */
  function Exposure(c: Counts): (l: Level)
    ensures IsFirstMaximum(c, l)
  {
    var data := [c.high as int, c.medium as int, c.low as int];
    var largest := MaxOf(data);
    assert data[0] <= largest && data[1] <= largest && data[2] <= largest;
    var largestIndex := IndexOf(data, largest);
    assert 0 < largestIndex ==> data[0] != largest;
    assert 1 < largestIndex ==> data[1] != largest;
    if largestIndex == 0 then High
    else if largestIndex == 1 then Medium
    else Low
  }

  /** The first-maximum property singles out one level, so it defines Exposure. */
  lemma ExposureUnique(c: Counts, l: Level)
    ensures IsFirstMaximum(c, l) <==> l == Exposure(c)
  {
    var e := Exposure(c);
    if IsFirstMaximum(c, l) {
      assert Dominates(c, l, e) && Dominates(c, e, l);
    }
  }

  /** Worked cases: plain maximum, both tie-breaks, and the all-zero tally. */
  lemma ExposureExamples()
    ensures Exposure(Counts(2, 1, 0)) == High
    ensures Exposure(Counts(2, 2, 0)) == High
    ensures Exposure(Counts(0, 3, 3)) == Medium
    ensures Exposure(Counts(0, 0, 0)) == High
    ensures Exposure(Counts(0, 1, 2)) == Low
  {
    assert IsFirstMaximum(Counts(2, 1, 0), High);
    assert IsFirstMaximum(Counts(2, 2, 0), High);
    assert IsFirstMaximum(Counts(0, 3, 3), Medium);
    assert IsFirstMaximum(Counts(0, 0, 0), High);
    assert IsFirstMaximum(Counts(0, 1, 2), Low);
    ExposureUnique(Counts(2, 1, 0), High);
    ExposureUnique(Counts(2, 2, 0), High);
    ExposureUnique(Counts(0, 3, 3), Medium);
    ExposureUnique(Counts(0, 0, 0), High);
    ExposureUnique(Counts(0, 1, 2), Low);
  }

  /** Counting the ratings of a three-row file, one letter at a time. */
  lemma CountOfExample()
    ensures CountOf(["H", "H", "M"], "H") == 2
    ensures CountOf(["H", "H", "M"], "M") == 1
    ensures CountOf(["H", "H", "M"], "L") == 0
  {
    var s := ["H", "H", "M"];
    assert s[..2] == ["H", "H"] && ["H", "H"][..1] == ["H"] && ["H"][..0] == [];
    assert CountOf(["H"], "H") == 1 && CountOf(["H"], "M") == 0 && CountOf(["H"], "L") == 0;
    assert CountOf(["H", "H"], "H") == 2 && CountOf(["H", "H"], "M") == 0 && CountOf(["H", "H"], "L") == 0;
  }

  /** Three rows rated H, H, M tally to (2, 1, 0), which reads as High. */
  lemma TallyExample()
    ensures Tally(["H", "H", "M"]) == Counts(2, 1, 0)
    ensures Exposure(Tally(["H", "H", "M"])) == High
  {
    CountOfExample();
    ExposureExamples();
  }
}
