/**
 * What each plot draws per observation: the per-rating marker choice of
 * the grid (rpg.py:181-192), the uniform recommendations marker
 * (rpg.py:258-259) and the legend labels (rpg.py:196-197, rpg.py:263-264).
 */
module Plots {
  import opened Wrappers
  import opened Categories

  /** A scatter marker at (x, y) with the observation number written on it. */
  datatype Mark = Mark(x: int, y: int, fill: string, size: nat, text: string, textColour: string)

  /** The grid marker for an observation whose jittered point is (x, y);
      None when its rating is not H, M or L and nothing is drawn. */
  function GridMark(number: string, rating: string, x: int, y: int): (m: Option<Mark>)
    ensures m.Some? <==> IsCategory(rating)
    ensures m.Some? ==> m.value.x == x && m.value.y == y && m.value.size == 200 && m.value.text == number
    ensures rating == "H" ==> m.Some? && m.value.fill == "#e20000"
    ensures rating == "M" ==> m.Some? && m.value.fill == "#fecb00"
    ensures rating == "L" ==> m.Some? && m.value.fill == "#ffff00"
    ensures m.Some? ==> (m.value.textColour == "black" <==> rating == "L")
    ensures m.Some? ==> (m.value.textColour == "white" <==> rating != "L")
  {
    if rating == "H" then Some(Mark(x, y, "#e20000", 200, number, "white"))
    else if rating == "M" then Some(Mark(x, y, "#fecb00", 200, number, "white"))
    else if rating == "L" then Some(Mark(x, y, "#ffff00", 200, number, "black"))
    else None
  }

  /** The recommendations marker: one colour and size for every observation,
      whatever its rating. */
  function RecommendationMark(number: string, x: int, y: int): (m: Mark)
    ensures m.x == x && m.y == y && m.text == number
    ensures m.fill == "#4f81bd" && m.size == 250 && m.textColour == "white"
  {
    Mark(x, y, "#4f81bd", 250, number, "white")
  }

  /** No severity colouring: any two recommendations markers differ only in
      position and text. */
  lemma RecommendationStyleUniform(n1: string, x1: int, y1: int, n2: string, x2: int, y2: int)
    ensures var m1, m2 := RecommendationMark(n1, x1, y1), RecommendationMark(n2, x2, y2);
      m1.fill == m2.fill && m1.size == m2.size && m1.textColour == m2.textColour
  {
  }

  /** ' '.join((id, name)): the id, one space, the name. */
  function LegendLabel(id: string, name: string): (s: string)
    ensures |s| == |id| + 1 + |name|
    ensures s[..|id|] == id && s[|id|] == ' ' && s[|id| + 1..] == name
  {
    id + " " + name
  }

  function Min(a: nat, b: nat): nat {
    if a <= b then a else b
  }

  /** The labels of zip(numbers, names), which stops at the shorter list. */
  function Labels(ids: seq<string>, names: seq<string>): (r: seq<string>)
    ensures |r| == Min(|ids|, |names|)
    ensures forall i :: 0 <= i < |r| ==> r[i] == LegendLabel(ids[i], names[i])
  {
    seq(Min(|ids|, |names|), i requires 0 <= i < Min(|ids|, |names|) => LegendLabel(ids[i], names[i]))
  }

  /** Position of the first space in s, or |s| when it has none. */
  function FirstSpace(s: string): (i: nat)
    ensures i <= |s|
  {
    if s == [] then 0
    else if s[0] == ' ' then 0
    else 1 + FirstSpace(s[1..])
  }

  /** Reads a legend label back as (id, name), cutting at the first space. */
  function SplitLabel(s: string): Option<(string, string)> {
    var i := FirstSpace(s);
    if i < |s| then Some((s[..i], s[i + 1..])) else None
  }

  lemma {:induction false} FirstSpaceAfterId(id: string, rest: string)
    requires ' ' !in id
    ensures FirstSpace(id + " " + rest) == |id|
  {
    if id != [] {
      assert (id + " " + rest)[0] == id[0];
      assert (id + " " + rest)[1..] == id[1..] + " " + rest;
      FirstSpaceAfterId(id[1..], rest);
    }
  }

  /** A label whose id has no space splits back into that id and name. */
  lemma LabelRoundTrip(id: string, name: string)
    requires ' ' !in id
    ensures SplitLabel(LegendLabel(id, name)) == Some((id, name))
  {
    FirstSpaceAfterId(id, name);
  }
}
