/**
 * The stepped ranges the plots draw a point's position from
 * (rpg.py:177-178 for the grid, rpg.py:254-255 for recommendations).
 * random.randrange(start, stop, step) picks uniformly among the admissible
 * values start, start + step, ... below stop; here the pick is an index
 * into that finite set, supplied by the caller.
 */
module Jitter {
  import opened Categories

  /** How many values randrange(start, stop, step) chooses among for step > 0:
      ceil((stop - start) / step), and none (randrange raises) when stop <= start. */
  function RangeCount(start: int, stop: int, step: int): nat
    requires step > 0
  {
    if stop <= start then 0 else (stop - start + step - 1) / step
  }

  /** The k-th value of the stepped progression from start. */
  function Nth(start: int, step: int, k: int): int {
    start + step * k
  }

  /** The admissible values of randrange(start, stop, step), in index order. */
  function Admissible(start: int, stop: int, step: int): (r: seq<int>)
    requires step > 0
    ensures |r| == RangeCount(start, stop, step)
  {
    seq(RangeCount(start, stop, step), k => Nth(start, step, k))
  }

  lemma MulMonotone(step: int, a: int, b: int)
    requires step > 0 && a <= b
    ensures step * a <= step * b
  {
    assert step * b - step * a == step * (b - a);
  }

  /** Index k is admissible exactly when its progression value lies below stop. */
  lemma RangeCountBound(start: int, stop: int, step: int, k: nat)
    requires step > 0
    ensures k < RangeCount(start, stop, step) <==> Nth(start, step, k) < stop
  {
    MulMonotone(step, 0, k);
    if stop > start {
      var w := stop - start;
      var n := RangeCount(start, stop, step);
      assert n * step <= w + step - 1 < n * step + step;
      if k < n {
        MulMonotone(step, k, n - 1);
        assert step * (n - 1) == n * step - step;
      } else {
        MulMonotone(step, n, k);
        assert step * n == n * step;
      }
    }
  }

  /** The admissible set is {start + step*k | k >= 0, start + step*k < stop}. */
  lemma AdmissibleMembers(start: int, stop: int, step: int, x: int)
    requires step > 0
    ensures x in Admissible(start, stop, step) <==> exists k: nat :: x == Nth(start, step, k) && x < stop
  {
    var r := Admissible(start, stop, step);
    if x in r {
      var k :| 0 <= k < |r| && r[k] == x;
      RangeCountBound(start, stop, step, k);
    }
    if exists k: nat :: x == Nth(start, step, k) && x < stop {
      var k: nat :| x == Nth(start, step, k) && x < stop;
      RangeCountBound(start, stop, step, k);
      assert r[k] == x;
    }
  }

  /** randrange(start, stop, step) when the generator picks index k. */
  function RandRange(start: int, stop: int, step: int, k: nat): (x: int)
    requires step > 0 && k < RangeCount(start, stop, step)
    ensures x in Admissible(start, stop, step)
    ensures start <= x < stop
  {
    RangeCountBound(start, stop, step, k);
    MulMonotone(step, 0, k);
    Admissible(start, stop, step)[k]
  }

  /** The grid's x draw, randrange(qx - 90, qx - 10, 25). */
  function GridX(qx: int, k: nat): (x: int)
    requires k < 4
    ensures x == qx - 90 + 25 * k
    ensures qx - 90 <= x < qx - 10
    ensures x in Admissible(qx - 90, qx - 10, 25)
  {
    assert RangeCount(qx - 90, qx - 10, 25) == 4;
    RandRange(qx - 90, qx - 10, 25, k)
  }

  /** The y draw of both plots, randrange(qy - 80, qy - 10, 20). */
  function JitterY(qy: int, k: nat): (y: int)
    requires k < 4
    ensures y == qy - 80 + 20 * k
    ensures qy - 80 <= y < qy - 10
    ensures y in Admissible(qy - 80, qy - 10, 20)
  {
    assert RangeCount(qy - 80, qy - 10, 20) == 4;
    RandRange(qy - 80, qy - 10, 20, k)
  }

  /** The recommendations plot's x draw, randrange(qx - 130, qx - 10, 25). */
  function RecommendationX(qx: int, k: nat): (x: int)
    requires k < 5
    ensures x == qx - 130 + 25 * k
    ensures qx - 130 <= x < qx - 10
    ensures x in Admissible(qx - 130, qx - 10, 25)
  {
    assert RangeCount(qx - 130, qx - 10, 25) == 5;
    RandRange(qx - 130, qx - 10, 25, k)
  }

  /** The three ranges have exactly 4, 4 and 5 admissible values, whatever the centre. */
  lemma ChoiceCounts(qx: int, qy: int)
    ensures Admissible(qx - 90, qx - 10, 25) == [qx - 90, qx - 65, qx - 40, qx - 15]
    ensures Admissible(qy - 80, qy - 10, 20) == [qy - 80, qy - 60, qy - 40, qy - 20]
    ensures Admissible(qx - 130, qx - 10, 25) == [qx - 130, qx - 105, qx - 80, qx - 55, qx - 30]
  {
  }

  /** A grid point stays strictly inside its 150 x 100 cell, so inside the
      background's extent [0, 450] x [0, 300], and reads back as its own quadrant. */
  lemma GridPointInCell(likelihood: string, impact: string, kx: nat, ky: nat)
    requires IsCategory(likelihood) && IsCategory(impact) && kx < 4 && ky < 4
    ensures var qx, qy := LikelihoodX(likelihood), ImpactY(impact);
      var x, y := GridX(qx, kx), JitterY(qy, ky);
      && qx - 150 < x < qx && qy - 100 < y < qy
      && 0 <= x <= 450 && 0 <= y <= 300
      && LikelihoodAt(x) == likelihood && ImpactAt(y) == impact
  {
  }

  /** The wider recommendations spread still stays inside the cell, and x >= 20. */
  lemma RecommendationPointInCell(likelihood: string, impact: string, kx: nat, ky: nat)
    requires IsCategory(likelihood) && IsCategory(impact) && kx < 5 && ky < 4
    ensures var qx, qy := LikelihoodX(likelihood), ImpactY(impact);
      var x, y := RecommendationX(qx, kx), JitterY(qy, ky);
      && qx - 150 < x < qx && qy - 100 < y < qy
      && 20 <= x <= 450 && 0 <= y <= 300
      && LikelihoodAt(x) == likelihood && ImpactAt(y) == impact
  {
  }
}
