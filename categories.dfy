/**
 * The three-letter risk categories and the fixed quadrant centre that a
 * (Likelihood, Impact) pair is plotted at (rpg.py:59-70 and rpg.py:92-103).
 */
module Categories {

  /** s is one of the categories "H", "M", "L". */
  predicate IsCategory(s: string) {
    s == "H" || s == "M" || s == "L"
  }

  /** The position of a category on either axis: Low 1, Medium 2, High 3. */
  function Rank(c: string): (r: nat)
    requires IsCategory(c)
    ensures 1 <= r <= 3
  {
    if c == "L" then 1 else if c == "M" then 2 else 3
  }

  /** x of the quadrant centre for a Likelihood category. */
  function LikelihoodX(c: string): (x: int)
    requires IsCategory(c)
    ensures x == 150 * Rank(c)
  {
    if c == "H" then 450
    else if c == "M" then 300
    else 150
  }

  /** y of the quadrant centre for an Impact category. */
  function ImpactY(c: string): (y: int)
    requires IsCategory(c)
    ensures y == 100 * Rank(c)
  {
    if c == "H" then 300
    else if c == "M" then 200
    else 100
  }

  /** The category whose column of the 450-wide grid holds x (columns are 150 wide). */
  function LikelihoodAt(x: int): string
  {
    if x <= 150 then "L" else if x <= 300 then "M" else "H"
  }

  /** The category whose row of the 300-high grid holds y (rows are 100 high). */
  function ImpactAt(y: int): string
  {
    if y <= 100 then "L" else if y <= 200 then "M" else "H"
  }

  /** The mapping is the table H/M/L -> 450/300/150 and H/M/L -> 300/200/100. */
  lemma MappingTable()
    ensures LikelihoodX("H") == 450 && LikelihoodX("M") == 300 && LikelihoodX("L") == 150
    ensures ImpactY("H") == 300 && ImpactY("M") == 200 && ImpactY("L") == 100
  {
  }

  /** Every centre is one of the nine pairs {150,300,450} x {100,200,300}. */
  lemma CentreIsOneOfNine(likelihood: string, impact: string)
    requires IsCategory(likelihood) && IsCategory(impact)
    ensures LikelihoodX(likelihood) in {150, 300, 450}
    ensures ImpactY(impact) in {100, 200, 300}
  {
  }

  /** A centre determines its categories: reading the grid cell back gives them. */
  lemma CentreRoundTrip(likelihood: string, impact: string)
    requires IsCategory(likelihood) && IsCategory(impact)
    ensures LikelihoodAt(LikelihoodX(likelihood)) == likelihood
    ensures ImpactAt(ImpactY(impact)) == impact
  {
  }

  /** Distinct categories are plotted at distinct centres. */
  lemma MappingInjective(c: string, d: string)
    requires IsCategory(c) && IsCategory(d)
    ensures LikelihoodX(c) == LikelihoodX(d) ==> c == d
    ensures ImpactY(c) == ImpactY(d) ==> c == d
  {
    CentreRoundTrip(c, d);
    CentreRoundTrip(d, c);
  }
}
