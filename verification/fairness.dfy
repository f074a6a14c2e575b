/**
  The price-fairness rule of FairPrice Check: a listed price is compared with
  a fixed market average for its category and the relative deviation is
  bucketed into Underpriced / Fair / Overpriced with strict +-20% thresholds.

  The rule is written twice. `Classify` decides with exact integer
  comparisons (`5 * price < 4 * avg`, `5 * price > 6 * avg`); `ClassifyAsWritten`
  follows the button handler step by step on the category text and the
  real-valued deviation, and its contract states that the two agree on
  every input.
*/
module Fairness {

  /** The two markets the category selector offers. */
  datatype Category = ForRent | ForSale

  /** The three verdicts, ordered Underpriced < Fair < Overpriced by `Rank`. */
  datatype Label = Underpriced | Fair | Overpriced

  /** What the handler computes: the verdict and the relative deviation. */
  datatype Classification = Classification(verdict: Label, deviation: real)

  /** The selector text for rentals; every other text is read as a sale. */
  const RentText: string := "For Rent"

  const RentAverage: int := 45000
  const SaleAverage: int := 12000000

  /** Reads the category text: only "For Rent" is a rental, anything else falls to sale. */
  function CategoryOf(text: string): (c: Category)
    ensures c == ForRent <==> text == RentText
  {
    if text == RentText then ForRent else ForSale
  }

  /** The reference average of a category, in KES. */
  function ReferenceAverage(c: Category): (avg: int)
    ensures avg > 0
    ensures avg == RentAverage || avg == SaleAverage
    ensures avg == RentAverage <==> c == ForRent
  {
    match c
    case ForRent => RentAverage
    case ForSale => SaleAverage
  }

  /** The relative deviation `(price - avg) / avg`, exactly. */
  function Deviation(price: int, avg: int): (d: real)
    requires avg > 0
    ensures d * avg as real == (price - avg) as real
  {
    (price - avg) as real / avg as real
  }

  /** Position of a label in the order Underpriced < Fair < Overpriced. */
  function Rank(l: Label): nat
  {
    match l
    case Underpriced => 0
    case Fair => 1
    case Overpriced => 2
  }

  /** Multiplying by a positive real keeps the sign. */
  lemma ProductSign(e: real, a: real)
    requires a > 0.0
    ensures e < 0.0 <==> e * a < 0.0
    ensures e > 0.0 <==> e * a > 0.0
  {
  }

  /** Multiplying both sides by a positive real keeps a strict comparison. */
  lemma ScaleCompare(x: real, y: real, a: real)
    requires a > 0.0
    ensures x < y <==> x * a < y * a
  {
    ProductSign(y - x, a);
    assert (y - x) * a == y * a - x * a;
  }

  /** A quotient by a positive real is below `t` exactly when the numerator is below `t` times the divisor. */
  lemma QuotientCompare(n: real, a: real, t: real)
    requires a > 0.0
    ensures n / a < t <==> n < t * a
    ensures n / a > t <==> n > t * a
  {
    assert (n / a) * a == n;
    ScaleCompare(n / a, t, a);
    ScaleCompare(t, n / a, a);
  }

  /** Below the -20% threshold exactly when five times the price is below four times the average. */
  lemma LowerThreshold(price: int, avg: int)
    requires avg > 0
    ensures Deviation(price, avg) < -0.20 <==> 5 * price < 4 * avg
  {
    QuotientCompare((price - avg) as real, avg as real, -0.20);
  }

  /** Above the +20% threshold exactly when five times the price exceeds six times the average. */
  lemma UpperThreshold(price: int, avg: int)
    requires avg > 0
    ensures Deviation(price, avg) > 0.20 <==> 5 * price > 6 * avg
  {
    QuotientCompare((price - avg) as real, avg as real, 0.20);
  }

  /** The deviation has the sign of `price - avg`. */
  lemma DeviationSign(price: int, avg: int)
    requires avg > 0
    ensures Deviation(price, avg) < 0.0 <==> price < avg
    ensures Deviation(price, avg) == 0.0 <==> price == avg
    ensures Deviation(price, avg) > 0.0 <==> price > avg
  {
  }

  /** The deviation never decreases as the price rises. */
  lemma DeviationMonotone(p: int, q: int, avg: int)
    requires avg > 0
    requires p <= q
    ensures Deviation(p, avg) <= Deviation(q, avg)
  {
  }

  /**
    The decision rule in exact integer arithmetic. The label is determined by
    strict comparisons against the +-20% band, so a price exactly on the band
    edge is Fair.
  */
  function Classify(price: int, c: Category): (r: Classification)
    ensures r.deviation * ReferenceAverage(c) as real == (price - ReferenceAverage(c)) as real
    ensures r.verdict == Underpriced <==> r.deviation < -0.20
    ensures r.verdict == Overpriced <==> r.deviation > 0.20
    ensures r.verdict == Fair <==> -0.20 <= r.deviation <= 0.20
    ensures r.deviation < 0.0 <==> price < ReferenceAverage(c)
    ensures r.deviation == 0.0 <==> price == ReferenceAverage(c)
  {
    var avg := ReferenceAverage(c);
    LowerThreshold(price, avg);
    UpperThreshold(price, avg);
    DeviationSign(price, avg);
    var verdict :=
      if 5 * price < 4 * avg then Underpriced
      else if 5 * price > 6 * avg then Overpriced
      else Fair;
    Classification(verdict, Deviation(price, avg))
  }

  /**
    The handler's own steps: pick the average from the category text,
    divide, then test `< -0.20`, `> 0.20`, otherwise Fair.
  */
  function ClassifyAsWritten(price: int, category: string): (r: Classification)
    ensures r == Classify(price, CategoryOf(category))
  {
    var avg := if category == RentText then RentAverage else SaleAverage;
    var deviation := (price - avg) as real / avg as real;
    var verdict :=
      if deviation < -0.20 then Underpriced
      else if deviation > 0.20 then Overpriced
      else Fair;
    Classification(verdict, deviation)
  }

  /** Raising the price never moves the verdict down Underpriced < Fair < Overpriced. */
  lemma ClassifyMonotone(p: int, q: int, c: Category)
    requires p <= q
    ensures Rank(Classify(p, c).verdict) <= Rank(Classify(q, c).verdict)
    ensures Classify(p, c).deviation <= Classify(q, c).deviation
  {
  }

  /** A price equal to the category average has zero deviation and is Fair. */
  lemma AtAverageIsFair(c: Category)
    ensures Classify(ReferenceAverage(c), c) == Classification(Fair, 0.0)
  {
  }

  /** The band edges for rentals: 36000 and 54000 are Fair, one shilling beyond is not. */
  lemma RentBoundaries()
    ensures Classify(36000, ForRent) == Classification(Fair, -0.20)
    ensures Classify(35999, ForRent).verdict == Underpriced
    ensures Classify(54000, ForRent) == Classification(Fair, 0.20)
    ensures Classify(54001, ForRent).verdict == Overpriced
  {
  }

  /** The band edges for sales: 9600000 and 14400000 are Fair, one shilling beyond is not. */
  lemma SaleBoundaries()
    ensures Classify(9600000, ForSale) == Classification(Fair, -0.20)
    ensures Classify(9599999, ForSale).verdict == Underpriced
    ensures Classify(14400000, ForSale) == Classification(Fair, 0.20)
    ensures Classify(14400001, ForSale).verdict == Overpriced
  {
  }

  /** Sample listings: rent at 45000, 30000, 60000 and sale at 12000000, 9000000. */
  lemma Scenarios()
    ensures Classify(45000, ForRent) == Classification(Fair, 0.0)
    ensures Classify(30000, ForRent) == Classification(Underpriced, -1.0 / 3.0)
    ensures Classify(60000, ForRent) == Classification(Overpriced, 1.0 / 3.0)
    ensures Classify(12000000, ForSale) == Classification(Fair, 0.0)
    ensures Classify(9000000, ForSale) == Classification(Underpriced, -0.25)
  {
  }
}
