/**
 * The stock-health badge shown beside every ingredient: the ratio of the
 * current to the ideal inventory quantity falls into one of three bands.
 */
module StockHealth {

  datatype Status = Critical | Low | Good

  /** The three bands of the ratio current/ideal, each stated on its own. */
  predicate InCriticalBand(ratio: real) { ratio <= 0.25 }
  predicate InLowBand(ratio: real) { 0.25 < ratio <= 0.5 }
  predicate InGoodBand(ratio: real) { 0.5 < ratio }

  /** Severity order of the statuses: Critical < Low < Good. */
  function Rank(s: Status): nat {
    match s
    case Critical => 0
    case Low => 1
    case Good => 2
  }

  /** The badge for `current` units in stock against an `ideal` of `ideal` units. */
  function Classify(current: real, ideal: real): (s: Status)
    requires ideal > 0.0
    ensures s == Critical <==> InCriticalBand(current / ideal)
    ensures s == Low <==> InLowBand(current / ideal)
    ensures s == Good <==> InGoodBand(current / ideal)
  {
    var ratio := current / ideal;
    if ratio <= 0.25 then Critical
    else if ratio <= 0.5 then Low
    else Good
  }

  /** Every ratio lies in exactly one band. */
  lemma BandsPartition(ratio: real)
    ensures InCriticalBand(ratio) || InLowBand(ratio) || InGoodBand(ratio)
    ensures !(InCriticalBand(ratio) && InLowBand(ratio))
    ensures !(InCriticalBand(ratio) && InGoodBand(ratio))
    ensures !(InLowBand(ratio) && InGoodBand(ratio))
  {
  }

  /** current/ideal <= bound exactly when current <= bound * ideal, for a positive ideal. */
  lemma RatioAtMost(current: real, ideal: real, bound: real)
    requires ideal > 0.0
    ensures current / ideal <= bound <==> current <= bound * ideal
  {
    var ratio := current / ideal;
    assert current == ratio * ideal;
    if ratio <= bound {
      assert ratio * ideal <= bound * ideal;
    } else {
      assert ratio * ideal > bound * ideal;
    }
  }

  /** The same bands without division: compare 4*current and 2*current with ideal. */
  lemma ClassifyByCrossMultiplication(current: real, ideal: real)
    requires ideal > 0.0
    ensures Classify(current, ideal) == Critical <==> 4.0 * current <= ideal
    ensures Classify(current, ideal) == Low <==> ideal < 4.0 * current && 2.0 * current <= ideal
    ensures Classify(current, ideal) == Good <==> ideal < 2.0 * current
  {
    RatioAtMost(current, ideal, 0.25);
    RatioAtMost(current, ideal, 0.5);
  }

  /** More stock never makes the badge worse. */
  lemma ClassifyMonotone(current1: real, current2: real, ideal: real)
    requires ideal > 0.0
    requires current1 <= current2
    ensures Rank(Classify(current1, ideal)) <= Rank(Classify(current2, ideal))
  {
    ClassifyByCrossMultiplication(current1, ideal);
    ClassifyByCrossMultiplication(current2, ideal);
  }

  /** Only the ratio matters: scaling both quantities keeps the badge. */
  lemma ClassifyScaleInvariant(current: real, ideal: real, k: real)
    requires ideal > 0.0 && k > 0.0
    ensures k * ideal > 0.0
    ensures Classify(k * current, k * ideal) == Classify(current, ideal)
  {
    var ratio := current / ideal;
    var scaled := k * ideal;
    assert current == ratio * ideal;
    assert k * current == ratio * scaled;
    assert (ratio * scaled) / scaled == ratio;
  }

  /** The boundary ratios: exactly a quarter is Critical, exactly a half is Low. */
  lemma BoundaryCases()
    ensures Classify(25.0, 100.0) == Critical
    ensures Classify(50.0, 100.0) == Low
    ensures Classify(51.0, 100.0) == Good
    ensures Classify(0.0, 8.0) == Critical
  {
  }
}
