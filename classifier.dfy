/** The partner status tiers: a zero-target escape, then inclusive thresholds
    at 100% and 75% of the target. */
module Classifier {

  datatype Status = NoTarget | Good | Fair | Poor

  /** The label the dashboard shows for each tier. */
  function Label(s: Status): string
  {
    match s
    case NoTarget => "Belum Ada Target"
    case Good => "Baik"
    case Fair => "Sedang"
    case Poor => "Buruk"
  }

  /** Distinct tiers carry distinct labels, so a label names exactly one tier. */
  lemma LabelInjective(s1: Status, s2: Status)
    requires Label(s1) == Label(s2)
    ensures s1 == s2
  {
  }

  /** The tier of a partner that produced `production` kg against `target` kg. */
  function Classify(production: real, target: real): (s: Status)
    ensures s == NoTarget <==> target == 0.0
    ensures s == Good <==> target != 0.0 && production >= target
    ensures s == Fair <==> target != 0.0 && target * 0.75 <= production < target
    ensures s == Poor <==> target != 0.0 && production < target && production < target * 0.75
  {
    if target == 0.0 then NoTarget
    else if production >= target then Good
    else if production >= target * 0.75 then Fair
    else Poor
  }

  /** Tiers from worst to best; the zero-target escape is not ranked. */
  function Rank(s: Status): int
  {
    match s
    case Poor => 0
    case Fair => 1
    case Good => 2
    case NoTarget => -1
  }

  /** For a fixed positive target, producing more never moves a partner to a worse tier. */
  lemma ClassifyMonotone(p1: real, p2: real, target: real)
    requires target > 0.0 && p1 <= p2
    ensures Rank(Classify(p1, target)) <= Rank(Classify(p2, target))
    ensures Classify(p1, target) != NoTarget
  {
  }

  /** For a positive target the tier depends only on the achievement ratio
      production / target. */
  lemma ClassifyByRatio(production: real, target: real)
    requires target > 0.0
    ensures Classify(production, target) == Good <==> production / target >= 1.0
    ensures Classify(production, target) == Fair <==> 0.75 <= production / target < 1.0
    ensures Classify(production, target) == Poor <==> production / target < 0.75
  {
    var q := production / target;
    assert production == q * target;
    if q >= 1.0 {
      assert q * target >= 1.0 * target;
    } else {
      assert q * target < 1.0 * target;
    }
    if q >= 0.75 {
      assert q * target >= 0.75 * target;
    } else {
      assert q * target < 0.75 * target;
    }
  }

  /** Scaling production and target by the same positive factor keeps the tier. */
  lemma ClassifyScaleInvariant(production: real, target: real, k: real)
    requires k > 0.0
    ensures Classify(k * production, k * target) == Classify(production, target)
  {
    if target != 0.0 {
      assert k * target != 0.0;
      if production >= target {
        assert k * production >= k * target;
      } else {
        assert k * production < k * target;
      }
      if production >= target * 0.75 {
        assert k * production >= k * target * 0.75;
      } else {
        assert k * production < k * target * 0.75;
      }
    }
  }
}
