/** The running "performance" counters shown next to each report. */
module Performance {
  import opened PostureRules

  /** 100 * p / t rounded to the nearest integer, halves rounded up (the page's
      Math.round on a non-negative ratio), in integer arithmetic. */
  function RoundedPercent(p: nat, t: nat): (r: nat)
    requires 0 < t
    ensures (2 * r - 1) * t <= 200 * p < (2 * r + 1) * t
    ensures p <= t ==> r <= 100
  {
    RoundingInterval(p, t);
    (200 * p + t) / (2 * t)
  }

  lemma RoundingInterval(p: nat, t: nat)
    requires 0 < t
    ensures var q := (200 * p + t) / (2 * t);
      (2 * q - 1) * t <= 200 * p < (2 * q + 1) * t && (p <= t ==> q <= 100)
  {
    var q := (200 * p + t) / (2 * t);
    DivisionBounds(200 * p + t, 2 * t);
    var qt := q * t;
    assert 2 * t * q == 2 * qt;
    Distribute(q, t);
    if p <= t && q > 100 {
      ScaleMonotone(201, 2 * q - 1, t);
      assert false;
    }
  }

  lemma DivisionBounds(n: int, d: int)
    requires 0 < d
    ensures d * (n / d) <= n < d * (n / d) + d
  {
  }

  lemma Distribute(q: int, t: int)
    ensures (2 * q - 1) * t == 2 * (q * t) - t
    ensures (2 * q + 1) * t == 2 * (q * t) + t
  {
  }

  /** The share of positive entries among the positive and negative entries of a
      report, as a rounded percentage; 0 for a report with neither. */
  function Accuracy(positives: nat, negatives: nat): (a: nat)
    ensures a <= 100
    ensures positives + negatives == 0 ==> a == 0
    ensures positives + negatives > 0 ==>
      (2 * a - 1) * (positives + negatives) <= 200 * positives < (2 * a + 1) * (positives + negatives)
  {
    var total := positives + negatives;
    if total > 0 then RoundedPercent(positives, total) else 0
  }

  /** A report counts as a successful shot exactly when at least 70.5% of its
      entries are positive (the rounded accuracy exceeds 70). */
  lemma {:induction false} SuccessfulExactly(positives: nat, negatives: nat)
    ensures Accuracy(positives, negatives) > 70 <==>
      positives + negatives > 0 && 200 * positives >= 141 * (positives + negatives)
  {
    var a, t := Accuracy(positives, negatives), positives + negatives;
    if t > 0 {
      if a > 70 {
        ScaleMonotone(141, 2 * a - 1, t);
      } else {
        ScaleMonotone(2 * a + 1, 141, t);
      }
    }
  }

  lemma {:induction false} ScaleMonotone(x: int, y: int, t: nat)
    requires x <= y
    ensures x * t <= y * t
    decreases t
  {
    if t > 0 {
      ScaleMonotone(x, y, t - 1);
      assert x * t == x * (t - 1) + x && y * t == y * (t - 1) + y;
    }
  }

  /** The running counters: analyses made, analyses counted as successful, and
      the success rate shown after the previous analysis. */
  class PerformanceStats {
    var totalShots: int
    var successfulShots: int
    var previousAccuracy: int

    ghost predicate Valid()
      reads this
    {
      0 <= successfulShots <= totalShots && 0 <= previousAccuracy <= 100
    }

    constructor ()
      ensures Valid()
      ensures totalShots == 0 && successfulShots == 0 && previousAccuracy == 0
    {
      totalShots, successfulShots, previousAccuracy := 0, 0, 0;
    }

    /** Counts one analysis: the shot count grows by one, the success count grows
        by one exactly when the report's accuracy exceeds 70, and the success rate
        becomes the new "previous" rate. Returns the report's accuracy, the success
        rate and its change since the previous analysis. */
    method Update(analysis: Report) returns (accuracy: int, currentAccuracy: int, progression: int)
      requires Valid()
      modifies this
      ensures Valid()
      ensures accuracy == Accuracy(|analysis.positive|, |analysis.negative|) && 0 <= accuracy <= 100
      ensures totalShots == old(totalShots) + 1
      ensures successfulShots == old(successfulShots) + (if accuracy > 70 then 1 else 0)
      ensures currentAccuracy == RoundedPercent(successfulShots, totalShots) && 0 <= currentAccuracy <= 100
      ensures progression == currentAccuracy - old(previousAccuracy) && -100 <= progression <= 100
      ensures previousAccuracy == currentAccuracy
    {
      var positiveScore := |analysis.positive|;
      var negativeScore := |analysis.negative|;
      var totalScore := positiveScore + negativeScore;
      accuracy := if totalScore > 0 then RoundedPercent(positiveScore, totalScore) else 0;
      totalShots := totalShots + 1;
      successfulShots := successfulShots + (if accuracy > 70 then 1 else 0);
      currentAccuracy := if totalShots > 0 then RoundedPercent(successfulShots, totalShots) else 0;
      progression := currentAccuracy - previousAccuracy;
      previousAccuracy := currentAccuracy;
    }
  }

  /** Three analyses with accuracies 80%, 60% and 90% count three shots, two of
      them successful. */
  method ThreeShots() returns (total: int, successful: int)
    ensures total == 3 && successful == 2
  {
    var stats := new PerformanceStats();
    var a1, _, _ := stats.Update(Report(["+", "+", "+", "+"], ["-"], ["tip"]));
    assert a1 == 80;
    var a2, _, _ := stats.Update(Report(["+", "+", "+"], ["-", "-"], ["tip", "tip"]));
    assert a2 == 60;
    var a3, _, _ := stats.Update(Report(["+", "+", "+", "+", "+", "+", "+", "+", "+"], ["-"], ["tip"]));
    assert a3 == 90;
    total, successful := stats.totalShots, stats.successfulShots;
  }
}
