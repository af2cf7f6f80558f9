/** The scoring engine: pure functions from a sequence of observed values to a
    (score, confidence) pair, one per feature, and the composite clout metric.
    Exact rational arithmetic (`real`) stands in for floating point. */
module Algorithms {
  import opened Errors

  /** A (score, confidence) pair as each scoring function returns it. */
  datatype Pair = Pair(score: real, confidence: real)

  function Sum(xs: seq<real>): real
  {
    if xs == [] then 0.0 else xs[0] + Sum(xs[1..])
  }

  /** The arithmetic mean of a non-empty sequence: the value that, counted
      once per element, gives their sum. */
  function Mean(xs: seq<real>): (m: real)
    requires xs != []
    ensures m * |xs| as real == Sum(xs)
  {
    Sum(xs) / |xs| as real
  }

  function Square(t: real): real
  {
    t * t
  }

  function Min(x: real, y: real): real
  {
    if x <= y then x else y
  }

  function Max(x: real, y: real): real
  {
    if x <= y then y else x
  }

  /** Every value lies in the observation range [0, 10]. */
  predicate InValueRange(xs: seq<real>)
  {
    forall i | 0 <= i < |xs| :: 0.0 <= xs[i] <= 10.0
  }

  /** The piecewise curve mapping an observation count `x` to a confidence,
      with threshold `a` and saturation `b`. The midpoint is `a + b/2` (not
      `(a + b)/2`), and the falling branch squares `(x - a)`, not `(x - b)`.
      It is 0 up to the threshold; it is 1 from the saturation point on only
      when the midpoint does not lie beyond it. */
  function Sigmoid(x: real, a: real, b: real): (y: real)
    requires a != b
    ensures x <= a ==> y == 0.0
    ensures a < b && a + b / 2.0 <= b && b <= x ==> y == 1.0
  {
    var midpoint := a + b / 2.0;
    if x <= a then 0.0
    else if a < x < midpoint then 2.0 * Square((x - a) / (b - a))
    else if midpoint <= x < b then 1.0 - 2.0 * Square((x - a) / (b - a))
    else 1.0
  }

  /** Reach: the mean of the values, with confidence Sigmoid(count, 2, 6),
      which depends only on the count as tabulated in ReachConfidenceAt. */
  function Reach(xs: seq<real>): (p: Pair)
    ensures xs == [] ==> p == Pair(0.0, 0.0)
    ensures xs != [] ==> p.score * |xs| as real == Sum(xs)
    ensures p.confidence == ReachConfidenceAt(|xs|)
  {
    if |xs| > 0 then Pair(Mean(xs), Sigmoid(|xs| as real, 2.0, 6.0)) else Pair(0.0, 0.0)
  }

  /** Clarity: the mean of the values, with confidence Sigmoid(count, 4, 8),
      which depends only on the count as tabulated in ClarityConfidenceAt. */
  function Clarity(xs: seq<real>): (p: Pair)
    ensures xs == [] ==> p == Pair(0.0, 0.0)
    ensures xs != [] ==> p.score * |xs| as real == Sum(xs)
    ensures p.confidence == ClarityConfidenceAt(|xs|)
  {
    if |xs| > 0 then Pair(Mean(xs), Sigmoid(|xs| as real, 4.0, 8.0)) else Pair(0.0, 0.0)
  }

  /** Clout: the reach and clarity scores averaged with their confidences as
      weights, scaled down by 10, with the smaller confidence. The weighting
      divides by the sum of the two confidences, which fails when it is 0. */
  function Clout(clarityXs: seq<real>, reachXs: seq<real>): (r: Result<Pair>)
    ensures clarityXs == [] || reachXs == [] ==> r == Ok(Pair(0.0, 0.0))
    ensures r.Err? ==> r.error == DivisionByZero
    ensures clarityXs != [] && reachXs != [] ==>
      var rc, cc := Reach(reachXs).confidence, Clarity(clarityXs).confidence;
      && (r.Err? <==> rc + cc == 0.0)
      && (r.Ok? ==> r.value.confidence == Min(rc, cc))
      && (r.Ok? ==> 10.0 * r.value.score * (rc + cc) == rc * Reach(reachXs).score + cc * Clarity(clarityXs).score)
  {
    if |clarityXs| == 0 || |reachXs| == 0 then Ok(Pair(0.0, 0.0))
    else
      var reach := Reach(reachXs);
      var clarity := Clarity(clarityXs);
      var totalCon := reach.confidence + clarity.confidence;
      if totalCon == 0.0 then Err(DivisionByZero)
      else
        var rWeight := reach.confidence / totalCon;
        var cWeight := clarity.confidence / totalCon;
        var weightedAvg := rWeight * reach.score + cWeight * clarity.score;
        Ok(Pair(weightedAvg / 10.0, Min(reach.confidence, clarity.confidence)))
  }

  // ---------------------------------------------------------------------------
  // Confidence as a function of the count

  /** Reach confidence by number of observations, worked out from Sigmoid(n, 2, 6):
      midpoint 5, so n = 5 takes the falling branch, 1 - 2(3/4)^2 = -1/8. */
  function ReachConfidenceAt(n: nat): real
  {
    if n <= 2 then 0.0
    else if n == 3 then 0.125
    else if n == 4 then 0.5
    else if n == 5 then -0.125
    else 1.0
  }

  /** Clarity confidence by number of observations, worked out from Sigmoid(n, 4, 8):
      midpoint 8, so the falling branch is never taken and n = 7 gives 2(3/4)^2 = 9/8. */
  function ClarityConfidenceAt(n: nat): real
  {
    if n <= 4 then 0.0
    else if n == 5 then 0.125
    else if n == 6 then 0.5
    else if n == 7 then 1.125
    else 1.0
  }

  /** Neither confidence stays within [0, 1]: reach gives -1/8 for five values
      and clarity gives 9/8 for seven. */
  lemma ConfidenceLeavesUnitInterval(five: seq<real>, seven: seq<real>)
    requires |five| == 5 && |seven| == 7
    ensures Reach(five).confidence == -0.125
    ensures Clarity(seven).confidence == 1.125
  {
  }

  /** The curve is not monotone on [a, b]: with reach's parameters it drops
      from 1/2 at 4 to -1/8 at 5. */
  lemma SigmoidNotMonotone()
    ensures Sigmoid(4.0, 2.0, 6.0) == 0.5
    ensures Sigmoid(5.0, 2.0, 6.0) == -0.125
  {
  }

  /** When the midpoint lies beyond the saturation point the rising branch
      overshoots past `b`: Sigmoid(7, 5, 6) is 8, not 1. */
  lemma SigmoidOvershoot()
    ensures Sigmoid(7.0, 5.0, 6.0) == 8.0
  {
  }

  // ---------------------------------------------------------------------------
  // Scores

  /** The sum of n values in [0, 10] lies in [0, 10n]. */
  lemma {:induction false} SumBounds(xs: seq<real>)
    requires InValueRange(xs)
    ensures 0.0 <= Sum(xs) <= 10.0 * |xs| as real
  {
    if xs != [] {
      assert InValueRange(xs[1..]) by {
        forall i | 0 <= i < |xs[1..]| ensures 0.0 <= xs[1..][i] <= 10.0 {
          assert xs[1..][i] == xs[i + 1];
        }
      }
      SumBounds(xs[1..]);
    }
  }

  /** The mean of values in [0, 10] lies in [0, 10]. */
  lemma MeanInRange(xs: seq<real>)
    requires xs != [] && InValueRange(xs)
    ensures 0.0 <= Mean(xs) <= 10.0
  {
    SumBounds(xs);
    var n := |xs| as real;
    assert Mean(xs) * n == Sum(xs);
  }

  /** Reach and clarity scores of values in [0, 10] lie in [0, 10]; for an
      empty sequence both functions give (0, 0). */
  lemma ScoresInRange(xs: seq<real>)
    requires InValueRange(xs)
    ensures 0.0 <= Reach(xs).score <= 10.0 && 0.0 <= Clarity(xs).score <= 10.0
    ensures xs == [] ==> Reach(xs) == Pair(0.0, 0.0) && Clarity(xs) == Pair(0.0, 0.0)
  {
    if xs != [] {
      MeanInRange(xs);
    }
  }

  /** Removing the element at index j takes exactly one copy of it out of the multiset. */
  lemma MultisetRemoveAt(ys: seq<real>, j: int)
    requires 0 <= j < |ys|
    ensures multiset(ys[..j] + ys[j + 1..]) == multiset(ys) - multiset{ys[j]}
  {
    assert ys == ys[..j] + [ys[j]] + ys[j + 1..];
    assert multiset(ys) == multiset(ys[..j]) + multiset([ys[j]]) + multiset(ys[j + 1..]);
  }

  /** The sum is the element at index j plus the sum of the others. */
  lemma {:induction false} SumRemoveAt(ys: seq<real>, j: int)
    requires 0 <= j < |ys|
    ensures Sum(ys) == ys[j] + Sum(ys[..j] + ys[j + 1..])
  {
    var rest := ys[..j] + ys[j + 1..];
    if j == 0 {
      assert rest == ys[1..];
    } else {
      var tail := ys[1..];
      SumRemoveAt(tail, j - 1);
      assert rest == [ys[0]] + (tail[..j - 1] + tail[j..]);
      assert rest[0] == ys[0] && rest[1..] == tail[..j - 1] + tail[j..];
    }
  }

  /** A value of the multiset of a sequence occurs at some index of it. */
  lemma IndexOf(ys: seq<real>, x: real) returns (j: int)
    requires x in multiset(ys)
    ensures 0 <= j < |ys| && ys[j] == x
  {
    assert x in ys;
    j :| 0 <= j < |ys| && ys[j] == x;
  }

  /** The sum depends only on the multiset of values, not on their order. */
  lemma {:induction false} SumPermutation(xs: seq<real>, ys: seq<real>)
    requires multiset(xs) == multiset(ys)
    ensures Sum(xs) == Sum(ys)
  {
    if xs == [] {
      assert |ys| == |multiset(ys)| == 0;
    } else {
      var j := IndexOf(ys, xs[0]);
      var tail, rest := xs[1..], ys[..j] + ys[j + 1..];
      assert multiset(tail) == multiset(rest) by {
        MultisetRemoveAt(ys, j);
        MultisetRemoveAt(xs, 0);
        assert xs[..0] + tail == tail;
      }
      SumPermutation(tail, rest);
      SumRemoveAt(ys, j);
      assert Sum(xs) == xs[0] + Sum(tail);
    }
  }

  /** Scoring is order-independent: it depends on the multiset of values only. */
  lemma ScoresOrderIndependent(xs: seq<real>, ys: seq<real>)
    requires multiset(xs) == multiset(ys)
    ensures Reach(xs) == Reach(ys) && Clarity(xs) == Clarity(ys)
  {
    assert |xs| == |multiset(xs)| == |ys|;
    SumPermutation(xs, ys);
  }

  // ---------------------------------------------------------------------------
  // Clout

  /** Clout fails exactly when both sequences are non-empty and the two
      confidences cancel: no confidence on either side (at most 2 reach and at
      most 4 clarity values), or 5 values on each side (-1/8 + 1/8). With an
      empty side it is (0, 0). */
  lemma CloutFailsIff(clarityXs: seq<real>, reachXs: seq<real>)
    ensures Clout(clarityXs, reachXs).Err? <==>
      && clarityXs != [] && reachXs != []
      && ((|reachXs| <= 2 && |clarityXs| <= 4) || (|reachXs| == 5 && |clarityXs| == 5))
    ensures Clout(clarityXs, reachXs).Err? ==> Clout(clarityXs, reachXs).error == DivisionByZero
    ensures clarityXs == [] || reachXs == [] ==> Clout(clarityXs, reachXs) == Ok(Pair(0.0, 0.0))
  {
  }

  lemma MulNonneg(a: real, b: real)
    requires 0.0 <= a && 0.0 <= b
    ensures 0.0 <= a * b
  {
  }

  lemma ConvexCombination(w: real, v: real, s: real, t: real)
    requires 0.0 <= w && 0.0 <= v && w + v == 1.0
    ensures Min(s, t) <= w * s + v * t <= Max(s, t)
  {
    var lo, hi := Min(s, t), Max(s, t);
    assert w * lo + v * lo == lo && w * hi + v * hi == hi by {
      assert w * lo + v * lo == (w + v) * lo;
      assert w * hi + v * hi == (w + v) * hi;
    }
    MulNonneg(w, s - lo);
    MulNonneg(v, t - lo);
    MulNonneg(w, hi - s);
    MulNonneg(v, hi - t);
    assert w * s + v * t - lo == w * (s - lo) + v * (t - lo);
    assert hi - (w * s + v * t) == w * (hi - s) + v * (hi - t);
  }

  /** Two (score, confidence) pairs with non-negative confidences of positive
      sum, averaged with the confidences as weights: the average lies between
      the two scores. */
  lemma WeightedAverageBounds(r: Pair, c: Pair)
    requires 0.0 <= r.confidence && 0.0 <= c.confidence && r.confidence + c.confidence > 0.0
    ensures var total := r.confidence + c.confidence;
      var avg := r.confidence / total * r.score + c.confidence / total * c.score;
      Min(r.score, c.score) <= avg <= Max(r.score, c.score)
  {
    var total := r.confidence + c.confidence;
    var w, v := r.confidence / total, c.confidence / total;
    assert w + v == 1.0 by {
      assert w + v == (r.confidence + c.confidence) / total;
    }
    ConvexCombination(w, v, r.score, c.score);
  }

  /** Unless reach has exactly five values (its one negative confidence), a
      defined clout is a genuine weighted average: ten times its score lies
      between the reach and clarity scores, and its confidence is the weaker
      of the two confidences. */
  lemma CloutIsWeightedAverage(clarityXs: seq<real>, reachXs: seq<real>)
    requires clarityXs != [] && reachXs != [] && |reachXs| != 5
    requires Clout(clarityXs, reachXs).Ok?
    ensures var p, r, c := Clout(clarityXs, reachXs).value, Reach(reachXs), Clarity(clarityXs);
      && Min(r.score, c.score) <= 10.0 * p.score <= Max(r.score, c.score)
      && p.confidence <= r.confidence && p.confidence <= c.confidence
      && (p.confidence == r.confidence || p.confidence == c.confidence)
  {
    var r, c := Reach(reachXs), Clarity(clarityXs);
    assert r.confidence + c.confidence != 0.0;
    assert 0.0 <= r.confidence;
    assert 0.0 <= c.confidence;
    WeightedAverageBounds(r, c);
    var total := r.confidence + c.confidence;
    assert 10.0 * Clout(clarityXs, reachXs).value.score
      == r.confidence / total * r.score + c.confidence / total * c.score;
  }

  /** With values in [0, 10] and reach not at five values, a defined clout
      score lies in [0, 1]. */
  lemma CloutScoreInUnitRange(clarityXs: seq<real>, reachXs: seq<real>)
    requires InValueRange(clarityXs) && InValueRange(reachXs) && |reachXs| != 5
    requires Clout(clarityXs, reachXs).Ok?
    ensures 0.0 <= Clout(clarityXs, reachXs).value.score <= 1.0
  {
    if clarityXs != [] && reachXs != [] {
      CloutIsWeightedAverage(clarityXs, reachXs);
      ScoresInRange(clarityXs);
      ScoresInRange(reachXs);
    }
  }

  /** With five reach values the weights leave [0, 1] and so can the clout:
      five reach values of 10 against six clarity values of 0 give weights
      -1/3 and 4/3, a clout score of -1/3 and a confidence of -1/8. */
  lemma CloutCanBeNegative()
    ensures Clout([0.0, 0.0, 0.0, 0.0, 0.0, 0.0], [10.0, 10.0, 10.0, 10.0, 10.0])
      == Ok(Pair(-1.0 / 3.0, -0.125))
  {
    var c, r := [0.0, 0.0, 0.0, 0.0, 0.0, 0.0], [10.0, 10.0, 10.0, 10.0, 10.0];
    assert Sum(c) == 0.0;
    assert Sum(r) == 50.0;
  }
}
