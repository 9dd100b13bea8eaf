/** The impact score, over the reals. */
module Scoring {
  import opened Types

  datatype Direction = Up | Down

  datatype Verdict = Pass | Fail

  /** Nearest integer, halves away from zero. */
  function Round(x: real): int {
    if x >= 0.0 then (x + 0.5).Floor else -((-x + 0.5).Floor)
  }

  /** The `as u32` cast of an integral float saturates. */
  function AsU32(n: int): nat {
    if n < 0 then 0 else if n > 0xFFFF_FFFF then 0xFFFF_FFFF else n
  }

  function Capped(x: real): nat {
    var n := AsU32(Round(x));
    if n <= 100 then n else 100
  }

  function Degradation(baseline: real, during: real, direction: Direction): real {
    if baseline == 0.0 then if during == 0.0 then 0.0 else 100.0
    else
      var raw := match direction
                 case Up => (during - baseline) / baseline * 100.0
                 case Down => (baseline - during) / baseline * 100.0;
      if raw < 0.0 then 0.0 else raw
  }

  function CalculateImpact(baseline: real, during: real, direction: Direction, maxImpact: nat): (nat, Verdict, real) {
    var degradation := Degradation(baseline, during, direction);
    var score := Capped(degradation);
    (score, if score <= maxImpact then Pass else Fail, degradation)
  }

  function Score(baseline: real, during: real, direction: Direction): nat {
    CalculateImpact(baseline, during, direction, 100).0
  }

  /** The error-rate score counts errors directly when there were none before. */
  function ErrorScore(baseline: real, during: real): nat {
    if baseline == 0.0 then Capped(during * 100.0) else Score(baseline, during, Up)
  }

  function Clamp(x: real): real {
    if x < 0.0 then 0.0 else if x > 100.0 then 100.0 else x
  }

  lemma CappedNear(x: real)
    ensures Capped(x) <= 100
    ensures -0.5 <= Capped(x) as real - Clamp(x) <= 0.5
  {
  }

  lemma CappedMonotone(x: real, y: real)
    requires x <= y
    ensures Capped(x) <= Capped(y)
  {
    if x < 0.0 { assert Round(x) <= 0; }
  }

  /** The score is the degradation clamped to 0..100 and rounded to the nearest integer. */
  lemma ScoreNearDegradation(baseline: real, during: real, direction: Direction, maxImpact: nat)
    ensures var (score, _, degradation) := CalculateImpact(baseline, during, direction, maxImpact);
            score <= 100 && degradation >= 0.0 && -0.5 <= score as real - Clamp(degradation) <= 0.5
  {
    CappedNear(Degradation(baseline, during, direction));
  }

  /** The verdict in terms of the degradation itself. */
  lemma PassIffBelow(baseline: real, during: real, direction: Direction, maxImpact: nat)
    ensures var (_, verdict, degradation) := CalculateImpact(baseline, during, direction, maxImpact);
            verdict == Pass <==> maxImpact >= 100 || degradation < maxImpact as real + 0.5
  {
    var d := Degradation(baseline, during, direction);
    assert Round(d) == (d + 0.5).Floor;
  }

  // ── In terms of the measurements ──

  /** By how much the value got worse, in the unit it is measured in. */
  function Worsening(baseline: real, during: real, direction: Direction): real {
    if direction.Up? then during - baseline else baseline - during
  }

  /** The degradation is the worsening in per cent of the baseline, whatever its sign; getting better counts as none. */
  lemma DegradationIsPercentage(baseline: real, during: real, direction: Direction, maxImpact: nat)
    requires baseline != 0.0
    ensures var r, w := CalculateImpact(baseline, during, direction, maxImpact).2, Worsening(baseline, during, direction);
            if (if baseline > 0.0 then w >= 0.0 else w <= 0.0) then r * baseline == 100.0 * w else r == 0.0
  {
    var w := Worsening(baseline, during, direction);
    var q := w / baseline;
    assert q * baseline == w;
    SignOfQuotient(q, baseline, w);
    assert (q * 100.0) * baseline == 100.0 * (q * baseline);
  }

  lemma SignOfQuotient(q: real, b: real, w: real)
    requires b != 0.0 && q * b == w
    ensures q >= 0.0 <==> if b > 0.0 then w >= 0.0 else w <= 0.0
  {
    if q >= 0.0 {
      if b > 0.0 { assert q * b >= 0.0; } else { assert q * (-b) >= 0.0; }
    } else {
      if b > 0.0 { assert (-q) * b > 0.0; } else { assert (-q) * (-b) > 0.0; }
    }
  }

  /** Comparing two numbers is comparing their products with a positive one. */
  lemma CompareProducts(x: real, y: real, b: real, xb: real, yb: real)
    requires b > 0.0 && x * b == xb && y * b == yb
    ensures (x < y <==> xb < yb) && (y < x <==> yb < xb)
  {
    assert (y - x) * b == yb - xb;
    if x < y { assert (y - x) * b > 0.0; }
    if y < x { assert (x - y) * b > 0.0; }
  }

  /** Score and verdict from baseline and value alone. */
  lemma ScoreOfInputs(baseline: real, during: real, direction: Direction, maxImpact: nat)
    requires baseline > 0.0
    ensures var (score, verdict, _) := CalculateImpact(baseline, during, direction, maxImpact);
            var w := Worsening(baseline, during, direction);
            && (w <= 0.0 ==> score == 0)
            && (0.0 <= w <= baseline ==> -0.5 * baseline <= score as real * baseline - 100.0 * w <= 0.5 * baseline)
            && (w >= baseline ==> score == 100)
            && (verdict == Pass <==> maxImpact >= 100 || 100.0 * w < (maxImpact as real + 0.5) * baseline)
  {
    hide Degradation, Capped, Clamp;
    var (score, verdict, r) := CalculateImpact(baseline, during, direction, maxImpact);
    var w := Worsening(baseline, during, direction);
    DegradationIsPercentage(baseline, during, direction, maxImpact);
    PassIffBelow(baseline, during, direction, maxImpact);
    ClampedByProduct(r, w, baseline, maxImpact);
  }

  /** The same about any degradation `r` of a worsening `w`. */
  lemma ClampedByProduct(r: real, w: real, baseline: real, maxImpact: nat)
    requires baseline > 0.0 && if w >= 0.0 then r * baseline == 100.0 * w else r == 0.0
    ensures w <= 0.0 ==> Capped(r) == 0
    ensures 0.0 <= w <= baseline ==> -0.5 * baseline <= Capped(r) as real * baseline - 100.0 * w <= 0.5 * baseline
    ensures w >= baseline ==> Capped(r) == 100
    ensures r < maxImpact as real + 0.5 <==> 100.0 * w < (maxImpact as real + 0.5) * baseline
  {
    hide Capped;
    var p, bound := r * baseline, maxImpact as real + 0.5;
    CompareProducts(r, 0.0, baseline, p, 0.0);
    CompareProducts(r, 100.0, baseline, p, 100.0 * baseline);
    CompareProducts(r, bound, baseline, p, bound * baseline);
    CompareProducts(0.0, bound, baseline, 0.0, bound * baseline);
    NearClamped(r, baseline, p);
  }

  lemma NearClamped(r: real, baseline: real, p: real)
    requires r >= 0.0 && baseline > 0.0 && r * baseline == p
    ensures r == 0.0 ==> Capped(r) == 0
    ensures r >= 100.0 ==> Capped(r) == 100
    ensures r <= 100.0 ==> -0.5 * baseline <= Capped(r) as real * baseline - p <= 0.5 * baseline
  {
    CappedNear(r);
    if r <= 100.0 { Scaled(Capped(r) as real - r, baseline); Distributes(Capped(r) as real, r, baseline); }
  }

  lemma Scaled(d: real, b: real)
    requires -0.5 <= d <= 0.5 && b > 0.0
    ensures -0.5 * b <= d * b <= 0.5 * b
  {
    CompareProducts(-0.5, d, b, -0.5 * b, d * b);
    CompareProducts(d, 0.5, b, d * b, 0.5 * b);
  }

  lemma Distributes(x: real, y: real, b: real)
    ensures (x - y) * b == x * b - y * b
  {
  }

  /** Without errors before, the error score is the error rate in per cent; otherwise it is that of Up. */
  lemma ErrorScoreOfInputs(baseline: real, during: real)
    requires baseline >= 0.0
    ensures var score := ErrorScore(baseline, during) as real;
            && (baseline == 0.0 && during <= 0.0 ==> score == 0.0)
            && (baseline == 0.0 && 0.0 <= during <= 1.0 ==> -0.5 <= score - 100.0 * during <= 0.5)
            && (baseline == 0.0 && during >= 1.0 ==> score == 100.0)
            && (baseline > 0.0 && during <= baseline ==> score == 0.0)
            && (baseline > 0.0 && baseline <= during <= 2.0 * baseline ==>
                  -0.5 * baseline <= score * baseline - 100.0 * (during - baseline) <= 0.5 * baseline)
            && (baseline > 0.0 && during >= 2.0 * baseline ==> score == 100.0)
  {
    hide Score, CalculateImpact;
    if baseline > 0.0 {
      UpScoreOfInputs(baseline, during);
    } else {
      hide Capped;
      CappedNear(during * 100.0);
      if during <= 0.0 { CappedMonotone(during * 100.0, 0.0); }
      if during >= 1.0 { CappedMonotone(100.0, during * 100.0); }
      CappedEnds();
    }
  }

  lemma CappedEnds()
    ensures Capped(0.0) == 0 && Capped(100.0) == 100
  {
    assert Round(100.0) == 100;
  }

  lemma UpScoreOfInputs(baseline: real, during: real)
    requires baseline > 0.0
    ensures var score := Score(baseline, during, Up) as real;
            && (during <= baseline ==> score == 0.0)
            && (baseline <= during <= 2.0 * baseline ==>
                  -0.5 * baseline <= score * baseline - 100.0 * (during - baseline) <= 0.5 * baseline)
            && (during >= 2.0 * baseline ==> score == 100.0)
  {
    hide CalculateImpact;
    ScoreOfInputs(baseline, during, Up, 100);
  }

  lemma QuotientIs(q: real, x: real, b: real)
    requires b != 0.0 && q * b == x
    ensures x / b == q
  {
    var p := x / b;
    assert p * b == x;
    assert (p - q) * b == 0.0;
  }

  lemma NonZeroProduct(c: real, x: real)
    requires c > 0.0 && x != 0.0
    ensures c * x != 0.0
  {
    if x > 0.0 { assert c * x > 0.0; } else { assert c * (-x) > 0.0; }
  }

  lemma ScaledQuotient(c: real, x: real, y: real)
    requires c > 0.0 && y != 0.0
    ensures c * y != 0.0 && (c * x) / (c * y) == x / y
  {
    NonZeroProduct(c, y);
    var q := x / y;
    assert q * y == x;
    assert q * (c * y) == c * (q * y);
    QuotientIs(q, c * x, c * y);
  }

  lemma ScaledDegradation(c: real, baseline: real, during: real, direction: Direction)
    requires c > 0.0
    ensures Degradation(c * baseline, c * during, direction) == Degradation(baseline, during, direction)
  {
    if baseline == 0.0 {
      if during != 0.0 { NonZeroProduct(c, during); }
    } else {
      var change := if direction.Up? then during - baseline else baseline - during;
      assert c * change == if direction.Up? then c * during - c * baseline else c * baseline - c * during;
      ScaledQuotient(c, change, baseline);
    }
  }

  /** Changing the unit of measurement changes nothing. */
  lemma ScaleInvariant(c: real, baseline: real, during: real, direction: Direction, maxImpact: nat)
    requires c > 0.0
    ensures CalculateImpact(c * baseline, c * during, direction, maxImpact)
            == CalculateImpact(baseline, during, direction, maxImpact)
  {
    hide Degradation, Capped;
    ScaledDegradation(c, baseline, during, direction);
  }

  // ── Monotonicity ──

  lemma QuotientMonotone(x: real, y: real, b: real)
    requires x <= y && b > 0.0
    ensures x / b <= y / b
  {
    assert (x / b) * b == x && (y / b) * b == y;
  }

  lemma QuotientAntitone(x: real, b: real, c: real)
    requires x >= 0.0 && 0.0 < b <= c
    ensures x / c <= x / b
  {
    var p, q := x / c, x / b;
    assert p * c == x && q * b == x;
    assert q >= 0.0;
    assert q * c == x + q * (c - b) >= p * c;
  }

  lemma SplitQuotient(during: real, baseline: real)
    requires baseline != 0.0
    ensures (during - baseline) / baseline == during / baseline - 1.0
    ensures (baseline - during) / baseline == 1.0 - during / baseline
  {
    var q := during / baseline;
    assert q * baseline == during;
    QuotientIs(q - 1.0, during - baseline, baseline);
    QuotientIs(1.0 - q, baseline - during, baseline);
  }

  /** Where more is worse: a higher value scores no lower, and a higher baseline scores no higher. */
  lemma UpMonotone(baseline: real, lower: real, higher: real)
    requires baseline >= 0.0 && 0.0 <= lower <= higher
    ensures Score(baseline, lower, Up) <= Score(baseline, higher, Up)
  {
    if baseline > 0.0 {
      SplitQuotient(lower, baseline);
      SplitQuotient(higher, baseline);
      QuotientMonotone(lower, higher, baseline);
    }
    CappedMonotone(Degradation(baseline, lower, Up), Degradation(baseline, higher, Up));
  }

  lemma UpAntitone(lower: real, higher: real, during: real)
    requires 0.0 <= lower <= higher && during >= 0.0
    ensures Score(higher, during, Up) <= Score(lower, during, Up)
  {
    var d, d' := Degradation(lower, during, Up), Degradation(higher, during, Up);
    if lower > 0.0 {
      SplitQuotient(during, lower);
      SplitQuotient(during, higher);
      QuotientAntitone(during, lower, higher);
      CappedMonotone(d', d);
    } else if during == 0.0 {
      if higher > 0.0 { SplitQuotient(during, higher); }
      assert d' == 0.0;
    } else {
      assert d == 100.0 && Round(100.0) == 100;
      CappedNear(d');
    }
  }

  /** Where less is worse, both directions reverse, for positive baselines. */
  lemma DownAntitone(baseline: real, lower: real, higher: real)
    requires baseline > 0.0 && lower <= higher
    ensures Score(baseline, higher, Down) <= Score(baseline, lower, Down)
  {
    SplitQuotient(lower, baseline);
    SplitQuotient(higher, baseline);
    QuotientMonotone(lower, higher, baseline);
    CappedMonotone(Degradation(baseline, higher, Down), Degradation(baseline, lower, Down));
  }

  lemma DownMonotone(lower: real, higher: real, during: real)
    requires 0.0 < lower <= higher && during >= 0.0
    ensures Score(lower, during, Down) <= Score(higher, during, Down)
  {
    SplitQuotient(during, lower);
    SplitQuotient(during, higher);
    QuotientAntitone(during, lower, higher);
    CappedMonotone(Degradation(lower, during, Down), Degradation(higher, during, Down));
  }

  lemma ErrorMonotone(baseline: real, lower: real, higher: real)
    requires baseline >= 0.0 && 0.0 <= lower <= higher
    ensures ErrorScore(baseline, lower) <= ErrorScore(baseline, higher)
  {
    if baseline == 0.0 {
      CappedMonotone(lower * 100.0, higher * 100.0);
    } else {
      UpMonotone(baseline, lower, higher);
    }
  }

  /** No higher value scores higher, for Down against this baseline. */
  ghost predicate DownOrdered(baseline: real) {
    forall lower: real, higher: real | 0.0 <= lower <= higher ::
      Score(baseline, higher, Down) <= Score(baseline, lower, Down)
  }

  /**
   The positive baseline is needed: with none, any value counts as full degradation in both directions, so traffic
   that appears scores worse than traffic that stays away.
   */
  lemma DownOrderedIff(baseline: real)
    requires baseline >= 0.0
    ensures DownOrdered(baseline) <==> baseline > 0.0
  {
    hide Score;
    if baseline > 0.0 {
      forall lower: real, higher: real | 0.0 <= lower <= higher { DownAntitone(baseline, lower, higher); }
    } else {
      NoBaseline(0.0, Down);
      NoBaseline(1.0, Down);
    }
  }

  lemma NoBaseline(during: real, direction: Direction)
    ensures Score(0.0, during, direction) == if during == 0.0 then 0 else 100
  {
    assert Round(100.0) == 100;
  }
}
