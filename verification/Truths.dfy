/** Truth values of the Non-Axiomatic Logic and their functions, over the reals.

    Revision is the delicate one: written as a ratio of products, it is in disguise the
    addition of evidence, which is what makes the order of revisions irrelevant. */
module Truths {

  import opened Reals

  const K := 1.0

  datatype Truth = Truth(freq: real, conf: real)
  {
    function Deduction(other: Truth): Truth {
      var f := freq * other.freq;
      Truth(f, f * conf * other.conf)
    }

    function Induction(other: Truth): Truth
      requires other.freq * conf * other.conf + K != 0.0
    {
      var i := other.freq * conf * other.conf;
      Truth(freq, i / (i + K))
    }

    function Abduction(other: Truth): Truth
      requires freq * conf * other.conf + K != 0.0
    {
      var i := freq * conf * other.conf;
      Truth(other.freq, i / (i + K))
    }

    function Comparison(other: Truth): Truth
      requires freq + other.freq - freq * other.freq != 0.0
      requires (freq + other.freq - freq * other.freq) * conf * other.conf + K != 0.0
    {
      var i := freq * other.freq;
      var j := freq + other.freq - i;
      var k := j * conf * other.conf;
      Truth(i / j, k / (k + K))
    }

    function Analogy(other: Truth, inv: bool): Truth {
      var f := freq * other.freq;
      var c := conf * other.conf;
      if inv then Truth(f, freq * c) else Truth(f, other.freq * c)
    }

    function Resemblance(other: Truth): Truth {
      var f := freq * other.freq;
      Truth(f, (freq + other.freq - f) * conf * other.conf)
    }

    /** The two denominators of revision. */
    function RevisionFi(other: Truth): real {
      conf * (1.0 - other.conf) + other.conf * (1.0 - conf)
    }

    function RevisionCi(other: Truth): real {
      RevisionFi(other) + (1.0 - conf) * (1.0 - other.conf)
    }

    function Revision(other: Truth): Truth
      requires RevisionFi(other) != 0.0 && RevisionCi(other) != 0.0
    {
      var fb := freq * conf * (1.0 - other.conf) + other.freq * other.conf * (1.0 - conf);
      var cb := conf * (1.0 - other.conf) + other.conf * (1.0 - conf);
      Truth(fb / RevisionFi(other), cb / RevisionCi(other))
    }

    function Expectation(): real {
      conf * (freq - 0.5) + 0.5
    }

    /** Frequency and confidence both in the closed unit interval. */
    ghost predicate Unit() {
      0.0 <= freq <= 1.0 && 0.0 <= conf <= 1.0
    }

    /** Confidences of experience: some evidence, but never conclusive. */
    predicate Proper() {
      0.0 < conf < 1.0
    }
  }

  /** i/(i+1) is below both i and 1/2 when i lies in the unit interval. */
  lemma Saturation(i: real)
    requires 0.0 <= i <= 1.0
    ensures 0.0 <= i / (i + K) <= i
    ensures i / (i + K) <= 0.5
  {
    MulMono(1.0, i + K, i);
    QuotientBetween(i, i + K, 0.0, i);
    QuotientBetween(i, i + K, 0.0, 0.5);
  }

  // ---------- revision ----------

  /** Over the unit interval the two denominators vanish exactly when both sides are ignorant or
      both are certain: there, and only there, the code divides by zero. */
  lemma RevisionDefined(a: Truth, b: Truth)
    requires 0.0 <= a.conf <= 1.0 && 0.0 <= b.conf <= 1.0
    ensures (a.RevisionFi(b) != 0.0 && a.RevisionCi(b) != 0.0)
       <==> !(a.conf == b.conf && (a.conf == 0.0 || a.conf == 1.0))
  {
    var c, d := a.conf, b.conf;
    ProductSign(c, 1.0 - d);
    ProductSign(d, 1.0 - c);
    ProductSign(1.0 - c, 1.0 - d);
    FiPositive(c * (1.0 - d), d * (1.0 - c), (1.0 - c) * (1.0 - d));
  }

  lemma FiPositive(p: real, q: real, r: real)
    requires 0.0 <= p && 0.0 <= q && 0.0 <= r
    ensures p + q != 0.0 && p + q + r != 0.0 <==> 0.0 < p || 0.0 < q
  {
  }

  lemma ProductSign(x: real, y: real)
    requires 0.0 <= x && 0.0 <= y
    ensures 0.0 <= x * y
    ensures 0.0 < x * y <==> 0.0 < x && 0.0 < y
  {
    MulMono(0.0, x, y);
    if 0.0 < x && 0.0 < y {
      MulMonoStrict(0.0, x, y);
    }
  }

  /** Evidence: its amount, and the part of it that speaks for the statement. */
  datatype Evidence = Evidence(positive: real, total: real)
  {
    function Plus(other: Evidence): Evidence {
      Evidence(positive + other.positive, total + other.total)
    }
  }

  /** Confidence c stands for an amount c/(1-c) of evidence. */
  function EvidenceOf(t: Truth): (e: Evidence)
    requires t.Proper()
    ensures e.total > 0.0
  {
    var w := t.conf / (1.0 - t.conf);
    MulMonoStrict(t.conf, 1.0, t.conf);
    QuotientInside(t.conf, 1.0 - t.conf, 0.0, 1.0 + w);
    Evidence(t.freq * w, w)
  }

  function TruthOf(e: Evidence): (t: Truth)
    requires e.total > 0.0
    ensures t.Proper()
  {
    QuotientInside(e.total, e.total + 1.0, 0.0, 1.0);
    Truth(e.positive / e.total, e.total / (e.total + 1.0))
  }

  lemma TruthOfEvidenceOf(t: Truth)
    requires t.Proper()
    ensures TruthOf(EvidenceOf(t)) == t
  {
    var w := EvidenceOf(t).total;
    QuotientTimes(t.conf, 1.0 - t.conf);
    QuotientIs(t.freq * w, w, t.freq);
    assert t.conf * (w + 1.0) == w;
    QuotientIs(w, w + 1.0, t.conf);
  }

  lemma EvidenceOfTruthOf(e: Evidence)
    requires e.total > 0.0
    ensures EvidenceOf(TruthOf(e)) == e
  {
    var w, c := e.total, TruthOf(e).conf;
    QuotientTimes(w, w + 1.0);
    assert w * (1.0 - c) == c;
    QuotientIs(c, 1.0 - c, w);
    QuotientTimes(e.positive, w);
  }

  /** The products of revision, over the common factor d = (1-c)(1-c'). */
  lemma RevisionScaled(a: Truth, b: Truth, v: real, w: real, d: real)
    requires a.conf == v * (1.0 - a.conf) && b.conf == w * (1.0 - b.conf)
    requires d == (1.0 - a.conf) * (1.0 - b.conf)
    ensures a.conf * (1.0 - b.conf) == v * d && b.conf * (1.0 - a.conf) == w * d
    ensures a.RevisionFi(b) == (v + w) * d
    ensures a.RevisionCi(b) == (v + w + 1.0) * d
  {
    var x, y := 1.0 - a.conf, 1.0 - b.conf;
    Regroup(v, x, y);
    Regroup(w, y, x);
    assert x * y == y * x;
  }

  lemma Regroup(x: real, y: real, z: real)
    ensures (x * y) * z == x * (y * z)
  {
  }

  /** The numerator of the revised frequency, over the same factor. */
  lemma FrequencyScaled(a: Truth, b: Truth, v: real, w: real, d: real)
    requires a.conf * (1.0 - b.conf) == v * d && b.conf * (1.0 - a.conf) == w * d
    ensures a.freq * a.conf * (1.0 - b.conf) + b.freq * b.conf * (1.0 - a.conf)
         == (a.freq * v + b.freq * w) * d
  {
    Regroup(a.freq, a.conf, 1.0 - b.conf);
    Regroup(a.freq, v, d);
    Regroup(b.freq, b.conf, 1.0 - a.conf);
    Regroup(b.freq, w, d);
  }

  /** The common factor, and its uses in the two ratios. */
  lemma RevisionRatios(a: Truth, b: Truth, v: real, w: real)
    requires a.Proper() && b.Proper() && v > 0.0 && w > 0.0
    requires a.conf == v * (1.0 - a.conf) && b.conf == w * (1.0 - b.conf)
    ensures a.RevisionFi(b) != 0.0 && a.RevisionCi(b) != 0.0
    ensures a.Revision(b).freq == (a.freq * v + b.freq * w) / (v + w)
    ensures a.Revision(b).conf == (v + w) / (v + w + 1.0)
  {
    MulMonoStrict(0.0, 1.0 - a.conf, 1.0 - b.conf);
    var d := (1.0 - a.conf) * (1.0 - b.conf);
    RevisionScaled(a, b, v, w, d);
    FrequencyScaled(a, b, v, w, d);
    ScaledRatio(a.freq * v + b.freq * w, v + w, d);
    ScaledRatio(v + w, v + w + 1.0, d);
  }

  /** Revision is addition of evidence. */
  lemma RevisionAddsEvidence(a: Truth, b: Truth)
    requires a.Proper() && b.Proper()
    ensures a.RevisionFi(b) != 0.0 && a.RevisionCi(b) != 0.0
    ensures a.Revision(b) == TruthOf(EvidenceOf(a).Plus(EvidenceOf(b)))
  {
    QuotientTimes(a.conf, 1.0 - a.conf);
    QuotientTimes(b.conf, 1.0 - b.conf);
    RevisionRatios(a, b, EvidenceOf(a).total, EvidenceOf(b).total);
  }

  /** Revising keeps a proper truth proper, and adds the evidence. */
  lemma RevisionProper(a: Truth, b: Truth)
    requires a.Proper() && b.Proper()
    ensures a.RevisionFi(b) != 0.0 && a.RevisionCi(b) != 0.0
    ensures a.Revision(b).Proper()
    ensures EvidenceOf(a.Revision(b)) == EvidenceOf(a).Plus(EvidenceOf(b))
  {
    RevisionAddsEvidence(a, b);
    EvidenceOfTruthOf(EvidenceOf(a).Plus(EvidenceOf(b)));
  }

  lemma RevisionCommutes(a: Truth, b: Truth)
    requires a.Proper() && b.Proper()
    ensures a.RevisionFi(b) != 0.0 && a.RevisionCi(b) != 0.0
    ensures b.RevisionFi(a) != 0.0 && b.RevisionCi(a) != 0.0
    ensures a.Revision(b) == b.Revision(a)
  {
    RevisionAddsEvidence(a, b);
    RevisionAddsEvidence(b, a);
  }

  lemma RevisionAssociates(a: Truth, b: Truth, c: Truth)
    requires a.Proper() && b.Proper() && c.Proper()
    ensures a.RevisionFi(b) != 0.0 && a.RevisionCi(b) != 0.0
    ensures b.RevisionFi(c) != 0.0 && b.RevisionCi(c) != 0.0
    ensures var ab := a.Revision(b); ab.RevisionFi(c) != 0.0 && ab.RevisionCi(c) != 0.0
    ensures var bc := b.Revision(c); a.RevisionFi(bc) != 0.0 && a.RevisionCi(bc) != 0.0
    ensures a.Revision(b).Revision(c) == a.Revision(b.Revision(c))
  {
    RevisionProper(a, b);
    RevisionProper(b, c);
    RevisionAddsEvidence(a.Revision(b), c);
    RevisionAddsEvidence(a, b.Revision(c));
  }

  /** The revised frequency lies between the two. */
  lemma RevisionFrequency(a: Truth, b: Truth)
    requires a.Proper() && b.Proper()
    ensures a.RevisionFi(b) != 0.0 && a.RevisionCi(b) != 0.0
    ensures Min(a.freq, b.freq) <= a.Revision(b).freq <= Max(a.freq, b.freq)
  {
    RevisionAddsEvidence(a, b);
    WeightedMean(a.freq, b.freq, EvidenceOf(a).total, EvidenceOf(b).total);
  }

  /** The revised confidence is above both, but below certainty. */
  lemma RevisionConfidence(a: Truth, b: Truth)
    requires a.Proper() && b.Proper()
    ensures a.RevisionFi(b) != 0.0 && a.RevisionCi(b) != 0.0
    ensures Max(a.conf, b.conf) < a.Revision(b).conf < 1.0
  {
    RevisionAddsEvidence(a, b);
    MoreEvidence(a, EvidenceOf(b));
    MoreEvidence(b, EvidenceOf(a));
  }

  /** Any further evidence raises the confidence. */
  lemma MoreEvidence(a: Truth, f: Evidence)
    requires a.Proper() && f.total > 0.0
    ensures a.conf < TruthOf(EvidenceOf(a).Plus(f)).conf < 1.0
    ensures TruthOf(EvidenceOf(a).Plus(f)) == TruthOf(f.Plus(EvidenceOf(a)))
  {
    EvidenceRaisesConfidence(EvidenceOf(a), f);
    TruthOfEvidenceOf(a);
    assert EvidenceOf(a).Plus(f) == f.Plus(EvidenceOf(a));
  }

  lemma EvidenceRaisesConfidence(e: Evidence, f: Evidence)
    requires e.total > 0.0 && f.total > 0.0
    ensures TruthOf(e).conf < TruthOf(e.Plus(f)).conf
  {
    ConfidenceGrows(e.total, e.total + f.total);
  }

  lemma WeightedMean(x: real, y: real, v: real, w: real)
    requires v > 0.0 && w > 0.0
    ensures Min(x, y) <= (x * v + y * w) / (v + w) <= Max(x, y)
  {
    var lo, hi := Min(x, y), Max(x, y);
    MulMono(lo, x, v);
    MulMono(lo, y, w);
    MulMono(x, hi, v);
    MulMono(y, hi, w);
    QuotientBetween(x * v + y * w, v + w, lo, hi);
  }

  lemma ConfidenceGrows(v: real, w: real)
    requires 0.0 < v < w
    ensures v / (v + 1.0) < w / (w + 1.0)
  {
    var q := w / (w + 1.0);
    QuotientTimes(w, w + 1.0);
    QuotientInside(w, w + 1.0, 0.0, 1.0);
    assert q * (v + 1.0) == w - q * (w - v);
    MulMonoStrict(q, 1.0, w - v);
    QuotientInside(v, v + 1.0, -1.0, q);
  }

  // ---------- the other inference functions ----------

  /** The confidence product, and its product with any weight of the unit interval. */
  lemma WeightedConfidence(f: real, c: real, d: real)
    requires 0.0 <= f <= 1.0 && 0.0 <= c <= 1.0 && 0.0 <= d <= 1.0
    ensures f * c * d == f * (c * d)
    ensures 0.0 <= f * (c * d) <= Min(c, d)
    ensures 0.0 <= f * (c * d) <= 1.0
  {
    Regroup(f, c, d);
    ProductOfUnits(c, d);
    WeightedBelow(f, c * d, c, d);
  }

  lemma WeightedBelow(f: real, p: real, c: real, d: real)
    requires 0.0 <= f <= 1.0 && 0.0 <= p <= 1.0 && p <= c && p <= d
    ensures 0.0 <= f * p <= Min(c, d)
    ensures 0.0 <= f * p <= 1.0
  {
    ProductOfUnits(f, p);
  }

  /** The probabilistic sum of two frequencies. */
  lemma UnionOfFrequencies(x: real, y: real)
    requires 0.0 <= x <= 1.0 && 0.0 <= y <= 1.0
    ensures 0.0 <= x * y <= x + y - x * y <= 1.0
    ensures x + y - x * y == 0.0 <==> x == 0.0 && y == 0.0
  {
    UnionLower(x, y);
    UnionUpper(x, y);
    UnionZero(x, y);
  }

  lemma UnionUpper(x: real, y: real)
    requires 0.0 <= x <= 1.0 && 0.0 <= y <= 1.0
    ensures x + y - x * y <= 1.0
  {
    MulMono(y, 1.0, 1.0 - x);
  }

  lemma UnionLower(x: real, y: real)
    requires 0.0 <= x <= 1.0 && 0.0 <= y <= 1.0
    ensures 0.0 <= x * y
    ensures x * y <= x + y - x * y
  {
    ProductOfUnits(x, y);
    calc <= {
      x * y;
    <= { MulMono(y, 1.0, x); }
      x;
    <= { MulMono(x, 1.0, y); }
      x + y - x * y;
    }
  }

  lemma UnionZero(x: real, y: real)
    requires 0.0 <= x <= 1.0 && 0.0 <= y <= 1.0
    ensures x + y - x * y == 0.0 ==> x == 0.0
    ensures x + y - x * y == 0.0 ==> y == 0.0
  {
    if x + y - x * y == 0.0 {
      ProductOfUnits(x, y);
      assert x == 0.0;
    }
  }

  /** Strong inference weakens: the confidence is at most the smaller input. */
  lemma DeductionWeakens(a: Truth, b: Truth)
    requires a.Unit() && b.Unit()
    ensures var d := a.Deduction(b); d.Unit() && d.conf <= Min(a.conf, b.conf)
  {
    ProductOfUnits(a.freq, b.freq);
    WeightedConfidence(a.freq * b.freq, a.conf, b.conf);
  }

  lemma AnalogyWeakens(a: Truth, b: Truth, inv: bool)
    requires a.Unit() && b.Unit()
    ensures var d := a.Analogy(b, inv); d.Unit() && d.conf <= Min(a.conf, b.conf)
  {
    ProductOfUnits(a.freq, b.freq);
    WeightedConfidence(a.freq, a.conf, b.conf);
    WeightedConfidence(b.freq, a.conf, b.conf);
  }

  lemma ResemblanceWeakens(a: Truth, b: Truth)
    requires a.Unit() && b.Unit()
    ensures var d := a.Resemblance(b); d.Unit() && d.conf <= Min(a.conf, b.conf)
  {
    UnionOfFrequencies(a.freq, b.freq);
    ProductOfUnits(a.freq, b.freq);
    WeightedConfidence(a.freq + b.freq - a.freq * b.freq, a.conf, b.conf);
  }

  lemma SaturatedBelow(i: real, m: real)
    requires 0.0 <= i <= 1.0 && i <= m
    ensures 0.0 <= i / (i + K) <= m && i / (i + K) <= 0.5
  {
    Saturation(i);
  }

  /** Weak inference: moreover the confidence never exceeds one half. */
  lemma InductionWeakens(a: Truth, b: Truth)
    requires a.Unit() && b.Unit()
    ensures b.freq * a.conf * b.conf + K != 0.0
    ensures var d := a.Induction(b); d.Unit() && d.conf <= Min(a.conf, b.conf) && d.conf <= 0.5
  {
    WeightedConfidence(b.freq, a.conf, b.conf);
    SaturatedBelow(b.freq * (a.conf * b.conf), Min(a.conf, b.conf));
  }

  lemma AbductionWeakens(a: Truth, b: Truth)
    requires a.Unit() && b.Unit()
    ensures a.freq * a.conf * b.conf + K != 0.0
    ensures var d := a.Abduction(b); d.Unit() && d.conf <= Min(a.conf, b.conf) && d.conf <= 0.5
  {
    WeightedConfidence(a.freq, a.conf, b.conf);
    SaturatedBelow(a.freq * (a.conf * b.conf), Min(a.conf, b.conf));
  }

  /** Comparison divides by zero exactly when both frequencies are zero; otherwise it weakens too. */
  lemma ComparisonWeakens(a: Truth, b: Truth)
    requires a.Unit() && b.Unit()
    ensures a.freq + b.freq - a.freq * b.freq == 0.0 <==> a.freq == 0.0 && b.freq == 0.0
    ensures (a.freq + b.freq - a.freq * b.freq) * a.conf * b.conf + K != 0.0
    ensures a.freq != 0.0 || b.freq != 0.0 ==>
              var d := a.Comparison(b); d.Unit() && d.conf <= Min(a.conf, b.conf) && d.conf <= 0.5
  {
    UnionOfFrequencies(a.freq, b.freq);
    ComparisonIs(a, b, a.freq * b.freq, a.freq + b.freq - a.freq * b.freq);
  }

  /** Comparison, with its intersection i and union j as plain numbers. */
  lemma ComparisonIs(a: Truth, b: Truth, i: real, j: real)
    requires i == a.freq * b.freq && j == a.freq + b.freq - a.freq * b.freq
    requires 0.0 <= i <= j <= 1.0 && 0.0 <= a.conf <= 1.0 && 0.0 <= b.conf <= 1.0
    ensures j * a.conf * b.conf + K != 0.0
    ensures j != 0.0 ==>
              var d := a.Comparison(b); d.Unit() && d.conf <= Min(a.conf, b.conf) && d.conf <= 0.5
  {
    var k := j * a.conf * b.conf;
    WeightedConfidence(j, a.conf, b.conf);
    SaturatedBelow(k, Min(a.conf, b.conf));
    if j != 0.0 {
      ComparisonForm(a, b, i, j, k);
      QuotientBetween(i, j, 0.0, 1.0);
    }
  }

  lemma ComparisonForm(a: Truth, b: Truth, i: real, j: real, k: real)
    requires i == a.freq * b.freq && j == a.freq + b.freq - a.freq * b.freq && j != 0.0
    requires k == j * a.conf * b.conf && k + K != 0.0
    ensures a.Comparison(b) == Truth(i / j, k / (k + K))
  {
  }

  lemma ExpectationInUnit(t: Truth)
    requires t.Unit()
    ensures 0.0 <= t.Expectation() <= 1.0
  {
    ProductOfUnits(t.conf, t.freq);
    assert t.conf * (t.freq - 0.5) == t.conf * t.freq - 0.5 * t.conf;
  }

  /** The expectation is the midpoint of what all further evidence could make of the frequency: at worst
      conf * freq, at best 1 - conf * (1 - freq). It lies between the frequency and 1/2. */
  lemma ExpectationIsMidpoint(t: Truth)
    requires t.Unit()
    ensures t.Expectation() + t.Expectation() == t.conf * t.freq + (1.0 - t.conf * (1.0 - t.freq))
    ensures Min(t.freq, 0.5) <= t.Expectation() <= Max(t.freq, 0.5)
  {
    assert t.conf * (t.freq - 0.5) == t.conf * t.freq - 0.5 * t.conf;
    assert t.conf * (1.0 - t.freq) == t.conf - t.conf * t.freq;
    Towards(t.freq - 0.5, t.conf);
  }

  lemma Towards(d: real, c: real)
    requires 0.0 <= c <= 1.0
    ensures Min(d, 0.0) <= c * d <= Max(d, 0.0)
  {
    if d >= 0.0 {
      Shrinks(c, d);
    } else {
      Shrinks(c, -d);
      assert c * d == -(c * -d);
    }
  }

  lemma Shrinks(c: real, d: real)
    requires 0.0 <= c <= 1.0 && 0.0 <= d
    ensures 0.0 <= c * d <= d
  {
    MulMono(0.0, c, d);
    MulMono(c, 1.0, d);
    assert 1.0 * d == d;
  }

  /** At equal confidence the expectations differ as the frequencies do, in proportion to the confidence;
      so a larger frequency is expected more, whenever there is any confidence. */
  lemma ExpectationGrows(a: Truth, b: Truth)
    requires a.conf == b.conf
    ensures b.Expectation() - a.Expectation() == a.conf * (b.freq - a.freq)
    ensures a.conf > 0.0 ==> (a.Expectation() < b.Expectation() <==> a.freq < b.freq)
  {
    var c := a.conf;
    assert c * (b.freq - 0.5) - c * (a.freq - 0.5) == c * (b.freq - a.freq);
    if c > 0.0 {
      if a.freq < b.freq { MulMonoStrict(0.0, b.freq - a.freq, c); }
      if b.freq < a.freq { MulMonoStrict(b.freq - a.freq, 0.0, c); }
    }
  }

  /** Some evidence in favour, or room for doubt, makes a truth expected to some extent. */
  lemma ExpectationPositive(t: Truth)
    requires t.Unit() && (t.freq > 0.0 || t.conf < 1.0)
    ensures t.Expectation() > 0.0
  {
    ExpectationIsMidpoint(t);
    ProductOfUnits(t.conf, t.freq);
    ProductOfUnits(t.conf, 1.0 - t.freq);
    if t.conf == 1.0 {
      assert t.conf * t.freq == t.freq;
    }
  }

  // ---------- the inference functions, value by value ----------

  const CERTAIN := Truth(1.0, 1.0)

  lemma Permuted(x: real, y: real, z: real)
    ensures x * (y * z) == y * (x * z)
    ensures (x * y) * z == x * (y * z)
    ensures x * y == y * x
  {
    Regroup(x, y, z);
    Regroup(y, x, z);
  }

  /** Deduction from a certain premise, and in proportion to the confidence and to the frequency of the
      first premise. As it is symmetric this says what it is. */
  lemma DeductionIs(a: Truth, b: Truth, k: real)
    ensures a.Deduction(CERTAIN) == Truth(a.freq, a.freq * a.conf)
    ensures var d := a.Deduction(b);
            && Truth(a.freq, k * a.conf).Deduction(b) == Truth(d.freq, k * d.conf)
            && Truth(k * a.freq, a.conf).Deduction(b) == Truth(k * d.freq, k * d.conf)
  {
    var f := a.freq * b.freq;
    Permuted(k, a.freq, b.freq);
    Permuted(f, k, a.conf);
    Permuted(k, f, a.conf);
    Permuted(k, f * a.conf, b.conf);
  }

  /** Analogy with a certain similarity changes nothing, and weakens in proportion to the confidence and to
      the frequency of the similarity. */
  lemma AnalogyIs(a: Truth, b: Truth, k: real)
    ensures a.Analogy(CERTAIN, false) == a
    ensures var d := a.Analogy(b, false);
            && a.Analogy(Truth(b.freq, k * b.conf), false) == Truth(d.freq, k * d.conf)
            && a.Analogy(Truth(k * b.freq, b.conf), false) == Truth(k * d.freq, k * d.conf)
  {
    var c := a.conf * b.conf;
    Permuted(a.conf, k, b.conf);
    Permuted(b.freq, k, c);
    Permuted(a.freq, k, b.freq);
    Permuted(k, b.freq, c);
  }

  /** Resemblance with a certain similarity changes nothing; with a certain difference it leaves no
      frequency, and the confidence that the frequency of the other deserves; in between it is the mean of
      the two by the frequency, and in proportion to the confidence. */
  lemma ResemblanceIs(a: Truth, b: Truth, k: real)
    ensures a.Resemblance(CERTAIN) == a
    ensures a.Resemblance(Truth(0.0, 1.0)) == Truth(0.0, a.freq * a.conf)
    ensures var d := a.Resemblance(b);
            var same, other := a.Resemblance(Truth(1.0, b.conf)), a.Resemblance(Truth(0.0, b.conf));
            && a.Resemblance(Truth(b.freq, k * b.conf)) == Truth(d.freq, k * d.conf)
            && d.freq == b.freq * same.freq + (1.0 - b.freq) * other.freq
            && d.conf == b.freq * same.conf + (1.0 - b.freq) * other.conf
  {
    var u := a.freq + b.freq - a.freq * b.freq;
    var c := a.conf * b.conf;
    Regroup(u, a.conf, b.conf);
    Regroup(u, a.conf, k * b.conf);
    Permuted(a.conf, k, b.conf);
    Permuted(u, k, c);
    Regroup(a.freq, a.conf, b.conf);
    Permuted(a.freq, b.freq, 1.0);
    assert a.freq + 1.0 - a.freq * 1.0 == 1.0 && a.freq + 0.0 - a.freq * 0.0 == a.freq;
    MeanOf(b.freq, a.freq, c);
  }

  lemma MeanOf(x: real, y: real, c: real)
    ensures (y + x - y * x) * c == x * c + (1.0 - x) * (y * c)
  {
    Permuted(x, y, c);
    assert (y + x - y * x) * c == y * c + x * c - (y * x) * c;
    assert (1.0 - x) * (y * c) == y * c - x * (y * c);
  }

  /** Induction keeps the frequency of its first premise; its evidence is the product of the second
      frequency with both confidences. */
  lemma InductionIs(a: Truth, b: Truth)
    requires a.Unit() && b.Unit()
    ensures b.freq * a.conf * b.conf + K != 0.0
    ensures var d := a.Induction(b);
            d.freq == a.freq && d.conf < 1.0 && d.conf == b.freq * a.conf * b.conf * (1.0 - d.conf)
  {
    InductionWeakens(a, b);
    Saturated(b.freq * a.conf * b.conf);
  }

  /** A confidence of i/(i+1) is one of evidence i. */
  lemma Saturated(i: real)
    requires i + K != 0.0
    ensures var c := i / (i + K); c == i * (1.0 - c)
  {
    QuotientTimes(i, i + K);
    var c := i / (i + K);
    assert c * (i + K) == c * i + c;
  }

  /** Comparison relates what both premises share to what either has; its evidence is what resemblance
      has for confidence. */
  lemma ComparisonEvidence(a: Truth, b: Truth)
    requires a.Unit() && b.Unit() && (a.freq != 0.0 || b.freq != 0.0)
    ensures a.freq + b.freq - a.freq * b.freq != 0.0
    ensures (a.freq + b.freq - a.freq * b.freq) * a.conf * b.conf + K != 0.0
    ensures var d := a.Comparison(b);
            && d.freq * (a.freq + b.freq - a.freq * b.freq) == a.freq * b.freq
            && d.conf < 1.0 && d.conf == a.Resemblance(b).conf * (1.0 - d.conf)
  {
    ComparisonWeakens(a, b);
    var i, j := a.freq * b.freq, a.freq + b.freq - a.freq * b.freq;
    var k := a.Resemblance(b).conf;
    assert k == j * a.conf * b.conf;
    ComparisonForm(a, b, i, j, k);
    QuotientTimes(i, j);
    Saturated(k);
  }

  /** Comparison does not care which premise comes first, wherever it is defined. */
  lemma ComparisonCommutes(a: Truth, b: Truth)
    requires a.Unit() && b.Unit() && (a.freq != 0.0 || b.freq != 0.0)
    ensures a.freq + b.freq - a.freq * b.freq != 0.0 && b.freq + a.freq - b.freq * a.freq != 0.0
    ensures (a.freq + b.freq - a.freq * b.freq) * a.conf * b.conf + K != 0.0
    ensures (b.freq + a.freq - b.freq * a.freq) * b.conf * a.conf + K != 0.0
    ensures a.Comparison(b) == b.Comparison(a)
  {
    ComparisonWeakens(a, b);
    ComparisonWeakens(b, a);
    var i, j := a.freq * b.freq, a.freq + b.freq - a.freq * b.freq;
    assert b.freq * a.freq == i && b.freq + a.freq - b.freq * a.freq == j;
    var k := j * a.conf * b.conf;
    SameProduct(j, a.conf, b.conf);
    ComparisonForm(a, b, i, j, k);
    ComparisonForm(b, a, i, j, k);
  }

  lemma SameProduct(x: real, y: real, z: real)
    ensures x * y * z == x * z * y
  {
    Regroup(x, y, z);
    Regroup(x, z, y);
  }

  /** The inference functions among each other: deduction and resemblance do not care either which premise
      comes first, abduction is induction with the premises exchanged, and so is the one form
      of analogy for the other. */
  lemma InferenceSymmetries(a: Truth, b: Truth)
    ensures a.Deduction(b) == b.Deduction(a)
    ensures a.Resemblance(b) == b.Resemblance(a)
    ensures a.Analogy(b, true) == b.Analogy(a, false)
    ensures b.freq * a.conf * b.conf + K != 0.0 ==>
              b.freq * b.conf * a.conf + K != 0.0 && a.Induction(b) == b.Abduction(a)
  {
    Regroup(a.freq * b.freq, a.conf, b.conf);
    Regroup(b.freq * a.freq, b.conf, a.conf);
    Regroup(b.freq, a.conf, b.conf);
    Regroup(b.freq, b.conf, a.conf);
    Regroup(a.freq + b.freq - a.freq * b.freq, a.conf, b.conf);
    Regroup(b.freq + a.freq - b.freq * a.freq, b.conf, a.conf);
    assert a.conf * b.conf == b.conf * a.conf && a.freq * b.freq == b.freq * a.freq;
  }

  predicate CloseTo(a: Truth, b: Truth) {
    -0.01 <= a.freq - b.freq <= 0.01 && -0.01 <= a.conf - b.conf <= 0.01
  }

  /** The values that the functions are expected to have on two given truths. */
  lemma ForwardExample()
    ensures var a, b := Truth(0.63, 0.84), Truth(0.79, 0.95);
            && CloseTo(Truth(0.50, 0.40), a.Deduction(b))
            && CloseTo(Truth(0.63, 0.39), a.Induction(b))
            && CloseTo(Truth(0.79, 0.33), a.Abduction(b))
            && CloseTo(Truth(0.54, 0.42), a.Comparison(b))
            && CloseTo(Truth(0.50, 0.63), a.Analogy(b, false))
            && CloseTo(Truth(0.50, 0.50), a.Analogy(b, true))
            && CloseTo(Truth(0.50, 0.74), a.Resemblance(b))
  {
  }
}
