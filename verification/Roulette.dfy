/** The roulette wheel with which an ant chooses its next node, in floating-point numbers without
    rounding: an edge without weight attracts infinitely. */
module Roulette {

  import opened Floats
  import opened Reals

  const ALPHA := 1
  const BETA := 5

  /** How much an edge attracts: by its pheromone, and by the inverse of its weight. */
  function Attraction(pheromone: real, weight: real): Float {
    Times(Power(Finite(pheromone), ALPHA), Power(Over(Finite(1.0), Finite(weight)), BETA))
  }

  /** The attractions of the first k edges of a reply, summed. */
  function TotalAttraction(parts: seq<real>, k: nat): Float
    requires 2 * k < |parts|
  {
    if k == 0 then Finite(0.0)
    else Plus(TotalAttraction(parts, k - 1), Attraction(parts[2 * k - 1], parts[2 * k]))
  }

  /** The probabilities of choosing one of 1, ..., k. */
  function Cumulative(probabilities: map<nat, Float>, k: nat): Float
    requires forall j: nat :: 1 <= j <= k ==> j in probabilities
  {
    if k == 0 then Finite(0.0) else Plus(Cumulative(probabilities, k - 1), probabilities[k])
  }

  /** The wheel stops at i: the first of the accumulated probabilities that the draw is below, or the
      last one. */
  ghost predicate StopsAt(probabilities: map<nat, Float>, size: nat, random: real, i: nat)
    requires forall j: nat :: 1 <= j <= size ==> j in probabilities
  {
    && 1 <= i <= size
    && (forall j: nat :: 1 <= j < i ==> !Less(random, Cumulative(probabilities, j)))
    && (i < size ==> Less(random, Cumulative(probabilities, i)))
  }

  /** Each edge in proportion to its attraction. */
  function Probabilities(parts: seq<real>, size: nat): map<nat, Float>
    requires 2 * size < |parts|
  {
    map j: nat | 1 <= j <= size :: Over(Attraction(parts[2 * j - 1], parts[2 * j]), TotalAttraction(parts, size))
  }

  // ---------- what the wheel does ----------

  /** A reply on at least one edge, with positive levels, and with weights that are distances. */
  ghost predicate Offer(parts: seq<real>, size: nat) {
    && size >= 1 && |parts| == 1 + 2 * size
    && forall j :: 1 <= j <= size ==> parts[2 * j - 1] > 0.0 && parts[2 * j] >= 0.0
  }

  /** One of the first k offered nodes lies in the place of the current one. */
  ghost predicate ZeroOffered(parts: seq<real>, k: nat)
    requires 2 * k < |parts|
  {
    exists j :: 1 <= j <= k && parts[2 * j] == 0.0
  }

  /** An edge attracts to a positive finite extent, or infinitely when it has no weight. */
  lemma AttractionIs(pheromone: real, weight: real)
    requires pheromone > 0.0 && weight >= 0.0
    ensures var a := Attraction(pheromone, weight);
            if weight == 0.0 then a == PlusInfinity else a.Finite? && a.value > 0.0
  {
    PowerPositive(pheromone, ALPHA);
    if weight == 0.0 {
      PowerOfInfinity(BETA);
    } else {
      Inverse(weight);
      PowerPositive(1.0 / weight, BETA);
      ProductPositive(Power(Finite(pheromone), ALPHA).value, Power(Finite(1.0 / weight), BETA).value);
    }
  }

  lemma Inverse(weight: real)
    requires weight > 0.0
    ensures 1.0 / weight > 0.0
  {
  }

  lemma {:induction false} PowerOfInverse(w: real, n: nat)
    requires w > 0.0
    ensures Power(Finite(1.0 / w), n).Finite? && Power(Finite(w), n).Finite?
    ensures Power(Finite(1.0 / w), n).value * Power(Finite(w), n).value == 1.0
  {
    Inverse(w);
    if n > 0 {
      PowerOfInverse(w, n - 1);
      PowerPositive(w, n - 1);
      PowerPositive(1.0 / w, n - 1);
      Paired(1.0 / w, w, Power(Finite(1.0 / w), n - 1).value, Power(Finite(w), n - 1).value);
    }
  }

  lemma Paired(u: real, w: real, p: real, q: real)
    requires u * w == 1.0 && p * q == 1.0
    ensures (u * p) * (w * q) == 1.0
  {
    assert (u * p) * (w * q) == (u * w) * (p * q);
  }

  lemma FifthPower(w: real)
    ensures Power(Finite(w), 5) == Finite(w * (w * (w * (w * w))))
  {
    assert Power(Finite(w), 1) == Finite(w);
    assert Power(Finite(w), 2) == Finite(w * w);
    assert Power(Finite(w), 3) == Finite(w * (w * w));
    assert Power(Finite(w), 4) == Finite(w * (w * (w * w)));
  }

  /** An edge attracts in proportion to its level, and inversely to the fifth power of its weight: the
      attraction times that power is the level. */
  lemma AttractionIsLevelOverFifthPower(level: real, w: real)
    requires w > 0.0
    ensures Attraction(level, w).Finite?
    ensures Attraction(level, w).value * (w * (w * (w * (w * w)))) == level
  {
    Inverse(w);
    PowerOfInverse(w, 5);
    FifthPower(w);
    assert Power(Finite(level), 1) == Finite(level);
    var p, q := Power(Finite(1.0 / w), 5).value, w * (w * (w * (w * w)));
    assert Attraction(level, w) == Finite(level * p);
    Cancels(level, p, q);
  }

  lemma Cancels(x: real, p: real, q: real)
    requires p * q == 1.0
    ensures (x * p) * q == x
  {
    assert (x * p) * q == x * (p * q);
  }

  /** So do all edges together. */
  lemma {:induction false} TotalIs(parts: seq<real>, size: nat, k: nat)
    requires Offer(parts, size) && k <= size
    ensures if ZeroOffered(parts, k) then TotalAttraction(parts, k) == PlusInfinity
            else TotalAttraction(parts, k).Finite? && TotalAttraction(parts, k).value >= 0.0
    ensures k >= 1 && !ZeroOffered(parts, k) ==> TotalAttraction(parts, k).value > 0.0
  {
    if k >= 1 {
      TotalIs(parts, size, k - 1);
      AttractionIs(parts[2 * k - 1], parts[2 * k]);
    }
  }

  lemma {:induction false} ProbabilityIs(parts: seq<real>, size: nat, k: nat)
    requires Offer(parts, size) && 1 <= k <= size
    ensures var a, total, p := Attraction(parts[2 * k - 1], parts[2 * k]), TotalAttraction(parts, size),
                               Probabilities(parts, size)[k];
            if ZeroOffered(parts, size) then p == Finite(0.0) || p == NaN
            else a.Finite? && a.value > 0.0 && total.Finite? && total.value > 0.0 && p == Finite(a.value / total.value)
  {
    TotalIs(parts, size, size);
    AttractionIs(parts[2 * k - 1], parts[2 * k]);
  }

  /** With an infinite total no accumulated probability is above zero. */
  lemma {:induction false} NothingAbove(parts: seq<real>, size: nat, k: nat)
    requires Offer(parts, size) && ZeroOffered(parts, size) && k <= size
    ensures var c := Cumulative(Probabilities(parts, size), k); c == Finite(0.0) || c == NaN
  {
    if k >= 1 {
      NothingAbove(parts, size, k - 1);
      ProbabilityIs(parts, size, k);
    }
  }

  /** An offered weight of zero makes the wheel stop at the last offered node, whatever the draw. */
  lemma StopsAtLast(parts: seq<real>, size: nat, random: real, i: nat)
    requires Offer(parts, size) && ZeroOffered(parts, size) && 0.0 <= random < 1.0
    ensures StopsAt(Probabilities(parts, size), size, random, i) <==> i == size
  {
    forall k: nat | 1 <= k <= size ensures !Less(random, Cumulative(Probabilities(parts, size), k)) {
      NothingAbove(parts, size, k);
    }
  }

  /** The share of the first k offered nodes in the total attraction. */
  function Share(parts: seq<real>, size: nat, k: nat): real
    requires k <= size && 2 * size < |parts|
    requires TotalAttraction(parts, k).Finite?
    requires TotalAttraction(parts, size).Finite? && TotalAttraction(parts, size).value != 0.0
  {
    TotalAttraction(parts, k).value / TotalAttraction(parts, size).value
  }

  lemma SumOfQuotients(x: real, y: real, d: real)
    requires d != 0.0
    ensures x / d + y / d == (x + y) / d
  {
    QuotientTimes(x, d);
    QuotientTimes(y, d);
    QuotientIs(x + y, d, x / d + y / d);
  }

  /** Otherwise the accumulated probabilities are these shares: they grow from zero to one. */
  lemma {:induction false} Accumulates(parts: seq<real>, size: nat, k: nat)
    requires Offer(parts, size) && !ZeroOffered(parts, size) && k <= size
    ensures TotalAttraction(parts, k).Finite?
    ensures TotalAttraction(parts, size).Finite? && TotalAttraction(parts, size).value > 0.0
    ensures Cumulative(Probabilities(parts, size), k) == Finite(Share(parts, size, k))
  {
    TotalIs(parts, size, k);
    TotalIs(parts, size, size);
    if k >= 1 {
      Accumulates(parts, size, k - 1);
      ProbabilityIs(parts, size, k);
      var a, total := Attraction(parts[2 * k - 1], parts[2 * k]).value, TotalAttraction(parts, size).value;
      SumOfQuotients(TotalAttraction(parts, k - 1).value, a, total);
    }
  }

  lemma ShareGrows(parts: seq<real>, size: nat, k: nat)
    requires Offer(parts, size) && !ZeroOffered(parts, size) && 1 <= k <= size
    ensures TotalAttraction(parts, k - 1).Finite? && TotalAttraction(parts, k).Finite?
    ensures TotalAttraction(parts, size).Finite? && TotalAttraction(parts, size).value > 0.0
    ensures 0.0 <= Share(parts, size, k - 1) < Share(parts, size, k)
    ensures Share(parts, size, size) == 1.0
  {
    TotalIs(parts, size, k - 1);
    TotalIs(parts, size, k);
    TotalIs(parts, size, size);
    AttractionIs(parts[2 * k - 1], parts[2 * k]);
    var x, y, d := TotalAttraction(parts, k - 1).value, TotalAttraction(parts, k).value,
                   TotalAttraction(parts, size).value;
    QuotientGrows(x, y, d);
  }

  lemma QuotientGrows(x: real, y: real, d: real)
    requires 0.0 <= x < y && 0.0 < d
    ensures 0.0 <= x / d < y / d
    ensures d / d == 1.0
  {
    QuotientIs(d, d, 1.0);
    QuotientBetween(x, d, 0.0, x / d);
    QuotientTimes(x, d);
    QuotientTimes(y, d);
    if x / d >= y / d {
      MulMono(y / d, x / d, d);
    }
  }

  /** The shares as a function, for as long as they are shares. */
  ghost function ShareOf(parts: seq<real>, size: nat): nat -> real
    requires Offer(parts, size) && !ZeroOffered(parts, size)
  {
    TotalIs(parts, size, size);
    (k: nat) => if k <= size && TotalAttraction(parts, k).Finite? then Share(parts, size, k) else 0.0
  }

  lemma {:induction false} ShareOfIs(parts: seq<real>, size: nat, k: nat)
    requires Offer(parts, size) && !ZeroOffered(parts, size) && k <= size
    ensures TotalAttraction(parts, k).Finite?
    ensures TotalAttraction(parts, size).Finite? && TotalAttraction(parts, size).value > 0.0
    ensures ShareOf(parts, size)(k) == Share(parts, size, k)
  {
    TotalIs(parts, size, k);
    TotalIs(parts, size, size);
  }

  ghost predicate Grows(share: nat -> real, size: nat) {
    share(0) == 0.0 && share(size) == 1.0 && forall k: nat :: k < size ==> share(k) < share(k + 1)
  }

  lemma {:induction false} Ordered(share: nat -> real, size: nat, j: nat, k: nat)
    requires Grows(share, size) && j <= k <= size
    ensures share(j) <= share(k)
    decreases k
  {
    if j < k {
      Ordered(share, size, j, k - 1);
    }
  }

  lemma SharesGrow(parts: seq<real>, size: nat)
    requires Offer(parts, size) && !ZeroOffered(parts, size)
    ensures Grows(ShareOf(parts, size), size)
    ensures forall k: nat :: k <= size ==> Cumulative(Probabilities(parts, size), k) == Finite(ShareOf(parts, size)(k))
  {
    var share := ShareOf(parts, size);
    TotalIs(parts, size, size);
    QuotientIs(0.0, TotalAttraction(parts, size).value, 0.0);
    forall k: nat | k < size ensures share(k) < share(k + 1) {
      ShareGrows(parts, size, k + 1);
    }
    ShareGrows(parts, size, size);
    forall k: nat | k <= size ensures Cumulative(Probabilities(parts, size), k) == Finite(share(k)) {
      Accumulates(parts, size, k);
    }
  }

  /** A wheel whose accumulated probabilities grow from zero to one stops where the draw lies. */
  lemma {:induction false} StopsWhere(p: map<nat, Float>, size: nat, share: nat -> real, random: real, i: nat)
    requires forall j: nat :: 1 <= j <= size ==> j in p
    requires Grows(share, size) && forall k: nat :: k <= size ==> Cumulative(p, k) == Finite(share(k))
    requires 0.0 <= random < 1.0 && 1 <= i <= size
    ensures StopsAt(p, size, random, i) <==> share(i - 1) <= random < share(i)
  {
    forall j: nat | j <= i - 1 ensures share(j) <= share(i - 1) {
      Ordered(share, size, j, i - 1);
    }
    assert i > 1 && StopsAt(p, size, random, i) ==> !Less(random, Cumulative(p, i - 1));
  }

  /** With no weight zero the draws for a node are those of an interval, as long as its share of the
      attraction. */
  lemma StopsInShare(parts: seq<real>, size: nat, random: real, i: nat)
    requires Offer(parts, size) && !ZeroOffered(parts, size) && 0.0 <= random < 1.0 && 1 <= i <= size
    ensures TotalAttraction(parts, i - 1).Finite? && TotalAttraction(parts, i).Finite?
    ensures TotalAttraction(parts, size).Finite? && TotalAttraction(parts, size).value > 0.0
    ensures StopsAt(Probabilities(parts, size), size, random, i) <==>
              Share(parts, size, i - 1) <= random < Share(parts, size, i)
  {
    ShareOfIs(parts, size, i - 1);
    ShareOfIs(parts, size, i);
    SharesGrow(parts, size);
    StopsWhere(Probabilities(parts, size), size, ShareOf(parts, size), random, i);
  }

  /** The draw picks the i-th of the offered nodes. */
  ghost predicate Picks(parts: seq<real>, size: nat, random: real, i: nat)
    requires 2 * size < |parts|
  {
    0.0 <= random < 1.0 && StopsAt(Probabilities(parts, size), size, random, i)
  }

  ghost predicate HasChance(parts: seq<real>, size: nat, i: nat)
    requires 2 * size < |parts|
  {
    exists random :: Picks(parts, size, random, i)
  }

  lemma ShareIsChance(parts: seq<real>, size: nat, i: nat)
    requires Offer(parts, size) && !ZeroOffered(parts, size) && 1 <= i <= size
    ensures HasChance(parts, size, i)
  {
    var p, share := Probabilities(parts, size), ShareOf(parts, size);
    SharesGrow(parts, size);
    Ordered(share, size, 0, i - 1);
    Ordered(share, size, i, size);
    var random := share(i - 1);
    assert share(i - 1) < share(i - 1 + 1);
    StopsWhere(p, size, share, random, i);
    assert Picks(parts, size, random, i);
  }

  lemma OnlyLastHasChance(parts: seq<real>, size: nat)
    requires Offer(parts, size) && ZeroOffered(parts, size)
    ensures forall i :: 1 <= i <= size ==> (HasChance(parts, size, i) <==> i == size)
  {
    StopsAtLast(parts, size, 0.0, size);
    assert Picks(parts, size, 0.0, size);
    forall i, random | 1 <= i <= size && Picks(parts, size, random, i) ensures i == size {
      StopsAtLast(parts, size, random, i);
    }
  }

  /** The roulette gives every offered node a chance, exactly when no offered weight is zero or there is
      only one node on offer. */
  lemma WheelIsFair(parts: seq<real>, size: nat)
    requires Offer(parts, size)
    ensures (forall i :: 1 <= i <= size ==> HasChance(parts, size, i))
       <==> (ZeroOffered(parts, size) ==> size == 1)
  {
    if ZeroOffered(parts, size) {
      OnlyLastHasChance(parts, size);
      assert HasChance(parts, size, 1) <==> 1 == size;
    } else {
      forall i | 1 <= i <= size ensures HasChance(parts, size, i) {
        ShareIsChance(parts, size, i);
      }
    }
  }

  // ---------- the tables of the program ----------

  ghost predicate Table<T>(m: map<nat, T>, size: nat) {
    forall j: nat :: j in m <==> 1 <= j <= size
  }

  ghost predicate Attractions(values: map<nat, Float>, parts: seq<real>, size: nat)
    requires 2 * size < |parts|
  {
    Table(values, size)
    && forall j: nat :: 1 <= j <= size ==> values[j] == Attraction(parts[2 * j - 1], parts[2 * j])
  }

  ghost predicate EdgeWeights(weights: map<nat, real>, parts: seq<real>, size: nat)
    requires 2 * size < |parts|
  {
    Table(weights, size) && forall j: nat :: 1 <= j <= size ==> weights[j] == parts[2 * j]
  }

  /** The first k pairs of words, read. */
  ghost predicate Read(values: map<nat, Float>, weights: map<nat, real>, sum: Float, parts: seq<real>, k: nat)
    requires 2 * k < |parts|
  {
    Attractions(values, parts, k) && EdgeWeights(weights, parts, k) && sum == TotalAttraction(parts, k)
  }

  /** One more pair of words. */
  lemma ReadsOn(values: map<nat, Float>, weights: map<nat, real>, sum: Float, parts: seq<real>, k: nat,
                value: Float, weight: real)
    requires 2 * k + 2 < |parts| && Read(values, weights, sum, parts, k)
    requires value == Attraction(parts[2 * k + 1], parts[2 * k + 2]) && weight == parts[2 * k + 2]
    ensures Read(values[k + 1 := value], weights[k + 1 := weight], Plus(sum, value), parts, k + 1)
  {
  }

  ghost predicate Normalized(probabilities: map<nat, Float>, values: map<nat, Float>, sum: Float, size: nat) {
    Table(values, size) && Table(probabilities, size)
    && forall j: nat :: 1 <= j <= size ==> probabilities[j] == Over(values[j], sum)
  }

  lemma {:induction false} NormalizedAre(probabilities: map<nat, Float>, values: map<nat, Float>, parts: seq<real>,
                                         size: nat)
    requires 2 * size < |parts| && Attractions(values, parts, size)
    requires Normalized(probabilities, values, TotalAttraction(parts, size), size)
    ensures probabilities == Probabilities(parts, size)
  {
  }
}
