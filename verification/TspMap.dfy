/** The map agent: the pheromones, the best tour reported so far and the rule that stops the search. */
module TspMap {

  import opened AntTour
  import opened Colony
  import opened Reals

  /** The largest float: the weight of no tour at all. */
  const MAX_WEIGHT := 340282346638528859811704183484516925440.0

  const MAX_STATIONARY_ITERATIONS := 500

  /** One report that reaches the map. */
  datatype Report = Report(weight: real, tour: seq<nat>)

  // ---------- the best tour ----------

  datatype Search = Search(bestWeight: real, bestTour: seq<nat>, stationary: nat, done: bool)

  const FRESH := Search(MAX_WEIGHT, [], 0, false)

  /** Nodes are counted from 1 in the best tour. */
  function FromOne(tour: seq<nat>): (r: seq<nat>)
    ensures |r| == |tour| && forall k :: 0 <= k < |tour| ==> r[k] == tour[k] + 1
  {
    if tour == [] then [] else FromOne(tour[..|tour| - 1]) + [tour[|tour| - 1] + 1]
  }

  function OnReport(s: Search, r: Report): Search {
    if s.stationary >= MAX_STATIONARY_ITERATIONS then s.(done := true)
    else if s.bestWeight > r.weight then Search(r.weight, FromOne(r.tour), 0, s.done)
    else s.(stationary := s.stationary + 1)
  }

  function OnReports(s: Search, rs: seq<Report>): Search
  {
    if rs == [] then s else OnReport(OnReports(s, rs[..|rs| - 1]), rs[|rs| - 1])
  }

  function Lightest(rs: seq<Report>): real
  {
    if rs == [] then MAX_WEIGHT
    else
      var before := Lightest(rs[..|rs| - 1]);
      if before > rs[|rs| - 1].weight then rs[|rs| - 1].weight else before
  }

  /** How many of the last reports were no lighter than all before them. */
  function Stale(rs: seq<Report>): (k: nat)
    ensures k <= |rs|
  {
    if rs == [] then 0
    else
      var n := |rs| - 1;
      if Lightest(rs[..n]) > rs[n].weight then 0 else Stale(rs[..n]) + 1
  }

  /** The number of reports that the map takes notice of: all of them, or those up to the first moment
      at which the last 500 had brought no improvement. */
  function Accepted(rs: seq<Report>): (k: nat)
    ensures k <= |rs|
  {
    if rs == [] then 0
    else
      var n := |rs| - 1;
      var k := Accepted(rs[..n]);
      if k == n && Stale(rs[..n]) < MAX_STATIONARY_ITERATIONS then k + 1 else k
  }

  lemma {:induction false} LightestIs(rs: seq<Report>)
    ensures forall r :: r in rs ==> Lightest(rs) <= r.weight
    ensures Lightest(rs) <= MAX_WEIGHT
    ensures Lightest(rs) == MAX_WEIGHT || exists r :: r in rs && r.weight == Lightest(rs)
  {
    if rs != [] {
      var n := |rs| - 1;
      LightestIs(rs[..n]);
      assert rs == rs[..n] + [rs[n]];
      if Lightest(rs) != MAX_WEIGHT && Lightest(rs) != rs[n].weight {
        var r :| r in rs[..n] && r.weight == Lightest(rs[..n]);
        assert r in rs;
      }
    }
  }

  /** The search after all reports, in terms of those accepted. */
  ghost predicate Sums(s: Search, accepted: seq<Report>) {
    && s.bestWeight == Lightest(accepted) && s.stationary == Stale(accepted)
    && (if Lightest(accepted) == MAX_WEIGHT then s.bestTour == []
        else exists r :: r in accepted && r.weight == s.bestWeight && s.bestTour == FromOne(r.tour))
  }

  lemma {:induction false} SumsStep(s: Search, rs: seq<Report>, r: Report)
    requires Sums(s, rs) && Stale(rs) < MAX_STATIONARY_ITERATIONS
    ensures Sums(OnReport(s, r), rs + [r])
  {
    var longer := rs + [r];
    assert longer[..|rs|] == rs;
    LightestIs(rs);
    if s.bestWeight > r.weight {
      assert r in longer;
    } else if Lightest(rs) != MAX_WEIGHT {
      var q :| q in rs && q.weight == s.bestWeight && s.bestTour == FromOne(q.tour);
      assert q in longer;
    }
  }

  /** For any reports: the best weight is the least of those accepted and belongs to the best tour;
      the accepted reports are the first ones, and once one is dropped all later ones are, after 500
      in a row without an improvement. */
  lemma {:induction false} BestOfAccepted(rs: seq<Report>)
    ensures var s, k := OnReports(FRESH, rs), Accepted(rs);
            && Sums(s, rs[..k])
            && (k < |rs| ==> Stale(rs[..k]) == 500)
            && (s.done <==> k < |rs|)
  {
    if rs != [] {
      var n := |rs| - 1;
      var init := rs[..n];
      BestOfAccepted(init);
      var k := Accepted(init);
      if k == n {
        assert init[..k] == init && rs == init + [rs[n]] && rs[..n + 1] == rs;
        StaleBound(init);
        if Stale(init) < MAX_STATIONARY_ITERATIONS {
          SumsStep(OnReports(FRESH, init), init, rs[n]);
        }
      } else {
        assert rs[..k] == init[..k];
      }
    }
  }

  /** While all reports are accepted the count stays within its limit. */
  lemma {:induction false} StaleBound(rs: seq<Report>)
    requires Accepted(rs) == |rs|
    ensures Stale(rs) <= MAX_STATIONARY_ITERATIONS
  {
    if rs != [] {
      StaleBound(rs[..|rs| - 1]);
    }
  }

  // ---------- the pheromones ----------

  /** The messages that change pheromones, from any number of ants. */
  datatype Change =
    | Evaporate(i: nat, j: nat, keep: real, add: real)
    | EvaporateLocally(i: nat, j: nat, ksi: real)

  type Levels = map<(nat, nat), real>

  /** The new level of the edge that a message is about. */
  function NewLevel(level: real, tau0: real, c: Change): real {
    match c
    case Evaporate(_, _, keep, add) => keep * level + add
    case EvaporateLocally(_, _, ksi) => (1.0 - ksi) * level + ksi * tau0
  }

  function OnChange(p: Levels, tau0: real, c: Change): Levels
    requires (c.i, c.j) in p
  {
    p[(c.i, c.j) := NewLevel(p[(c.i, c.j)], tau0, c)]
  }

  /** The updates that ants send: with the evaporation rate, and the inverse of the weight of a tour
      that was reported. */
  ghost predicate FromAnt(c: Change, rs: seq<Report>) {
    match c
    case Evaporate(_, _, keep, add) => keep == 1.0 - RO && exists r :: r in rs && ByTour(add, r)
    case EvaporateLocally(_, _, ksi) => 0.0 <= ksi < 1.0
  }

  ghost predicate ByTour(add: real, r: Report) {
    r.weight > 0.0 && add == RO * (1.0 / r.weight)
  }

  ghost predicate Within(p: Levels, bound: real) {
    forall e :: e in p ==> 0.0 < p[e] <= bound
  }

  ghost predicate ChangesFromAnts(p: Levels, cs: seq<Change>, rs: seq<Report>) {
    forall c :: c in cs ==> (c.i, c.j) in p && FromAnt(c, rs)
  }

  function OnChanges(p: Levels, tau0: real, cs: seq<Change>): (q: Levels)
    requires forall c :: c in cs ==> (c.i, c.j) in p
    ensures q.Keys == p.Keys
  {
    if cs == [] then p else OnChange(OnChanges(p, tau0, cs[..|cs| - 1]), tau0, cs[|cs| - 1])
  }

  lemma Inverses(v: real, w: real)
    requires 0.0 < v <= w
    ensures 0.0 < 1.0 / w <= 1.0 / v
  {
    var x, y := 1.0 / v, 1.0 / w;
    assert x * v == 1.0 && y * w == 1.0;
    assert 0.0 < y;
    if y > x {
      InverseOrder(x, y, v, w);
    }
  }

  lemma InverseOrder(x: real, y: real, v: real, w: real)
    requires 0.0 < v <= w && x < y && 0.0 < y
    ensures x * v < y * w
  {
    assert x * v < y * v;
    assert y * v <= y * w;
  }

  /** A mean of two levels within the bound is within the bound. */
  lemma Mixed(p: real, q: real, k: real, bound: real)
    requires 0.0 < p <= bound && 0.0 < q <= bound && 0.0 <= k < 1.0
    ensures 0.0 < (1.0 - k) * p + k * q <= bound
  {
    var r := 1.0 - k;
    MulMono(p, bound, r);
    MulMono(q, bound, k);
    MulMono(0.0, q, k);
    MulMonoStrict(0.0, p, r);
    MixedSum(p * r, q * k, bound * r, bound * k, bound, r, k);
  }

  lemma MixedSum(rp: real, kq: real, rb: real, kb: real, bound: real, r: real, k: real)
    requires 0.0 < rp <= rb && 0.0 <= kq <= kb && rb == r * bound && kb == k * bound && r + k == 1.0
    ensures 0.0 < rp + kq <= bound
  {
    assert rb + kb == (r + k) * bound;
  }

  lemma NewLevelWithin(level: real, tau0: real, c: Change, rs: seq<Report>, lightest: real)
    requires tau0 > 0.0 && lightest > 0.0 && FromAnt(c, rs)
    requires forall r :: r in rs ==> r.weight >= lightest
    requires 0.0 < level <= Max(tau0, 1.0 / lightest)
    ensures 0.0 < NewLevel(level, tau0, c) <= Max(tau0, 1.0 / lightest)
  {
    var bound := Max(tau0, 1.0 / lightest);
    match c
    case Evaporate(_, _, keep, add) =>
      var r :| r in rs && ByTour(add, r);
      Inverses(lightest, r.weight);
      Mixed(level, 1.0 / r.weight, RO, bound);
    case EvaporateLocally(_, _, ksi) =>
      Mixed(level, tau0, ksi, bound);
  }

  lemma ChangeWithin(p: Levels, tau0: real, c: Change, rs: seq<Report>, lightest: real)
    requires tau0 > 0.0 && lightest > 0.0 && (c.i, c.j) in p && FromAnt(c, rs)
    requires forall r :: r in rs ==> r.weight >= lightest
    requires Within(p, Max(tau0, 1.0 / lightest))
    ensures Within(OnChange(p, tau0, c), Max(tau0, 1.0 / lightest))
  {
    NewLevelWithin(p[(c.i, c.j)], tau0, c, rs, lightest);
  }

  lemma {:induction false} ChangesWithin(p: Levels, tau0: real, cs: seq<Change>, rs: seq<Report>, lightest: real)
    requires tau0 > 0.0 && lightest > 0.0 && ChangesFromAnts(p, cs, rs)
    requires forall r :: r in rs ==> r.weight >= lightest
    requires Within(p, Max(tau0, 1.0 / lightest))
    ensures Within(OnChanges(p, tau0, cs), Max(tau0, 1.0 / lightest))
  {
    if cs != [] {
      var n := |cs| - 1;
      assert cs == cs[..n] + [cs[n]];
      ChangesWithin(p, tau0, cs[..n], rs, lightest);
      assert cs[n] in cs;
      ChangeWithin(OnChanges(p, tau0, cs[..n]), tau0, cs[n], rs, lightest);
    }
  }

  /** Where a change pulls a level: an ant's update to the inverse of its tour's weight, a local one back
      to the initial level. */
  ghost predicate PullsTo(c: Change, tau0: real, target: real) {
    match c
    case Evaporate(_, _, keep, add) => keep == 1.0 - RO && add == RO * target
    case EvaporateLocally(_, _, ksi) => target == tau0 && 0.0 < ksi < 1.0
  }

  lemma StrictlyMixed(p: real, q: real, k: real)
    requires 0.0 < k < 1.0
    ensures p < q ==> p < (1.0 - k) * p + k * q < q
    ensures q < p ==> q < (1.0 - k) * p + k * q < p
    ensures p == q ==> (1.0 - k) * p + k * q == p
  {
    var r, d := 1.0 - k, q - p;
    FromEitherEnd(p, q, k, d * k, d * r);
    ProductSigns(d, k);
    ProductSigns(d, r);
  }

  lemma FromEitherEnd(p: real, q: real, k: real, up: real, down: real)
    requires up == (q - p) * k && down == (q - p) * (1.0 - k)
    ensures (1.0 - k) * p + k * q == p + up
    ensures p + up == q - down
  {
  }

  lemma ProductSigns(x: real, y: real)
    requires 0.0 < y
    ensures 0.0 < x ==> 0.0 < x * y
    ensures x < 0.0 ==> x * y < 0.0
    ensures x == 0.0 ==> x * y == 0.0
  {
  }

  /** Every change moves a level towards its target, without reaching it. */
  lemma LevelsMoveToTarget(level: real, tau0: real, c: Change, target: real)
    requires PullsTo(c, tau0, target)
    ensures var after := NewLevel(level, tau0, c);
            && (level < target ==> level < after < target)
            && (target < level ==> target < after < level)
            && (level == target ==> after == level)
  {
    match c
    case Evaporate(_, _, _, _) => StrictlyMixed(level, target, RO);
    case EvaporateLocally(_, _, ksi) => StrictlyMixed(level, target, ksi);
  }

  /** Every change shrinks the distance to the target by one factor: what an ant's update keeps, or what
      local evaporation leaves. */
  lemma DistanceShrinks(level: real, tau0: real, c: Change, target: real)
    requires PullsTo(c, tau0, target)
    ensures var keep := if c.Evaporate? then c.keep else 1.0 - c.ksi;
            NewLevel(level, tau0, c) - target == keep * (level - target)
  {
    match c
    case Evaporate(_, _, _, _) =>
    case EvaporateLocally(_, _, ksi) =>
      assert (1.0 - ksi) * level + ksi * tau0 - tau0 == (1.0 - ksi) * (level - tau0);
  }

  /** Over any run every pheromone stays positive, and at most the larger of the initial level and the
      inverse of the lightest reported tour. */
  lemma {:induction false} PheromoneBounds(p: Levels, tau0: real, cs: seq<Change>, rs: seq<Report>)
    requires tau0 > 0.0 && (forall e :: e in p ==> p[e] == tau0)
    requires ChangesFromAnts(p, cs, rs) && forall r :: r in rs ==> r.weight > 0.0
    ensures Lightest(rs) > 0.0
    ensures Within(OnChanges(p, tau0, cs), Max(tau0, 1.0 / Lightest(rs)))
  {
    LightestIs(rs);
    ChangesWithin(p, tau0, cs, rs, Lightest(rs));
  }

  // ---------- the map as the program updates it ----------

  /** The weights from i to the nodes below j, and all weights from the nodes below i. */
  function RowSum(weight: (nat, nat) -> real, i: nat, j: nat): real {
    if j == 0 then 0.0 else RowSum(weight, i, j - 1) + weight(i, j - 1)
  }

  function AllSum(weight: (nat, nat) -> real, i: nat, n: nat): real {
    if i == 0 then 0.0 else AllSum(weight, i - 1, n) + RowSum(weight, i - 1, n)
  }

  function LevelAt(p: Levels): (nat, nat) -> real {
    (i, j) => if (i, j) in p then p[(i, j)] else 0.0
  }

  lemma AverageTimesSize(sum: real, n: nat)
    requires n > 0
    ensures n as real * (n as real * (sum / (n as real * n as real))) == sum
  {
    var m := n as real;
    var a := sum / (m * m);
    assert a * (m * m) == sum;
    assert m * (m * a) == a * (m * m);
  }

  class MapBean {
    const n: nat
    const weight: (nat, nat) -> real
    var tau0: real
    var pheromone: array2<real>
    var bestTourWeight: real
    var bestTour: seq<nat>
    var nIterationsBestTourNotUpdated: nat
    var done: bool

    ghost predicate Valid()
      reads this
    {
      pheromone.Length0 == n && pheromone.Length1 == n
    }

    ghost function Pheromones(): Levels
      requires Valid()
      reads this, pheromone
    {
      map i: nat, j: nat | i < n && j < n :: (i, j) := pheromone[i, j]
    }

    ghost function Found(): Search
      reads this
    {
      Search(bestTourWeight, bestTour, nIterationsBestTourNotUpdated, done)
    }

    /** A map whose nodes are not all in one place. */
    constructor (n: nat, weight: (nat, nat) -> real)
      requires n > 0 && AllSum(weight, n, n) != 0.0
      ensures Valid() && fresh(pheromone) && this.n == n && this.weight == weight
      ensures Found() == FRESH
      ensures tau0 == 1.0 / AllSum(weight, n, n)
      ensures forall e :: e in Pheromones() ==> Pheromones()[e] == tau0
    {
      this.n := n;
      this.weight := weight;
      pheromone := new real[n, n];
      bestTourWeight, bestTour, nIterationsBestTourNotUpdated, done := MAX_WEIGHT, [], 0, false;
      tau0 := 0.0;
      new;
      var average := GetAverageWeight();
      var c := n as real * average;
      AverageTimesSize(AllSum(weight, n, n), n);
      tau0 := 1.0 / (n as real * c);
      for i := 0 to n
        invariant Valid() && fresh(pheromone) && Found() == FRESH && tau0 == 1.0 / AllSum(weight, n, n)
        invariant forall k, l :: 0 <= k < i && 0 <= l < n ==> pheromone[k, l] == tau0
      {
        for j := 0 to n
          invariant Valid() && fresh(pheromone) && Found() == FRESH && tau0 == 1.0 / AllSum(weight, n, n)
          invariant forall k, l :: 0 <= k < i && 0 <= l < n ==> pheromone[k, l] == tau0
          invariant forall l :: 0 <= l < j ==> pheromone[i, l] == tau0
        {
          pheromone[i, j] := tau0;
        }
      }
    }

    method GetAverageWeight() returns (average: real)
      requires n > 0
      ensures average == AllSum(weight, n, n) / (n as real * n as real)
    {
      var result := 0.0;
      for i := 0 to n
        invariant result == AllSum(weight, i, n)
      {
        for j := 0 to n
          invariant result == AllSum(weight, i, n) + RowSum(weight, i, j)
        {
          result := result + weight(i, j);
        }
      }
      average := result / (n as real * n as real);
    }

    /** The answer to a question of an ant. */
    method OnRequest(m: ToMap) returns (reply: seq<ToAnt>)
      requires Valid() && (m.AskLevels? || m.AskWeight?)
      requires m.AskLevels? ==> m.from < n && forall k :: 0 <= k < |m.to| ==> m.to[k] < n
      ensures reply == Replies(weight, LevelAt(Pheromones()), [m])
    {
      ReplyTo(weight, LevelAt(Pheromones()), m);
      match m {
        case AskLevels(from, to) =>
          var words := LevelReply(from, to);
          reply := [Levels(words)];
        case AskWeight(from, to1) =>
          reply := [Weight(weight(from, to1))];
      }
    }

    method LevelReply(from: nat, to: seq<nat>) returns (words: seq<real>)
      requires Valid() && from < n && forall k :: 0 <= k < |to| ==> to[k] < n
      ensures words == LevelWords(weight, LevelAt(Pheromones()), from, to)
    {
      words := [HEADER];
      for k := 0 to |to|
        invariant words == LevelWords(weight, LevelAt(Pheromones()), from, to[..k])
      {
        assert to[..k + 1][..k] == to[..k];
        var level := GetPheromoneLevel(from, to[k]);
        words := words + [level, weight(from, to[k])];
      }
      assert to[..|to|] == to;
    }

    method OnUpdateBestTour(r: Report)
      modifies this`bestTourWeight, this`bestTour, this`nIterationsBestTourNotUpdated, this`done
      ensures Found() == OnReport(old(Found()), r)
    {
      if nIterationsBestTourNotUpdated >= MAX_STATIONARY_ITERATIONS {
        done := true;
        return;
      }
      nIterationsBestTourNotUpdated := nIterationsBestTourNotUpdated + 1;
      if bestTourWeight > r.weight {
        nIterationsBestTourNotUpdated := 0;
        bestTourWeight := r.weight;
        bestTour := [];
        for k := 0 to |r.tour|
          invariant bestTour == FromOne(r.tour[..k])
          invariant bestTourWeight == r.weight && nIterationsBestTourNotUpdated == 0 && done == old(done)
        {
          assert r.tour[..k + 1][..k] == r.tour[..k];
          bestTour := bestTour + [r.tour[k] + 1];
        }
        assert r.tour[..|r.tour|] == r.tour;
      }
    }

    method OnUpdatePheromone(c: Change)
      requires Valid() && c.i < n && c.j < n
      modifies pheromone
      ensures Valid() && Pheromones() == OnChange(old(Pheromones()), tau0, c)
    {
      var level := GetPheromoneLevel(c.i, c.j);
      SetPheromoneLevel(c.i, c.j, NewLevel(level, tau0, c));
    }

    method GetPheromoneLevel(i: nat, j: nat) returns (level: real)
      requires Valid() && i < n && j < n
      ensures level == Pheromones()[(i, j)]
    {
      level := pheromone[i, j];
    }

    method SetPheromoneLevel(i: nat, j: nat, val: real)
      requires Valid() && i < n && j < n
      modifies pheromone
      ensures Valid() && Pheromones() == old(Pheromones())[(i, j) := val]
    {
      pheromone[i, j] := val;
    }
  }
}
