/** What the ant and the map agent say to each other, and what a tour is. */
module Colony {

  import opened Sequences

  /** What the ant receives. The reply on pheromone levels is a list of words: the header at position 0,
      then for each node asked about, in the order of the question, its pheromone level and its edge
      weight. */
  datatype ToAnt =
    | Size(n: nat)
    | NoMoreTours
    | Levels(parts: seq<real>)
    | Weight(weight: real)
    | Nudge

  /** What the map receives. */
  datatype ToMap =
    | AskLevels(from: nat, to: seq<nat>)
    | AskWeight(from: nat, to1: nat)
    | UpdateBestTour(weight: real, tour: seq<nat>)
    | UpdatePheromone(from: nat, to1: nat, keep: real, add: real)

  const HEADER := 0.0

  /** Evaporation of the pheromone on a reported tour. */
  const RO := 0.1

  /** The weights of a path's edges, summed. */
  function PathWeight(weight: (nat, nat) -> real, path: seq<nat>): real
  {
    if |path| < 2 then 0.0
    else
      var n := |path| - 1;
      PathWeight(weight, path[..n]) + weight(path[n - 1], path[n])
  }

  /** All nodes of a map of size n, each once, and back to the first one. */
  ghost predicate ClosedTour(tour: seq<nat>, n: nat) {
    && |tour| == n + 1 && n > 0
    && (forall k :: 0 <= k <= n ==> tour[k] < n)
    && Distinct(tour[..n])
    && tour[n] == tour[0]
  }

  /** The nodes below n that are not on the tour, in ascending order. */
  function Unvisited(tour: seq<nat>, n: nat): (r: seq<nat>)
    ensures forall x: nat :: x in r <==> x < n && x !in tour
  {
    if n == 0 then []
    else Unvisited(tour, n - 1) + if n - 1 in tour then [] else [n - 1]
  }

  lemma UnvisitedStep(tour: seq<nat>, n: nat)
    ensures Unvisited(tour, n + 1) == Unvisited(tour, n) + if n in tour then [] else [n]
  {
  }

  /** In ascending order. */
  lemma {:induction false} UnvisitedAscends(tour: seq<nat>, n: nat)
    ensures forall i, j :: 0 <= i < j < |Unvisited(tour, n)| ==> Unvisited(tour, n)[i] < Unvisited(tour, n)[j]
  {
    if n > 0 {
      UnvisitedAscends(tour, n - 1);
      var before := Unvisited(tour, n - 1);
      forall k | 0 <= k < |before| ensures before[k] < n - 1 {
        assert before[k] in before;
      }
    }
  }

  /** The weight of a single edge, and of two paths with a node in common. */
  lemma {:induction false} PathWeightAdds(weight: (nat, nat) -> real, p: seq<nat>, x: nat, q: seq<nat>)
    ensures PathWeight(weight, p + [x] + q) == PathWeight(weight, p + [x]) + PathWeight(weight, [x] + q)
    ensures forall y :: PathWeight(weight, [x, y]) == weight(x, y)
    decreases |q|
  {
    forall y ensures PathWeight(weight, [x, y]) == weight(x, y) {
      assert [x, y][..1] == [x];
    }
    if q == [] {
      assert p + [x] + q == p + [x] && [x] + q == [x];
    } else {
      var n := |q| - 1;
      PathWeightAdds(weight, p, x, q[..n]);
      var whole, tail := p + [x] + q, [x] + q;
      assert whole[..|whole| - 1] == p + [x] + q[..n] && tail[..|tail| - 1] == [x] + q[..n];
      assert whole[|whole| - 2] == tail[|tail| - 2] && whole[|whole| - 1] == tail[|tail| - 1];
    }
  }

  // ---------- a tour visits everything ----------

  function Below(n: nat): (r: set<nat>)
    ensures forall x: nat :: x in r <==> x < n
    ensures |r| == n
  {
    if n == 0 then {} else Below(n - 1) + {n - 1}
  }

  function Elements(s: seq<nat>): (r: set<nat>)
    ensures forall x :: x in r <==> x in s
    ensures |r| <= |s|
    ensures Distinct(s) ==> |r| == |s|
  {
    if s == [] then {}
    else
      var m := |s| - 1;
      assert s == s[..m] + [s[m]];
      Elements(s[..m]) + {s[m]}
  }

  lemma {:induction false} SubsetSize(a: set<nat>, b: set<nat>)
    requires a <= b
    ensures |a| <= |b|
    decreases a
  {
    if a != {} {
      var x :| x in a;
      SubsetSize(a - {x}, b - {x});
    }
  }

  lemma DistinctBound(s: seq<nat>, n: nat)
    requires Distinct(s) && forall k :: 0 <= k < |s| ==> s[k] < n
    ensures |s| <= n
  {
    assert Elements(s) <= Below(n);
    SubsetSize(Elements(s), Below(n));
  }

  /** So a closed tour visits every node. */
  lemma ClosedTourVisitsAll(tour: seq<nat>, n: nat, x: nat)
    requires ClosedTour(tour, n) && x < n
    ensures x in tour[..n]
  {
    if x !in tour[..n] {
      var longer := tour[..n] + [x];
      DistinctBound(longer, n);
    }
  }

  /** While fewer than n nodes are visited, some node is left. */
  lemma {:induction false} SomeUnvisited(tour: seq<nat>, n: nat)
    requires |tour| < n
    ensures Unvisited(tour, n) != []
  {
    if Unvisited(tour, n) == [] {
      assert Below(n) <= Elements(tour);
      SubsetSize(Below(n), Elements(tour));
    }
  }
}
