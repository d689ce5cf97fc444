/** Which maps the search is for: when all closed tours have a weight, and the initial pheromone level is
    defined. */
module Distances {

  import opened AntTour
  import opened Colony
  import opened TspMap

  /** What is used of distances: they are not negative, and being in one place is an equivalence. */
  ghost predicate Distance(weight: (nat, nat) -> real, n: nat) {
    && (forall i: nat, j: nat :: i < n && j < n ==> weight(i, j) >= 0.0)
    && (forall i: nat :: i < n ==> weight(i, i) == 0.0)
    && (forall i: nat, j: nat :: i < n && j < n && weight(i, j) == 0.0 ==> weight(j, i) == 0.0)
    && (forall i: nat, j: nat, k: nat :: i < n && j < n && k < n && weight(i, j) == 0.0 && weight(j, k) == 0.0 ==>
          weight(i, k) == 0.0)
  }

  /** Two nodes in different places. */
  ghost predicate Apart(weight: (nat, nat) -> real, n: nat) {
    exists i: nat, j: nat :: i < n && j < n && weight(i, j) > 0.0
  }

  lemma {:induction false} PathNotNegative(weight: (nat, nat) -> real, n: nat, path: seq<nat>)
    requires Distance(weight, n) && forall k :: 0 <= k < |path| ==> path[k] < n
    ensures PathWeight(weight, path) >= 0.0
  {
    if |path| >= 2 {
      PathNotNegative(weight, n, path[..|path| - 1]);
    }
  }

  /** All nodes of a path without weight are in one place. */
  lemma {:induction false} OnePlace(weight: (nat, nat) -> real, n: nat, path: seq<nat>, k: nat)
    requires Distance(weight, n) && k < |path| && forall k :: 0 <= k < |path| ==> path[k] < n
    requires PathWeight(weight, path) <= 0.0
    ensures weight(path[0], path[k]) == 0.0
    decreases |path|
  {
    if |path| >= 2 {
      var m := |path| - 1;
      var before := path[..m];
      PathNotNegative(weight, n, before);
      OnePlace(weight, n, before, if k < m then k else m - 1);
      assert weight(path[m - 1], path[m]) == 0.0;
    }
  }

  lemma {:induction false} NoWeight(weight: (nat, nat) -> real, n: nat, path: seq<nat>)
    requires Distance(weight, n) && !Apart(weight, n) && forall k :: 0 <= k < |path| ==> path[k] < n
    ensures PathWeight(weight, path) == 0.0
  {
    if |path| >= 2 {
      NoWeight(weight, n, path[..|path| - 1]);
      var i, j := path[|path| - 2], path[|path| - 1];
      assert weight(i, j) >= 0.0 && !(weight(i, j) > 0.0);
    }
  }

  lemma {:induction false} TourInOnePlace(weight: (nat, nat) -> real, n: nat, tour: seq<nat>)
    requires Distance(weight, n) && ClosedTour(tour, n) && PathWeight(weight, tour) <= 0.0
    ensures !Apart(weight, n)
  {
    forall i: nat, j: nat | i < n && j < n ensures !(weight(i, j) > 0.0) {
      InPlaceOfFirst(weight, n, tour, i);
      InPlaceOfFirst(weight, n, tour, j);
      assert weight(i, tour[0]) == 0.0 && weight(tour[0], j) == 0.0;
    }
  }

  lemma {:induction false} InPlaceOfFirst(weight: (nat, nat) -> real, n: nat, tour: seq<nat>, i: nat)
    requires Distance(weight, n) && ClosedTour(tour, n) && PathWeight(weight, tour) <= 0.0 && i < n
    ensures weight(tour[0], i) == 0.0
  {
    ClosedTourVisitsAll(tour, n, i);
    var k :| 0 <= k < n && tour[..n][k] == i;
    OnePlace(weight, n, tour, k);
  }

  /** From 0 up to n - 1, and back. */
  function Round(n: nat): seq<nat>
    requires n > 0
  {
    seq(n, (k: nat) => k) + [0]
  }

  lemma RoundIsTour(n: nat)
    requires n > 0
    ensures ClosedTour(Round(n), n)
  {
    assert Round(n)[..n] == seq(n, (k: nat) => k);
  }

  /** All closed tours have a weight exactly when the nodes are not all in one place. */
  lemma ToursPositiveIffApart(weight: (nat, nat) -> real, n: nat)
    requires n > 0 && Distance(weight, n)
    ensures PositiveTours(weight, n) <==> Apart(weight, n)
  {
    RoundIsTour(n);
    if Apart(weight, n) {
      forall tour | ClosedTour(tour, n) ensures PathWeight(weight, tour) > 0.0 {
        if PathWeight(weight, tour) <= 0.0 {
          TourInOnePlace(weight, n, tour);
        }
      }
    } else {
      NoWeight(weight, n, Round(n));
    }
  }

  // ---------- the initial pheromone level ----------

  lemma {:induction false} RowSumIs(weight: (nat, nat) -> real, n: nat, i: nat, j: nat)
    requires Distance(weight, n) && i < n && j <= n
    ensures RowSum(weight, i, j) >= 0.0
    ensures RowSum(weight, i, j) > 0.0 <==> exists k: nat :: k < j && weight(i, k) > 0.0
  {
    if j > 0 {
      RowSumIs(weight, n, i, j - 1);
      assert weight(i, j - 1) >= 0.0;
    }
  }

  lemma {:induction false} AllSumIs(weight: (nat, nat) -> real, n: nat, i: nat)
    requires Distance(weight, n) && i <= n
    ensures AllSum(weight, i, n) >= 0.0
    ensures AllSum(weight, i, n) > 0.0 <==> exists k: nat, l: nat :: k < i && l < n && weight(k, l) > 0.0
  {
    if i > 0 {
      AllSumIs(weight, n, i - 1);
      RowSumIs(weight, n, i - 1, n);
      if k: nat, l: nat :| k < i && l < n && weight(k, l) > 0.0 {
        assert k < i - 1 || k == i - 1;
      }
    }
  }

  /** The initial level is defined, and positive, exactly on these maps. */
  lemma {:induction false} InitialLevelIffApart(weight: (nat, nat) -> real, n: nat)
    requires Distance(weight, n)
    ensures AllSum(weight, n, n) != 0.0 <==> Apart(weight, n)
    ensures Apart(weight, n) ==> 1.0 / AllSum(weight, n, n) > 0.0
  {
    AllSumIs(weight, n, n);
  }

  // ---------- the sum of all weights ----------

  lemma {:induction false} RowSumAdds(u: (nat, nat) -> real, v: (nat, nat) -> real, w: (nat, nat) -> real,
                                      i: nat, j: nat)
    requires forall k, l :: w(k, l) == u(k, l) + v(k, l)
    ensures RowSum(w, i, j) == RowSum(u, i, j) + RowSum(v, i, j)
  {
    if j > 0 {
      RowSumAdds(u, v, w, i, j - 1);
    }
  }

  /** The sum of all weights is additive ... */
  lemma {:induction false} AllSumAdds(u: (nat, nat) -> real, v: (nat, nat) -> real, w: (nat, nat) -> real,
                                      i: nat, n: nat)
    requires forall k, l :: w(k, l) == u(k, l) + v(k, l)
    ensures AllSum(w, i, n) == AllSum(u, i, n) + AllSum(v, i, n)
  {
    if i > 0 {
      AllSumAdds(u, v, w, i - 1, n);
      RowSumAdds(u, v, w, i - 1, n);
    }
  }

  lemma {:induction false} RowSumSingle(w: (nat, nat) -> real, i: nat, j: nat, l: nat)
    requires forall m: nat :: m != l ==> w(i, m) == 0.0
    ensures RowSum(w, i, j) == if l < j then w(i, l) else 0.0
  {
    if j > 0 {
      RowSumSingle(w, i, j - 1, l);
    }
  }

  /** ... and counts every ordered pair of nodes once: a single weight is all of it. */
  lemma {:induction false} AllSumSingle(w: (nat, nat) -> real, i: nat, n: nat, k: nat, l: nat)
    requires l < n && forall m: nat, o: nat :: (m, o) != (k, l) ==> w(m, o) == 0.0
    ensures AllSum(w, i, n) == if k < i then w(k, l) else 0.0
  {
    if i > 0 {
      AllSumSingle(w, i - 1, n, k, l);
      RowSumSingle(w, i - 1, n, l);
    }
  }
}
