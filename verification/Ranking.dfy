/** Queries ordered by a key, as the graph database answers them: the candidates with the largest keys
    first, cut off at a limit. */
module Ranking {

  /** k at its place among the candidates ordered by descending key. */
  function Insert(key: nat -> int, k: nat, ordered: seq<nat>): seq<nat>
  {
    if ordered == [] || key(ordered[0]) <= key(k) then [k] + ordered
    else [ordered[0]] + Insert(key, k, ordered[1..])
  }

  function OrderBy(key: nat -> int, candidates: seq<nat>): seq<nat>
  {
    if candidates == [] then []
    else Insert(key, candidates[0], OrderBy(key, candidates[1..]))
  }

  function Top(key: nat -> int, candidates: seq<nat>, limit: nat): seq<nat> {
    var ordered := OrderBy(key, candidates);
    if limit < |ordered| then ordered[..limit] else ordered
  }

  ghost predicate Descending(key: nat -> int, s: seq<nat>) {
    forall i, j :: 0 <= i < j < |s| ==> key(s[i]) >= key(s[j])
  }

  lemma {:induction false} InsertPermutes(key: nat -> int, k: nat, ordered: seq<nat>)
    ensures multiset(Insert(key, k, ordered)) == multiset(ordered) + multiset{k}
    decreases |ordered|
  {
    if ordered != [] && key(ordered[0]) > key(k) {
      InsertPermutes(key, k, ordered[1..]);
      assert ordered == [ordered[0]] + ordered[1..];
    }
  }

  lemma {:induction false} InsertMembers(key: nat -> int, k: nat, ordered: seq<nat>)
    ensures forall x :: x in Insert(key, k, ordered) ==> x == k || x in ordered
    decreases |ordered|
  {
    if ordered != [] && key(ordered[0]) > key(k) {
      InsertMembers(key, k, ordered[1..]);
    }
  }

  lemma {:induction false} InsertOrders(key: nat -> int, k: nat, ordered: seq<nat>)
    requires Descending(key, ordered)
    ensures Descending(key, Insert(key, k, ordered))
    decreases |ordered|
  {
    if ordered != [] && key(ordered[0]) > key(k) {
      InsertOrders(key, k, ordered[1..]);
      InsertMembers(key, k, ordered[1..]);
      forall x | x in Insert(key, k, ordered[1..]) ensures key(x) <= key(ordered[0]) {
        if x != k {
          var i :| 0 <= i < |ordered[1..]| && ordered[1..][i] == x;
          assert ordered[i + 1] == x;
        }
      }
    }
  }

  lemma {:induction false} OrderByOrders(key: nat -> int, candidates: seq<nat>)
    ensures Descending(key, OrderBy(key, candidates))
    ensures multiset(OrderBy(key, candidates)) == multiset(candidates)
    decreases |candidates|
  {
    if candidates != [] {
      OrderByOrders(key, candidates[1..]);
      InsertOrders(key, candidates[0], OrderBy(key, candidates[1..]));
      InsertPermutes(key, candidates[0], OrderBy(key, candidates[1..]));
      assert candidates == [candidates[0]] + candidates[1..];
    }
  }

  /** top are the best candidates: as many as the limit allows, in descending order, and none left out
      has a larger key than one taken. */
  ghost predicate Best(key: nat -> int, candidates: seq<nat>, limit: nat, top: seq<nat>) {
    && |top| == (if limit < |candidates| then limit else |candidates|)
    && Descending(key, top)
    && exists rest :: Splits(candidates, top, rest) && Dominates(key, top, rest)
  }

  ghost predicate Dominates(key: nat -> int, top: seq<nat>, rest: seq<nat>) {
    forall k, l :: k in top && l in rest ==> key(k) >= key(l)
  }

  ghost predicate Splits(candidates: seq<nat>, top: seq<nat>, rest: seq<nat>) {
    multiset(candidates) == multiset(top) + multiset(rest)
  }

  lemma SameSize(a: seq<nat>, b: seq<nat>)
    requires multiset(a) == multiset(b)
    ensures |a| == |b|
  {
    assert |multiset(a)| == |a| && |multiset(b)| == |b|;
  }

  lemma CutDominates(key: nat -> int, ordered: seq<nat>, n: nat)
    requires Descending(key, ordered) && n <= |ordered|
    ensures Descending(key, ordered[..n]) && Dominates(key, ordered[..n], ordered[n..])
  {
    var top, rest := ordered[..n], ordered[n..];
    forall k, l | k in top && l in rest ensures key(k) >= key(l) {
      var i :| 0 <= i < n && top[i] == k;
      var j :| 0 <= j < |rest| && rest[j] == l;
      assert ordered[i] == k && ordered[n + j] == l;
    }
  }

  lemma CutSplits(candidates: seq<nat>, ordered: seq<nat>, n: nat)
    requires multiset(ordered) == multiset(candidates) && n <= |ordered|
    ensures Splits(candidates, ordered[..n], ordered[n..])
  {
    assert ordered == ordered[..n] + ordered[n..];
  }

  lemma TopIsBest(key: nat -> int, candidates: seq<nat>, limit: nat)
    ensures Best(key, candidates, limit, Top(key, candidates, limit))
  {
    OrderByOrders(key, candidates);
    var ordered := OrderBy(key, candidates);
    SameSize(ordered, candidates);
    var n := if limit < |ordered| then limit else |ordered|;
    assert ordered[..n] == Top(key, candidates, limit);
    CutDominates(key, ordered, n);
    CutSplits(candidates, ordered, n);
  }

  /** A candidate of a larger key is taken whenever one of a smaller key is, and stands before it. */
  lemma LargerKeyFirst(key: nat -> int, candidates: seq<nat>, limit: nat, a: nat, b: nat)
    requires b in candidates && key(a) < key(b) && a in Top(key, candidates, limit)
    ensures b in Top(key, candidates, limit)
    ensures var top := Top(key, candidates, limit);
            forall i, j :: 0 <= i < |top| && 0 <= j < |top| && top[i] == a && top[j] == b ==> j < i
  {
    TopIsBest(key, candidates, limit);
    var top := Top(key, candidates, limit);
    var rest: seq<nat> :| Splits(candidates, top, rest) && Dominates(key, top, rest);
    assert b in multiset(candidates);
    assert b in top || b in rest;
    assert b in rest ==> key(a) >= key(b);
  }

  /** Only the keys matter. */
  lemma {:induction false} OrderBySame(key: nat -> int, key': nat -> int, candidates: seq<nat>)
    requires forall k: nat :: key(k) == key'(k)
    ensures OrderBy(key, candidates) == OrderBy(key', candidates)
    decreases |candidates|
  {
    if candidates != [] {
      OrderBySame(key, key', candidates[1..]);
      InsertSame(key, key', candidates[0], OrderBy(key, candidates[1..]));
    }
  }

  lemma {:induction false} InsertSame(key: nat -> int, key': nat -> int, k: nat, ordered: seq<nat>)
    requires forall k: nat :: key(k) == key'(k)
    ensures Insert(key, k, ordered) == Insert(key', k, ordered)
    decreases |ordered|
  {
    if ordered != [] {
      InsertSame(key, key', k, ordered[1..]);
    }
  }

  lemma TopSame(key: nat -> int, key': nat -> int, candidates: seq<nat>, limit: nat)
    requires forall k: nat :: key(k) == key'(k)
    ensures Top(key, candidates, limit) == Top(key', candidates, limit)
  {
    OrderBySame(key, key', candidates);
  }
}
