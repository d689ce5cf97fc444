/** The property graph behind the knowledge base, on plain values: vertices known by the string of
    their term, edges with a label, a truth and two cached ranking keys. */
module Store {

  import opened Facts
  import opened KnowledgeBase
  import opened Options
  import opened Ranking
  import opened Reals
  import opened Sequences
  import opened Statements
  import opened Terms
  import opened Truths

  datatype Edge = Edge(out: nat, copula: string, into: nat, truth: Truth, subjExp: int, predExp: int)

  /** Double-to-int conversion: towards zero. */
  function ToInt(x: real): int {
    if x >= 0.0 then x.Floor else -((-x).Floor)
  }

  /** The ranking key of an endpoint: its expectation per unit of complexity, in thousandths. */
  function RankingKey(truth: Truth, t: Term): int {
    Scaled(truth.Expectation(), 1.0 / t.Complexity() as real)
  }

  function Scaled(expectation: real, d: real): int {
    ToInt(expectation * d * 1000.0)
  }

  /** A vertex string that decodes to a good term and is that term's id. */
  ghost predicate Canonical(id: string) {
    Decode(id).Some? && GoodTerm(Decode(id).value) && Decode(id).value.Id() == id
  }

  function IndexOf(vertices: seq<string>, id: string): (v: Option<nat>)
    ensures v.Some? ==> v.value < |vertices| && vertices[v.value] == id
    ensures v.None? ==> id !in vertices
  {
    if vertices == [] then None
    else if vertices[0] == id then Some(0)
    else match IndexOf(vertices[1..], id)
      case None => None
      case Some(k) => Some(k + 1)
  }

  /** One vertex per term, proper endpoints, and ranking keys that agree with the truths. */
  ghost predicate ValidStore(vertices: seq<string>, edges: seq<Edge>) {
    && Distinct(vertices)
    && (forall v :: v in vertices ==> Canonical(v))
    && (forall k :: 0 <= k < |edges| ==> ValidEdge(vertices, edges[k]))
  }

  ghost predicate ValidEdge(vertices: seq<string>, e: Edge) {
    && e.out < |vertices| && e.into < |vertices|
    && Decode(vertices[e.out]).Some? && Decode(vertices[e.into]).Some?
    && e.subjExp == RankingKey(e.truth, Decode(vertices[e.out]).value)
    && e.predExp == RankingKey(e.truth, Decode(vertices[e.into]).value)
  }

  /** The statement that an edge stands for. */
  function View(vertices: seq<string>, e: Edge): Statement
    requires ValidEdge(vertices, e)
  {
    Statement(Decode(vertices[e.out]).value, e.copula, Decode(vertices[e.into]).value, e.truth)
  }

  /** The knowledge base that the store represents. */
  ghost function Contents(vertices: seq<string>, edges: seq<Edge>): seq<Statement>
    requires ValidStore(vertices, edges)
  {
    seq(|edges|, k requires 0 <= k < |edges| => View(vertices, edges[k]))
  }

  ghost predicate GoodStatement(st: Statement) {
    GoodTerm(st.subj) && GoodTerm(st.pred)
  }

  /** The edges of a label from one vertex to another. */
  function EdgesBetween(edges: seq<Edge>, s: nat, copula: string, p: nat): seq<nat>
  {
    if edges == [] then []
    else
      var n := |edges| - 1;
      EdgesBetween(edges[..n], s, copula, p)
      + if edges[n].out == s && edges[n].copula == copula && edges[n].into == p then [n] else []
  }

  // ---------- the string-keyed lookup refines the lookup by terms ----------

  lemma TermAtVertex(vertices: seq<string>, edges: seq<Edge>, v: nat, t: Term)
    requires ValidStore(vertices, edges) && v < |vertices| && GoodTerm(t)
    ensures Decode(vertices[v]) == Some(t) <==> vertices[v] == t.Id()
  {
    assert vertices[v] in vertices;
    GoodIsStorable(t);
    DecodeId(t);
  }

  lemma SameEdge(vertices: seq<string>, edges: seq<Edge>, k: nat, st: Statement, s: nat, p: nat)
    requires ValidStore(vertices, edges) && k < |edges| && GoodStatement(st)
    requires s < |vertices| && vertices[s] == st.subj.Id()
    requires p < |vertices| && vertices[p] == st.pred.Id()
    ensures Same(View(vertices, edges[k]), st)
       <==> edges[k].out == s && edges[k].copula == st.copula && edges[k].into == p
  {
    var e := edges[k];
    TermAtVertex(vertices, edges, e.out, st.subj);
    TermAtVertex(vertices, edges, e.into, st.pred);
    assert vertices[e.out] == vertices[s] <==> e.out == s;
    assert vertices[e.into] == vertices[p] <==> e.into == p;
  }

  lemma {:induction false} LookupRefines(vertices: seq<string>, edges: seq<Edge>, st: Statement, s: nat, p: nat)
    requires ValidStore(vertices, edges) && GoodStatement(st)
    requires s < |vertices| && vertices[s] == st.subj.Id()
    requires p < |vertices| && vertices[p] == st.pred.Id()
    ensures EdgesBetween(edges, s, st.copula, p) == Matches(Contents(vertices, edges), st)
  {
    if edges != [] {
      var n := |edges| - 1;
      LookupRefines(vertices, edges[..n], st, s, p);
      assert Contents(vertices, edges)[..n] == Contents(vertices, edges[..n]);
      SameEdge(vertices, edges, n, st, s, p);
    }
  }

  lemma {:induction false} LookupMissing(vertices: seq<string>, edges: seq<Edge>, st: Statement)
    requires ValidStore(vertices, edges) && GoodStatement(st)
    requires st.subj.Id() !in vertices || st.pred.Id() !in vertices
    ensures Matches(Contents(vertices, edges), st) == []
  {
    var kb := Contents(vertices, edges);
    MatchesNone(kb, st);
    forall k: nat | k < |kb| ensures !Same(kb[k], st) {
      var e := edges[k];
      TermAtVertex(vertices, edges, e.out, st.subj);
      TermAtVertex(vertices, edges, e.into, st.pred);
    }
  }

  /** A further vertex changes nothing that is already there. */
  lemma MoreVertices(vertices: seq<string>, edges: seq<Edge>, t: Term)
    requires ValidStore(vertices, edges) && GoodTerm(t) && t.Id() !in vertices
    ensures ValidStore(vertices + [t.Id()], edges)
    ensures Contents(vertices + [t.Id()], edges) == Contents(vertices, edges)
  {
    GoodIsStorable(t);
    DecodeId(t);
    assert forall k :: 0 <= k < |edges| ==> ValidEdge(vertices, edges[k]);
  }

  /** The other forms of a good statement are good. */
  lemma GoodImages(st: Statement)
    requires GoodStatement(st)
    ensures forall k :: 0 <= k < |st.AllImages()| ==> GoodStatement(st.AllImages()[k])
  {
  }

  /** The edges whose statement does not pack, as statements, in order. */
  function Packed(kb: seq<Statement>): seq<Statement>
  {
    if kb == [] then []
    else
      var n := |kb| - 1;
      Packed(kb[..n]) + if kb[n].Pack() == [] then [kb[n]] else []
  }

  // ---------- ranked neighbours ----------

  /** Where an edge hangs on the asked vertex: by its subject or by its predicate. */
  datatype Side = Subject | Predicate

  function End(st: Statement, side: Side): Term {
    if side == Subject then st.subj else st.pred
  }

  function OtherSide(side: Side): Side {
    if side == Subject then Predicate else Subject
  }

  /** Positions of the statements with the copula and the term on that side. */
  function Incident(kb: seq<Statement>, side: Side, t: Term, copula: string): (r: seq<nat>)
    ensures forall k: nat :: k in r ==> k < |kb|
  {
    if kb == [] then []
    else
      var n := |kb| - 1;
      Incident(kb[..n], side, t, copula) + if End(kb[n], side) == t && kb[n].copula == copula then [n] else []
  }

  /** The ranking key of a statement's neighbour, computed from its truth. */
  function NeighbourKey(kb: seq<Statement>, side: Side): nat -> int {
    (k: nat) => if k < |kb| then RankingKey(kb[k].truth, End(kb[k], OtherSide(side))) else 0
  }

  /** The best neighbours of a term: the terms on the other side, largest recomputed key first. */
  function BestNeighbours(kb: seq<Statement>, side: Side, t: Term, copula: string, limit: nat): seq<nat> {
    Top(NeighbourKey(kb, side), Incident(kb, side, t, copula), limit)
  }

  function Endpoint(e: Edge, side: Side): nat {
    if side == Subject then e.out else e.into
  }

  function EdgesAt(edges: seq<Edge>, side: Side, v: nat, copula: string): (r: seq<nat>)
    ensures forall k: nat :: k in r ==> k < |edges|
  {
    if edges == [] then []
    else
      var n := |edges| - 1;
      EdgesAt(edges[..n], side, v, copula)
      + if Endpoint(edges[n], side) == v && edges[n].copula == copula then [n] else []
  }

  /** The stored key of the neighbour. */
  function StoredKey(edges: seq<Edge>, side: Side): nat -> int {
    (k: nat) => if k < |edges| then (if side == Subject then edges[k].predExp else edges[k].subjExp) else 0
  }

  /** An edge touches the vertex of a term exactly when its statement has the term there. */
  lemma EdgeAtRefines(vertices: seq<string>, edges: seq<Edge>, side: Side, t: Term, v: nat, k: nat)
    requires ValidStore(vertices, edges) && GoodTerm(t) && v < |vertices| && vertices[v] == t.Id()
    requires k < |edges|
    ensures Endpoint(edges[k], side) == v <==> End(Contents(vertices, edges)[k], side) == t
  {
    var w := Endpoint(edges[k], side);
    assert ValidEdge(vertices, edges[k]);
    TermAtVertex(vertices, edges, w, t);
    assert vertices[w] == vertices[v] <==> w == v;
  }

  lemma ContentsPrefix(vertices: seq<string>, edges: seq<Edge>)
    requires ValidStore(vertices, edges) && edges != []
    ensures ValidStore(vertices, edges[..|edges| - 1])
    ensures Contents(vertices, edges)[..|edges| - 1] == Contents(vertices, edges[..|edges| - 1])
    ensures Contents(vertices, edges)[|edges| - 1].copula == edges[|edges| - 1].copula
  {
    assert ValidEdge(vertices, edges[|edges| - 1]);
  }

  lemma {:induction false} EdgesAtRefine(vertices: seq<string>, edges: seq<Edge>, side: Side, t: Term, copula: string,
                                         v: nat)
    requires ValidStore(vertices, edges) && GoodTerm(t) && v < |vertices| && vertices[v] == t.Id()
    ensures EdgesAt(edges, side, v, copula) == Incident(Contents(vertices, edges), side, t, copula)
  {
    if edges != [] {
      var n := |edges| - 1;
      ContentsPrefix(vertices, edges);
      EdgesAtRefine(vertices, edges[..n], side, t, copula, v);
      EdgeAtRefines(vertices, edges, side, t, v, n);
    }
  }

  lemma {:induction false} NoEdgesAt(vertices: seq<string>, edges: seq<Edge>, side: Side, t: Term, copula: string)
    requires ValidStore(vertices, edges) && GoodTerm(t) && t.Id() !in vertices
    ensures Incident(Contents(vertices, edges), side, t, copula) == []
  {
    if edges != [] {
      var n := |edges| - 1;
      ContentsPrefix(vertices, edges);
      NoEdgesAt(vertices, edges[..n], side, t, copula);
      assert ValidEdge(vertices, edges[n]);
      TermAtVertex(vertices, edges, Endpoint(edges[n], side), t);
    }
  }

  /** The stored keys agree with recomputation, so ordering by them orders by expectation per unit of
      complexity. */
  lemma {:induction false} StoredKeysAgree(vertices: seq<string>, edges: seq<Edge>, side: Side, t: Term, copula: string,
                                           v: nat, limit: nat)
    requires ValidStore(vertices, edges) && GoodTerm(t) && v < |vertices| && vertices[v] == t.Id()
    ensures Top(StoredKey(edges, side), EdgesAt(edges, side, v, copula), limit)
         == BestNeighbours(Contents(vertices, edges), side, t, copula, limit)
  {
    EdgesAtRefine(vertices, edges, side, t, copula, v);
    forall k: nat ensures StoredKey(edges, side)(k) == NeighbourKey(Contents(vertices, edges), side)(k) {
      KeyAgrees(vertices, edges, side, k);
    }
    TopSame(StoredKey(edges, side), NeighbourKey(Contents(vertices, edges), side),
            EdgesAt(edges, side, v, copula), limit);
  }

  lemma KeyAgrees(vertices: seq<string>, edges: seq<Edge>, side: Side, k: nat)
    requires ValidStore(vertices, edges)
    ensures StoredKey(edges, side)(k) == NeighbourKey(Contents(vertices, edges), side)(k)
  {
    if k < |edges| {
      assert ValidEdge(vertices, edges[k]);
    }
  }

  /** The neighbour at the other end of an edge. */
  lemma NeighbourTerm(vertices: seq<string>, edges: seq<Edge>, side: Side, k: nat)
    requires ValidStore(vertices, edges) && k < |edges|
    ensures var w := Endpoint(edges[k], side);
            w < |vertices| && Decode(vertices[w]) == Some(End(Contents(vertices, edges)[k], side))
  {
    assert ValidEdge(vertices, edges[k]);
  }

  /** What the best neighbours are: as many as there are or the limit allows, in descending order of
      their recomputed keys, none left out with a larger key. */
  lemma {:induction false} BestNeighboursAreBest(kb: seq<Statement>, side: Side, t: Term, copula: string, limit: nat)
    ensures Best(NeighbourKey(kb, side), Incident(kb, side, t, copula), limit,
                 BestNeighbours(kb, side, t, copula, limit))
    ensures forall k: nat :: k in Incident(kb, side, t, copula) <==>
              k < |kb| && End(kb[k], side) == t && kb[k].copula == copula
  {
    TopIsBest(NeighbourKey(kb, side), Incident(kb, side, t, copula), limit);
    forall k: nat
      ensures k in Incident(kb, side, t, copula) <==> k < |kb| && End(kb[k], side) == t && kb[k].copula == copula
    {
      IncidentIs(kb, side, t, copula, k);
    }
  }

  lemma {:induction false} IncidentIs(kb: seq<Statement>, side: Side, t: Term, copula: string, k: nat)
    ensures k in Incident(kb, side, t, copula) <==> k < |kb| && End(kb[k], side) == t && kb[k].copula == copula
  {
    if kb != [] {
      IncidentIs(kb[..|kb| - 1], side, t, copula, k);
    }
  }

  lemma {:induction false} TopMembers(key: nat -> int, candidates: seq<nat>, limit: nat, k: nat)
    requires k in Top(key, candidates, limit)
    ensures k in candidates
  {
    OrderByOrders(key, candidates);
    assert k in OrderBy(key, candidates);
    assert k in multiset(OrderBy(key, candidates));
  }

  // ---------- what the ranking key means ----------

  lemma ToIntMonotone(x: real, y: real)
    requires x <= y
    ensures ToInt(x) <= ToInt(y)
  {
  }

  lemma ScaleMonotone(x: real, y: real, d: real)
    requires x <= y && d > 0.0
    ensures x * d * 1000.0 <= y * d * 1000.0
  {
    MulMono(x, y, d);
  }

  lemma Reciprocal(n: nat)
    requires n >= 1
    ensures 0.0 < 1.0 / n as real <= 1.0
  {
    QuotientBetween(1.0, n as real, 0.0, 1.0);
    QuotientTimes(1.0, n as real);
  }

  lemma ScaledMonotone(x: real, y: real, d: real)
    requires x <= y && d > 0.0
    ensures Scaled(x, d) <= Scaled(y, d)
  {
    ScaleMonotone(x, y, d);
    ToIntMonotone(x * d * 1000.0, y * d * 1000.0);
  }

  /** A larger expectation never ranks lower. */
  lemma RankingKeyMonotone(a: Truth, b: Truth, t: Term)
    requires a.Expectation() <= b.Expectation()
    ensures RankingKey(a, t) <= RankingKey(b, t)
  {
    Reciprocal(t.Complexity());
    ScaledMonotone(a.Expectation(), b.Expectation(), 1.0 / t.Complexity() as real);
  }

  /** Keys are between nothing and a thousand. */
  lemma RankingKeyBounds(a: Truth, t: Term)
    requires a.Unit()
    ensures 0 <= RankingKey(a, t) <= 1000
  {
    var d := 1.0 / t.Complexity() as real;
    Reciprocal(t.Complexity());
    ExpectationInUnit(a);
    ScaledMonotone(0.0, a.Expectation(), d);
    ScaledMonotone(a.Expectation(), 1.0, d);
    ToIntMonotone(d * 1000.0, 1000.0);
    assert 1.0 * d == d;
  }

  // ---------- the ranking itself ----------

  /** What the keys stand for: expectation per unit of complexity. */
  function Score(truth: Truth, t: Term): real {
    truth.Expectation() / t.Complexity() as real
  }

  lemma ToIntIs(x: real)
    ensures x >= 0.0 ==> ToInt(x) as real <= x < ToInt(x) as real + 1.0
    ensures x < 0.0 ==> ToInt(x) as real - 1.0 < x <= ToInt(x) as real
  {
  }

  lemma TimesReciprocal(x: real, n: real)
    requires n > 0.0
    ensures x * (1.0 / n) == x / n
  {
    QuotientTimes(1.0, n);
    assert x * (1.0 / n) * n == x * ((1.0 / n) * n);
    QuotientIs(x, n, x * (1.0 / n));
  }

  /** The key of a truth is its score in whole thousandths. */
  lemma KeyIsScore(truth: Truth, t: Term)
    requires truth.Unit()
    ensures Score(truth, t) >= 0.0
    ensures RankingKey(truth, t) as real <= 1000.0 * Score(truth, t) < RankingKey(truth, t) as real + 1.0
  {
    var n := t.Complexity() as real;
    ExpectationInUnit(truth);
    TimesReciprocal(truth.Expectation(), n);
    QuotientBetween(truth.Expectation(), n, 0.0, truth.Expectation() / n);
    QuotientTimes(truth.Expectation(), n);
    NotNegative(truth.Expectation(), n);
    ToIntIs(truth.Expectation() * (1.0 / n) * 1000.0);
  }

  lemma NotNegative(x: real, n: real)
    requires x >= 0.0 && n > 0.0
    ensures x / n >= 0.0
  {
    QuotientTimes(x, n);
    QuotientBetween(x, n, 0.0, x / n);
  }

  lemma ScoresRank(a: Truth, s: Term, b: Truth, t: Term)
    requires a.Unit() && b.Unit()
    ensures Score(a, s) <= Score(b, t) ==> RankingKey(a, s) <= RankingKey(b, t)
    ensures Score(a, s) + 0.001 <= Score(b, t) ==> RankingKey(a, s) < RankingKey(b, t)
  {
    KeyIsScore(a, s);
    KeyIsScore(b, t);
  }

  /** b is among the best, and nowhere behind a. */
  ghost predicate InFront(best: seq<nat>, b: nat, a: nat) {
    b in best && forall i, j :: 0 <= i < |best| && 0 <= j < |best| && best[i] == a && best[j] == b ==> j < i
  }

  /** The better a neighbour's score, the further in front: one that scores a thousandth more is taken
      before the other, and one that scores no less is behind it, or left out beside it, only when their
      keys are the same. */
  lemma {:induction false} BetterScoreFirst(kb: seq<Statement>, side: Side, t: Term, copula: string,
                                           limit: nat, a: nat, b: nat)
    requires a in Incident(kb, side, t, copula) && b in Incident(kb, side, t, copula)
    requires kb[a].truth.Unit() && kb[b].truth.Unit()
    requires var other := OtherSide(side);
             Score(kb[a].truth, End(kb[a], other)) <= Score(kb[b].truth, End(kb[b], other))
    ensures var other, best, key := OtherSide(side), BestNeighbours(kb, side, t, copula, limit), NeighbourKey(kb, side);
            && key(a) <= key(b)
            && (Score(kb[a].truth, End(kb[a], other)) + 0.001 <= Score(kb[b].truth, End(kb[b], other)) ==>
                  key(a) < key(b))
            && (key(a) < key(b) && a in best ==> InFront(best, b, a))
  {
    var other := OtherSide(side);
    ScoresRank(kb[a].truth, End(kb[a], other), kb[b].truth, End(kb[b], other));
    var key := NeighbourKey(kb, side);
    if key(a) < key(b) && a in BestNeighbours(kb, side, t, copula, limit) {
      LargerKeyFirst(key, Incident(kb, side, t, copula), limit, a, b);
    }
  }

  /** At equal confidence and complexity the scores differ as the frequencies do, by their part of the
      confidence. */
  lemma FrequencyGap(a: Truth, s: Term, b: Truth, t: Term)
    requires a.conf == b.conf && s.Complexity() == t.Complexity()
    ensures Score(b, t) - Score(a, s) == a.conf * (b.freq - a.freq) / s.Complexity() as real
  {
    ExpectationGrows(a, b);
    Difference(b.Expectation(), a.Expectation(), s.Complexity() as real);
  }

  lemma FrequencyScores(a: Truth, s: Term, b: Truth, t: Term)
    requires a.conf == b.conf >= 0.0 && s.Complexity() == t.Complexity() && a.freq <= b.freq
    ensures Score(a, s) <= Score(b, t)
  {
    FrequencyGap(a, s, b, t);
    MulMono(0.0, b.freq - a.freq, a.conf);
    NotNegative((b.freq - a.freq) * a.conf, s.Complexity() as real);
    assert a.conf * (b.freq - a.freq) == (b.freq - a.freq) * a.conf;
  }

  lemma Difference(x: real, y: real, n: real)
    requires n > 0.0
    ensures x / n - y / n == (x - y) / n
  {
    QuotientTimes(x, n);
    QuotientTimes(y, n);
    assert (x / n - y / n) * n == x - y;
    QuotientIs(x - y, n, x / n - y / n);
  }

  /** At equal truths that are expected to some extent, the simpler term scores more. */
  lemma SimplicityScores(truth: Truth, s: Term, t: Term)
    requires truth.Unit() && (truth.freq > 0.0 || truth.conf < 1.0) && t.Complexity() < s.Complexity()
    ensures Score(truth, s) < Score(truth, t)
  {
    ExpectationPositive(truth);
    var e, m, n := truth.Expectation(), s.Complexity() as real, t.Complexity() as real;
    QuotientTimes(e, m);
    QuotientTimes(e, n);
    NotNegative(e, m);
    LargerQuotient(e / n, e / m, n, m);
  }

  lemma LargerQuotient(p: real, q: real, n: real, m: real)
    requires p * n == q * m > 0.0 && 0.0 < n < m && q >= 0.0
    ensures q < p
  {
    assert q != 0.0;
    MulMonoStrict(n, m, q);
    if p <= q {
      MulMono(p, q, n);
    }
  }

  /** The complexity of a compound is one more than that of its components together. */
  lemma ComplexityCounts(con: string, comps: seq<string>, name: string)
    ensures Atomic(name).Complexity() == 1
    ensures Compound(con, []).Complexity() == 1
    ensures Compound(con, comps + [name]).Complexity()
         == Compound(con, comps).Complexity() + Atomic(name).Complexity()
  {
  }

  /** So among the neighbours of a term: at equal confidence and complexity one of larger frequency is never
      behind, but for equal keys, and stands in front as soon as the difference makes a thousandth. */
  lemma {:induction false} LargerFrequencyFirst(kb: seq<Statement>, side: Side, t: Term, copula: string,
                                           limit: nat, a: nat, b: nat)
    requires a in Incident(kb, side, t, copula) && b in Incident(kb, side, t, copula)
    requires kb[a].truth.Unit() && kb[b].truth.Unit() && kb[a].truth.conf == kb[b].truth.conf
    requires End(kb[a], OtherSide(side)).Complexity() == End(kb[b], OtherSide(side)).Complexity()
    requires kb[a].truth.freq <= kb[b].truth.freq
    ensures var other, best, key := OtherSide(side), BestNeighbours(kb, side, t, copula, limit), NeighbourKey(kb, side);
            && key(a) <= key(b)
            && (Score(kb[a].truth, End(kb[a], other)) + 0.001 <= Score(kb[b].truth, End(kb[b], other)) ==>
                  key(a) < key(b))
            && (key(a) < key(b) && a in best ==> InFront(best, b, a))
  {
    var other := OtherSide(side);
    FrequencyScores(kb[a].truth, End(kb[a], other), kb[b].truth, End(kb[b], other));
    BetterScoreFirst(kb, side, t, copula, limit, a, b);
  }

  /** And at equal truths one of smaller complexity. */
  lemma {:induction false} SimplerFirst(kb: seq<Statement>, side: Side, t: Term, copula: string,
                                           limit: nat, a: nat, b: nat)
    requires a in Incident(kb, side, t, copula) && b in Incident(kb, side, t, copula)
    requires kb[a].truth == kb[b].truth && kb[a].truth.Unit()
    requires kb[a].truth.freq > 0.0 || kb[a].truth.conf < 1.0
    requires End(kb[b], OtherSide(side)).Complexity() < End(kb[a], OtherSide(side)).Complexity()
    ensures var other, best, key := OtherSide(side), BestNeighbours(kb, side, t, copula, limit), NeighbourKey(kb, side);
            && Score(kb[a].truth, End(kb[a], other)) < Score(kb[b].truth, End(kb[b], other))
            && key(a) <= key(b)
            && (Score(kb[a].truth, End(kb[a], other)) + 0.001 <= Score(kb[b].truth, End(kb[b], other)) ==>
                  key(a) < key(b))
            && (key(a) < key(b) && a in best ==> InFront(best, b, a))
  {
    var other := OtherSide(side);
    SimplicityScores(kb[a].truth, End(kb[a], other), End(kb[b], other));
    BetterScoreFirst(kb, side, t, copula, limit, a, b);
  }
}
