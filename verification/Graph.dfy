/** The graph as the program updates it: in place, edge by edge, through string-keyed vertices. Each
    method is proved against the specification of the knowledge base that the store represents. */
module Graph {

  import opened Confluence
  import opened Facts
  import opened KnowledgeBase
  import opened Options
  import opened Ranking
  import opened Statements
  import opened Store
  import opened Terms
  import opened Truths

  datatype EventKind = ADDED | UPDATED

  datatype Event = Event(kind: EventKind, statement: Statement)

  /** How a lookup of an edge ends; Several is an exception. */
  datatype Lookup = Missing | Found(edge: nat) | Several

  ghost predicate LookedUp(found: Lookup, matches: seq<nat>) {
    match found
    case Missing => matches == []
    case Found(k) => matches == [k]
    case Several => |matches| > 1
  }

  class DNarsGraph {
    var vertices: seq<string>
    var edges: seq<Edge>
    var events: seq<Event>
    var paused: bool

    ghost predicate Valid()
      reads this
    {
      ValidStore(vertices, edges)
    }

    /** The knowledge base that the graph represents. */
    ghost function KB(): seq<Statement>
      requires Valid()
      reads this
    {
      Contents(vertices, edges)
    }

    constructor ()
      ensures Valid() && KB() == [] && events == [] && !paused
    {
      vertices, edges, events, paused := [], [], [], false;
    }

    // ---------- vertices ----------

    method GetV(t: Term) returns (v: Option<nat>)
      ensures v == IndexOf(vertices, t.Id())
    {
      v := IndexOf(vertices, t.Id());
    }

    method GetOrAddV(t: Term) returns (v: nat)
      requires Valid() && GoodTerm(t)
      modifies this`vertices
      ensures Valid() && KB() == old(KB())
      ensures old(vertices) <= vertices
      ensures v < |vertices| && vertices[v] == t.Id()
    {
      var known := GetV(t);
      if known.Some? {
        v := known.value;
      } else {
        MoreVertices(vertices, edges, t);
        vertices := vertices + [t.Id()];
        v := |vertices| - 1;
      }
    }

    // ---------- edges ----------

    /** The truth setter: also refreshes the two ranking keys. */
    method SetEdgeTruth(k: nat, truth: Truth)
      requires Valid() && k < |edges|
      modifies this`edges
      ensures Valid() && KB() == Retruth(old(KB()), k, truth)
    {
      var e := edges[k];
      assert ValidEdge(vertices, e);
      var subjExp := RankingKey(truth, Decode(vertices[e.out]).value);
      var predExp := RankingKey(truth, Decode(vertices[e.into]).value);
      edges := edges[k := e.(truth := truth, subjExp := subjExp, predExp := predExp)];
    }

    method AddE(s: nat, copula: string, p: nat, truth: Truth)
      requires Valid() && s < |vertices| && p < |vertices|
      requires Decode(vertices[s]).Some? && Decode(vertices[p]).Some?
      modifies this`edges
      ensures Valid()
      ensures KB() == old(KB())
                      + [Statement(Decode(vertices[s]).value, copula, Decode(vertices[p]).value, truth)]
    {
      var subjExp := RankingKey(truth, Decode(vertices[s]).value);
      var predExp := RankingKey(truth, Decode(vertices[p]).value);
      edges := edges + [Edge(s, copula, p, truth, subjExp, predExp)];
    }

    method AddStatementEdge(st: Statement)
      requires Valid() && GoodStatement(st)
      modifies this`vertices, this`edges
      ensures Valid() && KB() == old(KB()) + [st]
    {
      var s := GetOrAddV(st.subj);
      TermAtVertex(vertices, edges, s, st.subj);
      var p := GetOrAddV(st.pred);
      TermAtVertex(vertices, edges, p, st.pred);
      AddE(s, st.copula, p, st.truth);
    }

    method GetE(st: Statement) returns (found: Lookup)
      requires Valid() && GoodStatement(st)
      ensures LookedUp(found, Matches(KB(), st))
      ensures found.Found? ==> found.edge < |edges|
    {
      MatchesAre(KB(), st);
      var s := GetV(st.subj);
      var p := GetV(st.pred);
      if s.Some? && p.Some? {
        LookupRefines(vertices, edges, st, s.value, p.value);
        var list := EdgesBetween(edges, s.value, st.copula, p.value);
        found := if list == [] then Missing else if |list| == 1 then Found(list[0]) else Several;
      } else {
        LookupMissing(vertices, edges, st);
        found := Missing;
      }
    }

    // ---------- revising ----------

    method SetTruthValue(st: Statement, truth: Truth) returns (outcome: Outcome)
      requires Valid() && GoodStatement(st)
      modifies this`edges
      ensures Valid() && Result(KB(), outcome) == SetTruth(old(KB()), st, truth)
    {
      var found := GetE(st);
      match found {
        case Found(k) =>
          SetEdgeTruth(k, truth);
          outcome := Done;
        case Missing =>
          outcome := NoEdge;
        case Several =>
          outcome := MultipleEdges;
      }
    }

    method ReviseOppositeEdge(st: Statement, revised: Truth) returns (outcome: Outcome)
      requires Valid() && GoodStatement(st)
      modifies this`edges
      ensures Valid() && Result(KB(), outcome) == SetTruths(old(KB()), [st.Opposite()], revised)
    {
      outcome := SetTruthValue(st.Opposite(), revised);
    }

    method ReviseImages(st: Statement, truth: Truth) returns (outcome: Outcome)
      requires Valid() && GoodStatement(st)
      modifies this`edges
      ensures Valid() && Result(KB(), outcome) == SetTruths(old(KB()), st.AllImages()[1..], truth)
    {
      var images := st.AllImages()[1..];
      GoodImages(st);
      var i := 0;
      while i < |images|
        invariant 0 <= i <= |images| && Valid()
        invariant SetTruths(KB(), images[i..], truth) == SetTruths(old(KB()), images, truth)
      {
        assert images[i] == st.AllImages()[i + 1];
        assert images[i..][1..] == images[i + 1..];
        outcome := SetTruthValue(images[i], truth);
        if outcome != Done {
          return;
        }
        i := i + 1;
      }
      outcome := Done;
    }

    method ReviseExistingStatement(st: Statement, k: nat) returns (outcome: Outcome)
      requires Valid() && GoodStatement(st) && k < |edges|
      requires Proper(KB()) && st.truth.Proper()
      modifies this`edges
      ensures Valid() && Result(KB(), outcome) == Revise(old(KB()), k, st)
    {
      RevisionProper(KB()[k].truth, st.truth);
      var revised := edges[k].truth.Revision(st.truth);
      SetEdgeTruth(k, revised);
      if st.copula == SIMILAR {
        outcome := ReviseOppositeEdge(st, revised);
      } else {
        outcome := ReviseImages(st, revised);
      }
    }

    // ---------- adding ----------

    method AddNewImages(st: Statement)
      requires Valid() && GoodStatement(st)
      modifies this`vertices, this`edges
      ensures Valid() && KB() == old(KB()) + st.AllImages()[1..]
    {
      var images := st.AllImages()[1..];
      GoodImages(st);
      var i := 0;
      while i < |images|
        invariant 0 <= i <= |images| && Valid()
        invariant KB() == old(KB()) + images[..i]
      {
        assert images[i] == st.AllImages()[i + 1];
        AddStatementEdge(images[i]);
        i := i + 1;
      }
      assert images[..i] == images;
    }

    method AddNewStatement(st: Statement)
      requires Valid() && GoodStatement(st)
      modifies this`vertices, this`edges
      ensures Valid() && KB() == old(KB()) + Forms(st)
    {
      AddStatementEdge(st);
      if st.copula == SIMILAR {
        AddStatementEdge(st.Opposite());
      } else {
        AddNewImages(st);
      }
    }

    /** An addition updates the graph as the specification says, and announces what it did. */
    method Add(st: Statement) returns (outcome: Outcome)
      requires Valid() && GoodStatement(st) && Proper(KB()) && st.truth.Proper()
      modifies this`vertices, this`edges, this`events
      ensures Valid() && Result(KB(), outcome) == KnowledgeBase.Add(old(KB()), st)
      ensures events == old(events) + Announced(old(KB()), st)
    {
      outcome := Done;
      if ValidStatement(st) {
        var existing := GetE(st);
        AddCases(KB(), st);
        match existing {
          case Found(k) =>
            outcome := ReviseExistingStatement(st, k);
            if outcome == Done {
              events := events + [Event(UPDATED, st)];
            }
          case Missing =>
            AddNewStatement(st);
            events := events + [Event(ADDED, st)];
          case Several =>
            outcome := MultipleEdges;
        }
      }
    }

    /** Several statements in turn, up to the first exception, with the events held back. */
    method AddAll(sts: seq<Statement>) returns (outcome: Outcome)
      requires Valid() && Proper(KB()) && ProperInputs(sts)
      requires forall st :: st in sts ==> GoodStatement(st)
      modifies this
      ensures Valid() && Result(KB(), outcome) == Run(old(KB()), sts)
      ensures events == old(events) + Stream(old(KB()), sts) && !paused
    {
      paused := true;
      outcome := Done;
      var i := 0;
      while i < |sts|
        invariant 0 <= i <= |sts| && Valid() && outcome == Done
        invariant OnTrack(old(KB()), old(events), sts, KB(), events, i)
      {
        RunStep(old(KB()), old(events), sts, KB(), events, i);
        outcome := Add(sts[i]);
        if outcome != Done {
          paused := false;
          return;
        }
        i := i + 1;
      }
      paused := false;
    }

    // ---------- reading back ----------

    method GetAll() returns (res: seq<Statement>)
      requires Valid()
      ensures res == Packed(KB())
    {
      res := [];
      var k := 0;
      while k < |edges|
        invariant 0 <= k <= |edges|
        invariant res == Packed(KB()[..k])
      {
        var e := edges[k];
        assert ValidEdge(vertices, e);
        var statement := Statement(Decode(vertices[e.out]).value, e.copula, Decode(vertices[e.into]).value, e.truth);
        assert KB()[..k + 1][..k] == KB()[..k] && KB()[k] == statement;
        if |statement.Pack()| == 0 {
          res := res + [statement];
        }
        k := k + 1;
      }
      assert KB()[..k] == KB();
    }

    method GetBestPredicates(subj: Term, copula: string, limit: nat) returns (res: seq<Term>)
      requires Valid() && GoodTerm(subj)
      ensures var best := BestNeighbours(KB(), Subject, subj, copula, limit);
              |res| == |best| && forall i :: 0 <= i < |best| ==> best[i] < |KB()| && res[i] == KB()[best[i]].pred
    {
      res := BestTerms(Subject, subj, copula, limit);
    }

    method GetBestSubjects(pred: Term, copula: string, limit: nat) returns (res: seq<Term>)
      requires Valid() && GoodTerm(pred)
      ensures var best := BestNeighbours(KB(), Predicate, pred, copula, limit);
              |res| == |best| && forall i :: 0 <= i < |best| ==> best[i] < |KB()| && res[i] == KB()[best[i]].subj
    {
      res := BestTerms(Predicate, pred, copula, limit);
    }

    /** The terms of the neighbouring vertices, as the ordered query returns them. */
    method BestTerms(side: Side, t: Term, copula: string, limit: nat) returns (res: seq<Term>)
      requires Valid() && GoodTerm(t)
      ensures var best := BestNeighbours(KB(), side, t, copula, limit);
              |res| == |best| && forall i :: 0 <= i < |best| ==>
                best[i] < |KB()| && res[i] == End(KB()[best[i]], OtherSide(side))
    {
      var v := GetV(t);
      if v.None? {
        NoEdgesAt(vertices, edges, side, t, copula);
        res := [];
      } else {
        StoredKeysAgree(vertices, edges, side, t, copula, v.value, limit);
        var found := Top(StoredKey(edges, side), EdgesAt(edges, side, v.value, copula), limit);
        forall k | k in found ensures k < |edges| {
          TopMembers(StoredKey(edges, side), EdgesAt(edges, side, v.value, copula), limit, k);
        }
        res := IterableToList(found, OtherSide(side));
      }
    }

    method IterableToList(found: seq<nat>, side: Side) returns (res: seq<Term>)
      requires Valid() && forall k :: k in found ==> k < |edges|
      ensures |res| == |found|
      ensures forall i :: 0 <= i < |found| ==> found[i] < |KB()| && res[i] == End(KB()[found[i]], side)
    {
      res := [];
      var i := 0;
      while i < |found|
        invariant 0 <= i <= |found| && |res| == i
        invariant forall j :: 0 <= j < i ==> found[j] < |KB()| && res[j] == End(KB()[found[j]], side)
      {
        assert found[i] in found;
        NeighbourTerm(vertices, edges, side, found[i]);
        res := res + [Decode(vertices[Endpoint(edges[found[i]], side)]).value];
        i := i + 1;
      }
    }
  }

  /** The addition of a valid statement, by what its lookup finds. */
  lemma {:induction false} AddCases(kb: seq<Statement>, st: Statement)
    requires Proper(kb) && st.truth.Proper() && ValidStatement(st)
    ensures Matches(kb, st) == [] ==> KnowledgeBase.Add(kb, st) == Result(kb + Forms(st), Done)
    ensures |Matches(kb, st)| == 1 ==>
              var k := Matches(kb, st)[0];
              k < |kb| && KnowledgeBase.Add(kb, st) == Revise(kb, k, st)
    ensures |Matches(kb, st)| > 1 ==> KnowledgeBase.Add(kb, st) == Result(kb, MultipleEdges)
  {
    MatchesAre(kb, st);
  }

  /** After i additions: the rest of the run ends as the whole one, and completes its events. */
  ghost predicate OnTrack(kb0: seq<Statement>, events0: seq<Event>, sts: seq<Statement>,
                          kb: seq<Statement>, events: seq<Event>, i: nat)
    requires Proper(kb0) && ProperInputs(sts) && i <= |sts|
  {
    && Proper(kb) && ProperInputs(sts[i..])
    && Run(kb, sts[i..]) == Run(kb0, sts)
    && events + Stream(kb, sts[i..]) == events0 + Stream(kb0, sts)
  }

  lemma {:induction false} RunStep(kb0: seq<Statement>, events0: seq<Event>, sts: seq<Statement>,
                kb: seq<Statement>, events: seq<Event>, i: nat)
    requires Proper(kb0) && ProperInputs(sts) && i < |sts|
    requires OnTrack(kb0, events0, sts, kb, events, i)
    ensures sts[i].truth.Proper()
    ensures var r, events' := KnowledgeBase.Add(kb, sts[i]), events + Announced(kb, sts[i]);
            if r.outcome == Done then OnTrack(kb0, events0, sts, r.kb, events', i + 1)
            else r == Run(kb0, sts) && events' == events0 + Stream(kb0, sts)
  {
    RunUnfolds(kb, sts, i);
    StreamUnfolds(kb, sts, i);
    var r := KnowledgeBase.Add(kb, sts[i]);
    if r.outcome == Done {
      assert events + (Announced(kb, sts[i]) + Stream(r.kb, sts[i + 1..]))
          == events + Announced(kb, sts[i]) + Stream(r.kb, sts[i + 1..]);
    } else {
      assert Announced(kb, sts[i]) == [];
    }
  }

  lemma {:induction false} RunUnfolds(kb: seq<Statement>, sts: seq<Statement>, i: nat)
    requires Proper(kb) && ProperInputs(sts) && i < |sts|
    ensures ProperInputs(sts[i..]) && ProperInputs(sts[i + 1..]) && sts[i].truth.Proper()
    ensures Proper(KnowledgeBase.Add(kb, sts[i]).kb)
    ensures var r := KnowledgeBase.Add(kb, sts[i]);
            Run(kb, sts[i..]) == if r.outcome == Done then Run(r.kb, sts[i + 1..]) else r
  {
    assert sts[i] in sts;
    AddProper(kb, sts[i]);
    assert sts[i..][0] == sts[i] && sts[i..][1..] == sts[i + 1..];
  }

  lemma {:induction false} StreamUnfolds(kb: seq<Statement>, sts: seq<Statement>, i: nat)
    requires Proper(kb) && ProperInputs(sts) && i < |sts|
    ensures ProperInputs(sts[i..]) && ProperInputs(sts[i + 1..]) && sts[i].truth.Proper()
    ensures Proper(KnowledgeBase.Add(kb, sts[i]).kb)
    ensures var r := KnowledgeBase.Add(kb, sts[i]);
            Stream(kb, sts[i..]) ==
              Announced(kb, sts[i]) + if r.outcome == Done then Stream(r.kb, sts[i + 1..]) else []
  {
    assert sts[i] in sts;
    AddProper(kb, sts[i]);
    assert sts[i..][0] == sts[i] && sts[i..][1..] == sts[i + 1..];
  }

  /** The event that an addition raises: none when the statement is invalid or the addition throws. */
  function Announced(kb: seq<Statement>, st: Statement): seq<Event>
    requires Proper(kb) && st.truth.Proper()
  {
    if !ValidStatement(st) || KnowledgeBase.Add(kb, st).outcome != Done then []
    else [Event(if Matches(kb, st) == [] then ADDED else UPDATED, st)]
  }

  /** The events of a run. */
  function Stream(kb: seq<Statement>, sts: seq<Statement>): seq<Event>
    requires Proper(kb) && ProperInputs(sts)
    decreases |sts|
  {
    if sts == [] then []
    else
      AddProper(kb, sts[0]);
      var r := KnowledgeBase.Add(kb, sts[0]);
      Announced(kb, sts[0]) + if r.outcome == Done then Stream(r.kb, sts[1..]) else []
  }
}
