/** The knowledge base as a multigraph of statements, and what adding a statement does to it.

    Edges are kept in insertion order. Nothing here assumes that an edge is unique: that it is, and
    that no lookup ever fails, are theorems about the reachable knowledge bases. */
module KnowledgeBase {

  import opened Facts
  import opened Options
  import opened Sequences
  import opened Statements
  import opened Terms
  import opened Truths

  /** How an addition ends: the two failures are the exceptions of the store. */
  datatype Outcome = Done | NoEdge | MultipleEdges

  datatype Result = Result(kb: seq<Statement>, outcome: Outcome)

  predicate ValidStatement(st: Statement) {
    if st.subj.Compound? && st.subj.con == PRODUCT && st.copula == INHERIT && st.pred.Compound? then false
    else if st.subj.Compound? && st.copula == INHERIT && st.pred.Compound? && st.pred.con == PRODUCT then false
    else if st.subj.Compound? && st.subj.con == EXT_IMAGE then false
    else if st.pred.Compound? && st.pred.con == INT_IMAGE then false
    else true
  }

  /** Positions of the edges with the subject, copula and predicate of st. */
  function Matches(kb: seq<Statement>, st: Statement): seq<nat>
  {
    if kb == [] then []
    else
      var n := |kb| - 1;
      Matches(kb[..n], st) + if Same(kb[n], st) then [n] else []
  }

  ghost predicate Proper(kb: seq<Statement>) {
    forall k :: 0 <= k < |kb| ==> kb[k].truth.Proper()
  }

  function Retruth(kb: seq<Statement>, k: nat, t: Truth): seq<Statement>
    requires k < |kb|
  {
    kb[k := kb[k].(truth := t)]
  }

  function SetTruth(kb: seq<Statement>, st: Statement, t: Truth): Result
  {
    MatchesAre(kb, st);
    var found := Matches(kb, st);
    if found == [] then Result(kb, NoEdge)
    else if |found| == 1 then Result(Retruth(kb, found[0], t), Done)
    else Result(kb, MultipleEdges)
  }

  /** The statements in turn, up to the first failure. */
  function SetTruths(kb: seq<Statement>, sts: seq<Statement>, t: Truth): Result
    decreases |sts|
  {
    if sts == [] then Result(kb, Done)
    else
      var r := SetTruth(kb, sts[0], t);
      if r.outcome == Done then SetTruths(r.kb, sts[1..], t) else r
  }

  function Revise(kb: seq<Statement>, k: nat, st: Statement): Result
    requires k < |kb| && kb[k].truth.Proper() && st.truth.Proper()
  {
    RevisionProper(kb[k].truth, st.truth);
    var revised := kb[k].truth.Revision(st.truth);
    SetTruths(Retruth(kb, k, revised), Others(st), revised)
  }

  function Add(kb: seq<Statement>, st: Statement): Result
    requires Proper(kb) && st.truth.Proper()
  {
    MatchesAre(kb, st);
    var found := Matches(kb, st);
    if !ValidStatement(st) then Result(kb, Done)
    else if found == [] then Result(kb + Forms(st), Done)
    else if |found| == 1 then Revise(kb, found[0], st)
    else Result(kb, MultipleEdges)
  }

  // ---------- lookup ----------

  lemma {:induction false} MatchesSound(kb: seq<Statement>, st: Statement)
    ensures forall j :: 0 <= j < |Matches(kb, st)| ==>
              Matches(kb, st)[j] < |kb| && Same(kb[Matches(kb, st)[j]], st)
    ensures forall i, j :: 0 <= i < j < |Matches(kb, st)| ==> Matches(kb, st)[i] < Matches(kb, st)[j]
  {
    if kb != [] {
      MatchesSound(kb[..|kb| - 1], st);
    }
  }

  lemma {:induction false} MatchesComplete(kb: seq<Statement>, st: Statement, k: nat)
    requires k < |kb| && Same(kb[k], st)
    ensures k in Matches(kb, st)
  {
    if k < |kb| - 1 {
      MatchesComplete(kb[..|kb| - 1], st, k);
    }
  }

  lemma {:induction false} MatchesAre(kb: seq<Statement>, st: Statement)
    ensures forall j :: 0 <= j < |Matches(kb, st)| ==>
              Matches(kb, st)[j] < |kb| && Same(kb[Matches(kb, st)[j]], st)
    ensures forall i, j :: 0 <= i < j < |Matches(kb, st)| ==> Matches(kb, st)[i] < Matches(kb, st)[j]
    ensures forall k: nat :: k < |kb| && Same(kb[k], st) ==> k in Matches(kb, st)
  {
    MatchesSound(kb, st);
    forall k: nat | k < |kb| && Same(kb[k], st) ensures k in Matches(kb, st) {
      MatchesComplete(kb, st, k);
    }
  }

  /** At most one edge per subject, copula and predicate. */
  ghost predicate Simple(kb: seq<Statement>) {
    forall i, j :: 0 <= i < j < |kb| ==> !Same(kb[i], kb[j])
  }

  lemma {:induction false} MatchesNone(kb: seq<Statement>, st: Statement)
    ensures Matches(kb, st) == [] <==> forall k: nat :: k < |kb| ==> !Same(kb[k], st)
  {
    MatchesAre(kb, st);
    var found := Matches(kb, st);
    if found != [] {
      assert Same(kb[found[0]], st);
    }
  }

  lemma {:induction false} MatchesOne(kb: seq<Statement>, st: Statement, k: nat)
    requires Simple(kb) && k < |kb| && Same(kb[k], st)
    ensures Matches(kb, st) == [k]
  {
    MatchesAre(kb, st);
    var found := Matches(kb, st);
    assert k in found;
    forall j | 0 <= j < |found| ensures found[j] == k {
      assert Same(kb[found[j]], kb[k]);
    }
    assert found[0] == found[|found| - 1];
  }

  // ---------- truths stay proper ----------

  lemma {:induction false} SetTruthsProper(kb: seq<Statement>, sts: seq<Statement>, t: Truth)
    requires Proper(kb) && t.Proper()
    ensures Proper(SetTruths(kb, sts, t).kb)
    decreases |sts|
  {
    if sts != [] {
      MatchesAre(kb, sts[0]);
      SetTruthsProper(SetTruth(kb, sts[0], t).kb, sts[1..], t);
    }
  }

  /** Whatever the knowledge base, adding proper evidence keeps every truth proper. */
  lemma AddProper(kb: seq<Statement>, st: Statement)
    requires Proper(kb) && st.truth.Proper()
    ensures Proper(Add(kb, st).kb)
  {
    MatchesAre(kb, st);
    var found := Matches(kb, st);
    if !ValidStatement(st) {
    } else if found == [] {
      TruthsOfForms(st);
    } else if |found| == 1 {
      RevisionProper(kb[found[0]].truth, st.truth);
      var t := kb[found[0]].truth.Revision(st.truth);
      SetTruthsProper(Retruth(kb, found[0], t), Others(st), t);
    }
  }

  // ---------- coherence ----------

  /** The redundant store agrees with itself: no parallel edges, and with every edge all its other
      forms, at the same truth. */
  ghost predicate Coherent(kb: seq<Statement>) {
    && Simple(kb)
    && forall e, m :: e in kb && m in Forms(e) ==> m in kb
  }

  ghost predicate AllSound(kb: seq<Statement>) {
    forall e :: e in kb ==> Sound(e)
  }

  /** The simple form of a knowledge base: one truth per fact. */
  type Ledger = map<Fact, Truth>

  ghost predicate Agrees(kb: seq<Statement>, ledger: Ledger) {
    && (forall e :: e in kb ==> FactOf(e) in ledger && e.truth == ledger[FactOf(e)])
    && (forall f :: f in ledger ==> exists e :: e in kb && FactOf(e) == f)
  }

  /** The knowledge base is a faithful redundant copy of the ledger. */
  ghost predicate Represents(kb: seq<Statement>, ledger: Ledger) {
    Proper(kb) && Coherent(kb) && AllSound(kb) && Agrees(kb, ledger)
  }

  /** Every sound statement of a known fact is an edge, at the truth of the fact. */
  lemma EdgeOfFact(kb: seq<Statement>, ledger: Ledger, st: Statement)
    requires Represents(kb, ledger) && Sound(st) && FactOf(st) in ledger
    ensures st.(truth := ledger[FactOf(st)]) in kb
  {
    var e :| e in kb && FactOf(e) == FactOf(st);
    TruthIrrelevant(st, e.truth);
    FormsComplete(e, st.(truth := e.truth));
  }

  /** ... and of an unknown fact, none. */
  lemma NoEdgeOfFact(kb: seq<Statement>, ledger: Ledger, st: Statement, k: nat)
    requires Represents(kb, ledger) && k < |kb| && Same(kb[k], st)
    ensures FactOf(st) in ledger && Sound(st)
  {
    assert kb[k] in kb;
    TruthIrrelevant(st, kb[k].truth);
    assert kb[k] == st.(truth := kb[k].truth);
  }

  // ---------- a new fact ----------

  lemma AddNewSimple(kb: seq<Statement>, ledger: Ledger, st: Statement)
    requires Represents(kb, ledger) && Sound(st) && FactOf(st) !in ledger
    ensures Simple(kb + Forms(st))
  {
    FormsOfSound(st);
    var forms := Forms(st);
    var kb' := kb + forms;
    forall i, j | 0 <= i < j < |kb'| ensures !Same(kb'[i], kb'[j]) {
      if i < |kb| <= j {
        assert kb'[j] == forms[j - |kb|] && kb'[j] in forms;
        if Same(kb[i], kb'[j]) {
          NoEdgeOfFact(kb, ledger, kb'[j], i);
        }
      } else if |kb| <= i {
        assert forms[i - |kb|] != forms[j - |kb|];
        assert forms[i - |kb|] in forms && forms[j - |kb|] in forms;
      }
    }
  }

  lemma AddNewClosed(kb: seq<Statement>, st: Statement)
    requires Coherent(kb) && Sound(st)
    ensures forall e, m :: e in kb + Forms(st) && m in Forms(e) ==> m in kb + Forms(st)
  {
    FormsOfSound(st);
    forall e, m | e in kb + Forms(st) && m in Forms(e) ensures m in kb + Forms(st) {
      if e in Forms(st) {
        FormsOfSound(e);
        FormsComplete(st, m);
      }
    }
  }

  lemma AddNewAgrees(kb: seq<Statement>, ledger: Ledger, st: Statement)
    requires Represents(kb, ledger) && Sound(st) && FactOf(st) !in ledger
    ensures Agrees(kb + Forms(st), ledger[FactOf(st) := st.truth])
  {
    FormsOfSound(st);
    var kb' := kb + Forms(st);
    var ledger' := ledger[FactOf(st) := st.truth];
    forall f | f in ledger' ensures exists e :: e in kb' && FactOf(e) == f {
      if f == FactOf(st) {
        assert Forms(st)[0] == st && st in kb';
      } else {
        var e :| e in kb && FactOf(e) == f;
        assert e in kb';
      }
    }
  }

  lemma AddNew(kb: seq<Statement>, ledger: Ledger, st: Statement)
    requires Represents(kb, ledger) && Sound(st) && st.truth.Proper()
    requires FactOf(st) !in ledger
    ensures Represents(kb + Forms(st), ledger[FactOf(st) := st.truth])
  {
    AddNewSimple(kb, ledger, st);
    AddNewClosed(kb, st);
    AddNewAgrees(kb, ledger, st);
    FormsOfSound(st);
    var kb' := kb + Forms(st);
    forall k | 0 <= k < |kb'| ensures kb'[k].truth.Proper() {
      if k >= |kb| {
        assert kb'[k] == Forms(st)[k - |kb|] && kb'[k] in Forms(st);
      }
    }
  }

  // ---------- a revised fact ----------

  ghost predicate Covers(sts: seq<Statement>, e: Statement) {
    exists s :: s in sts && Same(e, s)
  }

  /** kb with truth t on the edges that sts names. */
  ghost predicate Retruthed(kb: seq<Statement>, sts: seq<Statement>, t: Truth, kb': seq<Statement>) {
    && |kb'| == |kb|
    && forall k :: 0 <= k < |kb| ==>
         kb'[k] == if Covers(sts, kb[k]) then kb[k].(truth := t) else kb[k]
  }

  ghost predicate HasEdge(kb: seq<Statement>, st: Statement) {
    exists k :: 0 <= k < |kb| && Same(kb[k], st)
  }

  lemma HasEdgeRetruth(kb: seq<Statement>, k: nat, t: Truth, st: Statement)
    requires k < |kb| && HasEdge(kb, st)
    ensures HasEdge(Retruth(kb, k, t), st)
  {
    var j :| 0 <= j < |kb| && Same(kb[j], st);
    assert Same(Retruth(kb, k, t)[j], st);
  }

  /** Where every named edge exists once, setting truths never fails. */
  lemma {:induction false} SetTruthsOn(kb: seq<Statement>, sts: seq<Statement>, t: Truth)
    requires Simple(kb)
    requires forall s :: s in sts ==> HasEdge(kb, s)
    ensures SetTruths(kb, sts, t).outcome == Done
    ensures Retruthed(kb, sts, t, SetTruths(kb, sts, t).kb)
    decreases |sts|
  {
    if sts != [] {
      assert HasEdge(kb, sts[0]);
      var k :| 0 <= k < |kb| && Same(kb[k], sts[0]);
      MatchesOne(kb, sts[0], k);
      var kb1 := Retruth(kb, k, t);
      forall s | s in sts[1..] ensures HasEdge(kb1, s) {
        HasEdgeRetruth(kb, k, t, s);
      }
      SetTruthsOn(kb1, sts[1..], t);
      var kb' := SetTruths(kb1, sts[1..], t).kb;
      forall j | 0 <= j < |kb|
        ensures kb'[j] == if Covers(sts, kb[j]) then kb[j].(truth := t) else kb[j]
      {
        CoversCons(sts, kb[j], kb1[j]);
        assert Same(kb[j], sts[0]) ==> j == k;
      }
    }
  }

  lemma CoversCons(sts: seq<Statement>, e: Statement, e1: Statement)
    requires sts != [] && Same(e, e1)
    ensures Covers(sts, e) <==> Same(e, sts[0]) || Covers(sts[1..], e1)
  {
    if Covers(sts, e) && !Same(e, sts[0]) {
      var s :| s in sts && Same(e, s);
      assert s in sts[1..] && Same(e1, s);
    }
    if Covers(sts[1..], e1) {
      var s :| s in sts[1..] && Same(e1, s);
      assert s in sts && Same(e, s);
    }
  }

  /** An edge is named by the forms of st exactly when it is of the same fact. */
  lemma CoversIffFact(st: Statement, e: Statement)
    requires Sound(st) && Sound(e)
    ensures Covers(Forms(st), e) <==> FactOf(e) == FactOf(st)
  {
    FormsOfSound(st);
    TruthIrrelevant(e, st.truth);
    if Covers(Forms(st), e) {
      var s :| s in Forms(st) && Same(e, s);
      assert e.(truth := st.truth) == s;
    }
    if FactOf(e) == FactOf(st) {
      FormsComplete(st, e.(truth := st.truth));
      assert Same(e, e.(truth := st.truth));
    }
  }

  /** kb with truth t on every edge of the fact of st. */
  ghost predicate Revised(kb: seq<Statement>, st: Statement, t: Truth, kb': seq<Statement>) {
    && |kb'| == |kb|
    && forall k :: 0 <= k < |kb| ==>
         kb'[k] == if FactOf(kb[k]) == FactOf(st) then kb[k].(truth := t) else kb[k]
  }

  lemma FactHasEdge(kb: seq<Statement>, ledger: Ledger, st: Statement)
    requires Represents(kb, ledger) && Sound(st) && FactOf(st) in ledger
    ensures HasEdge(kb, st)
  {
    EdgeOfFact(kb, ledger, st);
    var k :| 0 <= k < |kb| && kb[k] == st.(truth := ledger[FactOf(st)]);
    assert Same(kb[k], st);
  }

  /** Revising an edge revises all edges of its fact and no other, and succeeds. */
  lemma ReviseIs(kb: seq<Statement>, ledger: Ledger, k: nat, st: Statement)
    requires Represents(kb, ledger) && st.truth.Proper() && k < |kb| && Same(kb[k], st)
    ensures kb[k].truth.RevisionFi(st.truth) != 0.0 && kb[k].truth.RevisionCi(st.truth) != 0.0
    ensures var r := Revise(kb, k, st);
            r.outcome == Done && Revised(kb, st, kb[k].truth.Revision(st.truth), r.kb)
  {
    RevisionProper(kb[k].truth, st.truth);
    var t := kb[k].truth.Revision(st.truth);
    NoEdgeOfFact(kb, ledger, st, k);
    var kb1 := Retruth(kb, k, t);
    FormsOfSound(st);
    forall s | s in Others(st) ensures HasEdge(kb1, s) {
      assert s in Forms(st);
      FactHasEdge(kb, ledger, s);
      HasEdgeRetruth(kb, k, t, s);
    }
    SetTruthsOn(kb1, Others(st), t);
    var kb' := Revise(kb, k, st).kb;
    forall j | 0 <= j < |kb|
      ensures kb'[j] == if FactOf(kb[j]) == FactOf(st) then kb[j].(truth := t) else kb[j]
    {
      assert kb[j] in kb;
      CoversIffFact(st, kb[j]);
      assert Forms(st)[1..] == Others(st);
      CoversCons(Forms(st), kb[j], kb1[j]);
      assert Same(kb[j], st) ==> j == k;
    }
  }

  /** Edge by edge, a revision changes nothing but the truth. */
  lemma RevisedPointwise(kb: seq<Statement>, ledger: Ledger, st: Statement, t: Truth, kb': seq<Statement>)
    requires Represents(kb, ledger) && FactOf(st) in ledger && Revised(kb, st, t, kb')
    ensures forall j :: 0 <= j < |kb| ==>
              && FactOf(kb'[j]) == FactOf(kb[j]) && Sound(kb'[j]) && Same(kb'[j], kb[j])
              && FactOf(kb[j]) in ledger && kb'[j].truth == ledger[FactOf(st) := t][FactOf(kb[j])]
  {
    forall j | 0 <= j < |kb|
      ensures FactOf(kb'[j]) == FactOf(kb[j]) && Sound(kb'[j]) && Same(kb'[j], kb[j])
      ensures FactOf(kb[j]) in ledger && kb'[j].truth == ledger[FactOf(st) := t][FactOf(kb[j])]
    {
      assert kb[j] in kb;
      TruthIrrelevant(kb[j], t);
    }
  }

  lemma RevisedClosed(kb: seq<Statement>, ledger: Ledger, st: Statement, t: Truth, kb': seq<Statement>,
                      e: Statement, m: Statement)
    requires Represents(kb, ledger) && FactOf(st) in ledger && Revised(kb, st, t, kb')
    requires e in kb' && m in Forms(e)
    ensures m in kb'
  {
    RevisedPointwise(kb, ledger, st, t, kb');
    FormsOfSound(e);
    FactHasEdge(kb, ledger, m);
    var i :| 0 <= i < |kb| && Same(kb[i], m);
    TruthIrrelevant(m, kb[i].truth);
    assert kb[i] == m.(truth := kb[i].truth);
    assert kb'[i] == m;
  }

  lemma RevisedKnown(kb: seq<Statement>, ledger: Ledger, st: Statement, t: Truth, kb': seq<Statement>,
                     e: Statement)
    requires Represents(kb, ledger) && FactOf(st) in ledger && Revised(kb, st, t, kb') && e in kb'
    ensures FactOf(e) in ledger && Sound(e) && e.truth == ledger[FactOf(st) := t][FactOf(e)]
  {
    RevisedPointwise(kb, ledger, st, t, kb');
    var j :| 0 <= j < |kb'| && kb'[j] == e;
    assert FactOf(kb'[j]) == FactOf(kb[j]);
  }

  lemma RevisedCovers(kb: seq<Statement>, ledger: Ledger, st: Statement, t: Truth, kb': seq<Statement>,
                      f: Fact)
    requires Represents(kb, ledger) && FactOf(st) in ledger && Revised(kb, st, t, kb') && f in ledger
    ensures exists e :: e in kb' && FactOf(e) == f
  {
    RevisedPointwise(kb, ledger, st, t, kb');
    var e :| e in kb && FactOf(e) == f;
    var j :| 0 <= j < |kb| && kb[j] == e;
    assert kb'[j] in kb' && FactOf(kb'[j]) == f;
  }

  lemma RevisedRepresents(kb: seq<Statement>, ledger: Ledger, st: Statement, t: Truth, kb': seq<Statement>)
    requires Represents(kb, ledger) && FactOf(st) in ledger && t.Proper() && Revised(kb, st, t, kb')
    ensures Represents(kb', ledger[FactOf(st) := t])
  {
    forall e | e in kb' ensures Sound(e) && FactOf(e) in ledger && e.truth == ledger[FactOf(st) := t][FactOf(e)] {
      RevisedKnown(kb, ledger, st, t, kb', e);
    }
    forall f | f in ledger ensures exists e :: e in kb' && FactOf(e) == f {
      RevisedCovers(kb, ledger, st, t, kb', f);
    }
    forall e, m | e in kb' && m in Forms(e) ensures m in kb' {
      RevisedClosed(kb, ledger, st, t, kb', e, m);
    }
    RevisedPointwise(kb, ledger, st, t, kb');
  }

  // ---------- one addition ----------

  /** Adding on the ledger: revise the fact, or enter it. */
  function Enter(ledger: Ledger, st: Statement): Ledger
    requires st.truth.Proper() && forall f :: f in ledger ==> ledger[f].Proper()
  {
    var f := FactOf(st);
    if !ValidStatement(st) then ledger
    else if f in ledger then RevisionProper(ledger[f], st.truth); ledger[f := ledger[f].Revision(st.truth)]
    else ledger[f := st.truth]
  }

  lemma LedgerProper(kb: seq<Statement>, ledger: Ledger)
    requires Represents(kb, ledger)
    ensures forall f :: f in ledger ==> ledger[f].Proper()
  {
    forall f | f in ledger ensures ledger[f].Proper() {
      var e :| e in kb && FactOf(e) == f;
    }
  }

  /** Adding a sound statement never fails, and does to the graph what entering does to the ledger. */
  lemma AddRepresents(kb: seq<Statement>, ledger: Ledger, st: Statement)
    requires Represents(kb, ledger) && st.truth.Proper() && (ValidStatement(st) ==> Sound(st))
    ensures forall f :: f in ledger ==> ledger[f].Proper()
    ensures Add(kb, st).outcome == Done && Represents(Add(kb, st).kb, Enter(ledger, st))
  {
    LedgerProper(kb, ledger);
    if !ValidStatement(st) {
      return;
    }
    MatchesAre(kb, st);
    var found := Matches(kb, st);
    if found == [] {
      if FactOf(st) in ledger {
        FactHasEdge(kb, ledger, st);
      }
      AddNew(kb, ledger, st);
    } else {
      var k := found[0];
      MatchesOne(kb, st, k);
      NoEdgeOfFact(kb, ledger, st, k);
      ReviseIs(kb, ledger, k, st);
      assert kb[k] in kb;
      TruthIrrelevant(st, kb[k].truth);
      assert kb[k] == st.(truth := kb[k].truth);
      RevisionProper(kb[k].truth, st.truth);
      RevisedRepresents(kb, ledger, st, kb[k].truth.Revision(st.truth), Revise(kb, k, st).kb);
    }
  }

  lemma SimpleIsDistinct(kb: seq<Statement>, forms: seq<Statement>)
    requires Simple(kb + forms)
    ensures Distinct(forms)
  {
    var both := kb + forms;
    forall i, j | 0 <= i < j < |forms| ensures forms[i] != forms[j] {
      assert !Same(both[|kb| + i], both[|kb| + j]);
    }
  }

  lemma TwiceIn(kb: seq<Statement>, forms: seq<Statement>, e: Statement)
    requires e in kb && e in forms
    ensures !Simple(kb + forms)
  {
    var i :| 0 <= i < |kb| && kb[i] == e;
    var j :| 0 <= j < |forms| && forms[j] == e;
    assert Same((kb + forms)[i], (kb + forms)[|kb| + j]);
  }

  /** A valid statement that is not sound always breaks the store: either the same edge appears
      twice, or an edge is left without one of its forms. */
  lemma UnsoundBreaks(kb: seq<Statement>, ledger: Ledger, st: Statement)
    requires Represents(kb, ledger) && st.truth.Proper() && ValidStatement(st) && !Sound(st)
    ensures Add(kb, st) == Result(kb + Forms(st), Done) && !Coherent(kb + Forms(st))
  {
    MatchesNone(kb, st);
    forall k: nat | k < |kb| ensures !Same(kb[k], st) {
      if Same(kb[k], st) {
        NoEdgeOfFact(kb, ledger, st, k);
      }
    }
    var kb' := kb + Forms(st);
    if st.Regular() {
      assert kb'[|kb|] == st && kb'[|kb| + 1] == st.Opposite();
      assert Same(kb'[|kb|], kb'[|kb| + 1]);
    } else {
      var j, p := IrregularForms(st);
      FormsAreImages(st);
      if Coherent(kb') {
        SimpleIsDistinct(kb, Forms(st));
        FormsAreImages(j);
        FormsAreImages(p);
        assert p in Forms(j) && p in kb';
        assert p in kb && Coherent(kb) && j in Forms(p);
        TwiceIn(kb, Forms(st), j);
      }
    }
  }

  // ---------- additions that throw ----------

  lemma {:induction false} SetTruthsKeepsOrSets(kb: seq<Statement>, sts: seq<Statement>, t: Truth)
    ensures var kb' := SetTruths(kb, sts, t).kb;
            |kb'| == |kb| && forall k :: 0 <= k < |kb| ==> kb'[k] == kb[k] || kb'[k] == kb[k].(truth := t)
    decreases |sts|
  {
    if sts != [] {
      MatchesAre(kb, sts[0]);
      SetTruthsKeepsOrSets(SetTruth(kb, sts[0], t).kb, sts[1..], t);
    }
  }

  ghost predicate SeveralEdges(kb: seq<Statement>, st: Statement) {
    exists i, j :: 0 <= i < j < |kb| && Same(kb[i], st) && Same(kb[j], st)
  }

  /** Setting a truth throws exactly when there is no such edge, or several; then it changes nothing. */
  lemma SetTruthThrows(kb: seq<Statement>, st: Statement, t: Truth)
    ensures var r := SetTruth(kb, st, t);
            && (r.outcome == NoEdge <==> !HasEdge(kb, st))
            && (r.outcome == MultipleEdges <==> SeveralEdges(kb, st))
            && (r.outcome != Done ==> r.kb == kb)
  {
    MatchesAre(kb, st);
    var found := Matches(kb, st);
    if found != [] {
      assert Same(kb[found[0]], st);
    }
    if |found| > 1 {
      assert found[0] < found[1] && Same(kb[found[0]], st) && Same(kb[found[1]], st);
    }
    if i, j :| 0 <= i < j < |kb| && Same(kb[i], st) && Same(kb[j], st) {
      assert i in found && j in found;
    }
  }

  /** Even when one of the other forms is missing, or there several times, the edge that was found is
      revised. */
  lemma RevisedInAnyCase(kb: seq<Statement>, k: nat, st: Statement)
    requires k < |kb| && kb[k].truth.Proper() && st.truth.Proper()
    ensures kb[k].truth.RevisionFi(st.truth) != 0.0 && kb[k].truth.RevisionCi(st.truth) != 0.0
    ensures |Revise(kb, k, st).kb| == |kb|
    ensures Revise(kb, k, st).kb[k] == kb[k].(truth := kb[k].truth.Revision(st.truth))
  {
    RevisionProper(kb[k].truth, st.truth);
    var t := kb[k].truth.Revision(st.truth);
    SetTruthsKeepsOrSets(Retruth(kb, k, t), Others(st), t);
  }

  // ---------- which statements are ignored ----------

  predicate IsCompound(t: Term, con: string) {
    t.Compound? && t.con == con
  }

  /** An extensional image where only intensions stand, or the other way round; or a product related to
      another compound. */
  predicate Misplaced(st: Statement) {
    || IsCompound(st.subj, EXT_IMAGE) || IsCompound(st.pred, INT_IMAGE)
    || (st.copula == INHERIT && st.subj.Compound? && st.pred.Compound?
        && (IsCompound(st.subj, PRODUCT) || IsCompound(st.pred, PRODUCT)))
  }

  /** An addition ignores exactly the misplaced statements: any other one is in the knowledge base
      afterwards, unless the addition throws. */
  lemma IgnoredIffMisplaced(kb: seq<Statement>, ledger: Ledger, st: Statement)
    requires Represents(kb, ledger) && st.truth.Proper()
    ensures Misplaced(st) ==> Add(kb, st) == Result(kb, Done)
    ensures !Misplaced(st) ==> HasEdge(Add(kb, st).kb, st) && Add(kb, st).kb != kb
  {
    if !Misplaced(st) {
      if Sound(st) {
        KeepsSound(kb, ledger, st);
      } else {
        UnsoundBreaks(kb, ledger, st);
        assert (kb + Forms(st))[|kb|] == st;
      }
    }
  }

  lemma KeepsSound(kb: seq<Statement>, ledger: Ledger, st: Statement)
    requires Represents(kb, ledger) && st.truth.Proper() && ValidStatement(st) && Sound(st)
    ensures HasEdge(Add(kb, st).kb, st) && Add(kb, st).kb != kb
  {
    LedgerProper(kb, ledger);
    AddRepresents(kb, ledger, st);
    FactHasEdge(Add(kb, st).kb, Enter(ledger, st), st);
    MatchesNone(kb, st);
    if Matches(kb, st) != [] {
      RevisedDiffers(kb, ledger, st);
    }
  }

  lemma {:induction false} RevisedDiffers(kb: seq<Statement>, ledger: Ledger, st: Statement)
    requires Represents(kb, ledger) && st.truth.Proper() && ValidStatement(st) && Matches(kb, st) != []
    ensures Add(kb, st).kb != kb
  {
    MatchesAre(kb, st);
    var k := Matches(kb, st)[0];
    MatchesOne(kb, st, k);
    ReviseIs(kb, ledger, k, st);
    RevisionConfidence(kb[k].truth, st.truth);
    TruthIrrelevant(st, kb[k].truth);
    assert kb[k] == st.(truth := kb[k].truth);
    assert Revise(kb, k, st).kb[k].truth != kb[k].truth;
  }

  /** No inheritance edge is ever misplaced. */
  ghost predicate WellPlaced(kb: seq<Statement>) {
    forall e :: e in kb && e.copula == INHERIT ==> !Misplaced(e)
  }

  lemma {:induction false} SetTruthsSame(kb: seq<Statement>, sts: seq<Statement>, t: Truth)
    ensures |SetTruths(kb, sts, t).kb| == |kb|
    ensures forall k :: 0 <= k < |kb| ==> Same(SetTruths(kb, sts, t).kb[k], kb[k])
    decreases |sts|
  {
    if sts != [] {
      MatchesAre(kb, sts[0]);
      SetTruthsSame(SetTruth(kb, sts[0], t).kb, sts[1..], t);
    }
  }

  /** Whatever is added, in any run, the inheritance edges stay well placed. */
  lemma AddWellPlaced(kb: seq<Statement>, st: Statement)
    requires Proper(kb) && WellPlaced(kb) && st.truth.Proper()
    ensures WellPlaced(Add(kb, st).kb)
  {
    MatchesAre(kb, st);
    var found := Matches(kb, st);
    if ValidStatement(st) && found == [] {
      FormsPlaced(st);
    } else if ValidStatement(st) && |found| == 1 {
      var k := found[0];
      RevisionProper(kb[k].truth, st.truth);
      var t := kb[k].truth.Revision(st.truth);
      SetTruthsSame(Retruth(kb, k, t), Others(st), t);
      SameIsPlaced(kb, Add(kb, st).kb);
    }
  }

  lemma FormsPlaced(st: Statement)
    requires ValidStatement(st)
    ensures forall e :: e in Forms(st) && e.copula == INHERIT ==> !Misplaced(e)
  {
    FormsAreImages(st);
    if st.copula == INHERIT {
      ValidImages(st);
    } else if st.copula != SIMILAR {
      FormsKeepCopula(st);
    }
  }

  lemma FormsKeepCopula(st: Statement)
    requires st.copula != SIMILAR && st.copula != INHERIT
    ensures Forms(st) == [st]
  {
  }

  lemma SameIsPlaced(kb: seq<Statement>, kb': seq<Statement>)
    requires WellPlaced(kb) && |kb'| == |kb| && forall k :: 0 <= k < |kb| ==> Same(kb'[k], kb[k])
    ensures WellPlaced(kb')
  {
    forall e | e in kb' && e.copula == INHERIT ensures !Misplaced(e) {
      var k :| 0 <= k < |kb'| && kb'[k] == e;
      assert kb[k] in kb;
    }
  }

  // ---------- which forms of a fact may be added ----------

  /** Every form of a valid inheritance is valid, so that each of them can be stated again. */
  lemma ValidImages(st: Statement)
    requires ValidStatement(st) && st.copula == INHERIT
    ensures forall m :: m in st.AllImages() ==> ValidStatement(m)
  {
    var r, k := Shape(st);
  }

  predicate IsPair(t: Term) {
    t.Compound? && t.con == PRODUCT && |t.comps| == 2
  }

  /** A binary product in a valid inheritance relates to an atomic term, so that it always has images. */
  lemma ValidProductsUnpack(st: Statement)
    requires ValidStatement(st) && st.copula == INHERIT
    ensures IsPair(st.subj) || IsPair(st.pred) ==> |st.Unpack()| == 2 && |st.AllImages()| == 3
  {
    var r, k := Shape(st);
  }

  /** The mirrored form of a valid similarity is valid unless an image stands on either side; with one,
      the mirrored form is stored, but stating it has no effect. */
  lemma ValidOpposite(st: Statement)
    requires ValidStatement(st) && st.copula == SIMILAR
    ensures ValidStatement(st.Opposite()) <==>
              !(st.subj.Compound? && st.subj.con == INT_IMAGE) && !(st.pred.Compound? && st.pred.con == EXT_IMAGE)
  {
  }
}
