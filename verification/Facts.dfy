/** Facts: what the redundantly stored forms of a statement have in common. */
module Facts {

  import opened Sequences
  import opened Terms
  import opened Statements
  import opened Truths

  /** A directed statement in canonical form, or the unordered pair of a similarity. */
  datatype Fact = Directed(subj: Term, copula: string, pred: Term) | Mutual(terms: set<Term>)

  function FactOf(st: Statement): Fact {
    if st.copula == SIMILAR then Mutual({st.subj, st.pred})
    else var c := st.Canonical(); Directed(c.subj, c.copula, c.pred)
  }

  /** The forms stored beside a statement: the mirrored similarity, or the other images. */
  function Others(st: Statement): seq<Statement> {
    if st.copula == SIMILAR then [st.Opposite()] else st.AllImages()[1..]
  }

  function Forms(st: Statement): seq<Statement> {
    [st] + Others(st)
  }

  /** What a caller can check before adding a statement: no reflexive similarity, and no placeholder
      as the first argument of a relation. */
  predicate Sound(st: Statement) {
    st.Regular() && (st.copula == SIMILAR ==> st.subj != st.pred)
  }

  /** The same edge of the graph, whatever its truth. */
  predicate Same(e: Statement, st: Statement) {
    e.subj == st.subj && e.copula == st.copula && e.pred == st.pred
  }

  lemma PackIgnoresTruth(st: Statement, t: Truth)
    ensures |st.(truth := t).Pack()| == |st.Pack()|
    ensures forall k :: 0 <= k < |st.Pack()| ==> st.(truth := t).Pack()[k] == st.Pack()[k].(truth := t)
  {
  }

  lemma UnpackIgnoresTruth(st: Statement, t: Truth)
    ensures |st.(truth := t).Unpack()| == |st.Unpack()|
    ensures forall k :: 0 <= k < |st.Unpack()| ==> st.(truth := t).Unpack()[k] == st.Unpack()[k].(truth := t)
  {
  }

  lemma ImagesIgnoreTruth(st: Statement, t: Truth)
    ensures var u := st.(truth := t);
            && |u.AllImages()| == |st.AllImages()|
            && forall k :: 0 <= k < |st.AllImages()| ==> u.AllImages()[k] == st.AllImages()[k].(truth := t)
  {
    PackIgnoresTruth(st, t);
    UnpackIgnoresTruth(st, t);
  }

  lemma CanonicalIgnoresTruth(st: Statement, t: Truth)
    ensures st.(truth := t).Canonical() == st.Canonical().(truth := t)
    ensures st.(truth := t).Regular() <==> st.Regular()
  {
    PackIgnoresTruth(st, t);
  }

  lemma FormsAreImages(st: Statement)
    ensures st.copula != SIMILAR ==> Forms(st) == st.AllImages()
  {
  }

  /** The forms carry the truth of the statement. */
  lemma TruthsOfForms(st: Statement)
    ensures forall k :: 0 <= k < |Forms(st)| ==> Forms(st)[k].truth == st.truth
  {
    ImagesIgnoreTruth(st, st.truth);
    FormsAreImages(st);
  }

  /** Facts, forms and soundness do not look at the truth. */
  lemma TruthIrrelevant(st: Statement, t: Truth)
    ensures var u := st.(truth := t);
            && FactOf(u) == FactOf(st) && (Sound(u) <==> Sound(st))
            && |Forms(u)| == |Forms(st)|
            && forall k :: 0 <= k < |Forms(st)| ==> Forms(u)[k] == Forms(st)[k].(truth := t)
  {
    ImagesIgnoreTruth(st, t);
    CanonicalIgnoresTruth(st, t);
    FormsAreImages(st);
    FormsAreImages(st.(truth := t));
  }

  /** The forms of a sound statement: pairwise distinct, sound, of the same fact and truth. */
  lemma FormsOfSound(st: Statement)
    requires Sound(st)
    ensures Distinct(Forms(st))
    ensures forall m :: m in Forms(st) ==> Sound(m) && FactOf(m) == FactOf(st) && m.truth == st.truth
  {
    FormsAreImages(st);
    if st.copula == SIMILAR {
      var o := st.Opposite();
      assert Forms(st) == [st, o];
      assert FactOf(o) == FactOf(st);
    } else {
      RegularForms(st);
    }
  }

  /** And all of them: a sound statement of the same fact and truth is one of the forms. */
  lemma FormsComplete(st: Statement, v: Statement)
    requires Sound(st) && Sound(v) && FactOf(st) == FactOf(v) && st.truth == v.truth
    ensures v in Forms(st)
  {
    FormsAreImages(st);
    if st.copula == SIMILAR {
      var o := st.Opposite();
      assert Forms(st) == [st, o];
      assert st.subj in FactOf(v).terms && st.pred in FactOf(v).terms;
      assert v.subj in FactOf(st).terms && v.pred in FactOf(st).terms;
    } else {
      RegularForms(st);
      RegularForms(v);
      var c := st.Canonical();
      assert c in st.AllImages() && SameFamily(st, c);
      assert c == v.Canonical() by { assert v.Canonical() in v.AllImages() && SameFamily(v, v.Canonical()); }
      assert v in Members(c.AllImages());
    }
  }
}
