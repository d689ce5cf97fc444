/** Statements and their structural transformations: a product statement and its two images are
    three forms of one fact. */
module Statements {

  import opened Sequences
  import opened Terms
  import opened Truths

  const INHERIT := "->"
  const SIMILAR := "~"

  datatype Statement = Statement(subj: Term, copula: string, pred: Term, truth: Truth)
  {
    // ---------- the shapes that the transformations match ----------

    /** (x a b) -> rel */
    predicate ExtProduct() {
      copula == INHERIT && pred.Atomic? && subj.Compound? && subj.con == PRODUCT && |subj.comps| == 2
    }

    /** rel -> (x a b) */
    predicate IntProduct() {
      copula == INHERIT && subj.Atomic? && pred.Compound? && pred.con == PRODUCT && |pred.comps| == 2
    }

    /** s -> (/ rel * b) */
    predicate ExtImageFirst() {
      copula == INHERIT && subj.Atomic? && pred.Compound? && pred.con == EXT_IMAGE
      && |pred.comps| == 3 && pred.comps[1] == PLACEHOLDER
    }

    /** s -> (/ rel a *) */
    predicate ExtImageSecond() {
      copula == INHERIT && subj.Atomic? && pred.Compound? && pred.con == EXT_IMAGE
      && |pred.comps| == 3 && pred.comps[2] == PLACEHOLDER
    }

    /** (\ rel * b) -> s */
    predicate IntImageFirst() {
      copula == INHERIT && pred.Atomic? && subj.Compound? && subj.con == INT_IMAGE
      && |subj.comps| == 3 && subj.comps[1] == PLACEHOLDER
    }

    /** (\ rel a *) -> s */
    predicate IntImageSecond() {
      copula == INHERIT && pred.Atomic? && subj.Compound? && subj.con == INT_IMAGE
      && |subj.comps| == 3 && subj.comps[2] == PLACEHOLDER
    }

    // ---------- the transformations ----------

    /** The two images of a product statement. */
    function Unpack(): seq<Statement> {
      if ExtProduct() then
        var t1, t2 := subj.comps[0], subj.comps[1];
        [Statement(Atomic(t1), INHERIT, Compound(EXT_IMAGE, [pred.name, PLACEHOLDER, t2]), truth),
         Statement(Atomic(t2), INHERIT, Compound(EXT_IMAGE, [pred.name, t1, PLACEHOLDER]), truth)]
      else if IntProduct() then
        var t1, t2 := pred.comps[0], pred.comps[1];
        [Statement(Compound(INT_IMAGE, [subj.name, PLACEHOLDER, t2]), INHERIT, Atomic(t1), truth),
         Statement(Compound(INT_IMAGE, [subj.name, t1, PLACEHOLDER]), INHERIT, Atomic(t2), truth)]
      else []
    }

    /** The product statement behind an image, and the other image. */
    function Pack(): seq<Statement> {
      if ExtImageFirst() then
        var rel, subj2 := pred.comps[0], pred.comps[2];
        [Statement(Compound(PRODUCT, [subj.name, subj2]), INHERIT, Atomic(rel), truth),
         Statement(Atomic(subj2), INHERIT, Compound(EXT_IMAGE, [rel, subj.name, PLACEHOLDER]), truth)]
      else if ExtImageSecond() then
        var rel, subj1 := pred.comps[0], pred.comps[1];
        [Statement(Compound(PRODUCT, [subj1, subj.name]), INHERIT, Atomic(rel), truth),
         Statement(Atomic(subj1), INHERIT, Compound(EXT_IMAGE, [rel, PLACEHOLDER, subj.name]), truth)]
      else if IntImageFirst() then
        var rel, subj2 := subj.comps[0], subj.comps[2];
        [Statement(Atomic(rel), INHERIT, Compound(PRODUCT, [pred.name, subj2]), truth),
         Statement(Compound(INT_IMAGE, [rel, pred.name, PLACEHOLDER]), INHERIT, Atomic(subj2), truth)]
      else if IntImageSecond() then
        var rel, subj1 := subj.comps[0], subj.comps[1];
        [Statement(Atomic(rel), INHERIT, Compound(PRODUCT, [subj1, pred.name]), truth),
         Statement(Compound(INT_IMAGE, [rel, PLACEHOLDER, pred.name]), INHERIT, Atomic(subj1), truth)]
      else []
    }

    /** The statement itself, followed by its other forms. */
    function AllImages(): seq<Statement> {
      var packed := Pack();
      [this] + if |packed| == 2 then packed else
                 var unpacked := Unpack();
                 if |unpacked| == 2 then unpacked else []
    }

    /** The form that stands for the whole family. */
    function Canonical(): Statement {
      var packed := Pack();
      if packed == [] then this else packed[0]
    }

    function Opposite(): Statement {
      Statement(pred, SIMILAR, subj, truth)
    }

    /** The first component of the relation is a real term: the placeholder marks the free position
        of an image, and must not also be an argument standing in the first position. */
    predicate Regular() {
      && (ExtProduct() ==> subj.comps[0] != PLACEHOLDER)
      && (IntProduct() ==> pred.comps[0] != PLACEHOLDER)
      && (ExtImageFirst() ==> subj.name != PLACEHOLDER)
      && (IntImageFirst() ==> pred.name != PLACEHOLDER)
    }
  }

  // ---------- image families ----------

  ghost function Members<T>(s: seq<T>): set<T> {
    set x | x in s
  }

  /** Every form of the statement has the same forms, and no form is listed twice. */
  ghost predicate Family(st: Statement) {
    Distinct(st.AllImages())
    && forall m :: m in st.AllImages() ==> Members(m.AllImages()) == Members(st.AllImages())
  }

  /** The relation that an image family expresses: extensional rel(a, b), intensional rel(a, b), or
      none, when the statement is its only form. */
  datatype Relation = Ext(rel: string, a: string, b: string) | Int(rel: string, a: string, b: string) | Plain

  /** Its product statement, its first image and its second image. */
  function Form(r: Relation, k: nat, t: Truth): Statement
    requires !r.Plain? && k < 3
  {
    match r
    case Ext(rel, a, b) =>
      if k == 0 then Statement(Compound(PRODUCT, [a, b]), INHERIT, Atomic(rel), t)
      else if k == 1 then Statement(Atomic(a), INHERIT, Compound(EXT_IMAGE, [rel, PLACEHOLDER, b]), t)
      else Statement(Atomic(b), INHERIT, Compound(EXT_IMAGE, [rel, a, PLACEHOLDER]), t)
    case Int(rel, a, b) =>
      if k == 0 then Statement(Atomic(rel), INHERIT, Compound(PRODUCT, [a, b]), t)
      else if k == 1 then Statement(Compound(INT_IMAGE, [rel, PLACEHOLDER, b]), INHERIT, Atomic(a), t)
      else Statement(Compound(INT_IMAGE, [rel, a, PLACEHOLDER]), INHERIT, Atomic(b), t)
  }

  /** Every form lists the other two behind itself. */
  lemma FamilyOf(r: Relation, t: Truth)
    requires !r.Plain? && r.a != PLACEHOLDER
    ensures var p, i, j := Form(r, 0, t), Form(r, 1, t), Form(r, 2, t);
            && p.AllImages() == [p, i, j] && p.Pack() == []
            && i.AllImages() == [i, p, j] && i.Pack() == [p, j]
            && j.AllImages() == [j, p, i] && j.Pack() == [p, i]
            && p != i && p != j && i != j
            && p.Regular() && i.Regular() && j.Regular()
  {
  }

  /** The shape of a statement, read off it in the order of the code's patterns. */
  lemma Shape(st: Statement) returns (r: Relation, k: nat)
    ensures r.Plain? ==> st.AllImages() == [st] && st.Pack() == [] && st.Regular()
    ensures !r.Plain? ==> k < 3 && st == Form(r, k, st.truth)
    ensures !r.Plain? ==> (st.Regular() <==> r.a != PLACEHOLDER)
    ensures !r.Plain? ==> |st.AllImages()| == 3 && (k == 2 ==> r.a != PLACEHOLDER)
  {
    r, k := Plain, 0;
    if st.ExtProduct() {
      r := Ext(st.pred.name, st.subj.comps[0], st.subj.comps[1]);
    } else if st.IntProduct() {
      r := Int(st.subj.name, st.pred.comps[0], st.pred.comps[1]);
    } else if st.ExtImageFirst() {
      r, k := Ext(st.pred.comps[0], st.subj.name, st.pred.comps[2]), 1;
    } else if st.ExtImageSecond() {
      r, k := Ext(st.pred.comps[0], st.pred.comps[1], st.subj.name), 2;
    } else if st.IntImageFirst() {
      r, k := Int(st.subj.comps[0], st.pred.name, st.subj.comps[2]), 1;
    } else if st.IntImageSecond() {
      r, k := Int(st.subj.comps[0], st.subj.comps[1], st.pred.name), 2;
    }
  }

  lemma ThreeMembers<T>(s: seq<T>, a: T, b: T, c: T)
    requires s == [a, b, c]
    ensures Members(s) == {a, b, c}
  {
  }

  /** The family as a set: whichever form one starts from. */
  lemma FamilyMembers(r: Relation, t: Truth, k: nat)
    requires !r.Plain? && r.a != PLACEHOLDER && k < 3
    ensures var st := Form(r, k, t);
            && Members(st.AllImages()) == {Form(r, 0, t), Form(r, 1, t), Form(r, 2, t)}
            && Distinct(st.AllImages()) && st.Canonical() == Form(r, 0, t) && st.Regular()
  {
    FamilyOf(r, t);
    var p, i, j := Form(r, 0, t), Form(r, 1, t), Form(r, 2, t);
    if k == 0 {
      ThreeMembers(p.AllImages(), p, i, j);
    } else if k == 1 {
      ThreeMembers(i.AllImages(), i, p, j);
    } else {
      ThreeMembers(j.AllImages(), j, p, i);
    }
  }

  /** What belongs to a family: every form of st is regular, has the same canonical form, the same
      truth and the same forms. */
  ghost predicate SameFamily(st: Statement, m: Statement) {
    && m.Regular() && m.Canonical() == st.Canonical() && m.truth == st.truth
    && Members(m.AllImages()) == Members(st.AllImages())
  }

  lemma FormsSameFamily(r: Relation, t: Truth, k: nat)
    requires !r.Plain? && r.a != PLACEHOLDER && k < 3
    ensures var st := Form(r, k, t); forall m :: m in Members(st.AllImages()) ==> SameFamily(st, m)
  {
    FamilyMembers(r, t, k);
    forall l: nat | l < 3 ensures SameFamily(Form(r, k, t), Form(r, l, t)) {
      FamilyPair(r, t, k, l);
    }
  }

  lemma FamilyPair(r: Relation, t: Truth, k: nat, l: nat)
    requires !r.Plain? && r.a != PLACEHOLDER && k < 3 && l < 3
    ensures SameFamily(Form(r, k, t), Form(r, l, t))
  {
    FamilyMembers(r, t, k);
    FamilyMembers(r, t, l);
  }

  /** The forms of a regular statement, all at once. */
  lemma RegularForms(st: Statement)
    requires st.Regular()
    ensures Family(st)
    ensures forall m :: m in st.AllImages() ==> SameFamily(st, m)
    ensures st in st.Canonical().AllImages() && st.Canonical() in st.AllImages()
    ensures st.Canonical().Pack() == []
  {
    var r, k := Shape(st);
    if !r.Plain? {
      FormsSameFamily(r, st.truth, k);
      assert forall m :: m in st.AllImages() ==> m in Members(st.AllImages());
      FamilyMembers(r, st.truth, k);
      FamilyMembers(r, st.truth, 0);
      CanonicalMember(r, st.truth, k);
    }
  }

  lemma CanonicalMember(r: Relation, t: Truth, k: nat)
    requires !r.Plain? && r.a != PLACEHOLDER && k < 3
    ensures var st := Form(r, k, t);
            && st in st.Canonical().AllImages() && st.Canonical() in st.AllImages()
            && st.Canonical().Pack() == []
  {
    FamilyOf(r, t);
  }

  /** With the placeholder as first argument, the second image j reads as the first image of another
      relation, whose product statement p is not among the forms of st: either j is listed twice, or
      the family is not closed. */
  lemma IrregularForms(st: Statement) returns (j: Statement, p: Statement)
    requires !st.Regular()
    ensures !Family(st)
    ensures st.copula == INHERIT
    ensures j in st.AllImages() && j.truth == p.truth == st.truth
    ensures !Distinct(st.AllImages())
            || (p in j.AllImages() && j in p.AllImages() && p !in st.AllImages())
  {
    var r, k := Shape(st);
    var i := Form(r, 1, st.truth);
    j := Form(r, 2, st.truth);
    var q := r.(a := r.b, b := PLACEHOLDER);
    assert j == Form(q, 1, st.truth);
    p := Form(q, 0, st.truth);
    if r.b == PLACEHOLDER {
      assert i == j;
      assert st.AllImages()[if k == 0 then 1 else 0] == st.AllImages()[2];
    } else {
      FamilyOf(q, st.truth);
      assert p in Members(j.AllImages());
      assert p !in Members(st.AllImages());
    }
  }

  /** Image families: the forms of a statement are pairwise distinct and closed under taking forms
      exactly when the placeholder is not an argument standing in the first position. */
  lemma FamilyIffRegular(st: Statement)
    ensures Family(st) <==> st.Regular()
    ensures |st.AllImages()| == 1 || |st.AllImages()| == 3
  {
    var r, k := Shape(st);
    if st.Regular() {
      RegularForms(st);
    } else {
      var j, p := IrregularForms(st);
    }
  }

  /** Packing undoes unpacking: either image of a product statement packs to it, with the other
      image behind it. This holds exactly when the placeholder is not the first component, or is
      both of them. */
  lemma PackUndoesUnpack(st: Statement)
    requires st.ExtProduct() || st.IntProduct()
    ensures |st.Unpack()| == 2
    ensures
      var u := st.Unpack();
      var comps := if st.ExtProduct() then st.subj.comps else st.pred.comps;
      (u[0].Pack() == [st, u[1]] && u[1].Pack() == [st, u[0]])
      <==> (comps[0] == PLACEHOLDER ==> comps[1] == PLACEHOLDER)
  {
    var r, k := Shape(st);
    var u := st.Unpack();
    if r.a != PLACEHOLDER {
      FamilyOf(r, st.truth);
    } else {
      assert u[1] == Form(r.(a := r.b, b := PLACEHOLDER), 1, st.truth);
    }
  }

  /** The forms partition the regular statements: two of them share a form only when they have the
      same forms. */
  lemma FormsPartition(st: Statement, other: Statement, m: Statement)
    requires st.Regular() && other.Regular()
    requires m in st.AllImages() && m in other.AllImages()
    ensures Members(st.AllImages()) == Members(other.AllImages())
  {
    RegularForms(st);
    RegularForms(other);
  }

  // ---------- what the forms mean ----------

  /** The relation that a statement applies, extensionally or intensionally, and its arguments. */
  datatype Meaning = Applied(extensional: bool, relation: string, arguments: seq<string>) | Itself

  /** The components with the first placeholder filled. */
  function Filled(comps: seq<string>, name: string): seq<string> {
    if comps == [] then []
    else if comps[0] == PLACEHOLDER then [name] + comps[1..]
    else [comps[0]] + Filled(comps[1..], name)
  }

  /** A product is related to what it is an argument list of; an image stands for the relation and its
      arguments, one of which is the term on the other side, at the place of the placeholder. */
  function MeaningOf(st: Statement): Meaning {
    if st.ExtProduct() then Applied(true, st.pred.name, st.subj.comps)
    else if st.IntProduct() then Applied(false, st.subj.name, st.pred.comps)
    else if st.ExtImageFirst() || st.ExtImageSecond() then
      Applied(true, st.pred.comps[0], Filled(st.pred.comps[1..], st.subj.name))
    else if st.IntImageFirst() || st.IntImageSecond() then
      Applied(false, st.subj.comps[0], Filled(st.subj.comps[1..], st.pred.name))
    else Itself
  }

  /** All forms of a regular statement apply the same relation to the same arguments. */
  lemma FormsMeanTheSame(st: Statement, m: Statement)
    requires st.Regular() && m in st.AllImages()
    ensures MeaningOf(m) == MeaningOf(st) && m.truth == st.truth
  {
    var r, k := Shape(st);
    if !r.Plain? {
      FamilyOf(r, st.truth);
      FormMeans(r, 0, st.truth);
      FormMeans(r, 1, st.truth);
      FormMeans(r, 2, st.truth);
    }
  }

  lemma {:induction false} FormMeans(r: Relation, k: nat, t: Truth)
    requires !r.Plain? && r.a != PLACEHOLDER && k < 3
    ensures MeaningOf(Form(r, k, t)) == Applied(r.Ext?, r.rel, [r.a, r.b])
  {
    var first, second := [PLACEHOLDER, r.b], [r.a, PLACEHOLDER];
    assert Filled(first, r.a) == [r.a] + first[1..] == [r.a, r.b];
    assert second[1..] == [PLACEHOLDER] && [PLACEHOLDER][1..] == [];
    assert Filled(second[1..], r.b) == [r.b];
    assert [r.rel, PLACEHOLDER, r.b][1..] == first && [r.rel, r.a, PLACEHOLDER][1..] == second;
  }
}
