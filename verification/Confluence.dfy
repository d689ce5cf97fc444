/** Whole runs of additions: the order of the additions, and the forms in which the facts were
    stated, leave no trace in the knowledge base. */
module Confluence {

  import opened Facts
  import opened KnowledgeBase
  import opened Sequences
  import opened Statements
  import opened Terms
  import opened Truths

  ghost predicate ProperInputs(sts: seq<Statement>) {
    forall st :: st in sts ==> st.truth.Proper()
  }

  /** What a caller can check of each input. */
  ghost predicate SoundInputs(sts: seq<Statement>) {
    forall st :: st in sts && ValidStatement(st) ==> Sound(st)
  }

  /** The statements added in turn, up to the first exception. */
  function Run(kb: seq<Statement>, sts: seq<Statement>): Result
    requires Proper(kb) && ProperInputs(sts)
    decreases |sts|
  {
    if sts == [] then Result(kb, Done)
    else
      AddProper(kb, sts[0]);
      var r := Add(kb, sts[0]);
      if r.outcome == Done then Run(r.kb, sts[1..]) else r
  }

  /** What an added statement says: its fact, and the evidence c/(1-c) behind its truth. */
  datatype Report = Report(fact: Fact, evidence: Evidence)

  function ReportOf(st: Statement): Report
    requires st.truth.Proper()
  {
    Report(FactOf(st), EvidenceOf(st.truth))
  }

  /** One report per valid statement. */
  function Reports(sts: seq<Statement>): (rs: seq<Report>)
    requires ProperInputs(sts)
    ensures forall r :: r in rs ==> r.evidence.total > 0.0
  {
    if sts == [] then []
    else if ValidStatement(sts[0]) then [ReportOf(sts[0])] + Reports(sts[1..])
    else Reports(sts[1..])
  }

  /** The reported amounts of evidence on a fact, or only their parts in favour of it, summed. */
  function Tally(f: Fact, inFavour: bool, reports: seq<Report>): real
  {
    if reports == [] then 0.0
    else Share(f, inFavour, reports[0]) + Tally(f, inFavour, reports[1..])
  }

  function Share(f: Fact, inFavour: bool, r: Report): real {
    if r.fact == f then Part(r.evidence, inFavour) else 0.0
  }

  function Part(e: Evidence, inFavour: bool): real {
    if inFavour then e.positive else e.total
  }

  /** All the evidence reported on a fact. */
  function Total(f: Fact, reports: seq<Report>): Evidence {
    Evidence(Tally(f, true, reports), Tally(f, false, reports))
  }

  ghost predicate Mentioned(f: Fact, reports: seq<Report>) {
    exists r :: r in reports && r.fact == f
  }

  lemma {:induction false} TallySign(f: Fact, reports: seq<Report>)
    requires forall r :: r in reports ==> r.evidence.total > 0.0
    ensures Tally(f, false, reports) >= 0.0
    ensures Mentioned(f, reports) <==> Tally(f, false, reports) > 0.0
    ensures !Mentioned(f, reports) ==> Tally(f, true, reports) == 0.0
  {
    if reports != [] {
      assert reports == [reports[0]] + reports[1..];
      TallySign(f, reports[1..]);
      assert reports[0] in reports;
    }
  }

  // ---------- a run against the accumulated evidence ----------

  /** The evidence, or the part of it in favour, that a ledger holds on a fact. */
  ghost function Held(ledger: Ledger, f: Fact, inFavour: bool): real
    requires ProperLedger(ledger)
  {
    if f in ledger then Part(EvidenceOf(ledger[f]), inFavour) else 0.0
  }

  ghost predicate ProperLedger(ledger: Ledger) {
    forall f :: f in ledger ==> ledger[f].Proper()
  }

  lemma EnterAccumulates(ledger: Ledger, st: Statement, f: Fact, inFavour: bool)
    requires ProperLedger(ledger) && st.truth.Proper() && ValidStatement(st)
    ensures ProperLedger(Enter(ledger, st))
    ensures Held(Enter(ledger, st), f, inFavour)
         == Held(ledger, f, inFavour) + Share(f, inFavour, ReportOf(st))
  {
    EnterProper(ledger, st);
    if FactOf(st) in ledger {
      RevisionProper(ledger[FactOf(st)], st.truth);
    }
  }

  /** The ledger after the statements have been entered in turn. */
  ghost function EnterAll(ledger: Ledger, sts: seq<Statement>): (ledger': Ledger)
    requires ProperLedger(ledger) && ProperInputs(sts)
    ensures ProperLedger(ledger')
    decreases |sts|
  {
    if sts == [] then ledger
    else
      EnterProper(ledger, sts[0]);
      EnterAll(Enter(ledger, sts[0]), sts[1..])
  }

  lemma EnterProper(ledger: Ledger, st: Statement)
    requires ProperLedger(ledger) && st.truth.Proper()
    ensures ProperLedger(Enter(ledger, st))
  {
    if FactOf(st) in ledger {
      RevisionProper(ledger[FactOf(st)], st.truth);
    }
  }

  /** The ledger holds on every fact what it held before plus the reported evidence. */
  lemma {:induction false} EnterAllAccumulates(ledger: Ledger, sts: seq<Statement>, f: Fact, inFavour: bool)
    requires ProperLedger(ledger) && ProperInputs(sts)
    ensures Held(EnterAll(ledger, sts), f, inFavour)
         == Held(ledger, f, inFavour) + Tally(f, inFavour, Reports(sts))
    decreases |sts|
  {
    if sts != [] {
      EnterProper(ledger, sts[0]);
      EnterAllAccumulates(Enter(ledger, sts[0]), sts[1..], f, inFavour);
      if ValidStatement(sts[0]) {
        EnterAccumulates(ledger, sts[0], f, inFavour);
      }
    }
  }

  /** Every run of sound inputs succeeds, and its graph is a coherent redundant copy of the ledger. */
  lemma {:induction false} RunRepresents(kb: seq<Statement>, ledger: Ledger, sts: seq<Statement>)
    requires Represents(kb, ledger) && ProperLedger(ledger) && ProperInputs(sts) && SoundInputs(sts)
    ensures Run(kb, sts).outcome == Done && Represents(Run(kb, sts).kb, EnterAll(ledger, sts))
    decreases |sts|
  {
    if sts != [] {
      AddRepresents(kb, ledger, sts[0]);
      AddProper(kb, sts[0]);
      EnterProper(ledger, sts[0]);
      RunRepresents(Add(kb, sts[0]).kb, Enter(ledger, sts[0]), sts[1..]);
    }
  }

  // ---------- the reachable knowledge bases ----------

  /** After the first exception nothing more is added. */
  lemma {:induction false} NothingAfterException(kb: seq<Statement>, sts: seq<Statement>, more: seq<Statement>)
    requires Proper(kb) && ProperInputs(sts) && ProperInputs(more) && Run(kb, sts).outcome != Done
    ensures ProperInputs(sts + more) && Run(kb, sts + more) == Run(kb, sts)
    decreases |sts|
  {
    AddProper(kb, sts[0]);
    assert (sts + more)[0] == sts[0] && (sts + more)[1..] == sts[1..] + more;
    if Add(kb, sts[0]).outcome == Done {
      NothingAfterException(Add(kb, sts[0]).kb, sts[1..], more);
    }
  }

  /** Whatever is added, sound or not, no inheritance edge is ever misplaced. */
  lemma {:induction false} RunWellPlaced(kb: seq<Statement>, sts: seq<Statement>)
    requires Proper(kb) && WellPlaced(kb) && ProperInputs(sts)
    ensures WellPlaced(Run(kb, sts).kb)
    decreases |sts|
  {
    if sts != [] {
      AddProper(kb, sts[0]);
      AddWellPlaced(kb, sts[0]);
      if Add(kb, sts[0]).outcome == Done {
        RunWellPlaced(Add(kb, sts[0]).kb, sts[1..]);
      }
    }
  }

  /** A run from the empty knowledge base. */
  function Build(sts: seq<Statement>): Result
    requires ProperInputs(sts)
  {
    Run([], sts)
  }

  lemma {:induction false} BuildRepresents(sts: seq<Statement>)
    requires ProperInputs(sts) && SoundInputs(sts)
    ensures Build(sts).outcome == Done && Represents(Build(sts).kb, EnterAll(map[], sts))
  {
    assert Represents([], map[]);
    RunRepresents([], map[], sts);
  }

  /** What a run makes of one fact: known when mentioned, at the truth of all its evidence. */
  lemma {:induction false} FactIsEvidence(sts: seq<Statement>, f: Fact)
    requires ProperInputs(sts)
    ensures var ledger := EnterAll(map[], sts);
            f in ledger <==> Mentioned(f, Reports(sts))
    ensures Mentioned(f, Reports(sts)) ==> Total(f, Reports(sts)).total > 0.0
    ensures f in EnterAll(map[], sts) && Mentioned(f, Reports(sts)) ==>
              EnterAll(map[], sts)[f] == TruthOf(Total(f, Reports(sts)))
  {
    var ledger := EnterAll(map[], sts);
    EnterAllAccumulates(map[], sts, f, true);
    EnterAllAccumulates(map[], sts, f, false);
    TallySign(f, Reports(sts));
    if f in ledger {
      assert EvidenceOf(ledger[f]) == Total(f, Reports(sts));
      TruthOfEvidenceOf(ledger[f]);
    }
  }

  /** The edges of a built knowledge base are exactly the sound forms of the reported facts, and the
      truth on each is that of all the evidence reported on its fact, in any form. */
  lemma {:induction false} TruthIsEvidence(sts: seq<Statement>, st: Statement)
    requires ProperInputs(sts) && SoundInputs(sts)
    ensures Mentioned(FactOf(st), Reports(sts)) ==> Total(FactOf(st), Reports(sts)).total > 0.0
    ensures st in Build(sts).kb <==>
              && Sound(st)
              && Mentioned(FactOf(st), Reports(sts))
              && st.truth == TruthOf(Total(FactOf(st), Reports(sts)))
  {
    BuildRepresents(sts);
    FactIsEvidence(sts, FactOf(st));
    if Sound(st) && FactOf(st) in EnterAll(map[], sts) {
      EdgeOfFact(Build(sts).kb, EnterAll(map[], sts), st);
    }
  }

  // ---------- confluence ----------

  lemma {:induction false} TallyOfSum(f: Fact, inFavour: bool, xs: seq<Report>, ys: seq<Report>)
    ensures Tally(f, inFavour, xs + ys) == Tally(f, inFavour, xs) + Tally(f, inFavour, ys)
  {
    if xs == [] {
      assert xs + ys == ys;
    } else {
      TallyOfSum(f, inFavour, xs[1..], ys);
      assert (xs + ys)[1..] == xs[1..] + ys;
    }
  }

  /** Evidence does not depend on the order of the reports. */
  lemma {:induction false} TallyPermutes(f: Fact, inFavour: bool, xs: seq<Report>, ys: seq<Report>)
    requires multiset(xs) == multiset(ys)
    ensures Tally(f, inFavour, xs) == Tally(f, inFavour, ys)
    decreases |xs|
  {
    if xs == [] {
      assert |multiset(ys)| == 0;
    } else {
      var before, after := Unshuffle(xs, ys);
      TallyPermutes(f, inFavour, xs[1..], before + after);
      TallyOfSum(f, inFavour, before, after);
      TallyOfSum(f, inFavour, before, [xs[0]] + after);
      assert ([xs[0]] + after)[1..] == after;
    }
  }

  lemma MentionedPermutes(f: Fact, xs: seq<Report>, ys: seq<Report>)
    requires multiset(xs) == multiset(ys)
    ensures Mentioned(f, xs) <==> Mentioned(f, ys)
  {
    forall r ensures r in xs <==> r in ys {
      SameElements(xs, ys, r);
    }
  }

  /** Two runs that report the same facts with the same truths, in any order and in any of the valid
      forms, build the same edges with the same truths, each once. */
  lemma {:induction false} Confluence(sts: seq<Statement>, sts': seq<Statement>)
    requires ProperInputs(sts) && SoundInputs(sts) && ProperInputs(sts') && SoundInputs(sts')
    requires multiset(Reports(sts)) == multiset(Reports(sts'))
    ensures Build(sts).outcome == Done && Build(sts').outcome == Done
    ensures Simple(Build(sts).kb) && Simple(Build(sts').kb)
    ensures forall e :: e in Build(sts).kb <==> e in Build(sts').kb
  {
    forall e ensures e in Build(sts).kb <==> e in Build(sts').kb {
      TruthIsEvidence(sts, e);
      TruthIsEvidence(sts', e);
      TallyPermutes(FactOf(e), true, Reports(sts), Reports(sts'));
      TallyPermutes(FactOf(e), false, Reports(sts), Reports(sts'));
      MentionedPermutes(FactOf(e), Reports(sts), Reports(sts'));
    }
    BuildRepresents(sts);
    BuildRepresents(sts');
  }

  lemma {:induction false} ReportsOfSum(xs: seq<Statement>, ys: seq<Statement>)
    requires ProperInputs(xs) && ProperInputs(ys)
    ensures ProperInputs(xs + ys) && Reports(xs + ys) == Reports(xs) + Reports(ys)
  {
    var both := xs + ys;
    if xs == [] {
      assert both == ys;
    } else {
      ReportsOfSum(xs[1..], ys);
      assert both[0] == xs[0] && both[1..] == xs[1..] + ys;
      ReportsCons(both);
      ReportsCons(xs);
    }
  }

  lemma {:induction false} ReportsCons(sts: seq<Statement>)
    requires ProperInputs(sts) && sts != []
    ensures Reports(sts)
         == (if ValidStatement(sts[0]) then [ReportOf(sts[0])] else []) + Reports(sts[1..])
  {
  }

  lemma {:induction false} ReportsPermute(sts: seq<Statement>, sts': seq<Statement>)
    requires multiset(sts) == multiset(sts') && ProperInputs(sts) && ProperInputs(sts')
    ensures multiset(Reports(sts)) == multiset(Reports(sts'))
    decreases |sts|
  {
    if sts == [] {
      assert |multiset(sts')| == 0;
    } else {
      var before, after := Unshuffle(sts, sts');
      forall st | st in before + after ensures st in sts' {}
      forall st | st in [sts[0]] + after ensures st in sts' {}
      ReportsPermute(sts[1..], before + after);
      ReportsOfSum(before, after);
      ReportsOfSum(before, [sts[0]] + after);
      assert ([sts[0]] + after)[1..] == after;
    }
  }

  /** In particular a permutation of the additions builds the same knowledge base. */
  lemma PermutationConfluence(sts: seq<Statement>, sts': seq<Statement>)
    requires multiset(sts) == multiset(sts')
    requires ProperInputs(sts) && SoundInputs(sts)
    ensures ProperInputs(sts') && Build(sts).outcome == Done && Build(sts').outcome == Done
    ensures Simple(Build(sts).kb) && Simple(Build(sts').kb)
    ensures forall e :: e in Build(sts).kb <==> e in Build(sts').kb
  {
    forall st ensures st in sts <==> st in sts' {
      SameElements(sts, sts', st);
    }
    ReportsPermute(sts, sts');
    Confluence(sts, sts');
  }

  // ---------- exactly the sound inputs ----------

  /** One more addition to a knowledge base built from sound inputs keeps it coherent, without an
      exception, exactly when the added statement is invalid (and ignored) or sound. */
  lemma CoherentIffSound(sts: seq<Statement>, st: Statement)
    requires ProperInputs(sts) && SoundInputs(sts) && st.truth.Proper()
    ensures Proper(Build(sts).kb)
    ensures var r := Add(Build(sts).kb, st);
            r.outcome == Done && Coherent(r.kb) <==> (ValidStatement(st) ==> Sound(st))
  {
    BuildRepresents(sts);
    var kb, ledger := Build(sts).kb, EnterAll(map[], sts);
    if ValidStatement(st) && !Sound(st) {
      UnsoundBreaks(kb, ledger, st);
    } else {
      AddRepresents(kb, ledger, st);
    }
  }

  ghost predicate StaysCoherent(sts: seq<Statement>)
    requires ProperInputs(sts)
  {
    forall n :: 0 <= n <= |sts| ==>
      var r := Build(sts[..n]); r.outcome == Done && Coherent(r.kb)
  }

  lemma {:induction false} RunSnoc(kb: seq<Statement>, sts: seq<Statement>, st: Statement)
    requires Proper(kb) && ProperInputs(sts) && st.truth.Proper()
    ensures ProperInputs(sts + [st]) && Proper(Run(kb, sts).kb)
    ensures Run(kb, sts).outcome == Done ==> Run(kb, sts + [st]) == Add(Run(kb, sts).kb, st)
    decreases |sts|
  {
    if sts == [] {
      assert sts + [st] == [st];
      AddProper(kb, st);
    } else {
      AddProper(kb, sts[0]);
      assert (sts + [st])[1..] == sts[1..] + [st];
      RunSnoc(Add(kb, sts[0]).kb, sts[1..], st);
    }
  }

  /** A run stays coherent throughout exactly when all its valid inputs are sound: the exceptions
      "No edge" and "Multiple edges", and parallel or missing edges, come from unsound inputs only,
      and each of those brings them about. */
  lemma {:induction false} StaysCoherentIffSound(sts: seq<Statement>)
    requires ProperInputs(sts)
    ensures StaysCoherent(sts) <==> SoundInputs(sts)
    decreases |sts|
  {
    if sts == [] {
      assert Represents([], map[]);
    } else {
      var n := |sts| - 1;
      var init, st := sts[..n], sts[n];
      assert sts == init + [st];
      StaysCoherentIffSound(init);
      PrefixCoherence(sts);
      assert SoundInputs(sts) <==> SoundInputs(init) && (ValidStatement(st) ==> Sound(st));
      if SoundInputs(init) {
        BuildRepresents(init);
        RunSnoc([], init, st);
        CoherentIffSound(init, st);
      }
    }
  }

  lemma PrefixCoherence(sts: seq<Statement>)
    requires ProperInputs(sts) && sts != []
    ensures var init := sts[..|sts| - 1];
            StaysCoherent(sts) <==>
              StaysCoherent(init) && Build(sts).outcome == Done && Coherent(Build(sts).kb)
  {
    var init := sts[..|sts| - 1];
    assert sts[..|sts|] == sts;
    assert forall n :: 0 <= n < |sts| ==> sts[..n] == init[..n];
  }

  // ---------- the two exceptions, on concrete inputs ----------

  /** "t ~ t" is stored as two parallel edges, so that adding it again finds both. */
  lemma ReflexiveSimilarityFails(name: string, truth: Truth)
    requires truth.Proper()
    ensures var st := Statement(Atomic(name), SIMILAR, Atomic(name), truth);
            && ValidStatement(st) && Build([st]) == Result([st, st], Done)
            && Add([st, st], st).outcome == MultipleEdges
  {
    var st := Statement(Atomic(name), SIMILAR, Atomic(name), truth);
    assert Forms(st) == [st, st] && [] + Forms(st) == [st, st];
    BuildOne(st);
    MatchesAre([st, st], st);
    assert 0 in Matches([st, st], st) && 1 in Matches([st, st], st);
  }

  lemma BuildOne(st: Statement)
    requires st.truth.Proper() && ValidStatement(st)
    ensures Build([st]) == Result(Forms(st), Done)
  {
    assert [st][1..] == [] && [] + Forms(st) == Forms(st);
    AddProper([], st);
    assert Add([], st) == Result(Forms(st), Done);
    assert Run(Forms(st), []) == Result(Forms(st), Done);
  }

  /** "(x * bird) -> eat" is stored with the image "bird -> (/ eat * *)", whose own product statement
      is missing, so that adding the image finds no edge to revise. */
  lemma PlaceholderArgumentFails(truth: Truth)
    requires truth.Proper()
    ensures var st := Statement(Compound(PRODUCT, [PLACEHOLDER, "bird"]), INHERIT, Atomic("eat"), truth);
            var eaten := Compound(EXT_IMAGE, ["eat", PLACEHOLDER, PLACEHOLDER]);
            var image := Statement(Atomic("bird"), INHERIT, eaten, truth);
            && ValidStatement(st) && Build([st]) == Result(Forms(st), Done) && Proper(Forms(st))
            && ValidStatement(image) && Add(Forms(st), image).outcome == NoEdge
  {
    var st := Statement(Compound(PRODUCT, [PLACEHOLDER, "bird"]), INHERIT, Atomic("eat"), truth);
    var image := Statement(Atomic("bird"), INHERIT, Compound(EXT_IMAGE, ["eat", PLACEHOLDER, PLACEHOLDER]), truth);
    BuildOne(st);
    TruthsOfForms(st);
    PlaceholderForms(st, image);
    AddThird(Forms(st), image);
  }

  /** Adding the third of three edges fails where its next form is none of them. */
  lemma AddThird(kb: seq<Statement>, st: Statement)
    requires Proper(kb) && st.truth.Proper() && ValidStatement(st) && Others(st) != []
    requires |kb| == 3 && !Same(kb[0], st) && !Same(kb[1], st) && Same(kb[2], st)
    requires forall k :: 0 <= k < 3 ==> !Same(kb[k], Others(st)[0])
    ensures Add(kb, st).outcome == NoEdge
  {
    MatchesTwo(kb, st);
    RevisionProper(kb[2].truth, st.truth);
    var t := kb[2].truth.Revision(st.truth);
    MatchesNone(Retruth(kb, 2, t), Others(st)[0]);
  }

  lemma PlaceholderForms(st: Statement, image: Statement)
    requires st == Statement(Compound(PRODUCT, [PLACEHOLDER, "bird"]), INHERIT, Atomic("eat"), st.truth)
    requires image.subj == Atomic("bird") && image.copula == INHERIT && image.truth == st.truth
    requires image.pred == Compound(EXT_IMAGE, ["eat", PLACEHOLDER, PLACEHOLDER])
    ensures var eater := Compound(EXT_IMAGE, ["eat", PLACEHOLDER, "bird"]);
            var first := Statement(Atomic(PLACEHOLDER), INHERIT, eater, st.truth);
            Forms(st) == [st, first, image]
    ensures |Others(image)| == 2
    ensures Others(image)[0] == Statement(Compound(PRODUCT, ["bird", PLACEHOLDER]), INHERIT, Atomic("eat"), st.truth)
  {
    FormsAreImages(st);
    FormsAreImages(image);
  }

  /** The third of three edges, when the first two are others. */
  lemma {:induction false} MatchesTwo(kb: seq<Statement>, st: Statement)
    requires |kb| == 3 && !Same(kb[0], st) && !Same(kb[1], st) && Same(kb[2], st)
    ensures Matches(kb, st) == [2]
  {
    MatchesNone(kb[..2], st);
  }

  /** "(x * *) -> eat" is stored with the same image twice, so that adding it again finds both. */
  lemma DoublePlaceholderFails(truth: Truth)
    requires truth.Proper()
    ensures var st := Statement(Compound(PRODUCT, [PLACEHOLDER, PLACEHOLDER]), INHERIT, Atomic("eat"), truth);
            && ValidStatement(st) && Build([st]) == Result(Forms(st), Done) && Proper(Forms(st))
            && Add(Forms(st), st).outcome == MultipleEdges
  {
    var st := Statement(Compound(PRODUCT, [PLACEHOLDER, PLACEHOLDER]), INHERIT, Atomic("eat"), truth);
    BuildOne(st);
    TruthsOfForms(st);
    DoubleForms(st);
    AddFirst(Forms(st), st);
  }

  lemma DoubleForms(st: Statement)
    requires st == Statement(Compound(PRODUCT, [PLACEHOLDER, PLACEHOLDER]), INHERIT, Atomic("eat"), st.truth)
    ensures var image := Statement(Atomic(PLACEHOLDER), INHERIT,
                                   Compound(EXT_IMAGE, ["eat", PLACEHOLDER, PLACEHOLDER]), st.truth);
            Forms(st) == [st, image, image] && Others(st) == [image, image] && !Same(st, image)
  {
  }

  /** Adding the first of three edges fails where its next form is both of the others. */
  lemma {:induction false} AddFirst(kb: seq<Statement>, st: Statement)
    requires Proper(kb) && st.truth.Proper() && ValidStatement(st) && Others(st) != []
    requires |kb| == 3 && Same(kb[0], st) && !Same(kb[1], st) && !Same(kb[2], st)
    requires Same(kb[1], Others(st)[0]) && Same(kb[2], Others(st)[0])
    ensures Add(kb, st).outcome == MultipleEdges
  {
    MatchesAre(kb, st);
    assert Matches(kb, st) == [0] by { MatchesFirst(kb, st); }
    RevisionProper(kb[0].truth, st.truth);
    var t := kb[0].truth.Revision(st.truth);
    var kb1 := Retruth(kb, 0, t);
    assert Same(kb1[1], Others(st)[0]) && Same(kb1[2], Others(st)[0]);
    SetTruthThrows(kb1, Others(st)[0], t);
  }

  lemma {:induction false} MatchesFirst(kb: seq<Statement>, st: Statement)
    requires |kb| == 3 && Same(kb[0], st) && !Same(kb[1], st) && !Same(kb[2], st)
    ensures Matches(kb, st) == [0]
  {
    assert kb[..2][..1] == kb[..1] && kb[..1][..0] == [];
    assert Matches(kb[..1], st) == [0] && Matches(kb[..2], st) == [0];
  }
}
