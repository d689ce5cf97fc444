/** Questions, which the parser reads with a question mark for the asked term; and white space. */
module Questions {

  import opened Options
  import opened Parser
  import opened RoundTrip
  import opened Statements
  import opened Terms
  import opened Truths

  /** "? -> term" and "? ~ term" */
  function SubjectQuestion(c: string, t: Term): string {
    "? " + (c + (" " + t.Id()))
  }

  /** "term -> ?" and "term ~ ?" */
  function PredicateQuestion(t: Term, c: string): string {
    t.Id() + (" " + (c + " ?"))
  }

  lemma QuestionMarkHere(rest: string)
    requires Stops(rest)
    ensures AnyTerm("?" + rest) == Ok(Atomic("?"), rest) && AnyTerm(" " + ("?" + rest)) == Ok(Atomic("?"), rest)
  {
    assert AtomText("?");
    AtomHere("?", rest);
  }

  lemma NoTruth()
    ensures TruthValue("").Fail?
  {
    assert SkipSpace("") == "";
  }

  lemma NoJudgement(s: string, subj: Term, s1: string, c: string, s2: string, pred: Term)
    requires AnyTerm(s) == Ok(subj, s1) && Copula(s1) == Ok(c, s2) && AnyTerm(s2) == Ok(pred, "")
    ensures Judgement(s).Fail?
  {
    NoTruth();
  }

  lemma SubjectQuestionSteps(s: string, s1: string, c: string, s2: string, pred: Term, rest: string)
    requires Literal("?", s) == Ok("?", s1) && Copula(s1) == Ok(c, s2) && AnyTerm(s2) == Ok(pred, rest)
    ensures QuestionOnSubject(s) == Ok(Statement(Atomic(QUESTION), c, pred, QUESTION_TRUTH), rest)
  {
  }

  lemma PredicateQuestionSteps(s: string, subj: Term, s1: string, c: string, s2: string, rest: string)
    requires AnyTerm(s) == Ok(subj, s1) && Copula(s1) == Ok(c, s2) && Literal("?", s2) == Ok("?", rest)
    ensures QuestionOnPredicate(s) == Ok(Statement(subj, c, Atomic(QUESTION), QUESTION_TRUTH), rest)
  {
  }

  /** A question for the subject parses to the question mark as subject, with the truth (1.0,0.9). */
  lemma ParseSubjectQuestion(c: string, t: Term)
    requires IsCopula(c) && PrintableTerm(t)
    ensures Parse(SubjectQuestion(c, t)) == Some(Statement(Atomic("?"), c, t, Truth(1.0, 0.9)))
  {
    var s := SubjectQuestion(c, t);
    var s2 := " " + t.Id();
    var s1 := " " + (c + s2);
    assert s == "?" + s1 && t.Id() + "" == t.Id();
    QuestionMarkHere(s1);
    CopulaHere(c, s2);
    TermHere(t, "");
    NoJudgement(s, Atomic("?"), s1, c, s2, t);
    LiteralHere("?", s1);
    SubjectQuestionSteps(s, s1, c, s2, t, "");
    assert SkipSpace("") == "";
  }

  /** The text begins with a question mark and, at once, a copula. */
  predicate PosesAsQuestion(s: string) {
    "?->" <= s || "?~" <= s
  }

  /** A question for the predicate parses to the question mark as predicate, with the same truth, exactly
      when the subject does not itself begin as a question. */
  lemma ParsePredicateQuestion(t: Term, c: string)
    requires IsCopula(c) && PrintableTerm(t)
    ensures Parse(PredicateQuestion(t, c)) == Some(Statement(t, c, Atomic("?"), Truth(1.0, 0.9)))
       <==> !PosesAsQuestion(t.Id())
  {
    var s := PredicateQuestion(t, c);
    var s2 := " ?";
    var s1 := " " + (c + s2);
    assert s == t.Id() + s1 && s2 == " " + ("?" + "");
    TermHere(t, s1);
    CopulaHere(c, s2);
    QuestionMarkHere("");
    NoJudgement(s, t, s1, c, s2, Atomic("?"));
    LiteralHere("?", "");
    PredicateQuestionSteps(s, t, s1, c, s2, "");
    assert SkipSpace("") == "";
    if PosesAsQuestion(t.Id()) {
      PosingFails(t, c);
    } else {
      NotPosing(t, c);
    }
  }

  lemma FirstOfId(t: Term, s1: string)
    requires PrintableTerm(t)
    ensures t.Id() != "" && (t.Compound? ==> t.Id()[0] == '(')
    ensures (t.Id() + s1)[0] == t.Id()[0] && !IsSpace(t.Id()[0])
    ensures t.Atomic? ==> forall k :: 0 <= k < |t.Id()| ==> AtomChar(t.Id()[k])
  {
  }

  /** No copula stands right behind a leading question mark, or the whole subject is the question mark. */
  lemma NotPosing(t: Term, c: string)
    requires IsCopula(c) && PrintableTerm(t) && !PosesAsQuestion(t.Id())
    ensures var r := QuestionOnSubject(PredicateQuestion(t, c));
            r.Fail? || r == Ok(Statement(t, c, Atomic("?"), QUESTION_TRUTH), "")
  {
    var id, s2 := t.Id(), " ?";
    var s1 := " " + (c + s2);
    var s := PredicateQuestion(t, c);
    assert s == id + s1;
    FirstOfId(t, s1);
    if id[0] != '?' {
      LiteralElsewhere("?", s);
    } else if id == "?" {
      LiteralHere("?", s1);
      CopulaHere(c, s2);
      QuestionMarkHere("");
      assert s2 == " " + ("?" + "");
      SubjectQuestionSteps(s, s1, c, s2, Atomic("?"), "");
    } else {
      var more := id[1..];
      assert s == "?" + (more + s1) && id == "?" + more;
      LiteralHere("?", more + s1);
      NoCopula(more, s1);
    }
  }

  lemma NoCopula(more: string, s1: string)
    requires more != "" && (forall k :: 0 <= k < |more| ==> AtomChar(more[k])) && s1 != "" && s1[0] == ' '
    requires !("->" <= more) && !("~" <= more)
    ensures Copula(more + s1).Fail?
  {
    var s := more + s1;
    assert s[0] == more[0] && !IsSpace(s[0]);
    assert SkipSpace(s) == s;
    if |more| > 1 {
      assert s[1] == more[1] && more[..2] == s[..2];
    } else {
      assert s[1] == s1[0];
    }
  }

  lemma CopulaAtOnce(d: string, tail: string)
    requires IsCopula(d)
    ensures Copula(d + tail) == Ok(d, tail)
  {
    LiteralHere(d, tail);
    if d == SIMILAR {
      LiteralElsewhere(INHERIT, d + tail);
    }
  }

  lemma AtomRead(a: string, rest: string)
    requires AtomText(a) && Stops(rest)
    ensures AnyTerm(a + rest) == Ok(Atomic(a), rest) && AnyTerm(" " + (a + rest)) == Ok(Atomic(a), rest)
  {
    AtomHere(a, rest);
  }

  lemma CopulaIsAtom(c: string)
    requires IsCopula(c)
    ensures AtomText(c) && !IsSpace(c[0])
  {
  }

  lemma {:induction false} LeftOver(c: string)
    requires IsCopula(c)
    ensures SkipSpace(" ?") == "?" && SkipSpace(" " + (c + " ?")) == c + " ?"
  {
    CopulaIsAtom(c);
    SkipOneSpace("?");
    SkipOneSpace(c + " ?");
  }

  /** A term stands behind the copula in any case: the rest of the subject, or the real copula. */
  lemma {:induction false} TermBehind(more: string, c: string)
    requires (forall k :: 0 <= k < |more| ==> AtomChar(more[k])) && IsCopula(c)
    ensures var r := AnyTerm(more + (" " + (c + " ?"))); r.Ok? && SkipSpace(r.rest) != ""
  {
    var s1 := " " + (c + " ?");
    LeftOver(c);
    if more == "" {
      assert more + s1 == s1;
      CopulaIsAtom(c);
      AtomRead(c, " ?");
    } else {
      AtomRead(more, s1);
    }
  }

  /** With such a subject the rest of the question is left over, and the parser fails. */
  lemma PosingFails(t: Term, c: string)
    requires IsCopula(c) && PrintableTerm(t) && PosesAsQuestion(t.Id())
    ensures var r := QuestionOnSubject(PredicateQuestion(t, c)); r.Ok? && SkipSpace(r.rest) != ""
  {
    var id, s1 := t.Id(), " " + (c + " ?");
    var s := PredicateQuestion(t, c);
    FirstOfId(t, s1);
    assert id[0] == '?';
    var d := if "?->" <= id then INHERIT else SIMILAR;
    var more := id[1 + |d|..];
    assert id == "?" + (d + more);
    assert s == "?" + (d + (more + s1));
    LiteralHere("?", d + (more + s1));
    CopulaAtOnce(d, more + s1);
    TermBehind(more, c);
    var term := AnyTerm(more + s1);
    SubjectQuestionSteps(s, d + (more + s1), d, more + s1, term.value, term.rest);
  }

  /** An atom is any text without white space and parentheses. */
  lemma AtomTextIs(a: string)
    ensures AtomText(a) <==>
              a != "" && forall k :: 0 <= k < |a| ==>
                a[k] !in [' ', '\t', '\n', '\r', '\U{000B}', '\U{000C}', '(', ')']
  {
    if AtomText(a) {
      forall k | 0 <= k < |a| ensures a[k] !in [' ', '\t', '\n', '\r', '\U{000B}', '\U{000C}', '(', ')'] {
        assert AtomChar(a[k]);
      }
    } else if a != "" {
      var k :| 0 <= k < |a| && !AtomChar(a[k]);
      assert a[k] in [' ', '\t', '\n', '\r', '\U{000B}', '\U{000C}', '(', ')'];
    }
  }

  // ---------- white space ----------

  /** All of the six white-space characters are skipped in front of a statement. */
  lemma {:induction false} SpaceSkipped(space: string, s: string)
    requires forall k :: 0 <= k < |space| ==> space[k] in [' ', '\t', '\n', '\r', '\U{000B}', '\U{000C}']
    ensures SkipSpace(space + s) == SkipSpace(s)
  {
    if space == "" {
      assert space + s == s;
    } else {
      SpaceSkipped(space[1..], s);
      assert (space + s)[1..] == space[1..] + s && IsSpace((space + s)[0]);
    }
  }

  /** What is skipped to the end is white space only. */
  lemma {:induction false} AllSpace(s: string)
    ensures SkipSpace(s) == "" <==>
              forall k :: 0 <= k < |s| ==> s[k] in [' ', '\t', '\n', '\r', '\U{000B}', '\U{000C}']
  {
    if s != "" {
      AllSpace(s[1..]);
      assert forall k :: 0 < k < |s| ==> s[k] == s[1..][k - 1];
      if !IsSpace(s[0]) {
        assert SkipSpace(s) == s;
      }
    }
  }

  /** A printed statement parses when only white space follows, and fails when anything else does. */
  lemma NothingBehind(st: Statement, rest: string)
    requires Printable(st)
    ensures Parse(Print(st) + rest)
         == if forall k :: 0 <= k < |rest| ==> rest[k] in [' ', '\t', '\n', '\r', '\U{000B}', '\U{000C}']
            then Some(st.(truth := RoundedTruth(st.truth))) else None
  {
    AllSpace(rest);
    ParsePrintAnd(st, rest);
  }

  lemma {:induction false} LiteralSkips(lit: string, s: string, t: string)
    requires SkipSpace(s) == SkipSpace(t)
    ensures Literal(lit, s) == Literal(lit, t)
  {
  }

  lemma CompoundsSkip(s: string, t: string)
    requires Literal("(", s) == Literal("(", t)
    ensures PrefixCompTerm(s) == PrefixCompTerm(t) && InfixCompTerm(s) == InfixCompTerm(t)
    ensures ImgCompTerm1(s) == ImgCompTerm1(t) && ImgCompTerm2(s) == ImgCompTerm2(t)
  {
  }

  lemma {:induction false} TermSkips(s: string, t: string)
    requires SkipSpace(s) == SkipSpace(t)
    ensures AnyTerm(s) == AnyTerm(t)
  {
    LiteralSkips("(", s, t);
    CompoundsSkip(s, t);
  }

  lemma JudgementSkips(s: string, t: string)
    requires AnyTerm(s) == AnyTerm(t) && Literal("?", s) == Literal("?", t)
    ensures Judgement(s) == Judgement(t)
    ensures QuestionOnSubject(s) == QuestionOnSubject(t) && QuestionOnPredicate(s) == QuestionOnPredicate(t)
  {
  }

  /** White space in front makes no difference. */
  lemma SpaceInFront(space: string, s: string)
    requires forall k :: 0 <= k < |space| ==> space[k] in [' ', '\t', '\n', '\r', '\U{000B}', '\U{000C}']
    ensures Parse(space + s) == Parse(s)
  {
    SpaceSkipped(space, s);
    TermSkips(space + s, s);
    LiteralSkips("?", space + s, s);
    JudgementSkips(space + s, s);
  }
}
