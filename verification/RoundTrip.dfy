/** The parser inverts the printer, exactly on the printable statements, and the two notations of a
    product parse alike, exactly when the first atom does not pose as a connector. */
module RoundTrip {

  import opened Options
  import opened Parser
  import opened Statements
  import opened Terms
  import opened Truths

  // ---------- tokens where they were printed ----------

  /** Where an atom ends. */
  ghost predicate Stops(rest: string) {
    rest == "" || !AtomChar(rest[0])
  }

  lemma {:induction false} SkipOneSpace(s: string)
    requires s != "" && !IsSpace(s[0])
    ensures SkipSpace(s) == s && SkipSpace(" " + s) == s
  {
    assert (" " + s)[1..] == s;
  }

  lemma LiteralHere(lit: string, rest: string)
    requires lit != "" && !IsSpace(lit[0])
    ensures Literal(lit, lit + rest) == Ok(lit, rest)
    ensures Literal(lit, " " + (lit + rest)) == Ok(lit, rest)
  {
    SkipOneSpace(lit + rest);
    assert (lit + rest)[|lit|..] == rest;
  }

  lemma LiteralElsewhere(lit: string, s: string)
    requires lit != "" && s != "" && !IsSpace(s[0]) && s[0] != lit[0]
    ensures Literal(lit, s).Fail? && Literal(lit, " " + s).Fail?
  {
    SkipOneSpace(s);
  }

  lemma {:induction false} AtomLengthHere(a: string, rest: string)
    requires (forall k :: 0 <= k < |a| ==> AtomChar(a[k])) && Stops(rest)
    ensures AtomLength(a + rest) == |a|
  {
    if a == "" {
      assert a + rest == rest;
    } else {
      AtomLengthHere(a[1..], rest);
      assert (a + rest)[1..] == a[1..] + rest;
    }
  }

  lemma AtomHere(a: string, rest: string)
    requires AtomText(a) && Stops(rest)
    ensures AtomicTerm(a + rest) == Ok(a, rest)
    ensures AtomicTerm(" " + (a + rest)) == Ok(a, rest)
  {
    AtomLengthHere(a, rest);
    assert AtomChar(a[0]);
    SkipOneSpace(a + rest);
    assert (a + rest)[..|a|] == a && (a + rest)[|a|..] == rest;
  }

  lemma NoAtom(s: string)
    requires s != "" && (s[0] == '(' || s[0] == ')')
    ensures AtomicTerm(s).Fail? && AtomicTerm(" " + s).Fail?
  {
    SkipOneSpace(s);
  }

  /** Each part behind a blank. */
  function Spaced(parts: seq<string>): string
  {
    if parts == [] then "" else " " + (parts[0] + Spaced(parts[1..]))
  }

  ghost predicate AllAtoms(parts: seq<string>) {
    forall k :: 0 <= k < |parts| ==> AtomText(parts[k])
  }

  lemma {:induction false} SpacedStops(parts: seq<string>, rest: string)
    requires Stops(rest)
    ensures Stops(Spaced(parts) + rest)
  {
  }

  lemma {:induction false} AtomsHere(parts: seq<string>, rest: string)
    requires AllAtoms(parts) && rest != "" && rest[0] == ')'
    ensures Atoms(Spaced(parts) + rest) == (parts, rest)
  {
    if parts == [] {
      assert Spaced(parts) + rest == rest;
      NoAtom(rest);
    } else {
      SpacedHead(parts, rest);
      AtomsHere(parts[1..], rest);
      AtomsStep(Spaced(parts) + rest, parts[0], Spaced(parts[1..]) + rest);
      assert parts == [parts[0]] + parts[1..];
    }
  }

  lemma {:induction false} AtomsStep(s: string, a: string, rest: string)
    requires AtomicTerm(s) == Ok(a, rest)
    ensures Atoms(s) == ([a] + Atoms(rest).0, Atoms(rest).1)
  {
  }

  lemma {:induction false} SpacedHead(parts: seq<string>, rest: string)
    requires parts != [] && AllAtoms(parts) && Stops(rest)
    ensures AtomicTerm(Spaced(parts) + rest) == Ok(parts[0], Spaced(parts[1..]) + rest)
  {
    SpacedStops(parts[1..], rest);
    AtomHere(parts[0], Spaced(parts[1..]) + rest);
    SpacedText(parts, rest);
  }

  lemma {:induction false} SpacedText(parts: seq<string>, rest: string)
    requires parts != []
    ensures Spaced(parts) + rest == " " + (parts[0] + (Spaced(parts[1..]) + rest))
  {
  }

  lemma {:induction false} JoinSpaced(parts: seq<string>)
    requires parts != []
    ensures " " + Join(parts) == Spaced(parts)
  {
    if |parts| > 1 {
      JoinSpaced(parts[1..]);
    } else {
      assert Spaced(parts[1..]) == "";
    }
  }

  lemma {:induction false} CompoundText(con: string, comps: seq<string>, rest: string)
    requires comps != []
    ensures Compound(con, comps).Id() + rest == "(" + (con + (Spaced(comps) + (")" + rest)))
  {
    JoinSpaced(comps);
  }

  // ---------- terms ----------

  /** The terms that the grammar can produce. */
  ghost predicate PrintableTerm(t: Term) {
    match t
    case Atomic(name) => AtomText(name)
    case Compound(con, comps) => IsConnector(con) && |comps| >= 2 && AllAtoms(comps)
  }

  lemma ConnectorHere(con: string, rest: string)
    requires IsConnector(con)
    ensures Connector(con + rest) == Ok(con, rest) && Connector(" " + (con + rest)) == Ok(con, rest)
  {
    LiteralHere(con, rest);
    if con != PRODUCT {
      LiteralElsewhere(PRODUCT, con + rest);
      if con != EXT_IMAGE {
        LiteralElsewhere(EXT_IMAGE, con + rest);
      }
    }
  }

  /** The prefix notation parses as written. */
  lemma PrefixHere(con: string, comps: seq<string>, rest: string)
    requires IsConnector(con) && |comps| >= 2 && AllAtoms(comps)
    ensures PrefixCompTerm(Compound(con, comps).Id() + rest) == Ok(Compound(con, comps), rest)
    ensures PrefixCompTerm(" " + (Compound(con, comps).Id() + rest)) == Ok(Compound(con, comps), rest)
  {
    CompoundText(con, comps, rest);
    PrefixPieces(Compound(con, comps).Id() + rest, con, comps, Spaced(comps) + (")" + rest), rest);
  }

  lemma {:induction false} PrefixPieces(s: string, con: string, comps: seq<string>, inside: string, rest: string)
    requires IsConnector(con) && |comps| >= 2 && AllAtoms(comps)
    requires s == "(" + (con + inside) && inside == Spaced(comps) + (")" + rest)
    ensures PrefixCompTerm(s) == Ok(Compound(con, comps), rest)
    ensures PrefixCompTerm(" " + s) == Ok(Compound(con, comps), rest)
  {
    var close := ")" + rest;
    var tail := Spaced(comps[1..]) + close;
    LiteralHere("(", con + inside);
    ConnectorHere(con, inside);
    ComponentsHere(comps, inside, close);
    LiteralHere(")", rest);
    PrefixSteps(s, con + inside, con, inside, comps[0], tail, comps[1..], close, rest);
    PrefixSteps(" " + s, con + inside, con, inside, comps[0], tail, comps[1..], close, rest);
  }

  lemma {:induction false} ComponentsHere(comps: seq<string>, inside: string, close: string)
    requires |comps| >= 2 && AllAtoms(comps) && close != "" && close[0] == ')'
    requires inside == Spaced(comps) + close
    ensures AtomicTerm(inside) == Ok(comps[0], Spaced(comps[1..]) + close)
    ensures Atoms(Spaced(comps[1..]) + close) == (comps[1..], close) && comps[1..] != []
    ensures [comps[0]] + comps[1..] == comps
  {
    SpacedHead(comps, close);
    AtomsHere(comps[1..], close);
  }

  /** The prefix notation, token by token. */
  lemma {:induction false} PrefixSteps(s: string, s1: string, con: string, s2: string, a: string, s3: string,
                    list: seq<string>, s4: string, rest: string)
    requires Literal("(", s) == Ok("(", s1) && Connector(s1) == Ok(con, s2) && AtomicTerm(s2) == Ok(a, s3)
    requires Atoms(s3) == (list, s4) && list != [] && Literal(")", s4) == Ok(")", rest)
    ensures PrefixCompTerm(s) == Ok(Compound(con, [a] + list), rest)
  {
  }

  lemma TermHere(t: Term, rest: string)
    requires PrintableTerm(t) && Stops(rest)
    ensures AnyTerm(t.Id() + rest) == Ok(t, rest) && AnyTerm(" " + (t.Id() + rest)) == Ok(t, rest)
  {
    match t
    case Atomic(name) =>
      AtomHere(name, rest);
    case Compound(con, comps) =>
      PrefixHere(con, comps, rest);
      NoAtom(t.Id() + rest);
  }

  // ---------- numbers ----------

  lemma {:induction false} DigitsValue(n: nat)
    ensures NatOf(Digits(n)) == n
  {
    var last := [('0' as int + n % 10) as char];
    if n < 10 {
      assert NatOf(last) == n % 10 by { assert last[..0] == ""; }
    } else {
      DigitsValue(n / 10);
      var s := Digits(n / 10) + last;
      assert s[..|s| - 1] == Digits(n / 10);
    }
  }

  lemma {:induction false} DigitLengthHere(s: string, rest: string)
    requires forall k :: 0 <= k < |s| ==> IsDigit(s[k])
    requires rest == "" || !IsDigit(rest[0])
    ensures DigitLength(s + rest) == |s|
  {
    if s == "" {
      assert s + rest == rest;
    } else {
      DigitLengthHere(s[1..], rest);
      assert (s + rest)[1..] == s[1..] + rest;
    }
  }

  /** The two printed decimals are worth the hundredths beyond the whole. */
  lemma {:induction false} Decimals(n: nat)
    ensures var d := Digits(n / 10 % 10) + Digits(n % 10);
            |d| == 2 && NatOf(d) == n % 100 && forall k :: 0 <= k < |d| ==> IsDigit(d[k])
  {
    var a, b := Digits(n / 10 % 10), Digits(n % 10);
    DigitsValue(n / 10 % 10);
    DigitsValue(n % 10);
    var d := a + b;
    assert d[..1] == a;
    assert b[..0] == "";
    assert NatOf(b) == 10 * NatOf(b[..0]) + DigitValue(b[0]);
    assert NatOf(d) == 10 * NatOf(a) + DigitValue(b[0]);
  }

  /** To hundredths. */
  function Rounded(x: real): real
    requires x >= 0.0
  {
    Hundredths(x) as real / 100.0
  }

  ghost predicate AllDigits(s: string) {
    s != "" && forall k :: 0 <= k < |s| ==> IsDigit(s[k])
  }

  /** A numeral with a point, piece by piece. */
  lemma {:induction false} NumeralSteps(s: string, whole: string, u: string, d: string, rest: string)
    requires SkipSpace(s) == s && s == whole + ("." + u) && whole != "" && DigitLength(s) == |whole|
    requires u == d + rest && DigitLength(u) == |d|
    ensures Numeral(s) == Ok((whole, d), rest)
  {
    assert s[..|whole|] == whole && s[|whole| + 1..] == u;
    assert u[..|d|] == d && u[|d|..] == rest;
  }

  lemma PointedHere(whole: string, d: string, rest: string)
    requires AllDigits(whole) && AllDigits(d) && rest != "" && !IsDigit(rest[0])
    ensures Numeral(whole + ("." + (d + rest))) == Ok((whole, d), rest)
  {
    var u := d + rest;
    var s := whole + ("." + u);
    assert IsDigit(whole[0]) && s[0] == whole[0];
    SkipOneSpace(s);
    DigitLengthHere(whole, "." + u);
    DigitLengthHere(d, rest);
    NumeralSteps(s, whole, u, d, rest);
  }

  lemma {:induction false} DecimalValue(n: nat)
    ensures ValueOf(Digits(n / 100), Digits(n / 10 % 10) + Digits(n % 10)) == n as real / 100.0
  {
    Decimals(n);
    DigitsValue(n / 100);
    assert PowerOfTen(2) == 100 by { assert PowerOfTen(1) == 10; }
    WholeAndHundredths(n / 100, n % 100);
  }

  lemma HundredthsHere(n: nat, rest: string)
    requires rest != "" && !IsDigit(rest[0])
    ensures Number(TwoDecimals(n) + rest) == Ok(n as real / 100.0, rest)
  {
    var whole, d := Digits(n / 100), Digits(n / 10 % 10) + Digits(n % 10);
    DecimalText(whole, Digits(n / 10 % 10), Digits(n % 10), rest);
    Decimals(n);
    PointedHere(whole, d, rest);
    DecimalValue(n);
  }

  lemma NumberHere(x: real, rest: string)
    requires x >= 0.0 && rest != "" && !IsDigit(rest[0])
    ensures Number(Decimal(x) + rest) == Ok(Rounded(x), rest)
  {
    DecimalIs(x);
    NumberOf(Decimal(x), Hundredths(x), rest);
  }

  lemma DecimalIs(x: real)
    requires x >= 0.0
    ensures Decimal(x) == TwoDecimals(Hundredths(x))
  {
  }

  lemma NumberOf(text: string, n: nat, rest: string)
    requires rest != "" && !IsDigit(rest[0]) && text == TwoDecimals(n)
    ensures Number(text + rest) == Ok(n as real / 100.0, rest)
  {
    HundredthsHere(n, rest);
  }

  lemma DecimalText(a: string, b: string, c: string, rest: string)
    ensures (a + "." + b + c) + rest == a + ("." + ((b + c) + rest))
  {
  }

  lemma WholeAndHundredths(a: nat, b: nat)
    ensures a as real + b as real / 100.0 == (100 * a + b) as real / 100.0
  {
  }

  // ---------- statements ----------

  /** Printing keeps the nearest hundredth, and writes no zero in front. */
  lemma RoundedIsNearest(x: real)
    requires x >= 0.0
    ensures -0.005 < Rounded(x) - x <= 0.005
  {
  }

  lemma {:induction false} NoZeroInFront(n: nat)
    ensures n > 0 ==> Digits(n)[0] != '0'
    ensures Digits(0) == "0"
  {
    if n >= 10 {
      NoZeroInFront(n / 10);
    }
  }

  ghost predicate IsCopula(c: string) {
    c == INHERIT || c == SIMILAR
  }

  /** The statements that the grammar can produce. */
  ghost predicate Printable(st: Statement) {
    && PrintableTerm(st.subj) && IsCopula(st.copula) && PrintableTerm(st.pred)
    && st.truth.freq >= 0.0 && st.truth.conf >= 0.0
  }

  /** What printing keeps of a truth. */
  function RoundedTruth(t: Truth): Truth
    requires t.freq >= 0.0 && t.conf >= 0.0
  {
    Truth(Rounded(t.freq), Rounded(t.conf))
  }

  lemma CopulaHere(c: string, rest: string)
    requires IsCopula(c)
    ensures Copula(" " + (c + rest)) == Ok(c, rest)
  {
    LiteralHere(c, rest);
    if c == SIMILAR {
      LiteralElsewhere(INHERIT, c + rest);
    }
  }

  lemma TruthHere(t: Truth, rest: string)
    requires t.freq >= 0.0 && t.conf >= 0.0
    ensures TruthValue(" " + (TruthText(t) + rest)) == Ok(RoundedTruth(t), rest)
  {
    var f, c := Decimal(t.freq), Decimal(t.conf);
    var close := ")" + rest;
    NumberHere(t.freq, "," + (c + close));
    NumberHere(t.conf, close);
    TruthShape(f, c, rest);
    TruthPieces(f + ("," + (c + close)), "," + (c + close), c + close, rest, Rounded(t.freq), Rounded(t.conf));
  }

  lemma TruthShape(f: string, c: string, rest: string)
    ensures ("(" + f + "," + c + ")") + rest == "(" + (f + ("," + (c + (")" + rest))))
  {
  }

  lemma TruthPieces(s1: string, s2: string, s3: string, rest: string, x: real, y: real)
    requires Number(s1) == Ok(x, s2) && s2 == "," + s3 && Number(s3) == Ok(y, ")" + rest)
    ensures TruthValue(" " + ("(" + s1)) == Ok(Truth(x, y), rest)
  {
    LiteralHere("(", s1);
    LiteralHere(",", s3);
    LiteralHere(")", rest);
    TruthSteps(" " + ("(" + s1), s1, x, s2, s3, y, ")" + rest, rest);
  }

  lemma TruthSteps(s: string, s1: string, f: real, s2: string, s3: string, c: real, s4: string, rest: string)
    requires Literal("(", s) == Ok("(", s1) && Number(s1) == Ok(f, s2) && Literal(",", s2) == Ok(",", s3)
    requires Number(s3) == Ok(c, s4) && Literal(")", s4) == Ok(")", rest)
    ensures TruthValue(s) == Ok(Truth(f, c), rest)
  {
  }

  /** A judgement, piece by piece. */
  lemma JudgementSteps(s: string, subj: Term, s1: string, c: string, s2: string, pred: Term, s3: string,
                       t: Truth, s4: string)
    requires AnyTerm(s) == Ok(subj, s1) && Copula(s1) == Ok(c, s2) && AnyTerm(s2) == Ok(pred, s3)
    requires TruthValue(s3) == Ok(t, s4)
    ensures Judgement(s) == Ok(Statement(subj, c, pred, t), s4)
  {
  }

  lemma PrintShape(a: string, b: string, c: string, d: string, rest: string)
    ensures (a + " " + b + " " + c + " " + d) + rest == a + (" " + (b + (" " + (c + (" " + (d + rest))))))
  {
  }

  /** A printed statement in front of anything is read as a judgement. */
  lemma JudgementHere(st: Statement, rest: string)
    requires Printable(st)
    ensures Judgement(Print(st) + rest) == Ok(st.(truth := RoundedTruth(st.truth)), rest)
  {
    var s3 := " " + (TruthText(st.truth) + rest);
    var s2 := " " + (st.pred.Id() + s3);
    var s1 := " " + (st.copula + s2);
    PrintShape(st.subj.Id(), st.copula, st.pred.Id(), TruthText(st.truth), rest);
    TermHere(st.subj, s1);
    CopulaHere(st.copula, s2);
    TermHere(st.pred, s3);
    TruthHere(st.truth, rest);
    JudgementSteps(Print(st) + rest, st.subj, s1, st.copula, s2, st.pred, s3, RoundedTruth(st.truth), rest);
  }

  /** Parsing a printed statement gives it back, with its truth in hundredths. */
  lemma ParsePrint(st: Statement)
    requires Printable(st)
    ensures Parse(Print(st)) == Some(st.(truth := RoundedTruth(st.truth)))
  {
    ParsePrintAnd(st, "");
    assert Print(st) + "" == Print(st) && SkipSpace("") == "";
  }

  /** It does so in front of nothing but white space; anything else behind the statement is an error. */
  lemma {:induction false} ParsePrintAnd(st: Statement, rest: string)
    requires Printable(st)
    ensures Parse(Print(st) + rest)
         == if SkipSpace(rest) == "" then Some(st.(truth := RoundedTruth(st.truth))) else None
  {
    JudgementHere(st, rest);
  }

  lemma PrefixPrintable(s: string)
    ensures PrefixCompTerm(s).Ok? ==> PrintableTerm(PrefixCompTerm(s).value)
  {
  }

  lemma InfixPrintable(s: string)
    ensures InfixCompTerm(s).Ok? ==> PrintableTerm(InfixCompTerm(s).value)
  {
  }

  lemma Img1Printable(s: string)
    ensures ImgCompTerm1(s).Ok? ==> PrintableTerm(ImgCompTerm1(s).value)
  {
    assert AtomText(PLACEHOLDER);
  }

  lemma Img2Printable(s: string)
    ensures ImgCompTerm2(s).Ok? ==> PrintableTerm(ImgCompTerm2(s).value)
  {
    assert AtomText(PLACEHOLDER);
  }

  lemma CompoundPrintable(s: string)
    ensures CompoundTerm(s).Ok? ==> PrintableTerm(CompoundTerm(s).value)
  {
    PrefixPrintable(s);
    if PrefixCompTerm(s).Fail? {
      InfixPrintable(s);
      Img1Printable(s);
      Img2Printable(s);
    }
  }

  lemma TermPrintable(s: string)
    ensures AnyTerm(s).Ok? ==> PrintableTerm(AnyTerm(s).value)
  {
    CompoundPrintable(s);
  }

  /** Whatever the parser returns is printable. */
  lemma ParsePrintable(input: string)
    ensures Parse(input).Some? ==> Printable(Parse(input).value)
  {
    assert AtomText(QUESTION);
    var r := AnyStatement(input);
    if r.Ok? {
      TermPrintable(input);
      if Judgement(input).Ok? {
        TermPrintable(Copula(AnyTerm(input).rest).rest);
      } else if QuestionOnSubject(input).Ok? {
        TermPrintable(Copula(Literal("?", input).rest).rest);
      }
    }
  }

  /** The parser inverts the printer exactly on the printable statements whose truth is in
      hundredths. */
  lemma ParseInvertsPrint(st: Statement)
    ensures Parse(Print(st)) == Some(st) <==> Printable(st) && st.truth == RoundedTruth(st.truth)
  {
    ParsePrintable(Print(st));
    if Printable(st) {
      ParsePrint(st);
    }
  }

  // ---------- the two notations of a compound ----------

  /** Every atom behind the connector. */
  function Alternating(con: string, atoms: seq<string>): (r: seq<string>)
    ensures |r| == 2 * |atoms|
  {
    if atoms == [] then [] else [con, atoms[0]] + Alternating(con, atoms[1..])
  }

  /** (a con b con c) */
  function InfixText(con: string, atoms: seq<string>): string
    requires atoms != []
  {
    "(" + (atoms[0] + (Spaced(Alternating(con, atoms[1..])) + ")"))
  }

  /** The atom begins as a connector does. */
  predicate PosesAsConnector(a: string) {
    a != "" && IsConnector([a[0]])
  }

  lemma {:induction false} AlternatingAtoms(con: string, atoms: seq<string>)
    requires IsConnector(con) && AllAtoms(atoms)
    ensures AllAtoms(Alternating(con, atoms))
  {
    if atoms != [] {
      assert AtomText(con);
      AlternatingAtoms(con, atoms[1..]);
    }
  }

  lemma PairHere(con: string, a: string, rest: string)
    requires IsConnector(con) && AtomText(a) && Stops(rest)
    ensures Connector(" " + (con + (" " + (a + rest)))) == Ok(con, " " + (a + rest))
    ensures AtomicTerm(" " + (a + rest)) == Ok(a, rest)
  {
    ConnectorHere(con, " " + (a + rest));
    AtomHere(a, rest);
  }

  lemma NoConnector(s: string)
    requires s != "" && !IsSpace(s[0]) && !IsConnector([s[0]])
    ensures Connector(s).Fail?
  {
    LiteralElsewhere(PRODUCT, s);
    LiteralElsewhere(EXT_IMAGE, s);
    LiteralElsewhere(INT_IMAGE, s);
  }

  lemma {:induction false} PairsStep(s: string, con: string, s1: string, a: string, rest: string)
    requires Connector(s) == Ok(con, s1) && AtomicTerm(s1) == Ok(a, rest)
    ensures Pairs(s) == ([(con, a)] + Pairs(rest).0, Pairs(rest).1)
  {
  }

  function Paired(con: string, atoms: seq<string>): (r: seq<(string, string)>)
    ensures |r| == |atoms| && forall k :: 0 <= k < |r| ==> r[k] == (con, atoms[k])
  {
    seq(|atoms|, k requires 0 <= k < |atoms| => (con, atoms[k]))
  }

  lemma {:induction false} PairsHere(con: string, atoms: seq<string>, close: string)
    requires IsConnector(con) && AllAtoms(atoms) && close != "" && close[0] == ')'
    ensures Pairs(Spaced(Alternating(con, atoms)) + close) == (Paired(con, atoms), close)
  {
    var s := Spaced(Alternating(con, atoms)) + close;
    if atoms == [] {
      assert s == close;
      NoConnector(close);
    } else {
      var rest := Spaced(Alternating(con, atoms[1..])) + close;
      SpacedStops(Alternating(con, atoms[1..]), close);
      PairHere(con, atoms[0], rest);
      AlternatingText(con, atoms, close);
      PairsStep(s, con, " " + (atoms[0] + rest), atoms[0], rest);
      PairsHere(con, atoms[1..], close);
      assert Paired(con, atoms) == [(con, atoms[0])] + Paired(con, atoms[1..]);
    }
  }

  lemma {:induction false} AlternatingText(con: string, atoms: seq<string>, close: string)
    requires atoms != []
    ensures Spaced(Alternating(con, atoms)) + close
         == " " + (con + (" " + (atoms[0] + (Spaced(Alternating(con, atoms[1..])) + close))))
  {
    var alt := Alternating(con, atoms);
    assert alt[1..] == [atoms[0]] + Alternating(con, atoms[1..]);
    assert alt[1..][1..] == Alternating(con, atoms[1..]);
  }

  /** An infix compound whose first atom does not pose as a connector reads as its prefix form. */
  lemma InfixReads(con: string, atoms: seq<string>)
    requires IsConnector(con) && |atoms| >= 2 && AllAtoms(atoms) && !PosesAsConnector(atoms[0])
    ensures CompoundTerm(InfixText(con, atoms)) == Ok(Compound(con, atoms), "")
  {
    var tail := Spaced(Alternating(con, atoms[1..])) + ")";
    SpacedStops(Alternating(con, atoms[1..]), ")");
    PlainAtomHere(atoms[0], tail);
    LiteralHere("(", atoms[0] + tail);
    PairsHere(con, atoms[1..], ")");
    LiteralHere(")", "");
    assert ")" + "" == ")";
    InfixSteps(InfixText(con, atoms), atoms[0] + tail, atoms[0], tail, Paired(con, atoms[1..]), ")", "");
    SecondsOfPaired(con, atoms);
  }

  lemma PlainAtomHere(a: string, tail: string)
    requires AtomText(a) && !PosesAsConnector(a) && Stops(tail)
    ensures AtomicTerm(a + tail) == Ok(a, tail) && Connector(a + tail).Fail?
  {
    assert AtomChar(a[0]) && (a + tail)[0] == a[0];
    NoConnector(a + tail);
    AtomHere(a, tail);
  }

  lemma SecondsOfPaired(con: string, atoms: seq<string>)
    requires atoms != []
    ensures [atoms[0]] + Seconds(Paired(con, atoms[1..])) == atoms
  {
  }

  /** The infix notation, token by token, where no connector opens it. */
  lemma {:induction false} InfixSteps(s: string, s1: string, a: string, s2: string, list: seq<(string, string)>,
                                      s3: string, rest: string)
    requires Literal("(", s) == Ok("(", s1) && AtomicTerm(s1) == Ok(a, s2) && Pairs(s2) == (list, s3)
    requires list != [] && Literal(")", s3) == Ok(")", rest) && Connector(s1).Fail?
    ensures CompoundTerm(s) == Ok(Compound(list[0].0, [a] + Seconds(list)), rest)
  {
    assert PrefixCompTerm(s).Fail?;
  }

  /** The atoms that the prefix parser reads behind a first atom posing as a connector. */
  function Misread(con: string, atoms: seq<string>): seq<string>
    requires |atoms| >= 2 && atoms[0] != ""
  {
    var alt := Alternating(con, atoms[1..]);
    if |atoms[0]| == 1 then alt else [atoms[0][1..]] + alt
  }

  /** With a first atom that is a connector character, the atoms start behind it ... */
  lemma MisreadShort(con: string, atoms: seq<string>)
    requires IsConnector(con) && |atoms| >= 2 && AllAtoms(atoms)
    requires PosesAsConnector(atoms[0]) && |atoms[0]| == 1
    ensures PrefixCompTerm(InfixText(con, atoms)) == Ok(Compound([atoms[0][0]], Misread(con, atoms)), "")
  {
    var alt := Alternating(con, atoms[1..]);
    AlternatingAtoms(con, atoms[1..]);
    var after := Spaced(alt) + ")";
    assert ")" + "" == ")";
    assert atoms[0] == [atoms[0][0]];
    PrefixPieces(InfixText(con, atoms), atoms[0], alt, after, "");
  }

  /** ... and with one that begins with it, in the middle of it. */
  lemma MisreadLong(con: string, atoms: seq<string>, c: string, more: string)
    requires IsConnector(con) && |atoms| >= 2 && AllAtoms(atoms) && IsConnector(c)
    requires atoms[0] == c + more && |c| == 1 && more != ""
    ensures PrefixCompTerm(InfixText(con, atoms)) == Ok(Compound([atoms[0][0]], Misread(con, atoms)), "")
  {
    var alt := Alternating(con, atoms[1..]);
    AlternatingAtoms(con, atoms[1..]);
    AtomSuffix(c, more);
    var after := Spaced(alt) + ")";
    assert InfixText(con, atoms) == "(" + (c + (more + after));
    MisreadPieces(InfixText(con, atoms), c, more, alt, after);
    assert atoms[0][1..] == more && [atoms[0][0]] == c;
  }

  lemma {:induction false} MisreadPieces(s: string, c: string, more: string, alt: seq<string>, after: string)
    requires IsConnector(c) && AtomText(more) && AllAtoms(alt) && alt != []
    requires s == "(" + (c + (more + after)) && after == Spaced(alt) + ")"
    ensures PrefixCompTerm(s) == Ok(Compound(c, [more] + alt), "")
  {
    SpacedStops(alt, ")");
    LiteralHere("(", c + (more + after));
    ConnectorHere(c, more + after);
    AtomHere(more, after);
    AtomsHere(alt, ")");
    LiteralHere(")", "");
    assert ")" + "" == ")";
    PrefixSteps(s, c + (more + after), c, more + after, more, after, alt, ")", "");
  }

  lemma AtomSuffix(c: string, more: string)
    requires AtomText(c + more) && more != ""
    ensures AtomText(more)
  {
    forall k | 0 <= k < |more| ensures AtomChar(more[k]) {
      assert more[k] == (c + more)[|c| + k];
    }
  }

  /** With a first atom that poses as a connector, the prefix parser takes over. */
  lemma InfixMisreads(con: string, atoms: seq<string>)
    requires IsConnector(con) && |atoms| >= 2 && AllAtoms(atoms) && PosesAsConnector(atoms[0])
    ensures CompoundTerm(InfixText(con, atoms)) == Ok(Compound([atoms[0][0]], Misread(con, atoms)), "")
  {
    if |atoms[0]| == 1 {
      MisreadShort(con, atoms);
    } else {
      assert atoms[0] == atoms[0][..1] + atoms[0][1..];
      assert atoms[0][..1] == [atoms[0][0]];
      MisreadLong(con, atoms, atoms[0][..1], atoms[0][1..]);
    }
  }

  /** Infix and prefix notation of a compound parse alike, exactly when the first atom does not begin
      with a connector character, or is the connector itself in front of a single pair. */
  lemma InfixIffPrefix(con: string, atoms: seq<string>)
    requires IsConnector(con) && |atoms| >= 2 && AllAtoms(atoms)
    ensures CompoundTerm(Compound(con, atoms).Id()) == Ok(Compound(con, atoms), "")
    ensures CompoundTerm(InfixText(con, atoms)) == CompoundTerm(Compound(con, atoms).Id())
       <==> (PosesAsConnector(atoms[0]) ==> |atoms| == 2 && atoms[0] == con)
  {
    PrefixReads(con, atoms);
    if PosesAsConnector(atoms[0]) {
      InfixMisreads(con, atoms);
      MisreadIs(con, atoms);
    } else {
      InfixReads(con, atoms);
    }
  }

  lemma PrefixReads(con: string, atoms: seq<string>)
    requires IsConnector(con) && |atoms| >= 2 && AllAtoms(atoms)
    ensures CompoundTerm(Compound(con, atoms).Id()) == Ok(Compound(con, atoms), "")
  {
    PrefixHere(con, atoms, "");
    assert Compound(con, atoms).Id() + "" == Compound(con, atoms).Id();
  }

  /** The misreading is harmless for one pair behind the connector itself, and only there. */
  lemma MisreadIs(con: string, atoms: seq<string>)
    requires IsConnector(con) && |atoms| >= 2 && AllAtoms(atoms)
    ensures [atoms[0][0]] == con && Misread(con, atoms) == atoms <==> |atoms| == 2 && atoms[0] == con
  {
    var alt := Alternating(con, atoms[1..]);
    assert |Misread(con, atoms)| >= 2 * (|atoms| - 1);
    if |atoms| == 2 {
      assert atoms[1..][1..] == [];
      assert alt == [con, atoms[1]];
    }
  }

  /** Whatever the parser returns can be stored: its terms are good, hence decoded as they were. */
  lemma ParsedIsGood(input: string)
    ensures Parse(input).Some? ==>
              var st := Parse(input).value;
              && GoodTerm(st.subj) && GoodTerm(st.pred)
              && Decode(st.subj.Id()) == Some(st.subj) && Decode(st.pred.Id()) == Some(st.pred)
  {
    ParsePrintable(input);
    if Parse(input).Some? {
      var st := Parse(input).value;
      PrintableIsGood(st.subj);
      PrintableIsGood(st.pred);
      DecodeId(st.subj);
      DecodeId(st.pred);
    }
  }

  lemma PrintableIsGood(t: Term)
    requires PrintableTerm(t)
    ensures GoodTerm(t) && Storable(t)
  {
    match t
    case Atomic(name) => AtomIsGood(name);
    case Compound(con, comps) =>
      forall k | 0 <= k < |comps| ensures GoodAtom(comps[k]) {
        AtomIsGood(comps[k]);
      }
      assert GoodTerm(t);
      GoodIsStorable(t);
  }

  lemma AtomIsGood(a: string)
    requires AtomText(a)
    ensures GoodAtom(a)
  {
    assert AtomChar(a[0]) && !AtomChar(' ');
    assert forall k :: 0 <= k < |a| ==> AtomChar(a[k]);
  }
}
