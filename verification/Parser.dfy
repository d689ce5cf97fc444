/** The statement grammar, as the ordered-choice parser that the combinators build: every literal and
    every pattern first skips whitespace, an alternative is tried only when the one before it fails,
    and repetition takes as much as it can. */
module Parser {

  import opened Options
  import opened Statements
  import opened Terms
  import opened Truths

  /** The outcome of a parser: failure, or a value and the remaining input. */
  datatype Parsed<+T> = Fail | Ok(value: T, rest: string)

  // ---------- characters ----------

  predicate IsSpace(c: char) {
    c == ' ' || c == '\t' || c == '\n' || c == '\r' || c == '\U{000B}' || c == '\U{000C}'
  }

  predicate IsDigit(c: char) {
    '0' <= c <= '9'
  }

  predicate AtomChar(c: char) {
    !IsSpace(c) && c != '(' && c != ')'
  }

  function SkipSpace(s: string): (r: string)
    ensures |r| <= |s|
    ensures r == "" || !IsSpace(r[0])
  {
    if s != "" && IsSpace(s[0]) then SkipSpace(s[1..]) else s
  }

  // ---------- tokens ----------

  function Literal(lit: string, s: string): (r: Parsed<string>)
    ensures r.Ok? ==> r.value == lit && |r.rest| + |lit| <= |s|
  {
    var t := SkipSpace(s);
    if lit <= t then Ok(lit, t[|lit|..]) else Fail
  }

  /** Length of the longest prefix of atom characters. */
  function AtomLength(s: string): (n: nat)
    ensures n <= |s|
    ensures forall k :: 0 <= k < n ==> AtomChar(s[k])
    ensures n < |s| ==> !AtomChar(s[n])
  {
    if s != "" && AtomChar(s[0]) then 1 + AtomLength(s[1..]) else 0
  }

  function AtomicTerm(s: string): (r: Parsed<string>)
    ensures r.Ok? ==> AtomText(r.value) && |r.rest| < |s|
  {
    var t := SkipSpace(s);
    var n := AtomLength(t);
    if n == 0 then Fail else Ok(t[..n], t[n..])
  }

  /** Non-empty, and free of whitespace and parentheses. */
  predicate AtomText(a: string) {
    a != "" && forall k :: 0 <= k < |a| ==> AtomChar(a[k])
  }

  function DigitLength(s: string): (n: nat)
    ensures n <= |s|
    ensures forall k :: 0 <= k < n ==> IsDigit(s[k])
    ensures n < |s| ==> !IsDigit(s[n])
  {
    if s != "" && IsDigit(s[0]) then 1 + DigitLength(s[1..]) else 0
  }

  function DigitValue(c: char): nat {
    if IsDigit(c) then c as int - '0' as int else 0
  }

  /** Value of a decimal numeral. */
  function NatOf(s: string): nat
  {
    if s == "" then 0 else 10 * NatOf(s[..|s| - 1]) + DigitValue(s[|s| - 1])
  }

  function PowerOfTen(n: nat): (p: int)
    ensures p >= 1
  {
    if n == 0 then 1 else 10 * PowerOfTen(n - 1)
  }

  /** Digits, optionally followed by a point and further digits: the two runs of digits. */
  function Numeral(s: string): (r: Parsed<(string, string)>)
  {
    var t := SkipSpace(s);
    var n := DigitLength(t);
    if n == 0 then Fail
    else if n < |t| && t[n] == '.' then
      var u := t[n + 1..];
      var m := DigitLength(u);
      Ok((t[..n], u[..m]), u[m..])
    else Ok((t[..n], ""), t[n..])
  }

  function ValueOf(whole: string, fraction: string): (x: real)
    ensures x >= 0.0
  {
    NatOf(whole) as real + NatOf(fraction) as real / PowerOfTen(|fraction|) as real
  }

  function Number(s: string): (r: Parsed<real>)
    ensures r.Ok? ==> r.value >= 0.0
  {
    var r := Numeral(s);
    if r.Fail? then Fail else Ok(ValueOf(r.value.0, r.value.1), r.rest)
  }

  // ---------- terms ----------

  function Image(s: string): (r: Parsed<string>)
    ensures r.Ok? ==> (r.value == EXT_IMAGE || r.value == INT_IMAGE) && |r.rest| < |s|
  {
    var r := Literal(EXT_IMAGE, s);
    if r.Ok? then r else Literal(INT_IMAGE, s)
  }

  function Connector(s: string): (r: Parsed<string>)
    ensures r.Ok? ==> IsConnector(r.value) && |r.rest| < |s|
  {
    var r := Literal(PRODUCT, s);
    if r.Ok? then r else Image(s)
  }

  predicate IsConnector(con: string) {
    con == PRODUCT || con == EXT_IMAGE || con == INT_IMAGE
  }

  /** As many atomic terms as there are. */
  function Atoms(s: string): (r: (seq<string>, string))
    ensures forall k :: 0 <= k < |r.0| ==> AtomText(r.0[k])
    decreases |s|
  {
    var a := AtomicTerm(s);
    if a.Fail? then ([], s)
    else
      var more := Atoms(a.rest);
      ([a.value] + more.0, more.1)
  }

  /** As many connector-and-atom pairs as there are. */
  function Pairs(s: string): (r: (seq<(string, string)>, string))
    ensures forall k :: 0 <= k < |r.0| ==> IsConnector(r.0[k].0) && AtomText(r.0[k].1)
    decreases |s|
  {
    var c := Connector(s);
    if c.Fail? then ([], s)
    else
      var a := AtomicTerm(c.rest);
      if a.Fail? then ([], s)
      else
        var more := Pairs(a.rest);
        ([(c.value, a.value)] + more.0, more.1)
  }

  function Seconds(pairs: seq<(string, string)>): (r: seq<string>)
    ensures |r| == |pairs| && forall k :: 0 <= k < |r| ==> r[k] == pairs[k].1
  {
    if pairs == [] then [] else [pairs[0].1] + Seconds(pairs[1..])
  }

  /** The closing parenthesis behind a compound. */
  function Closed(t: Term, s: string): Parsed<Term> {
    var close := Literal(")", s);
    if close.Fail? then Fail else Ok(t, close.rest)
  }

  /** (con atom atom ...) */
  function PrefixCompTerm(s: string): Parsed<Term> {
    var open := Literal("(", s);
    if open.Fail? then Fail
    else
      var con := Connector(open.rest);
      if con.Fail? then Fail
      else
        var t := AtomicTerm(con.rest);
        if t.Fail? then Fail
        else
          var list := Atoms(t.rest);
          if list.0 == [] then Fail else Closed(Compound(con.value, [t.value] + list.0), list.1)
  }

  /** (atom con atom con atom ...), under the first connector */
  function InfixCompTerm(s: string): Parsed<Term> {
    var open := Literal("(", s);
    if open.Fail? then Fail
    else
      var t := AtomicTerm(open.rest);
      if t.Fail? then Fail
      else
        var list := Pairs(t.rest);
        if list.0 == [] then Fail
        else Closed(Compound(list.0[0].0, [t.value] + Seconds(list.0)), list.1)
  }

  /** (img rel * atom) */
  function ImgCompTerm1(s: string): Parsed<Term> {
    var open := Literal("(", s);
    if open.Fail? then Fail
    else
      var img := Image(open.rest);
      if img.Fail? then Fail
      else
        var rel := AtomicTerm(img.rest);
        if rel.Fail? then Fail
        else
          var star := Literal("*", rel.rest);
          if star.Fail? then Fail
          else
            var t := AtomicTerm(star.rest);
            if t.Fail? then Fail
            else Closed(Compound(img.value, [rel.value, PLACEHOLDER, t.value]), t.rest)
  }

  /** (img rel atom *) */
  function ImgCompTerm2(s: string): Parsed<Term> {
    var open := Literal("(", s);
    if open.Fail? then Fail
    else
      var img := Image(open.rest);
      if img.Fail? then Fail
      else
        var rel := AtomicTerm(img.rest);
        if rel.Fail? then Fail
        else
          var t := AtomicTerm(rel.rest);
          if t.Fail? then Fail
          else
            var star := Literal("*", t.rest);
            if star.Fail? then Fail
            else Closed(Compound(img.value, [rel.value, t.value, PLACEHOLDER]), star.rest)
  }

  function CompoundTerm(s: string): Parsed<Term> {
    var prefix := PrefixCompTerm(s);
    if prefix.Ok? then prefix
    else
      var infix := InfixCompTerm(s);
      if infix.Ok? then infix
      else
        var img1 := ImgCompTerm1(s);
        if img1.Ok? then img1 else ImgCompTerm2(s)
  }

  function AnyTerm(s: string): Parsed<Term> {
    var a := AtomicTerm(s);
    if a.Ok? then Ok(Atomic(a.value), a.rest) else CompoundTerm(s)
  }

  // ---------- statements ----------

  function Copula(s: string): Parsed<string> {
    var r := Literal(INHERIT, s);
    if r.Ok? then r else Literal(SIMILAR, s)
  }

  /** (freq,conf) */
  function TruthValue(s: string): Parsed<Truth> {
    var open := Literal("(", s);
    if open.Fail? then Fail
    else
      var f := Number(open.rest);
      if f.Fail? then Fail
      else
        var comma := Literal(",", f.rest);
        if comma.Fail? then Fail
        else
          var c := Number(comma.rest);
          if c.Fail? then Fail
          else
            var close := Literal(")", c.rest);
            if close.Fail? then Fail else Ok(Truth(f.value, c.value), close.rest)
  }

  function Judgement(s: string): Parsed<Statement> {
    var subj := AnyTerm(s);
    if subj.Fail? then Fail
    else
      var copula := Copula(subj.rest);
      if copula.Fail? then Fail
      else
        var pred := AnyTerm(copula.rest);
        if pred.Fail? then Fail
        else
          var truth := TruthValue(pred.rest);
          if truth.Fail? then Fail
          else Ok(Statement(subj.value, copula.value, pred.value, truth.value), truth.rest)
  }

  const QUESTION_TRUTH := Truth(1.0, 0.9)

  function QuestionOnSubject(s: string): Parsed<Statement> {
    var q := Literal("?", s);
    if q.Fail? then Fail
    else
      var copula := Copula(q.rest);
      if copula.Fail? then Fail
      else
        var pred := AnyTerm(copula.rest);
        if pred.Fail? then Fail
        else Ok(Statement(Atomic(QUESTION), copula.value, pred.value, QUESTION_TRUTH), pred.rest)
  }

  function QuestionOnPredicate(s: string): Parsed<Statement> {
    var subj := AnyTerm(s);
    if subj.Fail? then Fail
    else
      var copula := Copula(subj.rest);
      if copula.Fail? then Fail
      else
        var q := Literal("?", copula.rest);
        if q.Fail? then Fail
        else Ok(Statement(subj.value, copula.value, Atomic(QUESTION), QUESTION_TRUTH), q.rest)
  }

  function AnyStatement(s: string): Parsed<Statement> {
    var j := Judgement(s);
    if j.Ok? then j
    else
      var q := QuestionOnSubject(s);
      if q.Ok? then q else QuestionOnPredicate(s)
  }

  /** The whole input, up to trailing whitespace; None where the parser throws. */
  function Parse(input: string): Option<Statement> {
    var r := AnyStatement(input);
    if r.Ok? && SkipSpace(r.rest) == "" then Some(r.value) else None
  }

  // ---------- printing ----------

  function Digits(n: nat): (s: string)
    ensures s != "" && forall k :: 0 <= k < |s| ==> IsDigit(s[k])
  {
    var last := [('0' as int + n % 10) as char];
    if n < 10 then last else Digits(n / 10) + last
  }

  /** Hundredths, rounded half up. */
  function Hundredths(x: real): nat
    requires x >= 0.0
  {
    (100.0 * x + 0.5).Floor
  }

  /** A number of hundredths with two decimals. */
  function TwoDecimals(n: nat): string {
    Digits(n / 100) + "." + Digits(n / 10 % 10) + Digits(n % 10)
  }

  /** Two decimals, as "%.2f" prints them. */
  function Decimal(x: real): string {
    if x < 0.0 then "-" + TwoDecimals(Hundredths(-x)) else TwoDecimals(Hundredths(x))
  }

  function TruthText(t: Truth): string {
    "(" + Decimal(t.freq) + "," + Decimal(t.conf) + ")"
  }

  function Print(st: Statement): string {
    st.subj.Id() + " " + st.copula + " " + st.pred.Id() + " " + TruthText(st.truth)
  }
}
