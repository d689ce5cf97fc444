/** What the parser makes of numerals: any number of digits, with or without a point and decimals. */
module Numerals {

  import opened Parser
  import opened Reals
  import opened RoundTrip

  ghost predicate OnlyDigits(s: string) {
    forall k :: 0 <= k < |s| ==> IsDigit(s[k])
  }

  /** Where a numeral with a point ends. */
  ghost predicate NoDigit(rest: string) {
    rest == "" || !IsDigit(rest[0])
  }

  /** x times ten to the power of k. */
  function TimesTen(x: real, k: nat): real {
    if k == 0 then x else 10.0 * TimesTen(x, k - 1)
  }

  lemma {:induction false} TimesTenOfSum(x: real, y: real, k: nat)
    ensures TimesTen(x + y, k) == TimesTen(x, k) + TimesTen(y, k)
  {
    if k > 0 {
      TimesTenOfSum(x, y, k - 1);
    }
  }

  lemma {:induction false} TimesTenOnce(x: real, k: nat)
    ensures TimesTen(10.0 * x, k) == TimesTen(x, k + 1)
  {
    if k > 0 {
      TimesTenOnce(x, k - 1);
    }
  }

  lemma {:induction false} TimesTenIsInjective(x: real, y: real, k: nat)
    requires TimesTen(x, k) == TimesTen(y, k)
    ensures x == y
  {
    if k > 0 {
      TimesTenIsInjective(x, y, k - 1);
    }
  }

  lemma {:induction false} Last(s: string, init: string, c: char)
    requires s == init + [c]
    ensures NatOf(s) == 10 * NatOf(init) + DigitValue(c)
  {
    assert s[..|s| - 1] == init;
  }

  /** What stands for a digit further left counts ten times as much. */
  lemma {:induction false} NatOfSum(w: string, f: string)
    ensures NatOf(w + f) as real == TimesTen(NatOf(w) as real, |f|) + NatOf(f) as real
    decreases |f|
  {
    if f == "" {
      assert w + f == w;
    } else {
      var n := |f| - 1;
      NatOfSum(w, f[..n]);
      Last(w + f, w + f[..n], f[n]);
    }
  }

  lemma TenthPart(x: real, p: real)
    requires p > 0.0
    ensures 10.0 * (x / (10.0 * p)) == x / p
  {
    QuotientTimes(x, 10.0 * p);
    var q := x / (10.0 * p);
    assert q * (10.0 * p) == (10.0 * q) * p;
    QuotientIs(x, p, 10.0 * q);
  }

  lemma {:induction false} TimesTenOfQuotient(x: real, k: nat)
    ensures TimesTen(x / PowerOfTen(k) as real, k) == x
  {
    if k > 0 {
      TenthPart(x, PowerOfTen(k - 1) as real);
      assert PowerOfTen(k) as real == 10.0 * PowerOfTen(k - 1) as real;
      TimesTenOnce(x / PowerOfTen(k) as real, k - 1);
      TimesTenOfQuotient(x, k - 1);
    }
  }

  /** x is what the digits write, with the point in front of the last few of them. */
  ghost predicate Written(x: real, digits: string, decimals: nat) {
    TimesTen(x, decimals) == NatOf(digits) as real
  }

  /** The digits are worth the number that they write together, divided by ten for every decimal. */
  lemma {:induction false} ValueIs(w: string, f: string)
    ensures Written(ValueOf(w, f), w + f, |f|)
  {
    NatOfSum(w, f);
    TimesTenOfQuotient(NatOf(f) as real, |f|);
    TimesTenOfSum(NatOf(w) as real, NatOf(f) as real / PowerOfTen(|f|) as real, |f|);
  }

  lemma {:induction false} NumeralHere(w: string, f: string, rest: string)
    requires w != "" && OnlyDigits(w) && OnlyDigits(f) && NoDigit(rest)
    ensures Numeral(w + ("." + (f + rest))) == Ok((w, f), rest)
  {
    var u := f + rest;
    var s := w + ("." + u);
    assert IsDigit(w[0]) && s[0] == w[0];
    SkipOneSpace(s);
    DigitLengthHere(w, "." + u);
    DigitLengthHere(f, rest);
    NumeralSteps(s, w, u, f, rest);
  }

  lemma {:induction false} WholeHere(w: string, rest: string)
    requires w != "" && OnlyDigits(w) && NoDigit(rest) && (rest != "" ==> rest[0] != '.')
    ensures Numeral(w + rest) == Ok((w, ""), rest)
  {
    var s := w + rest;
    assert IsDigit(w[0]) && s[0] == w[0];
    SkipOneSpace(s);
    DigitLengthHere(w, rest);
    assert s[..|w|] == w && s[|w|..] == rest;
  }

  /** A numeral with a point: as many decimals as there are. */
  lemma PointedNumber(w: string, f: string, rest: string)
    requires w != "" && OnlyDigits(w) && OnlyDigits(f) && NoDigit(rest)
    ensures var r := Number(w + ("." + (f + rest)));
            r.Ok? && r.rest == rest && Written(r.value, w + f, |f|)
  {
    NumeralHere(w, f, rest);
    ValueIs(w, f);
  }

  /** Without a point, or with one at the end, it is the whole number. */
  lemma {:induction false} WholeNumber(w: string, rest: string)
    requires w != "" && OnlyDigits(w) && NoDigit(rest)
    ensures (rest != "" ==> rest[0] != '.') ==> Number(w + rest) == Ok(NatOf(w) as real, rest)
    ensures Number(w + ("." + rest)) == Ok(NatOf(w) as real, rest)
  {
    assert ValueOf(w, "") == NatOf(w) as real;
    if rest != "" ==> rest[0] != '.' {
      WholeHere(w, rest);
    }
    NumeralHere(w, "", rest);
    assert "" + rest == rest;
  }

  lemma {:induction false} ZeroValue()
    ensures NatOf("0") == 0
  {
    assert "0"[..0] == "";
  }

  lemma {:induction false} TrailingZero(w: string, f: string)
    ensures ValueOf(w, f + "0") == ValueOf(w, f)
  {
    ValueIs(w, f);
    ValueIs(w, f + "0");
    assert w + (f + "0") == (w + f) + ['0'];
    Last(w + (f + "0"), w + f, '0');
    TimesTenIsInjective(ValueOf(w, f + "0"), ValueOf(w, f), |f|);
  }

  lemma {:induction false} ZeroTimesTen(k: nat)
    ensures TimesTen(0.0, k) == 0.0
  {
    if k > 0 {
      ZeroTimesTen(k - 1);
    }
  }

  lemma {:induction false} LeadingZero(w: string, f: string)
    ensures ValueOf("0" + w, f) == ValueOf(w, f)
  {
    ZeroValue();
    NatOfSum("0", w);
    ZeroTimesTen(|w|);
  }

  lemma NumberIs(s: string, w: string, f: string, rest: string)
    requires Numeral(s) == Ok((w, f), rest)
    ensures Number(s) == Ok(ValueOf(w, f), rest)
  {
  }

  /** A zero behind the decimals, or in front of the numeral, leaves the value as it is. */
  lemma ZerosAside(w: string, f: string, rest: string)
    requires w != "" && OnlyDigits(w) && OnlyDigits(f) && NoDigit(rest)
    ensures Number(w + ("." + ((f + "0") + rest))) == Number(w + ("." + (f + rest)))
    ensures Number(("0" + w) + ("." + (f + rest))) == Number(w + ("." + (f + rest)))
  {
    NumeralHere(w, f, rest);
    NumberIs(w + ("." + (f + rest)), w, f, rest);
    NumeralHere(w, f + "0", rest);
    NumberIs(w + ("." + ((f + "0") + rest)), w, f + "0", rest);
    NumeralHere("0" + w, f, rest);
    NumberIs(("0" + w) + ("." + (f + rest)), "0" + w, f, rest);
    TrailingZero(w, f);
    LeadingZero(w, f);
  }
}
