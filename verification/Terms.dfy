/** Terms, and the strings under which the graph stores them.

    A vertex keeps its term as the term's id and decodes it on every read, so the storage is
    lossless exactly for the terms whose id decodes back to them. */
module Terms {

  import opened Options

  const PLACEHOLDER := "*"
  const QUESTION := "?"
  const PRODUCT := "x"
  const EXT_IMAGE := "/"
  const INT_IMAGE := "\\"

  /** The components of a compound term are atomic; each stands here as its own content. */
  datatype Term = Atomic(name: string) | Compound(con: string, comps: seq<string>)
  {
    function Id(): string {
      match this
      case Atomic(name) => name
      case Compound(con, comps) => "(" + con + " " + Join(comps) + ")"
    }

    function Complexity(): (n: nat)
      ensures n >= 1
    {
      match this
      case Atomic(_) => 1
      case Compound(_, comps) => 1 + |comps|
    }
  }

  /** The parts with one blank between neighbours. */
  function Join(parts: seq<string>): string
  {
    if parts == [] then ""
    else if |parts| == 1 then parts[0]
    else parts[0] + " " + Join(parts[1..])
  }

  // ---------- String.split(" ") ----------

  /** The pieces of s between blanks, empty pieces included. */
  function Fields(s: string): (fs: seq<string>)
    ensures |fs| >= 1
  {
    if s == "" then [""]
    else
      var fs := Fields(s[1..]);
      if s[0] == ' ' then [""] + fs else [[s[0]] + fs[0]] + fs[1..]
  }

  function DropTrailingEmpty(fs: seq<string>): seq<string>
  {
    if fs != [] && fs[|fs| - 1] == "" then DropTrailingEmpty(fs[..|fs| - 1]) else fs
  }

  /** Java's split: a string without the separator is its own only piece; otherwise trailing empty
      pieces are dropped. */
  function SplitBlank(s: string): seq<string>
  {
    if ' ' !in s then [s] else DropTrailingEmpty(Fields(s))
  }

  /** The term stored as id; None where the decoder throws. */
  function Decode(id: string): Option<Term>
  {
    if id == "" then None
    else if id[0] == '(' then
      if |id| < 2 then None
      else
        var elems := SplitBlank(id[1..|id| - 1]);
        if elems == [] then None else Some(Compound(elems[0], elems[1..]))
    else Some(Atomic(id))
  }

  // ---------- lossless storage ----------

  ghost predicate Unbroken(parts: seq<string>) {
    forall k :: 0 <= k < |parts| ==> ' ' !in parts[k]
  }

  /** What a caller can check before storing a term. */
  ghost predicate Storable(t: Term) {
    match t
    case Atomic(name) => name != "" && name[0] != '('
    case Compound(con, comps) =>
      var parts := [con] + comps;
      Unbroken(parts) && parts[|parts| - 1] != ""
  }

  /** Atoms free of blanks that do not look like a compound: all those the parser accepts. */
  ghost predicate GoodAtom(a: string) {
    a != "" && a[0] != '(' && ' ' !in a
  }

  ghost predicate GoodTerm(t: Term) {
    match t
    case Atomic(name) => GoodAtom(name)
    case Compound(con, comps) =>
      con != "" && ' ' !in con && forall k :: 0 <= k < |comps| ==> GoodAtom(comps[k])
  }

  lemma GoodIsStorable(t: Term)
    requires GoodTerm(t)
    ensures Storable(t)
  {
  }

  lemma {:induction false} FieldsUnbroken(s: string)
    ensures Unbroken(Fields(s))
  {
    if s != "" {
      FieldsUnbroken(s[1..]);
    }
  }

  /** A blank-free piece in front of a separator is the first field. */
  lemma {:induction false} FieldsPrefix(a: string, rest: string)
    requires ' ' !in a
    ensures Fields(a + " " + rest) == [a] + Fields(rest)
  {
    var s := a + " " + rest;
    if a == "" {
      assert s[1..] == rest;
    } else {
      assert s[1..] == a[1..] + " " + rest;
      FieldsPrefix(a[1..], rest);
      assert [s[0]] + a[1..] == a;
    }
  }

  lemma {:induction false} FieldsWhole(a: string)
    requires ' ' !in a
    ensures Fields(a) == [a]
  {
    if a != "" {
      FieldsWhole(a[1..]);
      assert [a[0]] + a[1..] == a;
    }
  }

  lemma {:induction false} FieldsOfJoin(parts: seq<string>)
    requires parts != [] && Unbroken(parts)
    ensures Fields(Join(parts)) == parts
  {
    if |parts| == 1 {
      FieldsWhole(parts[0]);
    } else {
      FieldsOfJoin(parts[1..]);
      FieldsPrefix(parts[0], Join(parts[1..]));
    }
  }

  lemma {:induction false} DropTrailingKeeps(fs: seq<string>)
    ensures DropTrailingEmpty(fs) <= fs
    ensures var ds := DropTrailingEmpty(fs); ds != [] ==> ds[|ds| - 1] != ""
  {
    if fs != [] && fs[|fs| - 1] == "" {
      DropTrailingKeeps(fs[..|fs| - 1]);
    }
  }

  lemma InnerFields(con: string, comps: seq<string>)
    requires Unbroken([con] + comps)
    ensures ' ' in con + " " + Join(comps)
    ensures Fields(con + " " + Join(comps)) == [con] + if comps == [] then [""] else comps
  {
    var inner := con + " " + Join(comps);
    assert inner[|con|] == ' ' && ([con] + comps)[0] == con;
    FieldsPrefix(con, Join(comps));
    if comps != [] {
      forall k | 0 <= k < |comps| ensures ' ' !in comps[k] { assert ([con] + comps)[k + 1] == comps[k]; }
      FieldsOfJoin(comps);
    }
  }

  /** The inside of a compound's id splits into its connector and components, when none of them
      contains a blank and the last one is not empty ... */
  lemma {:induction false} SplitStorable(con: string, comps: seq<string>)
    requires Storable(Compound(con, comps))
    ensures SplitBlank(con + " " + Join(comps)) == [con] + comps
  {
    InnerFields(con, comps);
    if comps == [] {
      assert [con] + comps == [con];
      assert [con, ""][..1] == [con] && DropTrailingEmpty([con]) == [con];
    }
  }

  /** ... and only then: no piece of a split contains a blank, and the last one is not empty. */
  lemma {:induction false} SplitOnlyStorable(con: string, comps: seq<string>)
    requires SplitBlank(con + " " + Join(comps)) == [con] + comps
    ensures Storable(Compound(con, comps))
  {
    var inner := con + " " + Join(comps);
    assert inner[|con|] == ' ';
    DropTrailingKeeps(Fields(inner));
    FieldsUnbroken(inner);
  }

  /** Storage is lossless exactly for the storable terms. */
  lemma DecodeId(t: Term)
    ensures Decode(t.Id()) == Some(t) <==> Storable(t)
  {
    match t
    case Atomic(name) =>
    case Compound(con, comps) =>
      var id := t.Id();
      assert id[1..|id| - 1] == con + " " + Join(comps);
      var elems := SplitBlank(id[1..|id| - 1]);
      if Storable(t) {
        SplitStorable(con, comps);
      } else if elems != [] && elems[0] == con && elems[1..] == comps {
        assert elems == [con] + comps;
        SplitOnlyStorable(con, comps);
      }
  }

  /** So no two storable terms share a vertex. */
  lemma IdInjective(t: Term, u: Term)
    requires Storable(t) && Storable(u) && t.Id() == u.Id()
    ensures t == u
  {
    DecodeId(t);
    DecodeId(u);
  }
}
