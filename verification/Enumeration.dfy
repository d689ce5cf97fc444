/** Reading the knowledge base back: the packed statements, the visited statements, and the events
    that announced them. */
module Enumeration {

  import opened Confluence
  import Events
  import opened Facts
  import opened Graph
  import opened KnowledgeBase
  import opened Sequences
  import opened Statements
  import opened Store
  import opened Truths

  lemma {:induction false} PackedMembers(kb: seq<Statement>, g: Statement)
    ensures g in Packed(kb) <==> g in kb && g.Pack() == []
  {
    if kb != [] {
      PackedMembers(kb[..|kb| - 1], g);
      assert kb == kb[..|kb| - 1] + [kb[|kb| - 1]];
    }
  }

  lemma {:induction false} PackedDistinct(kb: seq<Statement>)
    requires Simple(kb)
    ensures Distinct(Packed(kb))
  {
    if kb != [] {
      var n := |kb| - 1;
      PackedDistinct(kb[..n]);
      PackedMembers(kb[..n], kb[n]);
      assert kb[n] !in kb[..n] by {
        assert forall k :: 0 <= k < n ==> !Same(kb[k], kb[n]);
      }
    }
  }

  /** The statements that forEachStatement visits: every edge by its packed form. */
  ghost function Visited(kb: seq<Statement>): set<Statement> {
    set e | e in kb :: e.Canonical()
  }

  /** The packed form of an edge is an edge, and has the edge among its forms. */
  lemma {:induction false} CanonicalEdge(kb: seq<Statement>, ledger: Ledger, e: Statement)
    requires Represents(kb, ledger) && e in kb
    ensures e.Canonical() in Packed(kb) && e in e.Canonical().AllImages()
  {
    FormsAreImages(e);
    RegularForms(e);
    PackedMembers(kb, e.Canonical());
    if e.copula != SIMILAR {
      assert e.Canonical() in Forms(e);
    } else {
      assert e.Canonical() == e;
    }
  }

  lemma {:induction false} FormOfPacked(kb: seq<Statement>, ledger: Ledger, g: Statement, e: Statement)
    requires Represents(kb, ledger) && g in Packed(kb) && e in g.AllImages()
    ensures e in kb
  {
    PackedMembers(kb, g);
    FormsAreImages(g);
    if g.copula == SIMILAR {
      assert g.AllImages() == [g];
    } else {
      assert e in Forms(g);
    }
  }

  /** A directed fact is enumerated once. */
  lemma {:induction false} PackedOnce(kb: seq<Statement>, ledger: Ledger, g: Statement, h: Statement)
    requires Represents(kb, ledger) && g in Packed(kb) && h in Packed(kb)
    requires FactOf(g) == FactOf(h) && g.copula != SIMILAR
    ensures g == h
  {
    PackedMembers(kb, g);
    PackedMembers(kb, h);
    assert g.Canonical() == g && h.Canonical() == h;
  }

  /** Expanding the enumerated statements with all their forms gives back exactly the edges. */
  ghost predicate Rebuilds(kb: seq<Statement>, all: seq<Statement>) {
    forall e :: e in kb <==> exists g :: g in all && e in g.AllImages()
  }

  /** Nothing is enumerated twice: a directed fact by one form only, a similarity in both directions. */
  ghost predicate OncePerFact(all: seq<Statement>) {
    && Distinct(all)
    && (forall g, h :: g in all && h in all && FactOf(g) == FactOf(h) && g.copula != SIMILAR ==> g == h)
    && (forall g :: g in all && g.copula == SIMILAR ==> g.Opposite() in all)
  }

  lemma {:induction false} PackedRebuilds(kb: seq<Statement>, ledger: Ledger)
    requires Represents(kb, ledger)
    ensures Rebuilds(kb, Packed(kb))
  {
    var all := Packed(kb);
    forall e ensures e in kb <==> exists g :: g in all && e in g.AllImages() {
      if e in kb {
        CanonicalEdge(kb, ledger, e);
      }
      if g :| g in all && e in g.AllImages() {
        FormOfPacked(kb, ledger, g, e);
      }
    }
  }

  lemma {:induction false} PackedOppositeToo(kb: seq<Statement>, g: Statement)
    requires Coherent(kb) && g in Packed(kb) && g.copula == SIMILAR
    ensures g.Opposite() in Packed(kb)
  {
    PackedMembers(kb, g);
    assert g.Opposite() in Forms(g) by { assert Forms(g)[1] == g.Opposite(); }
    PackedMembers(kb, g.Opposite());
  }

  lemma {:induction false} PackedOncePerFact(kb: seq<Statement>, ledger: Ledger)
    requires Represents(kb, ledger)
    ensures OncePerFact(Packed(kb))
  {
    var all := Packed(kb);
    PackedDistinct(kb);
    forall g, h | g in all && h in all && FactOf(g) == FactOf(h) && g.copula != SIMILAR ensures g == h {
      PackedOnce(kb, ledger, g, h);
    }
    forall g | g in all && g.copula == SIMILAR ensures g.Opposite() in all {
      PackedOppositeToo(kb, g);
    }
  }

  /** In every knowledge base built from sound inputs the enumeration is lossless and without
      repetition, and the visit of all statements sees the same. */
  lemma LosslessEnumeration(sts: seq<Statement>)
    requires ProperInputs(sts) && SoundInputs(sts)
    ensures var kb := Build(sts).kb;
            Rebuilds(kb, Packed(kb)) && OncePerFact(Packed(kb)) && Visited(kb) == Members(Packed(kb))
  {
    BuildRepresents(sts);
    var kb, ledger := Build(sts).kb, EnterAll(map[], sts);
    PackedRebuilds(kb, ledger);
    PackedOncePerFact(kb, ledger);
    VisitedIsPacked(kb, ledger);
  }

  lemma {:induction false} VisitedIsPacked(kb: seq<Statement>, ledger: Ledger)
    requires Represents(kb, ledger)
    ensures Visited(kb) == Members(Packed(kb))
  {
    forall g ensures g in Visited(kb) <==> g in Packed(kb) {
      if g in Visited(kb) {
        var e :| e in kb && e.Canonical() == g;
        CanonicalEdge(kb, ledger, e);
      }
      if g in Packed(kb) {
        PackedMembers(kb, g);
        assert g.Canonical() == g;
      }
    }
  }

  // ---------- the event stream ----------

  /** Event k is an addition exactly when its fact is neither known before nor announced earlier. */
  ghost predicate FirstOfFact(ledger: Ledger, events: seq<Event>, k: nat)
    requires k < |events|
  {
    var f := FactOf(events[k].statement);
    events[k].kind == ADDED <==>
      f !in ledger && forall j :: 0 <= j < k ==> FactOf(events[j].statement) != f
  }

  lemma {:induction false} StreamFrom(kb: seq<Statement>, ledger: Ledger, sts: seq<Statement>, k: nat)
    requires Represents(kb, ledger) && ProperLedger(ledger) && ProperInputs(sts) && SoundInputs(sts)
    requires k < |Stream(kb, sts)|
    ensures FirstOfFact(ledger, Stream(kb, sts), k)
    decreases |sts|
  {
    var st := sts[0];
    AddRepresents(kb, ledger, st);
    AddProper(kb, st);
    EnterProper(ledger, st);
    var kb1, ledger1 := Add(kb, st).kb, Enter(ledger, st);
    var events, rest := Stream(kb, sts), Stream(kb1, sts[1..]);
    if !ValidStatement(st) {
      assert events == rest;
      StreamFrom(kb1, ledger1, sts[1..], k);
    } else {
      assert events == [events[0]] + rest && events[0].statement == st;
      KnownIffMatched(kb, ledger, st);
      if k > 0 {
        StreamFrom(kb1, ledger1, sts[1..], k - 1);
        FirstOfLonger(ledger, st, rest, events[0], k);
      }
    }
  }

  lemma FirstOfLonger(ledger: Ledger, st: Statement, rest: seq<Event>, first: Event, k: nat)
    requires ProperLedger(ledger) && st.truth.Proper() && ValidStatement(st)
    requires first.statement == st && 0 < k <= |rest| && FirstOfFact(Enter(ledger, st), rest, k - 1)
    ensures FirstOfFact(ledger, [first] + rest, k)
  {
    var events := [first] + rest;
    var f := FactOf(events[k].statement);
    assert events[k] == rest[k - 1] && events[0] == first;
    assert f in Enter(ledger, st) <==> f in ledger || f == FactOf(st);
    if forall j :: 0 <= j < k - 1 ==> FactOf(rest[j].statement) != f {
      assert forall j :: 0 < j < k ==> FactOf(events[j].statement) != f by {
        assert forall j :: 0 < j < k ==> events[j] == rest[j - 1];
      }
    } else {
      var j :| 0 <= j < k - 1 && FactOf(rest[j].statement) == f;
      assert events[j + 1] == rest[j];
    }
  }

  lemma {:induction false} KnownIffMatched(kb: seq<Statement>, ledger: Ledger, st: Statement)
    requires Represents(kb, ledger) && Sound(st)
    ensures Matches(kb, st) == [] <==> FactOf(st) !in ledger
  {
    MatchesNone(kb, st);
    if FactOf(st) in ledger {
      FactHasEdge(kb, ledger, st);
    } else {
      forall k: nat | k < |kb| ensures !Same(kb[k], st) {
        if Same(kb[k], st) {
          NoEdgeOfFact(kb, ledger, st, k);
        }
      }
    }
  }

  /** The valid statements, in order: the invalid ones are ignored. */
  function ValidOnes(sts: seq<Statement>): seq<Statement> {
    if sts == [] then []
    else (if ValidStatement(sts[0]) then [sts[0]] else []) + ValidOnes(sts[1..])
  }

  function StatementsOf(events: seq<Event>): seq<Statement> {
    seq(|events|, k requires 0 <= k < |events| => events[k].statement)
  }

  lemma StatementsOfSum(xs: seq<Event>, ys: seq<Event>)
    ensures StatementsOf(xs + ys) == StatementsOf(xs) + StatementsOf(ys)
  {
  }

  /** An addition to a coherent knowledge base announces its statement, unless it is invalid. */
  lemma AnnouncedIs(kb: seq<Statement>, ledger: Ledger, st: Statement)
    requires Represents(kb, ledger) && st.truth.Proper() && (ValidStatement(st) ==> Sound(st))
    ensures StatementsOf(Announced(kb, st)) == if ValidStatement(st) then [st] else []
  {
    AddRepresents(kb, ledger, st);
  }

  lemma {:induction false} StreamStatements(kb: seq<Statement>, ledger: Ledger, sts: seq<Statement>)
    requires Represents(kb, ledger) && ProperLedger(ledger) && ProperInputs(sts) && SoundInputs(sts)
    ensures StatementsOf(Stream(kb, sts)) == ValidOnes(sts)
    decreases |sts|
  {
    if sts != [] {
      var st, r := sts[0], KnowledgeBase.Add(kb, sts[0]);
      AnnouncedIs(kb, ledger, st);
      AddRepresents(kb, ledger, st);
      EnterProper(ledger, st);
      StreamStatements(r.kb, Enter(ledger, st), sts[1..]);
      StatementsOfSum(Announced(kb, st), Stream(r.kb, sts[1..]));
    }
  }

  /** The events of a run announce exactly the valid statements, each once and in order. */
  lemma {:induction false} AllAreAnnounced(sts: seq<Statement>)
    requires ProperInputs(sts) && SoundInputs(sts)
    ensures StatementsOf(Stream([], sts)) == ValidOnes(sts)
  {
    assert Represents([], map[]);
    StreamStatements([], map[], sts);
  }

  /** The events of a run announce every valid statement in turn: the first on each fact as ADDED, and
      all later ones, in whatever form, as UPDATED. */
  lemma {:induction false} FirstAddedThenUpdated(sts: seq<Statement>, k: nat)
    requires ProperInputs(sts) && SoundInputs(sts) && k < |Stream([], sts)|
    ensures FirstOfFact(map[], Stream([], sts), k)
  {
    assert Represents([], map[]);
    StreamFrom([], map[], sts, k);
  }

  /** One addition announces its statement once, unless it is ignored or throws; then it is silent. */
  lemma SilentIffWithoutEffect(kb: seq<Statement>, st: Statement)
    requires Proper(kb) && st.truth.Proper()
    ensures StatementsOf(Announced(kb, st))
         == if ValidStatement(st) && KnowledgeBase.Add(kb, st).outcome == Done then [st] else []
  {
  }

  // ---------- what observers see ----------

  /** An observer that is registered when the statements are added as one batch sees, at every moment of
      every interleaving, a beginning of the stream: per fact one ADDED, and only UPDATED after it. Once
      nothing is pending it has seen every valid statement, once and in order. */
  lemma {:induction false} ObserversSeeFacts(sts: seq<Statement>, actions: seq<Events.Action<Event>>,
                                             o: Events.Observer)
    requires ProperInputs(sts) && SoundInputs(sts)
    requires Events.Script(actions) == Events.Batched(Stream([], sts))
    requires forall a :: a in actions ==> Events.Leaves(a, o)
    ensures var s := Events.Run(Events.Next(Events.Start(), Events.AddObserver(o)), actions);
            var seen := Events.Flatten(Events.ReceivedBy(s.received, o));
            && seen <= Stream([], sts)
            && (forall k: nat :: k < |seen| ==> FirstOfFact(map[], seen, k))
            && StatementsOf(seen) <= ValidOnes(sts)
            && (s.list == [] && !s.edt.Dispatching? ==> seen == Stream([], sts) && StatementsOf(seen) == ValidOnes(sts))
  {
    AllAreAnnounced(sts);
    var stream := Stream([], sts);
    Events.ObserverGetsBatch(stream, actions, o);
    var s := Events.Run(Events.Next(Events.Start(), Events.AddObserver(o)), actions);
    var seen := Events.Flatten(Events.ReceivedBy(s.received, o));
    assert seen <= stream;
    forall k: nat | k < |seen| ensures FirstOfFact(map[], seen, k) {
      FirstAddedThenUpdated(sts, k);
      assert forall j :: 0 <= j <= k ==> seen[j] == stream[j];
    }
  }
}
