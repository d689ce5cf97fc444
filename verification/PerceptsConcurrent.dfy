/** The percept cache under concurrency: every agent's reader, and any number of mutators, in atomic
    steps. A mutator changes a list and invalidates marks, in one order or the other; only one of the
    two orders is safe. */
module PerceptsConcurrent {

  import Percepts
  import opened Sequences

  type Literal = string

  /** Whose marks a mutation invalidates: the common list concerns everybody. */
  datatype Scope = All | One(ag: string)

  /** MutateFirst: the additions of a common percept and the removals by unification.
      InvalidateFirst: the other mutators. */
  datatype Order = MutateFirst | InvalidateFirst

  /** Between its two halves a mutator still has to do the other half. */
  datatype Midway = Midway(scope: Scope, change: seq<Literal> -> seq<Literal>)

  /** getPercepts, step by step: the check found no mark; the mark is set; the common list was seen to
      be non-empty; the common list is copied. */
  datatype Reader = Idle | Checked | Marked | NonEmpty | Copied(common: seq<Literal>)

  datatype State = State(common: seq<Literal>, own: map<string, seq<Literal>>, marks: set<string>,
                         readers: map<string, Reader>, delivered: map<string, seq<Literal>>,
                         mutators: map<nat, Midway>)

  function Own(s: State, ag: string): seq<Literal> {
    if ag in s.own then s.own[ag] else []
  }

  function Current(s: State, ag: string): seq<Literal> {
    s.common + Own(s, ag)
  }

  function ReaderOf(s: State, ag: string): Reader {
    if ag in s.readers then s.readers[ag] else Idle
  }

  datatype Action = Read(ag: string) | Begin(thread: nat, what: Midway) | Finish(thread: nat)

  // ---------- the atomic steps ----------

  /** The next step of an agent's reader. */
  function ReadStep(s: State, ag: string): State {
    match ReaderOf(s, ag)
    case Idle =>
      if ag in s.marks then s else s.(readers := s.readers[ag := Checked])
    case Checked =>
      s.(marks := s.marks + {ag}, readers := s.readers[ag := Marked])
    case Marked =>
      s.(readers := s.readers[ag := if s.common == [] then Copied([]) else NonEmpty])
    case NonEmpty =>
      s.(readers := s.readers[ag := Copied(s.common)])
    case Copied(common) =>
      s.(delivered := s.delivered[ag := common + Own(s, ag)], readers := s.readers[ag := Idle])
  }

  function Mutate(s: State, m: Midway): State {
    match m.scope
    case All => s.(common := m.change(s.common))
    case One(ag) => if ag in s.own then s.(own := s.own[ag := m.change(s.own[ag])]) else s
  }

  function Invalidate(s: State, scope: Scope): State {
    s.(marks := match scope case All => {} case One(ag) => s.marks - {ag})
  }

  /** One atomic step; a step that is not possible changes nothing. */
  function Next(order: Order, s: State, a: Action): State {
    match a
    case Read(ag) => ReadStep(s, ag)
    case Begin(thread, what) =>
      if thread in s.mutators then s
      else
        var t := if order == MutateFirst then Mutate(s, what) else Invalidate(s, what.scope);
        t.(mutators := t.mutators[thread := what])
    case Finish(thread) =>
      if thread !in s.mutators then s
      else
        var m := s.mutators[thread];
        var t := if order == MutateFirst then Invalidate(s, m.scope) else Mutate(s, m);
        t.(mutators := t.mutators - {thread})
  }

  function Run(order: Order, s: State, actions: seq<Action>): State
    decreases |actions|
  {
    if actions == [] then s else Run(order, Next(order, s, actions[0]), actions[1..])
  }

  /** Nobody is reading, marked or mutating; the agents' own lists are there. */
  ghost predicate Initial(s: State) {
    s.marks == {} && s.readers == map[] && s.mutators == map[]
  }

  // ---------- safety ----------

  /** When no mutator is between its halves, a marked agent whose reader is idle was last given what
      it would perceive now. */
  ghost predicate Safe(s: State) {
    s.mutators == map[] ==>
      forall ag :: ag in s.marks && ReaderOf(s, ag).Idle? ==>
        ag in s.delivered && s.delivered[ag] == Current(s, ag)
  }

  /** Some mutator has changed what the agent perceives and not invalidated its mark yet. */
  ghost predicate Pending(s: State, ag: string) {
    exists t :: t in s.mutators && (s.mutators[t].scope.All? || s.mutators[t].scope == One(ag))
  }

  /** What a marked agent holds, or has copied so far, is current unless an invalidation is pending. */
  ghost predicate Fresh(s: State, ag: string) {
    match ReaderOf(s, ag)
    case Idle => Pending(s, ag) || (ag in s.delivered && s.delivered[ag] == Current(s, ag))
    case Checked => false
    case Copied(common) => Pending(s, ag) || common == s.common
    case _ => true
  }

  ghost predicate Inv(s: State) {
    forall ag :: ag in s.marks ==> Fresh(s, ag)
  }

  lemma ReadInv(s: State, ag: string)
    requires Inv(s)
    ensures Inv(ReadStep(s, ag))
  {
    var t := ReadStep(s, ag);
    forall b | b in t.marks ensures Fresh(t, b) {
      if b != ag {
        OtherReaderFresh(s, ag, b);
      } else {
        OwnReaderFresh(s, ag);
      }
    }
  }

  lemma OtherReaderFresh(s: State, ag: string, b: string)
    requires b != ag && Fresh(s, b)
    ensures Fresh(ReadStep(s, ag), b)
  {
    ReadStepFrame(s, ag, b);
    SameForAgent(s, ReadStep(s, ag), b);
  }

  /** The step of one agent's reader leaves the lists, the mutators and the other readers alone. */
  lemma ReadStepFrame(s: State, ag: string, b: string)
    requires b != ag
    ensures var t := ReadStep(s, ag);
            && t.common == s.common && t.own == s.own && t.mutators == s.mutators
            && ReaderOf(t, b) == ReaderOf(s, b)
            && (b in s.delivered ==> b in t.delivered && t.delivered[b] == s.delivered[b])
  {
  }

  lemma SameForAgent(s: State, t: State, b: string)
    requires t.common == s.common && t.own == s.own && t.mutators == s.mutators
    requires ReaderOf(t, b) == ReaderOf(s, b) && Fresh(s, b)
    requires b in s.delivered ==> b in t.delivered && t.delivered[b] == s.delivered[b]
    ensures Fresh(t, b)
  {
    assert Pending(t, b) == Pending(s, b);
  }

  lemma OwnReaderFresh(s: State, ag: string)
    requires ag in s.marks ==> Fresh(s, ag)
    ensures ag in ReadStep(s, ag).marks ==> Fresh(ReadStep(s, ag), ag)
  {
    var t := ReadStep(s, ag);
    assert Pending(t, ag) == Pending(s, ag);
  }

  lemma BeginInv(s: State, thread: nat, m: Midway)
    requires Inv(s)
    ensures Inv(Next(MutateFirst, s, Begin(thread, m)))
  {
    var t := Next(MutateFirst, s, Begin(thread, m));
    if thread !in s.mutators {
      forall b | b in t.marks ensures Fresh(t, b) {
        assert Fresh(s, b) && ReaderOf(t, b) == ReaderOf(s, b);
        if m.scope.All? || m.scope == One(b) {
          assert thread in t.mutators && t.mutators[thread] == m;
          assert Pending(t, b);
        } else {
          assert Current(t, b) == Current(s, b);
          if Pending(s, b) {
            var k :| k in s.mutators && (s.mutators[k].scope.All? || s.mutators[k].scope == One(b));
            assert k in t.mutators && t.mutators[k] == s.mutators[k];
          }
        }
      }
    }
  }

  lemma FinishInv(s: State, thread: nat)
    requires Inv(s)
    ensures Inv(Next(MutateFirst, s, Finish(thread)))
  {
    var t := Next(MutateFirst, s, Finish(thread));
    if thread in s.mutators {
      forall b | b in t.marks ensures Fresh(t, b) {
        assert Fresh(s, b) && ReaderOf(t, b) == ReaderOf(s, b) && Current(t, b) == Current(s, b);
        if Pending(s, b) {
          var k :| k in s.mutators && (s.mutators[k].scope.All? || s.mutators[k].scope == One(b));
          assert k != thread;
          assert k in t.mutators && t.mutators[k] == s.mutators[k];
        }
      }
    }
  }

  /** Every interleaving of readers and mutate-then-invalidate mutators is safe at every moment. */
  lemma {:induction false} MutateFirstSafe(s: State, actions: seq<Action>)
    requires Inv(s)
    ensures Inv(Run(MutateFirst, s, actions)) && Safe(Run(MutateFirst, s, actions))
    decreases |actions|
  {
    if actions == [] {
      forall ag | ag in s.marks && ReaderOf(s, ag).Idle? && s.mutators == map[]
        ensures ag in s.delivered && s.delivered[ag] == Current(s, ag)
      {
        assert Fresh(s, ag) && !Pending(s, ag);
      }
    } else {
      match actions[0] {
        case Read(ag) => ReadInv(s, ag);
        case Begin(thread, what) => BeginInv(s, thread, what);
        case Finish(thread) => FinishInv(s, thread);
      }
      MutateFirstSafe(Next(MutateFirst, s, actions[0]), actions[1..]);
    }
  }

  // ---------- the steps against the sequential operations ----------

  /** The lists and marks of a state, as the sequential environment. */
  function Sequential(s: State): Percepts.Env<Literal> {
    Percepts.Env(s.common, s.own, s.marks)
  }

  /** The steps of an undisturbed reader. */
  function Reads(s: State, ag: string, n: nat): State {
    if n == 0 then s else ReadStep(Reads(s, ag, n - 1), ag)
  }

  /** A reader at work, otherwise undisturbed. */
  ghost predicate Reading(s: State, t: State, ag: string, reader: Reader) {
    t == s.(marks := s.marks + {ag}, readers := s.readers[ag := reader])
  }

  /** The reader is through: its agent is marked, and has been given what it perceives. */
  ghost predicate ReadThrough(s: State, t: State, ag: string) {
    t == s.(marks := s.marks + {ag}, delivered := s.delivered[ag := Current(s, ag)], readers := s.readers[ag := Idle])
  }

  lemma ReadingBegins(s: State, ag: string)
    requires ReaderOf(s, ag).Idle? && ag !in s.marks
    ensures Reading(s, ReadStep(ReadStep(s, ag), ag), ag, Marked)
  {
  }

  lemma ReadingGoesOn(s: State, t: State, ag: string)
    requires Reading(s, t, ag, Marked)
    ensures Reading(s, ReadStep(t, ag), ag, if s.common == [] then Copied([]) else NonEmpty)
  {
  }

  lemma ReadingCopies(s: State, t: State, ag: string)
    requires Reading(s, t, ag, NonEmpty)
    ensures Reading(s, ReadStep(t, ag), ag, Copied(s.common))
  {
  }

  lemma ReadingEnds(s: State, t: State, ag: string)
    requires Reading(s, t, ag, Copied(s.common))
    ensures ReadThrough(s, ReadStep(t, ag), ag)
  {
    assert ReadStep(t, ag).readers == s.readers[ag := Idle];
  }

  /** Undisturbed, a reader is through after five steps, or four when there is nothing common. */
  lemma ReadsThrough(s: State, ag: string)
    requires ReaderOf(s, ag).Idle? && ag !in s.marks
    ensures var s4 := ReadStep(ReadStep(ReadStep(ReadStep(s, ag), ag), ag), ag);
            ReadThrough(s, if s.common == [] then s4 else ReadStep(s4, ag), ag)
  {
    var s2 := ReadStep(ReadStep(s, ag), ag);
    ReadingBegins(s, ag);
    ReadingGoesOn(s, s2, ag);
    var s3 := ReadStep(s2, ag);
    if s.common == [] {
      ReadingEnds(s, s3, ag);
    } else {
      ReadingCopies(s, s3, ag);
      ReadingEnds(s, ReadStep(s3, ag), ag);
    }
  }

  lemma {:induction false} ReadsAre(s: State, ag: string)
    ensures Reads(s, ag, 1) == ReadStep(s, ag)
    ensures Reads(s, ag, 4) == ReadStep(ReadStep(ReadStep(ReadStep(s, ag), ag), ag), ag)
    ensures Reads(s, ag, 5) == ReadStep(Reads(s, ag, 4), ag)
  {
    assert Reads(s, ag, 2) == ReadStep(Reads(s, ag, 1), ag);
    assert Reads(s, ag, 3) == ReadStep(Reads(s, ag, 2), ag);
  }

  /** Undisturbed, the steps of a reader do what the sequential operation does: the agent is marked, and
      given its answer. */
  lemma {:induction false} UndisturbedRead(s: State, ag: string)
    requires ReaderOf(s, ag).Idle?
    ensures var answer := Percepts.Answer(Sequential(s), ag);
            var t := Reads(s, ag, if answer.None? then 1 else if s.common == [] then 4 else 5);
            && Sequential(t) == Percepts.Effect(Sequential(s), Percepts.GetPercepts(ag))
            && ReaderOf(t, ag).Idle? && t.mutators == s.mutators
            && (answer.None? ==> t.delivered == s.delivered)
            && (answer.Some? ==> t.delivered == s.delivered[ag := answer.value])
  {
    ReadsAre(s, ag);
    if ag in s.marks {
      assert s.marks + {ag} == s.marks;
    } else {
      ReadsThrough(s, ag);
    }
  }

  // ---------- the other order ----------

  /** The removal of a common percept, which invalidates first. */
  function Removal(p: Literal): Midway {
    Midway(All, list => RemoveFirst(list, p))
  }

  /** A reader that runs from start to end between the halves of the removal marks its agent and keeps a
      list that the second half outdates. */
  function StaleRun(ag: string, p: Literal): seq<Action> {
    [Begin(0, Removal(p)), Read(ag), Read(ag), Read(ag), Read(ag), Read(ag), Finish(0)]
  }

  lemma {:induction false} FiveReads(s: State, ag: string, actions: seq<Action>)
    requires |actions| >= 5 && forall k :: 0 <= k < 5 ==> actions[k] == Read(ag)
    ensures Run(InvalidateFirst, s, actions)
         == Run(InvalidateFirst, ReadStep(ReadStep(ReadStep(ReadStep(ReadStep(s, ag), ag), ag), ag), ag), actions[5..])
  {
    var s1 := ReadStep(s, ag);
    var s2 := ReadStep(s1, ag);
    var s3 := ReadStep(s2, ag);
    var s4 := ReadStep(s3, ag);
    assert actions[0..] == actions;
    RunAt(InvalidateFirst, s, actions, 0);
    RunAt(InvalidateFirst, s1, actions, 1);
    RunAt(InvalidateFirst, s2, actions, 2);
    RunAt(InvalidateFirst, s3, actions, 3);
    RunAt(InvalidateFirst, s4, actions, 4);
  }

  lemma InvalidateFirstStale(ag: string, p: Literal)
    ensures var s := State([p], map[], {}, map[], map[], map[]);
            var t := Run(InvalidateFirst, s, StaleRun(ag, p));
            && Initial(s) && !Safe(t)
            && ag in t.marks && ag in t.delivered && t.delivered[ag] == [p] && Current(t, ag) == []
  {
    var s := State([p], map[], {}, map[], map[], map[]);
    var run := StaleRun(ag, p);
    var begun := Next(InvalidateFirst, s, run[0]);
    assert begun == s.(mutators := map[0 := Removal(p)]);
    FiveReads(begun, ag, run[1..]);
    ReadsThrough(begun, ag);
    var read := begun.(marks := {ag}, delivered := map[ag := [p]], readers := map[ag := Idle]);
    assert run[1..][5..] == [Finish(0)] && [Finish(0)][1..] == [];
    var t := Next(InvalidateFirst, read, Finish(0));
    assert t.mutators == map[] && t.common == [];
    assert ag in t.marks && ReaderOf(t, ag).Idle? && Current(t, ag) == [];
  }

  lemma {:induction false} RunAt(order: Order, s: State, actions: seq<Action>, k: nat)
    requires k < |actions|
    ensures Run(order, s, actions[k..]) == Run(order, Next(order, s, actions[k]), actions[k + 1..])
  {
    assert actions[k..][1..] == actions[k + 1..];
  }

  /** Exactly the mutate-then-invalidate order makes every run from every initial state safe. */
  lemma SafeIffMutateFirst(order: Order)
    ensures (forall s, actions :: Initial(s) ==> Safe(Run(order, s, actions))) <==> order == MutateFirst
  {
    if order == MutateFirst {
      forall s, actions | Initial(s) ensures Safe(Run(order, s, actions)) {
        MutateFirstSafe(s, actions);
      }
    } else {
      InvalidateFirstStale("agent", "percept");
    }
  }
}
