/** The percept cache of an environment: the percepts common to all agents, each agent's own, and the
    agents already given the current version. */
module Percepts {

  import opened Options
  import opened Sequences

  /** The fields of the environment, as a value. */
  datatype Env<L> = Env(percepts: seq<L>, agPercepts: map<string, seq<L>>, uptodateAgs: set<string>)

  // ---------- lists as the environment edits them ----------

  /** The elements that do not match. */
  function Unmatched<L>(s: seq<L>, matches: L -> bool): seq<L> {
    if s == [] then []
    else
      var n := |s| - 1;
      Unmatched(s[..n], matches) + if matches(s[n]) then [] else [s[n]]
  }

  // ---------- the operations ----------

  /** What an agent would perceive now. */
  function Consult<L>(e: Env<L>, ag: string): seq<L> {
    e.percepts + if ag in e.agPercepts then e.agPercepts[ag] else []
  }

  datatype Op<!L> =
    | GetPercepts(ag: string)
    | AddPercept(per: Option<L>)
    | RemovePercept(per: Option<L>)
    | RemovePerceptsByUnif(unifies: L -> bool)
    | ClearPercepts
    | AddAgentPercepts(ag: string, pers: seq<L>)
    | RemoveAgentPercept(ag: string, per: Option<L>)
    | RemoveAgentPerceptsByUnif(ag: string, unifies: L -> bool)
    | ClearAgentPercepts(ag: string)
    | ClearAllPercepts

  /** One agent's own percepts extended by those it does not have yet; its mark goes with each. */
  function AddOwn<L(==)>(e: Env<L>, ag: string, pers: seq<L>): Env<L>
    requires ag in e.agPercepts
    decreases |pers|
  {
    if pers == [] then e
    else if pers[0] in e.agPercepts[ag] then AddOwn(e, ag, pers[1..])
    else
      var own := e.agPercepts[ag] + [pers[0]];
      AddOwn(Env(e.percepts, e.agPercepts[ag := own], e.uptodateAgs - {ag}), ag, pers[1..])
  }

  function ClearCommon<L>(e: Env<L>): Env<L> {
    if e.percepts != [] then Env([], e.agPercepts, {}) else e
  }

  function ClearOwn<L>(e: Env<L>, ag: string): Env<L> {
    if ag in e.agPercepts then e.(uptodateAgs := e.uptodateAgs - {ag}, agPercepts := e.agPercepts[ag := []])
    else e
  }

  function DropCommon<L>(e: Env<L>, unifies: L -> bool): Env<L> {
    var kept := Unmatched(e.percepts, unifies);
    e.(percepts := kept, uptodateAgs := if |kept| < |e.percepts| then {} else e.uptodateAgs)
  }

  function DropOwn<L>(e: Env<L>, ag: string, unifies: L -> bool): Env<L> {
    if ag in e.agPercepts then
      var kept := Unmatched(e.agPercepts[ag], unifies);
      e.(agPercepts := e.agPercepts[ag := kept],
         uptodateAgs := if |kept| < |e.agPercepts[ag]| then e.uptodateAgs - {ag} else e.uptodateAgs)
    else e
  }

  function Effect<L(==)>(e: Env<L>, op: Op<L>): Env<L> {
    match op
    case GetPercepts(ag) => e.(uptodateAgs := e.uptodateAgs + {ag})
    case AddPercept(per) =>
      if per.Some? && per.value !in e.percepts then
        e.(percepts := e.percepts + [per.value], uptodateAgs := {})
      else e
    case RemovePercept(per) =>
      if per.Some? then e.(percepts := RemoveFirst(e.percepts, per.value), uptodateAgs := {}) else e
    case RemovePerceptsByUnif(unifies) => DropCommon(e, unifies)
    case ClearPercepts => ClearCommon(e)
    case AddAgentPercepts(ag, pers) =>
      AddOwn(if ag in e.agPercepts then e else e.(agPercepts := e.agPercepts[ag := []]), ag, pers)
    case RemoveAgentPercept(ag, per) =>
      if per.Some? && ag in e.agPercepts then
        e.(uptodateAgs := e.uptodateAgs - {ag},
           agPercepts := e.agPercepts[ag := RemoveFirst(e.agPercepts[ag], per.value)])
      else e
    case RemoveAgentPerceptsByUnif(ag, unifies) => DropOwn(e, ag, unifies)
    case ClearAgentPercepts(ag) => ClearOwn(e, ag)
    case ClearAllPercepts =>
      var c := ClearCommon(e);
      Env(c.percepts, map ag | ag in c.agPercepts :: [], c.uptodateAgs - c.agPercepts.Keys)
  }

  /** What getPercepts returns: None for the null of an agent that is up to date. */
  function Answer<L>(e: Env<L>, ag: string): Option<seq<L>> {
    if ag in e.uptodateAgs then None else Some(Consult(e, ag))
  }

  // ---------- the environment with its readers ----------

  /** Every agent keeps the last list it was given. */
  datatype World<L> = World(env: Env<L>, held: map<string, seq<L>>)

  function Step<L(==)>(w: World<L>, op: Op<L>): World<L> {
    World(Effect(w.env, op),
          if op.GetPercepts? && Answer(w.env, op.ag).Some? then w.held[op.ag := Answer(w.env, op.ag).value]
          else w.held)
  }

  function Run<L(==)>(w: World<L>, ops: seq<Op<L>>): World<L>
    decreases |ops|
  {
    if ops == [] then w else Run(Step(w, ops[0]), ops[1..])
  }

  function Start<L>(): World<L> {
    World(Env([], map[], {}), map[])
  }

  /** Marked agents hold the current percepts, and no list has duplicates. */
  ghost predicate Inv<L>(w: World<L>) {
    && (forall ag :: ag in w.env.uptodateAgs ==> ag in w.held && w.held[ag] == Consult(w.env, ag))
    && Distinct(w.env.percepts)
    && (forall ag :: ag in w.env.agPercepts ==> Distinct(w.env.agPercepts[ag]))
  }

  // ---------- what editing keeps ----------

  lemma {:induction false} RemoveFirstKeeps<L>(s: seq<L>, x: L)
    requires Distinct(s)
    ensures Distinct(RemoveFirst(s, x))
    ensures forall y :: y in RemoveFirst(s, x) <==> y in s && y != x
  {
    if s != [] {
      assert s == [s[0]] + s[1..];
      RemoveFirstKeeps(s[1..], x);
      assert s[0] !in s[1..];
    }
  }

  lemma {:induction false} UnmatchedKeeps<L>(s: seq<L>, matches: L -> bool)
    ensures |Unmatched(s, matches)| <= |s|
    ensures |Unmatched(s, matches)| == |s| ==> Unmatched(s, matches) == s
    ensures forall y :: y in Unmatched(s, matches) <==> y in s && !matches(y)
    ensures Distinct(s) ==> Distinct(Unmatched(s, matches))
  {
    if s != [] {
      var n := |s| - 1;
      assert s == s[..n] + [s[n]];
      UnmatchedKeeps(s[..n], matches);
    }
  }

  /** An iterator with removal after k of the elements of all: s is the list now, i its position in s,
      c the number of removals. */
  ghost predicate Scanned<L>(all: seq<L>, matches: L -> bool, k: nat, s: seq<L>, i: nat, c: nat) {
    && k <= |all| && c + i == k
    && s == Unmatched(all[..k], matches) + all[k..] && i == |Unmatched(all[..k], matches)|
  }

  lemma ScanStep<L>(all: seq<L>, matches: L -> bool, k: nat, s: seq<L>, i: nat, c: nat)
    requires Scanned(all, matches, k, s, i, c) && i < |s|
    ensures if matches(s[i]) then Scanned(all, matches, k + 1, s[..i] + s[i + 1..], i, c + 1)
            else Scanned(all, matches, k + 1, s, i + 1, c)
  {
    assert k < |all| && s[i] == all[k];
    assert all[..k + 1][..k] == all[..k];
  }

  lemma {:induction false} ScanEnd<L>(all: seq<L>, matches: L -> bool, k: nat, s: seq<L>, i: nat, c: nat)
    requires Scanned(all, matches, k, s, i, c) && i >= |s|
    ensures s == Unmatched(all, matches) && c == |all| - |s|
  {
    assert all[..k] == all;
  }

  /** Adding own percepts touches nobody else, and unmarks the agent if it changes anything. */
  lemma {:induction false} AddOwnKeeps<L>(e: Env<L>, ag: string, pers: seq<L>)
    requires ag in e.agPercepts && Distinct(e.agPercepts[ag])
    ensures var f := AddOwn(e, ag, pers);
            && f.percepts == e.percepts && f.agPercepts.Keys == e.agPercepts.Keys
            && (forall b :: b in e.agPercepts && b != ag ==> f.agPercepts[b] == e.agPercepts[b])
            && Distinct(f.agPercepts[ag])
            && (forall y :: y in f.agPercepts[ag] <==> y in e.agPercepts[ag] || y in pers)
            && e.uptodateAgs - {ag} <= f.uptodateAgs <= e.uptodateAgs
            && (ag in f.uptodateAgs ==> f == e)
    decreases |pers|
  {
    if pers != [] {
      if pers[0] in e.agPercepts[ag] {
        AddOwnKeeps(e, ag, pers[1..]);
      } else {
        var own := e.agPercepts[ag] + [pers[0]];
        AddOwnKeeps(Env(e.percepts, e.agPercepts[ag := own], e.uptodateAgs - {ag}), ag, pers[1..]);
      }
    }
  }

  lemma StepInv<L>(w: World<L>, op: Op<L>)
    requires Inv(w)
    ensures Inv(Step(w, op))
  {
    var e := w.env;
    match op
    case GetPercepts(_) =>
    case AddPercept(_) =>
    case RemovePercept(per) =>
      if per.Some? { RemoveFirstKeeps(e.percepts, per.value); }
    case RemovePerceptsByUnif(unifies) =>
      UnmatchedKeeps(e.percepts, unifies);
    case ClearPercepts =>
    case AddAgentPercepts(ag, pers) =>
      AddOwnKeeps(if ag in e.agPercepts then e else e.(agPercepts := e.agPercepts[ag := []]), ag, pers);
    case RemoveAgentPercept(ag, per) =>
      if per.Some? && ag in e.agPercepts { RemoveFirstKeeps(e.agPercepts[ag], per.value); }
    case RemoveAgentPerceptsByUnif(ag, unifies) =>
      if ag in e.agPercepts { UnmatchedKeeps(e.agPercepts[ag], unifies); }
    case ClearAgentPercepts(_) =>
    case ClearAllPercepts =>
  }

  lemma {:induction false} RunInv<L>(w: World<L>, ops: seq<Op<L>>)
    requires Inv(w)
    ensures Inv(Run(w, ops))
    decreases |ops|
  {
    if ops != [] {
      StepInv(w, ops[0]);
      RunInv(Step(w, ops[0]), ops[1..]);
    }
  }

  /** After any operations, an agent that asks once more holds exactly what it would perceive now,
      whether it was given a new list or told that nothing changed. */
  lemma {:induction false} HeldIsCurrent<L>(ops: seq<Op<L>>, ag: string)
    ensures var w := Step(Run(Start<L>(), ops), GetPercepts(ag));
            ag in w.held && w.held[ag] == Consult(w.env, ag)
    ensures var e := Run(Start<L>(), ops).env;
            && Distinct(e.percepts)
            && forall b :: b in e.agPercepts ==> Distinct(e.agPercepts[b])
  {
    RunInv(Start<L>(), ops);
    StepInv(Run(Start<L>(), ops), GetPercepts(ag));
  }

  // ---------- what the operations do ----------

  /** What the common list should hold once an operation on it is done. */
  ghost predicate CommonAfter<L>(e: Env<L>, op: Op<L>, y: L) {
    match op
    case AddPercept(per) => y in e.percepts || per == Some(y)
    case RemovePercept(per) => y in e.percepts && per != Some(y)
    case RemovePerceptsByUnif(unifies) => y in e.percepts && !unifies(y)
    case _ => false
  }

  /** The operations on the common list: a new percept joins it, an equal one or the matching ones leave
      it, nothing else changes; and no agent's own list is touched. */
  lemma CommonEffects<L>(e: Env<L>, op: Op<L>)
    requires Distinct(e.percepts)
    requires op.AddPercept? || op.RemovePercept? || op.RemovePerceptsByUnif? || op.ClearPercepts?
    ensures var f := Effect(e, op);
            && f.agPercepts == e.agPercepts
            && forall y :: y in f.percepts <==> CommonAfter(e, op, y)
  {
    match op
    case AddPercept(_) =>
    case RemovePercept(per) =>
      if per.Some? { RemoveFirstKeeps(e.percepts, per.value); }
    case RemovePerceptsByUnif(unifies) =>
      UnmatchedKeeps(e.percepts, unifies);
    case ClearPercepts =>
  }

  /** What an agent perceives of its own. */
  function Own<L>(e: Env<L>, ag: string): seq<L> {
    if ag in e.agPercepts then e.agPercepts[ag] else []
  }

  /** What an agent's own list should hold once an operation on it is done. */
  ghost predicate OwnAfter<L>(own: seq<L>, op: Op<L>, y: L) {
    match op
    case AddAgentPercepts(_, pers) => y in own || y in pers
    case RemoveAgentPercept(_, per) => y in own && per != Some(y)
    case RemoveAgentPerceptsByUnif(_, unifies) => y in own && !unifies(y)
    case _ => false
  }

  /** The operations on one agent's list, likewise: the common list, and what all other agents have of
      their own, stay as they are. */
  lemma OwnEffects<L>(e: Env<L>, op: Op<L>, ag: string)
    requires Distinct(Own(e, ag))
    requires op.AddAgentPercepts? || op.RemoveAgentPercept? || op.RemoveAgentPerceptsByUnif? || op.ClearAgentPercepts?
    requires ag == op.ag
    ensures var f := Effect(e, op);
            && f.percepts == e.percepts
            && (forall b :: b != ag ==> Own(f, b) == Own(e, b))
            && forall y :: y in Own(f, ag) <==> OwnAfter(Own(e, ag), op, y)
  {
    match op
    case AddAgentPercepts(_, pers) =>
      AddOwnKeeps(if ag in e.agPercepts then e else e.(agPercepts := e.agPercepts[ag := []]), ag, pers);
    case RemoveAgentPercept(_, per) =>
      if per.Some? { RemoveFirstKeeps(Own(e, ag), per.value); }
    case RemoveAgentPerceptsByUnif(_, unifies) =>
      UnmatchedKeeps(Own(e, ag), unifies);
    case ClearAgentPercepts(_) =>
  }

  /** Clearing everything leaves no agent anything to perceive. */
  lemma AllCleared<L>(e: Env<L>, ag: string)
    ensures Consult(Effect(e, ClearAllPercepts), ag) == []
  {
  }

  /** Operations on nothing that an agent perceives: any agent asks, or another agent's list is changed. */
  ghost predicate Elsewhere<L>(op: Op<L>, ag: string) {
    || op.GetPercepts?
    || ((op.AddAgentPercepts? || op.RemoveAgentPercept? || op.RemoveAgentPerceptsByUnif? || op.ClearAgentPercepts?)
        && op.ag != ag)
  }

  lemma StaysMarked<L>(e: Env<L>, ag: string, op: Op<L>)
    requires Elsewhere(op, ag) && forall b :: b in e.agPercepts ==> Distinct(e.agPercepts[b])
    ensures var f := Effect(e, op);
            && Consult(f, ag) == Consult(e, ag)
            && (ag in f.uptodateAgs <==> ag in e.uptodateAgs || op == GetPercepts(ag))
  {
    match op
    case AddAgentPercepts(b, pers) =>
      AddOwnKeeps(if b in e.agPercepts then e else e.(agPercepts := e.agPercepts[b := []]), b, pers);
    case _ =>
  }

  /** An agent that has asked is answered null again as long as all operations are elsewhere: asking
      marks it, and nobody else's percepts cost it the mark. */
  lemma {:induction false} NullWhileUndisturbed<L>(w: World<L>, ag: string, ops: seq<Op<L>>)
    requires Inv(w) && ag in w.env.uptodateAgs && forall op :: op in ops ==> Elsewhere(op, ag)
    ensures Answer(Run(w, ops).env, ag) == None
    ensures Consult(Run(w, ops).env, ag) == Consult(w.env, ag)
    decreases |ops|
  {
    if ops != [] {
      StaysMarked(w.env, ag, ops[0]);
      StepInv(w, ops[0]);
      NullWhileUndisturbed(Step(w, ops[0]), ag, ops[1..]);
    }
  }

  // ---------- the lists in terms of what was done ----------

  /** Asked once more, an agent holds the common percepts and, behind them, its own. */
  lemma {:induction false} HeldIsCommonThenOwn<L>(ops: seq<Op<L>>, ag: string)
    ensures var w := Step(Run(Start<L>(), ops), GetPercepts(ag));
            && ag in w.held && w.env.percepts <= w.held[ag]
            && w.held[ag][|w.env.percepts|..] == Own(w.env, ag)
  {
    HeldIsCurrent(ops, ag);
  }

  /** Whether y is a common percept after an operation, when it was one or not before. */
  predicate CommonNow<L(==)>(was: bool, op: Op<L>, y: L) {
    match op
    case AddPercept(per) => was || per == Some(y)
    case RemovePercept(per) => was && per != Some(y)
    case RemovePerceptsByUnif(unifies) => was && !unifies(y)
    case ClearPercepts => false
    case ClearAllPercepts => false
    case _ => was
  }

  /** Likewise, whether it is one of an agent's own. */
  predicate OwnNow<L(==)>(was: bool, op: Op<L>, ag: string, y: L) {
    match op
    case AddAgentPercepts(b, pers) => was || (b == ag && y in pers)
    case RemoveAgentPercept(b, per) => was && (b == ag ==> per != Some(y))
    case RemoveAgentPerceptsByUnif(b, unifies) => was && (b == ag ==> !unifies(y))
    case ClearAgentPercepts(b) => was && b != ag
    case ClearAllPercepts => false
    case _ => was
  }

  /** The last word of a history on y as a common percept, and on y as one of an agent's own. */
  predicate CommonAfterAll<L(==)>(was: bool, ops: seq<Op<L>>, y: L)
    decreases |ops|
  {
    if ops == [] then was else CommonAfterAll(CommonNow(was, ops[0], y), ops[1..], y)
  }

  predicate OwnAfterAll<L(==)>(was: bool, ops: seq<Op<L>>, ag: string, y: L)
    decreases |ops|
  {
    if ops == [] then was else OwnAfterAll(OwnNow(was, ops[0], ag, y), ops[1..], ag, y)
  }

  lemma CommonStep<L>(w: World<L>, op: Op<L>, y: L)
    requires Inv(w)
    ensures y in Step(w, op).env.percepts <==> CommonNow(y in w.env.percepts, op, y)
  {
    var e := w.env;
    match op
    case AddPercept(_) => CommonEffects(e, op);
    case RemovePercept(_) => CommonEffects(e, op);
    case RemovePerceptsByUnif(_) => CommonEffects(e, op);
    case ClearPercepts => CommonEffects(e, op);
    case AddAgentPercepts(b, _) => OwnEffects(e, op, b);
    case RemoveAgentPercept(b, _) => OwnEffects(e, op, b);
    case RemoveAgentPerceptsByUnif(b, _) => OwnEffects(e, op, b);
    case ClearAgentPercepts(b) => OwnEffects(e, op, b);
    case _ =>
  }

  lemma OwnStep<L>(w: World<L>, op: Op<L>, ag: string, y: L)
    requires Inv(w)
    ensures y in Own(Step(w, op).env, ag) <==> OwnNow(y in Own(w.env, ag), op, ag, y)
  {
    var e := w.env;
    match op
    case AddAgentPercepts(b, _) => OwnEffects(e, op, b);
    case RemoveAgentPercept(b, _) => OwnEffects(e, op, b);
    case RemoveAgentPerceptsByUnif(b, _) => OwnEffects(e, op, b);
    case ClearAgentPercepts(b) => OwnEffects(e, op, b);
    case _ =>
  }

  lemma {:induction false} HistoryFrom<L>(w: World<L>, ops: seq<Op<L>>, ag: string, y: L)
    requires Inv(w)
    ensures y in Run(w, ops).env.percepts <==> CommonAfterAll(y in w.env.percepts, ops, y)
    ensures y in Own(Run(w, ops).env, ag) <==> OwnAfterAll(y in Own(w.env, ag), ops, ag, y)
    decreases |ops|
  {
    if ops != [] {
      CommonStep(w, ops[0], y);
      OwnStep(w, ops[0], ag, y);
      StepInv(w, ops[0]);
      HistoryFrom(Step(w, ops[0]), ops[1..], ag, y);
    }
  }

  /** Asked once more after any operations, an agent holds exactly the percepts that were added for all or
      for it and have not been removed since: nothing else, and none is missing. */
  lemma {:induction false} PerceivesHistory<L>(ops: seq<Op<L>>, ag: string, y: L)
    ensures var w := Step(Run(Start<L>(), ops), GetPercepts(ag));
            ag in w.held
            && (y in w.held[ag] <==> CommonAfterAll(false, ops, y) || OwnAfterAll(false, ops, ag, y))
  {
    HeldIsCommonThenOwn(ops, ag);
    HistoryFrom(Start<L>(), ops, ag, y);
    var w := Step(Run(Start<L>(), ops), GetPercepts(ag));
    assert w.held[ag] == w.env.percepts + w.held[ag][|w.env.percepts|..];
  }

  /** Does not take y away from the common percepts. */
  predicate Spares<L(==)>(op: Op<L>, y: L) {
    CommonNow(true, op, y)
  }

  lemma {:induction false} SparedStays<L>(ops: seq<Op<L>>, y: L)
    requires forall op :: op in ops ==> Spares(op, y)
    ensures CommonAfterAll(true, ops, y)
    decreases |ops|
  {
    if ops != [] {
      assert Spares(ops[0], y);
      SparedStays(ops[1..], y);
    }
  }

  /** An added common percept is in every agent's next list until it is removed. */
  lemma {:induction false} AddedIsPerceived<L>(before: seq<Op<L>>, ops: seq<Op<L>>, ag: string, y: L)
    requires forall op :: op in ops ==> Spares(op, y)
    ensures var w := Step(Run(Step(Run(Start<L>(), before), AddPercept(Some(y))), ops), GetPercepts(ag));
            ag in w.held && y in w.held[ag]
  {
    RunInv(Start<L>(), before);
    var w := Run(Start<L>(), before);
    var v := Step(w, AddPercept(Some(y)));
    StepInv(w, AddPercept(Some(y)));
    CommonStep(w, AddPercept(Some(y)), y);
    SparedStays(ops, y);
    HistoryFrom(v, ops, ag, y);
    RunInv(v, ops);
    StepInv(Run(v, ops), GetPercepts(ag));
    HeldAfterAsking(Run(v, ops), ag);
  }

  lemma HeldAfterAsking<L>(w: World<L>, ag: string)
    requires Inv(w)
    ensures var v := Step(w, GetPercepts(ag)); ag in v.held && v.held[ag] == w.env.percepts + Own(w.env, ag)
  {
  }

  // ---------- the order of the lists ----------

  lemma {:induction false} RemovesInOrder<L>(s: seq<L>, x: L)
    requires Distinct(s)
    ensures RemoveFirst(s, x) == Unmatched(s, y => y == x)
    decreases |s|
  {
    if s != [] {
      var n := |s| - 1;
      assert s == s[..n] + [s[n]];
      RemovesInOrder(s[..n], x);
      RemoveFirstOfSum(s[..n], s[n], x);
      if x in s[..n] {
        assert s[n] != x;
      } else {
        RemovesNothing(s[..n], x);
      }
    }
  }

  lemma {:induction false} RemovesNothing<L>(s: seq<L>, x: L)
    requires x !in s
    ensures RemoveFirst(s, x) == s
    decreases |s|
  {
    if s != [] {
      RemovesNothing(s[1..], x);
    }
  }

  lemma {:induction false} RemoveFirstOfSum<L>(s: seq<L>, last: L, x: L)
    ensures RemoveFirst(s + [last], x)
         == if x in s then RemoveFirst(s, x) + [last] else if last == x then s else s + [last]
    decreases |s|
  {
    if s == [] {
      assert s + [last] == [last] && [last][1..] == [];
    } else {
      assert (s + [last])[1..] == s[1..] + [last] && (s + [last])[0] == s[0];
      RemoveFirstOfSum(s[1..], last, x);
      if s[0] != x && x !in s[1..] {
        assert x !in s;
      }
    }
  }

  lemma {:induction false} AddOwnExtends<L>(e: Env<L>, ag: string, pers: seq<L>)
    requires ag in e.agPercepts
    ensures ag in AddOwn(e, ag, pers).agPercepts && e.agPercepts[ag] <= AddOwn(e, ag, pers).agPercepts[ag]
    decreases |pers|
  {
    if pers != [] {
      if pers[0] in e.agPercepts[ag] {
        AddOwnExtends(e, ag, pers[1..]);
      } else {
        AddOwnExtends(Env(e.percepts, e.agPercepts[ag := e.agPercepts[ag] + [pers[0]]], e.uptodateAgs - {ag}),
                      ag, pers[1..]);
      }
    }
  }

  /** The lists keep the order in which percepts were added: a new one goes behind all others, and what is
      left by a removal stays in order. */
  lemma OrderKept<L>(w: World<L>, op: Op<L>, ag: string)
    requires Inv(w)
    ensures var f := Effect(w.env, op);
            match op
            case AddPercept(_) => w.env.percepts <= f.percepts
            case RemovePercept(per) => per.Some? ==> f.percepts == Unmatched(w.env.percepts, y => y == per.value)
            case RemovePerceptsByUnif(unifies) => f.percepts == Unmatched(w.env.percepts, unifies)
            case AddAgentPercepts(b, _) => Own(w.env, b) <= Own(f, b)
            case RemoveAgentPercept(b, per) => per.Some? ==> Own(f, b) == Unmatched(Own(w.env, b), y => y == per.value)
            case RemoveAgentPerceptsByUnif(b, unifies) => Own(f, b) == Unmatched(Own(w.env, b), unifies)
            case _ => true
  {
    var e := w.env;
    match op
    case RemovePercept(per) => if per.Some? { RemovesInOrder(e.percepts, per.value); }
    case AddAgentPercepts(b, pers) =>
      AddOwnExtends(if b in e.agPercepts then e else e.(agPercepts := e.agPercepts[b := []]), b, pers);
    case RemoveAgentPercept(b, per) => if per.Some? { RemovesInOrder(Own(e, b), per.value); }
    case _ =>
  }

  // ---------- when exactly a mark is lost ----------

  /** The operation makes the agent ask anew. */
  ghost predicate Disturbs<L>(e: Env<L>, op: Op<L>, ag: string) {
    match op
    case GetPercepts(_) => false
    case AddPercept(per) => per.Some? && per.value !in e.percepts
    case RemovePercept(per) => per.Some?
    case RemovePerceptsByUnif(unifies) => exists y :: y in e.percepts && unifies(y)
    case ClearPercepts => e.percepts != []
    case AddAgentPercepts(b, pers) => b == ag && exists y :: y in pers && y !in Own(e, ag)
    case RemoveAgentPercept(b, per) => b == ag && per.Some? && ag in e.agPercepts
    case RemoveAgentPerceptsByUnif(b, unifies) => b == ag && exists y :: y in Own(e, ag) && unifies(y)
    case ClearAgentPercepts(b) => b == ag && ag in e.agPercepts
    case ClearAllPercepts => e.percepts != [] || ag in e.agPercepts
  }

  lemma {:induction false} FewerIffMatch<L>(s: seq<L>, matches: L -> bool)
    ensures |Unmatched(s, matches)| < |s| <==> exists y :: y in s && matches(y)
  {
    UnmatchedKeeps(s, matches);
    if |Unmatched(s, matches)| < |s| && !exists y :: y in s && matches(y) {
      AllUnmatched(s, matches);
    }
    if y :| y in s && matches(y) {
      assert y !in Unmatched(s, matches);
    }
  }

  lemma {:induction false} AllUnmatched<L>(s: seq<L>, matches: L -> bool)
    requires forall y :: y in s ==> !matches(y)
    ensures Unmatched(s, matches) == s
  {
    if s != [] {
      var n := |s| - 1;
      AllUnmatched(s[..n], matches);
      assert s == s[..n] + [s[n]];
    }
  }

  lemma {:induction false} AddOwnMarks<L>(e: Env<L>, ag: string, pers: seq<L>, b: string)
    requires ag in e.agPercepts && b in e.uptodateAgs
    ensures b !in AddOwn(e, ag, pers).uptodateAgs <==> b == ag && exists y :: y in pers && y !in e.agPercepts[ag]
    decreases |pers|
  {
    if pers != [] {
      if pers[0] in e.agPercepts[ag] {
        AddOwnMarks(e, ag, pers[1..], b);
      } else {
        var f := Env(e.percepts, e.agPercepts[ag := e.agPercepts[ag] + [pers[0]]], e.uptodateAgs - {ag});
        AddOwnFrame(f, ag, pers[1..]);
        assert pers[0] in pers;
      }
    }
  }

  lemma {:induction false} AddOwnFrame<L>(e: Env<L>, ag: string, pers: seq<L>)
    requires ag in e.agPercepts
    ensures e.uptodateAgs - {ag} <= AddOwn(e, ag, pers).uptodateAgs <= e.uptodateAgs
    decreases |pers|
  {
    if pers != [] {
      if pers[0] in e.agPercepts[ag] {
        AddOwnFrame(e, ag, pers[1..]);
      } else {
        AddOwnFrame(Env(e.percepts, e.agPercepts[ag := e.agPercepts[ag] + [pers[0]]], e.uptodateAgs - {ag}),
                    ag, pers[1..]);
      }
    }
  }

  /** A marked agent loses its mark exactly by these operations; nobody gains one but by asking. */
  lemma MarkLostExactly<L>(e: Env<L>, op: Op<L>, ag: string)
    requires ag in e.uptodateAgs
    ensures ag !in Effect(e, op).uptodateAgs <==> Disturbs(e, op, ag)
  {
    match op
    case RemovePerceptsByUnif(unifies) =>
      FewerIffMatch(e.percepts, unifies);
    case AddAgentPercepts(b, pers) =>
      AddOwnMarks(if b in e.agPercepts then e else e.(agPercepts := e.agPercepts[b := []]), b, pers, ag);
    case RemoveAgentPerceptsByUnif(b, unifies) =>
      if b in e.agPercepts { FewerIffMatch(e.agPercepts[b], unifies); }
    case _ =>
  }

  // ---------- the environment as the program updates it ----------

  class UserEnvironment<L(==)> {
    var percepts: seq<L>
    var agPercepts: map<string, seq<L>>
    var uptodateAgs: set<string>

    ghost function State(): Env<L>
      reads this
    {
      Env(percepts, agPercepts, uptodateAgs)
    }

    constructor ()
      ensures State() == Start<L>().env
    {
      percepts, agPercepts, uptodateAgs := [], map[], {};
    }

    method GetPercepts(agName: string) returns (res: Option<seq<L>>)
      modifies this`uptodateAgs
      ensures res == Answer(old(State()), agName)
      ensures State() == Effect(old(State()), Op.GetPercepts(agName))
    {
      if agName in uptodateAgs {
        return None;
      }
      uptodateAgs := uptodateAgs + {agName};
      var p := ConsultPercepts(agName);
      res := Some(p);
    }

    method ConsultPercepts(agName: string) returns (p: seq<L>)
      ensures p == Consult(State(), agName)
    {
      p := [];
      if percepts != [] {
        p := p + percepts;
      }
      if agName in agPercepts {
        p := p + agPercepts[agName];
      }
    }

    method AddPercept(per: Option<L>)
      modifies this`percepts, this`uptodateAgs
      ensures State() == Effect(old(State()), Op.AddPercept(per))
    {
      if per.Some? {
        if per.value !in percepts {
          percepts := percepts + [per.value];
          uptodateAgs := {};
        }
      }
    }

    method RemovePercept(per: Option<L>) returns (removed: bool)
      modifies this`percepts, this`uptodateAgs
      ensures State() == Effect(old(State()), Op.RemovePercept(per))
      ensures removed <==> per.Some? && per.value in old(percepts)
    {
      if per.Some? {
        uptodateAgs := {};
        removed := per.value in percepts;
        percepts := RemoveFirst(percepts, per.value);
      } else {
        removed := false;
      }
    }

    method RemovePerceptsByUnif(unifies: L -> bool) returns (c: nat)
      modifies this`percepts, this`uptodateAgs
      ensures State() == DropCommon(old(State()), unifies)
      ensures c == |old(percepts)| - |percepts|
    {
      c := 0;
      if percepts != [] {
        var kept;
        kept, c := Iterate(percepts, unifies);
        percepts := kept;
        if c > 0 {
          uptodateAgs := {};
        }
      }
    }

    /** The iterator loop of both removals by unification: a matching element is taken out of the list,
        any other is stepped over. */
    static method Iterate(all: seq<L>, unifies: L -> bool) returns (list: seq<L>, c: nat)
      ensures list == Unmatched(all, unifies) && c == |all| - |list|
    {
      list, c := all, 0;
      var i := 0;
      ghost var k := 0;
      while i < |list|
        invariant Scanned(all, unifies, k, list, i, c)
        decreases |all| - k
      {
        ScanStep(all, unifies, k, list, i, c);
        if unifies(list[i]) {
          list := list[..i] + list[i + 1..];
          c := c + 1;
        } else {
          i := i + 1;
        }
        k := k + 1;
      }
      ScanEnd(all, unifies, k, list, i, c);
    }

    method ClearPercepts()
      modifies this`percepts, this`uptodateAgs
      ensures State() == Effect(old(State()), Op.ClearPercepts)
    {
      if percepts != [] {
        uptodateAgs := {};
        percepts := [];
      }
    }

    method ContainsPercept(per: Option<L>) returns (res: bool)
      ensures res <==> per.Some? && per.value in percepts
    {
      res := per.Some? && per.value in percepts;
    }

    method AddAgentPercepts(agName: string, pers: seq<L>)
      modifies this`agPercepts, this`uptodateAgs
      ensures State() == Effect(old(State()), Op.AddAgentPercepts(agName, pers))
    {
      if agName !in agPercepts {
        agPercepts := agPercepts[agName := []];
      }
      ghost var start := State();
      var i := 0;
      while i < |pers|
        invariant 0 <= i <= |pers| && agName in agPercepts && percepts == old(percepts)
        invariant AddOwn(State(), agName, pers[i..]) == AddOwn(start, agName, pers)
      {
        assert pers[i..][1..] == pers[i + 1..];
        if pers[i] !in agPercepts[agName] {
          uptodateAgs := uptodateAgs - {agName};
          agPercepts := agPercepts[agName := agPercepts[agName] + [pers[i]]];
        }
        i := i + 1;
      }
    }

    method RemoveAgentPercept(agName: string, per: Option<L>) returns (removed: bool)
      modifies this`agPercepts, this`uptodateAgs
      ensures State() == Effect(old(State()), Op.RemoveAgentPercept(agName, per))
      ensures removed <==> per.Some? && agName in old(agPercepts) && per.value in old(agPercepts)[agName]
    {
      removed := false;
      if per.Some? && agName in agPercepts {
        uptodateAgs := uptodateAgs - {agName};
        removed := per.value in agPercepts[agName];
        agPercepts := agPercepts[agName := RemoveFirst(agPercepts[agName], per.value)];
      }
    }

    method RemoveAgentPerceptsByUnif(agName: string, unifies: L -> bool) returns (c: nat)
      modifies this`agPercepts, this`uptodateAgs
      ensures State() == DropOwn(old(State()), agName, unifies)
      ensures agName in old(agPercepts) ==> c == |old(agPercepts)[agName]| - |agPercepts[agName]|
      ensures agName !in old(agPercepts) ==> c == 0
    {
      c := 0;
      if agName in agPercepts {
        var kept;
        kept, c := Iterate(agPercepts[agName], unifies);
        agPercepts := agPercepts[agName := kept];
        if c > 0 {
          uptodateAgs := uptodateAgs - {agName};
        }
      }
    }

    method ClearAgentPercepts(agName: string)
      modifies this`agPercepts, this`uptodateAgs
      ensures State() == Effect(old(State()), Op.ClearAgentPercepts(agName))
    {
      if agName in agPercepts {
        uptodateAgs := uptodateAgs - {agName};
        agPercepts := agPercepts[agName := []];
      }
    }

    /** The agents in any order. */
    method ClearAllPercepts()
      modifies this`percepts, this`agPercepts, this`uptodateAgs
      ensures State() == Effect(old(State()), Op.ClearAllPercepts)
    {
      ClearPercepts();
      ghost var c := State();
      var keys := agPercepts.Keys;
      while keys != {}
        invariant keys <= agPercepts.Keys == c.agPercepts.Keys && percepts == c.percepts
        invariant forall ag :: ag in agPercepts ==>
                    agPercepts[ag] == if ag in keys then c.agPercepts[ag] else []
        invariant uptodateAgs == c.uptodateAgs - (c.agPercepts.Keys - keys)
        decreases keys
      {
        var ag :| ag in keys;
        ClearAgentPercepts(ag);
        keys := keys - {ag};
      }
    }
  }
}
