/** The ant: message by message it builds a closed tour, reports it, and walks back over it. */
module AntTour {

  import opened Colony
  import opened Sequences

  /** phase 1 asks for the levels around the current node, 2 moves on along the answer, 3 closes the
      tour, 4 reports it, 5 walks back, 6 is the end. */
  datatype Ant = Ant(mapSize: nat, pos: nat, tour: seq<nat>, weights: seq<real>, total: real,
                     phase: nat, delta: real, potential: seq<nat>)

  const NEWBORN := Ant(0, 0, [], [], 0.0, 0, 0.0, [])

  datatype Reaction = Reaction(ant: Ant, toMap: seq<ToMap>, toSelf: seq<ToAnt>)

  /** What a message finds when it arrives: the fields that the code indexes and divides by. The
      random numbers are the starting node and the choice of the roulette wheel, counted from 1. */
  ghost predicate Ready(a: Ant, m: ToAnt, start: nat, choice: nat) {
    if m.Size? then start < m.n
    else if m.NoMoreTours? then true
    else if a.phase == 2 then
      m.Levels? && |m.parts| == 1 + 2 * |a.potential| && 1 <= choice <= |a.potential|
    else if a.phase == 3 then m.Weight?
    else if a.phase == 4 then a.total != 0.0 && a.tour != []
    else true
  }

  function OnMessage(a: Ant, m: ToAnt, start: nat, choice: nat): Reaction
    requires Ready(a, m, start, choice)
  {
    if m.Size? then
      Reaction(a.(mapSize := m.n, pos := start, tour := [start], weights := [], phase := 1), [], [Nudge])
    else if m.NoMoreTours? then Reaction(a, [], [])
    else if a.phase == 1 then
      var potential := Unvisited(a.tour, a.mapSize);
      Reaction(a.(potential := potential, phase := 2), [AskLevels(a.pos, potential)], [])
    else if a.phase == 2 then Move(a, m, choice)
    else if a.phase == 3 then
      Reaction(a.(weights := a.weights + [m.weight], total := a.total + m.weight, phase := 4), [], [m])
    else if a.phase == 4 then
      Reaction(a.(delta := 1.0 / a.total, tour := a.tour[..|a.tour| - 1], phase := 5),
               [UpdateBestTour(a.total, a.tour)], [m])
    else if a.tour == [] then Reaction(a.(phase := 6), [], [])
    else
      var next := a.tour[|a.tour| - 1];
      Reaction(a.(pos := next, tour := a.tour[..|a.tour| - 1]),
               [UpdatePheromone(a.pos, next, 1.0 - RO, RO * a.delta)], [m])
  }

  /** The chosen node joins the tour with the weight read beside its pheromone level; a complete tour
      is closed. */
  function Move(a: Ant, m: ToAnt, choice: nat): Reaction
    requires m.Levels? && |m.parts| == 1 + 2 * |a.potential| && 1 <= choice <= |a.potential|
  {
    var node := a.potential[choice - 1];
    var weight := m.parts[2 * choice];
    var b := a.(pos := node, tour := a.tour + [node], weights := a.weights + [weight], total := a.total + weight);
    if |b.tour| == b.mapSize then
      var first := b.tour[0];
      Reaction(b.(tour := b.tour + [first], pos := first, phase := 3), [AskWeight(node, first)], [])
    else Reaction(b.(phase := 1), [], [m])
  }

  // ---------- the ant with its map ----------

  /** The ant's pending messages, and all that it has sent to the map. */
  datatype System = System(ant: Ant, inbox: seq<ToAnt>, sent: seq<ToMap>)

  /** The words of the map's reply on levels. */
  function LevelWords(weight: (nat, nat) -> real, pheromone: (nat, nat) -> real, from: nat, to: seq<nat>):
    (r: seq<real>)
    ensures |r| == 1 + 2 * |to|
    ensures forall k :: 0 <= k < |to| ==>
              r[2 * k + 1] == pheromone(from, to[k]) && r[2 * k + 2] == weight(from, to[k])
  {
    if to == [] then [HEADER]
    else
      var n := |to| - 1;
      LevelWords(weight, pheromone, from, to[..n]) + [pheromone(from, to[n]), weight(from, to[n])]
  }

  /** The map's replies to what the ant has sent. */
  function Replies(weight: (nat, nat) -> real, pheromone: (nat, nat) -> real, toMap: seq<ToMap>): seq<ToAnt>
  {
    if toMap == [] then []
    else
      (match toMap[0]
       case AskLevels(from, to) => [Levels(LevelWords(weight, pheromone, from, to))]
       case AskWeight(from, to1) => [Weight(weight(from, to1))]
       case _ => [])
      + Replies(weight, pheromone, toMap[1..])
  }

  /** What chance and the other ants contribute to a step. */
  datatype Chance = Chance(start: nat, choice: nat, pheromone: (nat, nat) -> real)

  ghost predicate Possible(s: System, c: Chance) {
    s.inbox != [] && Ready(s.ant, s.inbox[0], c.start, c.choice)
  }

  function Step(weight: (nat, nat) -> real, s: System, c: Chance): System
    requires Possible(s, c)
  {
    var r := OnMessage(s.ant, s.inbox[0], c.start, c.choice);
    System(r.ant, s.inbox[1..] + r.toSelf + Replies(weight, c.pheromone, r.toMap), s.sent + r.toMap)
  }

  /** A new ant, with the map's answer to its first question under way. */
  function Born(n: nat): System {
    System(NEWBORN, [Size(n)], [])
  }

  // ---------- the invariant, phase by phase ----------

  /** No closed tour is without weight: the nodes are not all in one place, though some may share one. */
  ghost predicate PositiveTours(weight: (nat, nat) -> real, n: nat) {
    forall tour :: ClosedTour(tour, n) ==> PathWeight(weight, tour) > 0.0
  }

  ghost predicate WeightsOf(weight: (nat, nat) -> real, path: seq<nat>, weights: seq<real>) {
    |weights| + 1 == |path| && forall k :: 0 <= k < |weights| ==> weights[k] == weight(path[k], path[k + 1])
  }

  /** An open path of different nodes, with the weights of its edges and their sum. */
  ghost predicate OpenTour(weight: (nat, nat) -> real, n: nat, path: seq<nat>, weights: seq<real>, total: real) {
    && path != [] && Distinct(path) && (forall k :: 0 <= k < |path| ==> path[k] < n)
    && WeightsOf(weight, path, weights) && total == PathWeight(weight, path)
  }

  /** A question that the map can answer. */
  ghost predicate Answerable(n: nat, m: ToMap) {
    match m
    case AskLevels(from, to) => from < n && forall k :: 0 <= k < |to| ==> to[k] < n
    case AskWeight(from, to1) => from < n && to1 < n
    case _ => false
  }

  /** Questions only. */
  ghost predicate NoReports(n: nat, sent: seq<ToMap>) {
    forall m :: m in sent ==> Answerable(n, m)
  }

  /** The ant proper gets its messages one at a time. */
  ghost predicate OneMessage(s: System) {
    |s.inbox| == 1 && !s.inbox[0].Size? && !s.inbox[0].NoMoreTours?
  }

  ghost predicate Building(weight: (nat, nat) -> real, n: nat, s: System) {
    var a := s.ant;
    && OneMessage(s) && a.mapSize == n && NoReports(n, s.sent)
    && OpenTour(weight, n, a.tour, a.weights, a.total) && |a.tour| < n && a.pos == a.tour[|a.tour| - 1]
  }

  ghost predicate Moving(weight: (nat, nat) -> real, n: nat, s: System) {
    var a := s.ant;
    && Building(weight, n, s)
    && a.potential == Unvisited(a.tour, n)
    && s.inbox[0].Levels? && |s.inbox[0].parts| == 1 + 2 * |a.potential|
    && forall k :: 0 <= k < |a.potential| ==>
         s.inbox[0].parts[2 * k + 2] == weight(a.pos, a.potential[k])
  }

  ghost predicate Closing(weight: (nat, nat) -> real, n: nat, s: System) {
    var a := s.ant;
    && a.mapSize == n && NoReports(n, s.sent)
    && ClosedTour(a.tour, n) && a.pos == a.tour[n]
    && OpenTour(weight, n, a.tour[..n], a.weights, a.total)
    && s.inbox == [Weight(weight(a.tour[n - 1], a.tour[n]))]
  }

  ghost predicate Reporting(weight: (nat, nat) -> real, n: nat, s: System) {
    var a := s.ant;
    && OneMessage(s) && a.mapSize == n && NoReports(n, s.sent)
    && ClosedTour(a.tour, n) && a.pos == a.tour[n]
    && WeightsOf(weight, a.tour, a.weights) && a.total == PathWeight(weight, a.tour) > 0.0
  }

  /** The updates of a walk back over a tour, from its end down to its k-th node. */
  function WalkBack(tour: seq<nat>, k: nat, delta: real): (r: seq<ToMap>)
    requires k < |tour|
    ensures |r| == |tour| - 1 - k
    ensures forall j :: 0 <= j < |r| ==>
              r[j] == UpdatePheromone(tour[|tour| - 1 - j], tour[|tour| - 2 - j], 1.0 - RO, RO * delta)
    decreases |tour| - k
  {
    if k == |tour| - 1 then []
    else WalkBack(tour, k + 1, delta) + [UpdatePheromone(tour[k + 1], tour[k], 1.0 - RO, RO * delta)]
  }

  /** After the questions, the ant has reported the closed tour with the sum of its weights and walked
      back over its edges down to the k-th node. */
  ghost predicate Reported(weight: (nat, nat) -> real, n: nat, sent: seq<ToMap>, questions: seq<ToMap>,
                           tour: seq<nat>, k: nat) {
    && ClosedTour(tour, n) && k <= n && NoReports(n, questions)
    && PathWeight(weight, tour) > 0.0
    && sent == questions + ([UpdateBestTour(PathWeight(weight, tour), tour)]
                            + WalkBack(tour, k, 1.0 / PathWeight(weight, tour)))
  }

  ghost predicate Walking(weight: (nat, nat) -> real, n: nat, s: System, questions: seq<ToMap>, tour: seq<nat>) {
    var a, k := s.ant, |s.ant.tour|;
    && OneMessage(s) && Reported(weight, n, s.sent, questions, tour, k)
    && a.tour == tour[..k] && a.pos == tour[k] && a.delta == 1.0 / PathWeight(weight, tour)
  }

  ghost predicate Inv(weight: (nat, nat) -> real, n: nat, s: System) {
    var phase := s.ant.phase;
    if s.inbox == [Size(n)] then s == Born(n)
    else if phase == 1 then Building(weight, n, s)
    else if phase == 2 then OneMessage(s) && Moving(weight, n, s)
    else if phase == 3 then Closing(weight, n, s)
    else if phase == 4 then Reporting(weight, n, s)
    else if phase == 5 then exists questions, tour :: Walking(weight, n, s, questions, tour)
    else phase == 6 && s.inbox == [] && exists questions, tour :: Reported(weight, n, s.sent, questions, tour, 0)
  }

  // ---------- the steps ----------

  lemma StepBorn(weight: (nat, nat) -> real, n: nat, s: System, c: Chance)
    requires n >= 2 && s == Born(n) && Possible(s, c)
    ensures var t := Step(weight, s, c); t.ant.phase == 1 && Building(weight, n, t)
  {
    var t := Step(weight, s, c);
    assert t.inbox == [Nudge] && t.sent == [];
  }

  /** The words of a reply on levels: every second one is the weight of an edge that was asked about. */
  lemma {:induction false} WeightWords(weight: (nat, nat) -> real, pheromone: (nat, nat) -> real, from: nat,
                                       to: seq<nat>)
    ensures var parts := LevelWords(weight, pheromone, from, to);
            |parts| == 1 + 2 * |to| && forall k :: 0 <= k < |to| ==> parts[2 * k + 2] == weight(from, to[k])
  {
  }

  /** The ant has asked about all nodes that are left, and been answered. */
  lemma {:induction false} Asked(weight: (nat, nat) -> real, n: nat, s: System, t: System, parts: seq<real>)
    requires Building(weight, n, s)
    requires t.ant == s.ant.(potential := Unvisited(s.ant.tour, n), phase := 2)
    requires t.inbox == [Levels(parts)] && t.sent == s.sent + [AskLevels(s.ant.pos, t.ant.potential)]
    requires |parts| == 1 + 2 * |t.ant.potential|
    requires forall k :: 0 <= k < |t.ant.potential| ==> parts[2 * k + 2] == weight(s.ant.pos, t.ant.potential[k])
    ensures OneMessage(t) && Moving(weight, n, t)
  {
    forall k | 0 <= k < |t.ant.potential| ensures t.ant.potential[k] < n {
      assert t.ant.potential[k] in t.ant.potential;
    }
  }

  lemma {:induction false} StepAsk(weight: (nat, nat) -> real, n: nat, s: System, c: Chance)
    requires s.ant.phase == 1 && Building(weight, n, s) && Possible(s, c)
    ensures var t := Step(weight, s, c); t.ant.phase == 2 && OneMessage(t) && Moving(weight, n, t)
    ensures var potential := Unvisited(s.ant.tour, n);
            Step(weight, s, c).inbox == [Levels(LevelWords(weight, c.pheromone, s.ant.pos, potential))]
  {
    var a, potential := s.ant, Unvisited(s.ant.tour, n);
    ReplyTo(weight, c.pheromone, AskLevels(a.pos, potential));
    WeightWords(weight, c.pheromone, a.pos, potential);
    Asked(weight, n, s, Step(weight, s, c), LevelWords(weight, c.pheromone, a.pos, potential));
  }

  lemma ReplyTo(weight: (nat, nat) -> real, pheromone: (nat, nat) -> real, asked: ToMap)
    ensures Replies(weight, pheromone, [asked]) ==
              match asked
              case AskLevels(from, to) => [Levels(LevelWords(weight, pheromone, from, to))]
              case AskWeight(from, to1) => [Weight(weight(from, to1))]
              case _ => []
  {
    assert [asked][1..] == [];
  }

  /** One more node at the end of an open tour. */
  lemma OpenTourGrows(weight: (nat, nat) -> real, n: nat, path: seq<nat>, weights: seq<real>, total: real, x: nat)
    requires OpenTour(weight, n, path, weights, total) && x < n && x !in path
    ensures var w := weight(path[|path| - 1], x);
            OpenTour(weight, n, path + [x], weights + [w], total + w)
  {
    var longer := path + [x];
    assert longer[..|path|] == path;
  }

  /** The word behind the chosen node's level is the weight of the edge to it, and the node is new. */
  lemma Chosen(weight: (nat, nat) -> real, n: nat, s: System, c: Chance)
    requires s.ant.phase == 2 && OneMessage(s) && Moving(weight, n, s) && Possible(s, c)
    ensures var a, node := s.ant, s.ant.potential[c.choice - 1];
            && node < n && node !in a.tour
            && s.inbox[0].parts[2 * c.choice] == weight(a.tour[|a.tour| - 1], node)
            && OpenTour(weight, n, a.tour + [node], a.weights + [s.inbox[0].parts[2 * c.choice]],
                        a.total + s.inbox[0].parts[2 * c.choice])
  {
    var a, k := s.ant, c.choice - 1;
    assert a.potential[k] in a.potential;
    assert s.inbox[0].parts[2 * k + 2] == weight(a.pos, a.potential[k]);
    OpenTourGrows(weight, n, a.tour, a.weights, a.total, a.potential[k]);
  }

  lemma CloseTour(path: seq<nat>, n: nat)
    requires |path| == n && n > 0 && Distinct(path) && forall k :: 0 <= k < n ==> path[k] < n
    ensures ClosedTour(path + [path[0]], n) && (path + [path[0]])[..n] == path
  {
    assert (path + [path[0]])[..n] == path;
  }

  lemma StepMove(weight: (nat, nat) -> real, n: nat, s: System, c: Chance)
    requires s.ant.phase == 2 && OneMessage(s) && Moving(weight, n, s) && Possible(s, c)
    ensures var t := Step(weight, s, c);
            if |s.ant.tour| + 1 == n then t.ant.phase == 3 && Closing(weight, n, t)
            else t.ant.phase == 1 && Building(weight, n, t) && |t.ant.tour| == |s.ant.tour| + 1
  {
    Chosen(weight, n, s, c);
    if |s.ant.tour| + 1 == n {
      MoveLast(weight, n, s, c);
    } else {
      var t := Step(weight, s, c);
      assert t.inbox == [s.inbox[0]] && t.sent == s.sent;
    }
  }

  /** An open tour over all nodes, closed, with the question for the closing edge answered. */
  lemma ClosesUp(weight: (nat, nat) -> real, n: nat, t: System, path: seq<nat>, weights: seq<real>, total: real)
    requires OpenTour(weight, n, path, weights, total) && |path| == n && NoReports(n, t.sent)
    requires t.ant.mapSize == n && t.ant.tour == path + [path[0]] && t.ant.pos == path[0]
    requires t.ant.weights == weights && t.ant.total == total
    requires t.inbox == [Weight(weight(path[n - 1], path[0]))]
    ensures Closing(weight, n, t)
  {
    CloseTour(path, n);
  }

  lemma LastMove(a: Ant, m: ToAnt, choice: nat)
    requires m.Levels? && |m.parts| == 1 + 2 * |a.potential| && 1 <= choice <= |a.potential|
    requires a.tour != [] && |a.tour| + 1 == a.mapSize
    ensures var node, w, first := a.potential[choice - 1], m.parts[2 * choice], a.tour[0];
            Move(a, m, choice)
            == Reaction(a.(pos := first, tour := a.tour + [node] + [first], weights := a.weights + [w],
                           total := a.total + w, phase := 3),
                        [AskWeight(node, first)], [])
  {
  }

  lemma LastStep(weight: (nat, nat) -> real, s: System, c: Chance)
    requires |s.inbox| == 1 && s.inbox[0].Levels? && s.ant.phase == 2 && Possible(s, c)
    requires s.ant.tour != [] && |s.ant.tour| + 1 == s.ant.mapSize
    ensures var a, node, w, first :=
              s.ant, s.ant.potential[c.choice - 1], s.inbox[0].parts[2 * c.choice], s.ant.tour[0];
            Step(weight, s, c)
            == System(a.(pos := first, tour := a.tour + [node] + [first], weights := a.weights + [w],
                         total := a.total + w, phase := 3),
                      [Weight(weight(node, first))], s.sent + [AskWeight(node, first)])
  {
    LastMove(s.ant, s.inbox[0], c.choice);
    ReplyTo(weight, c.pheromone, AskWeight(s.ant.potential[c.choice - 1], s.ant.tour[0]));
    assert s.inbox[1..] == [];
  }

  lemma MoveLast(weight: (nat, nat) -> real, n: nat, s: System, c: Chance)
    requires s.ant.phase == 2 && OneMessage(s) && Moving(weight, n, s) && Possible(s, c)
    requires |s.ant.tour| + 1 == n
    ensures var t := Step(weight, s, c); t.ant.phase == 3 && Closing(weight, n, t)
  {
    Chosen(weight, n, s, c);
    LastStep(weight, s, c);
    var a, node, w := s.ant, s.ant.potential[c.choice - 1], s.inbox[0].parts[2 * c.choice];
    ClosesUp(weight, n, Step(weight, s, c), a.tour + [node], a.weights + [w], a.total + w);
  }

  lemma {:induction false} ClosedTourWeight(weight: (nat, nat) -> real, n: nat, tour: seq<nat>)
    requires ClosedTour(tour, n)
    ensures PathWeight(weight, tour) == PathWeight(weight, tour[..n]) + weight(tour[n - 1], tour[n])
  {
  }

  lemma StepClose(weight: (nat, nat) -> real, n: nat, s: System, c: Chance)
    requires n >= 2 && PositiveTours(weight, n)
    requires s.ant.phase == 3 && Closing(weight, n, s) && Possible(s, c)
    ensures var t := Step(weight, s, c); t.ant.phase == 4 && Reporting(weight, n, t)
  {
    var tour, weights := s.ant.tour, s.ant.weights;
    ClosedTourWeight(weight, n, tour);
    LastWeight(weight, n, tour, weights);
    var t := Step(weight, s, c);
    assert t.inbox == s.inbox && t.sent == s.sent;
  }

  lemma LastWeight(weight: (nat, nat) -> real, n: nat, tour: seq<nat>, weights: seq<real>)
    requires n >= 1 && |tour| == n + 1 && WeightsOf(weight, tour[..n], weights)
    ensures WeightsOf(weight, tour, weights + [weight(tour[n - 1], tour[n])])
  {
    var open := tour[..n];
    forall k | 0 <= k < n - 1 ensures weights[k] == weight(tour[k], tour[k + 1]) {
      assert weights[k] == weight(open[k], open[k + 1]);
    }
  }

  lemma StepReport(weight: (nat, nat) -> real, n: nat, s: System, c: Chance)
    requires s.ant.phase == 4 && Reporting(weight, n, s) && Possible(s, c)
    ensures var t := Step(weight, s, c);
            t.ant.phase == 5 && |t.ant.tour| == n && Walking(weight, n, t, s.sent, s.ant.tour)
  {
    var a := s.ant;
    var report := UpdateBestTour(a.total, a.tour);
    ReplyTo(weight, c.pheromone, report);
    var t := Step(weight, s, c);
    assert t.inbox == s.inbox;
    assert t.sent == s.sent + ([report] + WalkBack(a.tour, n, 1.0 / a.total));
  }

  lemma StepWalk(weight: (nat, nat) -> real, n: nat, s: System, c: Chance, questions: seq<ToMap>, tour: seq<nat>)
    requires s.ant.phase == 5 && Walking(weight, n, s, questions, tour) && Possible(s, c)
    ensures var t := Step(weight, s, c);
            if s.ant.tour == [] then t.ant.phase == 6 && t.inbox == [] && t.sent == s.sent
            else t.ant.phase == 5 && |t.ant.tour| == |s.ant.tour| - 1 && Walking(weight, n, t, questions, tour)
  {
    var a := s.ant;
    var t := Step(weight, s, c);
    if a.tour == [] {
      assert t.inbox == [];
    } else {
      var k := |a.tour| - 1;
      var update: ToMap := UpdatePheromone(a.pos, a.tour[k], 1.0 - RO, RO * a.delta);
      ReplyTo(weight, c.pheromone, update);
      assert t.inbox == s.inbox;
      var report: ToMap := UpdateBestTour(PathWeight(weight, tour), tour);
      assert a.tour[k] == tour[k] && a.tour[..k] == tour[..k];
      WalkFurther(s.sent, questions, report, tour, k, a.delta);
    }
  }

  lemma WalkFurther(sent: seq<ToMap>, questions: seq<ToMap>, report: ToMap, tour: seq<nat>, k: nat, delta: real)
    requires k + 1 < |tour| && sent == questions + ([report] + WalkBack(tour, k + 1, delta))
    ensures sent + [UpdatePheromone(tour[k + 1], tour[k], 1.0 - RO, RO * delta)]
         == questions + ([report] + WalkBack(tour, k, delta))
  {
  }

  lemma StepBack(weight: (nat, nat) -> real, n: nat, s: System, c: Chance)
    requires s.inbox != [Size(n)] && s.ant.phase == 5 && Inv(weight, n, s) && Possible(s, c)
    ensures Inv(weight, n, Step(weight, s, c))
    ensures Remaining(n, Step(weight, s, c)) == Remaining(n, s) - 1
  {
    var questions, tour :| Walking(weight, n, s, questions, tour);
    StepWalk(weight, n, s, c, questions, tour);
    if s.ant.tour == [] {
      assert Reported(weight, n, Step(weight, s, c).sent, questions, tour, 0);
    }
  }

  lemma StepInv(weight: (nat, nat) -> real, n: nat, s: System, c: Chance)
    requires n >= 2 && PositiveTours(weight, n) && Inv(weight, n, s) && Possible(s, c)
    ensures Inv(weight, n, Step(weight, s, c))
    ensures Remaining(n, Step(weight, s, c)) == Remaining(n, s) - 1
  {
    var phase := s.ant.phase;
    if s.inbox == [Size(n)] {
      StepBorn(weight, n, s, c);
    } else if phase == 1 {
      StepAsk(weight, n, s, c);
    } else if phase == 2 {
      StepMove(weight, n, s, c);
    } else if phase == 3 {
      StepClose(weight, n, s, c);
    } else if phase == 4 {
      StepReport(weight, n, s, c);
    } else if phase == 5 {
      StepBack(weight, n, s, c);
    }
  }

  // ---------- whole runs ----------

  /** The steps still to go. */
  function Remaining(n: nat, s: System): int {
    var a := s.ant;
    if s.inbox == [Size(n)] then 3 * n + 2
    else if a.phase == 1 then 2 * (n - |a.tour|) + n + 3
    else if a.phase == 2 then 2 * (n - |a.tour|) + n + 2
    else if a.phase == 3 then n + 3
    else if a.phase == 4 then n + 2
    else if a.phase == 5 then |a.tour| + 1
    else 0
  }

  ghost predicate PossibleRun(weight: (nat, nat) -> real, s: System, chances: seq<Chance>)
    decreases |chances|
  {
    chances == [] || (Possible(s, chances[0]) && PossibleRun(weight, Step(weight, s, chances[0]), chances[1..]))
  }

  ghost function Run(weight: (nat, nat) -> real, s: System, chances: seq<Chance>): System
    requires PossibleRun(weight, s, chances)
    decreases |chances|
  {
    if chances == [] then s else Run(weight, Step(weight, s, chances[0]), chances[1..])
  }

  lemma {:induction false} RunInv(weight: (nat, nat) -> real, n: nat, s: System, chances: seq<Chance>)
    requires n >= 2 && PositiveTours(weight, n) && Inv(weight, n, s) && PossibleRun(weight, s, chances)
    ensures Inv(weight, n, Run(weight, s, chances))
    ensures Remaining(n, Run(weight, s, chances)) == Remaining(n, s) - |chances|
    decreases |chances|
  {
    if chances != [] {
      StepInv(weight, n, s, chances[0]);
      RunInv(weight, n, Step(weight, s, chances[0]), chances[1..]);
    }
  }

  /** Until the end some node is on offer whenever the wheel turns, and the next message is one that the
      ant can handle, wherever it starts and whatever the wheel picks among the nodes on offer. */
  lemma NeverStuck(weight: (nat, nat) -> real, n: nat, s: System)
    requires n >= 2 && Inv(weight, n, s) && Remaining(n, s) > 0
    ensures s.ant.phase == 2 ==> s.ant.potential != []
    ensures forall c: Chance :: c.start < n && (s.ant.phase == 2 ==> 1 <= c.choice <= |s.ant.potential|) ==>
              Possible(s, c)
  {
    if s.ant.phase == 2 {
      assert Moving(weight, n, s);
      SomeUnvisited(s.ant.tour, n);
    }
  }

  /** An update of the edge from i to j, after a report of a closed tour on the map. */
  ghost predicate UpdateAfter(n: nat, sent: seq<ToMap>, i: nat, j: nat, keep: real, add: real,
                              w: real, tour: seq<nat>) {
    && i < n && j < n && keep == 0.9 && w > 0.0 && add == 0.1 * (1.0 / w)
    && UpdateBestTour(w, tour) in sent
  }

  /** What a message to the map should be: an answerable question; the report of a closed tour with its
      weight; or an update by the inverse weight of a tour that is reported. */
  ghost predicate Right(weight: (nat, nat) -> real, n: nat, sent: seq<ToMap>, m: ToMap) {
    match m
    case UpdateBestTour(w, tour) => ClosedTour(tour, n) && w == PathWeight(weight, tour) > 0.0
    case UpdatePheromone(i, j, keep, add) => exists w, tour :: UpdateAfter(n, sent, i, j, keep, add, w, tour)
    case _ => Answerable(n, m)
  }

  lemma ReportedIsRight(weight: (nat, nat) -> real, n: nat, sent: seq<ToMap>, questions: seq<ToMap>,
                        t: seq<nat>, k: nat, m: ToMap)
    requires Reported(weight, n, sent, questions, t, k) && m in sent
    ensures Right(weight, n, sent, m)
  {
    var w := PathWeight(weight, t);
    var walk := WalkBack(t, k, 1.0 / w);
    var report: ToMap := UpdateBestTour(w, t);
    assert m in questions || m == report || m in walk;
    assert report in sent;
    if m in walk {
      var j :| 0 <= j < |walk| && walk[j] == m;
      assert UpdateAfter(n, sent, t[n - j], t[n - 1 - j], 1.0 - RO, RO * (1.0 / w), w, t);
    }
  }

  /** Whatever an ant has sent is right. */
  lemma SentIsRight(weight: (nat, nat) -> real, n: nat, s: System, m: ToMap)
    requires Inv(weight, n, s) && m in s.sent
    ensures Right(weight, n, s.sent, m)
  {
    if s.inbox != [Size(n)] && s.ant.phase == 5 {
      var questions, t :| Walking(weight, n, s, questions, t);
      ReportedIsRight(weight, n, s.sent, questions, t, |s.ant.tour|, m);
    } else if s.inbox != [Size(n)] && s.ant.phase == 6 {
      var questions, t :| Reported(weight, n, s.sent, questions, t, 0);
      ReportedIsRight(weight, n, s.sent, questions, t, 0, m);
    }
  }

  /** At any moment, whatever the draws and the pheromones: a tour that the ant has reported visits
      every node once and returns to its first one, and the reported weight is the sum of the map's
      weights over its edges. */
  lemma {:induction false} ReportedTourIsRight(weight: (nat, nat) -> real, n: nat, chances: seq<Chance>,
                                               w: real, tour: seq<nat>)
    requires n >= 2 && PositiveTours(weight, n) && PossibleRun(weight, Born(n), chances)
    requires UpdateBestTour(w, tour) in Run(weight, Born(n), chances).sent
    ensures ClosedTour(tour, n) && w == PathWeight(weight, tour) > 0.0
    ensures forall x: nat :: x < n ==> x in tour[..n]
  {
    RunInv(weight, n, Born(n), chances);
    SentIsRight(weight, n, Run(weight, Born(n), chances), UpdateBestTour(w, tour));
    forall x: nat | x < n ensures x in tour[..n] {
      ClosedTourVisitsAll(tour, n, x);
    }
  }

  /** After exactly 3n+2 messages the ant has ended: it has sent its questions, one report of a closed
      tour with the sum of its weights, and then exactly n pheromone updates, one per edge of the tour
      from the last to the first, each with the evaporation rate and the inverse of the weight. */
  lemma {:induction false} AntCompletes(weight: (nat, nat) -> real, n: nat, chances: seq<Chance>)
    requires n >= 2 && PositiveTours(weight, n) && PossibleRun(weight, Born(n), chances)
    ensures |chances| <= 3 * n + 2
    ensures var s := Run(weight, Born(n), chances);
            |chances| == 3 * n + 2 <==> s.ant.phase == 6
    ensures var s := Run(weight, Born(n), chances);
            s.ant.phase == 6 ==>
              s.inbox == [] && exists questions, tour :: Reported(weight, n, s.sent, questions, tour, 0)
  {
    RunInv(weight, n, Born(n), chances);
    RemainingSign(weight, n, Run(weight, Born(n), chances));
  }

  lemma RemainingSign(weight: (nat, nat) -> real, n: nat, s: System)
    requires n >= 2 && Inv(weight, n, s)
    ensures Remaining(n, s) >= 0 && (Remaining(n, s) == 0 <==> s.ant.phase == 6)
  {
  }

  // ---------- what the draws decide ----------

  /** The tour under way, and every tour reported, starts at x. */
  ghost predicate StartsAt(s: System, x: nat) {
    && (1 <= s.ant.phase <= 4 ==> s.ant.tour != [] && s.ant.tour[0] == x)
    && (forall w, tour :: UpdateBestTour(w, tour) in s.sent ==> tour != [] && tour[0] == x)
  }

  lemma StartStays(weight: (nat, nat) -> real, s: System, c: Chance, x: nat)
    requires Possible(s, c) && !s.inbox[0].Size? && s.ant.phase >= 1 && StartsAt(s, x)
    ensures StartsAt(Step(weight, s, c), x) && Step(weight, s, c).ant.phase >= 1
  {
  }

  lemma {:induction false} RunStart(weight: (nat, nat) -> real, n: nat, s: System, chances: seq<Chance>, x: nat)
    requires n >= 2 && PositiveTours(weight, n) && Inv(weight, n, s) && PossibleRun(weight, s, chances)
    requires s.inbox != [Size(n)] && StartsAt(s, x)
    ensures StartsAt(Run(weight, s, chances), x)
    decreases |chances|
  {
    if chances != [] {
      StepInv(weight, n, s, chances[0]);
      NoSize(weight, n, s);
      StartStays(weight, s, chances[0], x);
      NotBornAgain(weight, n, s, chances[0]);
      RunStart(weight, n, Step(weight, s, chances[0]), chances[1..], x);
    }
  }

  lemma NoSize(weight: (nat, nat) -> real, n: nat, s: System)
    requires Inv(weight, n, s) && s.inbox != [Size(n)] && s.inbox != []
    ensures !s.inbox[0].Size? && s.ant.phase >= 1
  {
    if s.ant.phase == 5 {
      var questions, tour :| Walking(weight, n, s, questions, tour);
    }
  }

  lemma NotBornAgain(weight: (nat, nat) -> real, n: nat, s: System, c: Chance)
    requires Inv(weight, n, s) && s.inbox != [Size(n)] && Possible(s, c) && n >= 2 && PositiveTours(weight, n)
    ensures Step(weight, s, c).inbox != [Size(n)]
  {
    StepInv(weight, n, s, c);
    NoSize(weight, n, s);
    StepKeepsPhase(weight, s, c);
  }

  lemma StepKeepsPhase(weight: (nat, nat) -> real, s: System, c: Chance)
    requires Possible(s, c) && !s.inbox[0].Size? && s.ant.phase >= 1
    ensures Step(weight, s, c).ant.phase >= 1
  {
  }

  /** The tour that is reported starts, and so ends, at the node that was drawn for the ant. */
  lemma {:induction false} TourStartsWhereDrawn(weight: (nat, nat) -> real, n: nat, chances: seq<Chance>,
                                                w: real, tour: seq<nat>)
    requires n >= 2 && PositiveTours(weight, n) && PossibleRun(weight, Born(n), chances)
    requires UpdateBestTour(w, tour) in Run(weight, Born(n), chances).sent
    ensures chances != [] && tour != [] && tour[0] == tour[|tour| - 1] == chances[0].start
  {
    ReportedTourIsRight(weight, n, chances, w, tour);
    var c := chances[0];
    StepBorn(weight, n, Born(n), c);
    var s := Step(weight, Born(n), c);
    StepInv(weight, n, Born(n), c);
    assert s.inbox == [Nudge] && s.sent == [] && s.ant.tour == [c.start];
    RunStart(weight, n, s, chances[1..], c.start);
  }

  lemma MoveAppends(a: Ant, m: ToAnt, choice: nat)
    requires m.Levels? && |m.parts| == 1 + 2 * |a.potential| && 1 <= choice <= |a.potential|
    ensures a.tour + [a.potential[choice - 1]] <= Move(a, m, choice).ant.tour
  {
  }

  /** The offer: all nodes that are left, and for each the level and the weight of the edge to it. */
  lemma {:induction false} OfferIs(weight: (nat, nat) -> real, n: nat, s: System, c: Chance)
    requires s.ant.phase == 1 && Building(weight, n, s) && Possible(s, c)
    ensures var t, offered := Step(weight, s, c), Unvisited(s.ant.tour, n);
            && t.ant == s.ant.(potential := offered, phase := 2)
            && |t.inbox| == 1 && t.inbox[0].Levels? && |t.inbox[0].parts| == 1 + 2 * |offered|
            && forall k :: 0 <= k < |offered| ==>
                 && t.inbox[0].parts[2 * k + 1] == c.pheromone(s.ant.pos, offered[k])
                 && t.inbox[0].parts[2 * k + 2] == weight(s.ant.pos, offered[k])
  {
    StepAsk(weight, n, s, c);
  }

  /** The node that joins the tour is the one at the place that was drawn among those on offer. */
  lemma {:induction false} NodeIsDrawn(weight: (nat, nat) -> real, n: nat, s: System, c: Chance, d: Chance)
    requires s.ant.phase == 1 && Building(weight, n, s) && Possible(s, c) && Possible(Step(weight, s, c), d)
    ensures 1 <= d.choice <= |Unvisited(s.ant.tour, n)|
    ensures s.ant.tour + [Unvisited(s.ant.tour, n)[d.choice - 1]]
         <= Step(weight, Step(weight, s, c), d).ant.tour
  {
    OfferIs(weight, n, s, c);
    var t := Step(weight, s, c);
    MoveAppends(t.ant, t.inbox[0], d.choice);
  }
}
