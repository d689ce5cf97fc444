/** The ant as the program updates it. */
module AntAgent {

  import opened AntTour
  import opened Colony
  import opened Floats
  import opened Roulette

  /** The answer to the ant's own question is such an offer, as long as the levels inside the map are
      positive and its weights are distances. */
  lemma WheelTurns(weight: (nat, nat) -> real, n: nat, s: System, c: Chance)
    requires s.ant.phase == 1 && Building(weight, n, s) && AntTour.Possible(s, c)
    requires forall i: nat, j: nat :: i < n && j < n ==> weight(i, j) >= 0.0 && c.pheromone(i, j) > 0.0
    ensures var t := AntTour.Step(weight, s, c);
            t.inbox != [] && t.inbox[0].Levels? && Offer(t.inbox[0].parts, |t.ant.potential|)
  {
    StepAsk(weight, n, s, c);
    var potential := Unvisited(s.ant.tour, n);
    SomeUnvisited(s.ant.tour, n);
    forall k | 0 <= k < |potential| ensures potential[k] < n {
      assert potential[k] in potential;
    }
    LevelsOffer(weight, c.pheromone, s.ant.pos, potential);
  }

  lemma {:induction false} LevelsOffer(weight: (nat, nat) -> real, pheromone: (nat, nat) -> real, from: nat,
                                       to: seq<nat>)
    requires to != []
    requires forall k :: 0 <= k < |to| ==> weight(from, to[k]) >= 0.0 && pheromone(from, to[k]) > 0.0
    ensures Offer(LevelWords(weight, pheromone, from, to), |to|)
  {
    var parts := LevelWords(weight, pheromone, from, to);
    forall j | 1 <= j <= |to| ensures parts[2 * j - 1] > 0.0 && parts[2 * j] >= 0.0 {
      var k := j - 1;
      assert parts[2 * k + 1] == pheromone(from, to[k]);
      assert parts[2 * k + 2] == weight(from, to[k]);
    }
  }

  class AntBean {
    var mapSize: nat
    var pos: nat
    var tour: seq<nat>
    var weights: seq<real>
    var total: real
    var phase: nat
    var delta: real
    var potential: seq<nat>

    ghost function State(): Ant
      reads this
    {
      Ant(mapSize, pos, tour, weights, total, phase, delta, potential)
    }

    constructor ()
      ensures State() == NEWBORN
    {
      mapSize, pos, tour, weights, total, phase, delta, potential := 0, 0, [], [], 0.0, 0, 0.0, [];
    }

    /** The reply has a pair of words for every node on offer. */
    ghost predicate Paired(parts: seq<real>)
      reads this`potential
    {
      |parts| == 1 + 2 * |potential| && potential != []
    }

    method GetPotentialNodeIndices() returns (r: seq<nat>)
      ensures r == Unvisited(tour, mapSize)
    {
      r := [];
      var i := 0;
      while i < mapSize
        invariant 0 <= i <= mapSize && r == Unvisited(tour, i)
      {
        UnvisitedStep(tour, i);
        if i !in tour {
          r := r + [i];
        }
        i := i + 1;
      }
    }

    /** The reply as two tables over 1, 2, ...: attractions and weights; and the total attraction. */
    method ReadLevels(parts: seq<real>)
      returns (values: map<nat, Float>, edgeWeights: map<nat, real>, sum: Float)
      requires Paired(parts)
      ensures Read(values, edgeWeights, sum, parts, |potential|)
    {
      values, edgeWeights, sum := map[], map[], Finite(0.0);
      var i := 1;
      ghost var k := 0;
      while i < |parts|
        invariant i == 2 * k + 1 && 0 <= k <= |potential|
        invariant Read(values, edgeWeights, sum, parts, k)
        decreases |potential| - k
      {
        var weight := parts[i + 1];
        var value := Attraction(parts[i], weight);
        ReadsOn(values, edgeWeights, sum, parts, k, value, weight);
        assert (i + 1) / 2 == k + 1;
        sum := Plus(sum, value);
        values := values[(i + 1) / 2 := value];
        edgeWeights := edgeWeights[(i + 1) / 2 := weight];
        i := i + 2;
        k := k + 1;
      }
    }

    method Normalize(values: map<nat, Float>, size: nat, sum: Float) returns (probabilities: map<nat, Float>)
      requires Table(values, size)
      ensures Normalized(probabilities, values, sum, size)
    {
      probabilities := map[];
      var i := 1;
      while i <= size
        invariant 1 <= i <= size + 1 && Table(probabilities, i - 1)
        invariant forall j: nat :: 1 <= j < i ==> probabilities[j] == Over(values[j], sum)
      {
        probabilities := probabilities[i := Over(values[i], sum)];
        i := i + 1;
      }
    }

    method Choose(probabilities: map<nat, Float>, size: nat, random: real) returns (i: nat)
      requires size >= 1 && Table(probabilities, size)
      ensures StopsAt(probabilities, size, random, i)
    {
      i := 1;
      var val := probabilities[i];
      assert val == Plus(Finite(0.0), val);
      while i < size
        invariant 1 <= i <= size && val == Cumulative(probabilities, i)
        invariant forall j: nat :: 1 <= j < i ==> !Less(random, Cumulative(probabilities, j))
      {
        if Less(random, val) {
          break;
        }
        i := i + 1;
        val := Plus(val, probabilities[i]);
      }
    }

    /** One message. The choice that the wheel made is given back for the specification. */
    method Receive(m: ToAnt, start: nat, random: real)
      returns (toMap: seq<ToMap>, toSelf: seq<ToAnt>, ghost choice: nat)
      requires !m.Size? && !m.NoMoreTours? && phase == 2 ==> m.Levels? && Paired(m.parts)
      requires !m.Size? && !m.NoMoreTours? && phase != 2 ==> Ready(State(), m, start, 0)
      requires m.Size? ==> start < m.n
      modifies this
      ensures Ready(old(State()), m, start, choice)
      ensures OnMessage(old(State()), m, start, choice) == Reaction(State(), toMap, toSelf)
      ensures !m.Size? && !m.NoMoreTours? && old(phase) == 2 ==>
                StopsAt(Probabilities(m.parts, |old(potential)|), |old(potential)|, random, choice)
    {
      choice := 0;
      toMap, toSelf := [], [];
      if m.Size? {
        mapSize := m.n;
        pos := start;
        tour := [start];
        weights := [];
        phase := 1;
        toSelf := [Nudge];
        return;
      }
      if m.NoMoreTours? {
        return;
      }
      if phase == 1 {
        potential := GetPotentialNodeIndices();
        toMap := [AskLevels(pos, potential)];
        phase := 2;
      } else if phase == 2 {
        toMap, toSelf, choice := MoveOn(m, random);
      } else if phase == 3 {
        AddWeightToTour(m.weight);
        phase := 4;
        toSelf := [m];
      } else if phase == 4 {
        toMap := [UpdateBestTour(total, tour)];
        delta := 1.0 / total;
        var _ := RemoveLastNode();
        phase := 5;
        toSelf := [m];
      } else {
        var next := RemoveLastNode();
        if next == -1 {
          phase := 6;
          return;
        }
        toMap := [UpdatePheromone(pos, next, 1.0 - RO, RO * delta)];
        pos := next;
        toSelf := [m];
      }
    }

    /** A turn of the wheel, and the weight of the chosen edge. */
    method Spin(parts: seq<real>, random: real) returns (i: nat, weight: real)
      requires Paired(parts)
      ensures 1 <= i <= |potential| && weight == parts[2 * i]
      ensures StopsAt(Probabilities(parts, |potential|), |potential|, random, i)
    {
      var values, edgeWeights, sum := ReadLevels(parts);
      var probabilities := Normalize(values, |potential|, sum);
      NormalizedAre(probabilities, values, parts, |potential|);
      i := Choose(probabilities, |potential|, random);
      weight := edgeWeights[i];
    }

    method MoveOn(m: ToAnt, random: real)
      returns (toMap: seq<ToMap>, toSelf: seq<ToAnt>, ghost choice: nat)
      requires m.Levels? && Paired(m.parts)
      modifies this
      ensures StopsAt(Probabilities(m.parts, |old(potential)|), |old(potential)|, random, choice)
      ensures Move(old(State()), m, choice) == Reaction(State(), toMap, toSelf)
    {
      var i, weight := Spin(m.parts, random);
      choice := i;
      var node := potential[i - 1];
      pos := node;
      tour := tour + [node];
      AddWeightToTour(weight);
      if |tour| == mapSize {
        var first := tour[0];
        tour := tour + [first];
        toMap, toSelf := [AskWeight(pos, first)], [];
        pos := first;
        phase := 3;
      } else {
        phase := 1;
        toMap, toSelf := [], [m];
      }
    }

    method AddWeightToTour(weight: real)
      modifies this`weights, this`total
      ensures weights == old(weights) + [weight] && total == old(total) + weight
    {
      weights := weights + [weight];
      total := total + weight;
    }

    /** The last node, or -1. */
    method RemoveLastNode() returns (node: int)
      modifies this`tour
      ensures old(tour) == [] ==> node == -1 && tour == []
      ensures old(tour) != [] ==> node == old(tour)[|old(tour)| - 1] && tour == old(tour)[..|old(tour)| - 1]
    {
      if |tour| != 0 {
        node := tour[|tour| - 1];
        tour := tour[..|tour| - 1];
      } else {
        node := -1;
      }
    }
  }
}
