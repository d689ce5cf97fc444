/** The map together with any number of ants. Messages from an ant reach the map one at a time and in
    any order, replies are computed from the levels of that moment, and everything interleaves. */
module Foraging {

  import opened AntTour
  import opened Colony
  import opened Distances
  import opened Reals
  import opened Roulette
  import opened Sequences
  import opened TspMap

  /** An ant, the messages that wait for it, those on their way to the map, and all it ever sent. */
  datatype Member = Member(ant: Ant, inbox: seq<ToAnt>, toMap: seq<ToMap>, sent: seq<ToMap>)

  /** reports are those sent so far, received those that have reached the map. */
  datatype Swarm = Swarm(members: map<nat, Member>, levels: Levels, tau0: real, search: Search,
                         reports: seq<Report>, received: seq<Report>)

  datatype Event =
    // a new ant's question for the size of the map is answered
    | Hatch(id: nat)
    // an ant takes its next message; the draws are its starting node and that of the wheel
    | Hear(id: nat, start: nat, random: real, choice: nat)
    // the map takes one of the messages on their way from an ant
    | Serve(id: nat, index: nat)

  function ReportsIn(sent: seq<ToMap>): seq<Report>
  {
    if sent == [] then []
    else (if sent[0].UpdateBestTour? then [Report(sent[0].weight, sent[0].tour)] else []) + ReportsIn(sent[1..])
  }

  /** The wheel turns on a reply with one pair of words for each node that the ant may choose. */
  ghost predicate Turns(m: Member) {
    m.inbox != [] && m.ant.phase == 2 && m.inbox[0].Levels? && |m.inbox[0].parts| == 1 + 2 * |m.ant.potential|
  }

  /** The event can happen: any starting node on the map, and the choice that the wheel makes. */
  ghost predicate Enabled(n: nat, s: Swarm, e: Event) {
    match e
    case Hatch(id) => id !in s.members
    case Hear(id, start, random, choice) =>
      && id in s.members && s.members[id].inbox != [] && start < n
      && (Turns(s.members[id]) ==>
            Picks(s.members[id].inbox[0].parts, |s.members[id].ant.potential|, random, choice))
    case Serve(id, index) => id in s.members && index < |s.members[id].toMap|
  }

  function Without<T>(s: seq<T>, index: nat): seq<T>
    requires index < |s|
  {
    s[..index] + s[index + 1..]
  }

  /** What a message does to the map; an update of no edge is an exception, and changes nothing. */
  function AtMap(s: Swarm, x: ToMap): Swarm {
    match x
    case UpdateBestTour(w, tour) =>
      s.(search := OnReport(s.search, Report(w, tour)), received := s.received + [Report(w, tour)])
    case UpdatePheromone(i, j, keep, add) =>
      if (i, j) in s.levels then s.(levels := OnChange(s.levels, s.tau0, Evaporate(i, j, keep, add))) else s
    case _ => s
  }

  /** The ant after the map has taken a message from it: the reply, if there is one, is in its inbox. */
  function Served(weight: (nat, nat) -> real, levels: Levels, m: Member, index: nat): Member
    requires index < |m.toMap|
  {
    m.(toMap := Without(m.toMap, index), inbox := m.inbox + Replies(weight, LevelAt(levels), [m.toMap[index]]))
  }

  function OnServe(weight: (nat, nat) -> real, s: Swarm, id: nat, index: nat): Swarm
    requires id in s.members && index < |s.members[id].toMap|
  {
    var m := s.members[id];
    AtMap(s, m.toMap[index]).(members := s.members[id := Served(weight, s.levels, m, index)])
  }

  /** An ant takes a message; where the code would throw, nothing changes. */
  ghost function OnHear(s: Swarm, id: nat, start: nat, choice: nat): Swarm
    requires id in s.members && s.members[id].inbox != []
  {
    var m := s.members[id];
    if Ready(m.ant, m.inbox[0], start, choice) then
      var r := OnMessage(m.ant, m.inbox[0], start, choice);
      s.(members := s.members[id := Heard(m, r)], reports := s.reports + ReportsIn(r.toMap))
    else s
  }

  function Heard(m: Member, r: Reaction): Member
    requires m.inbox != []
  {
    Member(r.ant, m.inbox[1..] + r.toSelf, m.toMap + r.toMap, m.sent + r.toMap)
  }

  /** An ant that is told that the search is done stays idle. */
  ghost function Next(weight: (nat, nat) -> real, n: nat, s: Swarm, e: Event): Swarm
    requires Enabled(n, s, e)
  {
    match e
    case Hatch(id) =>
      if s.search.done then s else s.(members := s.members[id := Member(NEWBORN, [Size(n)], [], [])])
    case Hear(id, start, _, choice) => OnHear(s, id, start, choice)
    case Serve(id, index) => OnServe(weight, s, id, index)
  }

  ghost predicate PossibleRun(weight: (nat, nat) -> real, n: nat, s: Swarm, events: seq<Event>)
    decreases |events|
  {
    events == []
    || (Enabled(n, s, events[0]) && PossibleRun(weight, n, Next(weight, n, s, events[0]), events[1..]))
  }

  ghost function Run(weight: (nat, nat) -> real, n: nat, s: Swarm, events: seq<Event>): Swarm
    requires PossibleRun(weight, n, s, events)
    decreases |events|
  {
    if events == [] then s else Run(weight, n, Next(weight, n, s, events[0]), events[1..])
  }

  /** A map before its first ant. */
  function Fresh(n: nat, tau0: real): Swarm {
    Swarm(map[], map i: nat, j: nat | i < n && j < n :: (i, j) := tau0, tau0, FRESH, [], [])
  }

  // ---------- the invariant ----------

  /** The system of the ant alone, with the answer that the map would give now. */
  function Anticipated(weight: (nat, nat) -> real, levels: Levels, m: Member): System {
    System(m.ant, m.inbox + Replies(weight, LevelAt(levels), m.toMap), m.sent)
  }

  ghost predicate PositiveLevels(m: ToAnt) {
    m.Levels? ==> forall j :: 0 <= j && 2 * j + 1 < |m.parts| ==> m.parts[2 * j + 1] > 0.0
  }

  ghost predicate MemberInv(weight: (nat, nat) -> real, n: nat, levels: Levels, reports: seq<Report>, m: Member) {
    && AntTour.Inv(weight, n, Anticipated(weight, levels, m))
    && (forall x :: x in m.inbox ==> PositiveLevels(x))
    && (forall x :: x in m.toMap ==> x in m.sent)
    && (forall w, tour :: UpdateBestTour(w, tour) in m.sent ==> Report(w, tour) in reports)
  }

  ghost predicate RightReport(weight: (nat, nat) -> real, n: nat, r: Report) {
    ClosedTour(r.tour, n) && r.weight == PathWeight(weight, r.tour) > 0.0
  }

  ghost predicate MapInv(weight: (nat, nat) -> real, n: nat, s: Swarm) {
    && s.tau0 > 0.0
    && (forall i: nat, j: nat :: (i, j) in s.levels <==> i < n && j < n)
    && (forall r :: r in s.reports ==> RightReport(weight, n, r))
    && Lightest(s.reports) > 0.0 && Within(s.levels, Max(s.tau0, 1.0 / Lightest(s.reports)))
    && s.search == OnReports(FRESH, s.received)
    && (forall r :: r in s.received ==> r in s.reports)
  }

  ghost predicate Inv(weight: (nat, nat) -> real, n: nat, s: Swarm) {
    && MapInv(weight, n, s)
    && forall id :: id in s.members ==> MemberInv(weight, n, s.levels, s.reports, s.members[id])
  }

  // ---------- replies ----------

  lemma {:induction false} RepliesOfSum(weight: (nat, nat) -> real, pheromone: (nat, nat) -> real,
                                        xs: seq<ToMap>, ys: seq<ToMap>)
    ensures Replies(weight, pheromone, xs + ys) == Replies(weight, pheromone, xs) + Replies(weight, pheromone, ys)
  {
    if xs == [] {
      assert xs + ys == ys;
    } else {
      RepliesOfSum(weight, pheromone, xs[1..], ys);
      assert (xs + ys)[1..] == xs[1..] + ys && (xs + ys)[0] == xs[0];
      ReplyFirst(weight, pheromone, xs);
      ReplyFirst(weight, pheromone, xs + ys);
      SumsAssociate(Replies(weight, pheromone, [xs[0]]), Replies(weight, pheromone, xs[1..]),
                    Replies(weight, pheromone, ys));
    }
  }

  lemma {:induction false} ReplyFirst(weight: (nat, nat) -> real, pheromone: (nat, nat) -> real, xs: seq<ToMap>)
    requires xs != []
    ensures Replies(weight, pheromone, xs)
         == Replies(weight, pheromone, [xs[0]]) + Replies(weight, pheromone, xs[1..])
  {
    assert [xs[0]][1..] == [];
  }

  /** Taking one message out of those under way. */
  lemma {:induction false} RepliesWithout(weight: (nat, nat) -> real, pheromone: (nat, nat) -> real, xs: seq<ToMap>,
                                          index: nat)
    requires index < |xs|
    ensures Replies(weight, pheromone, xs)
         == Replies(weight, pheromone, xs[..index])
            + (Replies(weight, pheromone, [xs[index]]) + Replies(weight, pheromone, xs[index + 1..]))
    ensures Replies(weight, pheromone, Without(xs, index))
         == Replies(weight, pheromone, xs[..index]) + Replies(weight, pheromone, xs[index + 1..])
  {
    assert xs == xs[..index] + xs[index..];
    assert xs[index..][1..] == xs[index + 1..];
    RepliesOfSum(weight, pheromone, xs[..index], xs[index..]);
    ReplyFirst(weight, pheromone, xs[index..]);
    RepliesOfSum(weight, pheromone, xs[..index], xs[index + 1..]);
  }

  /** Replies that differ in the levels only. */
  ghost predicate Alike(x: ToAnt, y: ToAnt) {
    || x == y
    || (x.Levels? && y.Levels? && |x.parts| == |y.parts|
        && forall k :: 0 <= k && 2 * k + 2 < |x.parts| ==> x.parts[2 * k + 2] == y.parts[2 * k + 2])
  }

  ghost predicate AllAlike(xs: seq<ToAnt>, ys: seq<ToAnt>) {
    |xs| == |ys| && forall k :: 0 <= k < |xs| ==> Alike(xs[k], ys[k])
  }

  lemma {:induction false} RepliesAlike(weight: (nat, nat) -> real, p: (nat, nat) -> real, q: (nat, nat) -> real,
                                        xs: seq<ToMap>)
    ensures AllAlike(Replies(weight, p, xs), Replies(weight, q, xs))
  {
    if xs != [] {
      RepliesAlike(weight, p, q, xs[1..]);
      ReplyAlike(weight, p, q, xs[0]);
      ReplyFirst(weight, p, xs);
      ReplyFirst(weight, q, xs);
    }
  }

  lemma ReplyAlike(weight: (nat, nat) -> real, p: (nat, nat) -> real, q: (nat, nat) -> real, x: ToMap)
    ensures AllAlike(Replies(weight, p, [x]), Replies(weight, q, [x]))
  {
    ReplyTo(weight, p, x);
    ReplyTo(weight, q, x);
    if x.AskLevels? {
      var a, b := LevelWords(weight, p, x.from, x.to), LevelWords(weight, q, x.from, x.to);
      forall k | 0 <= k && 2 * k + 2 < |a| ensures a[2 * k + 2] == b[2 * k + 2] {
        assert a[2 * k + 2] == weight(x.from, x.to[k]);
      }
    }
  }

  /** The invariant of an ant does not look at the levels in its mail. */
  lemma InvAlike(weight: (nat, nat) -> real, n: nat, s: System, inbox: seq<ToAnt>)
    requires AntTour.Inv(weight, n, s) && AllAlike(s.inbox, inbox)
    ensures AntTour.Inv(weight, n, s.(inbox := inbox))
  {
    var t := s.(inbox := inbox);
    assert s.inbox != [] ==> Alike(s.inbox[0], inbox[0]);
    if s.inbox == [Size(n)] || inbox == [Size(n)] {
      assert inbox == s.inbox;
    } else if s.ant.phase == 3 {
      assert inbox == s.inbox;
    } else if s.ant.phase == 5 {
      var questions, tour :| Walking(weight, n, s, questions, tour);
      assert Walking(weight, n, t, questions, tour);
    }
  }

  /** Other levels and further reports leave an ant as it is. */
  lemma MemberStays(weight: (nat, nat) -> real, n: nat, levels: Levels, reports: seq<Report>, m: Member,
                    levels': Levels, more: seq<Report>)
    requires MemberInv(weight, n, levels, reports, m)
    ensures MemberInv(weight, n, levels', reports + more, m)
  {
    var s, t := Anticipated(weight, levels, m), Anticipated(weight, levels', m);
    RepliesAlike(weight, LevelAt(levels), LevelAt(levels'), m.toMap);
    InvAlike(weight, n, s, t.inbox);
    assert s.(inbox := t.inbox) == t;
  }

  // ---------- the map takes a message ----------

  lemma AtMostOne(weight: (nat, nat) -> real, n: nat, s: System)
    requires AntTour.Inv(weight, n, s)
    ensures |s.inbox| <= 1
  {
    if s.inbox != [Size(n)] && s.ant.phase == 5 {
      var questions, tour :| Walking(weight, n, s, questions, tour);
    }
  }

  /** A reply that was to come is there, and everything else of no account. */
  lemma ServedAsAnticipated(weight: (nat, nat) -> real, levels: Levels, m: Member, index: nat)
    requires index < |m.toMap| && |Anticipated(weight, levels, m).inbox| <= 1
    ensures Anticipated(weight, levels, Served(weight, levels, m, index)) == Anticipated(weight, levels, m)
  {
    var level := LevelAt(levels);
    RepliesWithout(weight, level, m.toMap, index);
    var before, reply, after := Replies(weight, level, m.toMap[..index]), Replies(weight, level, [m.toMap[index]]),
                                Replies(weight, level, m.toMap[index + 1..]);
    ShortSum(m.inbox, before, reply, after);
  }

  lemma ShortSum<T>(inbox: seq<T>, before: seq<T>, reply: seq<T>, after: seq<T>)
    requires |inbox + (before + (reply + after))| <= 1
    ensures inbox + reply + (before + after) == inbox + (before + (reply + after))
  {
    if reply != [] {
      assert inbox == [] && before == [] && after == [];
    } else {
      assert reply + after == after && inbox + reply == inbox;
    }
  }

  lemma WithoutMembers<T>(s: seq<T>, index: nat, x: T)
    requires index < |s| && x in Without(s, index)
    ensures x in s
  {
  }

  /** The map answers with positive levels. */
  lemma RepliesPositive(weight: (nat, nat) -> real, n: nat, levels: Levels, bound: real, question: ToMap)
    requires Within(levels, bound) && Answerable(n, question)
    requires forall i: nat, j: nat :: (i, j) in levels <==> i < n && j < n
    ensures forall x :: x in Replies(weight, LevelAt(levels), [question]) ==> PositiveLevels(x)
  {
    ReplyTo(weight, LevelAt(levels), question);
    if question.AskLevels? {
      var from, to := question.from, question.to;
      var parts := LevelWords(weight, LevelAt(levels), from, to);
      forall j | 0 <= j && 2 * j + 1 < |parts| ensures parts[2 * j + 1] > 0.0 {
        assert parts[2 * j + 1] == LevelAt(levels)(from, to[j]) && (from, to[j]) in levels;
      }
    }
  }

  /** An ant stays sound when the map takes a message from it. */
  lemma ServedMember(weight: (nat, nat) -> real, n: nat, s: Swarm, id: nat, index: nat)
    requires Inv(weight, n, s) && id in s.members && index < |s.members[id].toMap|
    ensures MemberInv(weight, n, s.levels, s.reports, Served(weight, s.levels, s.members[id], index))
  {
    var m := s.members[id];
    var question := m.toMap[index];
    var t := Anticipated(weight, s.levels, m);
    AtMostOne(weight, n, t);
    ServedAsAnticipated(weight, s.levels, m, index);
    assert question in m.sent;
    SentIsRight(weight, n, t, question);
    forall x | x in Without(m.toMap, index) ensures x in m.sent {
      WithoutMembers(m.toMap, index, x);
    }
    ReplyTo(weight, LevelAt(s.levels), question);
    if Answerable(n, question) {
      RepliesPositive(weight, n, s.levels, Max(s.tau0, 1.0 / Lightest(s.reports)), question);
    }
  }

  /** Everything else stays with the ant as it is. */
  lemma OthersStay(weight: (nat, nat) -> real, n: nat, s: Swarm, id: nat, m: Member, levels: Levels, more: seq<Report>)
    requires Inv(weight, n, s) && MemberInv(weight, n, levels, s.reports + more, m)
    ensures var members := s.members[id := m];
            forall k :: k in members ==> MemberInv(weight, n, levels, s.reports + more, members[k])
  {
    forall k | k in s.members ensures MemberInv(weight, n, levels, s.reports + more, s.members[k]) {
      MemberStays(weight, n, s.levels, s.reports, s.members[k], levels, more);
    }
  }

  /** An update by an ant is one of the inverse weight of a reported tour, and keeps the bounds. */
  lemma UpdateKeepsBounds(weight: (nat, nat) -> real, n: nat, s: Swarm, id: nat, c: Change)
    requires Inv(weight, n, s) && id in s.members && c.Evaporate?
    requires UpdatePheromone(c.i, c.j, c.keep, c.add) in s.members[id].sent
    ensures (c.i, c.j) in s.levels && FromAnt(c, s.reports)
    ensures Within(OnChange(s.levels, s.tau0, c), Max(s.tau0, 1.0 / Lightest(s.reports)))
  {
    var m := s.members[id];
    SentIsRight(weight, n, Anticipated(weight, s.levels, m), UpdatePheromone(c.i, c.j, c.keep, c.add));
    var w, tour :| UpdateAfter(n, m.sent, c.i, c.j, c.keep, c.add, w, tour);
    assert Report(w, tour) in s.reports && ByTour(c.add, Report(w, tour));
    LightestIs(s.reports);
    ChangeWithin(s.levels, s.tau0, c, s.reports, Lightest(s.reports));
  }

  lemma AtMapInv(weight: (nat, nat) -> real, n: nat, s: Swarm, id: nat, x: ToMap)
    requires Inv(weight, n, s) && id in s.members && x in s.members[id].sent
    ensures MapInv(weight, n, AtMap(s, x))
  {
    var t := AtMap(s, x);
    match x
    case UpdatePheromone(i, j, keep, add) =>
      UpdateKeepsBounds(weight, n, s, id, Evaporate(i, j, keep, add));
    case UpdateBestTour(w, tour) =>
      assert t.received[..|t.received| - 1] == s.received;
    case _ =>
  }

  lemma ServeInv(weight: (nat, nat) -> real, n: nat, s: Swarm, id: nat, index: nat)
    requires Inv(weight, n, s) && id in s.members && index < |s.members[id].toMap|
    ensures Inv(weight, n, OnServe(weight, s, id, index))
  {
    var m := s.members[id];
    var x, served := m.toMap[index], Served(weight, s.levels, m, index);
    AtMapInv(weight, n, s, id, x);
    ServedMember(weight, n, s, id, index);
    var levels := AtMap(s, x).levels;
    assert s.reports + [] == s.reports;
    MemberStays(weight, n, s.levels, s.reports, served, levels, []);
    OthersStay(weight, n, s, id, served, levels, []);
  }

  // ---------- an ant takes a message ----------

  lemma HeardAsAlone(weight: (nat, nat) -> real, levels: Levels, m: Member, start: nat, choice: nat)
    requires m.inbox != [] && Ready(m.ant, m.inbox[0], start, choice)
    requires |Anticipated(weight, levels, m).inbox| <= 1
    ensures var r := OnMessage(m.ant, m.inbox[0], start, choice);
            var s, c := Anticipated(weight, levels, m), Chance(start, choice, LevelAt(levels));
            AntTour.Possible(s, c) && Anticipated(weight, levels, Heard(m, r)) == AntTour.Step(weight, s, c)
  {
    var r := OnMessage(m.ant, m.inbox[0], start, choice);
    var level := LevelAt(levels);
    assert Replies(weight, level, m.toMap) == [];
    assert m.inbox + [] == m.inbox;
    RepliesOfSum(weight, level, m.toMap, r.toMap);
    assert Replies(weight, level, m.toMap + r.toMap) == Replies(weight, level, r.toMap);
  }

  /** Whatever the wheel picks, an ant can take its next message. */
  lemma AlwaysReady(weight: (nat, nat) -> real, n: nat, levels: Levels, reports: seq<Report>, m: Member,
                    start: nat, random: real, choice: nat)
    requires n >= 2 && MemberInv(weight, n, levels, reports, m) && m.inbox != [] && start < n
    requires Turns(m) ==> Picks(m.inbox[0].parts, |m.ant.potential|, random, choice)
    ensures Ready(m.ant, m.inbox[0], start, choice)
  {
    var s := Anticipated(weight, levels, m);
    AtMostOne(weight, n, s);
    assert s.inbox[0] == m.inbox[0];
    NeverStuck(weight, n, s);
    if s.inbox != [Size(n)] && m.ant.phase == 2 {
      assert Moving(weight, n, s);
    }
    assert AntTour.Possible(s, Chance(start, choice, LevelAt(levels)));
  }

  lemma {:induction false} ReportsAre(sent: seq<ToMap>)
    ensures forall w, tour :: UpdateBestTour(w, tour) in sent <==> Report(w, tour) in ReportsIn(sent)
  {
    if sent != [] {
      ReportsAre(sent[1..]);
    }
  }

  /** The bound only widens with more reports. */
  lemma {:induction false} MoreReports(levels: Levels, tau0: real, reports: seq<Report>, more: seq<Report>)
    requires Lightest(reports) > 0.0 && Within(levels, Max(tau0, 1.0 / Lightest(reports)))
    requires forall r :: r in more ==> r.weight > 0.0
    requires forall r :: r in reports ==> r.weight > 0.0
    ensures Lightest(reports + more) > 0.0
    ensures Within(levels, Max(tau0, 1.0 / Lightest(reports + more)))
  {
    LightestIs(reports);
    LightestIs(reports + more);
    Inverses(Lightest(reports + more), Lightest(reports));
  }

  lemma ToSelfIs(a: Ant, m: ToAnt, start: nat, choice: nat)
    requires Ready(a, m, start, choice)
    ensures forall x :: x in OnMessage(a, m, start, choice).toSelf ==> x == m || x == Nudge
  {
  }

  lemma HeardInv(weight: (nat, nat) -> real, n: nat, levels: Levels, m: Member, start: nat, choice: nat)
    requires n >= 2 && PositiveTours(weight, n) && AntTour.Inv(weight, n, Anticipated(weight, levels, m))
    requires m.inbox != [] && Ready(m.ant, m.inbox[0], start, choice)
    ensures AntTour.Inv(weight, n, Anticipated(weight, levels, Heard(m, OnMessage(m.ant, m.inbox[0], start, choice))))
  {
    AtMostOne(weight, n, Anticipated(weight, levels, m));
    HeardAsAlone(weight, levels, m, start, choice);
    StepInv(weight, n, Anticipated(weight, levels, m), Chance(start, choice, LevelAt(levels)));
  }

  lemma HeardMember(weight: (nat, nat) -> real, n: nat, s: Swarm, id: nat, start: nat, random: real, choice: nat)
    requires n >= 2 && PositiveTours(weight, n) && Inv(weight, n, s) && Enabled(n, s, Hear(id, start, random, choice))
    ensures var m := s.members[id];
            && Ready(m.ant, m.inbox[0], start, choice)
            && var r := OnMessage(m.ant, m.inbox[0], start, choice);
               MemberInv(weight, n, s.levels, s.reports + ReportsIn(r.toMap), Heard(m, r))
  {
    var m := s.members[id];
    AlwaysReady(weight, n, s.levels, s.reports, m, start, random, choice);
    HeardInv(weight, n, s.levels, m, start, choice);
    ToSelfIs(m.ant, m.inbox[0], start, choice);
    ReportsAre(OnMessage(m.ant, m.inbox[0], start, choice).toMap);
  }

  lemma HearInv(weight: (nat, nat) -> real, n: nat, s: Swarm, id: nat, start: nat, random: real, choice: nat)
    requires n >= 2 && PositiveTours(weight, n) && Inv(weight, n, s) && Enabled(n, s, Hear(id, start, random, choice))
    ensures Inv(weight, n, OnHear(s, id, start, choice))
  {
    var m := s.members[id];
    HeardMember(weight, n, s, id, start, random, choice);
    var r := OnMessage(m.ant, m.inbox[0], start, choice);
    var heard, more := Heard(m, r), ReportsIn(r.toMap);
    OthersStay(weight, n, s, id, heard, s.levels, more);
    ReportsAre(r.toMap);
    forall x | x in more ensures RightReport(weight, n, x) {
      assert UpdateBestTour(x.weight, x.tour) in heard.sent;
      SentIsRight(weight, n, Anticipated(weight, s.levels, heard), UpdateBestTour(x.weight, x.tour));
    }
    MoreReports(s.levels, s.tau0, s.reports, more);
  }

  lemma HatchInv(weight: (nat, nat) -> real, n: nat, s: Swarm, id: nat)
    requires Inv(weight, n, s)
    ensures Inv(weight, n, s.(members := s.members[id := Member(NEWBORN, [Size(n)], [], [])]))
  {
    var m := Member(NEWBORN, [Size(n)], [], []);
    assert Anticipated(weight, s.levels, m) == Born(n);
  }

  // ---------- whole runs ----------

  lemma NextInv(weight: (nat, nat) -> real, n: nat, s: Swarm, e: Event)
    requires n >= 2 && PositiveTours(weight, n) && Inv(weight, n, s) && Enabled(n, s, e)
    ensures Inv(weight, n, Next(weight, n, s, e))
  {
    match e
    case Hatch(id) => HatchInv(weight, n, s, id);
    case Hear(id, start, random, choice) => HearInv(weight, n, s, id, start, random, choice);
    case Serve(id, index) => ServeInv(weight, n, s, id, index);
  }

  lemma {:induction false} RunInv(weight: (nat, nat) -> real, n: nat, s: Swarm, events: seq<Event>)
    requires n >= 2 && PositiveTours(weight, n) && Inv(weight, n, s) && PossibleRun(weight, n, s, events)
    ensures Inv(weight, n, Run(weight, n, s, events))
    decreases |events|
  {
    if events != [] {
      NextInv(weight, n, s, events[0]);
      RunInv(weight, n, Next(weight, n, s, events[0]), events[1..]);
    }
  }

  /** The ant has ended; or one message waits for it, or will when the map gets to its question; and a
      reply on levels is one that turns the wheel. */
  ghost predicate Alive(weight: (nat, nat) -> real, levels: Levels, m: Member) {
    && (m.ant.phase == 6 <==> m.inbox + Replies(weight, LevelAt(levels), m.toMap) == [])
    && |m.inbox + Replies(weight, LevelAt(levels), m.toMap)| <= 1
    && (m.ant.phase == 2 && m.inbox != [] ==>
          m.inbox[0].Levels? && Offer(m.inbox[0].parts, |m.ant.potential|))
  }

  lemma MemberAlive(weight: (nat, nat) -> real, n: nat, levels: Levels, reports: seq<Report>, m: Member)
    requires n >= 2 && MemberInv(weight, n, levels, reports, m)
    requires forall i: nat, j: nat :: i < n && j < n ==> weight(i, j) >= 0.0
    ensures Alive(weight, levels, m)
  {
    var s := Anticipated(weight, levels, m);
    AtMostOne(weight, n, s);
    PhaseSix(weight, n, s);
    if m.ant.phase == 2 && m.inbox != [] {
      assert s.inbox[0] == m.inbox[0] && m.inbox[0] in m.inbox;
      OfferInbox(weight, n, s);
    }
  }

  lemma PhaseSix(weight: (nat, nat) -> real, n: nat, s: System)
    requires AntTour.Inv(weight, n, s)
    ensures s.ant.phase == 6 <==> s.inbox == []
  {
    if s.inbox != [Size(n)] && s.ant.phase == 5 {
      var questions, tour :| Walking(weight, n, s, questions, tour);
    }
  }

  lemma OfferInbox(weight: (nat, nat) -> real, n: nat, s: System)
    requires n >= 2 && AntTour.Inv(weight, n, s) && s.ant.phase == 2 && s.inbox != [] && PositiveLevels(s.inbox[0])
    requires forall i: nat, j: nat :: i < n && j < n ==> weight(i, j) >= 0.0
    ensures s.inbox[0].Levels? && Offer(s.inbox[0].parts, |s.ant.potential|)
  {
    assert Moving(weight, n, s);
    var a, parts := s.ant, s.inbox[0].parts;
    SomeUnvisited(a.tour, n);
    forall j | 1 <= j <= |a.potential| ensures parts[2 * j - 1] > 0.0 && parts[2 * j] >= 0.0 {
      var k := j - 1;
      assert 2 * k + 1 < |parts| && a.potential[k] in a.potential && a.pos in a.tour;
      assert parts[2 * k + 1] > 0.0 && parts[2 * k + 2] == weight(a.pos, a.potential[k]);
    }
  }

  /** All levels are positive, and at most the larger of the initial level and the inverse of the lightest
      reported tour; every reported tour is a closed tour with its weight; every ant that has not ended
      has exactly one message to come, and every reply turns the wheel. */
  ghost predicate AllRight(weight: (nat, nat) -> real, n: nat, tau0: real, s: Swarm) {
    && Lightest(s.reports) > 0.0
    && (forall i: nat, j: nat :: (i, j) in s.levels <==> i < n && j < n)
    && (forall e :: e in s.levels ==> 0.0 < s.levels[e] <= Max(tau0, 1.0 / Lightest(s.reports)))
    && (forall r :: r in s.reports ==> RightReport(weight, n, r))
    && (forall id :: id in s.members ==> Alive(weight, s.levels, s.members[id]))
  }

  /** So it is in every state that a map with any number of ants can reach. */
  lemma {:induction false} SwarmIsRight(weight: (nat, nat) -> real, n: nat, tau0: real, events: seq<Event>)
    requires n >= 2 && tau0 > 0.0 && PositiveTours(weight, n) && PossibleRun(weight, n, Fresh(n, tau0), events)
    requires forall i: nat, j: nat :: i < n && j < n ==> weight(i, j) >= 0.0
    ensures AllRight(weight, n, tau0, Run(weight, n, Fresh(n, tau0), events))
  {
    RunInv(weight, n, Fresh(n, tau0), events);
    Tau0Stays(weight, n, Fresh(n, tau0), events);
    var s := Run(weight, n, Fresh(n, tau0), events);
    forall id | id in s.members ensures Alive(weight, s.levels, s.members[id]) {
      MemberAlive(weight, n, s.levels, s.reports, s.members[id]);
    }
  }

  /** In particular on every map whose nodes are not all in one place, from the level that it starts with. */
  lemma {:induction false} RightOnEveryMap(weight: (nat, nat) -> real, n: nat, events: seq<Event>)
    requires n >= 2 && Distance(weight, n) && Apart(weight, n)
    ensures AllSum(weight, n, n) != 0.0
    ensures var tau0 := 1.0 / AllSum(weight, n, n);
            PossibleRun(weight, n, Fresh(n, tau0), events) ==>
              AllRight(weight, n, tau0, Run(weight, n, Fresh(n, tau0), events))
  {
    ToursPositiveIffApart(weight, n);
    InitialLevelIffApart(weight, n);
    var tau0 := 1.0 / AllSum(weight, n, n);
    if PossibleRun(weight, n, Fresh(n, tau0), events) {
      SwarmIsRight(weight, n, tau0, events);
    }
  }

  lemma {:induction false} Tau0Stays(weight: (nat, nat) -> real, n: nat, s: Swarm, events: seq<Event>)
    requires PossibleRun(weight, n, s, events)
    ensures Run(weight, n, s, events).tau0 == s.tau0
    decreases |events|
  {
    if events != [] {
      Tau0Stays(weight, n, Next(weight, n, s, events[0]), events[1..]);
    }
  }

  /** The tour that the map holds best, if it has accepted any, is a closed tour, counted from one, of
      exactly the best weight; and no accepted report was lighter. */
  lemma {:induction false} BestIsRight(weight: (nat, nat) -> real, n: nat, tau0: real, events: seq<Event>)
    requires n >= 2 && tau0 > 0.0 && PositiveTours(weight, n) && PossibleRun(weight, n, Fresh(n, tau0), events)
    ensures var s := Run(weight, n, Fresh(n, tau0), events);
            var accepted := s.received[..Accepted(s.received)];
            && (s.search.bestTour != [] ==> exists tour ::
                  ClosedTour(tour, n) && s.search.bestTour == FromOne(tour)
                  && s.search.bestWeight == PathWeight(weight, tour))
            && (forall r :: r in accepted ==> s.search.bestWeight <= r.weight)
  {
    RunInv(weight, n, Fresh(n, tau0), events);
    var s := Run(weight, n, Fresh(n, tau0), events);
    var accepted := s.received[..Accepted(s.received)];
    BestOfAccepted(s.received);
    LightestIs(accepted);
    if s.search.bestTour != [] {
      var r :| r in accepted && r.weight == s.search.bestWeight && s.search.bestTour == FromOne(r.tour);
      assert r in s.received && RightReport(weight, n, r);
    }
  }
}
