/** The superstep barrier: agents register and deregister, the barrier signals a superstep to all
    registered agents and waits until each has completed it or gone; a timeout asks who is alive. */
module Barrier {

  import opened Sequences

  type AID = string

  datatype State = State(superstep: nat, registered: set<AID>, processing: set<AID>)

  datatype Incoming =
    | Subscribe(aid: AID)
    | Cancel(aid: AID)
    | Inform(aid: AID)
    | Timeout(counter: nat, alive: set<AID>, order: seq<AID>)
    | Other

  /** Posted messages: a superstep for agents, or a timeout that comes back to the barrier. */
  datatype Outgoing = Signal(receivers: set<AID>, counter: nat) | Alarm(counter: nat)

  datatype Reaction = Reaction(state: State, posted: seq<Outgoing>)

  const START := State(0, {}, {})

  /** A new superstep for everybody, with its alarm, when nobody is left to wait for. */
  function NextIfPossible(b: State): Reaction {
    if b.processing == {} && b.registered != {} then
      var n := b.superstep + 1;
      Reaction(State(n, b.registered, b.registered), [Signal(b.registered, n), Alarm(n)])
    else Reaction(b, [])
  }

  /** The agents in the order in which the iterator meets them: a living one has the superstep
      signalled again, to all agents still in the processing set; a dead one is removed from it. */
  function Filter(processing: set<AID>, order: seq<AID>, alive: set<AID>, n: nat): (seq<Outgoing>, set<AID>)
    decreases |order|
  {
    if order == [] then ([], processing)
    else if order[0] in alive then
      var rest := Filter(processing, order[1..], alive, n);
      ([Signal(processing, n)] + rest.0, rest.1)
    else Filter(processing - {order[0]}, order[1..], alive, n)
  }

  /** order lists the elements of s, each once. */
  ghost predicate Enumerates(order: seq<AID>, s: set<AID>) {
    && Distinct(order)
    && (forall a :: a in order <==> a in s)
  }

  function Handle(b: State, m: Incoming): Reaction {
    match m
    case Subscribe(aid) => NextIfPossible(b.(registered := b.registered + {aid}))
    case Cancel(aid) =>
      var c := State(b.superstep, b.registered - {aid}, b.processing - {aid});
      if aid in b.processing then NextIfPossible(c) else Reaction(c, [])
    case Inform(aid) => NextIfPossible(b.(processing := b.processing - {aid}))
    case Timeout(counter, alive, order) =>
      if counter == b.superstep then
        var f := Filter(b.processing, order, alive, b.superstep);
        var next := NextIfPossible(b.(processing := f.1));
        Reaction(next.state, f.0 + if next.posted != [] then next.posted else [Alarm(b.superstep)])
      else Reaction(b, [])
    case Other => Reaction(b, [])
  }

  // ---------- the barrier as the program updates it ----------

  class BarrierBean {
    var superstep: nat
    var registered: set<AID>
    var processing: set<AID>
    var outbox: seq<Outgoing>

    ghost function Now(): State
      reads this
    {
      State(superstep, registered, processing)
    }

    /** The reaction r was performed since the outbox was posted0. */
    ghost predicate Performed(r: Reaction, posted0: seq<Outgoing>)
      reads this
    {
      Now() == r.state && outbox == posted0 + r.posted
    }

    constructor ()
      ensures Now() == START && outbox == []
    {
      superstep, registered, processing, outbox := 0, {}, {}, [];
    }

    method RegisterAgent(aid: AID)
      modifies this
      ensures Performed(Handle(old(Now()), Subscribe(aid)), old(outbox))
    {
      registered := registered + {aid};
      var _ := NextSuperstepIfPossible();
    }

    method DeregisterAgent(aid: AID)
      modifies this
      ensures Performed(Handle(old(Now()), Cancel(aid)), old(outbox))
    {
      registered := registered - {aid};
      var removed := aid in processing;
      processing := processing - {aid};
      if removed {
        var _ := NextSuperstepIfPossible();
      }
    }

    method AgentCompletedSuperstep(aid: AID)
      modifies this
      ensures Performed(Handle(old(Now()), Inform(aid)), old(outbox))
    {
      processing := processing - {aid};
      var _ := NextSuperstepIfPossible();
    }

    /** alive answers the pings; the result is the order in which the agents were asked. */
    method OnTimeout(counter: nat, alive: set<AID>) returns (ghost order: seq<AID>)
      modifies this
      ensures Enumerates(order, if counter == old(superstep) then old(processing) else {})
      ensures Performed(Handle(old(Now()), Timeout(counter, alive, order)), old(outbox))
    {
      order := [];
      if counter == superstep {
        order := FilterUnavailableAgents(alive);
        var proceeded := NextSuperstepIfPossible();
        if !proceeded {
          ScheduleTimeout();
        }
      }
    }

    method NextSuperstepIfPossible() returns (proceeded: bool)
      modifies this
      ensures Performed(NextIfPossible(old(Now())), old(outbox))
      ensures proceeded <==> NextIfPossible(old(Now())).posted != []
    {
      if processing == {} && registered != {} {
        processing := processing + registered;
        SignalSuperstep(superstep + 1);
        ScheduleTimeout();
        return true;
      }
      return false;
    }

    /** The receivers are always the agents in the processing set. */
    method SignalSuperstep(n: nat)
      modifies this`superstep, this`outbox
      ensures superstep == n && outbox == old(outbox) + [Signal(processing, n)]
    {
      superstep := n;
      outbox := outbox + [Signal(processing, superstep)];
    }

    method ScheduleTimeout()
      modifies this`outbox
      ensures outbox == old(outbox) + [Alarm(superstep)]
    {
      outbox := outbox + [Alarm(superstep)];
    }

    method FilterUnavailableAgents(alive: set<AID>) returns (ghost order: seq<AID>)
      modifies this`superstep, this`processing, this`outbox
      ensures Enumerates(order, old(processing))
      ensures superstep == old(superstep)
      ensures var f := Filter(old(processing), order, alive, superstep);
              processing == f.1 && outbox == old(outbox) + f.0
    {
      order := [];
      var left := processing;
      while left != {}
        invariant Enumerates(order, old(processing) - left) && left <= old(processing)
        invariant superstep == old(superstep)
        invariant var f := Filter(old(processing), order, alive, superstep);
                  processing == f.1 && outbox == old(outbox) + f.0
        decreases left
      {
        var aid :| aid in left;
        left := left - {aid};
        FilterSnoc(old(processing), order, alive, superstep, aid);
        order := order + [aid];
        if aid in alive {
          SignalSuperstep(superstep);
        } else {
          processing := processing - {aid};
        }
      }
    }
  }

  /** One more agent asked. */
  lemma {:induction false} FilterSnoc(processing: set<AID>, order: seq<AID>, alive: set<AID>, n: nat, aid: AID)
    ensures var f, g := Filter(processing, order, alive, n), Filter(processing, order + [aid], alive, n);
            g == if aid in alive then (f.0 + [Signal(f.1, n)], f.1) else (f.0, f.1 - {aid})
    decreases |order|
  {
    if order == [] {
      assert order + [aid] == [aid] && [aid][1..] == [];
      var signal: Outgoing := Signal(processing, n);
      assert [signal] + [] == [signal] == [] + [signal];
    } else {
      var longer := order + [aid];
      assert longer[0] == order[0] && longer[1..] == order[1..] + [aid];
      if order[0] in alive {
        FilterSnoc(processing, order[1..], alive, n, aid);
        var rest := Filter(processing, order[1..], alive, n);
        assert [Signal(processing, n)] + (rest.0 + [Signal(rest.1, n)])
            == [Signal(processing, n)] + rest.0 + [Signal(rest.1, n)];
      } else {
        FilterSnoc(processing - {order[0]}, order[1..], alive, n, aid);
      }
    }
  }

  /** The living remain. */
  lemma {:induction false} FilterKeepsAlive(processing: set<AID>, order: seq<AID>, alive: set<AID>, n: nat)
    ensures var f := Filter(processing, order, alive, n);
            && f.1 == processing - (set a | a in order && a !in alive)
            && forall m :: m in f.0 ==> m.Signal? && m.counter == n && f.1 <= m.receivers <= processing
    decreases |order|
  {
    if order != [] {
      var p := if order[0] in alive then processing else processing - {order[0]};
      FilterKeepsAlive(p, order[1..], alive, n);
      assert (set a | a in order && a !in alive)
          == (if order[0] in alive then {} else {order[0]}) + (set a | a in order[1..] && a !in alive);
    }
  }

  // ---------- the barrier with its alarms ----------

  /** The alarms that are posted and not fired yet. */
  datatype Clocked = Clocked(b: State, alarms: multiset<nat>)

  function Alarms(posted: seq<Outgoing>): multiset<nat> {
    if posted == [] then multiset{}
    else if posted[0].Alarm? then multiset{posted[0].counter} + Alarms(posted[1..])
    else Alarms(posted[1..])
  }

  /** Any message reaches the barrier; a timeout is one of the outstanding alarms. */
  ghost predicate Possible(c: Clocked, m: Incoming) {
    m.Timeout? ==>
      m.counter in c.alarms && (m.counter == c.b.superstep ==> Enumerates(m.order, c.b.processing))
  }

  function Receive(c: Clocked, m: Incoming): Clocked {
    var r := Handle(c.b, m);
    var fired := if m.Timeout? then multiset{m.counter} else multiset{};
    Clocked(r.state, c.alarms - fired + Alarms(r.posted))
  }

  ghost predicate PossibleRun(c: Clocked, ms: seq<Incoming>)
    decreases |ms|
  {
    ms == [] || (Possible(c, ms[0]) && PossibleRun(Receive(c, ms[0]), ms[1..]))
  }

  function ReceiveAll(c: Clocked, ms: seq<Incoming>): Clocked
    decreases |ms|
  {
    if ms == [] then c else ReceiveAll(Receive(c, ms[0]), ms[1..])
  }

  /** The members are consistent, and once started exactly one alarm carries the current superstep;
      all others are of the past. */
  ghost predicate Inv(c: Clocked) {
    && c.b.processing <= c.b.registered
    && (c.b.processing == {} <==> c.b.registered == {})
    && (c.b.superstep == 0 ==> c.b.registered == {} && c.alarms == multiset{})
    && (c.b.superstep > 0 ==> c.alarms[c.b.superstep] == 1)
    && (forall n :: n in c.alarms ==> n <= c.b.superstep)
  }

  /** The superstep grows by one exactly when the processing set is filled from the registered one;
      otherwise both the superstep stays and nobody is added to the processing set. */
  ghost predicate Advances(b: State, b': State) {
    || (b'.superstep == b.superstep + 1 && b'.processing == b'.registered != {})
    || (b'.superstep == b.superstep && b'.processing <= b.processing)
  }

  /** Signals before a message list do not change which alarms it asks for. */
  lemma {:induction false} SignalsFirst(signals: seq<Outgoing>, posted: seq<Outgoing>)
    requires forall m :: m in signals ==> m.Signal?
    ensures Alarms(signals + posted) == Alarms(posted)
  {
    if signals == [] {
      assert signals + posted == posted;
    } else {
      assert signals[0] in signals;
      SignalsFirst(signals[1..], posted);
      assert (signals + posted)[1..] == signals[1..] + posted;
    }
  }

  lemma NextAlarms(b: State)
    ensures var r := NextIfPossible(b);
            if r.posted == [] then r.state == b && Alarms(r.posted) == multiset{}
            else r.state.superstep == b.superstep + 1 && Alarms(r.posted) == multiset{b.superstep + 1}
  {
    var n := b.superstep + 1;
    var posted := [Signal(b.registered, n), Alarm(n)];
    assert posted[1..] == [Alarm(n)] && [Alarm(n)][1..] == [];
    assert Alarms([Alarm(n)]) == multiset{n};
  }

  /** After filtering: a new superstep posts its own alarm, and otherwise the old alarm is posted again. */
  lemma FilteredAlarms(b: State, signals: seq<Outgoing>)
    requires forall m :: m in signals ==> m.Signal?
    ensures var next := NextIfPossible(b);
            Alarms(signals + if next.posted != [] then next.posted else [Alarm(b.superstep)])
            == multiset{next.state.superstep}
  {
    var next := NextIfPossible(b);
    NextAlarms(b);
    assert [Alarm(b.superstep)][1..] == [];
    SignalsFirst(signals, if next.posted != [] then next.posted else [Alarm(b.superstep)]);
  }

  /** The timeout handler, in terms of the members that remain and the one alarm it posts. */
  lemma TimeoutReaction(b: State, alive: set<AID>, order: seq<AID>)
    requires Enumerates(order, b.processing)
    ensures var r := Handle(b, Timeout(b.superstep, alive, order));
            var next := NextIfPossible(b.(processing := b.processing * alive));
            && r.state == next.state
            && Alarms(r.posted) == multiset{r.state.superstep}
  {
    var f := Filter(b.processing, order, alive, b.superstep);
    FilterKeepsAlive(b.processing, order, alive, b.superstep);
    assert f.1 == b.processing * alive;
    FilteredAlarms(b.(processing := f.1), f.0);
  }

  lemma SubscribeInv(c: Clocked, aid: AID)
    requires Inv(c)
    ensures Inv(Receive(c, Subscribe(aid))) && Advances(c.b, Receive(c, Subscribe(aid)).b)
  {
    NextAlarms(c.b.(registered := c.b.registered + {aid}));
  }

  lemma InformInv(c: Clocked, aid: AID)
    requires Inv(c)
    ensures Inv(Receive(c, Inform(aid))) && Advances(c.b, Receive(c, Inform(aid)).b)
  {
    NextAlarms(c.b.(processing := c.b.processing - {aid}));
  }

  lemma CancelInv(c: Clocked, aid: AID)
    requires Inv(c)
    ensures Inv(Receive(c, Cancel(aid))) && Advances(c.b, Receive(c, Cancel(aid)).b)
  {
    var b := State(c.b.superstep, c.b.registered - {aid}, c.b.processing - {aid});
    NextAlarms(b);
  }

  lemma TimeoutInv(c: Clocked, counter: nat, alive: set<AID>, order: seq<AID>)
    requires Inv(c) && Possible(c, Timeout(counter, alive, order))
    ensures var m := Timeout(counter, alive, order);
            Inv(Receive(c, m)) && Advances(c.b, Receive(c, m).b)
  {
    if counter == c.b.superstep {
      TimeoutReaction(c.b, alive, order);
      NextAlarms(c.b.(processing := c.b.processing * alive));
    }
  }

  lemma ReceiveInv(c: Clocked, m: Incoming)
    requires Inv(c) && Possible(c, m)
    ensures Inv(Receive(c, m)) && Advances(c.b, Receive(c, m).b)
  {
    match m
    case Subscribe(aid) => SubscribeInv(c, aid);
    case Cancel(aid) => CancelInv(c, aid);
    case Inform(aid) => InformInv(c, aid);
    case Timeout(counter, alive, order) => TimeoutInv(c, counter, alive, order);
    case Other =>
  }

  /** For any messages and any answers to the pings. */
  lemma {:induction false} BarrierInvariant(c: Clocked, ms: seq<Incoming>)
    requires Inv(c) && PossibleRun(c, ms)
    ensures Inv(ReceiveAll(c, ms))
    decreases |ms|
  {
    if ms != [] {
      ReceiveInv(c, ms[0]);
      BarrierInvariant(Receive(c, ms[0]), ms[1..]);
    }
  }

  lemma {:induction false} SingleLiveAlarm(ms: seq<Incoming>, m: Incoming)
    requires PossibleRun(Clocked(START, multiset{}), ms)
    ensures var c := ReceiveAll(Clocked(START, multiset{}), ms);
            Inv(c) && (Possible(c, m) ==> Advances(c.b, Receive(c, m).b))
  {
    BarrierInvariant(Clocked(START, multiset{}), ms);
    var c := ReceiveAll(Clocked(START, multiset{}), ms);
    if Possible(c, m) {
      ReceiveInv(c, m);
    }
  }

  // ---------- when exactly the barrier moves on ----------

  /** A registration starts a superstep exactly when it is the first one; a departure and a completion
      exactly when they are the last ones that the barrier waited for, and somebody is left. */
  lemma AdvancesExactly(c: Clocked, aid: AID)
    requires Inv(c)
    ensures var b := Handle(c.b, Subscribe(aid)).state;
            && b.registered == c.b.registered + {aid}
            && (if c.b.registered == {} then b.superstep == c.b.superstep + 1 && b.processing == {aid}
                else b.superstep == c.b.superstep && b.processing == c.b.processing)
    ensures var b := Handle(c.b, Cancel(aid)).state;
            && b.registered == c.b.registered - {aid}
            && (if c.b.processing == {aid} != c.b.registered
                then b.superstep == c.b.superstep + 1 && b.processing == b.registered
                else b.superstep == c.b.superstep && b.processing == c.b.processing - {aid})
    ensures var b := Handle(c.b, Inform(aid)).state;
            && b.registered == c.b.registered
            && (if c.b.processing == {aid}
                then b.superstep == c.b.superstep + 1 && b.processing == b.registered
                else b.superstep == c.b.superstep && b.processing == c.b.processing - {aid})
  {
    var p := c.b.processing;
    assert p - {aid} == {} <==> p == {} || p == {aid};
  }

  /** A timeout of the current superstep drops exactly the dead, and starts a superstep exactly when
      nobody that the barrier waited for is alive. */
  lemma TimeoutExactly(c: Clocked, alive: set<AID>, order: seq<AID>)
    requires Inv(c) && Enumerates(order, c.b.processing)
    ensures var b := Handle(c.b, Timeout(c.b.superstep, alive, order)).state;
            && b.registered == c.b.registered
            && (if c.b.processing != {} && c.b.processing * alive == {}
                then b.superstep == c.b.superstep + 1 && b.processing == b.registered
                else b.superstep == c.b.superstep && b.processing == c.b.processing * alive)
  {
    TimeoutReaction(c.b, alive, order);
  }

  /** A timeout of the past, and any other message, leaves the barrier as it is and posts nothing. */
  lemma Ignored(b: State, n: nat, alive: set<AID>, order: seq<AID>)
    requires n != b.superstep
    ensures Handle(b, Timeout(n, alive, order)) == Reaction(b, [])
    ensures Handle(b, Other) == Reaction(b, [])
  {
  }

  /** The agent has completed its superstep, or left. */
  predicate Completes(m: Incoming, aid: AID) {
    (m.Inform? || m.Cancel?) && m.aid == aid
  }

  /** Progress: once everybody that the barrier waits for has completed or left, in any order and with any
      other messages between, the superstep has grown, unless nobody is registered. */
  lemma {:induction false} SuperstepEnds(c: Clocked, ms: seq<Incoming>)
    requires Inv(c) && PossibleRun(c, ms)
    requires forall aid :: aid in c.b.processing ==> exists m :: m in ms && Completes(m, aid)
    ensures ReceiveAll(c, ms).b.superstep > c.b.superstep || ReceiveAll(c, ms).b.registered == {}
    decreases |ms|
  {
    if ms != [] {
      var d := Receive(c, ms[0]);
      ReceiveInv(c, ms[0]);
      if d.b.superstep == c.b.superstep {
        CompletedIsDone(c, ms[0]);
        forall aid | aid in d.b.processing ensures exists m :: m in ms[1..] && Completes(m, aid) {
          var m :| m in ms && Completes(m, aid);
          assert m != ms[0];
        }
        SuperstepEnds(d, ms[1..]);
      } else {
        SuperstepGrows(d, ms[1..]);
      }
    }
  }

  lemma CompletedIsDone(c: Clocked, m: Incoming)
    requires Inv(c) && Possible(c, m) && Receive(c, m).b.superstep == c.b.superstep
    ensures Receive(c, m).b.processing <= c.b.processing
    ensures forall aid :: aid in Receive(c, m).b.processing ==> !Completes(m, aid)
  {
    ReceiveInv(c, m);
    if m.Inform? || m.Cancel? {
      AdvancesExactly(c, m.aid);
    }
  }

  lemma {:induction false} SuperstepGrows(c: Clocked, ms: seq<Incoming>)
    requires Inv(c) && PossibleRun(c, ms)
    ensures ReceiveAll(c, ms).b.superstep >= c.b.superstep
    decreases |ms|
  {
    if ms != [] {
      ReceiveInv(c, ms[0]);
      SuperstepGrows(Receive(c, ms[0]), ms[1..]);
    }
  }
}
