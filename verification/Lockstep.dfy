/** The barrier and its agents over a network that delivers every message once, in any order. An agent
    subscribes at most once, may cancel at any time, and answers each superstep message it receives
    with one completion, even after it has cancelled. */
module Lockstep {

  import opened Barrier

  datatype Net = Net(
    barrier: State,
    // messages under way: supersteps to each agent, and the three kinds to the barrier
    inboxes: map<AID, seq<nat>>, subscribes: multiset<AID>, cancels: multiset<AID>, informs: multiset<AID>,
    // history: agents that have subscribed; supersteps each agent has executed, in order; receivers of
    // each superstep; agents whose cancellation has reached the barrier
    subscribed: set<AID>, executed: map<AID, seq<nat>>, signalled: map<nat, set<AID>>, gone: set<AID>)

  const EMPTY := Net(START, map[], multiset{}, multiset{}, multiset{}, {}, map[], map[], {})

  datatype Event =
    | AgentSubscribes(a: AID)
    | AgentCancels(a: AID)
    | AgentExecutes(a: AID, index: nat)
    | SubscribeArrives(a: AID)
    | CancelArrives(a: AID)
    | InformArrives(a: AID)
    | AlarmFires(alive: set<AID>, order: seq<AID>)

  function InboxOf(s: Net, a: AID): seq<nat> {
    if a in s.inboxes then s.inboxes[a] else []
  }

  function ExecutedBy(s: Net, a: AID): seq<nat> {
    if a in s.executed then s.executed[a] else []
  }

  /** Superstep n on its way to its receivers. */
  function Deliver(s: Net, receivers: set<AID>, n: nat): Net {
    s.(inboxes := map a | a in s.inboxes.Keys + receivers ::
                    InboxOf(s, a) + if a in receivers then [n] else [],
       signalled := s.signalled[n := (if n in s.signalled then s.signalled[n] else {}) + receivers])
  }

  function DeliverAll(s: Net, posted: seq<Outgoing>): Net
    decreases |posted|
  {
    if posted == [] then s
    else DeliverAll(if posted[0].Signal? then Deliver(s, posted[0].receivers, posted[0].counter) else s, posted[1..])
  }

  /** The barrier handles a message. */
  function Handled(s: Net, m: Incoming): Net {
    var r := Handle(s.barrier, m);
    DeliverAll(s.(barrier := r.state), r.posted)
  }

  /** The event can happen. The alarm of the current superstep fires only where it is let to. */
  ghost predicate Enabled(alarms: bool, s: Net, e: Event) {
    match e
    case AgentSubscribes(a) => a !in s.subscribed
    case AgentCancels(a) => true
    case AgentExecutes(a, index) => index < |InboxOf(s, a)|
    case SubscribeArrives(a) => a in s.subscribes
    case CancelArrives(a) => a in s.cancels
    case InformArrives(a) => a in s.informs
    case AlarmFires(alive, order) =>
      alarms && s.barrier.superstep > 0 && Enumerates(order, s.barrier.processing)
  }

  /** An agent has left when its cancellation finds it registered; one that overtakes the subscription has
      no effect. */
  function Leaving(s: Net, a: AID): set<AID> {
    if a in s.barrier.registered then s.gone + {a} else s.gone
  }

  function Next(s: Net, e: Event): Net {
    match e
    case AgentSubscribes(a) => s.(subscribed := s.subscribed + {a}, subscribes := s.subscribes + multiset{a})
    case AgentCancels(a) => s.(cancels := s.cancels + multiset{a})
    case AgentExecutes(a, index) =>
      var inbox := InboxOf(s, a);
      if index < |inbox| then
        s.(inboxes := s.inboxes[a := inbox[..index] + inbox[index + 1..]],
           executed := s.executed[a := ExecutedBy(s, a) + [inbox[index]]],
           informs := s.informs + multiset{a})
      else s
    case SubscribeArrives(a) => Handled(s.(subscribes := s.subscribes - multiset{a}), Subscribe(a))
    case CancelArrives(a) =>
      Handled(s.(cancels := s.cancels - multiset{a}, gone := Leaving(s, a)), Cancel(a))
    case InformArrives(a) => Handled(s.(informs := s.informs - multiset{a}), Inform(a))
    case AlarmFires(alive, order) => Handled(s, Timeout(s.barrier.superstep, alive, order))
  }

  ghost predicate Possible(alarms: bool, s: Net, events: seq<Event>)
    decreases |events|
  {
    events == [] || (Enabled(alarms, s, events[0]) && Possible(alarms, Next(s, events[0]), events[1..]))
  }

  function Run(s: Net, events: seq<Event>): Net
    decreases |events|
  {
    if events == [] then s else Run(Next(s, events[0]), events[1..])
  }

  // ---------- what lockstep means ----------

  /** No superstep is signalled before all receivers of the one before it have executed it or left;
      and every agent executes consecutive supersteps, each once. */
  ghost predicate InLockstep(s: Net) {
    && (forall n, a :: n in s.signalled && n + 1 in s.signalled && a in s.signalled[n] ==>
          n in ExecutedBy(s, a) || a in s.gone)
    && (forall a :: Consecutive(ExecutedBy(s, a)))
  }

  ghost predicate Consecutive(log: seq<nat>) {
    forall i :: 0 < i < |log| ==> log[i] == log[i - 1] + 1
  }

  // ---------- the invariant ----------

  /** A superstep that may come next in the log. */
  ghost predicate Follows(log: seq<nat>, n: nat) {
    log == [] || n == log[|log| - 1] + 1
  }

  /** One agent: at most one message of its superstep exchange is under way, and it is the one that the
      barrier waits for while the agent is registered. */
  ghost predicate AgentInv(s: Net, a: AID) {
    var inbox, log, k := InboxOf(s, a), ExecutedBy(s, a), s.barrier.superstep;
    && Consecutive(log)
    && |inbox| + s.informs[a] <= 1
    && (|inbox| == 1 ==> Follows(log, inbox[0]))
    && s.subscribes[a] <= 1
    && (s.subscribes[a] > 0 ==>
          a in s.subscribed && a !in s.barrier.registered && log == [] && |inbox| + s.informs[a] == 0)
    && (a !in s.subscribed ==> a !in s.barrier.registered && log == [] && |inbox| + s.informs[a] == 0)
    && (a in s.barrier.registered ==>
          && (a in s.barrier.processing <==> |inbox| + s.informs[a] == 1)
          && (if |inbox| == 1 then inbox[0] == k else log == [] || log[|log| - 1] == k)
          && (s.informs[a] == 1 ==> log != []))
  }

  /** The barrier: everybody signalled for a past superstep has executed it or left; for the current
      one, or is still waited for. */
  ghost predicate BarrierInv(s: Net) {
    var b := s.barrier;
    && b.processing <= b.registered
    && (b.processing == {} <==> b.registered == {})
    && (forall n, a :: n in s.signalled && a in s.signalled[n] ==>
          n in ExecutedBy(s, a) || a in s.gone || (n == b.superstep && a in b.processing))
    && (forall n :: n in s.signalled ==> n <= b.superstep)
  }

  ghost predicate Inv(s: Net) {
    BarrierInv(s) && forall a :: AgentInv(s, a)
  }

  lemma InvLockstep(s: Net)
    requires Inv(s)
    ensures InLockstep(s)
  {
    forall a ensures Consecutive(ExecutedBy(s, a)) {
      assert AgentInv(s, a);
    }
  }

  // ---------- the barrier moves on ----------

  /** The invariant just before the barrier looks whether anybody is left to wait for. */
  ghost predicate PreInv(s: Net) {
    var b := s.barrier;
    && b.processing <= b.registered
    && (forall n, a :: n in s.signalled && a in s.signalled[n] ==>
          n in ExecutedBy(s, a) || a in s.gone || (n == b.superstep && a in b.processing))
    && (forall n :: n in s.signalled ==> n <= b.superstep)
    && forall a :: AgentInv(s, a)
  }

  function Proceed(s: Net): Net {
    var r := NextIfPossible(s.barrier);
    DeliverAll(s.(barrier := r.state), r.posted)
  }

  lemma ProceedIs(s: Net)
    ensures var b := s.barrier;
            Proceed(s) ==
              if b.processing == {} && b.registered != {} then
                Deliver(s.(barrier := State(b.superstep + 1, b.registered, b.registered)),
                        b.registered, b.superstep + 1)
              else s
  {
    var b := s.barrier;
    var n := b.superstep + 1;
    var t := s.(barrier := NextIfPossible(b).state);
    if b.processing == {} && b.registered != {} {
      DeliverOne(t, b.registered, n);
    }
  }

  lemma {:induction false} DeliverOne(t: Net, receivers: set<AID>, n: nat)
    ensures DeliverAll(t, [Signal(receivers, n), Alarm(n)]) == Deliver(t, receivers, n)
  {
    var posted := [Signal(receivers, n), Alarm(n)];
    assert posted[1..] == [Alarm(n)] && [Alarm(n)][1..] == [];
    var u := Deliver(t, receivers, n);
    assert DeliverAll(u, [Alarm(n)]) == DeliverAll(u, []) == u;
  }

  lemma ProceedAgent(s: Net, a: AID)
    requires PreInv(s) && s.barrier.processing == {}
    ensures var b := s.barrier;
            var t := Deliver(s.(barrier := State(b.superstep + 1, b.registered, b.registered)),
                             b.registered, b.superstep + 1);
            AgentInv(t, a)
  {
    assert AgentInv(s, a);
  }

  lemma ProceedInv(s: Net)
    requires PreInv(s)
    ensures Inv(Proceed(s))
  {
    ProceedIs(s);
    var b := s.barrier;
    if b.processing == {} && b.registered != {} {
      var t := Proceed(s);
      forall a ensures AgentInv(t, a) {
        ProceedAgent(s, a);
      }
      forall n, a | n in t.signalled && a in t.signalled[n]
        ensures n in ExecutedBy(t, a) || a in t.gone || (n == t.barrier.superstep && a in t.barrier.processing)
      {
        if n <= b.superstep {
          assert n in s.signalled && a in s.signalled[n];
        }
      }
    }
  }

  // ---------- one event ----------

  /** What the invariant of an agent depends on. */
  ghost predicate SameAgent(s: Net, t: Net, a: AID) {
    && InboxOf(t, a) == InboxOf(s, a) && ExecutedBy(t, a) == ExecutedBy(s, a)
    && t.informs[a] == s.informs[a] && t.subscribes[a] == s.subscribes[a]
    && (a in t.subscribed <==> a in s.subscribed)
    && (a in t.barrier.registered <==> a in s.barrier.registered)
    && (a in t.barrier.processing <==> a in s.barrier.processing)
    && t.barrier.superstep == s.barrier.superstep
  }

  lemma SubscribeSent(s: Net, a: AID)
    requires Inv(s) && a !in s.subscribed
    ensures Inv(Next(s, AgentSubscribes(a)))
  {
    var t := Next(s, AgentSubscribes(a));
    forall b ensures AgentInv(t, b) {
      assert AgentInv(s, b);
      if b != a {
        assert SameAgent(s, t, b);
      }
    }
  }

  lemma CancelSent(s: Net, a: AID)
    requires Inv(s)
    ensures Inv(Next(s, AgentCancels(a)))
  {
    var t := Next(s, AgentCancels(a));
    forall b ensures AgentInv(t, b) {
      assert AgentInv(s, b) && SameAgent(s, t, b);
    }
  }

  lemma Executes(s: Net, a: AID, index: nat)
    requires Inv(s) && index < |InboxOf(s, a)|
    ensures Inv(Next(s, AgentExecutes(a, index)))
  {
    var t := Next(s, AgentExecutes(a, index));
    forall b ensures AgentInv(t, b) {
      assert AgentInv(s, b);
      if b != a {
        assert SameAgent(s, t, b);
      }
    }
    forall n, b | n in t.signalled && b in t.signalled[n]
      ensures n in ExecutedBy(t, b) || b in t.gone || (n == t.barrier.superstep && b in t.barrier.processing)
    {
      assert n in s.signalled && b in s.signalled[n];
    }
  }

  lemma SubscribeReceived(s: Net, a: AID)
    requires Inv(s) && a in s.subscribes
    ensures Inv(Next(s, SubscribeArrives(a)))
  {
    var b := s.barrier.(registered := s.barrier.registered + {a});
    var t := s.(subscribes := s.subscribes - multiset{a}, barrier := b);
    forall c ensures AgentInv(t, c) {
      assert AgentInv(s, c);
      if c != a {
        assert SameAgent(s, t, c);
      }
    }
    ProceedInv(t);
  }

  lemma CancelReceived(s: Net, a: AID)
    requires Inv(s) && a in s.cancels
    ensures Inv(Next(s, CancelArrives(a)))
  {
    var b := s.barrier;
    var b' := State(b.superstep, b.registered - {a}, b.processing - {a});
    var t := s.(cancels := s.cancels - multiset{a}, gone := Leaving(s, a), barrier := b');
    forall c ensures AgentInv(t, c) {
      assert AgentInv(s, c);
      if c != a {
        assert SameAgent(s, t, c);
      }
    }
    if a in b.processing {
      ProceedInv(t);
    }
  }

  lemma InformReceived(s: Net, a: AID)
    requires Inv(s) && a in s.informs
    ensures Inv(Next(s, InformArrives(a)))
  {
    var b := s.barrier.(processing := s.barrier.processing - {a});
    var t := s.(informs := s.informs - multiset{a}, barrier := b);
    assert AgentInv(s, a);
    forall c ensures AgentInv(t, c) {
      assert AgentInv(s, c);
      if c != a {
        assert SameAgent(s, t, c);
      }
    }
    ProceedInv(t);
  }

  lemma NextInv(s: Net, e: Event)
    requires Inv(s) && Enabled(false, s, e)
    ensures Inv(Next(s, e))
  {
    match e
    case AgentSubscribes(a) => SubscribeSent(s, a);
    case AgentCancels(a) => CancelSent(s, a);
    case AgentExecutes(a, index) => Executes(s, a, index);
    case SubscribeArrives(a) => SubscribeReceived(s, a);
    case CancelArrives(a) => CancelReceived(s, a);
    case InformArrives(a) => InformReceived(s, a);
    case AlarmFires(_, _) =>
  }

  // ---------- whole runs ----------

  /** The exchange never stops for an agent that the barrier waits for: either its signal can be executed,
      which puts its completion on the way, or its completion can arrive, after which the barrier waits
      for it no more or has gone on. */
  lemma NobodyStuck(s: Net, a: AID)
    requires Inv(s) && a in s.barrier.processing
    ensures (|InboxOf(s, a)| == 1 && Enabled(false, s, AgentExecutes(a, 0))
             && a in Next(s, AgentExecutes(a, 0)).informs)
            || (Enabled(false, s, InformArrives(a))
                && var t := Next(s, InformArrives(a));
                   a !in t.barrier.processing || t.barrier.superstep == s.barrier.superstep + 1)
  {
    assert AgentInv(s, a);
    if |InboxOf(s, a)| == 0 {
      var t := s.(informs := s.informs - multiset{a}, barrier := s.barrier.(processing := s.barrier.processing - {a}));
      ProceedIs(t);
    }
  }

  /** A subscription can arrive once it is sent, and registers the agent; a cancellation likewise, and the
      agent is registered no more. */
  lemma JoinsAndLeaves(s: Net, a: AID)
    requires Inv(s)
    ensures a !in s.subscribed ==>
              var t := Next(s, AgentSubscribes(a));
              && Enabled(false, s, AgentSubscribes(a)) && Enabled(false, t, SubscribeArrives(a))
              && a in Next(t, SubscribeArrives(a)).barrier.registered
    ensures var t := Next(s, AgentCancels(a));
            && Enabled(false, s, AgentCancels(a)) && Enabled(false, t, CancelArrives(a))
            && a !in Next(t, CancelArrives(a)).barrier.registered
  {
    var t, u := Next(s, AgentSubscribes(a)), Next(s, AgentCancels(a));
    HandledBarrier(t.(subscribes := t.subscribes - multiset{a}), Subscribe(a));
    HandledBarrier(u.(cancels := u.cancels - multiset{a}, gone := Leaving(u, a)), Cancel(a));
  }

  lemma {:induction false} DeliveredBarrier(s: Net, posted: seq<Outgoing>)
    ensures DeliverAll(s, posted).barrier == s.barrier
    decreases |posted|
  {
    if posted != [] {
      var t := if posted[0].Signal? then Deliver(s, posted[0].receivers, posted[0].counter) else s;
      DeliveredBarrier(t, posted[1..]);
    }
  }

  lemma HandledBarrier(s: Net, m: Incoming)
    ensures Handled(s, m).barrier == Handle(s.barrier, m).state
  {
    var r := Handle(s.barrier, m);
    DeliveredBarrier(s.(barrier := r.state), r.posted);
  }

  lemma {:induction false} RunInv(s: Net, events: seq<Event>)
    requires Inv(s) && Possible(false, s, events)
    ensures Inv(Run(s, events))
    decreases |events|
  {
    if events != [] {
      NextInv(s, events[0]);
      RunInv(Next(s, events[0]), events[1..]);
    }
  }

  lemma {:induction false} RunAt(alarms: bool, s: Net, events: seq<Event>, k: nat)
    requires k < |events|
    ensures Run(s, events[k..]) == Run(Next(s, events[k]), events[k + 1..])
    ensures Possible(alarms, s, events[k..])
       <==> Enabled(alarms, s, events[k]) && Possible(alarms, Next(s, events[k]), events[k + 1..])
  {
    assert events[k..][1..] == events[k + 1..];
  }

  /** A lone agent whose superstep the alarm signals twice: its second completion counts for the next
      superstep, and the barrier goes on to superstep 3 although superstep 2 was not executed. */
  function EarlyRun(a: AID): seq<Event> {
    [AgentSubscribes(a), SubscribeArrives(a), AlarmFires({a}, [a]), AgentExecutes(a, 0),
     InformArrives(a), AgentExecutes(a, 0), InformArrives(a)]
  }

  /** The network of the lone agent, after it has subscribed. */
  ghost predicate Lone(s: Net, a: AID, k: nat, inbox: seq<nat>, log: seq<nat>, informs: nat) {
    && s.barrier == State(k, {a}, {a}) && InboxOf(s, a) == inbox && ExecutedBy(s, a) == log
    && s.informs == multiset{}[a := informs] && s.gone == {}
    && forall n: nat :: 0 < n <= k ==> n in s.signalled && a in s.signalled[n]
  }

  lemma LoneInform(s: Net, a: AID, k: nat, inbox: seq<nat>, log: seq<nat>)
    requires Lone(s, a, k, inbox, log, 1)
    ensures Lone(Next(s, InformArrives(a)), a, k + 1, inbox + [k + 1], log, 0)
  {
    var t := s.(informs := s.informs - multiset{a}, barrier := s.barrier.(processing := {}));
    assert s.barrier.processing - {a} == {};
    ProceedIs(t);
  }

  lemma LoneExecutes(s: Net, a: AID, k: nat, inbox: seq<nat>, log: seq<nat>)
    requires Lone(s, a, k, inbox, log, 0) && inbox != []
    ensures Lone(Next(s, AgentExecutes(a, 0)), a, k, inbox[1..], log + [inbox[0]], 1)
  {
    assert inbox[..0] + inbox[1..] == inbox[1..];
  }

  lemma LoneAlarm(s: Net, a: AID, k: nat, inbox: seq<nat>, log: seq<nat>)
    requires Lone(s, a, k, inbox, log, 0) && k > 0
    ensures Enumerates([a], s.barrier.processing)
    ensures Lone(Next(s, AlarmFires({a}, [a])), a, k, inbox + [k], log, 0)
  {
    var order := [a];
    var signal: Outgoing := Signal({a}, k);
    assert order[1..] == [] && Filter({a}, order, {a}, k) == ([signal] + [], {a});
    var posted := [signal] + [] + [Alarm(k)];
    assert posted == [signal, Alarm(k)];
    assert Handle(s.barrier, Timeout(k, {a}, order)) == Reaction(s.barrier, posted);
    DeliverOne(s, {a}, k);
  }

  lemma LoneStarts(a: AID)
    ensures a in Next(EMPTY, AgentSubscribes(a)).subscribes
    ensures Lone(Next(Next(EMPTY, AgentSubscribes(a)), SubscribeArrives(a)), a, 1, [1], [], 0)
  {
    var s := Next(EMPTY, AgentSubscribes(a));
    var t := s.(subscribes := s.subscribes - multiset{a}, barrier := State(0, {a}, {}));
    ProceedIs(t);
  }

  /** The event leads from s to t. */
  ghost predicate Leads(s: Net, e: Event, t: Net) {
    Enabled(true, s, e) && t == Next(s, e)
  }

  /** The first superstep is signalled twice, and executed once. */
  lemma EarlyBegin(a: AID) returns (s1: Net, s2: Net, s3: Net, s4: Net)
    ensures Leads(EMPTY, AgentSubscribes(a), s1) && Leads(s1, SubscribeArrives(a), s2)
    ensures Leads(s2, AlarmFires({a}, [a]), s3) && Leads(s3, AgentExecutes(a, 0), s4)
    ensures Lone(s4, a, 1, [1], [1], 1)
  {
    s1 := Next(EMPTY, AgentSubscribes(a));
    s2 := Next(s1, SubscribeArrives(a));
    LoneStarts(a);
    s3 := Next(s2, AlarmFires({a}, [a]));
    LoneAlarm(s2, a, 1, [1], []);
    assert [1] + [1] == [1, 1];
    s4 := Next(s3, AgentExecutes(a, 0));
    LoneExecutes(s3, a, 1, [1, 1], []);
    assert [1, 1][1..] == [1] && [] + [1] == [1];
  }

  /** Its second execution passes for that of the second superstep. */
  lemma EarlyEnd(a: AID, s4: Net) returns (s5: Net, s6: Net, s7: Net)
    requires Lone(s4, a, 1, [1], [1], 1)
    ensures Leads(s4, InformArrives(a), s5) && Leads(s5, AgentExecutes(a, 0), s6)
    ensures Leads(s6, InformArrives(a), s7) && Lone(s7, a, 3, [2, 3], [1, 1], 0)
  {
    s5 := Next(s4, InformArrives(a));
    LoneInform(s4, a, 1, [1], [1]);
    assert [1] + [2] == [1, 2];
    s6 := Next(s5, AgentExecutes(a, 0));
    LoneExecutes(s5, a, 2, [1, 2], [1]);
    assert [1, 2][1..] == [2];
    s7 := Next(s6, InformArrives(a));
    LoneInform(s6, a, 2, [2], [1, 1]);
    assert [2] + [3] == [2, 3];
  }

  lemma {:induction false} TraceIsRun(ss: seq<Net>, events: seq<Event>, k: nat)
    requires |ss| == |events| + 1 && k <= |events|
    requires forall i :: 0 <= i < |events| ==> Leads(ss[i], events[i], ss[i + 1])
    ensures Possible(true, ss[k], events[k..]) && Run(ss[k], events[k..]) == ss[|events|]
    decreases |events| - k
  {
    if k < |events| {
      TraceIsRun(ss, events, k + 1);
      assert Leads(ss[k], events[k], ss[k + 1]);
      RunAt(true, ss[k], events, k);
    }
  }

  lemma AlarmBreaksLockstep(a: AID)
    ensures Possible(true, EMPTY, EarlyRun(a)) && !InLockstep(Run(EMPTY, EarlyRun(a)))
  {
    var s1, s2, s3, s4 := EarlyBegin(a);
    var s5, s6, s := EarlyEnd(a, s4);
    TraceIsRun([EMPTY, s1, s2, s3, s4, s5, s6, s], EarlyRun(a), 0);
    assert EarlyRun(a)[0..] == EarlyRun(a);
    assert 2 in s.signalled && 2 + 1 in s.signalled && a in s.signalled[2] && 2 !in ExecutedBy(s, a);
  }

  /** Over every run with reliable delivery the barrier keeps its agents in lockstep, exactly when the
      alarm of the current superstep does not fire before the superstep is over. */
  lemma LockstepIffNoAlarm(alarms: bool)
    ensures (forall events :: Possible(alarms, EMPTY, events) ==> InLockstep(Run(EMPTY, events))) <==> !alarms
  {
    if alarms {
      AlarmBreaksLockstep("agent");
    } else {
      forall events | Possible(alarms, EMPTY, events) ensures InLockstep(Run(EMPTY, events)) {
        assert forall a :: AgentInv(EMPTY, a);
        RunInv(EMPTY, events);
        InvLockstep(Run(EMPTY, events));
      }
    }
  }
}
