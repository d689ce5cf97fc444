/** The event queue between one producer and the event dispatch thread, in the atomic steps that its
    two locks leave. */
module Events {

  import opened Sequences

  /** The producer is between the two halves of lifting a pause. */
  datatype Producer = Idle | Unpausing

  /** The dispatcher is about to look at the list, waits on it, or holds a batch to dispatch. */
  datatype Dispatcher<E> = Looking | Waiting | Dispatching(batch: seq<E>)

  type Observer = nat

  datatype State<E> = State(list: seq<E>, paused: bool, producer: Producer, edt: Dispatcher<E>,
                            // in the order in which they were added, and the batches that each was given
                            observers: seq<Observer>, received: map<Observer, seq<seq<E>>>,
                            // history: batches dispatched so far, and all events added
                            dispatched: seq<seq<E>>, added: seq<E>)

  datatype Action<E> =
    | AddEvent(event: E)
    | Pause
    | Unpause
    | UnpauseNotify
    | EdtStep
    | SpuriousWakeup
    | AddObserver(o: Observer)
    | RemoveObserver(o: Observer)

  function Start<E>(): State<E> {
    State([], false, Idle, Looking, [], map[], [], [])
  }

  /** Wakes the dispatcher if it waits; otherwise the notification is lost. */
  function Notify<E>(s: State<E>): State<E> {
    if s.edt.Waiting? then s.(edt := Looking) else s
  }

  function ReceivedBy<E>(received: map<Observer, seq<seq<E>>>, o: Observer): seq<seq<E>> {
    if o in received then received[o] else []
  }

  /** A batch for every observer in turn. */
  function Deliver<E>(received: map<Observer, seq<seq<E>>>, observers: seq<Observer>, batch: seq<E>):
    map<Observer, seq<seq<E>>>
  {
    if observers == [] then received
    else
      var n := |observers| - 1;
      var before := Deliver(received, observers[..n], batch);
      before[observers[n] := ReceivedBy(before, observers[n]) + [batch]]
  }

  /** One atomic step; a step that is not possible changes nothing. */
  function Next<E>(s: State<E>, a: Action<E>): State<E> {
    match a
    case AddEvent(e) =>
      if s.producer.Idle? then
        var t := s.(list := s.list + [e], added := s.added + [e]);
        if !t.paused then Notify(t) else t
      else s
    case Pause => if s.producer.Idle? then s.(paused := true) else s
    case Unpause => if s.producer.Idle? then s.(paused := false, producer := Unpausing) else s
    case UnpauseNotify =>
      if s.producer.Unpausing? then
        var t := s.(producer := Idle);
        if |t.list| > 0 then Notify(t) else t
      else s
    case EdtStep =>
      (match s.edt
       case Looking => if |s.list| == 0 then s.(edt := Waiting) else s.(edt := Dispatching(s.list), list := [])
       case Waiting => s
       case Dispatching(batch) =>
         s.(received := Deliver(s.received, s.observers, batch), dispatched := s.dispatched + [batch], edt := Looking))
    case SpuriousWakeup => Notify(s)
    case AddObserver(o) => s.(observers := s.observers + [o])
    case RemoveObserver(o) => s.(observers := RemoveFirst(s.observers, o))
  }

  function Run<E>(s: State<E>, actions: seq<Action<E>>): State<E>
    decreases |actions|
  {
    if actions == [] then s else Run(Next(s, actions[0]), actions[1..])
  }

  function Flatten<E>(batches: seq<seq<E>>): seq<E>
  {
    if batches == [] then [] else Flatten(batches[..|batches| - 1]) + batches[|batches| - 1]
  }

  function InHand<E>(s: State<E>): seq<E> {
    if s.edt.Dispatching? then s.edt.batch else []
  }

  /** Nothing is lost, repeated or reordered; and while there are events the dispatcher does not wait,
      unless it is paused or about to be notified. */
  ghost predicate Inv<E>(s: State<E>) {
    && Flatten(s.dispatched) + (InHand(s) + s.list) == s.added
    && (s.list != [] && s.edt.Waiting? ==> s.paused || s.producer.Unpausing?)
  }

  lemma AddInv<E>(s: State<E>, e: E)
    requires Inv(s)
    ensures Inv(Next(s, AddEvent(e)))
  {
    assert Flatten(s.dispatched) + (InHand(s) + (s.list + [e]))
        == Flatten(s.dispatched) + (InHand(s) + s.list) + [e];
  }

  lemma {:induction false} FlattenSnoc<E>(batches: seq<seq<E>>, batch: seq<E>)
    ensures Flatten(batches + [batch]) == Flatten(batches) + batch
  {
    assert (batches + [batch])[..|batches|] == batches;
  }

  lemma Regroup<E>(a: seq<E>, b: seq<E>, c: seq<E>)
    ensures a + (b + c) == (a + b) + ([] + c)
    ensures [] + c == c
  {
  }

  /** The dispatcher takes the list into its hand, or the batch from its hand to the dispatched ones. */
  lemma EdtInv<E>(s: State<E>)
    requires Inv(s)
    ensures Inv(Next(s, EdtStep))
  {
    match s.edt
    case Looking =>
      assert s.list + [] == [] + s.list;
    case Waiting =>
    case Dispatching(batch) =>
      FlattenSnoc(s.dispatched, batch);
      Regroup(Flatten(s.dispatched), batch, s.list);
  }

  lemma NextInv<E>(s: State<E>, a: Action<E>)
    requires Inv(s)
    ensures Inv(Next(s, a))
  {
    match a
    case AddEvent(e) => AddInv(s, e);
    case EdtStep => EdtInv(s);
    case _ =>
  }

  lemma {:induction false} RunInv<E>(s: State<E>, actions: seq<Action<E>>)
    requires Inv(s)
    ensures Inv(Run(s, actions))
    decreases |actions|
  {
    if actions != [] {
      NextInv(s, actions[0]);
      RunInv(Next(s, actions[0]), actions[1..]);
    }
  }

  /** In every interleaving: the dispatched batches, the batch in hand and the pending list are the
      added events in order; and with the producer idle and no pause, pending events find the
      dispatcher awake. */
  lemma {:induction false} NoLostEventOrWakeup<E>(actions: seq<Action<E>>)
    ensures var s := Run(Start<E>(), actions);
            && Flatten(s.dispatched) + (InHand(s) + s.list) == s.added
            && (s.producer.Idle? && !s.paused && s.list != [] ==> !s.edt.Waiting?)
  {
    RunInv(Start<E>(), actions);
  }

  function ThreeSteps<E>(s: State<E>): State<E> {
    Next(Next(Next(s, EdtStep), EdtStep), EdtStep)
  }

  lemma ThreeStepsEmpty<E>(s: State<E>)
    requires s.list != [] ==> !s.edt.Waiting?
    ensures var t := ThreeSteps(s); t.list == [] && InHand(t) == [] && t.added == s.added
  {
  }

  /** From every such state three steps of the dispatcher, undisturbed, dispatch everything added. */
  lemma {:induction false} ThreeStepsDrain<E>(actions: seq<Action<E>>)
    ensures var s := Run(Start<E>(), actions);
            s.producer.Idle? && !s.paused ==>
              ThreeSteps(s).list == [] && Flatten(ThreeSteps(s).dispatched) == ThreeSteps(s).added == s.added
  {
    var s := Run(Start<E>(), actions);
    RunInv(Start<E>(), actions);
    NextInv(s, EdtStep);
    NextInv(Next(s, EdtStep), EdtStep);
    NextInv(Next(Next(s, EdtStep), EdtStep), EdtStep);
    if s.producer.Idle? && !s.paused {
      ThreeStepsEmpty(s);
      NothingMore(Flatten(ThreeSteps(s).dispatched));
    }
  }

  lemma NothingMore<T>(a: seq<T>)
    ensures a + ([] + []) == a
  {
  }

  /** A pause holds events back: until it is lifted, a waiting dispatcher is not woken, and all that is
      added stays on the list. */
  lemma {:induction false} PauseHoldsBack<E>(s: State<E>, actions: seq<Action<E>>)
    requires Inv(s) && s.paused && s.producer.Idle? && s.edt.Waiting?
    requires forall a :: a in actions ==> !a.Unpause? && !a.SpuriousWakeup?
    ensures var t := Run(s, actions);
            && t.paused && t.edt.Waiting? && t.dispatched == s.dispatched
            && Flatten(s.dispatched) + t.list == t.added
    decreases |actions|
  {
    if actions != [] {
      assert actions[0] in actions;
      NextInv(s, actions[0]);
      PauseHoldsBack(Next(s, actions[0]), actions[1..]);
    }
  }

  /** So it is from the moment at which the producer pauses. */
  lemma {:induction false} PausedFromNow<E>(s: State<E>, actions: seq<Action<E>>)
    requires Inv(s) && s.producer.Idle? && s.edt.Waiting?
    requires forall a :: a in actions ==> !a.Unpause? && !a.SpuriousWakeup?
    ensures var t := Run(Next(s, Pause), actions);
            && t.paused && t.edt.Waiting? && t.dispatched == s.dispatched
            && Flatten(s.dispatched) + t.list == t.added
  {
    NextInv(s, Pause);
    PauseHoldsBack(Next(s, Pause), actions);
  }

  /** Lifting a pause wakes the dispatcher when something has been held back. */
  lemma LiftedWakes<E>(s: State<E>)
    requires Inv(s) && s.producer.Idle?
    ensures var t := Next(Next(s, Unpause), UnpauseNotify);
            && !t.paused && t.producer.Idle? && t.list == s.list
            && (s.list != [] ==> !t.edt.Waiting?)
  {
  }

  // ---------- what observers are given ----------

  function Occurrences(observers: seq<Observer>, o: Observer): nat {
    if observers == [] then 0
    else
      var n := |observers| - 1;
      Occurrences(observers[..n], o) + if observers[n] == o then 1 else 0
  }

  function Copies<E>(batch: seq<E>, n: nat): seq<seq<E>> {
    seq(n, (k: nat) => batch)
  }

  /** An observer is given a batch as many times as it is registered. */
  lemma {:induction false} DeliverIs<E>(received: map<Observer, seq<seq<E>>>, observers: seq<Observer>,
                                        batch: seq<E>, o: Observer)
    ensures ReceivedBy(Deliver(received, observers, batch), o)
         == ReceivedBy(received, o) + Copies(batch, Occurrences(observers, o))
  {
    if observers == [] {
      assert Copies(batch, 0) == [];
    } else {
      var n := |observers| - 1;
      DeliverIs(received, observers[..n], batch, o);
      var k := Occurrences(observers[..n], o);
      assert Copies(batch, k) + [batch] == Copies(batch, k + 1);
    }
  }

  /** Neither registers nor deregisters the observer. */
  predicate Leaves<E>(a: Action<E>, o: Observer) {
    (a.AddObserver? || a.RemoveObserver?) ==> a.o != o
  }

  lemma {:induction false} OneMore(observers: seq<Observer>, x: Observer, o: Observer)
    ensures Occurrences(observers + [x], o) == Occurrences(observers, o) + if x == o then 1 else 0
  {
    assert (observers + [x])[..|observers|] == observers;
  }

  lemma {:induction false} OccurrencesInSum(xs: seq<Observer>, ys: seq<Observer>, o: Observer)
    ensures Occurrences(xs + ys, o) == Occurrences(xs, o) + Occurrences(ys, o)
    decreases |ys|
  {
    if ys == [] {
      assert xs + ys == xs;
    } else {
      var n := |ys| - 1;
      OccurrencesInSum(xs, ys[..n], o);
      assert xs + ys == xs + ys[..n] + [ys[n]] && ys == ys[..n] + [ys[n]];
      OneMore(xs + ys[..n], ys[n], o);
      OneMore(ys[..n], ys[n], o);
    }
  }

  lemma {:induction false} OneLess(observers: seq<Observer>, x: Observer, o: Observer)
    requires x != o
    ensures Occurrences(RemoveFirst(observers, x), o) == Occurrences(observers, o)
    decreases |observers|
  {
    if observers != [] {
      assert observers == [observers[0]] + observers[1..];
      OccurrencesInSum([observers[0]], observers[1..], o);
      if observers[0] == x {
        OneMore([], x, o);
        assert [] + [x] == [x];
      } else {
        OneLess(observers[1..], x, o);
        OccurrencesInSum([observers[0]], RemoveFirst(observers[1..], x), o);
      }
    }
  }

  lemma {:induction false} RemovedOnce(observers: seq<Observer>, o: Observer)
    ensures var n := Occurrences(observers, o);
            Occurrences(RemoveFirst(observers, o), o) == if n > 0 then n - 1 else 0
    decreases |observers|
  {
    if observers != [] {
      assert observers == [observers[0]] + observers[1..];
      OccurrencesInSum([observers[0]], observers[1..], o);
      OneMore([], observers[0], o);
      assert [] + [observers[0]] == [observers[0]];
      if observers[0] != o {
        RemovedOnce(observers[1..], o);
        OccurrencesInSum([observers[0]], RemoveFirst(observers[1..], o), o);
      }
    }
  }

  lemma {:induction false} OthersLeave<E>(s: State<E>, a: Action<E>, o: Observer)
    requires Leaves(a, o)
    ensures Occurrences(Next(s, a).observers, o) == Occurrences(s.observers, o)
  {
    match a
    case AddObserver(x) => OneMore(s.observers, x, o);
    case RemoveObserver(x) => OneLess(s.observers, x, o);
    case _ =>
  }

  /** In one step an observer registered once is given what is dispatched, if anything is. */
  lemma {:induction false} StepSeen<E>(s: State<E>, a: Action<E>, o: Observer)
    requires Occurrences(s.observers, o) == 1
    ensures var t := Next(s, a);
            && s.dispatched <= t.dispatched
            && ReceivedBy(t.received, o) == ReceivedBy(s.received, o) + t.dispatched[|s.dispatched|..]
  {
    if a.EdtStep? && s.edt.Dispatching? {
      DeliverIs(s.received, s.observers, s.edt.batch, o);
      assert Copies(s.edt.batch, 1) == [s.edt.batch];
    } else {
      assert Next(s, a).dispatched == s.dispatched && Next(s, a).received == s.received;
    }
  }

  lemma Tails<T>(first: seq<T>, second: seq<T>, third: seq<T>)
    requires first <= second <= third
    ensures first <= third && second[|first|..] + third[|second|..] == third[|first|..]
  {
  }

  /** An observer registered once is given exactly the batches dispatched while it is: none lost, none
      twice, and in order. */
  lemma {:induction false} ObserverSeesAll<E>(s: State<E>, actions: seq<Action<E>>, o: Observer)
    requires Occurrences(s.observers, o) == 1 && forall a :: a in actions ==> Leaves(a, o)
    ensures var t := Run(s, actions);
            && s.dispatched <= t.dispatched
            && ReceivedBy(t.received, o) == ReceivedBy(s.received, o) + t.dispatched[|s.dispatched|..]
    decreases |actions|
  {
    if actions == [] {
      assert s.dispatched[|s.dispatched|..] == [];
    } else {
      var t, u := Next(s, actions[0]), Run(s, actions);
      OthersLeave(s, actions[0], o);
      StepSeen(s, actions[0], o);
      ObserverSeesAll(t, actions[1..], o);
      Tails(s.dispatched, t.dispatched, u.dispatched);
      SumsAssociate(ReceivedBy(s.received, o), t.dispatched[|s.dispatched|..], u.dispatched[|t.dispatched|..]);
    }
  }

  /** An observer that is not registered is given nothing. */
  lemma {:induction false} StrangerSeesNothing<E>(s: State<E>, actions: seq<Action<E>>, o: Observer)
    requires Occurrences(s.observers, o) == 0 && forall a :: a in actions ==> Leaves(a, o)
    ensures ReceivedBy(Run(s, actions).received, o) == ReceivedBy(s.received, o)
    decreases |actions|
  {
    if actions != [] {
      OthersLeave(s, actions[0], o);
      StrangerStep(s, actions[0], o);
      StrangerSeesNothing(Next(s, actions[0]), actions[1..], o);
    }
  }

  lemma {:induction false} StrangerStep<E>(s: State<E>, a: Action<E>, o: Observer)
    requires Occurrences(s.observers, o) == 0
    ensures ReceivedBy(Next(s, a).received, o) == ReceivedBy(s.received, o)
  {
    if a.EdtStep? && s.edt.Dispatching? {
      DeliverIs(s.received, s.observers, s.edt.batch, o);
      assert Copies(s.edt.batch, 0) == [];
    }
  }

  /** A removed observer that was registered once is given no further batch. */
  lemma {:induction false} RemovedSeesNoMore<E>(s: State<E>, actions: seq<Action<E>>, o: Observer)
    requires Occurrences(s.observers, o) == 1 && forall a :: a in actions ==> Leaves(a, o)
    ensures ReceivedBy(Run(Next(s, RemoveObserver(o)), actions).received, o) == ReceivedBy(s.received, o)
  {
    RemovedOnce(s.observers, o);
    StrangerSeesNothing(Next(s, RemoveObserver(o)), actions, o);
  }

  // ---------- what the producer adds ----------

  predicate IsProducers<E>(a: Action<E>) {
    a.AddEvent? || a.Pause? || a.Unpause? || a.UnpauseNotify?
  }

  /** What the producer does in a run. */
  function Script<E>(actions: seq<Action<E>>): seq<Action<E>> {
    if actions == [] then []
    else (if IsProducers(actions[0]) then [actions[0]] else []) + Script(actions[1..])
  }

  /** Both halves of lifting a pause follow each other. */
  predicate InProtocol<E>(p: Producer, script: seq<Action<E>>)
    decreases |script|
  {
    script == []
    || match script[0]
       case AddEvent(_) => p.Idle? && InProtocol(p, script[1..])
       case Pause => p.Idle? && InProtocol(p, script[1..])
       case Unpause => p.Idle? && InProtocol(Unpausing, script[1..])
       case UnpauseNotify => p.Unpausing? && InProtocol(Idle, script[1..])
       case _ => false
  }

  function EventsIn<E>(script: seq<Action<E>>): seq<E> {
    if script == [] then []
    else (if script[0].AddEvent? then [script[0].event] else []) + EventsIn(script[1..])
  }

  function Added<E>(a: Action<E>): seq<E> {
    if a.AddEvent? then [a.event] else []
  }

  lemma {:induction false} ScriptFirst<E>(a: Action<E>, actions: seq<Action<E>>)
    requires actions != [] && actions[0] == a
    ensures IsProducers(a) ==> Script(actions) == [a] + Script(actions[1..])
    ensures !IsProducers(a) ==> Script(actions) == Script(actions[1..])
    ensures EventsIn(Script(actions)) == Added(a) + EventsIn(Script(actions[1..]))
  {
    if IsProducers(a) {
      assert Script(actions)[0] == a && Script(actions)[1..] == Script(actions[1..]);
    }
  }

  /** In its protocol every action of the producer has its effect. */
  lemma {:induction false} InProtocolStep<E>(s: State<E>, a: Action<E>, rest: seq<Action<E>>)
    requires InProtocol(s.producer, if IsProducers(a) then [a] + rest else rest)
    ensures InProtocol(Next(s, a).producer, rest) && Next(s, a).added == s.added + Added(a)
  {
    if IsProducers(a) {
      assert ([a] + rest)[1..] == rest;
    }
  }

  /** What is added in a run is what the producer adds, in its order. */
  lemma {:induction false} AddedIsScript<E>(s: State<E>, actions: seq<Action<E>>)
    requires InProtocol(s.producer, Script(actions))
    ensures Run(s, actions).added == s.added + EventsIn(Script(actions))
    decreases |actions|
  {
    if actions != [] {
      var a, rest := actions[0], Script(actions[1..]);
      ScriptFirst(a, actions);
      InProtocolStep(s, a, rest);
      AddedIsScript(Next(s, a), actions[1..]);
      SumsAssociate(s.added, Added(a), EventsIn(rest));
    }
  }

  function Additions<E>(events: seq<E>): seq<Action<E>> {
    if events == [] then [] else [AddEvent(events[0])] + Additions(events[1..])
  }

  /** Several events with the queue paused, as an addition of several statements raises them. */
  function Batched<E>(events: seq<E>): seq<Action<E>> {
    [Pause] + (Additions(events) + [Unpause, UnpauseNotify])
  }

  lemma {:induction false} AdditionFirst<E>(e: E, rest: seq<Action<E>>)
    ensures var script := [AddEvent(e)] + rest;
            && (InProtocol(Idle, rest) ==> InProtocol(Idle, script))
            && EventsIn(script) == [e] + EventsIn(rest)
  {
    var script := [AddEvent(e)] + rest;
    assert script[0] == AddEvent(e) && script[1..] == rest;
  }

  lemma {:induction false} AdditionsAre<E>(events: seq<E>, tail: seq<Action<E>>)
    requires InProtocol(Idle, tail)
    ensures InProtocol(Idle, Additions(events) + tail)
    ensures EventsIn(Additions(events) + tail) == events + EventsIn(tail)
  {
    if events == [] {
      assert Additions(events) + tail == tail;
    } else {
      AdditionsAre(events[1..], tail);
      var script, rest := Additions(events) + tail, Additions(events[1..]) + tail;
      var first: seq<Action<E>> := [AddEvent(events[0])];
      SumsAssociate(first, Additions(events[1..]), tail);
      assert script == first + rest;
      AdditionFirst(events[0], rest);
      SumsAssociate([events[0]], events[1..], EventsIn(tail));
      assert [events[0]] + events[1..] == events;
    }
  }

  lemma BatchedIs<E>(events: seq<E>)
    ensures InProtocol(Idle, Batched(events)) && EventsIn(Batched(events)) == events
  {
    var tail: seq<Action<E>> := [Unpause, UnpauseNotify];
    assert tail[1..] == [UnpauseNotify] && tail[1..][1..] == [];
    AdditionsAre(events, tail);
    assert EventsIn(tail) == [];
    assert Batched(events)[1..] == Additions(events) + tail;
  }

  /** An observer that was registered at the start has been given all that was dispatched. */
  lemma {:induction false} SeesFromStart<E>(actions: seq<Action<E>>, o: Observer)
    requires forall a :: a in actions ==> Leaves(a, o)
    ensures var s := Run(Next(Start<E>(), AddObserver(o)), actions); ReceivedBy(s.received, o) == s.dispatched
  {
    var start := Next(Start<E>(), AddObserver(o));
    OneMore([], o, o);
    assert start.observers == [] + [o];
    ObserverSeesAll(start, actions, o);
    var s := Run(start, actions);
    assert s.dispatched[0..] == s.dispatched && [] + s.dispatched == s.dispatched;
  }

  /** Events added in one batch, in any interleaving with the dispatcher: an observer that was registered
      before has been given them all, in order, as soon as none is pending or in hand. */
  lemma {:induction false} ObserverGetsBatch<E>(events: seq<E>, actions: seq<Action<E>>, o: Observer)
    requires Script(actions) == Batched(events) && forall a :: a in actions ==> Leaves(a, o)
    ensures var s := Run(Next(Start<E>(), AddObserver(o)), actions);
            && Flatten(ReceivedBy(s.received, o)) + (InHand(s) + s.list) == events
            && (InHand(s) == s.list == [] ==> Flatten(ReceivedBy(s.received, o)) == events)
  {
    var start := Next(Start<E>(), AddObserver(o));
    BatchedIs(events);
    AddedIsScript(start, actions);
    assert [] + events == events;
    SeesFromStart(actions, o);
    RunInv(start, actions);
    NothingMore(Flatten(Run(start, actions).dispatched));
  }

  // ---------- the queue as the two threads update it ----------

  class EventQueue<E> {
    var list: seq<E>
    var paused: bool
    var producer: Producer
    var edt: Dispatcher<E>
    var observers: seq<Observer>
    var received: map<Observer, seq<seq<E>>>
    var dispatched: seq<seq<E>>
    ghost var added: seq<E>

    ghost function Now(): State<E>
      reads this
    {
      State(list, paused, producer, edt, observers, received, dispatched, added)
    }

    constructor ()
      ensures Now() == Start<E>()
    {
      list, paused, producer, edt, observers, received, dispatched := [], false, Idle, Looking, [], map[], [];
      added := [];
    }

    /** Object.notify on the list. */
    method NotifyList()
      modifies this`edt
      ensures Now() == Notify(old(Now()))
    {
      if edt.Waiting? {
        edt := Looking;
      }
    }

    method Add(event: E)
      requires producer.Idle?
      modifies this
      ensures Now() == Next(old(Now()), AddEvent(event))
    {
      list := list + [event];
      added := added + [event];
      if !paused {
        NotifyList();
      }
    }

    /** The pause setter, up to its inner lock ... */
    method SetPaused(value: bool)
      requires producer.Idle?
      modifies this
      ensures Now() == Next(old(Now()), if value then Pause else Unpause)
    {
      paused := value;
      if !value {
        producer := Unpausing;
      }
    }

    /** ... and inside it. */
    method NotifyAfterPause()
      requires producer.Unpausing?
      modifies this
      ensures Now() == Next(old(Now()), UnpauseNotify)
    {
      producer := Idle;
      if |list| > 0 {
        NotifyList();
      }
    }

    /** The dispatcher inside the lock of the list: it waits, or takes all pending events at once. */
    method WaitForEvents()
      requires edt.Looking?
      modifies this
      ensures Now() == Next(old(Now()), EdtStep)
    {
      if |list| == 0 {
        edt := Waiting;
      } else {
        var copy := CloneOfPendingEvents();
        edt := Dispatching(copy);
      }
    }

    method CloneOfPendingEvents() returns (copy: seq<E>)
      modifies this`list
      ensures copy == old(list) && list == []
    {
      copy := list;
      list := [];
    }

    method AddEventObserver(o: Observer)
      modifies this`observers
      ensures Now() == Next(old(Now()), AddObserver(o))
    {
      observers := observers + [o];
    }

    method RemoveEventObserver(o: Observer)
      modifies this`observers
      ensures Now() == Next(old(Now()), RemoveObserver(o))
    {
      observers := RemoveFirst(observers, o);
    }

    /** The batch in hand, for one observer after the other. */
    method Dispatch()
      requires edt.Dispatching?
      modifies this
      ensures Now() == Next(old(Now()), EdtStep)
    {
      var batch := edt.batch;
      for i := 0 to |observers|
        invariant observers == old(observers)
        invariant Now() == old(Now()).(received := Deliver(old(received), observers[..i], batch))
      {
        assert observers[..i + 1][..i] == observers[..i];
        received := received[observers[i] := ReceivedBy(received, observers[i]) + [batch]];
      }
      assert observers[..|observers|] == observers;
      dispatched := dispatched + [batch];
      edt := Looking;
    }
  }
}
