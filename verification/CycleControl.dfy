/** The control of reasoning cycles: agents join and leave at any time, but a cycle runs with the
    members it started with. The user-defined control is the built-in one, which starts the next
    cycle as soon as all agents have finished. */
module CycleControl {

  type AID = string

  datatype State = State(cycleNum: int, registered: set<AID>, running: set<AID>, pending: set<AID>)

  /** A message that announces a cycle to its agents, or a timer set for a cycle. */
  datatype Posted = Cycle(agents: set<AID>, cycle: int) | Timer(cycle: int)

  /** What a new cycle leaves to another thread: to post its message, and then to set a timer for the
      cycle that is current at that moment. */
  datatype Task = Task(agents: set<AID>, cycle: int, messagePosted: bool)

  datatype Op =
    | AddAgent(aid: AID)
    | RemoveAgent(aid: AID)
    | AgentCycleFinished(aid: AID, cycleNum: int)
    | OnTimeout(cycleNum: int)

  datatype Reaction = Reaction(state: State, posted: seq<Posted>, tasks: seq<Task>)

  const START := State(0, {}, {}, {})

  function InformAll(s: State, cycle: int): Reaction {
    var agents := s.registered + s.pending;
    Reaction(State(cycle, agents, agents, {}), [], [Task(agents, cycle, false)])
  }

  predicate CanProceed(s: State) {
    |s.registered| + |s.pending| > 0 && |s.running| == 0
  }

  function NextIfPossible(s: State): Reaction {
    if CanProceed(s) then InformAll(s, s.cycleNum + 1) else Reaction(s, [], [])
  }

  function Handle(s: State, op: Op): Reaction {
    match op
    case AddAgent(aid) => NextIfPossible(s.(pending := s.pending + {aid}))
    case RemoveAgent(aid) =>
      var t := State(s.cycleNum, s.registered - {aid}, s.running - {aid}, s.pending - {aid});
      if aid in s.running then NextIfPossible(t) else Reaction(t, [], [])
    case AgentCycleFinished(aid, _) => NextIfPossible(s.(running := s.running - {aid}))
    case OnTimeout(cycleNum) =>
      if s.cycleNum == cycleNum || cycleNum == -1 then
        var next := NextIfPossible(s);
        if CanProceed(s) then next else Reaction(s, [Timer(s.cycleNum)], [])
      else Reaction(s, [], [])
  }

  /** A thread takes the next step of a task. */
  function RunStep(cycleNum: int, tasks: seq<Task>, index: nat): (Posted, seq<Task>)
    requires index < |tasks|
  {
    var t := tasks[index];
    if t.messagePosted then (Timer(cycleNum), tasks[..index] + tasks[index + 1..])
    else (Cycle(t.agents, t.cycle), tasks[index := t.(messagePosted := true)])
  }

  // ---------- the control as the program updates it ----------

  class ExecutionControlBean {
    var cycleNum: int
    var registered: set<AID>
    var running: set<AID>
    var pending: set<AID>
    var outbox: seq<Posted>
    // queued for the threads of an executor
    var tasks: seq<Task>

    ghost function Now(): State
      reads this
    {
      State(cycleNum, registered, running, pending)
    }

    ghost predicate Performed(r: Reaction, posted0: seq<Posted>, tasks0: seq<Task>)
      reads this
    {
      Now() == r.state && outbox == posted0 + r.posted && tasks == tasks0 + r.tasks
    }

    constructor Init()
      ensures Now() == START && outbox == [Timer(0)] && tasks == []
    {
      cycleNum, registered, running, pending := 0, {}, {}, {};
      outbox, tasks := [Timer(0)], [];
    }

    method InformAllAgsToPerformCycle(cycle: int)
      modifies this
      ensures Performed(InformAll(old(Now()), cycle), old(outbox), old(tasks))
    {
      cycleNum := cycle;
      if |pending| > 0 {
        registered := registered + pending;
        pending := {};
      }
      running := {};
      running := running + registered;
      tasks := tasks + [Task(registered, cycle, false)];
    }

    /** The body of a task, in its two steps: the timer is for the cycle of the moment. */
    method RunTask(index: nat)
      requires index < |tasks|
      modifies this`outbox, this`tasks
      ensures var r := RunStep(cycleNum, old(tasks), index); outbox == old(outbox) + [r.0] && tasks == r.1
    {
      var task := tasks[index];
      if !task.messagePosted {
        outbox := outbox + [Cycle(task.agents, task.cycle)];
        tasks := tasks[index := task.(messagePosted := true)];
      } else {
        RegisterTimeout();
        tasks := tasks[..index] + tasks[index + 1..];
      }
    }

    method RegisterTimeout()
      modifies this`outbox
      ensures outbox == old(outbox) + [Timer(cycleNum)]
    {
      outbox := outbox + [Timer(cycleNum)];
    }

    method NextCycleIfPossible() returns (proceeded: bool)
      modifies this
      ensures Performed(NextIfPossible(old(Now())), old(outbox), old(tasks))
      ensures proceeded <==> CanProceed(old(Now()))
    {
      var canProceed := |registered| + |pending| > 0 && |running| == 0;
      if canProceed {
        InformAllAgsToPerformCycle(cycleNum + 1);
        return true;
      }
      return false;
    }

    method AgentFinished(aid: AID, cycle: int)
      modifies this
      ensures Performed(Handle(old(Now()), AgentCycleFinished(aid, cycle)), old(outbox), old(tasks))
    {
      running := running - {aid};
      var _ := NextCycleIfPossible();
    }

    method Add(aid: AID)
      modifies this
      ensures Performed(Handle(old(Now()), AddAgent(aid)), old(outbox), old(tasks))
    {
      pending := pending + {aid};
      var _ := NextCycleIfPossible();
    }

    method Remove(aid: AID)
      modifies this
      ensures Performed(Handle(old(Now()), RemoveAgent(aid)), old(outbox), old(tasks))
    {
      registered := registered - {aid};
      pending := pending - {aid};
      var removed := aid in running;
      running := running - {aid};
      if removed {
        var _ := NextCycleIfPossible();
      }
    }

    method Timeout(cycle: int)
      modifies this
      ensures Performed(Handle(old(Now()), OnTimeout(cycle)), old(outbox), old(tasks))
    {
      if cycleNum == cycle || cycle == -1 {
        var proceeded := NextCycleIfPossible();
        if !proceeded {
          RegisterTimeout();
        }
      }
    }
  }

  // ---------- whole runs ----------

  /** With the agents added and not since removed, and the receivers of every cycle so far. */
  datatype Watched = Watched(s: State, members: set<AID>, cycles: seq<set<AID>>)

  function Members(members: set<AID>, op: Op): set<AID> {
    match op
    case AddAgent(aid) => members + {aid}
    case RemoveAgent(aid) => members - {aid}
    case _ => members
  }

  function Announced(tasks: seq<Task>): seq<set<AID>> {
    if tasks == [] then [] else [tasks[0].agents] + Announced(tasks[1..])
  }

  function Step(w: Watched, op: Op): Watched {
    var r := Handle(w.s, op);
    Watched(r.state, Members(w.members, op), w.cycles + Announced(r.tasks))
  }

  function Run(w: Watched, ops: seq<Op>): Watched
    decreases |ops|
  {
    if ops == [] then w else Run(Step(w, ops[0]), ops[1..])
  }

  ghost predicate Inv(w: Watched) {
    && w.s.registered + w.s.pending == w.members
    && w.s.running <= w.s.registered
    && (w.s.running == {} <==> w.members == {})
    && w.s.cycleNum == |w.cycles|
  }

  /** Either one more cycle starts, with exactly the members; or none starts and nobody joins it. */
  ghost predicate Proceeds(w: Watched, w': Watched) {
    || (w'.s.cycleNum == w.s.cycleNum + 1 && w'.cycles == w.cycles + [w'.members]
        && w'.s.running == w'.s.registered == w'.members && w'.s.pending == {})
    || (w'.s.cycleNum == w.s.cycleNum && w'.cycles == w.cycles
        && w'.s.running <= w.s.running && w'.s.registered <= w.s.registered)
  }

  lemma Nobody(s: set<AID>)
    ensures |s| == 0 <==> s == {}
  {
  }

  lemma NextAnnounces(s: State)
    ensures CanProceed(s) <==> s.registered + s.pending != {} && s.running == {}
    ensures Announced(NextIfPossible(s).tasks)
         == if CanProceed(s) then [s.registered + s.pending] else []
    ensures NextIfPossible(s).posted == []
    ensures |NextIfPossible(s).tasks| == if CanProceed(s) then 1 else 0
  {
    Nobody(s.registered);
    Nobody(s.pending);
    var tasks := [Task(s.registered + s.pending, s.cycleNum + 1, false)];
    assert tasks[1..] == [];
  }

  ghost predicate Kept(w: Watched, op: Op) {
    Inv(Step(w, op)) && Proceeds(w, Step(w, op))
  }

  lemma AddKeeps(w: Watched, aid: AID)
    requires Inv(w)
    ensures Kept(w, AddAgent(aid))
  {
    NextAnnounces(w.s.(pending := w.s.pending + {aid}));
  }

  lemma RemoveKeeps(w: Watched, aid: AID)
    requires Inv(w)
    ensures Kept(w, RemoveAgent(aid))
  {
    var s := w.s;
    var t := State(s.cycleNum, s.registered - {aid}, s.running - {aid}, s.pending - {aid});
    NextAnnounces(t);
    assert t.registered + t.pending == w.members - {aid};
  }

  lemma FinishKeeps(w: Watched, aid: AID, cycleNum: int)
    requires Inv(w)
    ensures Kept(w, AgentCycleFinished(aid, cycleNum))
  {
    NextAnnounces(w.s.(running := w.s.running - {aid}));
  }

  lemma StepInv(w: Watched, op: Op)
    requires Inv(w)
    ensures Inv(Step(w, op)) && Proceeds(w, Step(w, op))
  {
    match op
    case AddAgent(aid) => AddKeeps(w, aid);
    case RemoveAgent(aid) => RemoveKeeps(w, aid);
    case AgentCycleFinished(aid, n) => FinishKeeps(w, aid, n);
    case OnTimeout(_) => NextAnnounces(w.s);
  }

  /** A timeout never starts a cycle: whenever it fires, some agent is still running or there is none. */
  lemma TimeoutOnlyRearms(w: Watched, cycleNum: int)
    requires Inv(w)
    ensures Handle(w.s, OnTimeout(cycleNum)).state == w.s
    ensures Handle(w.s, OnTimeout(cycleNum)).tasks == []
    ensures Handle(w.s, OnTimeout(cycleNum)).posted
         == if cycleNum == w.s.cycleNum || cycleNum == -1 then [Timer(w.s.cycleNum)] else []
  {
    NextAnnounces(w.s);
  }

  lemma {:induction false} RunInv(w: Watched, ops: seq<Op>)
    requires Inv(w)
    ensures Inv(Run(w, ops)) && w.cycles <= Run(w, ops).cycles
    decreases |ops|
  {
    if ops != [] {
      StepInv(w, ops[0]);
      RunInv(Step(w, ops[0]), ops[1..]);
    }
  }

  /** In every run: the control knows exactly the agents added and not since removed, somebody is
      running while there are any, and the cycles are numbered without a gap. */
  lemma {:induction false} MembershipConserved(ops: seq<Op>, op: Op)
    ensures var w := Run(Watched(START, {}, []), ops);
            Inv(w) && Proceeds(w, Step(w, op))
  {
    RunInv(Watched(START, {}, []), ops);
    StepInv(Run(Watched(START, {}, []), ops), op);
  }

  /** An agent that joins in the middle of a cycle and stays takes no part in that cycle, and takes
      part in the next one. */
  lemma {:induction false} JoinsNextCycle(w: Watched, aid: AID, ops: seq<Op>)
    requires Inv(w) && aid in w.s.pending && aid !in w.s.registered
    requires RemoveAgent(aid) !in ops
    ensures var w' := Run(w, ops);
            if w'.s.cycleNum == w.s.cycleNum then aid !in w'.s.running && aid in w'.s.pending
            else 0 <= w.s.cycleNum < |w'.cycles| && aid in w'.cycles[w.s.cycleNum]
    decreases |ops|
  {
    if ops != [] {
      assert ops[0] in ops;
      var w1 := Step(w, ops[0]);
      StepInv(w, ops[0]);
      RunInv(w1, ops[1..]);
      if w1.s.cycleNum == w.s.cycleNum {
        assert aid in w1.members && aid !in w1.s.registered;
        JoinsNextCycle(w1, aid, ops[1..]);
      } else {
        assert w1.cycles[w.s.cycleNum] == w1.members;
      }
    }
  }

  /** So it is for every agent added while others are running. */
  lemma {:induction false} AddedMidCycle(w: Watched, aid: AID, ops: seq<Op>)
    requires Inv(w) && w.s.running != {} && aid !in w.s.registered && RemoveAgent(aid) !in ops
    ensures var w1 := Step(w, AddAgent(aid));
            var w' := Run(w1, ops);
            && w1.s.cycleNum == w.s.cycleNum
            && if w'.s.cycleNum == w.s.cycleNum then aid !in w'.s.running
               else 0 <= w.s.cycleNum < |w'.cycles| && aid in w'.cycles[w.s.cycleNum]
  {
    NextAnnounces(w.s.(pending := w.s.pending + {aid}));
    StepInv(w, AddAgent(aid));
    JoinsNextCycle(Step(w, AddAgent(aid)), aid, ops);
  }

  lemma ProceedsIff(s: State)
    ensures NextIfPossible(s).state.cycleNum
         == if s.registered + s.pending != {} && s.running == {} then s.cycleNum + 1 else s.cycleNum
  {
    Nobody(s.registered);
    Nobody(s.pending);
    Nobody(s.running);
  }

  lemma Without(all: set<AID>, aid: AID)
    ensures all - {aid} == {} <==> all == {} || all == {aid}
  {
  }

  /** The next cycle starts exactly when the last running agent finishes or leaves, or the first member
      arrives. */
  lemma ProceedsExactly(w: Watched, aid: AID, cycleNum: int)
    requires Inv(w)
    ensures Handle(w.s, AgentCycleFinished(aid, cycleNum)).state.cycleNum
         == if w.s.running == {aid} then w.s.cycleNum + 1 else w.s.cycleNum
    ensures Handle(w.s, RemoveAgent(aid)).state.cycleNum
         == if w.s.running == {aid} && w.members != {aid} then w.s.cycleNum + 1 else w.s.cycleNum
    ensures Handle(w.s, AddAgent(aid)).state.cycleNum
         == if w.members == {} then w.s.cycleNum + 1 else w.s.cycleNum
  {
    FinishedProceeds(w, aid, cycleNum);
    RemovedProceeds(w, aid);
    ProceedsIff(w.s.(pending := w.s.pending + {aid}));
    assert aid in w.s.registered + (w.s.pending + {aid});
  }

  lemma FinishedProceeds(w: Watched, aid: AID, cycleNum: int)
    requires Inv(w)
    ensures Handle(w.s, AgentCycleFinished(aid, cycleNum)).state.cycleNum
         == if w.s.running == {aid} then w.s.cycleNum + 1 else w.s.cycleNum
  {
    ProceedsIff(w.s.(running := w.s.running - {aid}));
    Without(w.s.running, aid);
  }

  lemma RemovedProceeds(w: Watched, aid: AID)
    requires Inv(w)
    ensures Handle(w.s, RemoveAgent(aid)).state.cycleNum
         == if w.s.running == {aid} && w.members != {aid} then w.s.cycleNum + 1 else w.s.cycleNum
  {
    var s := w.s;
    var t := State(s.cycleNum, s.registered - {aid}, s.running - {aid}, s.pending - {aid});
    ProceedsIff(t);
    Without(s.running, aid);
    Without(w.members, aid);
    assert t.registered + t.pending == w.members - {aid};
  }

  /** A completion takes exactly that agent out of the running ones; when it was the last one, all members
      run the next cycle. */
  lemma CompletionExactly(w: Watched, aid: AID, cycleNum: int)
    requires Inv(w)
    ensures var r := Handle(w.s, AgentCycleFinished(aid, cycleNum));
            && r.posted == []
            && (if w.s.running == {aid} then r.state == State(w.s.cycleNum + 1, w.members, w.members, {})
                else r.state == w.s.(running := w.s.running - {aid}) && r.tasks == [])
  {
    var s := w.s.(running := w.s.running - {aid});
    NextAnnounces(s);
    Without(w.s.running, aid);
    assert s.registered + s.pending == w.members;
  }

  /** A departure likewise, from all the sets. */
  lemma DepartureExactly(w: Watched, aid: AID)
    requires Inv(w)
    ensures var r, left := Handle(w.s, RemoveAgent(aid)), w.members - {aid};
            && r.posted == []
            && (if w.s.running == {aid} && left != {} then r.state == State(w.s.cycleNum + 1, left, left, {})
                else r.state == State(w.s.cycleNum, w.s.registered - {aid}, w.s.running - {aid}, w.s.pending - {aid})
                     && r.tasks == [])
  {
    var s := w.s;
    var t := State(s.cycleNum, s.registered - {aid}, s.running - {aid}, s.pending - {aid});
    NextAnnounces(t);
    Without(s.running, aid);
    assert t.registered + t.pending == w.members - {aid};
  }

  /** An arrival waits for the next cycle, unless nobody is there. */
  lemma ArrivalExactly(w: Watched, aid: AID)
    requires Inv(w)
    ensures var r := Handle(w.s, AddAgent(aid));
            && r.posted == []
            && (if w.members == {} then r.state == State(w.s.cycleNum + 1, {aid}, {aid}, {})
                else r.state == w.s.(pending := w.s.pending + {aid}) && r.tasks == [])
  {
    var s := w.s.(pending := w.s.pending + {aid});
    NextAnnounces(s);
    assert aid in s.registered + s.pending;
    if w.members == {} {
      assert w.s.registered == {} && w.s.pending == {} && s.registered + s.pending == {aid};
    }
  }

  /** The agent is through with its cycle, or gone. */
  predicate Completes(op: Op, aid: AID) {
    (op.AgentCycleFinished? || op.RemoveAgent?) && op.aid == aid
  }

  /** Who completes runs no more in this cycle. */
  lemma CompletedStops(w: Watched, op: Op)
    requires Inv(w)
    ensures var t := Step(w, op);
            t.s.cycleNum == w.s.cycleNum ==>
              t.s.running <= w.s.running && forall aid :: aid in t.s.running ==> !Completes(op, aid)
  {
    StepInv(w, op);
    match op
    case AgentCycleFinished(aid, n) => CompletionExactly(w, aid, n);
    case RemoveAgent(aid) => DepartureExactly(w, aid);
    case _ =>
  }

  /** Progress: once every agent that runs now has finished or been removed, in any order and with any
      other operations between, the cycle number has grown, unless there is no member left. */
  lemma {:induction false} CycleEnds(w: Watched, ops: seq<Op>)
    requires Inv(w) && forall aid :: aid in w.s.running ==> exists op :: op in ops && Completes(op, aid)
    ensures Run(w, ops).s.cycleNum > w.s.cycleNum || Run(w, ops).members == {}
    decreases |ops|
  {
    if ops != [] {
      var t := Step(w, ops[0]);
      StepInv(w, ops[0]);
      if t.s.cycleNum == w.s.cycleNum {
        CompletedStops(w, ops[0]);
        forall aid | aid in t.s.running ensures exists op :: op in ops[1..] && Completes(op, aid) {
          var op :| op in ops && Completes(op, aid);
          assert op != ops[0];
        }
        CycleEnds(t, ops[1..]);
      } else {
        RunInv(t, ops[1..]);
      }
    }
  }

  // ---------- the timers and the tasks ----------

  /** With the timers that are set and have not fired yet, the tasks that are not through, the messages
      posted, and the number of tasks that were left when the current cycle started. */
  datatype Clocked = Clocked(w: Watched, timers: multiset<int>, tasks: seq<Task>, messages: multiset<Posted>,
                             left: nat)

  datatype Event = Call(op: Op) | RunTask(index: nat)

  const OUTSET := Clocked(Watched(START, {}, []), multiset{0}, [], multiset{}, 0)

  /** A timeout is one of the outstanding timers. */
  ghost predicate Possible(c: Clocked, e: Event) {
    match e
    case Call(op) => op.OnTimeout? ==> op.cycleNum in c.timers
    case RunTask(index) => index < |c.tasks|
  }

  function TimersIn(posted: seq<Posted>): multiset<int> {
    if posted == [] then multiset{}
    else if posted[0].Timer? then multiset{posted[0].cycle} + TimersIn(posted[1..])
    else TimersIn(posted[1..])
  }

  function OnCall(c: Clocked, op: Op): Clocked {
    var r := Handle(c.w.s, op);
    var timers := if op.OnTimeout? then c.timers - multiset{op.cycleNum} else c.timers;
    Clocked(Step(c.w, op), timers + TimersIn(r.posted), c.tasks + r.tasks, c.messages,
            if r.tasks == [] then c.left else |c.tasks|)
  }

  function OnTask(c: Clocked, index: nat): Clocked
    requires index < |c.tasks|
  {
    var r := RunStep(c.w.s.cycleNum, c.tasks, index);
    if r.0.Timer? then c.(timers := c.timers + multiset{r.0.cycle}, tasks := r.1)
    else c.(messages := c.messages + multiset{r.0}, tasks := r.1)
  }

  function Tick(c: Clocked, e: Event): Clocked
    requires e.RunTask? ==> e.index < |c.tasks|
  {
    match e
    case Call(op) => OnCall(c, op)
    case RunTask(index) => OnTask(c, index)
  }

  ghost predicate PossibleRun(c: Clocked, events: seq<Event>)
    decreases |events|
  {
    events == [] || (Possible(c, events[0]) && PossibleRun(Tick(c, events[0]), events[1..]))
  }

  ghost function TickAll(c: Clocked, events: seq<Event>): Clocked
    requires PossibleRun(c, events)
    decreases |events|
  {
    if events == [] then c else TickAll(Tick(c, events[0]), events[1..])
  }

  /** The timers of the current cycle and the tasks that have still to set theirs are one more than the
      tasks that were left when the cycle started; and no timer is of a later cycle. */
  ghost predicate TimersInv(c: Clocked) {
    && c.timers[c.w.s.cycleNum] + |c.tasks| == 1 + c.left
    && forall n :: n in c.timers ==> 0 <= n <= c.w.s.cycleNum
  }

  /** A new cycle queues one task and sets no timer; only a timeout sets one. */
  lemma CallEffects(w: Watched, op: Op)
    requires Inv(w) && !op.OnTimeout?
    ensures var r := Handle(w.s, op);
            && r.posted == []
            && (r.state.cycleNum == w.s.cycleNum ==> r.tasks == [])
            && (r.state.cycleNum != w.s.cycleNum ==> r.state.cycleNum == w.s.cycleNum + 1 && |r.tasks| == 1)
  {
    var s := w.s;
    match op
    case AddAgent(aid) => NextAnnounces(s.(pending := s.pending + {aid}));
    case RemoveAgent(aid) =>
      NextAnnounces(State(s.cycleNum, s.registered - {aid}, s.running - {aid}, s.pending - {aid}));
    case AgentCycleFinished(aid, _) => NextAnnounces(s.(running := s.running - {aid}));
  }

  lemma CallTimers(c: Clocked, op: Op)
    requires Inv(c.w) && TimersInv(c) && Possible(c, Call(op))
    ensures TimersInv(OnCall(c, op))
  {
    if op.OnTimeout? {
      TimeoutOnlyRearms(c.w, op.cycleNum);
      var timer := Timer(c.w.s.cycleNum);
      assert [timer][1..] == [] && TimersIn([timer]) == multiset{c.w.s.cycleNum};
    } else {
      CallEffects(c.w, op);
      assert c.w.s.cycleNum + 1 !in c.timers;
    }
  }

  lemma TaskTimers(c: Clocked, index: nat)
    requires Inv(c.w) && TimersInv(c) && index < |c.tasks|
    ensures TimersInv(OnTask(c, index))
  {
  }

  lemma {:induction false} TickAllInv(c: Clocked, events: seq<Event>)
    requires Inv(c.w) && TimersInv(c) && PossibleRun(c, events)
    ensures Inv(TickAll(c, events).w) && TimersInv(TickAll(c, events))
    decreases |events|
  {
    if events != [] {
      match events[0] {
        case Call(op) =>
          StepInv(c.w, op);
          CallTimers(c, op);
        case RunTask(index) =>
          TaskTimers(c, index);
      }
      TickAllInv(Tick(c, events[0]), events[1..]);
    }
  }

  /** In every run whose timeouts are those of timers that were set: the timer of the current cycle is
      never lost, for it is set or there is a task that will set it. Once all tasks are through it is a
      single one exactly when no task was left at the start of the cycle. */
  lemma {:induction false} TimerNeverLost(events: seq<Event>)
    requires PossibleRun(OUTSET, events)
    ensures var c := TickAll(OUTSET, events);
            && TimersInv(c) && c.timers[c.w.s.cycleNum] + |c.tasks| >= 1
            && (c.tasks == [] ==> (c.timers[c.w.s.cycleNum] == 1 <==> c.left == 0))
  {
    TickAllInv(OUTSET, events);
  }

  // ---------- the messages ----------

  /** How many tasks have still to post the message. */
  function Waiting(tasks: seq<Task>, m: Posted): nat {
    if tasks == [] then 0 else WaitingIn(tasks[0], m) + Waiting(tasks[1..], m)
  }

  function WaitingIn(t: Task, m: Posted): nat {
    if !t.messagePosted && m == Cycle(t.agents, t.cycle) then 1 else 0
  }

  /** How often the message should be posted: the cycles are numbered from 1. */
  function Due(cycles: seq<set<AID>>, m: Posted): nat {
    if m.Cycle? && 1 <= m.cycle <= |cycles| && cycles[m.cycle - 1] == m.agents then 1 else 0
  }

  ghost predicate OnceEach(c: Clocked, m: Posted) {
    c.messages[m] + Waiting(c.tasks, m) == Due(c.w.cycles, m)
  }

  /** Every cycle is announced by one message, which is posted or still with its task. */
  ghost predicate MessagesInv(c: Clocked) {
    forall m :: OnceEach(c, m)
  }

  lemma {:induction false} WaitingInSum(xs: seq<Task>, ys: seq<Task>, m: Posted)
    ensures Waiting(xs + ys, m) == Waiting(xs, m) + Waiting(ys, m)
  {
    if xs == [] {
      assert xs + ys == ys;
    } else {
      WaitingInSum(xs[1..], ys, m);
      assert (xs + ys)[1..] == xs[1..] + ys && (xs + ys)[0] == xs[0];
    }
  }

  lemma {:induction false} WaitingInOne(t: Task, m: Posted)
    ensures Waiting([t], m) == WaitingIn(t, m)
  {
    assert [t][1..] == [];
  }

  /** One task among the others. */
  lemma {:induction false} WaitingAround(before: seq<Task>, t: Task, after: seq<Task>, m: Posted)
    ensures Waiting(before + [t] + after, m) == Waiting(before, m) + WaitingIn(t, m) + Waiting(after, m)
  {
    WaitingInSum(before + [t], after, m);
    WaitingInSum(before, [t], m);
    WaitingInOne(t, m);
  }

  lemma TaskMessages(c: Clocked, index: nat, m: Posted)
    requires OnceEach(c, m) && index < |c.tasks|
    ensures OnceEach(OnTask(c, index), m)
  {
    var before, t, after := c.tasks[..index], c.tasks[index], c.tasks[index + 1..];
    assert c.tasks == before + [t] + after;
    WaitingAround(before, t, after, m);
    if t.messagePosted {
      WaitingInSum(before, after, m);
    } else {
      var posted := t.(messagePosted := true);
      assert c.tasks[index := posted] == before + [posted] + after;
      WaitingAround(before, posted, after, m);
    }
  }

  /** A new cycle queues the task that announces it to its members. */
  lemma CallTasks(w: Watched, op: Op)
    requires Inv(w)
    ensures var r := Handle(w.s, op);
            if r.tasks == [] then Step(w, op).cycles == w.cycles
            else r.tasks == [Task(Step(w, op).members, |w.cycles| + 1, false)]
                 && Step(w, op).cycles == w.cycles + [Step(w, op).members]
  {
    StepInv(w, op);
    if op.OnTimeout? {
      TimeoutOnlyRearms(w, op.cycleNum);
    } else {
      CallEffects(w, op);
      var tasks := Handle(w.s, op).tasks;
      if tasks != [] {
        assert tasks[1..] == [] && Announced(tasks) == [tasks[0].agents];
        QueuedIs(w, op);
      }
    }
  }

  lemma QueuedIs(w: Watched, op: Op)
    requires Inv(w) && Handle(w.s, op).tasks != []
    ensures var r := Handle(w.s, op); r.tasks == [Task(r.state.registered, r.state.cycleNum, false)]
    ensures Handle(w.s, op).state.cycleNum == w.s.cycleNum + 1
  {
  }

  lemma CallMessages(c: Clocked, op: Op, m: Posted)
    requires Inv(c.w) && OnceEach(c, m)
    ensures OnceEach(OnCall(c, op), m)
  {
    CallTasks(c.w, op);
    var tasks := Handle(c.w.s, op).tasks;
    WaitingInSum(c.tasks, tasks, m);
    if tasks != [] {
      WaitingInOne(tasks[0], m);
    }
  }

  lemma {:induction false} MessagesKept(c: Clocked, events: seq<Event>)
    requires Inv(c.w) && MessagesInv(c) && PossibleRun(c, events)
    ensures MessagesInv(TickAll(c, events)) && Inv(TickAll(c, events).w)
    decreases |events|
  {
    if events != [] {
      var d := Tick(c, events[0]);
      forall m ensures OnceEach(d, m) {
        match events[0] {
          case Call(op) => CallMessages(c, op, m);
          case RunTask(index) => TaskMessages(c, index, m);
        }
      }
      if events[0].Call? {
        StepInv(c.w, events[0].op);
      }
      MessagesKept(d, events[1..]);
    }
  }

  /** In every run each cycle so far is announced by exactly one message, to the agents that were its
      members when it started, and nothing else is posted; once all tasks are through, all messages are. */
  lemma {:induction false} AnnouncedOnce(events: seq<Event>)
    requires PossibleRun(OUTSET, events)
    ensures var c := TickAll(OUTSET, events);
            && c.w.s.cycleNum == |c.w.cycles|
            && (forall m :: c.messages[m] + Waiting(c.tasks, m) == Due(c.w.cycles, m))
            && (c.tasks == [] ==> forall m :: c.messages[m] == Due(c.w.cycles, m))
  {
    MessagesKept(OUTSET, events);
    var c := TickAll(OUTSET, events);
    forall m ensures c.messages[m] + Waiting(c.tasks, m) == Due(c.w.cycles, m) {
      assert OnceEach(c, m);
    }
  }

  // ---------- a run with two timers ----------

  /** The event leads from c to d. */
  ghost predicate Leads(c: Clocked, e: Event, d: Clocked) {
    Possible(c, e) && Tick(c, e) == d
  }

  lemma {:induction false} TraceIsRun(cs: seq<Clocked>, events: seq<Event>, k: nat)
    requires |cs| == |events| + 1 && k <= |events|
    requires forall i :: 0 <= i < |events| ==> Leads(cs[i], events[i], cs[i + 1])
    ensures PossibleRun(cs[k], events[k..]) && TickAll(cs[k], events[k..]) == cs[|events|]
    decreases |events| - k
  {
    if k < |events| {
      TraceIsRun(cs, events, k + 1);
      assert events[k..][1..] == events[k + 1..] && events[k..][0] == events[k];
    }
  }

  /** One agent in cycle n. */
  function Lone(a: AID, n: nat, timers: multiset<int>, tasks: seq<Task>, messages: multiset<Posted>, left: nat):
    Clocked
  {
    Clocked(Watched(State(n, {a}, {a}, {}), {a}, seq(n, k => {a})), timers, tasks, messages, left)
  }

  lemma LoneStarts(a: AID)
    ensures Leads(OUTSET, Call(AddAgent(a)), Lone(a, 1, multiset{0}, [Task({a}, 1, false)], multiset{}, 0))
  {
    NextAnnounces(START.(pending := {a}));
    var c := OnCall(OUTSET, AddAgent(a));
    assert START.pending + {a} == {a} && {} + {a} == {a};
    assert c.w.cycles == [{a}] == seq(1, k => {a});
    assert multiset{0} + multiset{} == multiset{0};
  }

  lemma LoneFinishes(a: AID, n: nat, timers: multiset<int>, tasks: seq<Task>, messages: multiset<Posted>, left: nat)
    ensures Leads(Lone(a, n, timers, tasks, messages, left), Call(AgentCycleFinished(a, n)),
                  Lone(a, n + 1, timers, tasks + [Task({a}, n + 1, false)], messages, |tasks|))
  {
    var s := State(n, {a}, {a}, {});
    var t := s.(running := {a} - {a});
    NextAnnounces(t);
    assert t.running == {} && {a} + {} == {a};
    assert Announced([Task({a}, n + 1, false)]) == [{a}] by { assert [Task({a}, n + 1, false)][1..] == []; }
    assert seq(n, k => {a}) + [{a}] == seq(n + 1, k => {a});
    assert timers + multiset{} == timers;
  }

  lemma LonePosts(a: AID, n: nat, timers: multiset<int>, t: Task, rest: seq<Task>, messages: multiset<Posted>,
                  left: nat)
    requires !t.messagePosted
    ensures Leads(Lone(a, n, timers, [t] + rest, messages, left), RunTask(0),
                  Lone(a, n, timers, [t.(messagePosted := true)] + rest,
                       messages + multiset{Cycle(t.agents, t.cycle)}, left))
  {
    assert ([t] + rest)[0 := t.(messagePosted := true)] == [t.(messagePosted := true)] + rest;
  }

  lemma LoneSets(a: AID, n: nat, timers: multiset<int>, t: Task, rest: seq<Task>, messages: multiset<Posted>,
                 left: nat)
    requires t.messagePosted
    ensures Leads(Lone(a, n, timers, [t] + rest, messages, left), RunTask(0),
                  Lone(a, n, timers + multiset{n}, rest, messages, left))
  {
    assert ([t] + rest)[..0] + ([t] + rest)[1..] == rest;
  }

  /** An agent that finishes its first cycle before the thread has set the timer: the two timers that
      are set then are both of the second cycle. */
  function Hasty(a: AID): seq<Event> {
    [Call(AddAgent(a)), RunTask(0), Call(AgentCycleFinished(a, 1)), RunTask(0), RunTask(0), RunTask(0)]
  }

  lemma {:induction false} TwoTimersOfOneCycle(a: AID)
    ensures PossibleRun(OUTSET, [Call(AddAgent(a))]) && TickAll(OUTSET, [Call(AddAgent(a))]).timers[1] == 0
    ensures PossibleRun(OUTSET, Hasty(a))
    ensures var c := TickAll(OUTSET, Hasty(a)); c.w.s.cycleNum == 2 && c.tasks == [] && c.timers[2] == 2
  {
    var t, u := Task({a}, 1, false), Task({a}, 2, false);
    var t', u' := t.(messagePosted := true), u.(messagePosted := true);
    var m: multiset<Posted> := multiset{};
    var n := m + multiset{Cycle({a}, 1)};
    var o := n + multiset{Cycle({a}, 2)};
    var c1 := Lone(a, 1, multiset{0}, [t] + [], m, 0);
    var c2 := Lone(a, 1, multiset{0}, [t'] + [], n, 0);
    var c3 := Lone(a, 2, multiset{0}, [t'] + [u], n, 1);
    var c4 := Lone(a, 2, multiset{0} + multiset{2}, [u] + [], n, 1);
    var c5 := Lone(a, 2, multiset{0} + multiset{2}, [u'] + [], o, 1);
    var c6 := Lone(a, 2, multiset{0} + multiset{2} + multiset{2}, [], o, 1);
    LoneStarts(a);
    LonePosts(a, 1, multiset{0}, t, [], m, 0);
    LoneFinishes(a, 1, multiset{0}, [t'], n, 0);
    LoneSets(a, 2, multiset{0}, t', [u], n, 1);
    LonePosts(a, 2, multiset{0} + multiset{2}, u, [], n, 1);
    LoneSets(a, 2, multiset{0} + multiset{2}, u', [], o, 1);
    assert [t] + [] == [t] && [t'] + [] == [t'] && [u] + [] == [u] && [u'] + [] == [u'];
    TraceIsRun([OUTSET, c1, c2, c3, c4, c5, c6], Hasty(a), 0);
    TraceIsRun([OUTSET, c1], [Call(AddAgent(a))], 0);
    assert Hasty(a)[0..] == Hasty(a) && [Call(AddAgent(a))][0..] == [Call(AddAgent(a))];
  }
}
