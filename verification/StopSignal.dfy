/**
  The eventfd as the reaper's stop signal: which stops are seen, what a stop leaves behind, and which runs take the
  counter for a frame (Dispatcher.cpp:99-181).
 */
module StopSignal {
  import opened Base
  import opened Reaper

  // ---------------------------------------------------------------- the counter

  /** Stop writes among the steps of a run. */
  ghost function Writes(s: State, acts: seq<Action>): nat
    decreases |acts|
  {
    if acts == [] || !Enabled(s, acts[0]) then 0
    else (if acts[0].Control? && s.control.TWrite? && acts[0].c.ok then 1 else 0) + Writes(Next(s, acts[0]), acts[1..])
  }

  /** The counters the reaper has read, added up. */
  ghost function Drained(s: State, acts: seq<Action>): nat
    decreases |acts|
  {
    if acts == [] || !Enabled(s, acts[0]) then 0
    else (if acts[0].Reap? && AtEventRead(s.thread.pc) then s.counter else 0) + Drained(Next(s, acts[0]), acts[1..])
  }

  /**
    Nothing but stop writes to the eventfd and nothing but the reaper's reads drains it: the rest is in the counter.
   */
  lemma {:induction false} CounterConserved(s: State, acts: seq<Action>, s': State)
    requires Run(s, acts, s')
    ensures s'.counter + Drained(s, acts) == s.counter + Writes(s, acts)
    decreases |acts|
  {
    if acts != [] {
      CounterConserved(Next(s, acts[0]), acts[1..], s');
    }
  }

  /**
    A stop leaves its write in the eventfd: after a run that began with counter 0 the counter is positive until the next
    start, so no two runs in a row begin with counter 0.
   */
  lemma StopLeavesCounter(s: State, c: Choice)
    requires Reachable(s) && s.thread.clean && s.thread.pc.RNone?
    ensures s.counter > 0
    ensures s.control.SSpawn? ==> !ControlNext(s, c).thread.clean
  {
    ReachableInv(s);
  }

  /**
    A run that has a counter left over and no stop requested goes on to read it as if it were a frame: unless it spins
    on the lock the reaper has a next step that needs no signal, and each keeps the counter and comes closer to the
    read, which hands the counter to the callbacks and drains it.
   */
  lemma RestartReadsCounter(s: State, swap: bool)
    requires Reachable(s) && Running(s.thread.pc) && !s.thread.token && s.counter > 0
    ensures ReapEnabled(s, false, swap) <==> !Spinning(s)
    ensures !Spinning(s) && !AtEventRead(s.thread.pc) ==>
      var t := ReapNext(s, false, swap);
      && t.counter == s.counter && Running(t.thread.pc)
      && StepsTo(t.thread.pc, Event) < StepsTo(s.thread.pc, Event)
    ensures AtEventRead(s.thread.pc) ==>
      var t := ReapNext(s, false, swap);
      && t.counter == 0 && t.trace.reaped == s.trace.reaped
      && t.thread.pc == RLock(Item(Frame(s.counter % 0x1_0000_0000, s.counter / 0x1_0000_0000), true),
                              s.thread.pc.rest)
  {
    ReachableInv(s);
  }

  /** Some run with no further start takes the reaper to a read of the eventfd. */
  ghost predicate CanReadCounter(s: State)
  {
    exists acts, s' :: Run(s, acts, s') && NoStart(acts) && AtEventRead(s'.thread.pc)
  }

  lemma {:induction false} CleanNeverReads(s: State, acts: seq<Action>, s': State)
    requires Inv(s) && s.thread.clean && !InStart(s.control) && Run(s, acts, s') && NoStart(acts)
    ensures !AtEventRead(s'.thread.pc)
    decreases |acts|
  {
    if acts != [] {
      assert acts[0] in acts && forall a :: a in acts[1..] ==> a in acts;
      StepKeepsInv(s, acts[0]);
      CleanNeverReads(Next(s, acts[0]), acts[1..], s');
    }
  }

  /** Two steps of a new reaper, when the counter is positive. */
  lemma NewReaperReads(s: State)
    requires s.thread.pc.RWait? && !s.thread.token && Event in s.port.epoll && s.counter > 0
    ensures CanReadCounter(s)
  {
    var a := Reap(false, false);
    var t := Next(s, a);
    var u := Next(t, a);
    assert Run(u, [], u);
    assert [a][1..] == [] && [a, a][1..] == [a];
    assert Run(t, [a], u) && Run(s, [a, a], u);
    assert NoStart([a, a]);
  }

  /** A thread can read the eventfd as a frame if and only if it was started with a positive counter. */
  lemma ReadsCounterIff(s: State, c: Choice)
    requires Reachable(s) && s.control.SSpawn? && s.thread.pc.RNone?
    ensures CanReadCounter(ControlNext(s, c)) <==> s.counter > 0
  {
    ReachableInv(s);
    var t := ControlNext(s, c);
    ReachableAfter(s, Control(c));
    ReachableInv(t);
    if s.counter > 0 {
      NewReaperReads(t);
    } else {
      forall acts, s' | Run(t, acts, s') && NoStart(acts) ensures !AtEventRead(s'.thread.pc) {
        CleanNeverReads(t, acts, s');
      }
    }
  }

  lemma ReachableAfter(s: State, a: Action)
    requires Reachable(s) && Enabled(s, a)
    ensures Reachable(Next(s, a))
  {
    var _ := Go(s, a);
  }

  /**
    No lost stop: in a run that began with counter 0, a positive counter means stop was requested, the reaper never
    reads the eventfd as a frame, and once stop() has written, the counter stays positive until the thread has
    returned.
   */
  lemma NoLostStop(s: State)
    requires Reachable(s) && s.thread.clean && Running(s.thread.pc)
    ensures s.counter > 0 ==> s.thread.token
    ensures !AtEventRead(s.thread.pc)
    ensures s.control.TJoin? ==> s.counter > 0
  {
    ReachableInv(s);
  }

  // ---------------------------------------------------------------- a stop that is seen

  /** stop() has written, the reaper has not returned, and it is not already past the point of reading the eventfd. */
  predicate StopSeen(s: State)
  {
    && s.control.TJoin? && s.thread.token && !s.thread.pc.RNone?
    && (Running(s.thread.pc) ==> s.counter > 0 && !AtEventRead(s.thread.pc))
  }

  /** The batch is got or its first report looked at: the eventfd is reported, and ends the run. */
  lemma BatchSeen(s: State, intr: bool, swap: bool)
    requires LifeOk(s) && StopSeen(s) && (s.thread.pc.RWait? || s.thread.pc.RBatch?) && ReapEnabled(s, intr, swap)
    ensures StopSeen(ReapNext(s, intr, swap))
    ensures StepsTo(ReapNext(s, intr, swap).thread.pc, Event) < StepsTo(s.thread.pc, Event)
  {
    var pc := s.thread.pc;
    if pc.RWait? {
      ReadyListOk(s, swap);
    } else if pc.events != [] {
      FirstOfBatch(pc.events);
    }
  }

  lemma ReapSeen(s: State, intr: bool, swap: bool)
    requires LifeOk(s) && StopSeen(s) && Running(s.thread.pc) && ReapEnabled(s, intr, swap)
    ensures StopSeen(ReapNext(s, intr, swap))
    ensures StepsTo(ReapNext(s, intr, swap).thread.pc, Event) < StepsTo(s.thread.pc, Event)
  {
    if s.thread.pc.RWait? || s.thread.pc.RBatch? {
      BatchSeen(s, intr, swap);
    }
  }

  /**
    Frames may keep arriving and threads may keep registering; every step of the reaper itself brings its return
    closer.
   */
  lemma StopSeenStep(s: State, a: Action)
    requires LifeOk(s) && StopSeen(s) && Running(s.thread.pc) && Enabled(s, a)
    ensures StopSeen(Next(s, a))
    ensures StepsTo(Next(s, a).thread.pc, Event) + (if a.Reap? then 1 else 0) <= StepsTo(s.thread.pc, Event)
  {
    if a.Reap? { ReapSeen(s, a.intr, a.swap); }
  }

  function Reaps(acts: seq<Action>): nat
  {
    if acts == [] then 0 else (if acts[0].Reap? then 1 else 0) + Reaps(acts[1..])
  }

  /** No registration with an id out of range takes the lock. */
  predicate NoBadTake(acts: seq<Action>)
  {
    forall i :: 0 <= i < |acts| && acts[i].Register? && acts[i].r.Take? ==> InRange(acts[i].r.ids)
  }

  predicate NoControl(acts: seq<Action>)
  {
    forall i :: 0 <= i < |acts| ==> !acts[i].Control?
  }

  /**
    The join of a stop that is seen: whatever arrives or registers, the reaper returns within twenty-one steps of its
    own, and until then it has a next step that needs no signal, unless it spins on the lock. Unless a registration
    with an id out of range has taken the lock, whoever has it then is a registration that runs on to give it back.
   */
  lemma {:induction false} JoinReturns(s: State, acts: seq<Action>, s': State)
    requires LifeOk(s) && StopSeen(s) && Running(s.thread.pc)
    requires Run(s, acts, s') && Running(s'.thread.pc) && NoControl(acts)
    ensures Reaps(acts) + StepsTo(s'.thread.pc, Event) <= StepsTo(s.thread.pc, Event) <= 21
    ensures ReapEnabled(s', false, false) <==> !Spinning(s')
    ensures !Doomed(s.lock) && NoBadTake(acts) && Spinning(s') ==>
      s'.lock.WithRegistration? && AfterHolder(s').lock.Free?
    decreases |acts|
  {
    if acts != [] {
      StopSeenStep(s, acts[0]);
      StepKeepsLife(s, acts[0]);
      var t := Next(s, acts[0]);
      if Running(t.thread.pc) {
        JoinReturns(t, acts[1..], s');
      } else {
        ExitedStays(t, acts[1..], s');
      }
    }
  }

  lemma {:induction false} ExitedStays(s: State, acts: seq<Action>, s': State)
    requires s.control.TJoin? && !Running(s.thread.pc) && Run(s, acts, s') && NoControl(acts)
    ensures !Running(s'.thread.pc)
    decreases |acts|
  {
    if acts != [] {
      ExitedStays(Next(s, acts[0]), acts[1..], s');
    }
  }

  /** In a run that began with counter 0, a stop that has written is always seen. */
  lemma CleanStopSeen(s: State)
    requires Reachable(s) && s.thread.clean && s.control.TJoin?
    ensures StopSeen(s)
  {
    ReachableInv(s);
  }

  // ---------------------------------------------------------------- a stop that is lost

  /** The next thing the reaper handles is a frame to dispatch, which takes the lock. */
  predicate DispatchAhead(s: State)
  {
    match s.thread.pc
    case RLock(_, _) => true
    case RRead(fd, _) => Readable(s.port, fd)
    case RBatch(events) => events != [] && Readable(s.port, events[0])
    case _ => false
  }

  /** The reaper is bound to spin on a lock that nobody will give back. */
  predicate BoundToSpin(s: State)
  {
    Doomed(s.lock) && DispatchAhead(s)
  }

  /**
    stop() has written and waits, but the reaper is about to drain, or has drained, the eventfd as if it were a frame,
    or is bound to spin for ever.
   */
  predicate Lost(s: State)
  {
    && s.control.TJoin? && Running(s.thread.pc)
    && (BoundToSpin(s) || (Event !in Pending(s.thread.pc) && (AtEventRead(s.thread.pc) || s.counter == 0)))
  }

  /** No step of a run is a signal that interrupts epoll_wait. */
  predicate NoSignal(acts: seq<Action>)
  {
    forall i :: 0 <= i < |acts| ==> !(acts[i].Reap? && acts[i].intr)
  }

  lemma LostStep(s: State, a: Action)
    requires Lost(s) && Enabled(s, a) && !(a.Reap? && a.intr)
    ensures Lost(Next(s, a))
  {
  }

  lemma {:induction false} LostForever(s: State, acts: seq<Action>, s': State)
    requires Lost(s) && Run(s, acts, s') && NoSignal(acts)
    ensures Lost(s')
    decreases |acts|
  {
    if acts != [] {
      assert !(acts[0].Reap? && acts[0].intr);
      LostStep(s, acts[0]);
      LostForever(Next(s, acts[0]), acts[1..], s');
    }
  }

  /** Some run without signals ends with the reaper returned. */
  ghost predicate CanReturn(s: State)
  {
    exists acts, s' :: Run(s, acts, s') && NoSignal(acts) && s'.thread.pc.RExited?
  }

  /** The next step towards the return: the reaper's own, or that of the registration whose lock it waits for. */
  function Towards(s: State): Action
  {
    if Spinning(s) then Register(Advance) else Reap(false, false)
  }

  /** Steps the registration that has the lock has still to take. */
  function HolderSteps(l: Lock): nat
  {
    if l.WithRegistration? then |l.ids| + 1 else 0
  }

  lemma TowardsStep(s: State)
    requires LifeOk(s) && StopSeen(s) && Running(s.thread.pc) && !BoundToSpin(s)
    ensures Enabled(s, Towards(s)) && !BoundToSpin(Next(s, Towards(s)))
    ensures Spinning(s) ==> HolderSteps(Next(s, Towards(s)).lock) < HolderSteps(s.lock)
  {
  }

  lemma {:induction false} SeenCanReturn(s: State)
    requires LifeOk(s) && StopSeen(s) && !BoundToSpin(s)
    ensures CanReturn(s)
    decreases StepsTo(s.thread.pc, Event), HolderSteps(s.lock)
  {
    if Running(s.thread.pc) {
      var a := Towards(s);
      TowardsStep(s);
      StopSeenStep(s, a);
      StepKeepsLife(s, a);
      SeenCanReturn(Next(s, a));
      var acts, s' :| Run(Next(s, a), acts, s') && NoSignal(acts) && s'.thread.pc.RExited?;
      assert ([a] + acts)[1..] == acts;
      assert Run(s, [a] + acts, s');
    } else {
      assert Run(s, [], s);
    }
  }

  /**
    Exactly when stop() is lost as it writes: the reaper, having found no stop requested, is already at the read of the
    eventfd, or the lock was kept by a failed registration or is with one that has an id out of range, and a frame to
    dispatch comes before the eventfd's report. Then
    no run without a signal ever lets the join return; otherwise one does.
   */
  lemma LostWakeup(s: State, c: Choice)
    requires Reachable(s) && s.control.TWrite? && c.ok
    ensures CanReturn(ControlNext(s, c)) <==> !AtEventRead(s.thread.pc) && !BoundToSpin(s)
  {
    var t := ControlNext(s, c);
    ReachableInv(s);
    ControlKeepsLife(s, c);
    if AtEventRead(s.thread.pc) || BoundToSpin(s) {
      assert Lost(t);
      forall acts, s' | Run(t, acts, s') && NoSignal(acts) ensures !s'.thread.pc.RExited? {
        LostForever(t, acts, s');
      }
    } else {
      SeenCanReturn(t);
    }
  }

  // ---------------------------------------------------------------- a stop that may be lost to a doomed lock

  /** epoll watches the open socket, so a frame may be reported before the eventfd. */
  predicate Watching(p: Port)
  {
    p.sock.Open? && Sock(p.sock.n) in p.epoll
  }

  /** The report is of the open socket, on which a frame may still arrive. */
  predicate OfSocket(p: Port, fd: Fd)
  {
    p.sock.Open? && fd == Sock(p.sock.n)
  }

  /** A frame may come to be dispatched before the eventfd ends the run. */
  predicate MayDispatch(s: State)
  {
    match s.thread.pc
    case RWait => Watching(s.port)
    case RLock(_, _) => true
    case RRead(fd, rest) => fd != Event && (OfSocket(s.port, fd) || (rest == [] && Watching(s.port)))
    case RBatch(events) =>
      if events == [] then Watching(s.port)
      else events[0] != Event && (OfSocket(s.port, events[0]) || (|events| == 1 && Watching(s.port)))
    case _ => false
  }

  /** While stop() waits, some run without signals comes to where no run without signals lets the reaper return. */
  ghost predicate MayBeLost(s: State)
  {
    exists acts, s' :: Run(s, acts, s') && NoSignal(acts) && NoControl(acts) && !CanReturn(s')
  }

  lemma LostCannotReturn(s: State)
    requires Lost(s)
    ensures !CanReturn(s)
  {
    forall acts, s' | Run(s, acts, s') && NoSignal(acts) ensures !s'.thread.pc.RExited? {
      LostForever(s, acts, s');
    }
  }

  lemma MayBeLostNow(s: State)
    requires Lost(s)
    ensures MayBeLost(s)
  {
    LostCannotReturn(s);
    assert Run(s, [], s);
  }

  lemma MayBeLostAfter(s: State, a: Action)
    requires Enabled(s, a) && !(a.Reap? && a.intr) && !a.Control? && MayBeLost(Next(s, a))
    ensures MayBeLost(s)
  {
    var acts, s' :| Run(Next(s, a), acts, s') && NoSignal(acts) && NoControl(acts) && !CanReturn(s');
    assert ([a] + acts)[1..] == acts;
    assert Run(s, [a] + acts, s');
  }

  /** The next step towards the dispatch: a frame arrives where it will be read, or the reaper goes on. */
  function Onwards(s: State): Action
  {
    if s.port.queue == [] && s.port.sock.Open? then Arrive(Frame(0, 0)) else Reap(false, true)
  }

  lemma OnwardsStep(s: State)
    requires LifeOk(s) && StopSeen(s) && Running(s.thread.pc) && Doomed(s.lock) && MayDispatch(s) && !BoundToSpin(s)
    ensures Enabled(s, Onwards(s)) && MayDispatch(Next(s, Onwards(s))) && Doomed(Next(s, Onwards(s)).lock)
    ensures StopSeen(Next(s, Onwards(s))) && Running(Next(s, Onwards(s)).thread.pc)
    ensures var t := Next(s, Onwards(s));
      && StepsTo(t.thread.pc, Event) + (if Onwards(s).Reap? then 1 else 0) <= StepsTo(s.thread.pc, Event)
      && (Onwards(s).Arrive? ==> t.port.queue != [])
  {
    if Onwards(s).Reap? { ReapSeen(s, false, true); }
  }

  lemma {:induction false} DispatchMayLose(s: State)
    requires LifeOk(s) && StopSeen(s) && Running(s.thread.pc) && Doomed(s.lock) && MayDispatch(s)
    ensures MayBeLost(s)
    decreases StepsTo(s.thread.pc, Event), s.port.queue == []
  {
    if BoundToSpin(s) {
      MayBeLostNow(s);
    } else {
      OnwardsStep(s);
      StepKeepsLife(s, Onwards(s));
      DispatchMayLose(Next(s, Onwards(s)));
      MayBeLostAfter(s, Onwards(s));
    }
  }

  /** A stop that is seen, on a doomed lock that no dispatch can come to wait for. */
  predicate Certain(s: State)
  {
    StopSeen(s) && (Running(s.thread.pc) ==> Doomed(s.lock) && !MayDispatch(s))
  }

  lemma CertainStep(s: State, a: Action)
    requires LifeOk(s) && Certain(s) && Enabled(s, a) && !a.Control?
    ensures Certain(Next(s, a))
  {
    if Running(s.thread.pc) {
      StopSeenStep(s, a);
      if a.Reap? && s.thread.pc.RBatch? && s.thread.pc.events != [] { FirstOfBatch(s.thread.pc.events); }
    }
  }

  lemma {:induction false} CertainReturns(s: State, acts: seq<Action>, s': State)
    requires LifeOk(s) && Certain(s) && Run(s, acts, s') && NoControl(acts)
    ensures CanReturn(s')
    decreases |acts|
  {
    if acts == [] {
      SeenCanReturn(s);
    } else {
      assert !acts[0].Control?;
      StepKeepsLife(s, acts[0]);
      CertainStep(s, acts[0]);
      CertainReturns(Next(s, acts[0]), acts[1..], s');
    }
  }

  /**
    Once a registration with an id out of range has taken the lock, a stop may be lost as it writes exactly when the
    reaper is at the read of the eventfd or a frame may come to be dispatched before the eventfd ends the run;
    otherwise its join can always return.
   */
  lemma DoomedStop(s: State, c: Choice)
    requires Reachable(s) && s.control.TWrite? && c.ok && Doomed(s.lock)
    ensures MayBeLost(ControlNext(s, c)) <==> AtEventRead(s.thread.pc) || MayDispatch(s)
  {
    var t := ControlNext(s, c);
    ReachableInv(s);
    ControlKeepsLife(s, c);
    if AtEventRead(s.thread.pc) {
      MayBeLostNow(t);
    } else if MayDispatch(s) {
      DispatchMayLose(t);
    } else {
      forall acts, s' | Run(t, acts, s') && NoControl(acts) ensures CanReturn(s') {
        CertainReturns(t, acts, s');
      }
    }
  }

  // ---------------------------------------------------------------- both are reachable

  /** A stop that races with nothing, from a waiting reaper. */
  lemma StopSucceeds(s: State) returns (t: State)
    requires Reachable(s) && s.control.CIdle? && s.thread.pc == RWait && s.counter == 0 && s.port.queue == []
    ensures Reachable(t) && t.thread.pc.RNone? && t.control == CIdle(StopOk) && t.counter == 1
  {
    ReachableInv(s);
    t := Go(s, Stop);
    t := Go(t, Control(Choice(true, false, 0)));
    t := Go(t, Reap(false, false));
    t := Go(t, Reap(false, false));
    t := Go(t, Control(Choice(true, false, 0)));
  }

  /** start, stop, start, and a second stop that overtakes the reaper between its test and its read. */
  lemma LostWakeupReachable()
    ensures exists s :: Reachable(s) && s.control.TWrite? && AtEventRead(s.thread.pc)
              && !CanReturn(ControlNext(s, Choice(true, false, 0)))
  {
    assert Run(Init(), [], Init());
    var s := StartSucceeds(Init());
    s := StopSucceeds(s);
    s := StartSucceeds(s);
    ReachableInv(s);
    s := Go(s, Reap(false, false));
    s := Go(s, Reap(false, false));
    s := Go(s, Stop);
    LostWakeup(s, Choice(true, false, 0));
  }

  /** A registration that takes the lock and returns its error with it, while nothing else happens. */
  lemma RegistrationFails(s: State) returns (t: State)
    requires Reachable(s) && s.lock.Free?
    ensures Reachable(t) && t == s.(lock := Leaked)
  {
    t := Go(s, Register(Take([MAX_ID])));
    t := Go(t, Register(Advance));
  }

  /** A registration of ids 1 and 2048 that has written the first. */
  lemma RegistrationWillFail(s: State) returns (t: State)
    requires Reachable(s) && s.lock.Free?
    ensures Reachable(t) && t == s.(lock := WithRegistration([MAX_ID]), funcs := s.funcs + {1})
  {
    t := Go(s, Register(Take([1, MAX_ID])));
    assert [1, MAX_ID][1..] == [MAX_ID];
    t := Go(t, Register(Advance));
  }

  /** A frame comes to be dispatched while somebody else has the lock. */
  lemma FrameMakesSpin(s: State) returns (t: State)
    requires Reachable(s) && s.thread.pc.RWait? && s.control == CIdle(StartOk) && s.counter == 0 && s.port.queue == []
    ensures Reachable(t) && t.thread.pc.RLock? && t.control == s.control && t.lock == s.lock
    ensures t.thread.clean == s.thread.clean
  {
    ReachableInv(s);
    t := Go(s, Arrive(Frame(1, 0)));
    assert t.port.queue == [Frame(1, 0)] && ReadyList(t, false) == [Sock(t.port.sock.n)];
    t := Go(t, Reap(false, false));
    t := Go(t, Reap(false, false));
    assert Readable(t.port, t.thread.pc.fd);
    t := Go(t, Reap(false, false));
  }

  /** A failed registration, one frame, and a stop in the first run: the reaper spins and the join never returns. */
  lemma LeakLosesStop()
    ensures exists s :: Reachable(s) && s.control.TWrite? && s.thread.clean && s.lock.Leaked? && s.thread.pc.RLock?
              && !CanReturn(ControlNext(s, Choice(true, false, 0)))
  {
    assert Run(Init(), [], Init());
    var s := StartSucceeds(Init());
    s := RegistrationFails(s);
    s := FrameMakesSpin(s);
    s := Go(s, Stop);
    LostWakeup(s, Choice(true, false, 0));
  }

  /** The same with the registration still inside, past id 1 of {1, 2048}: no registration has failed yet. */
  lemma DoomedHolderLosesStop()
    ensures exists s :: Reachable(s) && s.control.TWrite? && s.thread.clean && s.lock == WithRegistration([MAX_ID])
              && s.thread.pc.RLock? && !CanReturn(ControlNext(s, Choice(true, false, 0)))
  {
    assert Run(Init(), [], Init());
    var s := StartSucceeds(Init());
    s := RegistrationWillFail(s);
    s := FrameMakesSpin(s);
    s := Go(s, Stop);
    assert s.lock.ids[0] >= MAX_ID;
    LostWakeup(s, Choice(true, false, 0));
  }
}
