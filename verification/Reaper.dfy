/**
  The reaper thread against `start()`, `stop()`, registering threads and the kernel (Dispatcher.cpp,
  Dispatcher.hpp:48-58, Socket.cpp:20-82): eventfd, level-triggered epoll set, one raw CAN socket with its receive
  queue, the spin lock of the callback table, and the stop token of the current jthread.
 */
module Reaper {
  import opened Base

  /** What one read returned: a frame of the socket, or the eventfd's counter taken for one. */
  datatype Item = Item(frame: Frame, ofCounter: bool)

  /** A descriptor in the epoll set. The kernel may give a new socket the number of a closed one. */
  datatype Fd = Event | Sock(n: nat)

  /** `Socket::sock_fd`: 0 before the first attempt, -1 after a failure, or an open bound socket. */
  datatype SockFd = Never | Closed | Open(n: nat)

  /**
    Who has `lock_`: nobody, the reaper, a registration with the ids it has still to write, or one that has returned its
    error without giving the lock back.
   */
  datatype Lock = Free | WithReaper | WithRegistration(ids: seq<nat>) | Leaked

  datatype ReaperPc =
    | RNone                               // no joinable thread
    | RWait                               // epoll_wait
    | RBatch(events: seq<Fd>)             // the for loop over events
    | RRead(fd: Fd, rest: seq<Fd>)        // read(fd, &frame, sizeof frame)
    | RLock(item: Item, rest: seq<Fd>)    // lock_.lock(): spins until it is free
    | RCall(item: Item, rest: seq<Fd>)    // funcs[frame.can_id](frame), if there is one
    | RUnlock(rest: seq<Fd>)              // lock_.unlock()
    | RExited                             // returned, not yet joined

  datatype Outcome = Fresh | StartOk | StartErr | StopOk | StopErr

  datatype ControlPc =
    | CIdle(last: Outcome)
    | SClose | SOpen | SAdd | SFlush | SSpawn // start()
    | TWrite | TJoin                          // stop()

  datatype Entry = Entry(item: Item, hit: bool)

  /** What the dispatcher watches: the epoll set, and the CAN socket with its receive queue. */
  datatype Port = Port(epoll: set<Fd>, sock: SockFd, queue: seq<Frame>)

  /**
    The jthread: where it is, its stop token, and the joinable handles there are. The rest is history, which no step
    reads: `clean` says the current or last run began with counter 0; `drained` that the reaper has read the eventfd
    since the socket was bound; `failed` that a stop of this thread failed after it had requested it.
   */
  datatype Thread = Thread(pc: ReaperPc, token: bool, handles: nat, clean: bool, drained: bool, failed: bool)

  /**
    History since the current socket was bound: the frames that arrived, were flushed and reaped, and what was
    dispatched. `solo` says no reaper ran since then until start() had finished with it.
   */
  datatype Trace = Trace(solo: bool, arrived: seq<Frame>, flushed: seq<Frame>, reaped: seq<Frame>, log: seq<Entry>)

  datatype State = State(counter: nat, lock: Lock, funcs: set<nat>, control: ControlPc, port: Port, thread: Thread,
                         trace: Trace)

  datatype Choice = Choice(ok: bool, flag: bool, n: nat)

  /** A registering thread takes the lock with the ids it was called with, or goes on in its loop over them. */
  datatype Registration = Take(ids: seq<nat>) | Advance

  datatype Action =
    | Arrive(f: Frame) | Register(r: Registration) | Reap(intr: bool, swap: bool) | Start | Stop | Control(c: Choice)

  /** The state the constructor leaves. */
  function Init(): State
  {
    State(0, Free, {}, CIdle(Fresh), Port({Event}, Never, []), Thread(RNone, false, 0, false, false, false),
          Trace(false, [], [], [], []))
  }

  // ---------------------------------------------------------------- the reaper

  predicate EventReady(s: State) { Event in s.port.epoll && s.counter > 0 }

  predicate SockReady(s: State) { s.port.sock.Open? && Sock(s.port.sock.n) in s.port.epoll && s.port.queue != [] }

  /** Level-triggered epoll_wait reports every ready descriptor, in either order. */
  function ReadyList(s: State, swap: bool): seq<Fd>
  {
    var e := if EventReady(s) then [Event] else [];
    var k := if SockReady(s) then [Sock(s.port.sock.n)] else [];
    if swap then k + e else e + k
  }

  predicate ReapEnabled(s: State, intr: bool, swap: bool)
  {
    match s.thread.pc
    case RNone => false
    case RExited => false
    case RWait => intr || ReadyList(s, swap) != []
    case RRead(fd, _) => fd == Event ==> s.counter > 0
    case RLock(_, _) => s.lock.Free?
    case _ => true
  }

  function Goto(s: State, pc: ReaperPc): State
  {
    s.(thread := s.thread.(pc := pc))
  }

  function ReapNext(s: State, intr: bool, swap: bool): State
    requires ReapEnabled(s, intr, swap)
  {
    match s.thread.pc
    case RWait =>
      Goto(s, if !intr then RBatch(ReadyList(s, swap)) else if s.thread.token then RExited else RWait)
    case RBatch(events) =>
      Goto(s,
        if events == [] then RWait
        else if events[0] == Event && s.thread.token then RExited
        else RRead(events[0], events[1..]))
    case RRead(fd, rest) =>
      if fd == Event then
        s.(counter := 0, thread := s.thread.(drained := true, pc := RLock(Item(CounterFrame(s.counter), true), rest)))
      else if Readable(s.port, fd) then
        var f := s.port.queue[0];
        Goto(s, RLock(Item(f, false), rest)).(port := s.port.(queue := s.port.queue[1..]),
                                              trace := s.trace.(reaped := s.trace.reaped + [f]))
      else Goto(s, RBatch(rest))
    case RLock(item, rest) => Goto(s, RCall(item, rest)).(lock := WithReaper)
    case RCall(item, rest) => Goto(s, RUnlock(rest)).(trace := Dispatched(s.trace, item, item.frame.id in s.funcs))
    case RUnlock(rest) => Goto(s, RBatch(rest)).(lock := Free)
  }

  function Dispatched(t: Trace, item: Item, hit: bool): Trace
  {
    t.(log := t.log + [Entry(item, hit)])
  }

  /** A read of fd returns a frame: it is the current socket and its queue is not empty. */
  predicate Readable(p: Port, fd: Fd)
  {
    fd.Sock? && p.sock == Open(fd.n) && p.queue != []
  }

  // ---------------------------------------------------------------- start(), stop() and register_func()

  predicate InStart(c: ControlPc) { c.SClose? || c.SOpen? || c.SAdd? || c.SFlush? || c.SSpawn? }

  predicate InStop(c: ControlPc) { c.TWrite? || c.TJoin? }

  predicate ControlEnabled(s: State, c: Choice)
  {
    !s.control.CIdle? && (s.control.TJoin? ==> s.thread.pc.RExited?)
  }

  /** Binding a socket begins a new history. */
  function Bind(s: State, n: nat): State
  {
    var alone := s.thread.pc.RNone?;
    s.(port := s.port.(sock := Open(n), queue := []), thread := s.thread.(drained := s.thread.drained && !alone),
       trace := Trace(alone, [], [], [], []))
  }

  function StartNext(s: State, c: Choice): State
    requires InStart(s.control)
  {
    match s.control
    case SClose =>
      if s.port.sock.Open? then
        s.(port := Port(s.port.epoll - {Sock(s.port.sock.n)}, Closed, []), control := SOpen)
      else s.(control := SOpen)
    case SOpen =>
      if c.ok then Bind(s, c.n).(control := SAdd)
      else s.(port := s.port.(sock := Closed), control := CIdle(StartErr))
    case SAdd =>
      if c.ok && s.port.sock.Open? then
        s.(port := s.port.(epoll := s.port.epoll + {Sock(s.port.sock.n)}), control := SFlush)
      else s.(control := CIdle(StartErr))
    case SFlush =>
      if !c.ok then s.(control := CIdle(StartErr))
      else if c.flag || s.port.queue == [] then s.(control := SSpawn)  // ENETDOWN, EAGAIN
      else
        s.(port := s.port.(queue := s.port.queue[1..]),
           trace := s.trace.(flushed := s.trace.flushed + [s.port.queue[0]]))
    case SSpawn =>
      if s.thread.pc.RNone? then
        s.(thread := Thread(RWait, false, s.thread.handles + 1, s.counter == 0, s.thread.drained, false),
           control := CIdle(StartOk))
      else s.(control := CIdle(StartOk))
  }

  function StopNext(s: State, c: Choice): State
    requires InStop(s.control)
  {
    match s.control
    case TWrite =>
      if c.ok then s.(counter := s.counter + 1, control := TJoin)
      else s.(thread := s.thread.(failed := true), control := CIdle(StopErr))
    case TJoin =>
      var h := s.thread.handles;
      s.(thread := s.thread.(pc := RNone, handles := if h == 0 then 0 else h - 1), control := CIdle(StopOk))
  }

  function ControlNext(s: State, c: Choice): State
    requires ControlEnabled(s, c)
  {
    if InStart(s.control) then StartNext(s, c) else StopNext(s, c)
  }

  predicate RegisterEnabled(s: State, r: Registration)
  {
    match r
    case Take(_) => s.lock.Free?
    case Advance => s.lock.WithRegistration?
  }

  /** One turn of the loop over the ids: past the last the lock is given back, at one out of range it is kept. */
  function RegisterNext(s: State, r: Registration): State
    requires RegisterEnabled(s, r)
  {
    match r
    case Take(ids) => s.(lock := WithRegistration(ids))
    case Advance =>
      var ids := s.lock.ids;
      if ids == [] then s.(lock := Free)
      else if ids[0] >= MAX_ID then s.(lock := Leaked)
      else s.(lock := WithRegistration(ids[1..]), funcs := s.funcs + {ids[0]})
  }

  predicate InRange(ids: seq<nat>)
  {
    forall i :: 0 <= i < |ids| ==> ids[i] < MAX_ID
  }

  /** The lock was kept by a registration that failed, or is with one that is bound to. */
  predicate Doomed(l: Lock)
  {
    l.Leaked? || (l.WithRegistration? && !InRange(l.ids))
  }

  /**
    The state after the registration that has the lock has run on to its end: the lock is given back, with the entries
    of all its ids written, exactly when none of them is past the table.
   */
  function AfterHolder(s: State): (t: State)
    requires s.lock.WithRegistration?
    ensures t.lock.Free? <==> forall id :: id in s.lock.ids ==> id < 2048
    ensures t.lock.Leaked? <==> !t.lock.Free?
    ensures t.lock.Free? <==> !Doomed(s.lock)
    ensures t.lock.Free? ==> t.funcs == s.funcs + (set id | id in s.lock.ids)
    ensures t == s.(lock := t.lock, funcs := t.funcs)
    decreases |s.lock.ids|
  {
    var t := RegisterNext(s, Advance);
    var ids := s.lock.ids;
    assert ids != [] ==> ids[0] in ids && ids == [ids[0]] + ids[1..];
    assert forall i :: 0 <= i < |ids| ==> ids[i] in ids;
    if t.lock.WithRegistration? then AfterHolder(t) else t
  }

  predicate Enabled(s: State, a: Action)
  {
    match a
    case Arrive(_) => s.port.sock.Open?
    case Register(r) => RegisterEnabled(s, r)
    case Reap(intr, swap) => ReapEnabled(s, intr, swap)
    case Start => s.control.CIdle?
    case Stop => s.control.CIdle?
    case Control(c) => ControlEnabled(s, c)
  }

  function Next(s: State, a: Action): State
    requires Enabled(s, a)
  {
    match a
    case Arrive(f) =>
      s.(port := s.port.(queue := s.port.queue + [f]), trace := s.trace.(arrived := s.trace.arrived + [f]))
    case Register(r) => RegisterNext(s, r)
    case Reap(intr, swap) => ReapNext(s, intr, swap)
    case Start => s.(control := SClose, trace := s.trace.(solo := s.trace.solo && s.thread.pc.RNone?))
    case Stop =>
      if s.thread.pc.RNone? then s.(control := CIdle(StopOk))
      else s.(thread := s.thread.(token := true), control := TWrite)
    case Control(c) => ControlNext(s, c)
  }

  ghost predicate Run(s: State, acts: seq<Action>, s': State)
    decreases |acts|
  {
    if acts == [] then s == s' else Enabled(s, acts[0]) && Run(Next(s, acts[0]), acts[1..], s')
  }

  ghost predicate Reachable(s: State)
  {
    exists acts :: Run(Init(), acts, s)
  }

  // ---------------------------------------------------------------- lifecycle

  predicate Starting(c: ControlPc) { c.SAdd? || c.SFlush? || c.SSpawn? }

  predicate Running(pc: ReaperPc) { !pc.RNone? && !pc.RExited? }

  /** The descriptors the epoll set may hold. */
  function Watchable(sock: SockFd): set<Fd>
  {
    {Event} + (if sock.Open? then {Sock(sock.n)} else {})
  }

  /** The events the reaper has been told of and not yet handled. */
  function Pending(pc: ReaperPc): seq<Fd>
  {
    match pc
    case RBatch(events) => events
    case RRead(_, rest) => rest
    case RLock(_, rest) => rest
    case RCall(_, rest) => rest
    case RUnlock(rest) => rest
    case _ => []
  }

  /** The reaper has found no stop requested and is about to read the eventfd. */
  predicate AtEventRead(pc: ReaperPc)
  {
    pc.RRead? && pc.fd == Event
  }

  /** A batch reports each of the two descriptors at most once. */
  predicate NoRepeat(pc: ReaperPc)
  {
    && |Pending(pc)| <= (if pc.RBatch? then 2 else 1)
    && (pc.RRead? && |pc.rest| == 1 ==> (pc.fd == Event) != (pc.rest[0] == Event))
    && (pc.RBatch? && |pc.events| == 2 ==> (pc.events[0] == Event) != (pc.events[1] == Event))
  }

  /** The lock is the reaper's exactly inside its section, and a reported eventfd stays readable until it is read. */
  predicate ReaperOk(pc: ReaperPc, lock: Lock, counter: nat)
  {
    && NoRepeat(pc)
    && (lock.WithReaper? <==> pc.RCall? || pc.RUnlock?)
    && (Event in Pending(pc) || AtEventRead(pc) ==> counter > 0)
  }

  predicate PortOk(p: Port, c: ControlPc)
  {
    && Event in p.epoll && p.epoll <= Watchable(p.sock)
    && (Starting(c) ==> p.sock.Open?)
    && (c.SOpen? ==> !p.sock.Open?)
    && (c.SFlush? || c.SSpawn? || c == CIdle(StartOk) ==> p.sock.Open? && p.epoll == Watchable(p.sock))
  }

  predicate ThreadOk(t: Thread, c: ControlPc)
  {
    && t.handles == (if t.pc.RNone? then 0 else 1)
    && (c == CIdle(StartOk) ==> !t.pc.RNone?)
    && (c == CIdle(StopOk) ==> t.pc.RNone?)
    && (InStop(c) ==> t.token && !t.pc.RNone?)
    && (t.pc.RExited? ==> t.token)
    && (!t.pc.RNone? ==> (t.token <==> t.failed || InStop(c)))
  }

  /**
    In a run that began with counter 0, or has drained it, the eventfd is readable or reported only after a stop
    request.
   */
  predicate SignalOk(t: Thread, counter: nat, c: ControlPc)
  {
    && ((t.clean || t.drained) && Running(t.pc) ==>
          (counter > 0 ==> t.token) && (Event in Pending(t.pc) ==> t.token) && !AtEventRead(t.pc))
    && (t.clean && (c.TJoin? || t.pc.RNone?) ==> counter > 0)
    && (t.clean ==> !t.drained)
    && (Starting(c) && t.pc.RNone? ==> !t.drained)
  }

  predicate LifeOk(s: State)
  {
    ReaperOk(s.thread.pc, s.lock, s.counter) && PortOk(s.port, s.control) && ThreadOk(s.thread, s.control)
  }

  predicate SignalsOk(s: State)
  {
    SignalOk(s.thread, s.counter, s.control)
  }

  lemma ReadyListOk(s: State, swap: bool)
    ensures NoRepeat(RBatch(ReadyList(s, swap))) && (Event in ReadyList(s, swap) <==> EventReady(s))
  {
  }

  lemma FirstOfBatch(events: seq<Fd>)
    requires NoRepeat(RBatch(events)) && events != []
    ensures NoRepeat(RRead(events[0], events[1..]))
    ensures Event in events <==> events[0] == Event || Event in events[1..]
  {
    if |events| == 2 {
      assert events == [events[0], events[1]] && events[1..] == [events[1]];
    } else {
      assert events == [events[0]];
    }
  }

  /** Both the new batch and what is left of one report each descriptor once. */
  lemma BatchKeepsReaper(s: State, intr: bool, swap: bool)
    requires LifeOk(s) && (s.thread.pc.RWait? || s.thread.pc.RBatch?) && ReapEnabled(s, intr, swap)
    ensures ReaperOk(ReapNext(s, intr, swap).thread.pc, s.lock, s.counter)
  {
    if s.thread.pc.RWait? {
      ReadyListOk(s, swap);
    } else if s.thread.pc.events != [] {
      FirstOfBatch(s.thread.pc.events);
    }
  }

  lemma ReapKeepsThread(s: State, intr: bool, swap: bool)
    requires LifeOk(s) && ReapEnabled(s, intr, swap)
    ensures var t := ReapNext(s, intr, swap); PortOk(t.port, t.control) && ThreadOk(t.thread, t.control)
  {
  }

  lemma ReapKeepsLife(s: State, intr: bool, swap: bool)
    requires LifeOk(s) && ReapEnabled(s, intr, swap)
    ensures LifeOk(ReapNext(s, intr, swap))
  {
    ReapKeepsThread(s, intr, swap);
    if s.thread.pc.RWait? || s.thread.pc.RBatch? {
      BatchKeepsReaper(s, intr, swap);
    }
  }

  lemma ControlKeepsLife(s: State, c: Choice)
    requires LifeOk(s) && ControlEnabled(s, c)
    ensures LifeOk(ControlNext(s, c))
  {
    if s.control.SAdd? && c.ok {
      assert s.port.epoll + {Sock(s.port.sock.n)} == Watchable(s.port.sock);
    }
  }

  lemma StepKeepsLife(s: State, a: Action)
    requires LifeOk(s) && Enabled(s, a)
    ensures LifeOk(Next(s, a))
  {
    match a
    case Reap(intr, swap) => ReapKeepsLife(s, intr, swap);
    case Control(c) => ControlKeepsLife(s, c);
    case _ =>
  }

  lemma ReapKeepsSignal(s: State, intr: bool, swap: bool)
    requires LifeOk(s) && SignalsOk(s) && ReapEnabled(s, intr, swap)
    ensures SignalsOk(ReapNext(s, intr, swap))
  {
    if s.thread.pc.RWait? {
      ReadyListOk(s, swap);
    }
  }

  lemma ControlKeepsSignal(s: State, c: Choice)
    requires LifeOk(s) && SignalsOk(s) && ControlEnabled(s, c)
    ensures SignalsOk(ControlNext(s, c))
  {
  }

  lemma StepKeepsSignal(s: State, a: Action)
    requires LifeOk(s) && SignalsOk(s) && Enabled(s, a)
    ensures SignalsOk(Next(s, a))
  {
    match a
    case Reap(intr, swap) => ReapKeepsSignal(s, intr, swap);
    case Control(c) => ControlKeepsSignal(s, c);
    case _ =>
  }

  // ---------------------------------------------------------------- conservation of frames

  /** The frames of the socket that were dispatched, in order. */
  function FramesOf(log: seq<Entry>): seq<Frame>
  {
    if log == [] then []
    else FramesOf(log[..|log| - 1]) + (if log[|log| - 1].item.ofCounter then [] else [log[|log| - 1].item.frame])
  }

  /** How often the counter was dispatched. */
  function CounterEntries(log: seq<Entry>): nat
  {
    if log == [] then 0 else CounterEntries(log[..|log| - 1]) + (if log[|log| - 1].item.ofCounter then 1 else 0)
  }

  /** The frame of the socket that was read and not yet dispatched. */
  function FrameInHand(pc: ReaperPc): seq<Frame>
  {
    if (pc.RLock? || pc.RCall?) && !pc.item.ofCounter then [pc.item.frame] else []
  }

  /** The counter was read and not yet dispatched. */
  function CounterInHand(pc: ReaperPc): nat
  {
    if (pc.RLock? || pc.RCall?) && pc.item.ofCounter then 1 else 0
  }

  /** The log of a solo run: the reaped frames, and one counter once the eventfd was read. */
  predicate LogOk(t: Trace, pc: ReaperPc, drained: bool)
  {
    && t.reaped == FramesOf(t.log) + FrameInHand(pc)
    && CounterEntries(t.log) + CounterInHand(pc) == (if drained then 1 else 0)
  }

  predicate QueueOk(t: Trace, p: Port)
  {
    t.arrived == t.flushed + t.reaped + p.queue
  }

  predicate SoloOk(t: Trace, pc: ReaperPc, c: ControlPc)
  {
    && (t.solo && InStart(c) ==> pc.RNone?)
    && (t.solo && Starting(c) ==> t.reaped == [] && t.log == [])
  }

  predicate ConserveOk(s: State)
  {
    && SoloOk(s.trace, s.thread.pc, s.control)
    && (s.trace.solo && s.port.sock.Open? ==>
          QueueOk(s.trace, s.port) && LogOk(s.trace, s.thread.pc, s.thread.drained))
  }

  lemma DispatchExtends(t: Trace, item: Item, hit: bool)
    ensures var d := Dispatched(t, item, hit);
      && FramesOf(d.log) == FramesOf(t.log) + (if item.ofCounter then [] else [item.frame])
      && CounterEntries(d.log) == CounterEntries(t.log) + (if item.ofCounter then 1 else 0)
  {
    assert (t.log + [Entry(item, hit)])[..|t.log|] == t.log;
  }

  /** Taking the head of the queue, for start's flush or for the reaper. */
  lemma HeadMoves(a: seq<Frame>, b: seq<Frame>, q: seq<Frame>)
    requires q != []
    ensures a + (b + [q[0]]) + q[1..] == a + b + q
    ensures b == [] ==> (a + [q[0]]) + b + q[1..] == a + b + q
  {
  }

  lemma CallConserves(s: State)
    requires ConserveOk(s) && s.thread.pc.RCall?
    ensures ConserveOk(ReapNext(s, false, false))
  {
    var item := s.thread.pc.item;
    DispatchExtends(s.trace, item, item.frame.id in s.funcs);
  }

  lemma ReadSocketConserves(s: State)
    requires ConserveOk(s) && s.thread.pc.RRead? && Readable(s.port, s.thread.pc.fd)
    ensures ConserveOk(ReapNext(s, false, false))
  {
    HeadMoves(s.trace.flushed, s.trace.reaped, s.port.queue);
  }

  lemma ReadEventConserves(s: State)
    requires LifeOk(s) && SignalsOk(s) && ConserveOk(s) && AtEventRead(s.thread.pc)
    ensures ConserveOk(ReapNext(s, false, false))
  {
  }

  /** Any other step of the reaper reads and dispatches nothing. */
  lemma ReadsNothing(s: State, intr: bool, swap: bool)
    requires ReapEnabled(s, intr, swap) && !s.thread.pc.RCall?
    requires s.thread.pc.RRead? ==> s.thread.pc.fd != Event && !Readable(s.port, s.thread.pc.fd)
    ensures var t := ReapNext(s, intr, swap);
      && t.trace == s.trace && t.port == s.port && t.control == s.control && t.thread.drained == s.thread.drained
      && FrameInHand(t.thread.pc) == FrameInHand(s.thread.pc)
      && CounterInHand(t.thread.pc) == CounterInHand(s.thread.pc)
      && !t.thread.pc.RNone?
  {
  }

  lemma ReapConserves(s: State, intr: bool, swap: bool)
    requires LifeOk(s) && SignalsOk(s) && ConserveOk(s) && ReapEnabled(s, intr, swap)
    ensures ConserveOk(ReapNext(s, intr, swap))
  {
    var pc := s.thread.pc;
    if pc.RCall? {
      CallConserves(s);
    } else if AtEventRead(pc) {
      ReadEventConserves(s);
    } else if pc.RRead? && Readable(s.port, pc.fd) {
      ReadSocketConserves(s);
    } else {
      ReadsNothing(s, intr, swap);
    }
  }

  lemma FlushConserves(s: State, c: Choice)
    requires ConserveOk(s) && s.control.SFlush?
    ensures ConserveOk(StartNext(s, c))
  {
    if s.port.queue != [] {
      HeadMoves(s.trace.flushed, s.trace.reaped, s.port.queue);
    }
  }

  lemma StartConserves(s: State, c: Choice)
    requires LifeOk(s) && SignalsOk(s) && ConserveOk(s) && InStart(s.control)
    ensures ConserveOk(StartNext(s, c))
  {
    if s.control.SFlush? {
      FlushConserves(s, c);
    }
  }

  lemma StopConserves(s: State, c: Choice)
    requires ConserveOk(s) && InStop(s.control) && ControlEnabled(s, c)
    ensures ConserveOk(StopNext(s, c))
  {
  }

  lemma ControlConserves(s: State, c: Choice)
    requires LifeOk(s) && SignalsOk(s) && ConserveOk(s) && ControlEnabled(s, c)
    ensures ConserveOk(ControlNext(s, c))
  {
    if InStart(s.control) { StartConserves(s, c); } else { StopConserves(s, c); }
  }

  lemma StepConserves(s: State, a: Action)
    requires LifeOk(s) && SignalsOk(s) && ConserveOk(s) && Enabled(s, a)
    ensures ConserveOk(Next(s, a))
  {
    match a
    case Reap(intr, swap) => ReapConserves(s, intr, swap);
    case Control(c) => ControlConserves(s, c);
    case _ =>
  }

  predicate Inv(s: State)
  {
    LifeOk(s) && SignalsOk(s) && ConserveOk(s)
  }

  lemma StepKeepsInv(s: State, a: Action)
    requires Inv(s) && Enabled(s, a)
    ensures Inv(Next(s, a))
  {
    StepKeepsLife(s, a);
    StepKeepsSignal(s, a);
    StepConserves(s, a);
  }

  lemma {:induction false} RunKeepsInv(s: State, acts: seq<Action>, s': State)
    requires Inv(s) && Run(s, acts, s')
    ensures Inv(s')
    decreases |acts|
  {
    if acts != [] {
      StepKeepsInv(s, acts[0]);
      RunKeepsInv(Next(s, acts[0]), acts[1..], s');
    }
  }

  lemma ReachableInv(s: State)
    requires Reachable(s)
    ensures Inv(s)
  {
    var acts :| Run(Init(), acts, s);
    RunKeepsInv(Init(), acts, s);
  }

  // ---------------------------------------------------------------- the theorems

  /**
    Over any sequence of start and stop calls, repeated or failing, there is at most one reaper thread, and epoll
    watches only the eventfd and the current socket. A successful start leaves exactly these two and a thread, which
    has been told to stop if and only if an earlier stop of that thread had failed. A successful stop leaves no
    thread.
   */
  lemma Lifecycle(s: State)
    requires Reachable(s)
    ensures s.thread.handles <= 1 && (s.thread.handles == 0 <==> s.thread.pc.RNone?)
    ensures Event in s.port.epoll && s.port.epoll <= Watchable(s.port.sock)
    ensures s.control == CIdle(StartOk) ==>
      && s.port.sock.Open? && s.port.epoll == {Event, Sock(s.port.sock.n)} && s.thread.handles == 1
      && (s.thread.token <==> s.thread.failed) && (s.thread.pc.RExited? ==> s.thread.failed)
    ensures s.control == CIdle(StopOk) ==> s.thread.handles == 0
  {
    ReachableInv(s);
  }

  predicate NoStart(acts: seq<Action>)
  {
    forall a :: a in acts ==> a != Start
  }

  predicate Quiet(s: State)
  {
    s.thread.pc.RNone? && s.control.CIdle?
  }

  lemma {:induction false} QuietUntilStart(s: State, acts: seq<Action>, s': State)
    requires Quiet(s) && Run(s, acts, s') && NoStart(acts)
    ensures Quiet(s') && s'.trace.log == s.trace.log
    ensures s'.trace.reaped == s.trace.reaped
    decreases |acts|
  {
    if acts != [] {
      assert acts[0] in acts && forall a :: a in acts[1..] ==> a in acts;
      QuietUntilStart(Next(s, acts[0]), acts[1..], s');
    }
  }

  /** No frame is reaped and no callback runs from the return of a successful stop to the next start. */
  lemma NoCallbackAfterStop(acts: seq<Action>, s: State, more: seq<Action>, s': State)
    requires Run(Init(), acts, s) && s.control == CIdle(StopOk)
    requires Run(s, more, s') && NoStart(more)
    ensures s'.trace.log == s.trace.log && s'.trace.reaped == s.trace.reaped
  {
    RunKeepsInv(Init(), acts, s);
    QuietUntilStart(s, more, s');
  }

  /**
    Frame conservation: for a socket bound while no reaper ran, every frame that arrived was flushed by start, then
    reaped, or is still queued, in that order. The dispatched frames are exactly the reaped ones, in order and once
    each, but for one left-over counter, which is dispatched exactly when the eventfd was read, and never in a run
    that began with counter 0.
   */
  lemma FrameConservation(s: State)
    requires Reachable(s) && s.trace.solo && s.port.sock.Open?
    ensures s.trace.arrived == s.trace.flushed + s.trace.reaped + s.port.queue
    ensures s.trace.reaped == FramesOf(s.trace.log) + FrameInHand(s.thread.pc)
    ensures CounterEntries(s.trace.log) + CounterInHand(s.thread.pc) == (if s.thread.drained then 1 else 0)
    ensures s.thread.clean ==> !s.thread.drained
  {
    ReachableInv(s);
  }

  /**
    Callbacks: from any state until the next start, an entry is only ever added to the log, a dispatch of an id that was
    registered then runs a callback, and one that runs a callback is of an id that has been registered by the end.
   */
  lemma {:induction false} RegisteredRuns(s: State, acts: seq<Action>, s': State)
    requires Run(s, acts, s') && !InStart(s.control) && NoStart(acts)
    ensures s.trace.log <= s'.trace.log && s.funcs <= s'.funcs
    ensures forall k :: |s.trace.log| <= k < |s'.trace.log| ==>
      var e := s'.trace.log[k];
      (e.item.frame.id in s.funcs ==> e.hit) && (e.hit ==> e.item.frame.id in s'.funcs)
    decreases |acts|
  {
    if acts != [] {
      assert acts[0] in acts && forall a :: a in acts[1..] ==> a in acts;
      LogGrows(s, acts[0]);
      RegisteredRuns(Next(s, acts[0]), acts[1..], s');
    }
  }

  lemma LogGrows(s: State, a: Action)
    requires Enabled(s, a) && a != Start && !InStart(s.control)
    ensures var t := Next(s, a);
      && !InStart(t.control) && s.funcs <= t.funcs
      && (t.trace.log == s.trace.log
          || (a.Reap? && s.thread.pc.RCall? && t.funcs == s.funcs
              && t.trace.log == s.trace.log + [Entry(s.thread.pc.item, s.thread.pc.item.frame.id in s.funcs)]))
  {
  }

  // ---------------------------------------------------------------- start() drains the queue

  /**
    A start that goes on to its thread, on a link that is not down, has left no frame queued; of a socket bound while no
    reaper ran, it has flushed all that had arrived.
   */
  lemma StartFlushes(s: State, c: Choice)
    requires Reachable(s) && s.control.SFlush? && StartNext(s, c).control.SSpawn? && !c.flag
    ensures StartNext(s, c).port.queue == []
    ensures s.trace.solo ==> StartNext(s, c).trace.flushed == s.trace.arrived && StartNext(s, c).trace.reaped == []
  {
    ReachableInv(s);
  }

  /** The frames that arrive in a run. */
  function Arrivals(acts: seq<Action>): seq<Frame>
  {
    if acts == [] then [] else (if acts[0].Arrive? then [acts[0].f] else []) + Arrivals(acts[1..])
  }

  /** Neither binding a socket nor flushing one is under way. */
  predicate Settled(c: ControlPc)
  {
    !InStart(c) || c.SSpawn?
  }

  lemma StepMovesFrames(s: State, a: Action)
    requires Enabled(s, a) && a != Start && Settled(s.control)
    ensures var t := Next(s, a);
      && Settled(t.control) && t.trace.solo == s.trace.solo && t.trace.flushed == s.trace.flushed
      && s.trace.reaped <= t.trace.reaped
      && t.trace.reaped + t.port.queue == s.trace.reaped + s.port.queue + (if a.Arrive? then [a.f] else [])
  {
  }

  /** Between two starts every frame that arrives joins the end of the queue, and leaves its head to be reaped. */
  lemma {:induction false} RunMovesFrames(s: State, acts: seq<Action>, s': State)
    requires Run(s, acts, s') && NoStart(acts) && Settled(s.control)
    ensures s'.trace.reaped + s'.port.queue == s.trace.reaped + s.port.queue + Arrivals(acts)
    ensures s.trace.reaped <= s'.trace.reaped
    ensures s'.trace.solo == s.trace.solo && s'.port.sock == s.port.sock
    decreases |acts|
  {
    if acts != [] {
      var a := acts[0];
      assert a in acts && forall x :: x in acts[1..] ==> x in acts;
      StepMovesFrames(s, a);
      RunMovesFrames(Next(s, a), acts[1..], s');
      assert s.trace.reaped + s.port.queue + (if a.Arrive? then [a.f] else []) + Arrivals(acts[1..])
          == s.trace.reaped + s.port.queue + Arrivals(acts);
    }
  }

  /**
    After such a start, and until the next one, what is reaped and what is queued are together exactly the frames that
    arrive from then on, in order: none that arrived before is ever reaped or dispatched.
   */
  lemma OnlyLaterFrames(s: State, c: Choice, acts: seq<Action>, s': State)
    requires Reachable(s) && s.control.SFlush? && StartNext(s, c).control.SSpawn? && !c.flag
    requires Run(StartNext(s, c), acts, s') && NoStart(acts)
    ensures s.trace.reaped <= s'.trace.reaped
    ensures s'.trace.reaped[|s.trace.reaped|..] + s'.port.queue == Arrivals(acts)
    ensures s.trace.solo ==>
      FramesOf(s'.trace.log) + FrameInHand(s'.thread.pc) + s'.port.queue == Arrivals(acts)
  {
    StartFlushes(s, c);
    var t := StartNext(s, c);
    RunMovesFrames(t, acts, s');
    assert t.trace.reaped == s.trace.reaped;
    var n := |s.trace.reaped|;
    assert s'.trace.reaped == s.trace.reaped + s'.trace.reaped[n..];
    assert (s.trace.reaped + Arrivals(acts))[n..] == Arrivals(acts);
    assert (s.trace.reaped + (s'.trace.reaped[n..] + s'.port.queue))[n..] == s'.trace.reaped[n..] + s'.port.queue;
    assert s'.trace.reaped + s'.port.queue == s.trace.reaped + (s'.trace.reaped[n..] + s'.port.queue);
    if s.trace.solo {
      ReachableInv(s);
      ControlKeepsLife(s, c);
      StepKeepsInv(s, Control(c));
      RunKeepsInv(t, acts, s');
    }
  }

  // ---------------------------------------------------------------- progress

  /** Reaper steps until a reported, or certain to be reported, descriptor is handled: at most two are ever ready. */
  function StepsTo(pc: ReaperPc, fd: Fd): nat
  {
    match pc
    case RNone => 0
    case RExited => 0
    case RWait => 12
    case RBatch(events) => 5 * |events| + 1 + (if fd in events then 0 else 12)
    case RRead(f, rest) => 5 * |rest| + 5 + (if f == fd || fd in rest then 0 else 12)
    case RLock(_, rest) => 5 * |rest| + 4 + (if fd in rest then 0 else 12)
    case RCall(_, rest) => 5 * |rest| + 3 + (if fd in rest then 0 else 12)
    case RUnlock(rest) => 5 * |rest| + 2 + (if fd in rest then 0 else 12)
  }

  /** The reaper spins on the lock, which somebody else has. */
  predicate Spinning(s: State)
  {
    s.thread.pc.RLock? && !s.lock.Free?
  }

  /**
    The reaper runs, watches the open socket, has not been told to stop, and frames are queued; the last start may have
    failed after that.
   */
  predicate Reaping(s: State)
  {
    && Running(s.thread.pc) && s.control.CIdle? && !s.thread.token
    && s.port.sock.Open? && Sock(s.port.sock.n) in s.port.epoll && s.port.queue != []
  }

  /**
    One frame per event never strands a frame. While frames are queued the reaper has a next step that needs no signal,
    unless it spins on the lock, and then the lock is a registration's or was never given back. Its own steps take the
    head of the queue or come closer to doing so, and nobody else's undo that.
   */
  lemma NoStrandedFrame(s: State, a: Action, swap: bool)
    requires Reachable(s) && Reaping(s) && Enabled(s, a) && a != Start && a != Stop
    ensures ReapEnabled(s, false, swap) <==> !Spinning(s)
    ensures Spinning(s) ==> s.lock.WithRegistration? || s.lock.Leaked?
    ensures var t := Next(s, a);
      || (a.Reap? && t.port.queue == s.port.queue[1..] && t.trace.reaped == s.trace.reaped + [s.port.queue[0]])
      || (Reaping(t) && s.port.queue <= t.port.queue && t.trace.reaped == s.trace.reaped && t.port.sock == s.port.sock
          && StepsTo(t.thread.pc, Sock(s.port.sock.n)) + (if a.Reap? && !a.intr then 1 else 0)
             <= StepsTo(s.thread.pc, Sock(s.port.sock.n)))
  {
    ReachableInv(s);
    if a.Reap? { ReapingStep(s, a.intr, a.swap); }
  }

  lemma ReapingStep(s: State, intr: bool, swap: bool)
    requires Inv(s) && Reaping(s) && ReapEnabled(s, intr, swap)
    ensures var t := ReapNext(s, intr, swap);
      || (t.port.queue == s.port.queue[1..] && t.trace.reaped == s.trace.reaped + [s.port.queue[0]])
      || (Reaping(t) && t.port.queue == s.port.queue && t.trace.reaped == s.trace.reaped && t.port.sock == s.port.sock
          && StepsTo(t.thread.pc, Sock(s.port.sock.n)) + (if !intr then 1 else 0)
             <= StepsTo(s.thread.pc, Sock(s.port.sock.n)))
  {
  }

  // ---------------------------------------------------------------- runs

  lemma {:induction false} RunExtends(s: State, acts: seq<Action>, m: State, a: Action)
    requires Run(s, acts, m) && Enabled(m, a)
    ensures Run(s, acts + [a], Next(m, a))
    decreases |acts|
  {
    if acts == [] {
      assert acts + [a] == [a];
    } else {
      RunExtends(Next(s, acts[0]), acts[1..], m, a);
      assert (acts + [a])[1..] == acts[1..] + [a];
    }
  }

  lemma Go(s: State, a: Action) returns (t: State)
    requires Reachable(s) && Enabled(s, a)
    ensures t == Next(s, a) && Reachable(t)
  {
    t := Next(s, a);
    var acts :| Run(Init(), acts, s);
    RunExtends(Init(), acts, s, a);
  }

  /** start() up to the binding of socket number 5, from a state with no reaper. */
  lemma StartBinds(s: State) returns (t: State)
    requires Reachable(s) && s.control.CIdle? && s.thread.pc.RNone?
    ensures Reachable(t) && t.control == SAdd && t.port.sock == Open(5) && t.port.queue == []
    ensures t.thread.pc.RNone? && t.counter == s.counter && t.lock == s.lock
  {
    t := Go(s, Start);
    t := Go(t, Control(Choice(true, false, 5)));
    t := Go(t, Control(Choice(true, false, 5)));
  }

  /** start() on that socket when nothing fails and nothing is queued. */
  lemma StartSucceeds(s: State) returns (t: State)
    requires Reachable(s) && s.control.CIdle? && s.thread.pc.RNone?
    ensures Reachable(t) && t.thread.pc == RWait && t.control == CIdle(StartOk) && !t.thread.token
    ensures t.counter == s.counter
    ensures t.port.queue == [] && t.port.sock == Open(5) && t.lock == s.lock && (t.thread.clean <==> s.counter == 0)
  {
    t := StartBinds(s);
    t := Go(t, Control(Choice(true, false, 5)));
    t := Go(t, Control(Choice(true, false, 5)));
    t := Go(t, Control(Choice(true, false, 5)));
  }

  /**
    A start can succeed and leave a thread that has already returned: a stop failed after its request, a signal let the
    thread see the request, and the next start found its handle still joinable.
   */
  lemma StartLeavesDeadThread()
    ensures exists s :: Reachable(s) && s.control == CIdle(StartOk) && s.thread.pc.RExited?
  {
    assert Run(Init(), [], Init());
    var s := StartSucceeds(Init());
    s := Go(s, Stop);
    s := Go(s, Control(Choice(false, false, 0)));
    s := Go(s, Reap(true, false));
    s := RestartSucceeds(s);
  }

  lemma RestartBinds(s: State) returns (t: State)
    requires Reachable(s) && s.control.CIdle? && s.thread.pc.RExited?
    ensures Reachable(t) && t.control == SAdd && t.port.sock.Open? && t.thread.pc.RExited?
  {
    t := Go(s, Start);
    t := Go(t, Control(Choice(true, false, 5)));
    t := Go(t, Control(Choice(true, false, 5)));
  }

  /** start() again, with a thread that has returned and is still joinable, on a link that is down. */
  lemma RestartSucceeds(s: State) returns (t: State)
    requires Reachable(s) && s.control.CIdle? && s.thread.pc.RExited?
    ensures Reachable(t) && t.control == CIdle(StartOk) && t.thread.pc.RExited?
  {
    t := RestartBinds(s);
    t := Go(t, Control(Choice(true, false, 5)));
    t := Go(t, Control(Choice(true, true, 5)));
    t := Go(t, Control(Choice(true, false, 5)));
  }
}
