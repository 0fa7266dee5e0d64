/**
  The session protocol of the daemon as a step system (Daemon.cpp, Daemon.hpp, UnixSocket.cpp).

  Threads: the accept loop (main), the cleanup thread, one worker per spawned session, and one caller
  of `stop()`. Every access to state that two threads share is a step of its own; a lock is taken
  and released by separate steps. What the code cannot control (timeouts, clients, the clock, process
  liveness, failing system calls) is the `Choice` of a step.
*/
module DaemonProtocol {
  import opened Base
  import opened Naming

  /** Who holds `sessions_mutex_`. */
  datatype Holder = Free | HeldByMain | HeldByCleaner

  /** Where a worker is inside `client_session_worker`. */
  datatype WorkerPc =
    | WNone     // no thread was created for the session
    | WTop      // reads the session's running flag
    | WFlag     // reads running_
    | WAccept   // accept with timeout
    | WRecv     // recv with timeout
    | WTouch    // a whole request is in hand: stores last_activity
    | WNetWait  // waits for the netlink mutex
    | WNetHeld  // inside process_request
    | WReply    // sends the response
    | WExited   // returned

  /** `ClientSession`, by address: the index in `State.heap`. The counters record requests in and replies out. */
  datatype Session = Session(pid: Pid, running: bool, lastActivity: int, worker: WorkerPc, joined: bool,
                             freed: bool, received: nat, replied: nat)
  {
    /** `worker_thread && worker_thread->joinable()` */
    predicate Joinable() { worker != WNone && !joined }

    predicate Live() { worker != WNone && worker != WExited }

    /** A request was fully received and its reply is still to come. */
    predicate Busy() { worker in {WTouch, WNetWait, WNetHeld, WReply} }
  }

  /** The socket a path is bound to. */
  datatype Sock = DaemonSock | SessionSock(sid: nat)

  /** What the cleanup loop read about one session when it checked it. */
  datatype Seen = Seen(lastActivity: int, alive: bool)

  /** One pass of the cleanup loop: the table it found, the pids still to visit, and what it read so far. */
  datatype Pass = Pass(now: int, start: map<Pid, nat>, todo: set<Pid>, seen: map<Pid, Seen>)

  datatype MainPc =
    | MBoot                            // run(): euid test
    | MTop                             // reads running_
    | MAccept                          // accept and recv of a registration
    | MRegWait(pid: Pid)               // waits for sessions_mutex_
    | MRegFind(pid: Pid)               // contains(pid)?
    | MSocket(pid: Pid, sid: nat)      // socket()
    | MUnlink(pid: Pid, sid: nat)      // unlink(path)
    | MBind(pid: Pid, sid: nat)        // bind()
    | MListen(pid: Pid, sid: nat)      // listen()
    | MAbort(pid: Pid, sid: nat)       // initialize() failed: the session is destroyed
    | MInsert(pid: Pid, sid: nat)      // client_sessions_[pid] = session
    | MSpawn(pid: Pid, sid: nat)       // new std::thread
    | MReply(pid: Pid)                 // sends result 0 and the channel name
    | MUnlock                          // lock_guard destroyed
    | MSweepWait                       // cleanup_sessions: waits for sessions_mutex_
    | MSweep(todo: set<Pid>)           // loop over the sessions
    | MSweepJoin(pid: Pid, todo: set<Pid>)
    | MClear                           // client_sessions_.clear(), one element at a time
    | MSweepUnlock
    | MDtor                            // ~Daemon: stop() stores running_
    | MDtorJoin                        // ~Daemon: stop() joins the cleanup thread
    | MDone                            // the Daemon, its sockets and netlink_manager_ are gone

  datatype CleanerPc =
    | CTop | CSleep | CLockWait
    | CScan(pass: Pass)
    | CCondemn(pid: Pid, pass: Pass)
    | CJoin(pid: Pid, pass: Pass)
    | CErase(pid: Pid, pass: Pass)
    | CUnlock(pass: Pass)
    | CExited

  /** The caller of `stop()`: on a thread of its own, or as a signal handler that suspends main. */
  datatype StopPc = SIdle | SJoin(onMain: bool) | SDone

  datatype State = State(
    running: bool, holder: Holder, netHolder: Option<nat>,
    heap: seq<Session>, table: map<Pid, nat>, paths: map<Path, Sock>,
    main: MainPc, cleaner: CleanerPc, stopper: StopPc)

  datatype Choice = Choice(ok: bool, pid: Pid, now: int, alive: bool)

  datatype Action =
    | ByMain(c: Choice) | ByCleaner(c: Choice) | ByWorker(i: nat, c: Choice)
    | StopBegin(onMain: bool) | StopJoin

  /** `std::chrono::minutes(5)`, in the clock's unit of seconds. */
  const SESSION_TIMEOUT := 300

  /** The state a successful `Daemon` constructor leaves. */
  function Init(): State
  {
    State(true, Free, None, [], map[], map[MainPath := DaemonSock], MBoot, CTop, SIdle)
  }

  // ---------------------------------------------------------------- pieces of steps

  function NewSession(pid: Pid, now: int): Session
  {
    Session(pid, true, now, WNone, false, false, 0, 0)
  }

  /** Destroys session object sid: its socket's destructor closes and unlinks the path. */
  function Destroy(s: State, pid: Pid, sid: nat): State
    requires sid < |s.heap|
  {
    s.(heap := s.heap[sid := s.heap[sid].(freed := true)], paths := s.paths - {Channel(pid)})
  }

  /** `client_sessions_.erase(pid)` */
  function Erase(s: State, pid: Pid): State
    requires pid in s.table && s.table[pid] < |s.heap|
  {
    Destroy(s, pid, s.table[pid]).(table := s.table - {pid})
  }

  function Update(s: State, sid: nat, x: Session): State
    requires sid < |s.heap|
  {
    s.(heap := s.heap[sid := x])
  }

  /** The test of Daemon.cpp:229-230. */
  predicate Expired(x: Seen, now: int)
  {
    !x.alive || now - x.lastActivity > SESSION_TIMEOUT
  }

  /** What a pass leaves: the entries it found, without those that were dead or idle when it checked them. */
  function Survivors<T>(start: map<Pid, T>, seen: map<Pid, Seen>, now: int): map<Pid, T>
  {
    map p | p in start && !(p in seen && Expired(seen[p], now)) :: start[p]
  }

  predicate InTable(s: State, pid: Pid)
  {
    pid in s.table && s.table[pid] < |s.heap|
  }

  predicate WorkerGone(s: State, pid: Pid)
    requires InTable(s, pid)
  {
    s.heap[s.table[pid]].worker in {WNone, WExited}
  }

  /** `session->running.store(false)` */
  function Condemn(s: State, pid: Pid): State
    requires InTable(s, pid)
  {
    Update(s, s.table[pid], s.heap[s.table[pid]].(running := false))
  }

  /** Joins the session's worker thread, when it has one. */
  function JoinWorker(s: State, pid: Pid): State
    requires InTable(s, pid)
  {
    var x := s.heap[s.table[pid]];
    Update(s, s.table[pid], x.(joined := x.worker != WNone))
  }

  // ---------------------------------------------------------------- main

  /** A signal handler running on main's thread suspends main until `stop()` returns. */
  predicate Suspended(s: State)
  {
    s.stopper == SJoin(true)
  }

  /** main is inside `handle_client_registration`, holding the lock. */
  predicate Registering(m: MainPc)
  {
    m.MRegFind? || m.MSocket? || m.MUnlink? || m.MBind? || m.MListen? || m.MAbort? || m.MInsert? || m.MSpawn?
    || m.MReply? || m.MUnlock?
  }

  /** main is inside `cleanup_sessions`, holding the lock. */
  predicate Sweeping(m: MainPc)
  {
    m.MSweep? || m.MSweepJoin? || m.MClear? || m.MSweepUnlock?
  }

  predicate RegEnabled(s: State, c: Choice)
    requires Registering(s.main)
  {
    match s.main
    case MRegFind(pid) => pid in s.table ==> InTable(s, pid)
    case MReply(_) => true
    case MUnlock => true
    case _ => s.main.sid < |s.heap|
  }

  /** Daemon.cpp:102-156 with `UnixSocket::initialize` for a server socket. */
  function RegNext(s: State, c: Choice): State
    requires Registering(s.main) && RegEnabled(s, c)
  {
    match s.main
    case MRegFind(pid) =>
      if pid in s.table then
        var x := s.heap[s.table[pid]];
        Update(s, s.table[pid], x.(lastActivity := c.now)).(main := MReply(pid))
      else
        s.(heap := s.heap + [NewSession(pid, c.now)], main := MSocket(pid, |s.heap|))
    case MSocket(pid, sid) => s.(main := if c.ok then MUnlink(pid, sid) else MAbort(pid, sid))
    case MUnlink(pid, sid) => s.(paths := s.paths - {Channel(pid)}, main := MBind(pid, sid))
    case MBind(pid, sid) =>
      // a path that exists is in use
      if c.ok && Channel(pid) !in s.paths then
        s.(paths := s.paths[Channel(pid) := SessionSock(sid)], main := MListen(pid, sid))
      else s.(main := MAbort(pid, sid))
    case MListen(pid, sid) => s.(main := if c.ok then MInsert(pid, sid) else MAbort(pid, sid))
    case MAbort(pid, sid) => Destroy(s, pid, sid).(main := MUnlock)
    case MInsert(pid, sid) => s.(table := s.table[pid := sid], main := MSpawn(pid, sid))
    case MSpawn(pid, sid) =>
      if c.ok then Update(s, sid, s.heap[sid].(worker := WTop)).(main := MReply(pid))
      else s.(main := MUnlock)
    case MReply(pid) => s.(main := MUnlock)
    case MUnlock => s.(holder := Free, main := MTop)
  }

  predicate SweepEnabled(s: State, c: Choice)
    requires Sweeping(s.main)
  {
    match s.main
    case MSweep(todo) => todo == {} || (c.pid in todo && InTable(s, c.pid))
    case MSweepJoin(pid, _) => InTable(s, pid) && WorkerGone(s, pid)
    case MClear => s.table == map[] || InTable(s, c.pid)
    case MSweepUnlock => true
  }

  /** Daemon.cpp:250-264. */
  function SweepNext(s: State, c: Choice): State
    requires Sweeping(s.main) && SweepEnabled(s, c)
  {
    match s.main
    case MSweep(todo) =>
      if todo == {} then s.(main := MClear)
      else
        Condemn(s, c.pid).(main := MSweepJoin(c.pid, todo - {c.pid}))
    case MSweepJoin(pid, todo) => JoinWorker(s, pid).(main := MSweep(todo))
    case MClear => if s.table == map[] then s.(main := MSweepUnlock) else Erase(s, c.pid)
    case MSweepUnlock => s.(holder := Free, main := MDtor)
  }

  predicate OuterEnabled(s: State, c: Choice)
    requires !Registering(s.main) && !Sweeping(s.main)
  {
    match s.main
    case MRegWait(_) => s.holder == Free
    case MSweepWait => s.holder == Free
    case MDtor => !s.stopper.SJoin?
    case MDtorJoin => s.cleaner.CExited?
    case MDone => false
    case _ => true
  }

  /** Daemon.cpp:34-84 outside the critical sections. */
  function OuterNext(s: State, c: Choice): State
    requires !Registering(s.main) && !Sweeping(s.main) && OuterEnabled(s, c)
  {
    match s.main
    case MBoot => s.(main := if c.ok then MTop else MDtor)
    case MTop => s.(main := if s.running then MAccept else MSweepWait)
    case MAccept => s.(main := if c.ok then MRegWait(c.pid) else MTop)
    case MRegWait(pid) => s.(holder := HeldByMain, main := MRegFind(pid))
    case MSweepWait => s.(holder := HeldByMain, main := MSweep(s.table.Keys))
    case MDtor => s.(running := false, main := MDtorJoin)
    case MDtorJoin => s.(paths := s.paths - {MainPath}, main := MDone)
  }

  predicate MainEnabled(s: State, c: Choice)
  {
    !Suspended(s) &&
    if Registering(s.main) then RegEnabled(s, c)
    else if Sweeping(s.main) then SweepEnabled(s, c)
    else OuterEnabled(s, c)
  }

  function MainNext(s: State, c: Choice): State
    requires MainEnabled(s, c)
  {
    if Registering(s.main) then RegNext(s, c)
    else if Sweeping(s.main) then SweepNext(s, c)
    else OuterNext(s, c)
  }

  // ---------------------------------------------------------------- cleanup thread

  predicate CleanEnabled(s: State, c: Choice)
  {
    match s.cleaner
    case CLockWait => s.holder == Free
    case CScan(p) => p.todo == {} || (c.pid in p.todo && InTable(s, c.pid))
    case CCondemn(pid, _) => InTable(s, pid)
    case CJoin(pid, _) => InTable(s, pid) && WorkerGone(s, pid)
    case CErase(pid, _) => InTable(s, pid)
    case CExited => false
    case _ => true
  }

  function CleanNext(s: State, c: Choice): State
    requires CleanEnabled(s, c)
  {
    match s.cleaner
    case CTop => s.(cleaner := if s.running then CSleep else CExited)
    case CSleep => s.(cleaner := CLockWait)
    case CLockWait => s.(holder := HeldByCleaner, cleaner := CScan(Pass(c.now, s.table, s.table.Keys, map[])))
    case CScan(p) =>
      if p.todo == {} then s.(cleaner := CUnlock(p))
      else
        var x := Seen(s.heap[s.table[c.pid]].lastActivity, c.alive);
        var p' := p.(todo := p.todo - {c.pid}, seen := p.seen[c.pid := x]);
        s.(cleaner := if Expired(x, p.now) then CCondemn(c.pid, p') else CScan(p'))
    case CCondemn(pid, p) => Condemn(s, pid).(cleaner := CJoin(pid, p))
    case CJoin(pid, p) => JoinWorker(s, pid).(cleaner := CErase(pid, p))
    case CErase(pid, p) => Erase(s, pid).(cleaner := CScan(p))
    case CUnlock(_) => s.(holder := Free, cleaner := CTop)
  }

  // ---------------------------------------------------------------- workers

  predicate WorkEnabled(s: State, i: nat)
  {
    i < |s.heap| && s.heap[i].Live() && (s.heap[i].worker == WNetWait ==> s.netHolder == None)
  }

  /** One step of the worker of session x. */
  function Advance(x: Session, daemonRunning: bool, c: Choice): Session
    requires x.Live()
  {
    match x.worker
    case WTop => x.(worker := if x.running then WFlag else WExited)
    case WFlag => x.(worker := if daemonRunning then WAccept else WExited)
    case WAccept => x.(worker := if c.ok then WRecv else WTop)
    case WRecv => if c.ok then x.(worker := WTouch, received := x.received + 1) else x.(worker := WTop)
    case WTouch => x.(worker := WNetWait, lastActivity := c.now)
    case WNetWait => x.(worker := WNetHeld)
    case WNetHeld => x.(worker := WReply)
    case WReply => x.(worker := WTop, replied := x.replied + 1)
  }

  function WorkNext(s: State, i: nat, c: Choice): State
    requires WorkEnabled(s, i)
  {
    var x := s.heap[i];
    Update(s, i, Advance(x, s.running, c)).(netHolder :=
      if x.worker == WNetWait then Some(i) else if x.worker == WNetHeld then None else s.netHolder)
  }

  // ---------------------------------------------------------------- all threads

  /** main has not begun to destroy the daemon, so other threads may still call its members. */
  predicate Alive(s: State)
  {
    !s.main.MDtor? && !s.main.MDtorJoin? && !s.main.MDone?
  }

  predicate Enabled(s: State, a: Action)
  {
    match a
    case ByMain(c) => MainEnabled(s, c)
    case ByCleaner(c) => CleanEnabled(s, c)
    case ByWorker(i, c) => WorkEnabled(s, i)
    case StopBegin(_) => s.stopper == SIdle && Alive(s)
    case StopJoin => s.stopper.SJoin? && s.cleaner.CExited?
  }

  function Next(s: State, a: Action): State
    requires Enabled(s, a)
  {
    match a
    case ByMain(c) => MainNext(s, c)
    case ByCleaner(c) => CleanNext(s, c)
    case ByWorker(i, c) => WorkNext(s, i, c)
    case StopBegin(onMain) => s.(running := false, stopper := SJoin(onMain))
    case StopJoin => s.(stopper := SDone)
  }

  /** `stop()` is called where its caller holds no lock: never by a handler that interrupts main's critical section. */
  predicate InScope(s: State, a: Action)
  {
    a == StopBegin(true) ==> s.holder != HeldByMain
  }

  /** s' is reached from s by the actions, whichever way the threads interleave. */
  ghost predicate Run(s: State, acts: seq<Action>, s': State)
    decreases |acts|
  {
    if acts == [] then s == s'
    else Enabled(s, acts[0]) && InScope(s, acts[0]) && Run(Next(s, acts[0]), acts[1..], s')
  }

  ghost predicate Reachable(s: State)
  {
    exists acts :: Run(Init(), acts, s)
  }
}
