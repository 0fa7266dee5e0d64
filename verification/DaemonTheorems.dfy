/** What the session protocol guarantees in every reachable state. */
module DaemonTheorems {
  import opened Base
  import opened Naming
  import opened DaemonProtocol
  import opened DaemonInvariant

  /** The session of pid is bound to its own path and a worker that has not been told to stop serves it. */
  predicate Served(s: State, pid: Pid)
  {
    && InTable(s, pid) && Bound(s, pid, s.table[pid])
    && s.heap[s.table[pid]].running && s.heap[s.table[pid]].Live()
  }

  /**
    No worker outlives its session, no session is destroyed with a joinable thread or an unanswered request,
    and nothing is left when the daemon and its netlink manager are destroyed.
   */
  lemma SessionLifetime(s: State)
    requires Reachable(s)
    ensures forall i :: 0 <= i < |s.heap| && s.heap[i].Live() ==>
      !s.heap[i].freed && s.heap[i].pid in s.table && s.table[s.heap[i].pid] == i
    ensures forall i :: 0 <= i < |s.heap| && s.heap[i].freed ==>
      !s.heap[i].Joinable() && s.heap[i].received == s.heap[i].replied
    ensures s.main.MDtorJoin? || s.main.MDone? ==>
      s.table == map[] && forall i :: 0 <= i < |s.heap| ==> !s.heap[i].Live()
    ensures s.main.MDone? ==> s.cleaner.CExited?
  {
    ReachableInv(s);
    forall i | 0 <= i < |s.heap|
      ensures LocalOk(s.heap[i], s.running) && Owned(s, i)
    {
    }
  }

  /**
    While the daemon runs, a registration answered with result 0 is served exactly when its thread could be created.
   */
  lemma RegistrationSound(s: State)
    requires Reachable(s) && s.main.MReply? && s.running
    ensures InTable(s, s.main.pid)
    ensures Bound(s, s.main.pid, s.table[s.main.pid])
    ensures Served(s, s.main.pid) <==> s.heap[s.table[s.main.pid]].worker != WNone
  {
    ReachableInv(s);
    var sid := s.table[s.main.pid];
    assert LocalOk(s.heap[sid], s.running) && Owned(s, sid);
    assert !Condemned(s, s.main.pid);
  }

  /** A thread was created for session i. */
  predicate HasWorker(s: State, i: nat)
  {
    i < |s.heap| && s.heap[i].worker != WNone
  }

  /** The step creates the thread of session i. */
  predicate Spawns(s: State, a: Action, i: nat)
  {
    a.ByMain? && s.main.MSpawn? && s.main.sid == i && a.c.ok
  }

  /** Only a successful thread creation gives a session a worker, and no step takes it away again. */
  lemma WorkerCreation(s: State, a: Action, i: nat)
    requires Inv(s) && Enabled(s, a)
    ensures HasWorker(Next(s, a), i) <==> HasWorker(s, i) || Spawns(s, a, i)
  {
    if a.ByMain? {
      MainWorkerCreation(s, a.c, i);
    } else if a.ByCleaner? {
      CleanKeepsShape(s, a.c);
      if i < |s.heap| { CleanKeepsWorkers(s, a.c, i); }
    } else if a.ByWorker? {
      assert LocalOk(s.heap[a.i], s.running);
      AdvanceFrame(s.heap[a.i], s.running, a.c);
    }
  }

  lemma MainWorkerCreation(s: State, c: Choice, i: nat)
    requires MainOk(s) && MainEnabled(s, c)
    ensures HasWorker(MainNext(s, c), i) <==> HasWorker(s, i) || Spawns(s, ByMain(c), i)
  {
    if Registering(s.main) {
      RegWorkerCreation(s, c, i);
    }
  }

  lemma RegWorkerCreation(s: State, c: Choice, i: nat)
    requires MainOk(s) && Registering(s.main) && RegEnabled(s, c)
    ensures HasWorker(RegNext(s, c), i) <==> HasWorker(s, i) || Spawns(s, ByMain(c), i)
  {
  }

  /** Somewhere in the run the thread of session i is created. */
  ghost predicate SpawnedIn(s: State, acts: seq<Action>, i: nat)
    decreases |acts|
  {
    acts != [] && Enabled(s, acts[0]) && (Spawns(s, acts[0], i) || SpawnedIn(Next(s, acts[0]), acts[1..], i))
  }

  lemma {:induction false} RunWorkers(s: State, acts: seq<Action>, s': State, i: nat)
    requires Inv(s) && Run(s, acts, s')
    ensures HasWorker(s', i) <==> HasWorker(s, i) || SpawnedIn(s, acts, i)
    decreases |acts|
  {
    if acts != [] {
      WorkerCreation(s, acts[0], i);
      StepKeepsInv(s, acts[0]);
      RunWorkers(Next(s, acts[0]), acts[1..], s', i);
    }
  }

  /**
    Registration soundness over whole runs: while the daemon runs, a registration answered with result 0 names a channel
    bound to that session's socket, and a live worker serves it if and only if the run created the session's thread.
   */
  lemma ServedIffSpawned(acts: seq<Action>, s: State)
    requires Run(Init(), acts, s) && s.main.MReply? && s.running
    ensures InTable(s, s.main.pid) && Bound(s, s.main.pid, s.table[s.main.pid])
    ensures Served(s, s.main.pid) <==> SpawnedIn(Init(), acts, s.table[s.main.pid])
  {
    RegistrationSound(s);
    InitInv();
    RunWorkers(Init(), acts, s, s.table[s.main.pid]);
  }

  /** A path left behind by somebody else never keeps a registration from binding: it has been unlinked by then. */
  lemma BindSucceeds(s: State, c: Choice)
    requires Reachable(s) && s.main.MBind? && MainEnabled(s, c)
    ensures c.ok <==> MainNext(s, c).main.MListen?
    ensures c.ok ==> Bound(MainNext(s, c), s.main.pid, s.main.sid)
  {
    ReachableInv(s);
  }

  /** main has a registration request in hand. */
  predicate Serving(m: MainPc)
  {
    m.MRegWait? || (Registering(m) && !m.MUnlock?)
  }

  predicate Accepts(s: State, a: Action)
  {
    a.ByMain? && s.main.MAccept? && a.c.ok
  }

  /** The pid in the last registration request that a run accepts. */
  ghost function LastAccepted(s: State, acts: seq<Action>): Option<Pid>
    decreases |acts|
  {
    if acts == [] || !Enabled(s, acts[0]) then None
    else
      var later := LastAccepted(Next(s, acts[0]), acts[1..]);
      if later.Some? then later else if Accepts(s, acts[0]) then Some(acts[0].c.pid) else None
  }

  lemma RegServes(s: State, c: Choice)
    requires Registering(s.main) && RegEnabled(s, c)
    ensures Serving(RegNext(s, c).main) ==> Serving(s.main) && RegNext(s, c).main.pid == s.main.pid
  {
  }

  lemma StepServes(s: State, a: Action)
    requires Enabled(s, a)
    ensures Serving(Next(s, a).main) ==>
      if Accepts(s, a) then Next(s, a).main.pid == a.c.pid else Serving(s.main) && Next(s, a).main.pid == s.main.pid
  {
    if a.ByMain? && Registering(s.main) {
      RegServes(s, a.c);
    }
  }

  /** The registration main works on, and answers, is that of the pid in the last request it accepted. */
  lemma {:induction false} ServesTheAccepted(s: State, acts: seq<Action>, s': State)
    requires Run(s, acts, s') && Serving(s'.main)
    ensures match LastAccepted(s, acts)
            case Some(pid) => s'.main.pid == pid
            case None => Serving(s.main) && s'.main.pid == s.main.pid
    decreases |acts|
  {
    if acts != [] {
      StepServes(s, acts[0]);
      ServesTheAccepted(Next(s, acts[0]), acts[1..], s');
    }
  }

  /**
    Every session in the map owns its path and only that path, under its text in the file system;
    the daemon's own path is never taken.
   */
  lemma PathOwnership(s: State, pid: Pid)
    requires Reachable(s) && pid in s.table
    ensures Bound(s, pid, s.table[pid])
    ensures forall p :: p in s.paths && s.paths[p] == SessionSock(s.table[pid]) ==>
      PathText(p) == PathText(Channel(pid))
    ensures forall q :: q in s.table && PathText(Channel(q)) == PathText(Channel(pid)) ==> q == pid
    ensures !s.main.MDone? ==> MainPath in s.paths && s.paths[MainPath] == DaemonSock
    ensures PathText(Channel(pid)) != PathText(MainPath)
  {
    ReachableInv(s);
    forall p | p in s.paths && s.paths[p] == SessionSock(s.table[pid])
      ensures PathText(p) == PathText(Channel(pid))
    {
      assert BindingOk(s, p);
    }
    forall q | q in s.table && PathText(Channel(q)) == PathText(Channel(pid))
      ensures q == pid
    {
      PathTextInjective(Channel(q), Channel(pid));
    }
    PathTextInjective(Channel(pid), MainPath);
  }

  /** No step of any thread unlinks or rebinds the path of a session that stays in the map, nor the daemon's. */
  lemma StepsUnlinkNoLivePath(s: State, a: Action, pid: Pid)
    requires Reachable(s) && Enabled(s, a) && InScope(s, a)
    requires pid in s.table && pid in Next(s, a).table && Next(s, a).table[pid] == s.table[pid]
    ensures Bound(Next(s, a), pid, s.table[pid])
    ensures !Next(s, a).main.MDone? ==> MainPath in Next(s, a).paths && Next(s, a).paths[MainPath] == DaemonSock
  {
    ReachableInv(s);
    StepKeepsInv(s, a);
  }

  /**
    A finished cleanup pass read every session it found exactly once, and left exactly those that were neither
    dead nor idle for more than five minutes when it read them.
   */
  lemma CleanupPassExact(s: State)
    requires Reachable(s) && s.cleaner.CUnlock?
    ensures var p := s.cleaner.pass;
      && p.seen.Keys == p.start.Keys
      && s.table == Survivors(p.start, p.seen, p.now)
      && forall pid :: pid in p.start ==> (pid in s.table <==> !Expired(p.seen[pid], p.now))
  {
    ReachableInv(s);
  }

  // ---------------------------------------------------------------- a session whose thread could not be created

  lemma {:induction false} RunExtends(s: State, acts: seq<Action>, m: State, a: Action)
    requires Run(s, acts, m) && Enabled(m, a) && InScope(m, a)
    ensures Run(s, acts + [a], Next(m, a))
    decreases |acts|
  {
    if acts == [] {
      assert acts + [a] == [a];
    } else {
      RunExtends(Next(s, acts[0]), acts[1..], m, a);
      assert (acts + [a])[1..] == acts[1..] + [a];
    }
  }

  lemma ReachableStep(s: State, a: Action)
    requires Reachable(s) && Enabled(s, a) && InScope(s, a)
    ensures Reachable(Next(s, a))
  {
    var acts :| Run(Init(), acts, s);
    RunExtends(Init(), acts, s, a);
  }

  /** One step of main with the given outcome, on behalf of pid 7 at time 0. */
  lemma MainStep(s: State, ok: bool) returns (t: State)
    requires Reachable(s) && MainEnabled(s, Choice(ok, 7, 0, true))
    ensures t == MainNext(s, Choice(ok, 7, 0, true)) && Reachable(t)
  {
    t := MainNext(s, Choice(ok, 7, 0, true));
    ReachableStep(s, ByMain(Choice(ok, 7, 0, true)));
  }

  function At(m: MainPc, holder: Holder): State
  {
    State(true, holder, None, [NewSession(7, 0)], map[7 := 0],
          map[MainPath := DaemonSock, Channel(7) := SessionSock(0)], m, CTop, SIdle)
  }

  /** The same state before pid 7 is inserted and, at first, before its path is bound. */
  function Before(m: MainPc, bound: bool): State
  {
    At(m, HeldByMain).(table := map[],
      paths := if bound then At(m, HeldByMain).paths else map[MainPath := DaemonSock])
  }

  function Early(m: MainPc, holder: Holder): State
  {
    Init().(main := m, holder := holder)
  }

  lemma FirstRegistrationArrives()
    ensures Reachable(Early(MRegWait(7), Free))
  {
    assert Run(Init(), [], Init());
    var s := MainStep(Init(), true);  // boot
    assert s == Early(MTop, Free);
    s := MainStep(s, true);           // running_ is true
    assert s == Early(MAccept, Free);
    s := MainStep(s, true);           // a client registers
    assert s == Early(MRegWait(7), Free);
  }

  lemma FirstRegistrationStarts()
    ensures Reachable(Before(MSocket(7, 0), false))
  {
    FirstRegistrationArrives();
    var s := MainStep(Early(MRegWait(7), Free), true);
    assert s == Early(MRegFind(7), HeldByMain);
    s := MainStep(s, true);           // pid 7 is new
    assert s == Before(MSocket(7, 0), false);
  }

  lemma FirstRegistrationBinds()
    ensures Reachable(Before(MListen(7, 0), true))
  {
    FirstRegistrationStarts();
    var s := MainStep(Before(MSocket(7, 0), false), true);
    s := MainStep(s, true);           // unlink
    assert s.paths == map[MainPath := DaemonSock];
    assert s == Before(MBind(7, 0), false);
    s := MainStep(s, true);           // bind
    assert s == Before(MListen(7, 0), true);
  }

  /** A first registration of pid 7 whose `std::thread` cannot be created leaves its session in the map. */
  lemma ThreadlessSessionStays()
    ensures Reachable(At(MUnlock, HeldByMain))
  {
    FirstRegistrationBinds();
    var s := MainStep(Before(MListen(7, 0), true), true);
    s := MainStep(s, true);           // insert
    assert s == At(MSpawn(7, 0), HeldByMain);
    s := MainStep(s, false);          // the thread cannot be created
    assert s == At(MUnlock, HeldByMain);
  }

  lemma SecondRegistrationArrives()
    ensures Reachable(At(MRegWait(7), Free))
  {
    ThreadlessSessionStays();
    var s := MainStep(At(MUnlock, HeldByMain), true);
    assert s == At(MTop, Free);
    s := MainStep(s, true);
    assert s == At(MAccept, Free);
    s := MainStep(s, true);
    assert s == At(MRegWait(7), Free);
  }

  /** The second registration of that pid is answered with result 0 although no thread serves the channel. */
  lemma ThreadlessSessionAnswered()
    ensures exists s :: Reachable(s) && s.main == MReply(7) && s.running && !Served(s, 7)
  {
    SecondRegistrationArrives();
    var s := MainStep(At(MRegWait(7), Free), true);
    assert s == At(MRegFind(7), HeldByMain);
    s := MainStep(s, true);
    assert s == At(MReply(7), HeldByMain);
    assert !Served(s, 7);
  }
}
