/** The inductive invariant of the daemon's session protocol. */
module DaemonInvariant {
  import opened Base
  import opened Naming
  import opened DaemonProtocol

  predicate MainHolds(m: MainPc)
  {
    Registering(m) || Sweeping(m)
  }

  predicate CleanerHolds(c: CleanerPc)
  {
    c.CScan? || c.CCondemn? || c.CJoin? || c.CErase? || c.CUnlock?
  }

  /** sessions_mutex_ has at most one holder, and it is the thread whose program counter is inside. */
  predicate HolderOk(s: State)
  {
    && (s.holder == HeldByMain <==> MainHolds(s.main))
    && (s.holder == HeldByCleaner <==> CleanerHolds(s.cleaner))
  }

  /** So it is with both mutexes. */
  ghost predicate Locks(s: State)
  {
    && HolderOk(s)
    && (s.netHolder.Some? ==> s.netHolder.value < |s.heap| && s.heap[s.netHolder.value].worker == WNetHeld)
    && (forall i :: 0 <= i < |s.heap| && s.heap[i].worker == WNetHeld ==> s.netHolder == Some(i))
  }

  /** Every entry of the map is a session of that pid that has not been destroyed. */
  ghost predicate TableOk(s: State)
  {
    forall pid :: pid in s.table ==>
      s.table[pid] < |s.heap| && s.heap[s.table[pid]].pid == pid && !s.heap[s.table[pid]].freed
  }

  /** One session object by itself: its thread handle and its request counters. */
  predicate LocalOk(x: Session, daemonRunning: bool)
  {
    && (x.joined ==> x.worker == WExited)
    && (x.freed ==> !x.Joinable())
    && (x.worker == WExited ==> !x.running || !daemonRunning)
    && x.received == x.replied + (if x.Busy() then 1 else 0)
  }

  /** A worker that has not returned runs on a session that is still in the map. */
  predicate Owned(s: State, i: nat)
    requires i < |s.heap|
  {
    s.heap[i].Live() ==> !s.heap[i].freed && s.heap[i].pid in s.table && s.table[s.heap[i].pid] == i
  }

  ghost predicate SessionsOk(s: State)
  {
    forall i :: 0 <= i < |s.heap| ==> LocalOk(s.heap[i], s.running) && Owned(s, i)
  }

  /** The session of pid has been told to stop by the thread that holds the lock. */
  predicate Condemned(s: State, pid: Pid)
  {
    || (s.cleaner.CJoin? && s.cleaner.pid == pid)
    || (s.cleaner.CErase? && s.cleaner.pid == pid)
    || (s.main.MSweep? && pid !in s.main.todo)
    || (s.main.MSweepJoin? && pid !in s.main.todo)
    || s.main.MClear?
  }

  ghost predicate FlagsOk(s: State)
  {
    forall pid :: InTable(s, pid) && !s.heap[s.table[pid]].running ==> Condemned(s, pid)
  }

  predicate UnderConstruction(s: State, pid: Pid, sid: nat)
  {
    && pid !in s.table && sid < |s.heap|
    && s.heap[sid].pid == pid && s.heap[sid].worker == WNone && !s.heap[sid].freed && s.heap[sid].running
  }

  predicate NotJoinable(s: State, pid: Pid)
  {
    InTable(s, pid) ==> !s.heap[s.table[pid]].Joinable()
  }

  ghost predicate MainOk(s: State)
  {
    match s.main
    case MSocket(pid, sid) => UnderConstruction(s, pid, sid)
    case MUnlink(pid, sid) => UnderConstruction(s, pid, sid)
    case MBind(pid, sid) => UnderConstruction(s, pid, sid)
    case MListen(pid, sid) => UnderConstruction(s, pid, sid)
    case MAbort(pid, sid) => UnderConstruction(s, pid, sid)
    case MInsert(pid, sid) => UnderConstruction(s, pid, sid)
    case MSpawn(pid, sid) => InTable(s, pid) && s.table[pid] == sid && s.heap[sid].worker == WNone
    case MReply(pid) => InTable(s, pid)
    case MSweep(todo) => todo <= s.table.Keys && forall p :: p in s.table && p !in todo ==> NotJoinable(s, p)
    case MSweepJoin(pid, todo) =>
      && todo <= s.table.Keys && InTable(s, pid) && pid !in todo && !s.heap[s.table[pid]].running
      && forall p :: p in s.table && p !in todo && p != pid ==> NotJoinable(s, p)
    case MClear => forall p :: p in s.table ==> NotJoinable(s, p)
    case _ => true
  }

  ghost predicate PassOk(p: Pass)
  {
    p.todo <= p.start.Keys && p.seen.Keys == p.start.Keys - p.todo
  }

  ghost predicate CleanOk(s: State)
  {
    match s.cleaner
    case CScan(p) => PassOk(p) && s.table == Survivors(p.start, p.seen, p.now)
    case CUnlock(p) => PassOk(p) && p.todo == {} && s.table == Survivors(p.start, p.seen, p.now)
    case CCondemn(pid, p) =>
      && PassOk(p) && pid in p.seen && Expired(p.seen[pid], p.now)
      && s.table == Survivors(p.start, p.seen, p.now)[pid := p.start[pid]]
      && InTable(s, pid)
    case CJoin(pid, p) =>
      && PassOk(p) && pid in p.seen && Expired(p.seen[pid], p.now)
      && s.table == Survivors(p.start, p.seen, p.now)[pid := p.start[pid]]
      && InTable(s, pid) && !s.heap[s.table[pid]].running
    case CErase(pid, p) =>
      && PassOk(p) && pid in p.seen && Expired(p.seen[pid], p.now)
      && s.table == Survivors(p.start, p.seen, p.now)[pid := p.start[pid]]
      && InTable(s, pid) && !s.heap[s.table[pid]].running && NotJoinable(s, pid)
    case _ => true
  }

  /** A bound path names the socket it is bound to. */
  ghost predicate BindingOk(s: State, p: Path)
  {
    p in s.paths ==>
      match s.paths[p]
      case DaemonSock => p == MainPath
      case SessionSock(i) => i < |s.heap| && p == Channel(s.heap[i].pid) && !s.heap[i].freed
  }

  predicate Bound(s: State, pid: Pid, sid: nat)
  {
    Channel(pid) in s.paths && s.paths[Channel(pid)] == SessionSock(sid)
  }

  ghost predicate PathsOk(s: State)
  {
    && (forall p :: p in s.paths ==> BindingOk(s, p))
    && (!s.main.MDone? ==> MainPath in s.paths && s.paths[MainPath] == DaemonSock)
    && (forall pid :: pid in s.table ==> Bound(s, pid, s.table[pid]))
    && (s.main.MBind? ==> Channel(s.main.pid) !in s.paths)
    && (s.main.MListen? ==> Bound(s, s.main.pid, s.main.sid))
    && (s.main.MInsert? ==> Bound(s, s.main.pid, s.main.sid))
  }

  ghost predicate PhaseOk(s: State)
  {
    && (!s.stopper.SIdle? ==> !s.running)
    && (s.stopper.SJoin? ==> !s.main.MDtorJoin? && !s.main.MDone?)
    && (s.stopper == SDone ==> s.cleaner == CExited)
    && (s.cleaner == CExited ==> !s.running)
    && (!s.running && s.stopper.SIdle? ==> s.main.MDtorJoin? || s.main.MDone?)
    && (Sweeping(s.main) || s.main.MSweepWait? || s.main.MDtorJoin? || s.main.MDone? ==> !s.running)
    && (s.main.MSweepUnlock? || !Alive(s) || s.main.MBoot? ==> s.table == map[])
    && (s.main.MDone? ==> s.cleaner == CExited)
    && (Suspended(s) ==> !MainHolds(s.main))
  }

  ghost predicate Inv(s: State)
  {
    Locks(s) && TableOk(s) && SessionsOk(s) && FlagsOk(s) && MainOk(s) && CleanOk(s) && PathsOk(s) && PhaseOk(s)
  }

  // ---------------------------------------------------------------- steps keep the invariant

  lemma InitInv()
    ensures Inv(Init())
  {
  }

  lemma StopKeepsInv(s: State, a: Action)
    requires Inv(s) && Enabled(s, a) && InScope(s, a) && (a.StopBegin? || a.StopJoin?)
    ensures Inv(Next(s, a))
  {
    var t := Next(s, a);
    assert SessionsOk(t) by {
      forall i | 0 <= i < |t.heap| ensures LocalOk(t.heap[i], t.running) && Owned(t, i) {
        assert LocalOk(s.heap[i], s.running) && Owned(s, i);
      }
    }
    FrameKeepsRest(s, t);
  }

  /** x' may differ from x in worker progress, activity stamp and request counters only. */
  predicate SameIdentity(x: Session, x': Session)
  {
    && x'.pid == x.pid && x'.running == x.running && x'.freed == x.freed && x'.joined == x.joined
    && (x'.worker == WNone <==> x.worker == WNone)
  }

  lemma AdvanceFrame(x: Session, daemonRunning: bool, c: Choice)
    requires x.Live() && LocalOk(x, daemonRunning)
    ensures var y := Advance(x, daemonRunning, c);
      && SameIdentity(x, y) && LocalOk(y, daemonRunning)
      && (y.worker == WNetHeld <==> x.worker == WNetWait)
  {
  }

  lemma WorkerKeepsSessions(s: State, i: nat, c: Choice)
    requires Locks(s) && SessionsOk(s) && WorkEnabled(s, i)
    ensures Locks(WorkNext(s, i, c)) && SessionsOk(WorkNext(s, i, c))
  {
    var t := WorkNext(s, i, c);
    AdvanceFrame(s.heap[i], s.running, c);
    forall j | 0 <= j < |t.heap| ensures LocalOk(t.heap[j], t.running) && Owned(t, j) {
      assert LocalOk(s.heap[j], s.running) && Owned(s, j);
    }
  }

  lemma WorkerKeepsInv(s: State, i: nat, c: Choice)
    requires Inv(s) && WorkEnabled(s, i)
    ensures Inv(WorkNext(s, i, c))
  {
    WorkerKeepsSessions(s, i, c);
    AdvanceFrame(s.heap[i], s.running, c);
    FrameKeepsRest(s, WorkNext(s, i, c));
  }

  /** Clauses that do not look at worker progress survive any step that changes only worker progress. */
  lemma FrameKeepsRest(s: State, t: State)
    requires TableOk(s) && FlagsOk(s) && MainOk(s) && CleanOk(s) && PathsOk(s)
    requires SameRest(s, t)
    ensures TableOk(t) && FlagsOk(t) && MainOk(t) && CleanOk(t) && PathsOk(t)
  {
    FrameKeepsMain(s, t);
    FrameKeepsClean(s, t);
    FrameKeepsPaths(s, t);
    assert FlagsOk(t) by {
      forall p | InTable(t, p) && !t.heap[t.table[p]].running ensures Condemned(t, p) {
        assert InTable(s, p) && Condemned(s, p);
      }
    }
  }

  ghost predicate SameRest(s: State, t: State)
  {
    && |t.heap| == |s.heap| && (forall j :: 0 <= j < |s.heap| ==> SameIdentity(s.heap[j], t.heap[j]))
    && t.table == s.table && t.paths == s.paths && t.main == s.main && t.cleaner == s.cleaner
  }

  lemma FrameKeepsMain(s: State, t: State)
    requires MainOk(s) && SameRest(s, t)
    ensures MainOk(t)
  {
    assert forall p :: p in s.table && NotJoinable(s, p) ==> NotJoinable(t, p);
  }

  lemma FrameKeepsClean(s: State, t: State)
    requires CleanOk(s) && SameRest(s, t)
    ensures CleanOk(t)
  {
  }

  /** Path ownership looks at pids and destruction only. */
  lemma FrameKeepsPaths(s: State, t: State)
    requires PathsOk(s)
    requires |t.heap| == |s.heap|
    requires forall j :: 0 <= j < |s.heap| ==> t.heap[j].pid == s.heap[j].pid && t.heap[j].freed == s.heap[j].freed
    requires t.table == s.table && t.paths == s.paths
    requires t.main == s.main || !(t.main.MBind? || t.main.MListen? || t.main.MInsert?)
    requires t.main.MDone? == s.main.MDone?
    ensures PathsOk(t)
  {
    forall p | p in t.paths ensures BindingOk(t, p) { assert BindingOk(s, p); }
  }

  /** Erasing one entry unlinks that entry's path and no other. */
  lemma EraseKeepsPaths(s: State, pid: Pid)
    requires TableOk(s) && PathsOk(s) && InTable(s, pid) && !s.main.MListen? && !s.main.MInsert?
    ensures PathsOk(Erase(s, pid))
  {
    var t := Erase(s, pid);
    forall p | p in t.paths ensures BindingOk(t, p) { assert BindingOk(s, p); }
    assert Bound(s, pid, s.table[pid]);
  }

  lemma EraseKeepsSessions(s: State, pid: Pid)
    requires TableOk(s) && SessionsOk(s) && InTable(s, pid) && NotJoinable(s, pid)
    ensures TableOk(Erase(s, pid)) && SessionsOk(Erase(s, pid))
  {
    var t := Erase(s, pid);
    forall j | 0 <= j < |t.heap| ensures LocalOk(t.heap[j], t.running) && Owned(t, j) {
      assert LocalOk(s.heap[j], s.running) && Owned(s, j);
    }
  }

  /** Clearing a session's running flag keeps every session object consistent. */
  lemma CondemnKeepsSessions(s: State, pid: Pid)
    requires TableOk(s) && SessionsOk(s) && InTable(s, pid)
    ensures TableOk(Condemn(s, pid)) && SessionsOk(Condemn(s, pid))
  {
    var t := Condemn(s, pid);
    forall j | 0 <= j < |t.heap| ensures LocalOk(t.heap[j], t.running) && Owned(t, j) {
      assert LocalOk(s.heap[j], s.running) && Owned(s, j);
    }
  }

  /** So does joining a worker that has returned. */
  lemma JoinKeepsSessions(s: State, pid: Pid)
    requires TableOk(s) && SessionsOk(s) && InTable(s, pid) && WorkerGone(s, pid)
    ensures TableOk(JoinWorker(s, pid)) && SessionsOk(JoinWorker(s, pid))
  {
    var t := JoinWorker(s, pid);
    forall j | 0 <= j < |t.heap| ensures LocalOk(t.heap[j], t.running) && Owned(t, j) {
      assert LocalOk(s.heap[j], s.running) && Owned(s, j);
    }
  }

  lemma RegKeepsHolder(s: State, c: Choice)
    requires HolderOk(s) && Registering(s.main) && RegEnabled(s, c)
    ensures HolderOk(RegNext(s, c))
  {
  }

  /** A registration neither takes nor gives back the netlink mutex for anyone. */
  lemma RegKeepsNet(s: State, c: Choice, i: nat)
    requires MainOk(s) && Registering(s.main) && RegEnabled(s, c)
    ensures RegNext(s, c).netHolder == s.netHolder
    ensures i < |RegNext(s, c).heap| && RegNext(s, c).heap[i].worker == WNetHeld <==>
      i < |s.heap| && s.heap[i].worker == WNetHeld
  {
  }

  lemma RegKeepsLocks(s: State, c: Choice)
    requires Locks(s) && SessionsOk(s) && MainOk(s) && Registering(s.main) && RegEnabled(s, c)
    ensures Locks(RegNext(s, c))
  {
    var t := RegNext(s, c);
    RegKeepsHolder(s, c);
    forall i: nat ensures t.netHolder == s.netHolder
      ensures i < |t.heap| && t.heap[i].worker == WNetHeld <==> i < |s.heap| && s.heap[i].worker == WNetHeld
    {
      RegKeepsNet(s, c, i);
    }
    assert t.netHolder == s.netHolder by { RegKeepsNet(s, c, 0); }
  }

  lemma RegKeepsTable(s: State, c: Choice)
    requires TableOk(s) && MainOk(s) && Registering(s.main) && RegEnabled(s, c)
    ensures TableOk(RegNext(s, c))
  {
  }

  /** The session that gets its thread was not destroyed and answered nothing yet. */
  lemma SpawnKeepsLocal(s: State, c: Choice, j: nat)
    requires TableOk(s) && MainOk(s) && s.main.MSpawn? && RegEnabled(s, c)
    requires j < |s.heap| && LocalOk(s.heap[j], s.running)
    ensures j < |RegNext(s, c).heap| && LocalOk(RegNext(s, c).heap[j], s.running)
  {
  }

  lemma RegKeepsLocal(s: State, c: Choice, j: nat)
    requires TableOk(s) && MainOk(s) && Registering(s.main) && RegEnabled(s, c)
    requires j < |s.heap| ==> LocalOk(s.heap[j], s.running)
    ensures j < |RegNext(s, c).heap| ==> LocalOk(RegNext(s, c).heap[j], s.running)
  {
    if s.main.MSpawn? && j < |s.heap| {
      SpawnKeepsLocal(s, c, j);
    }
  }

  /** The session being inserted or given its thread is not, so far, anyone else's. */
  lemma PublishKeepsOwned(s: State, c: Choice, j: nat)
    requires TableOk(s) && MainOk(s) && (s.main.MInsert? || s.main.MSpawn?) && RegEnabled(s, c)
    requires j < |s.heap| && Owned(s, j)
    ensures j < |RegNext(s, c).heap| && Owned(RegNext(s, c), j)
  {
  }

  lemma RegKeepsOwned(s: State, c: Choice, j: nat)
    requires TableOk(s) && MainOk(s) && Registering(s.main) && RegEnabled(s, c)
    requires j < |s.heap| ==> Owned(s, j)
    ensures j < |RegNext(s, c).heap| ==> Owned(RegNext(s, c), j)
  {
    if s.main.MInsert? || s.main.MSpawn? {
      if j < |s.heap| {
        PublishKeepsOwned(s, c, j);
      }
    }
  }

  lemma RegKeepsSessions(s: State, c: Choice)
    requires TableOk(s) && SessionsOk(s) && MainOk(s) && Registering(s.main) && RegEnabled(s, c)
    ensures SessionsOk(RegNext(s, c))
  {
    var t := RegNext(s, c);
    forall j | 0 <= j < |t.heap| ensures LocalOk(t.heap[j], t.running) && Owned(t, j) {
      RegKeepsLocal(s, c, j);
      RegKeepsOwned(s, c, j);
    }
  }

  /** While main registers, no session in the map has been told to stop. */
  lemma RegisteringRuns(s: State, pid: Pid)
    requires HolderOk(s) && FlagsOk(s) && Registering(s.main) && InTable(s, pid)
    ensures s.heap[s.table[pid]].running
  {
    assert !Condemned(s, pid);
  }

  lemma RegKeepsRunning(s: State, c: Choice, pid: Pid)
    requires MainOk(s) && Registering(s.main) && RegEnabled(s, c)
    requires TableOk(s) && (InTable(s, pid) ==> s.heap[s.table[pid]].running)
    requires InTable(RegNext(s, c), pid)
    ensures RegNext(s, c).heap[RegNext(s, c).table[pid]].running
  {
  }

  lemma RegKeepsFlags(s: State, c: Choice)
    requires TableOk(s) && FlagsOk(s) && MainOk(s) && Locks(s) && Registering(s.main) && RegEnabled(s, c)
    ensures FlagsOk(RegNext(s, c))
  {
    var t := RegNext(s, c);
    forall pid | InTable(t, pid) ensures t.heap[t.table[pid]].running {
      if InTable(s, pid) { RegisteringRuns(s, pid); }
      RegKeepsRunning(s, c, pid);
    }
  }

  lemma RegKeepsMain(s: State, c: Choice)
    requires TableOk(s) && SessionsOk(s) && MainOk(s) && FlagsOk(s) && Locks(s) && Registering(s.main)
    requires RegEnabled(s, c)
    ensures MainOk(RegNext(s, c))
  {
  }

  lemma RegKeepsClean(s: State, c: Choice)
    requires Locks(s) && CleanOk(s) && Registering(s.main) && RegEnabled(s, c)
    ensures CleanOk(RegNext(s, c))
  {
  }

  /** A registration step leaves every bound path bound to a socket that is still there. */
  lemma RegKeepsBindings(s: State, c: Choice, p: Path)
    requires MainOk(s) && (p in s.paths ==> BindingOk(s, p)) && Registering(s.main) && RegEnabled(s, c)
    ensures p in RegNext(s, c).paths ==> BindingOk(RegNext(s, c), p)
  {
  }

  lemma RegKeepsPaths(s: State, c: Choice)
    requires TableOk(s) && MainOk(s) && PathsOk(s) && Registering(s.main) && RegEnabled(s, c)
    ensures PathsOk(RegNext(s, c))
  {
    var t := RegNext(s, c);
    forall p | p in t.paths ensures BindingOk(t, p) { RegKeepsBindings(s, c, p); }
  }

  /** A registration touches nobody else's program counter, and ends where main tests running_ again. */
  lemma RegLeavesOthers(s: State, c: Choice)
    requires Registering(s.main) && RegEnabled(s, c)
    ensures RegNext(s, c).cleaner == s.cleaner && RegNext(s, c).stopper == s.stopper
    ensures RegNext(s, c).running == s.running
  {
  }

  lemma RegGoesOn(s: State, c: Choice)
    requires Registering(s.main) && RegEnabled(s, c)
    ensures if s.main.MUnlock? then RegNext(s, c).main.MTop? else Registering(RegNext(s, c).main)
  {
  }

  lemma RegKeepsPhase(s: State, c: Choice)
    requires PhaseOk(s) && Locks(s) && Registering(s.main) && RegEnabled(s, c)
    ensures PhaseOk(RegNext(s, c))
  {
    RegLeavesOthers(s, c);
    RegGoesOn(s, c);
  }

  lemma SweepKeepsLocks(s: State, c: Choice)
    requires Locks(s) && SessionsOk(s) && MainOk(s) && Sweeping(s.main) && SweepEnabled(s, c)
    ensures Locks(SweepNext(s, c))
  {
  }

  lemma SweepKeepsSessions(s: State, c: Choice)
    requires TableOk(s) && SessionsOk(s) && FlagsOk(s) && MainOk(s) && Sweeping(s.main) && SweepEnabled(s, c)
    ensures TableOk(SweepNext(s, c)) && SessionsOk(SweepNext(s, c))
  {
    if s.main.MClear? && s.table != map[] {
      EraseKeepsSessions(s, c.pid);
    } else if s.main.MSweepJoin? {
      JoinKeepsSessions(s, s.main.pid);
    } else if s.main.MSweep? && s.main.todo != {} {
      CondemnKeepsSessions(s, c.pid);
    }
  }

  lemma SweepKeepsFlags(s: State, c: Choice)
    requires TableOk(s) && FlagsOk(s) && MainOk(s) && Locks(s) && Sweeping(s.main) && SweepEnabled(s, c)
    ensures FlagsOk(SweepNext(s, c))
  {
  }

  /** Clearing the map keeps the rest of it without threads to join. */
  lemma ClearKeepsMain(s: State, c: Choice)
    requires TableOk(s) && MainOk(s) && s.main.MClear? && SweepEnabled(s, c)
    ensures MainOk(SweepNext(s, c))
  {
    if s.table != map[] {
      assert forall p :: p in s.table && p != c.pid && NotJoinable(s, p) ==> NotJoinable(Erase(s, c.pid), p);
    }
  }

  lemma SweepKeepsMain(s: State, c: Choice)
    requires TableOk(s) && SessionsOk(s) && MainOk(s) && FlagsOk(s) && Locks(s)
    requires Sweeping(s.main) && SweepEnabled(s, c)
    ensures MainOk(SweepNext(s, c))
  {
    if s.main.MClear? {
      ClearKeepsMain(s, c);
    }
  }

  lemma SweepKeepsClean(s: State, c: Choice)
    requires Locks(s) && CleanOk(s) && Sweeping(s.main) && SweepEnabled(s, c)
    ensures CleanOk(SweepNext(s, c))
  {
  }

  lemma SweepKeepsPaths(s: State, c: Choice)
    requires TableOk(s) && MainOk(s) && PathsOk(s) && Sweeping(s.main) && SweepEnabled(s, c)
    ensures PathsOk(SweepNext(s, c))
  {
    if s.main.MClear? && s.table != map[] {
      EraseKeepsPaths(s, c.pid);
    } else {
      FrameKeepsPaths(s, SweepNext(s, c));
    }
  }

  lemma SweepKeepsPhase(s: State, c: Choice)
    requires PhaseOk(s) && Locks(s) && Sweeping(s.main) && SweepEnabled(s, c)
    ensures PhaseOk(SweepNext(s, c))
  {
  }

  lemma OuterKeepsLocks(s: State, c: Choice)
    requires Locks(s) && SessionsOk(s) && MainOk(s) && !MainHolds(s.main) && OuterEnabled(s, c)
    ensures Locks(OuterNext(s, c))
  {
  }

  lemma OuterKeepsTable(s: State, c: Choice)
    requires TableOk(s) && MainOk(s) && !MainHolds(s.main) && OuterEnabled(s, c)
    ensures TableOk(OuterNext(s, c))
  {
  }

  lemma OuterKeepsSessions(s: State, c: Choice)
    requires TableOk(s) && SessionsOk(s) && FlagsOk(s) && MainOk(s) && !MainHolds(s.main) && OuterEnabled(s, c)
    ensures SessionsOk(OuterNext(s, c))
  {
    var t := OuterNext(s, c);
    forall j | 0 <= j < |t.heap| ensures LocalOk(t.heap[j], t.running) && Owned(t, j) {
      if j < |s.heap| {
        assert LocalOk(s.heap[j], s.running) && Owned(s, j);
      }
    }
  }

  lemma OuterKeepsFlags(s: State, c: Choice)
    requires TableOk(s) && FlagsOk(s) && MainOk(s) && Locks(s) && !MainHolds(s.main) && OuterEnabled(s, c)
    ensures FlagsOk(OuterNext(s, c))
  {
  }

  lemma OuterKeepsMain(s: State, c: Choice)
    requires TableOk(s) && SessionsOk(s) && MainOk(s) && FlagsOk(s) && Locks(s) && !MainHolds(s.main)
    requires OuterEnabled(s, c)
    ensures MainOk(OuterNext(s, c))
  {
  }

  lemma OuterKeepsClean(s: State, c: Choice)
    requires Locks(s) && CleanOk(s) && !MainHolds(s.main) && OuterEnabled(s, c)
    ensures CleanOk(OuterNext(s, c))
  {
  }

  lemma OuterKeepsPaths(s: State, c: Choice)
    requires TableOk(s) && MainOk(s) && PathsOk(s) && !MainHolds(s.main) && OuterEnabled(s, c)
    ensures PathsOk(OuterNext(s, c))
  {
    var t := OuterNext(s, c);
    forall p | p in t.paths ensures BindingOk(t, p) { assert BindingOk(s, p); }
  }

  lemma OuterKeepsPhase(s: State, c: Choice)
    requires PhaseOk(s) && Locks(s) && !Suspended(s) && !MainHolds(s.main) && OuterEnabled(s, c)
    ensures PhaseOk(OuterNext(s, c))
  {
  }

  /** No step of the cleanup thread moves a worker, and only an erasing one destroys a session. */
  lemma CleanKeepsWorkers(s: State, c: Choice, i: nat)
    requires CleanEnabled(s, c) && i < |s.heap|
    ensures i < |CleanNext(s, c).heap| && CleanNext(s, c).heap[i].worker == s.heap[i].worker
    ensures CleanNext(s, c).heap[i].pid == s.heap[i].pid
    ensures !s.cleaner.CErase? ==> CleanNext(s, c).heap[i].freed == s.heap[i].freed
  {
  }

  lemma CleanKeepsHolder(s: State, c: Choice)
    requires HolderOk(s) && CleanEnabled(s, c)
    ensures HolderOk(CleanNext(s, c))
  {
  }

  lemma CleanKeepsShape(s: State, c: Choice)
    requires CleanEnabled(s, c)
    ensures |CleanNext(s, c).heap| == |s.heap| && CleanNext(s, c).netHolder == s.netHolder
    ensures CleanNext(s, c).main == s.main
    ensures !s.cleaner.CErase? ==> CleanNext(s, c).table == s.table && CleanNext(s, c).paths == s.paths
  {
  }

  lemma CleanKeepsLocks(s: State, c: Choice)
    requires Locks(s) && CleanEnabled(s, c)
    ensures Locks(CleanNext(s, c))
  {
    CleanKeepsHolder(s, c);
    CleanKeepsShape(s, c);
    forall i: nat | i < |s.heap| ensures CleanNext(s, c).heap[i].worker == s.heap[i].worker {
      CleanKeepsWorkers(s, c, i);
    }
  }

  lemma CleanKeepsSessions(s: State, c: Choice)
    requires TableOk(s) && SessionsOk(s) && FlagsOk(s) && CleanOk(s) && CleanEnabled(s, c)
    ensures TableOk(CleanNext(s, c)) && SessionsOk(CleanNext(s, c))
  {
    if s.cleaner.CErase? {
      EraseKeepsSessions(s, s.cleaner.pid);
    } else if s.cleaner.CJoin? {
      JoinKeepsSessions(s, s.cleaner.pid);
    } else if s.cleaner.CCondemn? {
      CondemnKeepsSessions(s, s.cleaner.pid);
    }
  }

  lemma CleanKeepsFlags(s: State, c: Choice)
    requires TableOk(s) && FlagsOk(s) && CleanOk(s) && Locks(s) && CleanEnabled(s, c)
    ensures FlagsOk(CleanNext(s, c))
  {
  }

  /** Without the lock the cleanup thread changes nothing but its own program counter. */
  lemma CleanOutside(s: State, c: Choice)
    requires CleanEnabled(s, c) && !CleanerHolds(s.cleaner)
    ensures CleanNext(s, c).heap == s.heap && CleanNext(s, c).table == s.table
  {
  }

  lemma CleanKeepsMain(s: State, c: Choice)
    requires TableOk(s) && MainOk(s) && CleanOk(s) && Locks(s) && CleanEnabled(s, c)
    ensures MainOk(CleanNext(s, c))
  {
    CleanKeepsShape(s, c);
    if MainHolds(s.main) {
      CleanOutside(s, c);
    }
  }

  /** One visit of the cleanup loop: the session it reads either survives or is condemned. */
  lemma ScanKeepsClean(s: State, c: Choice)
    requires s.cleaner.CScan? && TableOk(s) && CleanOk(s) && CleanEnabled(s, c)
    ensures CleanOk(CleanNext(s, c))
  {
  }

  lemma CleanKeepsClean(s: State, c: Choice)
    requires TableOk(s) && SessionsOk(s) && Locks(s) && CleanOk(s) && CleanEnabled(s, c)
    ensures CleanOk(CleanNext(s, c))
  {
    if s.cleaner.CScan? {
      ScanKeepsClean(s, c);
    }
  }

  lemma CleanKeepsPaths(s: State, c: Choice)
    requires TableOk(s) && CleanOk(s) && PathsOk(s) && Locks(s) && CleanEnabled(s, c)
    ensures PathsOk(CleanNext(s, c))
  {
    if s.cleaner.CErase? {
      EraseKeepsPaths(s, s.cleaner.pid);
    } else {
      var t := CleanNext(s, c);
      CleanKeepsShape(s, c);
      forall i: nat | i < |s.heap| ensures t.heap[i].pid == s.heap[i].pid && t.heap[i].freed == s.heap[i].freed {
        CleanKeepsWorkers(s, c, i);
      }
      FrameKeepsPaths(s, t);
    }
  }

  lemma CleanKeepsPhase(s: State, c: Choice)
    requires PhaseOk(s) && CleanOk(s) && Locks(s) && CleanEnabled(s, c)
    ensures PhaseOk(CleanNext(s, c))
  {
  }

  lemma MainKeepsInv(s: State, c: Choice)
    requires Inv(s) && MainEnabled(s, c)
    ensures Inv(MainNext(s, c))
  {
    if Registering(s.main) {
      RegKeepsLocks(s, c); RegKeepsTable(s, c); RegKeepsSessions(s, c); RegKeepsFlags(s, c);
      RegKeepsMain(s, c); RegKeepsClean(s, c); RegKeepsPaths(s, c); RegKeepsPhase(s, c);
    } else if Sweeping(s.main) {
      SweepKeepsLocks(s, c); SweepKeepsSessions(s, c); SweepKeepsFlags(s, c);
      SweepKeepsMain(s, c); SweepKeepsClean(s, c); SweepKeepsPaths(s, c); SweepKeepsPhase(s, c);
    } else {
      OuterKeepsLocks(s, c); OuterKeepsTable(s, c); OuterKeepsSessions(s, c); OuterKeepsFlags(s, c);
      OuterKeepsMain(s, c); OuterKeepsClean(s, c); OuterKeepsPaths(s, c); OuterKeepsPhase(s, c);
    }
  }

  lemma CleanerKeepsInv(s: State, c: Choice)
    requires Inv(s) && CleanEnabled(s, c)
    ensures Inv(CleanNext(s, c))
  {
    CleanKeepsLocks(s, c); CleanKeepsSessions(s, c); CleanKeepsFlags(s, c);
    CleanKeepsMain(s, c); CleanKeepsClean(s, c); CleanKeepsPaths(s, c); CleanKeepsPhase(s, c);
  }

  /** Every step of every thread, in scope, keeps the invariant. */
  lemma StepKeepsInv(s: State, a: Action)
    requires Inv(s) && Enabled(s, a) && InScope(s, a)
    ensures Inv(Next(s, a))
  {
    match a
    case ByMain(c) => MainKeepsInv(s, c);
    case ByCleaner(c) => CleanerKeepsInv(s, c);
    case ByWorker(i, c) => WorkerKeepsInv(s, i, c);
    case StopBegin(_) => StopKeepsInv(s, a);
    case StopJoin => StopKeepsInv(s, a);
  }

  lemma {:induction false} RunKeepsInv(s: State, acts: seq<Action>, s': State)
    requires Inv(s) && Run(s, acts, s')
    ensures Inv(s')
    decreases |acts|
  {
    if acts != [] {
      StepKeepsInv(s, acts[0]);
      RunKeepsInv(Next(s, acts[0]), acts[1..], s');
    }
  }

  lemma ReachableInv(s: State)
    requires Reachable(s)
    ensures Inv(s)
  {
    InitInv();
    var acts :| Run(Init(), acts, s);
    RunKeepsInv(Init(), acts, s);
  }
}
