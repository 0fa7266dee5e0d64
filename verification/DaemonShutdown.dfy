/** Deadlock freedom and termination of the daemon after `stop()`. */
module DaemonShutdown {
  import opened Naming
  import opened DaemonProtocol
  import opened DaemonInvariant
  import DaemonTheorems

  datatype Thread = TMain | TCleaner | TStopper | TWorker(i: nat)

  // ---------------------------------------------------------------- who waits for whom

  predicate WorkerLive(s: State, i: nat)
  {
    i < |s.heap| && s.heap[i].Live()
  }

  /** Thread t cannot move until thread u does. */
  predicate WaitsFor(s: State, t: Thread, u: Thread)
  {
    match t
    case TMain =>
      if Suspended(s) then u == TStopper
      else (
        || ((s.main.MRegWait? || s.main.MSweepWait?)
            && ((s.holder == HeldByCleaner && u == TCleaner) || (s.holder == HeldByMain && u == TMain)))
        || (s.main.MSweepJoin? && s.main.pid in s.table && u == TWorker(s.table[s.main.pid]) && WorkerLive(s, u.i))
        || (s.main.MDtor? && s.stopper.SJoin? && u == TStopper)
        || (s.main.MDtorJoin? && !s.cleaner.CExited? && u == TCleaner))
    case TCleaner =>
      || (s.cleaner.CLockWait?
          && ((s.holder == HeldByMain && u == TMain) || (s.holder == HeldByCleaner && u == TCleaner)))
      || (s.cleaner.CJoin? && s.cleaner.pid in s.table && u == TWorker(s.table[s.cleaner.pid]) && WorkerLive(s, u.i))
    case TStopper => s.stopper.SJoin? && !s.cleaner.CExited? && u == TCleaner
    case TWorker(i) =>
      && WorkerLive(s, i) && s.heap[i].worker == WNetWait
      && s.netHolder.Some? && u == TWorker(s.netHolder.value)
  }

  /** A place for every thread in the order in which it can wait. */
  function Level(s: State, t: Thread): nat
  {
    match t
    case TWorker(i) => if i < |s.heap| && s.heap[i].worker == WNetWait then 1 else 0
    case TCleaner => if s.cleaner.CLockWait? then 4 else 2
    case TMain => if MainHolds(s.main) then 3 else 7
    case TStopper => 6
  }

  /** Every wait goes strictly down, so no set of threads waits in a circle: mutexes, worker joins, cleanup join. */
  lemma NoCyclicWait(s: State, t: Thread, u: Thread)
    requires Reachable(s) && WaitsFor(s, t, u)
    ensures Level(s, u) < Level(s, t)
  {
    ReachableInv(s);
    WaitsGoDown(s, t, u);
  }

  /** Thread t has steps left to take. */
  predicate Unfinished(s: State, t: Thread)
  {
    match t
    case TMain => !s.main.MDone?
    case TCleaner => !s.cleaner.CExited?
    case TStopper => s.stopper.SJoin?
    case TWorker(i) => WorkerLive(s, i)
  }

  lemma WaitsGoDown(s: State, t: Thread, u: Thread)
    requires Inv(s) && WaitsFor(s, t, u)
    ensures Level(s, u) < Level(s, t) && Unfinished(s, u)
  {
  }

  /** A step of thread t. */
  function StepOf(t: Thread, c: Choice): Action
  {
    match t
    case TMain => ByMain(c)
    case TCleaner => ByCleaner(c)
    case TStopper => StopJoin
    case TWorker(i) => ByWorker(i, c)
  }

  ghost predicate CanMove(s: State, t: Thread)
  {
    exists c :: Enabled(s, StepOf(t, c))
  }

  const ANY := Choice(true, 0, 0, true)

  /** A choice that picks a session when the thread's next step visits one. */
  ghost function Pick(s: State, t: Thread): Choice
  {
    var visit :=
      if t.TMain? && s.main.MSweep? then s.main.todo
      else if t.TMain? && s.main.MClear? then s.table.Keys
      else if t.TCleaner? && s.cleaner.CScan? then s.cleaner.pass.todo
      else {};
    if visit == {} then ANY else var pid :| pid in visit; ANY.(pid := pid)
  }

  lemma MainMovesOrWaits(s: State)
    requires Inv(s) && !s.main.MDone?
    ensures MainEnabled(s, Pick(s, TMain)) || exists u :: WaitsFor(s, TMain, u)
  {
    if !MainEnabled(s, Pick(s, TMain)) {
      var u :=
        if Suspended(s) || s.main.MDtor? then TStopper
        else if s.main.MSweepJoin? then TWorker(s.table[s.main.pid])
        else TCleaner;
      assert WaitsFor(s, TMain, u);
    }
  }

  lemma CleanerMovesOrWaits(s: State)
    requires Inv(s) && !s.cleaner.CExited?
    ensures CleanEnabled(s, Pick(s, TCleaner)) || exists u :: WaitsFor(s, TCleaner, u)
  {
    if !CleanEnabled(s, Pick(s, TCleaner)) {
      var u := if s.cleaner.CJoin? then TWorker(s.table[s.cleaner.pid]) else TMain;
      assert WaitsFor(s, TCleaner, u);
    }
  }

  /** The waits above are exactly the ways a thread can be blocked. */
  lemma BlockedIffWaiting(s: State, t: Thread)
    requires Reachable(s) && Unfinished(s, t)
    ensures !CanMove(s, t) <==> exists u :: WaitsFor(s, t, u)
  {
    ReachableInv(s);
    MovesOrWaits(s, t);
    if u :| WaitsFor(s, t, u) {
      forall c ensures !Enabled(s, StepOf(t, c)) {
        WaitersCannotMove(s, t, u, c);
      }
    }
  }

  lemma MovesOrWaits(s: State, t: Thread)
    requires Inv(s) && Unfinished(s, t)
    ensures CanMove(s, t) || exists u :: WaitsFor(s, t, u)
  {
    var c := Pick(s, t);
    match t
    case TMain => MainMovesOrWaits(s); assert MainEnabled(s, c) ==> Enabled(s, StepOf(t, c));
    case TCleaner => CleanerMovesOrWaits(s); assert CleanEnabled(s, c) ==> Enabled(s, StepOf(t, c));
    case TStopper => assert Enabled(s, StepOf(t, c)) || WaitsFor(s, t, TCleaner);
    case TWorker(i) =>
      assert Enabled(s, StepOf(t, c)) || (s.netHolder.Some? && WaitsFor(s, t, TWorker(s.netHolder.value)));
  }

  lemma WaitersCannotMove(s: State, t: Thread, u: Thread, c: Choice)
    requires Inv(s) && WaitsFor(s, t, u)
    ensures !Enabled(s, StepOf(t, c))
  {
  }

  ghost predicate Finished(s: State)
  {
    forall t :: !Unfinished(s, t)
  }

  ghost predicate CanStep(s: State)
  {
    exists a :: Enabled(s, a) && InScope(s, a)
  }

  /** No reachable state is a deadlock: until everything has finished, some thread can take a step. */
  lemma DeadlockFree(s: State)
    requires Reachable(s) && !Finished(s)
    ensures CanStep(s)
  {
    ReachableInv(s);
    InvCanStep(s);
  }

  lemma InvCanStep(s: State)
    requires Inv(s) && !Finished(s)
    ensures CanStep(s)
  {
    var t :| Unfinished(s, t);
    SomeoneMoves(s, t);
  }

  /** Follows the waits down from t to a thread that can move. */
  lemma {:induction false} SomeoneMoves(s: State, t: Thread)
    requires Inv(s) && Unfinished(s, t)
    ensures CanStep(s)
    decreases Level(s, t)
  {
    MovesOrWaits(s, t);
    if c :| Enabled(s, StepOf(t, c)) {
      assert InScope(s, StepOf(t, c));
    } else {
      var u :| WaitsFor(s, t, u);
      WaitsGoDown(s, t, u);
      SomeoneMoves(s, u);
    }
  }

  // ---------------------------------------------------------------- the shutdown measure

  /** Steps a worker can still take once a running flag is false. */
  function WorkerRank(w: WorkerPc): nat
  {
    match w
    case WNone => 0
    case WExited => 0
    case WFlag => 1
    case WTop => 2
    case WReply => 3
    case WNetHeld => 4
    case WNetWait => 5
    case WTouch => 6
    case WRecv => 7
    case WAccept => 8
  }

  function HeapRank(heap: seq<Session>): nat
  {
    if heap == [] then 0 else HeapRank(heap[..|heap| - 1]) + WorkerRank(heap[|heap| - 1].worker)
  }

  /** Steps main can still take inside a registration; before MInsert they include one more session and its worker. */
  function RegRank(m: MainPc): nat
    requires Registering(m)
  {
    match m
    case MUnlock => 8
    case MReply(_) => 9
    case MAbort(_, _) => 9
    case MSpawn(_, _) => 12
    case MInsert(_, _) => 20
    case MListen(_, _) => 21
    case MBind(_, _) => 22
    case MUnlink(_, _) => 23
    case MSocket(_, _) => 24
    case MRegFind(_) => 25
  }

  /** main's remaining steps inside the final sweep, with n sessions in the map. */
  function SweepRank(m: MainPc, n: nat): nat
    requires Sweeping(m)
  {
    match m
    case MSweepUnlock => 3
    case MClear => n + 4
    case MSweep(todo) => 2 * |todo| + n + 5
    case MSweepJoin(_, todo) => 2 * |todo| + n + 6
  }

  function OuterRank(m: MainPc, n: nat): nat
    requires !MainHolds(m)
  {
    match m
    case MDone => 0
    case MDtorJoin => 1
    case MDtor => 2
    case MSweepWait => 3 * n + 6
    case MTop => 3 * n + 7
    case MRegWait(_) => 3 * n + 26
    case MAccept => 3 * n + 27
    case MBoot => 3 * n + 28
  }

  function MainRank(m: MainPc, n: nat): nat
  {
    if Registering(m) then 3 * n + RegRank(m) else if Sweeping(m) then SweepRank(m, n) else OuterRank(m, n)
  }

  function CleanerRank(c: CleanerPc, n: nat): nat
  {
    match c
    case CExited => 0
    case CTop => 1
    case CUnlock(_) => 2
    case CScan(p) => 4 * |p.todo| + 3
    case CErase(_, p) => 4 * |p.todo| + 4
    case CJoin(_, p) => 4 * |p.todo| + 5
    case CCondemn(_, p) => 4 * |p.todo| + 6
    case CLockWait => 4 * n + 4
    case CSleep => 4 * n + 5
  }

  function Rank(s: State): nat
  {
    MainRank(s.main, |s.table|) + CleanerRank(s.cleaner, |s.table|) + HeapRank(s.heap)
    + (if s.stopper.SJoin? then 1 else 0)
  }

  lemma {:induction false} HeapRankUpdate(heap: seq<Session>, i: nat, x: Session)
    requires i < |heap|
    ensures HeapRank(heap[i := x]) == HeapRank(heap) - WorkerRank(heap[i].worker) + WorkerRank(x.worker)
  {
    var n := |heap| - 1;
    if i == n {
      assert heap[i := x][..n] == heap[..n];
    } else {
      assert heap[i := x][..n] == heap[..n][i := x];
      HeapRankUpdate(heap[..n], i, x);
    }
  }

  lemma HeapRankAppend(heap: seq<Session>, x: Session)
    ensures HeapRank(heap + [x]) == HeapRank(heap) + WorkerRank(x.worker)
  {
    assert (heap + [x])[..|heap|] == heap;
  }

  lemma MapSizes(m: map<Pid, nat>, pid: Pid, sid: nat)
    ensures pid !in m ==> |m[pid := sid]| == |m| + 1
    ensures pid in m ==> |m - {pid}| == |m| - 1
  {
    if pid in m {
      assert (m - {pid}).Keys == m.Keys - {pid};
    } else {
      assert m[pid := sid].Keys == m.Keys + {pid};
    }
  }

  lemma AdvanceRankFalls(x: Session, c: Choice)
    requires x.Live()
    ensures WorkerRank(Advance(x, false, c).worker) < WorkerRank(x.worker)
  {
  }

  lemma WorkerRankFalls(s: State, i: nat, c: Choice)
    requires !s.running && WorkEnabled(s, i)
    ensures Rank(WorkNext(s, i, c)) < Rank(s)
  {
    AdvanceRankFalls(s.heap[i], c);
    HeapRankUpdate(s.heap, i, Advance(s.heap[i], s.running, c));
  }

  lemma EraseRank(s: State, pid: Pid)
    requires InTable(s, pid)
    ensures HeapRank(Erase(s, pid).heap) == HeapRank(s.heap)
    ensures |Erase(s, pid).table| == |s.table| - 1
  {
    MapSizes(s.table, pid, 0);
    HeapRankUpdate(s.heap, s.table[pid], s.heap[s.table[pid]].(freed := true));
  }

  lemma CondemnRank(s: State, pid: Pid)
    requires InTable(s, pid)
    ensures HeapRank(Condemn(s, pid).heap) == HeapRank(s.heap) == HeapRank(JoinWorker(s, pid).heap)
  {
    var x := s.heap[s.table[pid]];
    HeapRankUpdate(s.heap, s.table[pid], x.(running := false));
    HeapRankUpdate(s.heap, s.table[pid], x.(joined := x.worker != WNone));
  }

  lemma MainRankMonotone(m: MainPc, n: nat, n': nat)
    requires n <= n'
    ensures MainRank(m, n) <= MainRank(m, n')
  {
  }

  lemma ScanRankFalls(s: State, c: Choice)
    requires s.cleaner.CScan? && CleanEnabled(s, c)
    ensures CleanerRank(CleanNext(s, c).cleaner, |s.table|) < CleanerRank(s.cleaner, |s.table|)
  {
    var todo := s.cleaner.pass.todo;
    if todo != {} {
      assert |todo - {c.pid}| == |todo| - 1;
    }
  }

  lemma LockRankFalls(s: State, c: Choice)
    requires s.cleaner.CLockWait? && CleanEnabled(s, c)
    ensures CleanerRank(CleanNext(s, c).cleaner, |s.table|) < CleanerRank(s.cleaner, |s.table|)
  {
    assert |s.table| == |s.table.Keys|;
  }

  lemma CleanerRankFalls(s: State, c: Choice)
    requires !s.running && CleanEnabled(s, c)
    ensures CleanerRank(CleanNext(s, c).cleaner, |s.table|) < CleanerRank(s.cleaner, |s.table|)
  {
    if s.cleaner.CScan? {
      ScanRankFalls(s, c);
    } else if s.cleaner.CLockWait? {
      LockRankFalls(s, c);
    }
  }

  lemma CleanerKeepsHeapRank(s: State, c: Choice)
    requires CleanEnabled(s, c)
    ensures HeapRank(CleanNext(s, c).heap) == HeapRank(s.heap) && |CleanNext(s, c).table| <= |s.table|
  {
    if s.cleaner.CErase? {
      EraseRank(s, s.cleaner.pid);
    } else if s.cleaner.CJoin? {
      CondemnRank(s, s.cleaner.pid);
    } else if s.cleaner.CCondemn? {
      CondemnRank(s, s.cleaner.pid);
    }
  }

  /** Sessions the next sweep step erases. */
  function Erased(s: State): nat
  {
    if s.main.MClear? && s.table != map[] then 1 else 0
  }

  lemma SweepRankFalls(s: State, c: Choice, n: nat)
    requires Sweeping(s.main) && SweepEnabled(s, c) && |s.table| == n + Erased(s)
    ensures MainRank(SweepNext(s, c).main, n) < MainRank(s.main, n + Erased(s))
  {
    if s.main.MSweep? && s.main.todo != {} {
      assert |s.main.todo - {c.pid}| == |s.main.todo| - 1;
    }
  }

  lemma SweepKeepsHeapRank(s: State, c: Choice)
    requires Sweeping(s.main) && SweepEnabled(s, c)
    ensures HeapRank(SweepNext(s, c).heap) == HeapRank(s.heap)
    ensures |SweepNext(s, c).table| + Erased(s) == |s.table|
  {
    if s.main.MClear? && s.table != map[] {
      EraseRank(s, c.pid);
    } else if s.main.MSweepJoin? {
      CondemnRank(s, s.main.pid);
    } else if s.main.MSweep? && s.main.todo != {} {
      CondemnRank(s, c.pid);
    }
  }

  /** The steps that the worker a registration step spawns can take once running_ is false. */
  function Spawned(s: State, c: Choice): nat
  {
    if s.main.MSpawn? && c.ok then WorkerRank(WTop) else 0
  }

  /** The session a registration step inserts. */
  function Inserted(s: State): nat
  {
    if s.main.MInsert? then 1 else 0
  }

  lemma RegHeapRank(s: State, c: Choice)
    requires MainOk(s) && Registering(s.main) && RegEnabled(s, c)
    ensures HeapRank(RegNext(s, c).heap) == HeapRank(s.heap) + Spawned(s, c)
  {
    if s.main.MRegFind? {
      if s.main.pid in s.table {
        HeapRankUpdate(s.heap, s.table[s.main.pid], s.heap[s.table[s.main.pid]].(lastActivity := c.now));
      } else {
        HeapRankAppend(s.heap, NewSession(s.main.pid, c.now));
      }
    } else if s.main.MAbort? {
      HeapRankUpdate(s.heap, s.main.sid, s.heap[s.main.sid].(freed := true));
    } else if s.main.MSpawn? {
      HeapRankUpdate(s.heap, s.main.sid, s.heap[s.main.sid].(worker := WTop));
    }
  }

  lemma RegTableSize(s: State, c: Choice)
    requires MainOk(s) && Registering(s.main) && RegEnabled(s, c)
    ensures |RegNext(s, c).table| == |s.table| + Inserted(s)
  {
    if s.main.MInsert? {
      MapSizes(s.table, s.main.pid, s.main.sid);
    }
  }

  /** A registration step pays for the session it inserts (seven later steps) and the worker it spawns. */
  lemma RegRankFalls(s: State, c: Choice)
    requires MainOk(s) && Registering(s.main) && RegEnabled(s, c)
    requires |RegNext(s, c).table| == |s.table| + Inserted(s)
    ensures var t := RegNext(s, c);
      MainRank(t.main, |t.table|) + 4 * Inserted(s) + Spawned(s, c) < MainRank(s.main, |s.table|)
  {
  }

  lemma CleanerRankSlope(c: CleanerPc, n: nat, n': nat)
    ensures n <= n' ==> CleanerRank(c, n) <= CleanerRank(c, n') <= CleanerRank(c, n) + 4 * (n' - n)
  {
  }

  lemma OuterRankFalls(s: State, c: Choice)
    requires !MainHolds(s.main) && OuterEnabled(s, c) && !s.running
    ensures MainRank(OuterNext(s, c).main, |s.table|) < MainRank(s.main, |s.table|)
  {
    if s.main.MSweepWait? {
      assert |s.table| == |s.table.Keys|;
    }
  }

  lemma OuterLeavesSessions(s: State, c: Choice)
    requires !MainHolds(s.main) && OuterEnabled(s, c)
    ensures OuterNext(s, c).heap == s.heap && OuterNext(s, c).table == s.table
  {
  }

  lemma SweepLeavesOthers(s: State, c: Choice)
    requires Sweeping(s.main) && SweepEnabled(s, c)
    ensures SweepNext(s, c).cleaner == s.cleaner && SweepNext(s, c).stopper == s.stopper
  {
  }

  lemma MainLeavesOthers(s: State, c: Choice)
    requires MainEnabled(s, c)
    ensures MainNext(s, c).cleaner == s.cleaner && MainNext(s, c).stopper == s.stopper
  {
    if Registering(s.main) {
      RegLeavesOthers(s, c);
    } else if Sweeping(s.main) {
      SweepLeavesOthers(s, c);
    }
  }

  lemma MainStepRank(s: State, c: Choice)
    requires Inv(s) && !s.running && MainEnabled(s, c)
    ensures Rank(MainNext(s, c)) < Rank(s)
  {
    var t := MainNext(s, c);
    if Registering(s.main) {
      RegTableSize(s, c); RegHeapRank(s, c); RegRankFalls(s, c);
    } else if Sweeping(s.main) {
      SweepKeepsHeapRank(s, c); SweepRankFalls(s, c, |t.table|);
    } else {
      OuterRankFalls(s, c); OuterLeavesSessions(s, c);
    }
    MainLeavesOthers(s, c);
    CleanerRankSlope(s.cleaner, |s.table|, |t.table|);
    CleanerRankSlope(s.cleaner, |t.table|, |s.table|);
  }

  lemma CleanerStepRank(s: State, c: Choice)
    requires !s.running && CleanEnabled(s, c)
    ensures Rank(CleanNext(s, c)) < Rank(s)
  {
    CleanerKeepsHeapRank(s, c);
    CleanerRankFalls(s, c);
    CleanerRankSlope(CleanNext(s, c).cleaner, |CleanNext(s, c).table|, |s.table|);
    MainRankMonotone(s.main, |CleanNext(s, c).table|, |s.table|);
  }

  /** Once running_ is false it stays false, and every step of every thread brings the daemon closer to its end. */
  lemma ShutdownStep(s: State, a: Action)
    requires Inv(s) && !s.running && Enabled(s, a) && InScope(s, a)
    ensures Rank(Next(s, a)) < Rank(s) && !Next(s, a).running
  {
    match a
    case ByMain(c) => MainStepRank(s, c);
    case ByCleaner(c) => CleanerStepRank(s, c);
    case ByWorker(i, c) => WorkerRankFalls(s, i, c);
    case _ =>
  }

  /** After stop, no run is longer than the rank of the state it starts in, whatever the clients do. */
  lemma {:induction false} ShutdownBounded(s: State, acts: seq<Action>, s': State)
    requires Inv(s) && !s.running && Run(s, acts, s')
    ensures |acts| + Rank(s') <= Rank(s) && !s'.running
    decreases |acts|
  {
    if acts != [] {
      StepKeepsInv(s, acts[0]);
      ShutdownStep(s, acts[0]);
      ShutdownBounded(Next(s, acts[0]), acts[1..], s');
    }
  }

  /**
    Shutdown: from any reachable state in which running_ is false, every run is bounded, and a run that cannot go on
    has ended with every thread returned, no session in the map and none unreleased.
   */
  lemma ShutdownCompletes(s: State, acts: seq<Action>, s': State)
    requires Reachable(s) && !s.running && Run(s, acts, s')
    ensures |acts| <= Rank(s)
    ensures !CanStep(s') ==> Finished(s') && s'.table == map[]
  {
    ReachableInv(s);
    ShutdownBounded(s, acts, s');
    RunKeepsInv(s, acts, s');
    if !CanStep(s') {
      StuckMeansDone(s');
    }
  }

  lemma StuckMeansDone(s: State)
    requires Inv(s) && !CanStep(s)
    ensures Finished(s) && s.table == map[]
  {
    if !Finished(s) {
      InvCanStep(s);
    }
    assert !Unfinished(s, TMain);
  }

  // ---------------------------------------------------------------- a worker told to stop while the daemon runs on

  /** Steps a worker can still take once its session's running flag is false, whatever running_ says. */
  function StoppedRank(w: WorkerPc): (r: nat)
    ensures r <= 9
  {
    match w
    case WFlag => 9
    case _ => WorkerRank(w)
  }

  /** A thread was created for session i, and its session has been told to stop. */
  predicate ToldToStop(s: State, i: nat)
  {
    i < |s.heap| && s.heap[i].worker != WNone && !s.heap[i].running
  }

  lemma RegKeepsStopped(s: State, c: Choice, i: nat)
    requires MainOk(s) && Registering(s.main) && RegEnabled(s, c) && ToldToStop(s, i)
    ensures ToldToStop(RegNext(s, c), i) && RegNext(s, c).heap[i].worker == s.heap[i].worker
  {
  }

  lemma SweepKeepsStopped(s: State, c: Choice, i: nat)
    requires Sweeping(s.main) && SweepEnabled(s, c) && ToldToStop(s, i)
    ensures ToldToStop(SweepNext(s, c), i) && SweepNext(s, c).heap[i].worker == s.heap[i].worker
  {
  }

  lemma CleanKeepsStopped(s: State, c: Choice, i: nat)
    requires CleanEnabled(s, c) && ToldToStop(s, i)
    ensures ToldToStop(CleanNext(s, c), i) && CleanNext(s, c).heap[i].worker == s.heap[i].worker
  {
  }

  lemma MainKeepsStopped(s: State, c: Choice, i: nat)
    requires MainOk(s) && MainEnabled(s, c) && ToldToStop(s, i)
    ensures ToldToStop(MainNext(s, c), i) && MainNext(s, c).heap[i].worker == s.heap[i].worker
  {
    if Registering(s.main) {
      RegKeepsStopped(s, c, i);
    } else if Sweeping(s.main) {
      SweepKeepsStopped(s, c, i);
    } else {
      OuterLeavesSessions(s, c);
    }
  }

  /** 1 when a is a step of the worker of session i. */
  function StepBy(a: Action, i: nat): nat
  {
    if a.ByWorker? && a.i == i then 1 else 0
  }

  /** The steps among acts that the worker of session i takes. */
  function StepsOf(acts: seq<Action>, i: nat): nat
  {
    if acts == [] then 0 else StepBy(acts[0], i) + StepsOf(acts[1..], i)
  }

  lemma StoppedStep(s: State, a: Action, i: nat)
    requires MainOk(s) && Enabled(s, a) && ToldToStop(s, i)
    ensures ToldToStop(Next(s, a), i)
    ensures StoppedRank(Next(s, a).heap[i].worker) + StepBy(a, i) <= StoppedRank(s.heap[i].worker)
  {
    match a
    case ByMain(c) => MainKeepsStopped(s, c, i);
    case ByCleaner(c) => CleanKeepsStopped(s, c, i);
    case ByWorker(j, c) =>
    case _ =>
  }

  /**
    A join on one session returns although the daemon runs on: once its running flag is false, a worker takes at most
    nine more steps, whatever the clients and the other threads do.
   */
  lemma {:induction false} StoppedWorkerReturns(s: State, acts: seq<Action>, s': State, i: nat)
    requires Inv(s) && Run(s, acts, s') && ToldToStop(s, i)
    ensures ToldToStop(s', i)
    ensures StepsOf(acts, i) + StoppedRank(s'.heap[i].worker) <= StoppedRank(s.heap[i].worker)
    decreases |acts|
  {
    if acts != [] {
      StoppedStep(s, acts[0], i);
      StepKeepsInv(s, acts[0]);
      StoppedWorkerReturns(Next(s, acts[0]), acts[1..], s', i);
    }
  }

  // ---------------------------------------------------------------- stop() from a handler inside the critical section

  /** Like `Run`, with no condition on where `stop()` is called. */
  ghost predicate AnyRun(s: State, acts: seq<Action>, s': State)
    decreases |acts|
  {
    if acts == [] then s == s'
    else Enabled(s, acts[0]) && AnyRun(Next(s, acts[0]), acts[1..], s')
  }

  /** main is suspended holding the lock that the cleanup thread will need before it can return. */
  predicate Stuck(s: State)
  {
    && Suspended(s) && !s.running && s.holder == HeldByMain
    && (s.cleaner.CSleep? || s.cleaner.CLockWait?)
  }

  lemma {:induction false} StuckForever(s: State, acts: seq<Action>, s': State)
    requires Stuck(s) && AnyRun(s, acts, s')
    ensures Stuck(s')
    decreases |acts|
  {
    if acts != [] {
      StuckForever(Next(s, acts[0]), acts[1..], s');
    }
  }

  /** Some run from s ends with `stop()` having returned. */
  ghost predicate StopCanReturn(s: State)
  {
    exists acts, s' :: AnyRun(s, acts, s') && s'.stopper.SDone?
  }

  lemma StopReturns(s: State)
    requires s.stopper.SJoin? && !s.running && s.cleaner.CTop?
    ensures StopCanReturn(s)
  {
    var u := Next(s, ByCleaner(ANY));
    var v := Next(u, StopJoin);
    assert AnyRun(v, [], v);
    assert [StopJoin][1..] == [];
    assert AnyRun(u, [StopJoin], v);
    assert [ByCleaner(ANY), StopJoin][1..] == [StopJoin];
    assert AnyRun(s, [ByCleaner(ANY), StopJoin], v);
  }

  /**
    A signal handler that interrupts main while it holds sessions_mutex_ can return from stop() exactly when the
    cleanup thread has not yet passed its test of running_.
   */
  lemma HandlerInsideLock(s: State)
    requires Reachable(s) && s.running && s.stopper.SIdle? && s.holder == HeldByMain && Alive(s)
    ensures StopCanReturn(Next(s, StopBegin(true))) <==> s.cleaner.CTop?
  {
    var t := Next(s, StopBegin(true));
    if s.cleaner.CTop? {
      StopReturns(t);
    } else {
      ReachableInv(s);
      assert Stuck(t) by {
        assert PhaseOk(s) && Locks(s);
      }
      forall acts, s' | AnyRun(t, acts, s') ensures !s'.stopper.SDone? {
        StuckForever(t, acts, s');
      }
    }
  }

  /** Such an interrupt can indeed happen after the test: the deadlock is reachable. */
  lemma HandlerDeadlockReachable()
    ensures exists s :: Reachable(s) && s.running && s.stopper.SIdle? && s.holder == HeldByMain && Alive(s)
              && !StopCanReturn(Next(s, StopBegin(true)))
  {
    DaemonTheorems.ThreadlessSessionStays();
    var s := DaemonTheorems.At(MUnlock, HeldByMain);
    DaemonTheorems.ReachableStep(s, ByCleaner(ANY));
    var t := Next(s, ByCleaner(ANY));
    HandlerInsideLock(t);
  }
}
