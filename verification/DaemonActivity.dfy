/**
  What a session's activity time is over a run, and what a cleanup pass therefore keeps and removes (Daemon.cpp:102-156,
  162-207, 221-246).
 */
module DaemonActivity {
  import opened Base
  import opened Naming
  import opened DaemonProtocol
  import opened DaemonInvariant

  // ---------------------------------------------------------------- renewals

  /** The session a registration of pid is for: the one in the map, or the next to be made. */
  function SessionFor(s: State, pid: Pid): nat
  {
    if pid in s.table then s.table[pid] else |s.heap|
  }

  /** The step registers or re-registers session i, or its worker takes up a request it has received whole. */
  predicate Renews(s: State, a: Action, i: nat)
  {
    || (a.ByMain? && s.main.MRegFind? && SessionFor(s, s.main.pid) == i)
    || (a.ByWorker? && a.i == i && i < |s.heap| && s.heap[i].worker == WTouch)
  }

  /** The time of the last step of a run that renews session i. */
  ghost function LastRenewal(s: State, acts: seq<Action>, i: nat): Option<int>
    decreases |acts|
  {
    if acts == [] || !Enabled(s, acts[0]) then None
    else
      var later := LastRenewal(Next(s, acts[0]), acts[1..], i);
      if later.Some? then later else if Renews(s, acts[0], i) then Some(acts[0].c.now) else None
  }

  /** A step that renews session i sets its activity to the time of the step, and no other step changes it. */
  lemma ActivityStep(s: State, a: Action, i: nat)
    requires MainOk(s) && Enabled(s, a)
    ensures |s.heap| <= |Next(s, a).heap| <= |s.heap| + 1
    ensures i < |Next(s, a).heap| && Renews(s, a, i) ==> Next(s, a).heap[i].lastActivity == a.c.now
    ensures i < |s.heap| && !Renews(s, a, i) ==> Next(s, a).heap[i].lastActivity == s.heap[i].lastActivity
    ensures i == |s.heap| < |Next(s, a).heap| ==> Renews(s, a, i)
  {
    match a
    case ByMain(c) => MainActivity(s, c, i);
    case ByCleaner(c) => CleanerActivity(s, c, i);
    case _ =>
  }

  lemma CleanerActivity(s: State, c: Choice, i: nat)
    requires CleanEnabled(s, c)
    ensures |CleanNext(s, c).heap| == |s.heap|
    ensures i < |s.heap| ==> CleanNext(s, c).heap[i].lastActivity == s.heap[i].lastActivity
  {
  }

  lemma SweepActivity(s: State, c: Choice, i: nat)
    requires Sweeping(s.main) && SweepEnabled(s, c)
    ensures |SweepNext(s, c).heap| == |s.heap|
    ensures i < |s.heap| ==> SweepNext(s, c).heap[i].lastActivity == s.heap[i].lastActivity
  {
  }

  lemma RegActivity(s: State, c: Choice, i: nat)
    requires MainOk(s) && Registering(s.main) && RegEnabled(s, c)
    ensures var t := RegNext(s, c);
      && |s.heap| <= |t.heap| <= |s.heap| + 1
      && (i < |t.heap| && Renews(s, ByMain(c), i) ==> t.heap[i].lastActivity == c.now)
      && (i < |s.heap| && !Renews(s, ByMain(c), i) ==> t.heap[i].lastActivity == s.heap[i].lastActivity)
      && (i == |s.heap| < |t.heap| ==> Renews(s, ByMain(c), i))
  {
  }

  lemma MainActivity(s: State, c: Choice, i: nat)
    requires MainOk(s) && MainEnabled(s, c)
    ensures var t := MainNext(s, c);
      && |s.heap| <= |t.heap| <= |s.heap| + 1
      && (i < |t.heap| && Renews(s, ByMain(c), i) ==> t.heap[i].lastActivity == c.now)
      && (i < |s.heap| && !Renews(s, ByMain(c), i) ==> t.heap[i].lastActivity == s.heap[i].lastActivity)
      && (i == |s.heap| < |t.heap| ==> Renews(s, ByMain(c), i))
  {
    if Registering(s.main) {
      RegActivity(s, c, i);
    } else if Sweeping(s.main) {
      SweepActivity(s, c, i);
    }
  }

  /**
    The activity of session i in s' is the time of its last renewal since s, or what it was in s when there was none.
   */
  predicate ActivityIs(s: State, renewal: Option<int>, s': State, i: nat)
    requires i < |s'.heap|
  {
    match renewal
    case Some(time) => s'.heap[i].lastActivity == time
    case None => i < |s.heap| && s'.heap[i].lastActivity == s.heap[i].lastActivity
  }

  lemma ActivityBackOneStep(s: State, a: Action, later: Option<int>, s': State, i: nat)
    requires MainOk(s) && Enabled(s, a) && i < |s'.heap| && ActivityIs(Next(s, a), later, s', i)
    ensures ActivityIs(s, if later.Some? then later else if Renews(s, a, i) then Some(a.c.now) else None, s', i)
  {
    ActivityStep(s, a, i);
  }

  /** A session's stored activity is the time of the last step that registered it or took up one of its requests. */
  lemma {:induction false} ActivityIsLastRenewal(s: State, acts: seq<Action>, s': State, i: nat)
    requires Inv(s) && Run(s, acts, s') && i < |s'.heap|
    ensures ActivityIs(s, LastRenewal(s, acts, i), s', i)
    decreases |acts|
  {
    if acts != [] {
      var t := Next(s, acts[0]);
      StepKeepsInv(s, acts[0]);
      ActivityIsLastRenewal(t, acts[1..], s', i);
      ActivityBackOneStep(s, acts[0], LastRenewal(t, acts[1..], i), s', i);
    }
  }

  // ---------------------------------------------------------------- a clock that does not go back

  /** No step of the run is at a time before t. */
  predicate NotBefore(acts: seq<Action>, t: int)
  {
    forall k :: 0 <= k < |acts| && Timed(acts[k]) ==> t <= acts[k].c.now
  }

  predicate Timed(a: Action)
  {
    a.ByMain? || a.ByCleaner? || a.ByWorker?
  }

  predicate Clocked(acts: seq<Action>)
  {
    forall j, k :: 0 <= j < k < |acts| && Timed(acts[j]) && Timed(acts[k]) ==> acts[j].c.now <= acts[k].c.now
  }

  /** The last renewal is at a time of the run, and any renewal in it is no later than the last. */
  lemma {:induction false} RenewalInRun(s: State, acts: seq<Action>, s': State, i: nat, t: int)
    requires Run(s, acts, s') && NotBefore(acts, t)
    ensures LastRenewal(s, acts, i).Some? ==> t <= LastRenewal(s, acts, i).value
    decreases |acts|
  {
    if acts != [] {
      RenewalInRun(Next(s, acts[0]), acts[1..], s', i, t);
    }
  }

  /** Once a session's activity is at t or later, it stays so on a clock that does not go back. */
  lemma ActivityStays(s: State, acts: seq<Action>, s': State, i: nat, t: int)
    requires Inv(s) && Run(s, acts, s') && NotBefore(acts, t)
    requires i < |s.heap| && t <= s.heap[i].lastActivity
    ensures i < |s'.heap| && t <= s'.heap[i].lastActivity
  {
    HeapGrows(s, acts, s');
    ActivityIsLastRenewal(s, acts, s', i);
    RenewalInRun(s, acts, s', i, t);
  }

  lemma {:induction false} HeapGrows(s: State, acts: seq<Action>, s': State)
    requires Inv(s) && Run(s, acts, s')
    ensures |s.heap| <= |s'.heap|
    decreases |acts|
  {
    if acts != [] {
      ActivityStep(s, acts[0], 0);
      StepKeepsInv(s, acts[0]);
      HeapGrows(Next(s, acts[0]), acts[1..], s');
    }
  }

  /**
    On a clock that does not go back, a session that is registered, re-registered or has a request taken up at a time
    has an activity no earlier than that from then on.
   */
  lemma RenewalHolds(s: State, a: Action, acts: seq<Action>, s': State, i: nat)
    requires Reachable(s) && Enabled(s, a) && InScope(s, a) && Renews(s, a, i)
    requires Run(Next(s, a), acts, s') && NotBefore(acts, a.c.now)
    ensures i < |s'.heap| && a.c.now <= s'.heap[i].lastActivity
  {
    ReachableInv(s);
    ActivityStep(s, a, i);
    RenewedExists(s, a, i);
    StepKeepsInv(s, a);
    ActivityStays(Next(s, a), acts, s', i, a.c.now);
  }

  lemma RenewedExists(s: State, a: Action, i: nat)
    requires Inv(s) && Enabled(s, a) && Renews(s, a, i)
    ensures i < |Next(s, a).heap|
  {
    ActivityStep(s, a, i);
    if a.ByMain? && s.main.pid in s.table {
      assert TableOk(s);
    }
  }

  /** The worker of session i takes a step. */
  predicate Moves(acts: seq<Action>, i: nat)
  {
    exists k :: 0 <= k < |acts| && acts[k].ByWorker? && acts[k].i == i
  }

  /**
    A whole request renews its session: whatever the time at which it was received, once the worker that has it in hand
    has gone on, the session's activity is no earlier than that.
   */
  lemma {:induction false} RequestRenews(s: State, acts: seq<Action>, s': State, i: nat, t: int)
    requires Inv(s) && Run(s, acts, s') && NotBefore(acts, t)
    requires i < |s.heap| && s.heap[i].worker == WTouch && Moves(acts, i)
    ensures i < |s'.heap| && t <= s'.heap[i].lastActivity
    decreases |acts|
  {
    var a := acts[0];
    StepKeepsInv(s, a);
    assert NotBefore(acts[1..], t);
    if a.ByWorker? && a.i == i {
      ActivityStep(s, a, i);
      ActivityStays(Next(s, a), acts[1..], s', i, t);
    } else {
      MovesLater(acts, i);
      OthersLeaveWorker(s, a, i);
      RequestRenews(Next(s, a), acts[1..], s', i, t);
    }
  }

  /** The worker of session i receives a whole request. */
  predicate Receives(s: State, a: Action, i: nat)
  {
    a.ByWorker? && a.i == i && i < |s.heap| && s.heap[i].worker == WRecv && a.c.ok
  }

  /** A whole request received at a time renews its session at that time or later, with its worker's very next step. */
  lemma ReceiptRenews(s: State, a: Action, acts: seq<Action>, s': State, i: nat)
    requires Inv(s) && Enabled(s, a) && InScope(s, a) && Receives(s, a, i)
    requires Run(Next(s, a), acts, s') && NotBefore(acts, a.c.now) && Moves(acts, i)
    ensures i < |s'.heap| && a.c.now <= s'.heap[i].lastActivity
  {
    StepKeepsInv(s, a);
    RequestRenews(Next(s, a), acts, s', i, a.c.now);
  }

  function Ones(b: bool): nat { if b then 1 else 0 }

  /** How many whole requests the worker of session i receives in a run. */
  ghost function Receipts(s: State, acts: seq<Action>, i: nat): nat
    decreases |acts|
  {
    if acts == [] || !Enabled(s, acts[0]) then 0
    else Ones(Receives(s, acts[0], i)) + Receipts(Next(s, acts[0]), acts[1..], i)
  }

  /** How often the worker of session i renews its activity in a run. */
  ghost function Touches(s: State, acts: seq<Action>, i: nat): nat
    decreases |acts|
  {
    if acts == [] || !Enabled(s, acts[0]) then 0
    else Ones(acts[0].ByWorker? && Renews(s, acts[0], i)) + Touches(Next(s, acts[0]), acts[1..], i)
  }

  predicate RequestInHand(s: State, i: nat)
  {
    i < |s.heap| && s.heap[i].worker == WTouch
  }

  lemma OneTouchPerRequestStep(s: State, a: Action, i: nat)
    requires MainOk(s) && Enabled(s, a)
    ensures Ones(a.ByWorker? && Renews(s, a, i)) + Ones(RequestInHand(Next(s, a), i))
         == Ones(Receives(s, a, i)) + Ones(RequestInHand(s, i))
  {
    if !(a.ByWorker? && a.i == i) {
      OthersTakeNoRequest(s, a, i);
    }
  }

  lemma OthersTakeNoRequest(s: State, a: Action, i: nat)
    requires MainOk(s) && Enabled(s, a) && !(a.ByWorker? && a.i == i)
    ensures RequestInHand(Next(s, a), i) == RequestInHand(s, i)
  {
    if a.ByMain? && Registering(s.main) {
      RegTakesNoRequest(s, a.c, i);
    } else if a.ByMain? && Sweeping(s.main) {
      SweepActivity(s, a.c, i);
      if i < |s.heap| { SweepLeavesWorker(s, a.c, i); }
    } else if a.ByCleaner? {
      CleanerActivity(s, a.c, i);
      if i < |s.heap| { CleanKeepsWorkers(s, a.c, i); }
    }
  }

  lemma RegTakesNoRequest(s: State, c: Choice, i: nat)
    requires MainOk(s) && Registering(s.main) && RegEnabled(s, c)
    ensures RequestInHand(RegNext(s, c), i) == RequestInHand(s, i)
  {
  }

  /** Each whole request a worker receives renews its session once, and nothing else it receives does. */
  lemma {:induction false} OneTouchPerRequest(s: State, acts: seq<Action>, s': State, i: nat)
    requires Inv(s) && Run(s, acts, s')
    ensures Touches(s, acts, i) + Ones(RequestInHand(s', i)) == Receipts(s, acts, i) + Ones(RequestInHand(s, i))
    decreases |acts|
  {
    if acts != [] {
      OneTouchPerRequestStep(s, acts[0], i);
      StepKeepsInv(s, acts[0]);
      OneTouchPerRequest(Next(s, acts[0]), acts[1..], s', i);
    }
  }

  lemma MovesLater(acts: seq<Action>, i: nat)
    requires Moves(acts, i) && !(acts[0].ByWorker? && acts[0].i == i)
    ensures Moves(acts[1..], i)
  {
    var k :| 0 <= k < |acts| && acts[k].ByWorker? && acts[k].i == i;
    assert acts[1..][k - 1] == acts[k];
  }

  /** Nobody else moves a worker that is at work. */
  lemma OthersLeaveWorker(s: State, a: Action, i: nat)
    requires MainOk(s) && Enabled(s, a) && i < |s.heap| && s.heap[i].Live() && !(a.ByWorker? && a.i == i)
    ensures i < |Next(s, a).heap| && Next(s, a).heap[i].worker == s.heap[i].worker
  {
    match a
    case ByMain(c) => MainLeavesWorker(s, c, i);
    case ByCleaner(c) => CleanKeepsWorkers(s, c, i);
    case _ =>
  }

  lemma MainLeavesWorker(s: State, c: Choice, i: nat)
    requires MainOk(s) && MainEnabled(s, c) && i < |s.heap| && s.heap[i].Live()
    ensures i < |MainNext(s, c).heap| && MainNext(s, c).heap[i].worker == s.heap[i].worker
  {
    if Registering(s.main) {
      RegLeavesWorker(s, c, i);
    } else if Sweeping(s.main) {
      SweepLeavesWorker(s, c, i);
    }
  }

  lemma RegLeavesWorker(s: State, c: Choice, i: nat)
    requires MainOk(s) && Registering(s.main) && RegEnabled(s, c) && i < |s.heap| && s.heap[i].Live()
    ensures i < |RegNext(s, c).heap| && RegNext(s, c).heap[i].worker == s.heap[i].worker
  {
  }

  lemma SweepLeavesWorker(s: State, c: Choice, i: nat)
    requires Sweeping(s.main) && SweepEnabled(s, c) && i < |s.heap|
    ensures i < |SweepNext(s, c).heap| && SweepNext(s, c).heap[i].worker == s.heap[i].worker
  {
  }

  // ---------------------------------------------------------------- one cleanup pass

  predicate InPass(c: CleanerPc)
  {
    c.CScan? || c.CCondemn? || c.CJoin? || c.CErase?
  }

  /** A run within one cleanup pass, from the state after it took the lock to s'. */
  ghost predicate PassRun(s: State, acts: seq<Action>, s': State)
    decreases |acts|
  {
    if acts == [] then s == s'
    else
      && InPass(s.cleaner) && Enabled(s, acts[0]) && InScope(s, acts[0])
      && PassRun(Next(s, acts[0]), acts[1..], s')
  }

  /** The step reads pid's session and process. */
  predicate Reads(s: State, a: Action, pid: Pid)
  {
    a.ByCleaner? && s.cleaner.CScan? && s.cleaner.pass.todo != {} && a.c.pid == pid
  }

  /**
    What the first step of a run that reads pid's session finds: its last activity, and whether its process is alive.
   */
  ghost function ReadIn(s: State, acts: seq<Action>, pid: Pid): Option<(int, bool)>
    decreases |acts|
  {
    if acts == [] || !Enabled(s, acts[0]) then None
    else if Reads(s, acts[0], pid) then Some((s.heap[s.table[pid]].lastActivity, acts[0].c.alive))
    else ReadIn(Next(s, acts[0]), acts[1..], pid)
  }

  /** What the pass knows of a pid it has read. */
  predicate Knows(p: Pass, pid: Pid, r: (int, bool))
  {
    pid in p.seen && p.seen[pid].lastActivity == r.0 && p.seen[pid].alive == r.1
  }

  /** A step within a pass keeps what it found when it took the lock, and learns only of the pid it reads. */
  lemma PassStep(s: State, a: Action, pid: Pid)
    requires CleanOk(s) && InPass(s.cleaner) && Enabled(s, a)
    ensures var c, c' := s.cleaner, Next(s, a).cleaner;
      && (InPass(c') || c'.CUnlock?)
      && c'.pass.now == c.pass.now && c'.pass.start == c.pass.start
      && (Reads(s, a, pid) ==>
            && pid !in c.pass.seen && pid in s.table && s.table[pid] < |s.heap|
            && Knows(c'.pass, pid, (s.heap[s.table[pid]].lastActivity, a.c.alive)))
      && (!Reads(s, a, pid) ==> (pid in c'.pass.seen <==> pid in c.pass.seen))
      && (pid in c.pass.seen ==> pid in c'.pass.seen && c'.pass.seen[pid] == c.pass.seen[pid])
  {
    if a.ByCleaner? {
      assert PassOk(s.cleaner.pass);
    } else if a.ByMain? {
      MainLeavesCleaner(s, a.c);
    }
  }

  lemma MainLeavesCleaner(s: State, c: Choice)
    requires MainEnabled(s, c)
    ensures MainNext(s, c).cleaner == s.cleaner
  {
    if Registering(s.main) {
      RegLeavesOthers(s, c);
    } else if Sweeping(s.main) {
      SweepLeavesCleaner(s, c);
    }
  }

  lemma SweepLeavesCleaner(s: State, c: Choice)
    requires Sweeping(s.main) && SweepEnabled(s, c)
    ensures SweepNext(s, c).cleaner == s.cleaner
  {
  }

  /** By its end a pass knows of each session what its reading of it found. */
  lemma {:induction false} PassReads(s: State, acts: seq<Action>, s': State, pid: Pid)
    requires Inv(s) && InPass(s.cleaner) && PassRun(s, acts, s') && s'.cleaner.CUnlock?
    requires pid in s.cleaner.pass.start
    ensures s'.cleaner.pass.now == s.cleaner.pass.now && s'.cleaner.pass.start == s.cleaner.pass.start
    ensures pid in s.cleaner.pass.seen ==>
      pid in s'.cleaner.pass.seen && s'.cleaner.pass.seen[pid] == s.cleaner.pass.seen[pid]
    ensures pid !in s.cleaner.pass.seen ==>
      ReadIn(s, acts, pid).Some? && Knows(s'.cleaner.pass, pid, ReadIn(s, acts, pid).value)
    decreases |acts|
  {
    var t := Next(s, acts[0]);
    PassStep(s, acts[0], pid);
    StepKeepsInv(s, acts[0]);
    if acts[1..] == [] {
      assert PassOk(t.cleaner.pass);
    } else {
      assert InPass(t.cleaner);
      PassReads(t, acts[1..], s', pid);
    }
  }

  lemma {:induction false} PassIsRun(s: State, acts: seq<Action>, s': State)
    requires PassRun(s, acts, s')
    ensures Run(s, acts, s')
    decreases |acts|
  {
    if acts != [] {
      PassIsRun(Next(s, acts[0]), acts[1..], s');
    }
  }

  /** After one step the clock is still not before the session's activity, which has not gone back. */
  lemma ClockStep(s: State, acts: seq<Action>, i: nat)
    requires MainOk(s) && acts != [] && Enabled(s, acts[0]) && Clocked(acts)
    requires i < |s.heap| && NotBefore(acts, s.heap[i].lastActivity)
    ensures Clocked(acts[1..]) && i < |Next(s, acts[0]).heap|
    ensures s.heap[i].lastActivity <= Next(s, acts[0]).heap[i].lastActivity
    ensures NotBefore(acts[1..], Next(s, acts[0]).heap[i].lastActivity)
  {
    ActivityStep(s, acts[0], i);
    var t := Next(s, acts[0]).heap[i].lastActivity;
    forall k | 0 <= k < |acts[1..]| && Timed(acts[1..][k]) ensures t <= acts[1..][k].c.now {
      assert acts[1..][k] == acts[k + 1];
      assert Renews(s, acts[0], i) ==> acts[0].c.now <= acts[k + 1].c.now;
    }
    forall j, k | 0 <= j < k < |acts[1..]| && Timed(acts[1..][j]) && Timed(acts[1..][k])
      ensures acts[1..][j].c.now <= acts[1..][k].c.now
    {
      assert acts[1..][j] == acts[j + 1] && acts[1..][k] == acts[k + 1];
    }
  }

  /** The pid a pass reads is in the map with the session the pass found. */
  lemma ReadsItsSession(s: State, a: Action, pid: Pid)
    requires CleanOk(s) && Enabled(s, a) && Reads(s, a, pid) && pid in s.cleaner.pass.start
    ensures pid in s.table && s.table[pid] == s.cleaner.pass.start[pid]
  {
  }

  /** What a pass read of a session lies between its activity at the start of the pass and that at its end. */
  lemma {:induction false} ReadBetween(s: State, acts: seq<Action>, s': State, pid: Pid, sid: nat)
    requires Inv(s) && PassRun(s, acts, s') && ReadIn(s, acts, pid).Some? && Clocked(acts)
    requires InPass(s.cleaner) && pid in s.cleaner.pass.start && s.cleaner.pass.start[pid] == sid < |s.heap|
    requires NotBefore(acts, s.heap[sid].lastActivity)
    ensures sid < |s'.heap|
    ensures s.heap[sid].lastActivity <= ReadIn(s, acts, pid).value.0 <= s'.heap[sid].lastActivity
    decreases |acts|
  {
    if Reads(s, acts[0], pid) {
      ReadsItsSession(s, acts[0], pid);
      PassIsRun(s, acts, s');
      ActivityStays(s, acts, s', sid, s.heap[sid].lastActivity);
    } else {
      PassStep(s, acts[0], pid);
      StepKeepsInv(s, acts[0]);
      ClockStep(s, acts, sid);
      ReadBetween(Next(s, acts[0]), acts[1..], s', pid, sid);
    }
  }

  /** What a finished pass keeps, in terms of what it read. */
  lemma PassEnd(s: State, pid: Pid, r: (int, bool))
    requires CleanOk(s) && s.cleaner.CUnlock? && Knows(s.cleaner.pass, pid, r) && pid in s.cleaner.pass.start
    ensures pid in s.table <==> r.1 && s.cleaner.pass.now - r.0 <= 300
    ensures pid in s.table ==> s.table[pid] == s.cleaner.pass.start[pid]
  {
  }

  /**
    Exactly what a finished pass keeps: the sessions whose process it read as alive and whose last renewal, when it read
    them, was no more than 300 seconds before it took the lock. `m` is the state in which it took the lock.
   */
  lemma PassKeeps(m: State, c: Choice, acts: seq<Action>, s: State, pid: Pid)
    requires Reachable(m) && m.cleaner.CLockWait? && CleanEnabled(m, c)
    requires PassRun(CleanNext(m, c), acts, s) && s.cleaner.CUnlock? && pid in m.table
    ensures ReadIn(CleanNext(m, c), acts, pid).Some?
    ensures var (activity, alive) := ReadIn(CleanNext(m, c), acts, pid).value;
      pid in s.table <==> alive && c.now - activity <= 300
    ensures pid in s.table ==> s.table[pid] == m.table[pid]
  {
    var t := CleanNext(m, c);
    ReachableInv(m);
    StepKeepsInv(m, ByCleaner(c));
    PassReads(t, acts, s, pid);
    PassIsRun(t, acts, s);
    RunKeepsInv(t, acts, s);
    PassEnd(s, pid, ReadIn(t, acts, pid).value);
  }

  /**
    In terms of the run's renewals, on a clock that does not go back: of the sessions it found a pass keeps every one
    that was renewed no more than 300 seconds before it took the lock, if it reads its process as alive; it removes
    every one whose process it reads as dead, and every one whose last renewal by the end of the pass was longer ago.
   */
  lemma PassByRenewals(pre: seq<Action>, m: State, c: Choice, acts: seq<Action>, s: State, pid: Pid)
    requires Run(Init(), pre, m) && m.cleaner.CLockWait? && CleanEnabled(m, c)
    requires PassRun(CleanNext(m, c), acts, s) && s.cleaner.CUnlock? && pid in m.table
    requires Clocked(pre + [ByCleaner(c)] + acts)
    ensures ReadIn(CleanNext(m, c), acts, pid).Some?
    ensures m.table[pid] < |m.heap|
    ensures var sid, alive := m.table[pid], ReadIn(CleanNext(m, c), acts, pid).value.1;
      var before := LastRenewal(Init(), pre, sid);
      var last := LastRenewal(CleanNext(m, c), acts, sid);
      && before.Some?
      && (alive && c.now <= before.value + 300 ==> pid in s.table && s.table[pid] == sid)
      && (!alive ==> pid !in s.table)
      && ((if last.Some? then last.value else before.value) + 300 < c.now ==> pid !in s.table)
  {
    var t, sid := CleanNext(m, c), m.table[pid];
    ReachableInv(m);
    assert TableOk(m);
    InitInv();
    ActivityIsLastRenewal(Init(), pre, m, sid);
    StepKeepsInv(m, ByCleaner(c));
    CleanerActivity(m, c, sid);
    PassKeeps(m, c, acts, s, pid);
    ClockSplits(pre, c, acts, m, sid);
    ReadBetween(t, acts, s, pid, sid);
    PassIsRun(t, acts, s);
    ActivityIsLastRenewal(t, acts, s, sid);
  }

  lemma ClockedTail(acts: seq<Action>, n: nat)
    requires Clocked(acts) && n <= |acts|
    ensures Clocked(acts[n..])
    ensures forall j :: 0 <= j < n && Timed(acts[j]) ==> NotBefore(acts[n..], acts[j].c.now)
  {
  }

  /** The clock of the whole run, seen from the pass. */
  lemma ClockSplits(pre: seq<Action>, c: Choice, acts: seq<Action>, m: State, sid: nat)
    requires Clocked(pre + [ByCleaner(c)] + acts) && Run(Init(), pre, m) && sid < |m.heap|
    requires LastRenewal(Init(), pre, sid).Some? && m.heap[sid].lastActivity == LastRenewal(Init(), pre, sid).value
    ensures Clocked(acts) && NotBefore(acts, m.heap[sid].lastActivity)
  {
    var all := pre + [ByCleaner(c)] + acts;
    var n := |pre| + 1;
    assert acts == all[n..];
    ClockedTail(all, n);
    RenewalIsOneOf(Init(), pre, m, sid);
    var j :| 0 <= j < |pre| && Timed(pre[j]) && pre[j].c.now == LastRenewal(Init(), pre, sid).value;
    assert all[j] == pre[j];
  }

  lemma {:induction false} RenewalIsOneOf(s: State, acts: seq<Action>, s': State, i: nat)
    requires Run(s, acts, s') && LastRenewal(s, acts, i).Some?
    ensures exists j :: 0 <= j < |acts| && Timed(acts[j]) && acts[j].c.now == LastRenewal(s, acts, i).value
    decreases |acts|
  {
    if LastRenewal(Next(s, acts[0]), acts[1..], i).Some? {
      RenewalIsOneOf(Next(s, acts[0]), acts[1..], s', i);
      var j :| 0 <= j < |acts[1..]| && Timed(acts[1..][j])
        && acts[1..][j].c.now == LastRenewal(Next(s, acts[0]), acts[1..], i).value;
      assert acts[j + 1] == acts[1..][j];
    } else {
      assert Timed(acts[0]);
    }
  }
}
