/**
  Registering callbacks against a dispatching reaper under the spin lock
  (Dispatcher.hpp:40-60, SpinLock.hpp, Dispatcher.cpp:173-177).
*/
module CallbackTable {
  import opened Base

  /** A callback, as an opaque token. */
  type Func = nat

  /** The non-empty entries of `funcs`. */
  type Table = map<nat, Func>

  /** One registration: `std::set` keeps its ids ascending and distinct. */
  datatype Call = Call(ids: seq<nat>, f: Func)

  predicate Ascending(ids: seq<nat>)
  {
    forall i, j :: 0 <= i < j < |ids| ==> ids[i] < ids[j]
  }

  predicate AllInRange(ids: seq<nat>)
  {
    forall id :: id in ids ==> id < MAX_ID
  }

  /** The table after f has been written to every id of ids. */
  function Write(t: Table, ids: seq<nat>, f: Func): Table
  {
    map n | n in t.Keys + (set id | id in ids) :: if n in ids then f else t[n]
  }

  /** The table after whole registrations, one at a time. */
  function TableOf(calls: seq<Call>): Table
  {
    if calls == [] then map[]
    else var c := calls[|calls| - 1]; Write(TableOf(calls[..|calls| - 1]), c.ids, c.f)
  }

  function Lookup(t: Table, id: nat): Option<Func>
  {
    if id in t then Some(t[id]) else None
  }

  // ---------------------------------------------------------------- the step system

  /** Where a thread is; thread 0 is the reaper, the others register. */
  datatype Pc =
    | Idle
    | RExchange(call: Call) | RSpin(call: Call)  // SpinLock::lock
    | RLoop(call: Call, done: nat)               // the loop over can_ids
    | RUnlock(call: Call)
    | PExchange(id: nat) | PSpin(id: nat)
    | PTest(id: nat)                             // if (funcs[can_id])
    | PCall(id: nat, seen: Option<Func>)         // funcs[can_id](frame)
    | PUnlock

  /** A frame's dispatch: the entry it saw and how many registrations had been completed then. */
  datatype Dispatch = Dispatch(id: nat, seen: Option<Func>, epoch: nat)

  /**
    `lock` is the atomic flag. `holder` and `leaked` record who took it last and whether a failed registration
    returned with it, `calls` and `callers` the completed registrations and whose they were; the steps never read them.
   */
  datatype State = State(lock: bool, holder: Option<nat>, leaked: bool, table: Table, threads: seq<Pc>,
                         calls: seq<Call>, callers: seq<nat>, dispatched: seq<Dispatch>)

  datatype Action = Register(t: nat, call: Call) | Frame(id: nat) | Step(t: nat)

  predicate InSection(pc: Pc)
  {
    pc.RLoop? || pc.RUnlock? || pc.PTest? || pc.PCall? || pc.PUnlock?
  }

  predicate Enabled(s: State, a: Action)
  {
    match a
    case Register(t, call) => 0 < t < |s.threads| && s.threads[t].Idle? && Ascending(call.ids)
    case Frame(id) => |s.threads| > 0 && s.threads[0].Idle? && id < MAX_ID
    case Step(t) => t < |s.threads| && !s.threads[t].Idle?
  }

  function SetPc(s: State, t: nat, pc: Pc): State
    requires t < |s.threads|
  {
    s.(threads := s.threads[t := pc])
  }

  /** `lock_.exchange(true)`: whoever sees false has the lock. */
  function Exchange(s: State, t: nat, won: Pc, lost: Pc): State
    requires t < |s.threads|
  {
    if s.lock then SetPc(s, t, lost) else SetPc(s.(lock := true, holder := Some(t)), t, won)
  }

  function Release(s: State, t: nat): State
    requires t < |s.threads|
  {
    SetPc(s.(lock := false, holder := None), t, Idle)
  }

  function Next(s: State, a: Action): State
    requires Enabled(s, a)
  {
    match a
    case Register(t, call) => SetPc(s, t, RExchange(call))
    case Frame(id) => SetPc(s, 0, PExchange(id))
    case Step(t) =>
      match s.threads[t]
      case RExchange(c) => Exchange(s, t, RLoop(c, 0), RSpin(c))
      case RSpin(c) => if s.lock then s else SetPc(s, t, RExchange(c))
      case RLoop(c, k) =>
        if k >= |c.ids| then SetPc(s, t, RUnlock(c))
        else if c.ids[k] >= MAX_ID then SetPc(s.(holder := None, leaked := true), t, Idle)  // returns without unlock
        else SetPc(s.(table := s.table[c.ids[k] := c.f]), t, RLoop(c, k + 1))
      case RUnlock(c) => Release(s.(calls := s.calls + [c], callers := s.callers + [t]), t)
      case PExchange(id) => Exchange(s, t, PTest(id), PSpin(id))
      case PSpin(id) => if s.lock then s else SetPc(s, t, PExchange(id))
      case PTest(id) => SetPc(s, t, PCall(id, Lookup(s.table, id)))
      case PCall(id, seen) =>
        SetPc(s.(dispatched := s.dispatched + [Dispatch(id, seen, |s.calls|)]), t, PUnlock)
      case PUnlock => Release(s, t)
  }

  function Init(n: nat): State
  {
    State(false, None, false, map[], seq(n, _ => Idle), [], [], [])
  }

  ghost predicate Run(s: State, acts: seq<Action>, s': State)
    decreases |acts|
  {
    if acts == [] then s == s' else Enabled(s, acts[0]) && Run(Next(s, acts[0]), acts[1..], s')
  }

  // ---------------------------------------------------------------- invariant

  ghost predicate LockOk(s: State)
  {
    && (forall i :: 0 <= i < |s.threads| && InSection(s.threads[i]) ==> s.holder == Some(i))
    && (s.holder.Some? ==> s.holder.value < |s.threads| && InSection(s.threads[s.holder.value]))
    && (s.lock <==> s.holder.Some? || s.leaked)
    && (s.leaked ==> s.holder.None?)
  }

  /** The table holds whole registrations, but for the writes of the registration that is inside the lock. */
  ghost predicate TableOk(s: State)
  {
    if s.leaked then true
    else if s.holder.None? || s.holder.value >= |s.threads| then s.table == TableOf(s.calls)
    else match s.threads[s.holder.value]
      case RLoop(c, k) => k <= |c.ids| && AllInRange(c.ids[..k]) && s.table == Write(TableOf(s.calls), c.ids[..k], c.f)
      case RUnlock(c) => AllInRange(c.ids) && s.table == Write(TableOf(s.calls), c.ids, c.f)
      case PCall(id, seen) => s.table == TableOf(s.calls) && seen == Lookup(TableOf(s.calls), id)
      case _ => s.table == TableOf(s.calls)
  }

  /** A dispatch saw the table of the first `epoch` registrations. */
  predicate EntryOk(calls: seq<Call>, d: Dispatch)
  {
    d.epoch <= |calls| && d.seen == Lookup(TableOf(calls[..d.epoch]), d.id)
  }

  ghost predicate LogOk(s: State)
  {
    && (forall c :: c in s.calls ==> AllInRange(c.ids))
    && forall i :: 0 <= i < |s.dispatched| ==> EntryOk(s.calls, s.dispatched[i])
  }

  ghost predicate Inv(s: State)
  {
    LockOk(s) && TableOk(s) && LogOk(s)
  }

  /** One more id of the loop. */
  lemma WriteNext(t: Table, ids: seq<nat>, k: nat, f: Func)
    requires k < |ids|
    ensures Write(t, ids[..k], f)[ids[k] := f] == Write(t, ids[..k + 1], f)
    ensures AllInRange(ids[..k + 1]) <==> AllInRange(ids[..k]) && ids[k] < MAX_ID
  {
    assert ids[..k + 1] == ids[..k] + [ids[k]];
    assert ids[k] in ids[..k + 1] && forall id :: id in ids[..k] ==> id in ids[..k + 1];
  }

  lemma StepKeepsLock(s: State, a: Action)
    requires LockOk(s) && Enabled(s, a)
    ensures LockOk(Next(s, a))
  {
  }

  lemma LoopKeepsTable(s: State, t: nat)
    requires LockOk(s) && TableOk(s) && Enabled(s, Step(t)) && s.threads[t].RLoop?
    ensures TableOk(Next(s, Step(t)))
  {
    var c, k := s.threads[t].call, s.threads[t].done;
    assert s.holder == Some(t);
    if k < |c.ids| {
      WriteNext(TableOf(s.calls), c.ids, k, c.f);
    } else {
      assert c.ids[..k] == c.ids;
    }
  }

  lemma UnlockKeepsTable(s: State, t: nat)
    requires LockOk(s) && TableOk(s) && Enabled(s, Step(t)) && s.threads[t].RUnlock?
    ensures TableOk(Next(s, Step(t)))
  {
    assert s.holder == Some(t);
    assert (s.calls + [s.threads[t].call])[..|s.calls|] == s.calls;
  }

  lemma StepKeepsTable(s: State, a: Action)
    requires LockOk(s) && TableOk(s) && Enabled(s, a)
    ensures TableOk(Next(s, a))
  {
    if a.Step? && s.threads[a.t].RLoop? {
      LoopKeepsTable(s, a.t);
    } else if a.Step? && s.threads[a.t].RUnlock? {
      UnlockKeepsTable(s, a.t);
    } else {
      OthersKeepTable(s, a);
    }
  }

  lemma OthersKeepTable(s: State, a: Action)
    requires LockOk(s) && TableOk(s) && Enabled(s, a)
    requires a.Step? ==> !s.threads[a.t].RLoop? && !s.threads[a.t].RUnlock?
    ensures TableOk(Next(s, a))
  {
    if a.Step? && s.threads[a.t].RExchange? {
      assert Write(TableOf(s.calls), [], s.threads[a.t].call.f) == TableOf(s.calls);
    }
  }

  lemma UnlockKeepsLog(s: State, t: nat)
    requires LockOk(s) && TableOk(s) && LogOk(s) && Enabled(s, Step(t)) && s.threads[t].RUnlock?
    ensures LogOk(Next(s, Step(t)))
  {
    var u := Next(s, Step(t));
    assert s.holder == Some(t);
    forall i | 0 <= i < |s.dispatched| ensures EntryOk(u.calls, s.dispatched[i]) {
      assert EntryOk(s.calls, s.dispatched[i]);
      assert u.calls[..s.dispatched[i].epoch] == s.calls[..s.dispatched[i].epoch];
    }
  }

  lemma CallKeepsLog(s: State, t: nat)
    requires LockOk(s) && TableOk(s) && LogOk(s) && Enabled(s, Step(t)) && s.threads[t].PCall?
    ensures LogOk(Next(s, Step(t)))
  {
    assert s.holder == Some(t);
    assert s.calls[..|s.calls|] == s.calls;
  }

  lemma StepKeepsLog(s: State, a: Action)
    requires Inv(s) && Enabled(s, a)
    ensures LogOk(Next(s, a))
  {
    if a.Step? && s.threads[a.t].RUnlock? {
      UnlockKeepsLog(s, a.t);
    } else if a.Step? && s.threads[a.t].PCall? {
      CallKeepsLog(s, a.t);
    } else {
      assert Next(s, a).calls == s.calls && Next(s, a).dispatched == s.dispatched;
    }
  }

  lemma {:induction false} RunKeepsInv(s: State, acts: seq<Action>, s': State)
    requires Inv(s) && Run(s, acts, s')
    ensures Inv(s')
    decreases |acts|
  {
    if acts != [] {
      StepKeepsLock(s, acts[0]);
      StepKeepsTable(s, acts[0]);
      StepKeepsLog(s, acts[0]);
      RunKeepsInv(Next(s, acts[0]), acts[1..], s');
    }
  }

  /**
    With any number of registering threads, at most one thread is between lock and unlock, and every dispatch sees the
    table that some number of complete registrations, in lock order, produce: never a part of one.
   */
  lemma AtomicRegistration(n: nat, acts: seq<Action>, s: State)
    requires Run(Init(n), acts, s)
    ensures forall i, j :: 0 <= i < j < |s.threads| ==> !InSection(s.threads[i]) || !InSection(s.threads[j])
    ensures forall i :: 0 <= i < |s.dispatched| ==> EntryOk(s.calls, s.dispatched[i])
    ensures !s.lock ==> s.table == TableOf(s.calls)
    ensures forall c :: c in s.calls ==> AllInRange(c.ids)
  {
    RunKeepsInv(Init(n), acts, s);
  }

  // ---------------------------------------------------------------- whose frames and registrations they are

  /** The first thread is the reaper, and the others register. */
  ghost predicate Roles(s: State)
  {
    && |s.calls| == |s.callers|
    && forall i :: 0 <= i < |s.threads| ==>
         var pc := s.threads[i];
         pc.Idle? || ((pc.PExchange? || pc.PSpin? || pc.PTest? || pc.PCall? || pc.PUnlock?) <==> i == 0)
  }

  function DispatchedIds(log: seq<Dispatch>): seq<nat>
  {
    if log == [] then [] else DispatchedIds(log[..|log| - 1]) + [log[|log| - 1].id]
  }

  function HeldId(pc: Pc): seq<nat>
  {
    if pc.PExchange? || pc.PSpin? || pc.PTest? || pc.PCall? then [pc.id] else []
  }

  /** The id of the frame the reaper has in hand. */
  function IdInHand(s: State): seq<nat>
  {
    if s.threads == [] then [] else HeldId(s.threads[0])
  }

  /** The ids of the frames that come to be dispatched in a run. */
  function FrameIds(acts: seq<Action>): seq<nat>
  {
    if acts == [] then [] else (if acts[0].Frame? then [acts[0].id] else []) + FrameIds(acts[1..])
  }

  lemma StepKeepsRoles(s: State, a: Action)
    requires Roles(s) && Enabled(s, a)
    ensures Roles(Next(s, a))
  {
  }

  lemma CallDispatches(s: State)
    requires Roles(s) && |s.threads| > 0 && s.threads[0].PCall?
    ensures var u := Next(s, Step(0));
      DispatchedIds(u.dispatched) == DispatchedIds(s.dispatched) + IdInHand(s) && IdInHand(u) == []
  {
    var u := Next(s, Step(0));
    assert u.dispatched[..|u.dispatched| - 1] == s.dispatched;
  }

  lemma OthersDispatchNothing(s: State, a: Action)
    requires Roles(s) && Enabled(s, a) && !a.Frame? && !(a == Step(0) && s.threads[0].PCall?)
    ensures Next(s, a).dispatched == s.dispatched && IdInHand(Next(s, a)) == IdInHand(s)
  {
  }

  lemma StepDispatches(s: State, a: Action)
    requires Roles(s) && Enabled(s, a)
    ensures DispatchedIds(Next(s, a).dispatched) + IdInHand(Next(s, a))
         == DispatchedIds(s.dispatched) + IdInHand(s) + (if a.Frame? then [a.id] else [])
  {
    if a == Step(0) && s.threads[0].PCall? {
      CallDispatches(s);
    } else if a.Frame? {
      assert IdInHand(Next(s, a)) == [a.id] && IdInHand(s) == [];
    } else {
      OthersDispatchNothing(s, a);
    }
  }

  lemma Regroup<T>(a: seq<T>, b: seq<T>, c: seq<T>, d: seq<T>)
    ensures a + b + c + d == a + b + (c + d)
  {
  }

  /** Frames are dispatched under their own ids, in the order in which they come and once each. */
  lemma {:induction false} FramesDispatched(s: State, acts: seq<Action>, s': State)
    requires Roles(s) && Run(s, acts, s')
    ensures DispatchedIds(s'.dispatched) + IdInHand(s') == DispatchedIds(s.dispatched) + IdInHand(s) + FrameIds(acts)
    decreases |acts|
  {
    if acts != [] {
      StepKeepsRoles(s, acts[0]);
      StepDispatches(s, acts[0]);
      FramesDispatched(Next(s, acts[0]), acts[1..], s');
      var x := if acts[0].Frame? then [acts[0].id] else [];
      Regroup(DispatchedIds(s.dispatched), IdInHand(s), x, FrameIds(acts[1..]));
    }
  }

  lemma {:induction false} DispatchedIdAt(log: seq<Dispatch>, k: nat)
    requires k < |log|
    ensures |DispatchedIds(log)| == |log| && DispatchedIds(log)[k] == log[k].id
  {
    if k < |log| - 1 {
      DispatchedIdAt(log[..|log| - 1], k);
    } else if k > 0 {
      DispatchedIdAt(log[..|log| - 1], k - 1);
    }
  }

  /**
    The k-th frame that comes is the k-th to be dispatched, and it runs the callback that the table of some number of
    complete registrations has for that frame's own id.
   */
  lemma FrameRunsItsCallback(n: nat, acts: seq<Action>, s: State, k: nat)
    requires Run(Init(n), acts, s) && k < |s.dispatched|
    ensures k < |FrameIds(acts)|
    ensures var d := s.dispatched[k];
      d.epoch <= |s.calls| && d.seen == Lookup(TableOf(s.calls[..d.epoch]), FrameIds(acts)[k])
  {
    FramesDispatched(Init(n), acts, s);
    DispatchedIdAt(s.dispatched, k);
    AtomicRegistration(n, acts, s);
    assert EntryOk(s.calls, s.dispatched[k]);
    assert (DispatchedIds(s.dispatched) + IdInHand(s))[k] == s.dispatched[k].id;
  }

  /** The registrations that thread t has completed, in order. */
  function CompletedBy(calls: seq<Call>, callers: seq<nat>, t: nat): seq<Call>
    requires |calls| == |callers|
  {
    if calls == [] then []
    else
      var n := |calls| - 1;
      CompletedBy(calls[..n], callers[..n], t) + (if callers[n] == t then [calls[n]] else [])
  }

  function HeldCall(pc: Pc): seq<Call>
  {
    if pc.RExchange? || pc.RSpin? || pc.RLoop? || pc.RUnlock? then [pc.call] else []
  }

  function InProgress(s: State, t: nat): seq<Call>
  {
    if t < |s.threads| then HeldCall(s.threads[t]) else []
  }

  /** The registrations a run has thread t make, in order. */
  function RegisteredBy(acts: seq<Action>, t: nat): seq<Call>
  {
    if acts == [] then []
    else (if acts[0].Register? && acts[0].t == t then [acts[0].call] else []) + RegisteredBy(acts[1..], t)
  }

  lemma UnlockCompletes(s: State, t: nat, who: nat)
    requires Roles(s) && Enabled(s, Step(who)) && s.threads[who].RUnlock?
    ensures var u := Next(s, Step(who));
      && |u.calls| == |u.callers| && u.leaked == s.leaked
      && CompletedBy(u.calls, u.callers, t)
         == CompletedBy(s.calls, s.callers, t) + (if t == who then InProgress(s, t) else [])
      && InProgress(u, t) == (if t == who then [] else InProgress(s, t))
  {
    var u := Next(s, Step(who));
    assert u.calls[..|u.calls| - 1] == s.calls && u.callers[..|u.callers| - 1] == s.callers;
  }

  lemma OthersCompleteNothing(s: State, a: Action, t: nat)
    requires Roles(s) && Enabled(s, a) && !Next(s, a).leaked && !(a.Step? && s.threads[a.t].RUnlock?)
    ensures Next(s, a).calls == s.calls && Next(s, a).callers == s.callers && !s.leaked
    ensures InProgress(Next(s, a), t) == InProgress(s, t) + (if a.Register? && a.t == t then [a.call] else [])
  {
  }

  lemma StepCompletes(s: State, a: Action, t: nat)
    requires Roles(s) && Enabled(s, a) && !Next(s, a).leaked && Roles(Next(s, a))
    ensures !s.leaked
    ensures CompletedBy(Next(s, a).calls, Next(s, a).callers, t) + InProgress(Next(s, a), t)
         == CompletedBy(s.calls, s.callers, t) + InProgress(s, t) + (if a.Register? && a.t == t then [a.call] else [])
  {
    if a.Step? && s.threads[a.t].RUnlock? {
      UnlockCompletes(s, t, a.t);
    } else {
      OthersCompleteNothing(s, a, t);
    }
  }

  lemma {:induction false} LeakStays(s: State, acts: seq<Action>, s': State)
    requires Run(s, acts, s') && s.leaked
    ensures s'.leaked
    decreases |acts|
  {
    if acts != [] {
      LeakStays(Next(s, acts[0]), acts[1..], s');
    }
  }

  /**
    As long as none has failed, each thread's registrations complete in the order it makes them, once each, unchanged.
   */
  lemma {:induction false} RegistrationsComplete(s: State, acts: seq<Action>, s': State, t: nat)
    requires Roles(s) && Run(s, acts, s') && !s'.leaked
    ensures Roles(s')
    ensures CompletedBy(s'.calls, s'.callers, t) + InProgress(s', t)
         == CompletedBy(s.calls, s.callers, t) + InProgress(s, t) + RegisteredBy(acts, t)
    decreases |acts|
  {
    if acts != [] {
      var u := Next(s, acts[0]);
      StepKeepsRoles(s, acts[0]);
      if u.leaked { LeakStays(u, acts[1..], s'); }
      StepCompletes(s, acts[0], t);
      RegistrationsComplete(u, acts[1..], s', t);
      var x := if acts[0].Register? && acts[0].t == t then [acts[0].call] else [];
      Regroup(CompletedBy(s.calls, s.callers, t), InProgress(s, t), x, RegisteredBy(acts[1..], t));
    }
  }

  /** The k-th registration names the id, and none after it does. */
  ghost predicate LastWriter(calls: seq<Call>, id: nat, k: nat)
  {
    k < |calls| && id in calls[k].ids && forall j :: k < j < |calls| ==> id !in calls[j].ids
  }

  /** What the table of some registrations has for an id: the callback of the last of them that names it, or none. */
  lemma {:induction false} LastRegistrationWins(calls: seq<Call>, id: nat)
    ensures (exists k :: 0 <= k < |calls| && id in calls[k].ids) <==> Lookup(TableOf(calls), id).Some?
    ensures forall k: nat :: LastWriter(calls, id, k) ==> Lookup(TableOf(calls), id) == Some(calls[k].f)
  {
    if calls != [] {
      var n := |calls| - 1;
      LastRegistrationWins(calls[..n], id);
      if id !in calls[n].ids {
        forall k: nat | LastWriter(calls, id, k) ensures Lookup(TableOf(calls), id) == Some(calls[k].f) {
          assert LastWriter(calls[..n], id, k);
        }
      }
      assert forall k :: 0 <= k < n ==> calls[..n][k] == calls[k];
    }
  }

  // ---------------------------------------------------------------- the error return keeps the lock

  /** Once a registration has returned its error, nobody completes a registration or a dispatch any more. */
  lemma {:induction false} LeakedForever(s: State, acts: seq<Action>, s': State)
    requires LockOk(s) && s.leaked && Run(s, acts, s')
    ensures s'.leaked && s'.calls == s.calls && s'.dispatched == s.dispatched && s'.table == s.table
    decreases |acts|
  {
    if acts != [] {
      StepKeepsLock(s, acts[0]);
      LeakedForever(Next(s, acts[0]), acts[1..], s');
    }
  }

  /** The lock is kept by a failed registration, or is with one that has an id out of range still to come. */
  predicate Doomed(s: State)
  {
    s.leaked || (s.holder.Some? && s.holder.value < |s.threads| && WillFail(s.threads[s.holder.value]))
  }

  predicate WillFail(pc: Pc)
  {
    pc.RLoop? && exists j :: pc.done <= j < |pc.call.ids| && pc.call.ids[j] >= MAX_ID
  }

  lemma DoomedStep(s: State, a: Action)
    requires LockOk(s) && Doomed(s) && Enabled(s, a)
    ensures Doomed(Next(s, a)) && Next(s, a).calls == s.calls && Next(s, a).dispatched == s.dispatched
  {
    if s.holder.Some? && a == Step(s.holder.value) {
      var pc := s.threads[s.holder.value];
      var j :| pc.done <= j < |pc.call.ids| && pc.call.ids[j] >= MAX_ID;
      assert pc.call.ids[pc.done] < MAX_ID ==> pc.done + 1 <= j;
    }
  }

  /** So nobody completes a registration or a dispatch from the moment on at which such a registration has the lock. */
  lemma {:induction false} DoomedForever(s: State, acts: seq<Action>, s': State)
    requires LockOk(s) && Doomed(s) && Run(s, acts, s')
    ensures Doomed(s') && s'.calls == s.calls && s'.dispatched == s.dispatched
    decreases |acts|
  {
    if acts != [] {
      StepKeepsLock(s, acts[0]);
      DoomedStep(s, acts[0]);
      DoomedForever(Next(s, acts[0]), acts[1..], s');
    }
  }

  /** A registration that runs alone from the start of its loop. */
  function RunLoop(s: State, t: nat): (r: State)
    requires t < |s.threads| && s.threads[t].RLoop? && s.threads[t].done <= |s.threads[t].call.ids|
    ensures |r.threads| == |s.threads|
    decreases |s.threads[t].call.ids| - s.threads[t].done
  {
    var c, k := s.threads[t].call, s.threads[t].done;
    if k < |c.ids| && c.ids[k] < MAX_ID then RunLoop(Next(s, Step(t)), t) else Next(s, Step(t))
  }

  /** The loop of a registration gives the lock back exactly when every id is below 2048. */
  lemma {:induction false} LoopReleasesIffInRange(s: State, t: nat)
    requires t < |s.threads| && s.threads[t].RLoop? && s.threads[t].done <= |s.threads[t].call.ids| && !s.leaked
    requires AllInRange(s.threads[t].call.ids[..s.threads[t].done])
    ensures RunLoop(s, t).threads[t].RUnlock? <==> forall id :: id in s.threads[t].call.ids ==> id < 2048
    ensures RunLoop(s, t).leaked <==> !AllInRange(s.threads[t].call.ids)
    decreases |s.threads[t].call.ids| - s.threads[t].done
  {
    var c, k := s.threads[t].call, s.threads[t].done;
    if k < |c.ids| && c.ids[k] < MAX_ID {
      WriteNext(s.table, c.ids, k, c.f);
      LoopReleasesIffInRange(Next(s, Step(t)), t);
    } else if k < |c.ids| {
      assert c.ids[k] in c.ids;
    } else {
      assert c.ids[..k] == c.ids;
    }
  }

  // ---------------------------------------------------------------- the class

  /** `Util::SpinLock`, as the thread that calls it sees it. */
  class SpinLock {
    var locked: bool

    constructor ()
      ensures !locked
    {
      locked := false;
    }

    /** `lock()` returns only once it has seen the flag clear; a caller that finds it set spins until it is. */
    method Lock()
      requires !locked
      modifies this
      ensures locked
    {
      locked := true;
    }

    /** `try_lock()`: a load, and an exchange only if that saw the flag clear; in between anyone may have changed it. */
    method TryLock(loaded: bool) returns (ok: bool)
      modifies this
      ensures ok <==> !loaded && !old(locked)
      ensures locked <==> old(locked) || !loaded
    {
      ok := false;
      if !loaded {
        ok := !locked;
        locked := true;
      }
    }

    method Unlock()
      modifies this
      ensures !locked
    {
      locked := false;
    }
  }

  /** The callback table of a `Dispatcher`. */
  class Callbacks {
    const funcs: array<Option<Func>>
    const lock_: SpinLock

    constructor ()
      ensures fresh(funcs) && fresh(lock_) && Valid() && !lock_.locked && Entries() == map[]
    {
      funcs := new Option<Func>[MAX_ID](_ => None);
      lock_ := new SpinLock();
    }

    ghost predicate Valid() reads this { funcs.Length == MAX_ID }

    ghost function Entries(): Table
      reads this, funcs
      requires Valid()
    {
      map n: nat | 0 <= n < MAX_ID && funcs[n].Some? :: funcs[n].value
    }

    /** `funcs[id] = f` */
    method Store(id: nat, f: Func)
      requires Valid() && id < MAX_ID
      modifies funcs
      ensures Entries() == old(Entries())[id := f]
    {
      funcs[id] := Some(f);
    }

    /**
      `register_func`: writes the ids below the first one out of range, and gives the lock back exactly when there
      is none out of range.
     */
    method RegisterFunc(ids: seq<nat>, f: Func) returns (ok: bool)
      requires Valid() && Ascending(ids) && !lock_.locked
      modifies funcs, lock_
      ensures ok <==> AllInRange(ids)
      ensures lock_.locked <==> !ok
      ensures ok ==> Entries() == Write(old(Entries()), ids, f)
      ensures !ok ==>
        exists k ::
          && 0 <= k < |ids| && ids[k] >= MAX_ID && AllInRange(ids[..k])
          && Entries() == Write(old(Entries()), ids[..k], f)
    {
      lock_.Lock();
      for k := 0 to |ids|
        invariant AllInRange(ids[..k]) && lock_.locked
        invariant Entries() == Write(old(Entries()), ids[..k], f)
      {
        if ids[k] >= MAX_ID {
          assert ids[k] in ids;
          return false;
        }
        Store(ids[k], f);
        WriteNext(old(Entries()), ids, k, f);
      }
      assert ids[..|ids|] == ids;
      lock_.Unlock();
      return true;
    }

    /** Dispatcher.cpp:173-177: the callback to invoke for a frame, read under the lock. */
    method Dispatch(id: nat) returns (seen: Option<Func>)
      requires Valid() && id < MAX_ID && !lock_.locked
      modifies lock_
      ensures seen == Lookup(Entries(), id) && !lock_.locked
    {
      lock_.Lock();
      seen := funcs[id];
      lock_.Unlock();
    }
  }
}
