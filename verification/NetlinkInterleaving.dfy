/**
  Any number of workers inside `process_request` at once, one library call at a time, under the recursive
  mutex of `NetlinkManager` (NetlinkManager.cpp:67-282, VCAN.cpp). Each step takes or releases the mutex, makes one
  library call, or puts references back.
*/
module NetlinkInterleaving {
  import opened Base
  import opened Message
  import opened Netlink

  /**
    Where a worker is inside one request. `last` tells the final state change from the one that takes the link down.
   */
  datatype Stage =
    | Enter | Begin
    | CkLock | CkRefill | CkLookup | CkPut(isUp: bool) | CkUnlock(resp: Response)
    | StLock(last: bool) | StRefill(last: bool) | StLookup(last: bool) | StCompare(last: bool)
    | StAlloc(last: bool) | StChange(last: bool) | StPut(last: bool, code: int) | StRefresh(last: bool)
    | StUnlock(last: bool, resp: Response)
    | BrLock | BrName | BrLookup | BrAlloc(kind: Kind) | BrKind(kind: Kind) | BrType | BrChange | BrPut(code: int)
    | BrUnlock(resp: Response)
    | VProbe | VSock | VConnect | VAlloc | VAdd | VPut(code: int)
    | Leave(resp: Response)

  /** What one worker's steps read and write: the shared state and its own stage. */
  datatype Local = Local(stage: Stage, world: World, refs: int, depth: nat)

  datatype Thread = Idle | Busy(stage: Stage, req: Request, faults: Faults)

  datatype Served = Served(who: nat, req: Request, faults: Faults, resp: Response)

  /** `log` lists the requests in the order in which they released the mutex for the last time. */
  datatype State = State(world: World, owner: Option<nat>, depth: nat, refs: int, threads: seq<Thread>,
                         log: seq<Served>)

  // ---------------------------------------------------------------- one step of the lock holder

  function StateFaultsOf(last: bool, f: Faults): StateFaults { if last then f.last else f.down }

  function Target(last: bool, req: Request): bool { last && req.up }

  /** process_request's switch */
  function BeginTo(req: Request): Stage
  {
    match req.op
    case INTERFACE_EXISTS => CkLock
    case INTERFACE_IS_UP => CkLock
    case CREATE_VCAN_INTERFACE => VProbe
    case SET_INTERFACE_STATE => if req.up && req.setBitrate then CkLock else StLock(true)
    case _ => Leave(Reply(-1, UnknownOp))
  }

  function CkTick(l: Local, req: Request, f: Faults): Local
    requires l.stage.CkLock? || l.stage.CkRefill? || l.stage.CkLookup? || l.stage.CkPut? || l.stage.CkUnlock?
  {
    match l.stage
    case CkLock => l.(stage := CkRefill, depth := l.depth + 1)
    case CkRefill =>
      l.(world := RefillCache(l.world, f.check),
         stage := if f.check == Refilled then CkLookup else CkUnlock(Reply(-1, RefillFailed)))
    case CkLookup =>
      if req.name in l.world.cache then
        l.(refs := l.refs + 1, stage := CkPut(req.op != INTERFACE_EXISTS && l.world.cache[req.name].up))
      else l.(stage := CkUnlock(Response(0, false, false, Query)))
    case CkPut(isUp) => l.(refs := l.refs - 1, stage := CkUnlock(Response(0, true, isUp, Query)))
    case CkUnlock(r) =>
      l.(depth := if l.depth == 0 then 0 else l.depth - 1,
         stage := if req.op != SET_INTERFACE_STATE || r.result != 0 then Leave(r)
                  else if r.isUp then StLock(false) else BrLock)
  }

  function StTick(l: Local, req: Request, f: Faults): Local
    requires l.stage.StLock? || l.stage.StRefill? || l.stage.StLookup? || l.stage.StCompare? || l.stage.StAlloc?
          || l.stage.StChange? || l.stage.StPut? || l.stage.StRefresh? || l.stage.StUnlock?
  {
    match l.stage
    case StLock(last) => l.(stage := StRefill(last), depth := l.depth + 1)
    case StRefill(last) =>
      var r := StateFaultsOf(last, f).refill;
      l.(world := RefillCache(l.world, r),
         stage := if r == Refilled then StLookup(last) else StUnlock(last, Reply(-1, RefillFailed)))
    case StLookup(last) =>
      if req.name in l.world.cache then l.(refs := l.refs + 1, stage := StCompare(last))
      else l.(stage := StUnlock(last, Reply(-1, NotFound)))
    case StCompare(last) =>
      if req.name in l.world.cache && l.world.cache[req.name].up == Target(last, req) then
        l.(refs := l.refs - 1, stage := StUnlock(last, Reply(0, Already)))
      else l.(stage := StAlloc(last))
    case StAlloc(last) =>
      if StateFaultsOf(last, f).alloc then l.(refs := l.refs + 1, stage := StChange(last))
      else l.(refs := l.refs - 1, stage := StUnlock(last, Reply(-1, AllocFailed)))
    case StChange(last) =>
      var (w, code) := ChangeFlag(l.world, req.name, Target(last, req), StateFaultsOf(last, f).change);
      l.(world := w, stage := StPut(last, code))
    case StPut(last, code) =>
      l.(refs := l.refs - 2, stage := if code < 0 then StUnlock(last, Reply(code, ChangeFailed)) else StRefresh(last))
    case StRefresh(last) =>
      l.(world := RefillCache(l.world, StateFaultsOf(last, f).refresh), stage := StUnlock(last, Reply(0, Changed)))
    case StUnlock(last, r) =>
      l.(depth := if l.depth == 0 then 0 else l.depth - 1,
         stage := if last then Leave(r) else if r.result != 0 then Leave(Reply(r.result, DownFailed)) else BrLock)
  }

  function BrTick(l: Local, req: Request, f: Faults): Local
    requires l.stage.BrLock? || l.stage.BrName? || l.stage.BrLookup? || l.stage.BrAlloc? || l.stage.BrKind?
          || l.stage.BrType? || l.stage.BrChange? || l.stage.BrPut? || l.stage.BrUnlock?
  {
    match l.stage
    case BrLock => l.(stage := BrName, depth := l.depth + 1)
    case BrName => l.(stage := if StartsWithCan(req.name) then BrLookup else BrUnlock(Reply(0, NotCanName)))
    case BrLookup =>
      if req.name in l.world.cache then l.(refs := l.refs + 1, stage := BrAlloc(l.world.cache[req.name].kind))
      else l.(stage := BrUnlock(Reply(-1, RateNotFound)))
    case BrAlloc(kind) =>
      if f.rate.alloc then l.(refs := l.refs + 1, stage := BrKind(kind))
      else l.(refs := l.refs - 1, stage := BrUnlock(Reply(-1, RateAllocFailed)))
    case BrKind(kind) =>
      if kind == Can then l.(stage := BrType) else l.(refs := l.refs - 2, stage := BrUnlock(Reply(-1, NotCanLink)))
    case BrType =>
      if f.rate.setType then l.(stage := BrChange)
      else l.(refs := l.refs - 2, stage := BrUnlock(Reply(-1, RateTypeFailed)))
    case BrChange =>
      var (w, code) := ChangeRate(l.world, req.name, req.bitrate, f.rate.change);
      l.(world := w, stage := BrPut(code))
    case BrPut(code) => l.(refs := l.refs - 2, stage := BrUnlock(RateResponse(code)))
    case BrUnlock(r) =>
      l.(depth := if l.depth == 0 then 0 else l.depth - 1, stage := if r.result != 0 then Leave(r) else StLock(true))
  }

  function VTick(l: Local, req: Request, f: Faults): Local
    requires l.stage.VProbe? || l.stage.VSock? || l.stage.VConnect? || l.stage.VAlloc? || l.stage.VAdd? || l.stage.VPut?
  {
    var failed := Leave(Reply(-1, VcanFailed));
    match l.stage
    case VProbe =>
      l.(stage := if !f.vcan.probe then failed
                  else if req.name in l.world.links then Leave(Reply(0, VcanMade)) else VSock)
    case VSock => l.(stage := if f.vcan.sock then VConnect else failed)
    case VConnect => l.(stage := if f.vcan.connect then VAlloc else failed)
    case VAlloc => if f.vcan.alloc then l.(refs := l.refs + 1, stage := VAdd) else l.(stage := failed)
    case VAdd =>
      var (w, code) := AddVcan(l.world, req.name, f.vcan.add);
      l.(world := w, stage := VPut(code))
    case VPut(code) => l.(refs := l.refs - 1, stage := Leave(VcanResponse(code)))
  }

  function Tick(l: Local, req: Request, f: Faults): Local
    requires !l.stage.Enter? && !l.stage.Leave?
  {
    var st := l.stage;
    if st.Begin? then l.(stage := BeginTo(req))
    else if st.CkLock? || st.CkRefill? || st.CkLookup? || st.CkPut? || st.CkUnlock? then CkTick(l, req, f)
    else if st.BrLock? || st.BrName? || st.BrLookup? || st.BrAlloc? || st.BrKind?
         || st.BrType? || st.BrChange? || st.BrPut?
         || st.BrUnlock? then BrTick(l, req, f)
    else if st.VProbe? || st.VSock? || st.VConnect? || st.VAlloc? || st.VAdd? || st.VPut? then VTick(l, req, f)
    else StTick(l, req, f)
  }

  // ---------------------------------------------------------------- all workers

  datatype Action = Submit(t: nat, req: Request, faults: Faults) | Step(t: nat)

  predicate Enabled(s: State, a: Action)
  {
    a.t < |s.threads| &&
    match a
    case Submit(t, _, _) => s.threads[t].Idle?
    case Step(t) =>
      s.threads[t].Busy? && (Locking(s.threads[t].stage) ==> s.owner == None || s.owner == Some(t))
  }

  /** The stage's step takes the recursive mutex: it waits while another thread owns it. Other steps never wait. */
  predicate Locking(st: Stage)
  {
    st.Enter? || st.CkLock? || st.StLock? || st.BrLock?
  }

  /** The owner after thread t made a step that left the mutex at a given depth. */
  function OwnerAfter(s: State, t: nat, st: Stage, depth: nat): Option<nat>
  {
    if depth == 0 then None else if Locking(st) then Some(t) else s.owner
  }

  function Next(s: State, a: Action): State
    requires Enabled(s, a)
  {
    match a
    case Submit(t, req, f) => s.(threads := s.threads[t := Busy(Enter, req, f)])
    case Step(t) =>
      var th := s.threads[t];
      if th.stage.Enter? then
        s.(owner := Some(t), depth := s.depth + 1, threads := s.threads[t := th.(stage := Begin)])
      else if th.stage.Leave? then
        var d := if s.depth == 0 then 0 else s.depth - 1;
        s.(owner := OwnerAfter(s, t, th.stage, d), depth := d, threads := s.threads[t := Idle],
           log := s.log + [Served(t, th.req, th.faults, th.stage.resp)])
      else
        var l := Tick(Local(th.stage, s.world, s.refs, s.depth), th.req, th.faults);
        s.(world := l.world, refs := l.refs, depth := l.depth, owner := OwnerAfter(s, t, th.stage, l.depth),
           threads := s.threads[t := th.(stage := l.stage)])
  }

  function Init(w: World, n: nat): State
  {
    State(w, None, 0, 0, seq(n, _ => Idle), [])
  }

  ghost predicate Run(s: State, acts: seq<Action>, s': State)
    decreases |acts|
  {
    if acts == [] then s == s' else Enabled(s, acts[0]) && Run(Next(s, acts[0]), acts[1..], s')
  }

  // ---------------------------------------------------------------- the sequential reference

  /** The world after whole requests, one at a time. */
  function Replay(w: World, log: seq<Served>): World
  {
    if log == [] then w
    else var x := log[|log| - 1]; Serve(Replay(w, log[..|log| - 1]), x.req, x.faults).0
  }

  /** Every response is the one the request would get if the requests before it had run alone. */
  ghost predicate ResponsesAgree(w: World, log: seq<Served>)
  {
    forall i :: 0 <= i < |log| ==> log[i].resp == Serve(Replay(w, log[..i]), log[i].req, log[i].faults).1
  }

  // ---------------------------------------------------------------- what is left to do at each stage

  function AfterState(w: World, last: bool, r: Response, req: Request, f: Faults): (World, Response)
  {
    if last then (w, r) else if r.result != 0 then (w, Reply(r.result, DownFailed)) else RateThenState(w, req, f)
  }

  function AfterRate(w: World, r: Response, req: Request, f: Faults): (World, Response)
  {
    if r.result != 0 then (w, r) else ApplyState(w, req.name, req.up, f.last)
  }

  function AfterCheck(w: World, r: Response, req: Request, f: Faults): (World, Response)
  {
    if req.op != SET_INTERFACE_STATE || r.result != 0 then (w, r) else DownThenRate(w, r.isUp, req, f)
  }

  function CkFinish(st: Stage, w: World, req: Request, f: Faults): (World, Response)
    requires st.CkLock? || st.CkRefill? || st.CkLookup? || st.CkPut? || st.CkUnlock?
  {
    match st
    case CkLookup =>
      if req.name in w.cache then
        AfterCheck(w, Response(0, true, req.op != INTERFACE_EXISTS && w.cache[req.name].up, Query), req, f)
      else AfterCheck(w, Response(0, false, false, Query), req, f)
    case CkPut(isUp) => AfterCheck(w, Response(0, true, isUp, Query), req, f)
    case CkUnlock(r) => AfterCheck(w, r, req, f)
    case _ => var (w1, r) := Check(w, req.name, req.op != INTERFACE_EXISTS, f.check); AfterCheck(w1, r, req, f)
  }

  function StFinish(st: Stage, w: World, req: Request, f: Faults): (World, Response)
    requires st.StLock? || st.StRefill? || st.StLookup? || st.StCompare? || st.StAlloc?
          || st.StChange? || st.StPut? || st.StRefresh? || st.StUnlock?
  {
    var last := st.last;
    var sf := StateFaultsOf(last, f);
    var up := Target(last, req);
    var (w1, r) :=
      match st
      case StLookup(_) => StateLookup(w, req.name, up, sf)
      case StCompare(_) => StateLookup(w, req.name, up, sf)
      case StAlloc(_) => if sf.alloc then StateChange(w, req.name, up, sf) else (w, Reply(-1, AllocFailed))
      case StChange(_) => StateChange(w, req.name, up, sf)
      case StPut(_, code) => StateRefresh(w, code, sf)
      case StRefresh(_) => (RefillCache(w, sf.refresh), Reply(0, Changed))
      case StUnlock(_, r) => (w, r)
      case _ => ApplyState(w, req.name, up, sf);
    AfterState(w1, last, r, req, f)
  }

  function BrFinish(st: Stage, w: World, req: Request, f: Faults): (World, Response)
    requires st.BrLock? || st.BrName? || st.BrLookup? || st.BrAlloc? || st.BrKind? || st.BrType?
          || st.BrChange? || st.BrPut? || st.BrUnlock?
  {
    var (w1, r) :=
      match st
      case BrLookup =>
        if req.name !in w.cache then (w, Reply(-1, RateNotFound))
        else RateAlloc(w, req.name, w.cache[req.name].kind, req.bitrate, f.rate)
      case BrAlloc(kind) => RateAlloc(w, req.name, kind, req.bitrate, f.rate)
      case BrKind(kind) => RateAlloc(w, req.name, kind, req.bitrate, f.rate.(alloc := true))
      case BrType =>
        if f.rate.setType then RateChange(w, req.name, req.bitrate, f.rate) else (w, Reply(-1, RateTypeFailed))
      case BrChange => RateChange(w, req.name, req.bitrate, f.rate)
      case BrPut(code) => (w, RateResponse(code))
      case BrUnlock(r) => (w, r)
      case _ => ApplyRate(w, req.name, req.bitrate, f.rate);
    AfterRate(w1, r, req, f)
  }

  function VFinish(st: Stage, w: World, req: Request, f: Faults): (World, Response)
    requires st.VProbe? || st.VSock? || st.VConnect? || st.VAlloc? || st.VAdd? || st.VPut?
  {
    var v := f.vcan;
    var failed := (w, Reply(-1, VcanFailed));
    match st
    case VProbe => MakeVcan(w, req.name, v)
    case VSock => if v.sock && v.connect && v.alloc then VAddFinish(w, req, v) else failed
    case VConnect => if v.connect && v.alloc then VAddFinish(w, req, v) else failed
    case VAlloc => if v.alloc then VAddFinish(w, req, v) else failed
    case VAdd => VAddFinish(w, req, v)
    case VPut(code) => (w, VcanResponse(code))
  }

  function VAddFinish(w: World, req: Request, v: VcanFaults): (World, Response)
  {
    var (w1, code) := AddVcan(w, req.name, v.add); (w1, VcanResponse(code))
  }

  /** What the request still does to the world, and its response, when the holder runs on alone from a stage. */
  function Finish(st: Stage, w: World, req: Request, f: Faults): (World, Response)
    requires !st.Enter?
  {
    if st.Begin? then Serve(w, req, f)
    else if st.Leave? then (w, st.resp)
    else if st.CkLock? || st.CkRefill? || st.CkLookup? || st.CkPut? || st.CkUnlock? then CkFinish(st, w, req, f)
    else if st.BrLock? || st.BrName? || st.BrLookup? || st.BrAlloc? || st.BrKind?
         || st.BrType? || st.BrChange? || st.BrPut?
         || st.BrUnlock? then BrFinish(st, w, req, f)
    else if st.VProbe? || st.VSock? || st.VConnect? || st.VAlloc? || st.VAdd? || st.VPut? then VFinish(st, w, req, f)
    else StFinish(st, w, req, f)
  }

  /** Mutex depth at each stage: 1 in process_request, 2 inside a nested call. */
  function DepthAt(st: Stage): nat
  {
    if st.Enter? then 0
    else if st.Begin? || st.Leave? || st.CkLock? || st.StLock? || st.BrLock? || st.VProbe? || st.VSock? || st.VConnect?
         || st.VAlloc? || st.VAdd? || st.VPut? then 1
    else 2
  }

  /** Link references held at each stage. */
  function RefsAt(st: Stage): int
  {
    match st
    case CkPut(_) => 1
    case StCompare(_) => 1
    case StAlloc(_) => 1
    case StChange(_) => 2
    case StPut(_, _) => 2
    case BrAlloc(_) => 1
    case BrKind(_) => 2
    case BrType => 2
    case BrChange => 2
    case BrPut(_) => 2
    case VAdd => 1
    case VPut(_) => 1
    case _ => 0
  }

  /** The stage is one this request can be in: the callers of the nested operations. */
  predicate Fits(st: Stage, w: World, req: Request)
  {
    && (st.CkLock? || st.CkRefill? || st.CkLookup? || st.CkPut? || st.CkUnlock? ==>
          || req.op == INTERFACE_EXISTS || req.op == INTERFACE_IS_UP
          || (req.op == SET_INTERFACE_STATE && req.up && req.setBitrate))
    && (st.StCompare? ==> req.name in w.cache)
    && (st.StAlloc? || st.StChange? ==> req.name in w.cache && w.cache[req.name].up != Target(st.last, req))
  }

  lemma CkTickFinish(l: Local, req: Request, f: Faults)
    requires l.stage.CkLock? || l.stage.CkRefill? || l.stage.CkLookup? || l.stage.CkPut? || l.stage.CkUnlock?
    requires Fits(l.stage, l.world, req) && l.depth == DepthAt(l.stage) && l.refs == RefsAt(l.stage)
    ensures var m := CkTick(l, req, f);
      && !m.stage.Enter? && Finish(m.stage, m.world, req, f) == CkFinish(l.stage, l.world, req, f)
      && m.depth == DepthAt(m.stage) && m.refs == RefsAt(m.stage) && Fits(m.stage, m.world, req)
  {
  }

  lemma StChangeFinish(l: Local, req: Request, f: Faults)
    requires l.stage.StAlloc? || l.stage.StChange?
    requires Fits(l.stage, l.world, req) && l.depth == DepthAt(l.stage) && l.refs == RefsAt(l.stage)
    ensures var m := StTick(l, req, f);
      && !m.stage.Enter? && Finish(m.stage, m.world, req, f) == StFinish(l.stage, l.world, req, f)
      && m.depth == DepthAt(m.stage) && m.refs == RefsAt(m.stage) && Fits(m.stage, m.world, req)
  {
  }

  lemma StReturnFinish(l: Local, req: Request, f: Faults)
    requires l.stage.StPut? || l.stage.StRefresh? || l.stage.StUnlock?
    requires Fits(l.stage, l.world, req) && l.depth == DepthAt(l.stage) && l.refs == RefsAt(l.stage)
    ensures var m := StTick(l, req, f);
      && !m.stage.Enter? && Finish(m.stage, m.world, req, f) == StFinish(l.stage, l.world, req, f)
      && m.depth == DepthAt(m.stage) && m.refs == RefsAt(m.stage) && Fits(m.stage, m.world, req)
  {
  }

  lemma StLookupFinish(l: Local, req: Request, f: Faults)
    requires l.stage.StLock? || l.stage.StRefill? || l.stage.StLookup? || l.stage.StCompare?
    requires Fits(l.stage, l.world, req) && l.depth == DepthAt(l.stage) && l.refs == RefsAt(l.stage)
    ensures var m := StTick(l, req, f);
      && !m.stage.Enter? && Finish(m.stage, m.world, req, f) == StFinish(l.stage, l.world, req, f)
      && m.depth == DepthAt(m.stage) && m.refs == RefsAt(m.stage) && Fits(m.stage, m.world, req)
  {
  }

  lemma BrLookupFinish(l: Local, req: Request, f: Faults)
    requires l.stage.BrLock? || l.stage.BrName? || l.stage.BrLookup? || l.stage.BrAlloc?
    requires Fits(l.stage, l.world, req) && l.depth == DepthAt(l.stage) && l.refs == RefsAt(l.stage)
    ensures var m := BrTick(l, req, f);
      && !m.stage.Enter? && Finish(m.stage, m.world, req, f) == BrFinish(l.stage, l.world, req, f)
      && m.depth == DepthAt(m.stage) && m.refs == RefsAt(m.stage) && Fits(m.stage, m.world, req)
  {
  }

  lemma BrChangeFinish(l: Local, req: Request, f: Faults)
    requires l.stage.BrKind? || l.stage.BrType? || l.stage.BrChange? || l.stage.BrPut? || l.stage.BrUnlock?
    requires Fits(l.stage, l.world, req) && l.depth == DepthAt(l.stage) && l.refs == RefsAt(l.stage)
    ensures var m := BrTick(l, req, f);
      && !m.stage.Enter? && Finish(m.stage, m.world, req, f) == BrFinish(l.stage, l.world, req, f)
      && m.depth == DepthAt(m.stage) && m.refs == RefsAt(m.stage) && Fits(m.stage, m.world, req)
  {
  }

  lemma VTickFinish(l: Local, req: Request, f: Faults)
    requires l.stage.VProbe? || l.stage.VSock? || l.stage.VConnect? || l.stage.VAlloc? || l.stage.VAdd? || l.stage.VPut?
    requires l.depth == DepthAt(l.stage) && l.refs == RefsAt(l.stage)
    ensures var m := VTick(l, req, f);
      && !m.stage.Enter? && Finish(m.stage, m.world, req, f) == VFinish(l.stage, l.world, req, f)
      && m.depth == DepthAt(m.stage) && m.refs == RefsAt(m.stage) && Fits(m.stage, m.world, req)
  {
  }

  /** A step of the lock holder does not change how its request will end. */
  lemma TickFinish(l: Local, req: Request, f: Faults)
    requires !l.stage.Enter? && !l.stage.Leave?
    requires Fits(l.stage, l.world, req) && l.depth == DepthAt(l.stage) && l.refs == RefsAt(l.stage)
    ensures var m := Tick(l, req, f);
      && !m.stage.Enter? && Finish(m.stage, m.world, req, f) == Finish(l.stage, l.world, req, f)
      && m.depth == DepthAt(m.stage) && m.refs == RefsAt(m.stage) && Fits(m.stage, m.world, req)
  {
    var st := l.stage;
    if st.Begin? {
      BeginFinish(l, req, f);
    } else if st.CkLock? || st.CkRefill? || st.CkLookup? || st.CkPut? || st.CkUnlock? {
      CkTickFinish(l, req, f);
    } else if st.BrLock? || st.BrName? || st.BrLookup? || st.BrAlloc? || st.BrKind?
         || st.BrType? || st.BrChange? || st.BrPut?
           || st.BrUnlock? {
      if st.BrLock? || st.BrName? || st.BrLookup? || st.BrAlloc? {
        BrLookupFinish(l, req, f);
      } else {
        BrChangeFinish(l, req, f);
      }
    } else if st.VProbe? || st.VSock? || st.VConnect? || st.VAlloc? || st.VAdd? || st.VPut? {
      VTickFinish(l, req, f);
    } else {
      if st.StLock? || st.StRefill? || st.StLookup? || st.StCompare? {
        StLookupFinish(l, req, f);
      } else if st.StAlloc? || st.StChange? {
        StChangeFinish(l, req, f);
      } else {
        StReturnFinish(l, req, f);
      }
    }
  }

  lemma BeginFinish(l: Local, req: Request, f: Faults)
    requires l.stage.Begin? && l.depth == 1 && l.refs == 0
    ensures var st := BeginTo(req);
      && !st.Enter? && Finish(st, l.world, req, f) == Serve(l.world, req, f)
      && DepthAt(st) == 1 && RefsAt(st) == 0 && Fits(st, l.world, req)
  {
  }

  // ---------------------------------------------------------------- linearizability

  predicate Outside(th: Thread)
  {
    th.Idle? || th.stage.Enter?
  }

  /**
    The thread that owns the mutex is the only one inside, and running on alone it would end as if it had run alone.
   */
  ghost predicate HolderOk(s: State, w0: World, t: nat)
  {
    && t < |s.threads| && !Outside(s.threads[t])
    && var th := s.threads[t];
       && s.depth == DepthAt(th.stage) && s.refs == RefsAt(th.stage) && Fits(th.stage, s.world, th.req)
       && Finish(th.stage, s.world, th.req, th.faults) == Serve(Replay(w0, s.log), th.req, th.faults)
  }

  ghost predicate Inv(s: State, w0: World)
  {
    && ResponsesAgree(w0, s.log)
    && (forall i :: 0 <= i < |s.threads| && s.owner != Some(i) ==> Outside(s.threads[i]))
    && match s.owner
       case None => s.world == Replay(w0, s.log) && s.depth == 0 && s.refs == 0
       case Some(t) => HolderOk(s, w0, t)
  }

  lemma ReplayExtends(w0: World, log: seq<Served>, x: Served)
    requires ResponsesAgree(w0, log) && x.resp == Serve(Replay(w0, log), x.req, x.faults).1
    ensures ResponsesAgree(w0, log + [x])
    ensures Replay(w0, log + [x]) == Serve(Replay(w0, log), x.req, x.faults).0
  {
    var l := log + [x];
    assert l[..|l| - 1] == log;
    forall i | 0 <= i < |l| ensures l[i].resp == Serve(Replay(w0, l[..i]), l[i].req, l[i].faults).1 {
      assert l[..i] == if i < |log| then log[..i] else log;
    }
  }

  lemma EnterKeepsInv(s: State, w0: World, t: nat)
    requires Inv(s, w0) && Enabled(s, Step(t)) && s.threads[t].stage.Enter?
    ensures Inv(Next(s, Step(t)), w0)
  {
  }

  lemma LeaveKeepsInv(s: State, w0: World, t: nat)
    requires Inv(s, w0) && Enabled(s, Step(t)) && s.threads[t].stage.Leave?
    ensures Inv(Next(s, Step(t)), w0)
  {
    var th := s.threads[t];
    ReplayExtends(w0, s.log, Served(t, th.req, th.faults, th.stage.resp));
  }

  lemma TickKeepsInv(s: State, w0: World, t: nat)
    requires Inv(s, w0) && Enabled(s, Step(t)) && !s.threads[t].stage.Enter? && !s.threads[t].stage.Leave?
    ensures Inv(Next(s, Step(t)), w0)
  {
    var th := s.threads[t];
    assert s.owner == Some(t);
    var l := Local(th.stage, s.world, s.refs, s.depth);
    TickFinish(l, th.req, th.faults);
    DepthPositive(Tick(l, th.req, th.faults).stage);
    assert HolderOk(Next(s, Step(t)), w0, t);
  }

  lemma StepKeepsInv(s: State, w0: World, a: Action)
    requires Inv(s, w0) && Enabled(s, a)
    ensures Inv(Next(s, a), w0)
  {
    match a
    case Submit(t, req, f) => SubmitKeepsInv(s, w0, t, req, f);
    case Step(t) =>
      if s.threads[t].stage.Enter? { EnterKeepsInv(s, w0, t); }
      else if s.threads[t].stage.Leave? { LeaveKeepsInv(s, w0, t); }
      else { TickKeepsInv(s, w0, t); }
  }

  lemma SubmitKeepsInv(s: State, w0: World, t: nat, req: Request, f: Faults)
    requires Inv(s, w0) && Enabled(s, Submit(t, req, f))
    ensures Inv(Next(s, Submit(t, req, f)), w0)
  {
  }

  lemma DepthPositive(st: Stage)
    requires !st.Enter?
    ensures DepthAt(st) > 0
  {
  }

  lemma {:induction false} RunKeepsInv(s: State, w0: World, acts: seq<Action>, s': State)
    requires Inv(s, w0) && Run(s, acts, s')
    ensures Inv(s', w0)
    decreases |acts|
  {
    if acts != [] {
      StepKeepsInv(s, w0, acts[0]);
      RunKeepsInv(Next(s, acts[0]), w0, acts[1..], s');
    }
  }

  /**
    Linearizability. However n workers interleave, every response is the one its request gets when whole requests run
    one at a time in the order of the log, and whenever no request is in progress the links, the cache and the issued
    changes are those of that sequential run, with the mutex free and every link reference given back.
   */
  lemma Linearizable(w0: World, n: nat, acts: seq<Action>, s: State)
    requires Run(Init(w0, n), acts, s)
    ensures ResponsesAgree(w0, s.log)
    ensures s.owner == None ==> s.world == Replay(w0, s.log) && s.depth == 0 && s.refs == 0
    ensures (forall i :: 0 <= i < |s.threads| ==> Outside(s.threads[i])) ==> s.owner == None
    ensures forall i, j :: 0 <= i < j < |s.threads| ==> Outside(s.threads[i]) || Outside(s.threads[j])
  {
    assert Inv(Init(w0, n), w0);
    RunKeepsInv(Init(w0, n), w0, acts, s);
  }

  // ---------------------------------------------------------------- bitrates are changed on links that are down

  predicate DownIfThere(w: World, name: string)
  {
    name in w.links ==> !w.links[name].up
  }

  /** What the holder knows of the link it is about to give a bitrate, stage by stage. */
  ghost predicate RateReady(st: Stage, w: World, req: Request)
  {
    match st
    case CkLookup => w.cache == w.links
    case CkPut(isUp) => req.op == SET_INTERFACE_STATE && !isUp ==> DownIfThere(w, req.name)
    case CkUnlock(r) => req.op == SET_INTERFACE_STATE && r.result == 0 && !r.isUp ==> DownIfThere(w, req.name)
    case StLookup(_) => w.cache == w.links
    case StCompare(_) => w.cache == w.links
    case StAlloc(_) => w.cache == w.links
    case StChange(_) => true
    case StPut(last, code) => !last && code >= 0 ==> DownIfThere(w, req.name)
    case StRefresh(last) => !last ==> DownIfThere(w, req.name)
    case StUnlock(last, r) => !last && r.result == 0 ==> DownIfThere(w, req.name)
    case BrLock => DownIfThere(w, req.name)
    case BrName => DownIfThere(w, req.name)
    case BrLookup => DownIfThere(w, req.name)
    case BrAlloc(_) => DownIfThere(w, req.name)
    case BrKind(_) => DownIfThere(w, req.name)
    case BrType => DownIfThere(w, req.name)
    case BrChange => DownIfThere(w, req.name)
    case _ => true
  }

  lemma CkKeepsReady(l: Local, req: Request, f: Faults)
    requires l.stage.CkLock? || l.stage.CkRefill? || l.stage.CkLookup? || l.stage.CkPut? || l.stage.CkUnlock?
    requires RateReady(l.stage, l.world, req)
    ensures RateReady(CkTick(l, req, f).stage, CkTick(l, req, f).world, req)
  {
  }

  lemma StKeepsReady(l: Local, req: Request, f: Faults)
    requires l.stage.StLock? || l.stage.StRefill? || l.stage.StLookup? || l.stage.StCompare? || l.stage.StAlloc?
          || l.stage.StChange? || l.stage.StPut? || l.stage.StRefresh? || l.stage.StUnlock?
    requires RateReady(l.stage, l.world, req)
    ensures RateReady(StTick(l, req, f).stage, StTick(l, req, f).world, req)
  {
  }

  lemma BrKeepsReady(l: Local, req: Request, f: Faults)
    requires l.stage.BrLock? || l.stage.BrName? || l.stage.BrLookup? || l.stage.BrAlloc? || l.stage.BrKind?
          || l.stage.BrType? || l.stage.BrChange? || l.stage.BrPut? || l.stage.BrUnlock?
    requires RateReady(l.stage, l.world, req)
    ensures RateReady(BrTick(l, req, f).stage, BrTick(l, req, f).world, req)
  {
  }

  lemma TickKeepsReady(l: Local, req: Request, f: Faults)
    requires !l.stage.Enter? && !l.stage.Leave? && RateReady(l.stage, l.world, req)
    ensures RateReady(Tick(l, req, f).stage, Tick(l, req, f).world, req)
  {
    var st := l.stage;
    if st.CkLock? || st.CkRefill? || st.CkLookup? || st.CkPut? || st.CkUnlock? {
      CkKeepsReady(l, req, f);
    } else if st.BrLock? || st.BrName? || st.BrLookup? || st.BrAlloc? || st.BrKind? || st.BrType? || st.BrChange?
           || st.BrPut? || st.BrUnlock? {
      BrKeepsReady(l, req, f);
    } else if !st.Begin? && !st.VProbe? && !st.VSock? && !st.VConnect? && !st.VAlloc? && !st.VAdd? && !st.VPut? {
      StKeepsReady(l, req, f);
    }
  }

  /** The holder of the mutex is ready; the others are outside and know nothing. */
  ghost predicate AllReady(s: State)
  {
    forall i :: 0 <= i < |s.threads| && s.threads[i].Busy? ==> RateReady(s.threads[i].stage, s.world, s.threads[i].req)
  }

  lemma StepKeepsReady(s: State, w0: World, a: Action)
    requires Inv(s, w0) && AllReady(s) && Enabled(s, a)
    ensures AllReady(Next(s, a))
  {
    var u := Next(s, a);
    forall i | 0 <= i < |u.threads| && u.threads[i].Busy?
      ensures RateReady(u.threads[i].stage, u.world, u.threads[i].req)
    {
      if i == a.t {
        if a.Step? && !s.threads[i].stage.Enter? {
          var th := s.threads[i];
          TickKeepsReady(Local(th.stage, s.world, s.refs, s.depth), th.req, th.faults);
        }
      } else if a.Step? && !s.threads[a.t].stage.Enter? {
        assert s.owner == Some(a.t) && Outside(s.threads[i]);
      }
    }
  }

  lemma {:induction false} RunKeepsReady(s: State, w0: World, acts: seq<Action>, s': State)
    requires Inv(s, w0) && AllReady(s) && Run(s, acts, s')
    ensures AllReady(s')
    decreases |acts|
  {
    if acts != [] {
      StepKeepsInv(s, w0, acts[0]);
      StepKeepsReady(s, w0, acts[0]);
      RunKeepsReady(Next(s, acts[0]), w0, acts[1..], s');
    }
  }

  /**
    However the workers interleave, one that is about to issue a bitrate change finds the kernel's link down or gone.
   */
  lemma RateOnlyWhenDown(w0: World, n: nat, acts: seq<Action>, s: State, t: nat)
    requires Run(Init(w0, n), acts, s)
    requires t < |s.threads| && s.threads[t].Busy? && s.threads[t].stage.BrChange?
    ensures var name := s.threads[t].req.name; name in s.world.links ==> !s.world.links[name].up
  {
    assert Inv(Init(w0, n), w0);
    RunKeepsReady(Init(w0, n), w0, acts, s);
  }

  // ---------------------------------------------------------------- every request is served once

  /** What thread t has had served, in order. */
  function ServedTo(log: seq<Served>, t: nat): seq<(Request, Faults)>
  {
    if log == [] then []
    else
      var x := log[|log| - 1];
      ServedTo(log[..|log| - 1], t) + (if x.who == t then [(x.req, x.faults)] else [])
  }

  /** What it has in progress. */
  function InProgress(s: State, t: nat): seq<(Request, Faults)>
  {
    if t < |s.threads| && s.threads[t].Busy? then [(s.threads[t].req, s.threads[t].faults)] else []
  }

  /** What a run submits for it, in order. */
  function SubmittedBy(acts: seq<Action>, t: nat): seq<(Request, Faults)>
  {
    if acts == [] then []
    else
      (if acts[0].Submit? && acts[0].t == t then [(acts[0].req, acts[0].faults)] else []) + SubmittedBy(acts[1..], t)
  }

  lemma StepServes(s: State, a: Action, t: nat)
    requires Enabled(s, a)
    ensures ServedTo(Next(s, a).log, t) + InProgress(Next(s, a), t)
         == ServedTo(s.log, t) + InProgress(s, t) + SubmittedBy([a], t)
  {
    var u := Next(s, a);
    if u.log != s.log {
      assert u.log[..|u.log| - 1] == s.log;
    }
    assert SubmittedBy([a][1..], t) == [];
  }

  /** Each worker's requests are served in the order in which it submits them, once each and unchanged. */
  lemma {:induction false} RequestsServed(s: State, acts: seq<Action>, s': State, t: nat)
    requires Run(s, acts, s')
    ensures ServedTo(s'.log, t) + InProgress(s', t) == ServedTo(s.log, t) + InProgress(s, t) + SubmittedBy(acts, t)
    decreases |acts|
  {
    if acts != [] {
      StepServes(s, acts[0], t);
      RequestsServed(Next(s, acts[0]), acts[1..], s', t);
      assert SubmittedBy([acts[0]][1..], t) == [];
      assert SubmittedBy([acts[0]], t) + SubmittedBy(acts[1..], t) == SubmittedBy(acts, t);
    }
  }
}
