/**
  What one whole request does to the kernel's links: `NetlinkManager::process_request` and
  `create_vcan_interface_if_not_exists` as a function of the links, the cache and the failures met
  (NetlinkManager.cpp, VCAN.cpp).
*/
module Netlink {
  import opened Base
  import opened Message

  /** A failing libnl result; libnl reports errors as negative numbers. */
  type Failure = x: int | x < 0 witness -1

  datatype Kind = Can | Vcan | Other

  datatype Link = Link(kind: Kind, up: bool, bitrate: Uint32)

  /** A call of `rtnl_link_change` that reached the kernel, and whether the link was up at that moment. */
  datatype Issue =
    | FlagIssue(name: string, up: bool)
    | RateIssue(name: string, rate: Uint32, linkWasUp: bool)

  /** The kernel's links, the manager's cache, and the changes the manager has issued. */
  datatype World = World(links: map<string, Link>, cache: map<string, Link>, issued: seq<Issue>)

  /** How `nl_cache_refill` ends: it may fail before or after it has emptied the cache. */
  datatype Refill = Refilled | SendFailed | PickupFailed(kept: set<string>)

  /** What the kernel answers to a change it could carry out. */
  datatype Verdict = Accept | Reject(code: Failure)

  datatype StateFaults = StateFaults(refill: Refill, alloc: bool, change: Verdict, refresh: Refill)
  datatype RateFaults = RateFaults(alloc: bool, setType: bool, change: Verdict)
  datatype VcanFaults = VcanFaults(probe: bool, sock: bool, connect: bool, alloc: bool, add: Verdict)

  /** The failures one request meets, one field per library call it can make. `true` means the call succeeds. */
  datatype Faults = Faults(check: Refill, down: StateFaults, rate: RateFaults, last: StateFaults, vcan: VcanFaults)

  datatype Request = Request(op: RequestType, up: bool, setBitrate: bool, bitrate: Uint32, name: string)

  /** Which return statement produced a response; it stands for the wording of `error_message`. */
  datatype Note =
    | Query | RefillFailed | NotFound | Already | AllocFailed | ChangeFailed | Changed
    | NotCanName | RateNotFound | RateAllocFailed | RateTypeFailed | RateFailed | RateSet | NotCanLink
    | DownFailed | VcanMade | VcanFailed | UnknownOp

  datatype Response = Response(result: int, exists_: bool, isUp: bool, note: Note)

  /** The kernel's answer to a change the link does not admit. */
  const REFUSED := -1

  // ---------------------------------------------------------------- library calls

  function RefillCache(w: World, r: Refill): World
  {
    match r
    case Refilled => w.(cache := w.links)
    case SendFailed => w
    case PickupFailed(kept) => w.(cache := map n | n in w.links && n in kept :: w.links[n])
  }

  /** `rtnl_link_change` with IFF_UP set or cleared. */
  function ChangeFlag(w: World, name: string, up: bool, v: Verdict): (World, int)
  {
    var w1 := w.(issued := w.issued + [FlagIssue(name, up)]);
    if name !in w.links then (w1, REFUSED)
    else match v
      case Reject(code) => (w1, code as int)
      case Accept => (w1.(links := w.links[name := w.links[name].(up := up)]), 0)
  }

  /** `rtnl_link_change` with a bitrate: the kernel takes it for a CAN link that is down. */
  function ChangeRate(w: World, name: string, rate: Uint32, v: Verdict): (World, int)
  {
    var w1 := w.(issued := w.issued + [RateIssue(name, rate, name in w.links && w.links[name].up)]);
    if name !in w.links || w.links[name].kind != Can || w.links[name].up then (w1, REFUSED)
    else match v
      case Reject(code) => (w1, code as int)
      case Accept => (w1.(links := w.links[name := w.links[name].(bitrate := rate)]), 0)
  }

  /** `rtnl_link_add` of a vcan link; NLM_F_CREATE on a name that is taken is refused. */
  function AddVcan(w: World, name: string, v: Verdict): (World, int)
  {
    if name in w.links then (w, REFUSED)
    else match v
      case Reject(code) => (w, code as int)
      case Accept => (w.(links := w.links[name := Link(Vcan, false, 0)]), 0)
  }

  // ---------------------------------------------------------------- the operations

  function Reply(result: int, note: Note): Response
  {
    Response(result, false, false, note)
  }

  /** `check_interface_exists` and, with wantUp, `check_interface_is_up`. */
  function Check(w: World, name: string, wantUp: bool, r: Refill): (World, Response)
  {
    var w1 := RefillCache(w, r);
    if r != Refilled then (w1, Reply(-1, RefillFailed))
    else if name in w1.cache then (w1, Response(0, true, wantUp && w1.cache[name].up, Query))
    else (w1, Response(0, false, false, Query))
  }

  /** `set_interface_state_libnl` */
  function ApplyState(w: World, name: string, up: bool, f: StateFaults): (World, Response)
  {
    var w1 := RefillCache(w, f.refill);
    if f.refill != Refilled then (w1, Reply(-1, RefillFailed)) else StateLookup(w1, name, up, f)
  }

  /** ... from the lookup in the cache on */
  function StateLookup(w: World, name: string, up: bool, f: StateFaults): (World, Response)
  {
    if name !in w.cache then (w, Reply(-1, NotFound))
    else if w.cache[name].up == up then (w, Reply(0, Already))
    else if !f.alloc then (w, Reply(-1, AllocFailed))
    else StateChange(w, name, up, f)
  }

  /** ... from the change on */
  function StateChange(w: World, name: string, up: bool, f: StateFaults): (World, Response)
  {
    var (w1, code) := ChangeFlag(w, name, up, f.change);
    StateRefresh(w1, code, f)
  }

  /** ... after the change answered with code; the result of the second refill is ignored */
  function StateRefresh(w: World, code: int, f: StateFaults): (World, Response)
  {
    if code < 0 then (w, Reply(code, ChangeFailed)) else (RefillCache(w, f.refresh), Reply(0, Changed))
  }

  /** `set_can_bitrate_libnl`: it looks the link up in the cache as it is. */
  function ApplyRate(w: World, name: string, rate: Uint32, f: RateFaults): (World, Response)
  {
    if !StartsWithCan(name) then (w, Reply(0, NotCanName))
    else if name !in w.cache then (w, Reply(-1, RateNotFound))
    else RateAlloc(w, name, w.cache[name].kind, rate, f)
  }

  /** ... once the link was found with its cached kind */
  function RateAlloc(w: World, name: string, kind: Kind, rate: Uint32, f: RateFaults): (World, Response)
  {
    if !f.alloc then (w, Reply(-1, RateAllocFailed))
    else if kind != Can then (w, Reply(-1, NotCanLink))
    else if !f.setType then (w, Reply(-1, RateTypeFailed))
    else RateChange(w, name, rate, f)
  }

  function RateChange(w: World, name: string, rate: Uint32, f: RateFaults): (World, Response)
  {
    var (w1, code) := ChangeRate(w, name, rate, f.change);
    (w1, RateResponse(code))
  }

  function RateResponse(code: int): Response
  {
    if code < 0 then Reply(code, RateFailed) else Reply(0, RateSet)
  }

  /**
    `create_vcan_interface_if_not_exists` and the response made from it. The probe by `if_nametoindex` may fail for a
    name that exists as for one that does not.
   */
  function MakeVcan(w: World, name: string, f: VcanFaults): (World, Response)
  {
    if !f.probe then (w, Reply(-1, VcanFailed))
    else if name in w.links then (w, Reply(0, VcanMade))
    else if !f.sock || !f.connect || !f.alloc then (w, Reply(-1, VcanFailed))
    else
      var (w1, code) := AddVcan(w, name, f.add);
      (w1, VcanResponse(code))
  }

  function VcanResponse(code: int): Response
  {
    if code < 0 then Reply(-1, VcanFailed) else Reply(0, VcanMade)
  }

  /** The bitrate step and, when it succeeds, the final state change. */
  function RateThenState(w: World, req: Request, f: Faults): (World, Response)
  {
    var (w1, r) := ApplyRate(w, req.name, req.bitrate, f.rate);
    if r.result != 0 then (w1, r) else ApplyState(w1, req.name, req.up, f.last)
  }

  /** The up-with-bitrate request after its `check_interface_is_up`. */
  function DownThenRate(w: World, isUp: bool, req: Request, f: Faults): (World, Response)
  {
    if isUp then
      var (w1, r) := ApplyState(w, req.name, false, f.down);
      if r.result != 0 then (w1, Reply(r.result, DownFailed)) else RateThenState(w1, req, f)
    else RateThenState(w, req, f)
  }

  /** `process_request` as one atomic transition. */
  function Serve(w: World, req: Request, f: Faults): (World, Response)
  {
    match req.op
    case INTERFACE_EXISTS => Check(w, req.name, false, f.check)
    case INTERFACE_IS_UP => Check(w, req.name, true, f.check)
    case CREATE_VCAN_INTERFACE => MakeVcan(w, req.name, f.vcan)
    case SET_INTERFACE_STATE =>
      if req.up && req.setBitrate then
        var (w1, r) := Check(w, req.name, true, f.check);
        if r.result != 0 then (w1, r) else DownThenRate(w1, r.isUp, req, f)
      else ApplyState(w, req.name, req.up, f.last)
    case _ => (w, Reply(-1, UnknownOp))
  }

  // ---------------------------------------------------------------- contracts

  /** The response came from the bitrate step, which did not succeed. */
  predicate RateStepFailed(r: Response)
  {
    r.note in {RateNotFound, RateAllocFailed, RateTypeFailed, RateFailed, NotCanLink}
  }

  /** w' differs from w at most in the link `name`, which keeps its kind, and in the issued changes after w's. */
  ghost predicate OnlyLink(w: World, w': World, name: string)
  {
    && w'.links.Keys == w.links.Keys
    && (forall n :: n in w.links && n != name ==> w'.links[n] == w.links[n])
    && (name in w.links ==> w'.links[name].kind == w.links[name].kind)
    && w.issued <= w'.issued
  }

  /** Every bitrate change issued between w and w' met a link that was down. */
  ghost predicate RatesOnDownLinks(w: World, w': World)
  {
    forall i :: |w.issued| <= i < |w'.issued| && w'.issued[i].RateIssue? ==> !w'.issued[i].linkWasUp
  }

  lemma ApplyStateContract(w: World, name: string, up: bool, f: StateFaults)
    ensures var (w', r) := ApplyState(w, name, up, f);
      && OnlyLink(w, w', name) && RatesOnDownLinks(w, w')
      && (r.result == 0 ==> name in w'.links && w'.links[name] == w.links[name].(up := up))
      && (r.result != 0 ==> w'.links == w.links)
      && !RateStepFailed(r)
  {
  }

  lemma ApplyRateContract(w: World, name: string, rate: Uint32, f: RateFaults)
    requires name in w.links ==> !w.links[name].up
    ensures var (w', r) := ApplyRate(w, name, rate, f);
      && OnlyLink(w, w', name) && RatesOnDownLinks(w, w')
      && (r.result == 0 && StartsWithCan(name) ==>
            name in w.links && w.links[name].kind == Can && w'.links[name] == w.links[name].(bitrate := rate))
      && (r.result != 0 || !StartsWithCan(name) ==> w'.links == w.links)
      && (r.result != 0 <==> RateStepFailed(r))
  {
  }

  /**
    The contract of a state request, in the absence of other writers. With result 0 the link is in the requested
    state and, for an up request with a bitrate on a `can` name, it is a CAN link with exactly that bitrate. A bitrate
    is only ever issued while the link is down; a failed bitrate step leaves the link down or absent. No other
    link changes, and no link appears or disappears.
   */
  lemma SetStateContract(w: World, req: Request, f: Faults)
    requires req.op == SET_INTERFACE_STATE
    ensures var (w', r) := Serve(w, req, f);
      && OnlyLink(w, w', req.name) && RatesOnDownLinks(w, w')
      && (r.result == 0 ==> req.name in w'.links && w'.links[req.name].up == req.up)
      && (r.result == 0 && req.up && req.setBitrate && StartsWithCan(req.name) ==>
            w'.links[req.name] == Link(Can, true, req.bitrate))
      && (r.result == 0 && !(req.up && req.setBitrate && StartsWithCan(req.name)) ==>
            w'.links[req.name] == w.links[req.name].(up := req.up))
      && (RateStepFailed(r) ==> r.result != 0 && (req.name in w'.links ==> !w'.links[req.name].up))
  {
    if req.up && req.setBitrate {
      var (w1, c) := Check(w, req.name, true, f.check);
      if c.result == 0 {
        var w2 := w1;
        if c.isUp {
          ApplyStateContract(w1, req.name, false, f.down);
          w2 := ApplyState(w1, req.name, false, f.down).0;
        }
        if !c.isUp || ApplyState(w1, req.name, false, f.down).1.result == 0 {
          ApplyRateContract(w2, req.name, req.bitrate, f.rate);
          var (w3, r3) := ApplyRate(w2, req.name, req.bitrate, f.rate);
          ApplyStateContract(w3, req.name, true, f.last);
        }
      }
    } else {
      ApplyStateContract(w, req.name, req.up, f.last);
    }
  }

  /**
    The bitrate, with the test of the name written out: after an up request with a bitrate that is answered with
    result 0, a link whose name begins with the three characters of `can` is a CAN link with that bitrate, and any
    other link has the bitrate it had. A request to go down, or up without a bitrate, never changes a bitrate.
   */
  lemma BitrateByName(w: World, req: Request, f: Faults)
    requires req.op == SET_INTERFACE_STATE
    ensures var (w', r) := Serve(w, req, f);
      var n := req.name;
      var can := |n| >= 3 && n[0] == 'c' && n[1] == 'a' && n[2] == 'n';
      && (r.result == 0 ==>
            && n in w.links && n in w'.links
            && w'.links[n] == (if req.up && req.setBitrate && can then Link(Can, true, req.bitrate)
                               else w.links[n].(up := req.up)))
      && (!(req.up && req.setBitrate && can) && n in w.links ==>
            n in w'.links && w'.links[n].bitrate == w.links[n].bitrate)
  {
    SetStateContract(w, req, f);
    CanByCharacters(req.name);
    if req.name in w.links {
      if !(req.up && req.setBitrate) {
        StateKeepsBitrate(w, req.name, req.up, f.last);
      } else if !StartsWithCan(req.name) {
        OtherNamesKeepBitrate(w, req, f);
      }
    }
  }

  lemma OtherNamesKeepBitrate(w: World, req: Request, f: Faults)
    requires req.op == SET_INTERFACE_STATE && req.up && req.setBitrate && !StartsWithCan(req.name)
    requires req.name in w.links
    ensures var w' := Serve(w, req, f).0;
      req.name in w'.links && w'.links[req.name].bitrate == w.links[req.name].bitrate
  {
    var (w1, c) := Check(w, req.name, true, f.check);
    if c.result == 0 {
      var w2 := w1;
      if c.isUp {
        StateKeepsBitrate(w1, req.name, false, f.down);
        w2 := ApplyState(w1, req.name, false, f.down).0;
      }
      StateKeepsBitrate(ApplyRate(w2, req.name, req.bitrate, f.rate).0, req.name, true, f.last);
    }
  }

  lemma StateKeepsBitrate(w: World, name: string, up: bool, f: StateFaults)
    requires name in w.links
    ensures var w' := ApplyState(w, name, up, f).0;
      name in w'.links && w'.links[name].bitrate == w.links[name].bitrate
  {
  }

  // ---------------------------------------------------------------- when a state request succeeds

  /** A state change that has to be made is made. */
  predicate ChangeMade(f: StateFaults)
  {
    f.alloc && f.change.Accept?
  }

  /** After the refill a name that exists is still cached. */
  predicate Keeps(r: Refill, name: string)
  {
    r.PickupFailed? ==> name in r.kept
  }

  /** The bitrate step of a request that found the link succeeds: a name that is no `can` name needs nothing. */
  predicate RateStepWorks(link: Link, req: Request, f: Faults)
  {
    StartsWithCan(req.name) ==>
      && link.kind == Can && (link.up ==> Keeps(f.down.refresh, req.name))
      && f.rate.alloc && f.rate.setType && f.rate.change.Accept?
  }

  /** What the links and the library calls must be for a state request to be answered with result 0. */
  predicate SetStateWorks(links: map<string, Link>, req: Request, f: Faults)
  {
    && req.name in links && f.last.refill == Refilled
    && var link := links[req.name];
       if req.up && req.setBitrate then
         && f.check == Refilled && (link.up ==> f.down.refill == Refilled && ChangeMade(f.down))
         && RateStepWorks(link, req, f) && ChangeMade(f.last)
       else link.up == req.up || ChangeMade(f.last)
  }

  lemma ApplyStateExact(w: World, name: string, up: bool, f: StateFaults)
    ensures var (w', r) := ApplyState(w, name, up, f);
      && (r.result == 0 <==>
            f.refill == Refilled && name in w.links && (w.links[name].up == up || ChangeMade(f)))
      && (r.result == 0 && w.links[name].up != up ==> (name in w'.cache <==> Keeps(f.refresh, name)))
      && (name in w.links && name in w'.cache && f.refill == Refilled ==> w'.cache[name].kind == w.links[name].kind)
  {
  }

  lemma ApplyRateExact(w: World, name: string, rate: Uint32, f: RateFaults)
    requires name in w.links && !w.links[name].up
    requires name in w.cache ==> w.cache[name].kind == w.links[name].kind
    ensures ApplyRate(w, name, rate, f).1.result == 0 <==>
      (StartsWithCan(name) ==>
        name in w.cache && w.links[name].kind == Can && f.alloc && f.setType && f.change.Accept?)
  {
  }

  /** Exactly when a state request is answered with result 0, whatever the links and the failures. */
  lemma SetStateExact(w: World, req: Request, f: Faults)
    requires req.op == SET_INTERFACE_STATE
    ensures Serve(w, req, f).1.result == 0 <==> SetStateWorks(w.links, req, f)
  {
    if req.up && req.setBitrate {
      var (w1, c) := Check(w, req.name, true, f.check);
      if c.result == 0 && req.name in w.links {
        DownThenRateExact(w1, req, f);
      }
    } else {
      ApplyStateExact(w, req.name, req.up, f.last);
    }
  }

  lemma DownThenRateExact(w: World, req: Request, f: Faults)
    requires req.up && req.setBitrate && req.name in w.links && w.cache == w.links && f.check == Refilled
    requires req.op == SET_INTERFACE_STATE
    ensures DownThenRate(w, w.links[req.name].up, req, f).1.result == 0 <==> SetStateWorks(w.links, req, f)
  {
    if w.links[req.name].up {
      ApplyStateContract(w, req.name, false, f.down);
      ApplyStateExact(w, req.name, false, f.down);
      var (w1, r) := ApplyState(w, req.name, false, f.down);
      if r.result == 0 {
        RateThenStateExact(w1, req, f);
      }
    } else {
      RateThenStateExact(w, req, f);
    }
  }

  lemma RateThenStateExact(w: World, req: Request, f: Faults)
    requires req.up && req.name in w.links && !w.links[req.name].up
    requires req.name in w.cache ==> w.cache[req.name].kind == w.links[req.name].kind
    ensures RateThenState(w, req, f).1.result == 0 <==>
      && (StartsWithCan(req.name) ==>
            && req.name in w.cache && w.links[req.name].kind == Can
            && f.rate.alloc && f.rate.setType && f.rate.change.Accept?)
      && f.last.refill == Refilled && ChangeMade(f.last)
  {
    ApplyRateContract(w, req.name, req.bitrate, f.rate);
    ApplyRateExact(w, req.name, req.bitrate, f.rate);
    ApplyStateExact(ApplyRate(w, req.name, req.bitrate, f.rate).0, req.name, true, f.last);
  }

  /** Every library call succeeds. */
  predicate NoFailures(f: Faults)
  {
    && f.check == Refilled
    && f.down == StateFaults(Refilled, true, Accept, Refilled) && f.last == f.down
    && f.rate == RateFaults(true, true, Accept) && f.vcan == VcanFaults(true, true, true, true, Accept)
  }

  /**
    What it takes to be brought up or down: the link must exist and, for an up request with a bitrate on a `can` name,
    be a CAN link. Then the request succeeds when no library call fails, and otherwise whatever they do it fails.
   */
  lemma SetStatePossible(w: World, req: Request)
    requires req.op == SET_INTERFACE_STATE
    ensures var suitable := req.name in w.links
      && (req.up && req.setBitrate && StartsWithCan(req.name) ==> w.links[req.name].kind == Can);
      && (forall f :: NoFailures(f) ==> (Serve(w, req, f).1.result == 0 <==> suitable))
      && ((exists f :: Serve(w, req, f).1.result == 0) <==> suitable)
  {
    forall f ensures Serve(w, req, f).1.result == 0 <==> SetStateWorks(w.links, req, f) {
      SetStateExact(w, req, f);
    }
    var st := StateFaults(Refilled, true, Accept, Refilled);
    var f := Faults(Refilled, st, RateFaults(true, true, Accept), st, VcanFaults(true, true, true, true, Accept));
    assert NoFailures(f);
    assert Serve(w, req, f).1.result == 0 <==> SetStateWorks(w.links, req, f);
  }

  /**
    A `can` name that is not a CAN link (a VCAN interface called can0, say) is never brought up by an up request with
    a bitrate: the request fails, and a link that was up is down afterwards unless the failure came before the bitrate
    step.
   */
  lemma NonCanLinkNeverUp(w: World, req: Request, f: Faults)
    requires req.op == SET_INTERFACE_STATE && req.up && req.setBitrate && StartsWithCan(req.name)
    requires req.name in w.links && w.links[req.name].kind != Can
    ensures var (w', r) := Serve(w, req, f);
      && r.result != 0
      && (w'.links[req.name].up <==> w.links[req.name].up && r.note in {RefillFailed, DownFailed})
  {
    SetStateContract(w, req, f);
    ApplyStateContract(RefillCache(w, f.check), req.name, false, f.down);
  }

  /** A query answered with result 0 tells the kernel's own state, and no query changes a link. */
  lemma QueryContract(w: World, req: Request, f: Faults)
    requires req.op == INTERFACE_EXISTS || req.op == INTERFACE_IS_UP
    ensures var (w', r) := Serve(w, req, f);
      && w'.links == w.links && w'.issued == w.issued
      && (r.result == 0 ==> (r.exists_ <==> req.name in w.links))
      && (r.result == 0 ==> (r.isUp <==> req.op == INTERFACE_IS_UP && req.name in w.links && w.links[req.name].up))
      && (r.result == 0 <==> f.check == Refilled)
  {
  }

  /**
    Creating a vcan link never touches an existing link. It answers 0 exactly when the probe works and the name is there
    already or every call that makes it succeeds; then the name exists, and otherwise no link has changed.
   */
  lemma CreateContract(w: World, req: Request, f: Faults)
    requires req.op == CREATE_VCAN_INTERFACE
    ensures var (w', r) := Serve(w, req, f);
      var v := f.vcan;
      && (forall n :: n in w.links ==> n in w'.links && w'.links[n] == w.links[n])
      && w'.links.Keys <= w.links.Keys + {req.name}
      && (r.result == 0 <==> v.probe && (req.name in w.links || (v.sock && v.connect && v.alloc && v.add.Accept?)))
      && (r.result == 0 ==> req.name in w'.links)
      && (r.result != 0 ==> w'.links == w.links)
      && (req.name in w'.links && req.name !in w.links ==> w'.links[req.name] == Link(Vcan, false, 0))
  {
  }
}
