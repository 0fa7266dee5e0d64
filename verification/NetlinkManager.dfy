/**
  The manager itself: a recursive mutex, a link cache and counted link references over the kernel
  (NetlinkManager.cpp).
 */
module NetlinkManager {
  import opened Base
  import opened Message
  import opened Netlink

  /** The kernel's link table, shared by everything on the host. */
  class Kernel {
    var links: map<string, Link>
    var issued: seq<Issue>

    constructor (links: map<string, Link>)
      ensures this.links == links && issued == []
    {
      this.links := links;
      issued := [];
    }
  }

  class Manager {
    const kernel: Kernel
    var cache: map<string, Link>
    var depth: nat  // of mutex_, as seen by the thread that calls
    var refs: int   // rtnl_link objects obtained and not yet put

    /** `initialize`: the cache is allocated with the links of that moment. */
    constructor (kernel: Kernel)
      ensures this.kernel == kernel && cache == kernel.links && depth == 0 && refs == 0
    {
      this.kernel := kernel;
      cache := kernel.links;
      depth := 0;
      refs := 0;
    }

    ghost function World(): World
      reads this, kernel
    {
      Netlink.World.World(kernel.links, cache, kernel.issued)
    }

    method Lock()
      modifies this`depth
      ensures depth == old(depth) + 1
    {
      depth := depth + 1;
    }

    method Unlock()
      requires depth > 0
      modifies this`depth
      ensures depth == old(depth) - 1
    {
      depth := depth - 1;
    }

    /** `nl_cache_refill` */
    method Refill(r: Refill) returns (ok: bool)
      modifies this`cache
      ensures World() == RefillCache(old(World()), r)
      ensures ok <==> r == Refilled
    {
      match r {
        case Refilled => cache := kernel.links;
        case SendFailed =>
        case PickupFailed(kept) => cache := map n | n in kernel.links && n in kept :: kernel.links[n];
      }
      ok := r.Refilled?;
    }

    /** `rtnl_link_get_by_name`: takes a reference when the name is cached. */
    method GetByName(name: string) returns (found: bool)
      modifies this`refs
      ensures found <==> name in cache
      ensures refs == old(refs) + (if found then 1 else 0)
    {
      found := name in cache;
      if found { refs := refs + 1; }
    }

    /** `rtnl_link_alloc` */
    method Alloc(works: bool) returns (ok: bool)
      modifies this`refs
      ensures ok == works
      ensures refs == old(refs) + (if ok then 1 else 0)
    {
      ok := works;
      if ok { refs := refs + 1; }
    }

    /** `rtnl_link_put` */
    method Put()
      modifies this`refs
      ensures refs == old(refs) - 1
    {
      refs := refs - 1;
    }

    method IssueFlag(name: string, up: bool, v: Verdict) returns (code: int)
      modifies kernel
      ensures World() == ChangeFlag(old(World()), name, up, v).0
      ensures code == ChangeFlag(old(World()), name, up, v).1
    {
      kernel.issued := kernel.issued + [FlagIssue(name, up)];
      if name !in kernel.links { return REFUSED; }
      match v
      case Reject(c) => return c;
      case Accept =>
        kernel.links := kernel.links[name := kernel.links[name].(up := up)];
        return 0;
    }

    method IssueRate(name: string, rate: Uint32, v: Verdict) returns (code: int)
      modifies kernel
      ensures World() == ChangeRate(old(World()), name, rate, v).0
      ensures code == ChangeRate(old(World()), name, rate, v).1
    {
      kernel.issued := kernel.issued + [RateIssue(name, rate, name in kernel.links && kernel.links[name].up)];
      if name !in kernel.links || kernel.links[name].kind != Can || kernel.links[name].up { return REFUSED; }
      match v
      case Reject(c) => return c;
      case Accept =>
        kernel.links := kernel.links[name := kernel.links[name].(bitrate := rate)];
        return 0;
    }

    /** `check_interface_exists` and, with wantUp, `check_interface_is_up` */
    method CheckInterface(name: string, wantUp: bool, r: Refill) returns (resp: Response)
      modifies this
      ensures (World(), resp) == Check(old(World()), name, wantUp, r)
      ensures depth == old(depth) && refs == old(refs)
    {
      Lock();
      var ok := Refill(r);
      if !ok {
        Unlock();
        return Reply(-1, RefillFailed);
      }
      var found := GetByName(name);
      var isUp := false;
      if found {
        isUp := wantUp && cache[name].up;
        Put();
      }
      Unlock();
      return Response(0, found, isUp, Query);
    }

    /** `set_interface_state_libnl` */
    method SetInterfaceState(name: string, up: bool, f: StateFaults) returns (resp: Response)
      modifies this, kernel
      ensures (World(), resp) == ApplyState(old(World()), name, up, f)
      ensures depth == old(depth) && refs == old(refs)
    {
      Lock();
      var ok := Refill(f.refill);
      if !ok {
        Unlock();
        return Reply(-1, RefillFailed);
      }
      var link := GetByName(name);
      if !link {
        Unlock();
        return Reply(-1, NotFound);
      }
      if cache[name].up == up {
        Put();
        Unlock();
        return Reply(0, Already);
      }
      var change := Alloc(f.alloc);
      if !change {
        Put();
        Unlock();
        return Reply(-1, AllocFailed);
      }
      var result := IssueFlag(name, up, f.change);
      Put();
      Put();
      if result < 0 {
        Unlock();
        return Reply(result, ChangeFailed);
      }
      var _ := Refill(f.refresh);
      Unlock();
      return Reply(0, Changed);
    }

    /** `set_can_bitrate_libnl` */
    method SetCanBitrate(name: string, rate: Uint32, f: RateFaults) returns (resp: Response)
      modifies this, kernel
      ensures (World(), resp) == ApplyRate(old(World()), name, rate, f)
      ensures depth == old(depth) && refs == old(refs)
    {
      Lock();
      if !StartsWithCan(name) {
        Unlock();
        return Reply(0, NotCanName);
      }
      var link := GetByName(name);
      if !link {
        Unlock();
        return Reply(-1, RateNotFound);
      }
      var change := Alloc(f.alloc);
      if !change {
        Put();
        Unlock();
        return Reply(-1, RateAllocFailed);
      }
      if cache[name].kind != Can {
        Put();
        Put();
        Unlock();
        return Reply(-1, NotCanLink);
      }
      if !f.setType {
        Put();
        Put();
        Unlock();
        return Reply(-1, RateTypeFailed);
      }
      var result := IssueRate(name, rate, f.change);
      Put();
      Put();
      Unlock();
      if result < 0 {
        return Reply(result, RateFailed);
      }
      return Reply(0, RateSet);
    }

    /** `create_vcan_interface_if_not_exists`, called with the mutex held */
    method CreateVcanLink(name: string, f: VcanFaults) returns (resp: Response)
      modifies this`refs, kernel
      ensures (World(), resp) == MakeVcan(old(World()), name, f)
      ensures refs == old(refs)
    {
      if !f.probe { return Reply(-1, VcanFailed); }
      if name in kernel.links { return Reply(0, VcanMade); }
      if !f.sock || !f.connect { return Reply(-1, VcanFailed); }
      var link := Alloc(f.alloc);
      if !link { return Reply(-1, VcanFailed); }
      var result: int := 0;
      match f.add {
        case Reject(c) => result := c;
        case Accept => kernel.links := kernel.links[name := Link(Vcan, false, 0)];
      }
      Put();
      if result < 0 { return Reply(-1, VcanFailed); }
      return Reply(0, VcanMade);
    }

    /**
      `process_request`: whole, it is the atomic transition `Serve`, and it gives back the mutex and every reference.
     */
    method ProcessRequest(req: Request, f: Faults) returns (resp: Response)
      modifies this, kernel
      ensures (World(), resp) == Serve(old(World()), req, f)
      ensures depth == old(depth) && refs == old(refs)
    {
      Lock();
      match req.op {
        case INTERFACE_EXISTS => resp := CheckInterface(req.name, false, f.check);
        case INTERFACE_IS_UP => resp := CheckInterface(req.name, true, f.check);
        case CREATE_VCAN_INTERFACE => resp := CreateVcanLink(req.name, f.vcan);
        case SET_INTERFACE_STATE =>
          if req.up && req.setBitrate {
            resp := CheckInterface(req.name, true, f.check);
            if resp.result != 0 {
              Unlock();
              return;
            }
            if resp.isUp {
              resp := SetInterfaceState(req.name, false, f.down);
              if resp.result != 0 {
                Unlock();
                return Reply(resp.result, DownFailed);
              }
            }
            resp := SetCanBitrate(req.name, req.bitrate, f.rate);
            if resp.result != 0 {
              Unlock();
              return;
            }
          }
          resp := SetInterfaceState(req.name, req.up, f.last);
        case _ => resp := Reply(-1, UnknownOp);
      }
      Unlock();
    }
  }
}
