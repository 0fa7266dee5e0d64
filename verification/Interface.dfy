/** Bringing an interface up and down, end to end (Interface.cpp, NetlinkClient.cpp:167-256). */
module Interface {
  import opened Base
  import opened Message
  import opened Netlink
  import NetlinkManager
  import CanSocket
  import Dispatcher

  datatype InterfaceType = CAN | VCAN

  /**
    One exchange with the daemon: whether the request reached process_request, whether the client got the whole
    response, and the failures the daemon met.
   */
  datatype Exchange = Exchange(reached: bool, delivered: bool, faults: Faults)

  /** How the calls of one `up` end: the exchanges, the fallback commands, and the dispatcher's start. */
  datatype UpOutcome = UpOutcome(exists_: Exchange, create: Exchange, set_: Exchange, fallback: bool,
                                 connect: CanSocket.Connect, add: bool, early: seq<Frame>, flush: CanSocket.FlushFault)

  datatype Answer = Lost | Got(response: Response)

  predicate Answered(e: Exchange)
  {
    e.reached && e.delivered
  }

  /** The existence check of `up` passes: the link is there, or it is a VCAN one that gets made. */
  predicate ExistsWorks(kind: InterfaceType, links: map<string, Link>, name: string, query: Exchange, create: Exchange)
  {
    && Answered(query) && query.faults.check == Refilled
    && (LinkName(name) in links
        || (kind == VCAN && Answered(create)
            && var v := create.faults.vcan; v.probe && v.sock && v.connect && v.alloc && v.add.Accept?))
  }

  /** The links once that check has passed. */
  function WithLink(links: map<string, Link>, name: string): map<string, Link>
  {
    if LinkName(name) in links then links else links[LinkName(name) := Link(Vcan, false, 0)]
  }

  /** `NetlinkClient::set_interface_state`: the bitrate flag is set for an up request on a `can` name. */
  function StateRequest(name: string, up: bool, bitrate: Uint32): Request
  {
    Request(SET_INTERFACE_STATE, up, StartsWithCan(name) && up, bitrate, LinkName(name))
  }

  /** The daemon answers with result 0, or the fallback commands succeed in its place. */
  predicate SetWorks(links: map<string, Link>, name: string, up: bool, bitrate: Uint32, e: Exchange, fallback: bool)
  {
    if Answered(e) then SetStateWorks(links, StateRequest(name, up, bitrate), e.faults) else fallback
  }

  predicate UpWorks(kind: InterfaceType, links: map<string, Link>, name: string, bitrate: Uint32, o: UpOutcome)
  {
    && ExistsWorks(kind, links, name, o.exists_, o.create)
    && SetWorks(WithLink(links, name), name, true, bitrate, o.set_, o.fallback)
    && o.connect.Connected? && o.add && (!o.flush.Error? || o.flush.after > |o.early|)
  }

  /** Nothing fails on the way. */
  predicate AllWell(o: UpOutcome)
  {
    && Answered(o.exists_) && Answered(o.create) && Answered(o.set_)
    && NoFailures(o.exists_.faults) && NoFailures(o.create.faults) && NoFailures(o.set_.faults)
    && o.connect.Connected? && o.add && !o.flush.Error?
  }

  /**
    What `up` needs when nothing fails: the link exists or is a VCAN one still to be made, and a `can` name is that of a
    CAN link. A VCAN interface on a `can` name that does not exist yet is made and then never brought up.
   */
  lemma UpNeeds(kind: InterfaceType, links: map<string, Link>, name: string, bitrate: Uint32, o: UpOutcome)
    requires AllWell(o)
    ensures UpWorks(kind, links, name, bitrate, o) <==>
      && (LinkName(name) in links || kind == VCAN)
      && (StartsWithCan(name) ==> LinkName(name) in links && links[LinkName(name)].kind == Can)
  {
    PrefixAgrees(name);
  }

  class Interface {
    const name: string
    const kind: InterfaceType
    const manager: NetlinkManager.Manager  // the daemon's, reached through the client
    const dispatcher: Dispatcher.Dispatcher

    constructor (name: string, kind: InterfaceType, manager: NetlinkManager.Manager, dispatcher: Dispatcher.Dispatcher)
      ensures this.name == name && this.kind == kind && this.manager == manager && this.dispatcher == dispatcher
    {
      this.name := name;
      this.kind := kind;
      this.manager := manager;
      this.dispatcher := dispatcher;
    }

    /** The dispatcher's socket was constructed with this interface's name. */
    ghost predicate Valid()
      reads dispatcher, dispatcher.socket, dispatcher.kernel, dispatcher.callbacks
    {
      dispatcher.Valid() && dispatcher.socket.interfaceName == name
    }

    ghost function Links(): map<string, Link>
      reads manager.kernel
    {
      manager.kernel.links
    }

    /** A request as the daemon receives it. */
    ghost function Received(request: NetlinkRequest): Request
      reads request, request.interfaceName
    {
      Request(request.operation, request.up, request.setBitrate, request.bitrate, CString(request.interfaceName[..]))
    }

    /** One request to the daemon, as its constructor built it. */
    method Ask(request: NetlinkRequest, e: Exchange) returns (a: Answer)
      modifies manager, manager.kernel
      ensures a.Got? <==> e.reached && e.delivered
      ensures e.reached ==>
        var (w, r) := Serve(old(manager.World()), Received(request), e.faults);
        manager.World() == w && (a.Got? ==> a.response == r)
      ensures !e.reached ==> manager.World() == old(manager.World())
    {
      if !e.reached { return Lost; }
      var name := CString(request.interfaceName[..]);
      var received := Request(request.operation, request.up, request.setBitrate, request.bitrate, name);
      var r := manager.ProcessRequest(received, e.faults);
      return if e.delivered then Got(r) else Lost;
    }

    /** Everything but the link this interface names. */
    twostate predicate OthersUnchanged()
      reads manager.kernel
    {
      forall n :: n != LinkName(name) ==>
        (n in Links() <==> n in old(Links())) && (n in Links() ==> Links()[n] == old(Links())[n])
    }

    /** Lines 20-55 of `up`: the link exists afterwards, a VCAN one being created when it is missing. */
    method EnsureExists(query: Exchange, create: Exchange) returns (ok: bool)
      modifies manager, manager.kernel
      ensures OthersUnchanged()
      ensures ok ==> LinkName(name) in Links()
      ensures kind == CAN ==> Links() == old(Links())
      ensures LinkName(name) in old(Links()) ==> Links() == old(Links())
      ensures LinkName(name) !in old(Links()) && LinkName(name) in Links() ==>
        kind == VCAN && Links()[LinkName(name)] == Link(Vcan, false, 0)
      ensures ok <==> ExistsWorks(kind, old(Links()), name, query, create)
      ensures ok ==> Links() == WithLink(old(Links()), name)
    {
      var before := manager.kernel.links;
      var request := new NetlinkRequest.Query(INTERFACE_EXISTS, name);
      QueryContract(manager.World(), Received(request), query.faults);
      var a := Ask(request, query);
      if a.Lost? || a.response.result != 0 { return false; }
      assert manager.kernel.links == before;
      if a.response.exists_ { return true; }
      if kind == CAN { return false; }
      request := new NetlinkRequest.Query(CREATE_VCAN_INTERFACE, name);
      CreateContract(manager.World(), Received(request), create.faults);
      a := Ask(request, create);
      return a.Got? && a.response.result == 0;
    }

    /** `NetlinkClient::set_interface_state` */
    method SetInterfaceState(up: bool, bitrate: Uint32, e: Exchange, fallback: bool)
      returns (ok: bool, usedFallback: bool)
      modifies manager, manager.kernel
      ensures OthersUnchanged()
      ensures Links().Keys == old(Links()).Keys
      ensures usedFallback <==> !(e.reached && e.delivered)
      ensures ok <==> SetWorks(old(Links()), name, up, bitrate, e, fallback)
      ensures ok && !usedFallback ==>
        var n := LinkName(name);
        && n in old(Links()) && n in Links()
        && Links()[n].bitrate ==
             (if up && |name| >= 3 && name[0] == 'c' && name[1] == 'a' && name[2] == 'n' then bitrate
              else old(Links())[n].bitrate)
      ensures var n := LinkName(name);
        && (ok && !usedFallback ==> n in Links() && Links()[n].up == up)
        && (ok && !usedFallback && up && StartsWithCan(name) ==> Links()[n] == Link(Can, true, bitrate))
        && (n in old(Links()) ==> Links()[n].kind == old(Links())[n].kind)
    {
      NamesAgree(name);
      var isCan := StartsWithCan(name);
      var request := new NetlinkRequest.State(name, up, isCan && up, bitrate);
      SetStateContract(manager.World(), Received(request), e.faults);
      SetStateExact(manager.World(), Received(request), e.faults);
      BitrateByName(manager.World(), Received(request), e.faults);
      CanByCharacters(name);
      CanByCharacters(LinkName(name));
      var a := Ask(request, e);
      if a.Lost? { return fallback, true; }
      return a.response.result == 0, false;
    }

    /**
      `up`: when it succeeds without the fallback, the link the daemon brought up and the link the reaper's socket is
      bound to are one and the same: it is up, a `can` name is a CAN link with the requested bitrate, epoll watches
      exactly the eventfd and the socket, and a reaper thread exists. No other link is touched. A VCAN interface on a
      `can` name succeeds only on a link that already is a CAN link.
     */
    method Up(bitrate: Uint32, o: UpOutcome) returns (ok: bool, usedFallback: bool)
      requires Valid() && CanSocket.FreshFd(o.connect, dispatcher.kernel.open, dispatcher.socket.sockFd)
      modifies manager, manager.kernel, dispatcher, dispatcher.socket, dispatcher.kernel
      ensures Valid() && OthersUnchanged()
      ensures ok && !usedFallback ==>
        var n := LinkName(name);
        && n in Links() && Links()[n].up && (StartsWithCan(name) ==> Links()[n] == Link(Can, true, bitrate))
        && dispatcher.socket.sockFd in dispatcher.kernel.boundTo
        && dispatcher.kernel.boundTo[dispatcher.socket.sockFd] == n
        && dispatcher.epoll == {dispatcher.eventFd, dispatcher.socket.sockFd} && dispatcher.hasThread
      ensures ok && !usedFallback && StartsWithCan(name) ==>
        LinkName(name) in old(Links()) && old(Links())[LinkName(name)].kind == Can
      ensures kind == CAN && LinkName(name) !in old(Links()) ==> !ok && Links() == old(Links())
      ensures ok <==> UpWorks(kind, old(Links()), name, bitrate, o)
      // the bitrate, with the test of the name written out
      ensures ok && !usedFallback ==>
        var n := LinkName(name);
        Links()[n].bitrate ==
          (if |name| >= 3 && name[0] == 'c' && name[1] == 'a' && name[2] == 'n' then bitrate
           else WithLink(old(Links()), name)[n].bitrate)
      // frames that arrived while it started are gone
      ensures ok && !o.flush.Down? ==>
        && dispatcher.socket.sockFd in dispatcher.kernel.queue
        && dispatcher.kernel.queue[dispatcher.socket.sockFd] == []
      // a link that is not up starts nothing
      ensures !(ExistsWorks(kind, old(Links()), name, o.exists_, o.create)
                && SetWorks(WithLink(old(Links()), name), name, true, bitrate, o.set_, o.fallback)) ==>
        unchanged(dispatcher) && unchanged(dispatcher.socket) && unchanged(dispatcher.kernel)
    {
      var exists_ := EnsureExists(o.exists_, o.create);
      if !exists_ { return false, false; }
      ok, usedFallback := SetInterfaceState(true, bitrate, o.set_, o.fallback);
      if ok {
        ok := dispatcher.Start(o.connect, o.add, o.early, o.flush);
      }
    }

    /** `down`: when it succeeds without the fallback, the link is down and no reaper thread is left. */
    method Down(e: Exchange, fallback: bool, write: bool) returns (ok: bool, usedFallback: bool)
      requires Valid()
      modifies manager, manager.kernel, dispatcher
      ensures Valid() && OthersUnchanged()
      ensures ok <==>
        SetWorks(old(Links()), name, false, 1000000, e, fallback) && (!old(dispatcher.hasThread) || write)
      ensures ok ==> !dispatcher.hasThread
      // a link that is not down stops nothing
      ensures !SetWorks(old(Links()), name, false, 1000000, e, fallback) ==> unchanged(dispatcher)
      ensures ok && !usedFallback ==> LinkName(name) in Links() && !Links()[LinkName(name)].up
    {
      ok, usedFallback := SetInterfaceState(false, 1000000, e, fallback);
      if ok {
        ok := dispatcher.Stop(write);
      }
    }
  }
}
