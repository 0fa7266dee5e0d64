/** The raw CAN socket and the sender that reconnects it (Socket.cpp, Socket.hpp, Sender.hpp). */
module CanSocket {
  import opened Base
  import opened Message

  /**
    The kernel's descriptor table of this process, the link each CAN socket is bound to, and its receive queue; and
    how many descriptors were opened and closed, how many frames were written, and which were accepted.
   */
  class Kernel {
    var open: set<int>
    var boundTo: map<int, string>
    var queue: map<int, seq<Frame>>
    var opens: nat
    var closes: nat
    var writes: nat
    var accepted: seq<Frame>

    constructor (open: set<int>)
      ensures this.open == open && boundTo == map[] && queue == map[]
      ensures opens == 0 && closes == 0 && writes == 0 && accepted == []
    {
      this.open := open;
      boundTo, queue, accepted := map[], map[], [];
      opens, closes, writes := 0, 0, 0;
    }

    /** close(fd): a descriptor that is not open is left alone. */
    method Close(fd: int)
      modifies this`open, this`boundTo, this`queue, this`closes
      ensures open == old(open) - {fd} && boundTo == old(boundTo) - {fd} && queue == old(queue) - {fd}
      ensures closes == old(closes) + (if fd in old(open) then 1 else 0)
    {
      if fd in open { closes := closes + 1; }
      open := open - {fd};
      boundTo := boundTo - {fd};
      queue := queue - {fd};
    }
  }

  /** How the system calls of one `ensure_connected` end. The new descriptor is one the process does not have open. */
  datatype Connect = NoSocket | NoIndex(fd: int) | NoBind(fd: int) | Connected(fd: int)

  datatype ConnectResult = Ok | CANSocketCreateError | CANInterfaceIndexError | CANSocketBindError

  function ConnectStatus(c: Connect): ConnectResult
  {
    match c
    case NoSocket => CANSocketCreateError
    case NoIndex(_) => CANInterfaceIndexError
    case NoBind(_) => CANSocketBindError
    case Connected(_) => Ok
  }

  /** `sock_fd` after an attempt. */
  function FdAfter(c: Connect): int
  {
    if c.Connected? then c.fd else -1
  }

  /** Descriptors an attempt opens. */
  function Opened(c: Connect): nat
  {
    if c.NoSocket? then 0 else 1
  }

  /** The kernel hands out a positive descriptor that is not open once the old one is closed. */
  predicate FreshFd(c: Connect, open: set<int>, old_: int)
  {
    c.NoSocket? || (c.fd > 0 && c.fd !in open - (if old_ > 0 then {old_} else {}))
  }

  /** What ends a read in `flush`: the queue ran empty, the link went down, or another error after some frames. */
  datatype FlushFault = NoFault | Down(after: nat) | Error(after: nat)

  class Socket {
    const kernel: Kernel
    var interfaceName: string
    var sockFd: int
    ghost var attempted: bool  // a connection was attempted, or the descriptor was moved in or out

    constructor (kernel: Kernel, interfaceName: string)
      ensures this.kernel == kernel && this.interfaceName == interfaceName && sockFd == 0 && !attempted
    {
      this.kernel := kernel;
      this.interfaceName := interfaceName;
      sockFd := 0;
      attempted := false;
    }

    /** The socket owns at most the descriptor in sock_fd, and never descriptor 0 once a connection was attempted. */
    ghost predicate Valid()
      reads this, kernel
    {
      && (forall fd :: fd in kernel.open ==> fd >= 0)
      && (sockFd > 0 ==> sockFd in kernel.open)
      && (attempted ==> sockFd != 0) && (sockFd > 0 ==> attempted) && sockFd >= -1
    }

    /** Descriptors the socket holds open. */
    ghost function Held(): nat
      reads this
    {
      if sockFd > 0 then 1 else 0
    }

    /** Socket.cpp:31-33: the name in the `ifreq` that the kernel is asked for. */
    method RequestedName() returns (name: string)
      ensures name == LinkName(interfaceName)
    {
      var ifr := new char[IF_NAME_SIZE](_ => '\0');
      FillIfrName(ifr, interfaceName);
      IfrReadsBack(interfaceName);
      return CString(ifr[..]);
    }

    /**
      `ensure_connected`: whatever it held is closed, and it holds a new descriptor, bound to the truncated name,
      exactly on success. Opens minus closes changes by exactly what it holds.
     */
    method EnsureConnected(c: Connect) returns (r: ConnectResult)
      requires Valid() && FreshFd(c, kernel.open, sockFd)
      modifies this, kernel
      ensures Valid() && attempted && interfaceName == old(interfaceName)
      ensures r == ConnectStatus(c) && sockFd == FdAfter(c)
      ensures kernel.open ==
        old(kernel.open) - (if old(sockFd) > 0 then {old(sockFd)} else {}) + (if r.Ok? then {sockFd} else {})
      ensures kernel.opens - kernel.closes - Held() == old(kernel.opens - kernel.closes - Held())
      ensures kernel.opens == old(kernel.opens) + Opened(c)
      ensures r.Ok? ==> sockFd in kernel.boundTo && kernel.boundTo[sockFd] == LinkName(interfaceName)
      ensures r.Ok? ==> sockFd in kernel.queue && kernel.queue[sockFd] == []
      ensures kernel.writes == old(kernel.writes) && kernel.accepted == old(kernel.accepted)
    {
      if sockFd > 0 {
        kernel.Close(sockFd);
        sockFd := -1;
      }
      attempted := true;
      if c.NoSocket? {
        sockFd := -1;
        return CANSocketCreateError;
      }
      sockFd := c.fd;
      kernel.open := kernel.open + {sockFd};
      kernel.opens := kernel.opens + 1;
      var name := RequestedName();
      if c.NoIndex? {
        kernel.Close(sockFd);
        sockFd := -1;
        return CANInterfaceIndexError;
      }
      if c.NoBind? {
        kernel.Close(sockFd);
        sockFd := -1;
        return CANSocketBindError;
      }
      kernel.boundTo := kernel.boundTo[sockFd := name];
      kernel.queue := kernel.queue[sockFd := []];
      return Ok;
    }

    /**
      `flush`: drains the receive queue in order. It succeeds when the queue is empty or the link is down; after an
      error, or with no descriptor, it fails and what it has not read stays queued. On a descriptor that is no CAN
      socket of this program (0, before any attempt) it reads somebody else's file and touches no queue.
     */
    method Flush(fault: FlushFault) returns (ok: bool, flushed: seq<Frame>)
      modifies kernel`queue
      ensures sockFd < 0 ==> !ok && flushed == [] && kernel.queue == old(kernel.queue)
      ensures sockFd >= 0 && sockFd !in old(kernel.queue) ==>
        flushed == [] && kernel.queue == old(kernel.queue) && (ok <==> !fault.Error?)
      ensures sockFd in old(kernel.queue) && sockFd >= 0 ==>
        && kernel.queue.Keys == old(kernel.queue).Keys
        && flushed + kernel.queue[sockFd] == old(kernel.queue[sockFd])
        && (ok <==> !fault.Error? || fault.after > |flushed|)
        && (ok && !fault.Down? ==> kernel.queue[sockFd] == [])
        && forall fd :: fd in kernel.queue && fd != sockFd ==> kernel.queue[fd] == old(kernel.queue)[fd]
    {
      flushed := [];
      if sockFd < 0 { return false, []; }
      if sockFd !in kernel.queue { return !fault.Error?, []; }
      while true
        invariant kernel.queue.Keys == old(kernel.queue).Keys && sockFd in kernel.queue
        invariant flushed + kernel.queue[sockFd] == old(kernel.queue[sockFd])
        invariant !fault.NoFault? ==> |flushed| <= fault.after
        invariant forall fd :: fd in kernel.queue && fd != sockFd ==> kernel.queue[fd] == old(kernel.queue)[fd]
        decreases |kernel.queue[sockFd]|
      {
        if fault.Error? && |flushed| == fault.after { return false, flushed; }
        if fault.Down? && |flushed| == fault.after { break; }
        var q := kernel.queue[sockFd];
        if q == [] { break; }
        assert q == [q[0]] + q[1..];
        flushed := flushed + [q[0]];
        kernel.queue := kernel.queue[sockFd := q[1..]];
      }
      return true, flushed;
    }

    /**
      The destructor closes sock_fd whatever it is: the socket's own descriptor, nothing, or, exactly when sock_fd is
      still 0 because no connection was ever attempted, descriptor 0 of somebody else.
     */
    method Destroy()
      requires Valid()
      modifies kernel
      ensures kernel.open == old(kernel.open) - {sockFd}
      ensures attempted ==> kernel.open == old(kernel.open) - (if sockFd > 0 then {sockFd} else {})
      ensures kernel.opens - kernel.closes == old(kernel.opens - kernel.closes) - Held() <==>
        !(sockFd == 0 && 0 in old(kernel.open))
    {
      kernel.Close(sockFd);
    }

    /** The move constructor: the descriptor changes hands, nothing is opened or closed. */
    constructor Moved(other: Socket)
      requires other.Valid()
      modifies other
      ensures kernel == other.kernel && interfaceName == other.interfaceName && sockFd == old(other.sockFd)
      ensures other.sockFd == -1 && other.Valid() && Valid()
      ensures Held() + other.Held() == old(other.Held())
    {
      kernel := other.kernel;
      interfaceName := other.interfaceName;
      sockFd := other.sockFd;
      attempted := other.attempted;
      new;
      other.sockFd := -1;
      other.attempted := true;
    }

    /** Move assignment closes what this socket held and takes over the other's descriptor. */
    method MoveAssign(other: Socket)
      requires Valid() && other.Valid() && other != this && other.kernel == kernel
      requires sockFd > 0 ==> sockFd != other.sockFd
      modifies this, other, kernel
      ensures Valid() && other.Valid()
      ensures sockFd == old(other.sockFd) && interfaceName == old(other.interfaceName) && other.sockFd == -1
      ensures kernel.open == old(kernel.open) - (if old(sockFd) > 0 then {old(sockFd)} else {})
      ensures kernel.opens - kernel.closes - Held() - other.Held()
           == old(kernel.opens - kernel.closes - Held() - other.Held())
    {
      if sockFd > 0 { kernel.Close(sockFd); }
      sockFd := other.sockFd;
      attempted := other.attempted;
      interfaceName := other.interfaceName;
      other.sockFd := -1;
      other.attempted := true;
    }
  }
}
