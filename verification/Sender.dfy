/** Sending with one reconnect and one resend (Sender.hpp). */
module Sender {
  import opened Base
  import opened CanSocket

  datatype Errno = EBADF | ENETDOWN | EPIPE | ENXIO | ENODEV | EAGAIN | EWOULDBLOCK | ENOBUFS | OtherErrno

  /** How one write() ends: the kernel accepts the whole frame, or none of it. */
  datatype Write = Accepted | Failed(errno: Errno)

  datatype SendResult = Sent | NotConnected(why: ConnectResult) | BufferFull | WriteError(errno: Errno)

  /** The system calls of one send: the first connection, a write, a reconnection, a second write. */
  datatype Outcomes = Outcomes(connect: Connect, first: Write, reconnect: Connect, second: Write)

  predicate Fatal(e: Errno)
  {
    e in {EBADF, ENETDOWN, EPIPE, ENXIO, ENODEV}
  }

  predicate Full(e: Errno)
  {
    e in {EAGAIN, EWOULDBLOCK, ENOBUFS}
  }

  /** The result of a write that was not accepted. */
  function Verdict(e: Errno): SendResult
  {
    if Full(e) then BufferFull else WriteError(e)
  }

  /** The descriptor of the first write. */
  function FirstFd(held: int, o: Outcomes): int
  {
    if held > 0 then held else FdAfter(o.connect)
  }

  /** There is a connection, and the first write on it is not accepted. */
  predicate FirstFails(held: int, o: Outcomes)
  {
    (held > 0 || o.connect.Connected?) && o.first.Failed?
  }

  class Sender {
    const kernel: Kernel
    const socket: Socket
    ghost var sent: seq<Frame>  // the frames whose send returned success
    ghost var calls: nat

    ghost predicate Valid()
      reads this, socket, kernel
    {
      && socket.kernel == kernel && socket.Valid()
      && kernel.accepted == sent
      && kernel.writes <= 2 * calls
      && kernel.opens - kernel.closes == socket.Held()
    }

    constructor (interfaceName: string, open: set<int>)
      requires forall fd :: fd in open ==> fd >= 0
      ensures Valid() && fresh(kernel) && fresh(socket) && sent == [] && calls == 0 && socket.sockFd == 0
      ensures kernel.open == open
    {
      var k := new Kernel(open);
      kernel := k;
      socket := new Socket(k, interfaceName);
      sent := [];
      calls := 0;
    }

    method DoWrite(frame: Frame, w: Write) returns (ok: bool)
      modifies kernel`writes, kernel`accepted
      ensures ok <==> w.Accepted?
      ensures kernel.writes == old(kernel.writes) + 1
      ensures kernel.accepted == old(kernel.accepted) + (if ok then [frame] else [])
    {
      kernel.writes := kernel.writes + 1;
      ok := w.Accepted?;
      if ok { kernel.accepted := kernel.accepted + [frame]; }
    }

    /**
      `send`. Valid() holds after any sequence of calls: the kernel has accepted exactly the frames whose send returned
      success, in order and once each, with at most two writes a call, and opens minus closes is 1 while a descriptor
      is held and 0 otherwise.
     */
    method Send(frame: Frame, o: Outcomes) returns (r: SendResult)
      requires Valid()
      requires socket.sockFd <= 0 ==> FreshFd(o.connect, kernel.open, socket.sockFd)
      requires var fd := if socket.sockFd <= 0 then FdAfter(o.connect) else socket.sockFd;
        var open := if socket.sockFd <= 0 && o.connect.Connected? then kernel.open + {fd} else kernel.open;
        FreshFd(o.reconnect, open, fd)
      modifies this, socket, kernel
      ensures Valid() && socket.attempted
      ensures calls == old(calls) + 1
      ensures sent == old(sent) + (if r.Sent? then [frame] else [])
      ensures kernel.writes <= old(kernel.writes) + 2
      ensures r.Sent? ==> socket.sockFd > 0
      // without a connection nothing is written
      ensures old(socket.sockFd) <= 0 && !o.connect.Connected? ==>
        r == NotConnected(ConnectStatus(o.connect)) && kernel.writes == old(kernel.writes)
      // a first write that the kernel accepts is the only one
      ensures (old(socket.sockFd) > 0 || o.connect.Connected?) && o.first.Accepted? ==>
        r == Sent && kernel.writes == old(kernel.writes) + 1 && socket.sockFd == FirstFd(old(socket.sockFd), o)
      // after one of five errors the socket is opened anew, and when that works the frame is written once more
      ensures FirstFails(old(socket.sockFd), o) && o.first.errno in {EBADF, ENETDOWN, EPIPE, ENXIO, ENODEV} ==>
        && kernel.opens == old(kernel.opens) + (if old(socket.sockFd) > 0 then 0 else 1)
                           + (if o.reconnect.NoSocket? then 0 else 1)
        && socket.sockFd == (if o.reconnect.Connected? then o.reconnect.fd else -1)
        && kernel.writes == old(kernel.writes) + (if o.reconnect.Connected? then 2 else 1)
        && r == (if !o.reconnect.Connected? then NotConnected(ConnectStatus(o.reconnect))
                 else if o.second.Accepted? then Sent
                 else if o.second.errno in {EAGAIN, EWOULDBLOCK, ENOBUFS} then BufferFull
                 else WriteError(o.second.errno))
      // after any other error the descriptor is left alone and nothing more is written
      ensures FirstFails(old(socket.sockFd), o) && o.first.errno !in {EBADF, ENETDOWN, EPIPE, ENXIO, ENODEV} ==>
        && kernel.opens == old(kernel.opens) + (if old(socket.sockFd) > 0 then 0 else 1)
        && socket.sockFd == FirstFd(old(socket.sockFd), o) && kernel.writes == old(kernel.writes) + 1
        && r == (if o.first.errno in {EAGAIN, EWOULDBLOCK, ENOBUFS} then BufferFull else WriteError(o.first.errno))
    {
      calls := calls + 1;
      if socket.sockFd <= 0 {
        var c := socket.EnsureConnected(o.connect);
        if !c.Ok? { return NotConnected(c); }
      }
      var ok := DoWrite(frame, o.first);
      if ok {
        sent := sent + [frame];
        return Sent;
      }
      var err := o.first.errno;
      if Fatal(err) {
        var c := socket.EnsureConnected(o.reconnect);
        if !c.Ok? { return NotConnected(c); }
        ok := DoWrite(frame, o.second);
        if ok {
          sent := sent + [frame];
          return Sent;
        }
        err := o.second.errno;
      }
      return Verdict(err);
    }
  }
}
