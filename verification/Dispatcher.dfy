/**
  The dispatcher object as its own methods see it, one call at a time: descriptors, epoll set, thread handle and the
  loop over one batch of events (Dispatcher.cpp). Interleavings of these with the reaper thread are the step system
  of module Reaper.
 */
module Dispatcher {
  import opened Base
  import opened CanSocket
  import Callbacks = CallbackTable

  class Dispatcher {
    const kernel: Kernel
    const socket: Socket
    const callbacks: Callbacks.Callbacks
    const eventFd: int
    var epoll: set<int>
    var counter: nat     // of the eventfd
    var hasThread: bool  // reap_thread.joinable()
    var stopRequested: bool
    ghost var dispatched: seq<Dispatch>

    /** epoll watches the eventfd and at most the current socket; the eventfd is open and is not the socket. */
    ghost predicate Valid()
      reads this, socket, kernel, callbacks
    {
      && socket.kernel == kernel && socket.Valid() && callbacks.Valid()
      && eventFd > 0 && eventFd in kernel.open && socket.sockFd != eventFd
      && eventFd in epoll && epoll <= {eventFd} + (if socket.sockFd > 0 then {socket.sockFd} else {})
    }

    constructor (interfaceName: string, kernel: Kernel, eventFd: int)
      requires eventFd > 0 && eventFd in kernel.open && forall fd :: fd in kernel.open ==> fd >= 0
      ensures Valid() && fresh(socket) && fresh(callbacks) && fresh(callbacks.funcs) && fresh(callbacks.lock_)
      ensures this.kernel == kernel && this.eventFd == eventFd && socket.interfaceName == interfaceName
      ensures epoll == {eventFd} && counter == 0 && !hasThread && !stopRequested && dispatched == []
      ensures socket.sockFd == 0 && !callbacks.lock_.locked
    {
      this.kernel := kernel;
      socket := new Socket(kernel, interfaceName);
      callbacks := new Callbacks.Callbacks();
      this.eventFd := eventFd;
      epoll := {eventFd};
      counter := 0;
      hasThread, stopRequested := false, false;
      dispatched := [];
    }

    /**
      `start`: success leaves a connected socket, drained unless its link is down, exactly the eventfd and that socket
      in the epoll set, and a joinable thread, new only when there was none. Any failure leaves the thread as it was.
     */
    method Start(c: Connect, add: bool, early: seq<Frame>, flush: FlushFault) returns (ok: bool)
      requires Valid() && FreshFd(c, kernel.open, socket.sockFd)
      modifies this`epoll, this`hasThread, this`stopRequested, socket, kernel
      ensures Valid()
      ensures ok <==> c.Connected? && add && (!flush.Error? || flush.after > |early|)
      ensures ok && !flush.Down? ==>
        socket.sockFd in kernel.queue && kernel.queue[socket.sockFd] == []
      ensures ok ==> socket.sockFd > 0 && epoll == {eventFd, socket.sockFd} && hasThread
      ensures ok ==> socket.sockFd in kernel.boundTo
      ensures ok ==> kernel.boundTo[socket.sockFd] == Message.LinkName(socket.interfaceName)
      ensures !ok ==> hasThread == old(hasThread)
      ensures socket.interfaceName == old(socket.interfaceName)
      ensures stopRequested == (if ok && !old(hasThread) then false else old(stopRequested))
    {
      // closing the old descriptor takes it out of the epoll set
      epoll := epoll - (if socket.sockFd > 0 then {socket.sockFd} else {});
      var r := socket.EnsureConnected(c);
      if !r.Ok? { return false; }
      if !add { return false; }
      epoll := epoll + {socket.sockFd};
      kernel.queue := kernel.queue[socket.sockFd := early];
      var drained, _ := socket.Flush(flush);
      if !drained { return false; }
      if !hasThread {
        hasThread := true;
        stopRequested := false;
      }
      return true;
    }

    /**
      `stop`: with no thread it does nothing. Otherwise it requests the stop and adds one to the eventfd; it joins
      when the write succeeded, and nothing reads the eventfd back: the counter keeps the write.
     */
    method Stop(write: bool) returns (ok: bool)
      requires Valid()
      modifies this`hasThread, this`stopRequested, this`counter
      ensures Valid()
      ensures ok <==> !old(hasThread) || write
      ensures ok ==> !hasThread
      ensures !ok ==> hasThread && stopRequested && counter == old(counter)
      ensures counter == old(counter) + (if old(hasThread) && write then 1 else 0)
      ensures !old(hasThread) ==> stopRequested == old(stopRequested)
    {
      if hasThread {
        stopRequested := true;
        if !write { return false; }
        counter := counter + 1;
        hasThread := false;
      }
      return true;
    }

    ghost function Table(): Callbacks.Table
      reads callbacks, callbacks.funcs
      requires callbacks.Valid()
    {
      callbacks.Entries()
    }

    /** Lines 173-177: runs the callback registered for a frame, if there is one. */
    method Deliver(frame: Frame)
      requires Valid() && !callbacks.lock_.locked && frame.id < MAX_ID
      modifies this`dispatched, callbacks.lock_
      ensures !callbacks.lock_.locked && Table() == old(Table())
      ensures dispatched == old(dispatched) + [Dispatch(frame, Callbacks.Lookup(Table(), frame.id))]
    {
      var seen := callbacks.Dispatch(frame.id);
      dispatched := dispatched + [Dispatch(frame, seen)];
    }

    /** How a batch stands. */
    ghost function Found(end: BatchEnd): Round
      reads this, socket, kernel
      requires socket.sockFd in kernel.queue
    {
      Round(end, counter, kernel.queue[socket.sockFd], dispatched)
    }

    /** Lines 142-178: one report. */
    method HandleOne(fd: int) returns (end: BatchEnd)
      requires Valid() && !callbacks.lock_.locked
      requires fd == eventFd || fd == socket.sockFd
      requires socket.sockFd in kernel.queue && (fd == eventFd ==> counter > 0)
      modifies this`dispatched, this`counter, kernel`queue, callbacks.lock_
      ensures Valid() && !callbacks.lock_.locked && kernel.queue.Keys == old(kernel.queue).Keys
      ensures Found(end) == HandleReport(old(Found(AllHandled)), fd == eventFd, stopRequested, Table())
      ensures Table() == old(Table())
    {
      if fd == eventFd && stopRequested { return StopFound; }
      var frame := CounterFrame(counter);
      if fd == eventFd {
        counter := 0;
      } else {
        var q := kernel.queue[fd];
        if q == [] { return AllHandled; }
        frame := q[0];
        kernel.queue := kernel.queue[fd := q[1..]];
      }
      if frame.id >= MAX_ID { return OutOfTable; }
      Deliver(frame);
      return AllHandled;
    }

    /**
      The loop over one batch (lines 141-180), in which epoll reports each descriptor at most once: it handles the
      reports in their order until one of them ends it.
     */
    method HandleBatch(events: seq<int>) returns (end: BatchEnd)
      requires Valid() && socket.sockFd > 0 && socket.sockFd in kernel.queue && !callbacks.lock_.locked
      requires Batch(events) && forall i :: 0 <= i < |events| ==> events[i] == eventFd || events[i] == socket.sockFd
      requires eventFd in events ==> counter > 0
      modifies this`dispatched, this`counter, kernel`queue, callbacks.lock_
      ensures Valid() && !callbacks.lock_.locked && kernel.queue.Keys == old(kernel.queue).Keys
      ensures Found(end) == HandleFrom(old(Found(AllHandled)), events, 0, eventFd, stopRequested, Table())
      ensures Table() == old(Table())
    {
      var i := 0;
      end := AllHandled;
      while i < |events| && end == AllHandled
        invariant i <= |events|
        invariant Valid() && !callbacks.lock_.locked && kernel.queue.Keys == old(kernel.queue).Keys
        invariant Table() == old(Table())
        invariant HandleFrom(Found(end), events, i, eventFd, stopRequested, Table())
               == HandleFrom(old(Found(AllHandled)), events, 0, eventFd, stopRequested, Table())
        invariant forall j :: i <= j < |events| && events[j] == eventFd ==> counter > 0 || end != AllHandled
        decreases |events| - i
      {
        end := HandleOne(events[i]);
        i := i + 1;
      }
    }
  }

  /** A frame that was dispatched, and the callback it ran. */
  datatype Dispatch = Dispatch(frame: Frame, seen: Option<Callbacks.Func>)

  /** A batch under way: how it stands, what is left of the counter and the queue, and what was dispatched. */
  datatype Round = Round(end: BatchEnd, counter: nat, queue: seq<Frame>, dispatched: seq<Dispatch>)

  /** What the frames at the head of a queue, or of the counter, come to when they are dispatched with a table. */
  function Dispatches(frames: seq<Frame>, t: Callbacks.Table): (d: seq<Dispatch>)
    ensures |d| == |frames|
  {
    seq(|frames|, i requires 0 <= i < |frames| => Dispatch(frames[i], Callbacks.Lookup(t, frames[i].id)))
  }

  /**
    One report. The eventfd's ends the batch when a stop was requested. Otherwise it gives the counter, which it drains;
    the socket's gives the head of its queue, if there is one. What was read is dispatched, unless its can_id is past
    the table.
   */
  function HandleReport(r: Round, ofEvent: bool, stop: bool, t: Callbacks.Table): Round
  {
    if ofEvent then
      var end := EventEnd(stop, r.counter);
      Round(end, if stop then r.counter else 0, r.queue,
            r.dispatched + Dispatches(if end == AllHandled then [CounterFrame(r.counter)] else [], t))
    else
      var end := SocketEnd(r.queue);
      Round(end, r.counter, Rest(r.queue), r.dispatched + Dispatches(Heads(r.queue, end == AllHandled), t))
  }

  /** The reports from position i on, until one of them ends the batch. */
  function HandleFrom(r: Round, events: seq<int>, i: nat, eventFd: int, stop: bool, t: Callbacks.Table): Round
    decreases |events| - i
  {
    if i >= |events| || r.end != AllHandled then r
    else HandleFrom(HandleReport(r, events[i] == eventFd, stop, t), events, i + 1, eventFd, stop, t)
  }

  /** What a batch of the eventfd and the socket comes to, in either order. */
  lemma BatchOutcome(counter: nat, q: seq<Frame>, stop: bool, events: seq<int>, eventFd: int, t: Callbacks.Table)
    requires |events| == 2 && (events[0] == eventFd <==> events[1] != eventFd)
    ensures var r := HandleFrom(Round(AllHandled, counter, q, []), events, 0, eventFd, stop, t);
      var eventFirst := events[0] == eventFd;
      var word := counter % 0x1_0000_0000;
      var frame, head := Frame(word, counter / 0x1_0000_0000), if q == [] then [] else [q[0]];
      var badFrame, badCounter := q != [] && q[0].id >= 2048, !stop && word >= 2048;
      // it ends at the first report that ends it
      && (r.end == StopFound <==> stop && (eventFirst || !badFrame))
      && (r.end == OutOfTable <==> if eventFirst then badCounter || (!stop && badFrame) else badFrame || badCounter)
      // a stop leaves the counter, and anything else that reaches the eventfd drains it
      && r.counter == (if !stop && (eventFirst || !badFrame) then 0 else counter)
      // at most the head of the queue is read, and never after the end
      && r.queue == (if q == [] || (eventFirst && (stop || badCounter)) then q else q[1..])
      // in the order of the reports
      && (r.end == AllHandled ==> r.dispatched == Dispatches(if eventFirst then [frame] + head else head + [frame], t))
      && (r.end == StopFound ==> r.dispatched == Dispatches(if eventFirst then [] else head, t))
  {
    assert q != [] ==> q[..1] == [q[0]];
    var r1 := HandleReport(Round(AllHandled, counter, q, []), events[0] == eventFd, stop, t);
    if r1.end == AllHandled {
      var r2 := HandleReport(r1, events[1] == eventFd, stop, t);
      assert HandleFrom(r1, events, 1, eventFd, stop, t) == HandleFrom(r2, events, 2, eventFd, stop, t) == r2;
    }
  }

  /** What a report of the eventfd leads to. */
  function EventEnd(stopRequested: bool, counter: nat): BatchEnd
  {
    if stopRequested then StopFound else if CounterFrame(counter).id >= MAX_ID then OutOfTable else AllHandled
  }

  /** What a report of the socket leads to. */
  function SocketEnd(q: seq<Frame>): BatchEnd
  {
    if q != [] && q[0].id >= MAX_ID then OutOfTable else AllHandled
  }

  /** How a batch ends: all reports handled, at the eventfd after a stop request, or by indexing past the table. */
  datatype BatchEnd = AllHandled | StopFound | OutOfTable

  /** What epoll_wait can return for two watched descriptors. */
  predicate Batch(events: seq<int>)
  {
    |events| <= 2 && (|events| == 2 ==> events[0] != events[1])
  }

  /** What one report of the socket reads from its queue. */
  function Heads(q: seq<Frame>, reported: bool): seq<Frame>
  {
    if reported && q != [] then q[..1] else []
  }

  /** What it leaves there. */
  function Rest(q: seq<Frame>): seq<Frame>
  {
    if q == [] then [] else q[1..]
  }
}
