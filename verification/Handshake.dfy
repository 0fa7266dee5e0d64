/**
  Registration and request exchange between any number of clients and the daemon, over byte streams that may be
  cut anywhere (NetlinkClient.cpp, Daemon.cpp:54-73 and 166-201, UnixSocket.cpp:161-196).
*/
module Handshake {
  import opened Base
  import opened Naming
  import opened Message
  import Daemon = DaemonProtocol
  import DaemonInvariant
  import DaemonTheorems

  /** Bytes on a stream, as 8-bit characters. */
  type Bytes = seq<char>

  const REGISTER_REQUEST_SIZE := 4
  const REGISTER_RESPONSE_SIZE := 68
  const REQUEST_SIZE := 24
  const RESPONSE_SIZE := 264

  // ---------------------------------------------------------------- encoding

  function Byte(n: int): char { (n % 256) as char }

  /** Four bytes in memory order. */
  function WordBytes(u: Uint32): Bytes
  {
    [Byte(u), Byte(u / 256), Byte(u / 256 / 256), Byte(u / 256 / 256 / 256)]
  }

  /** A 32-bit integer in memory order. */
  function Int32(n: int): Bytes
  {
    WordBytes(n % 0x1_0000_0000)
  }

  function Octet(c: char): int { c as int % 256 }

  /** Four bytes as an unsigned integer. */
  function FromUint32(b: Bytes): Uint32
    requires |b| == 4
  {
    Octet(b[0]) + 256 * (Octet(b[1]) + 256 * (Octet(b[2]) + 256 * Octet(b[3])))
  }

  function FromInt32(b: Bytes): Pid
    requires |b| == 4
  {
    var u := FromUint32(b);
    if u >= 0x8000_0000 then u - 0x1_0000_0000 else u
  }

  lemma ByteSplit(n: nat)
    ensures Octet(Byte(n)) == n % 256 && n == n % 256 + 256 * (n / 256)
  {
  }

  lemma WordSplit(u: nat)
    requires u < 0x1_0000_0000
    ensures u / 256 < 0x100_0000 && u / 256 / 256 < 0x1_0000 && u / 256 / 256 / 256 < 0x100
  {
  }

  lemma WordRoundTrip(u: Uint32)
    ensures FromUint32(WordBytes(u)) == u
  {
    ByteSplit(u);
    ByteSplit(u / 256);
    ByteSplit(u / 256 / 256);
    ByteSplit(u / 256 / 256 / 256);
    WordSplit(u);
  }

  /** A pid read back from the bytes it was sent as is that pid. */
  lemma Int32RoundTrip(n: Pid)
    ensures FromInt32(Int32(n)) == n
  {
    WordRoundTrip(n % 0x1_0000_0000);
  }

  function RegisterResponse(result: int, pid: Pid): Bytes
  {
    Int32(result) + Field(ChannelName(pid), CHANNEL_FIELD_SIZE)
  }

  /** What `ensure_registered` makes of the bytes its recv returned: the channel name, when it accepts them. */
  function AcceptRegistration(b: Bytes): Option<string>
  {
    if |b| != REGISTER_RESPONSE_SIZE || FromInt32(b[..4]) != 0 then None else Some(CString(b[4..]))
  }

  /** The daemon's answer to a whole registration request, read by the client, is the client's own channel. */
  lemma RegistrationRoundTrip(pid: Pid)
    ensures |Int32(pid)| == REGISTER_REQUEST_SIZE && FromInt32(Int32(pid)) == pid
    ensures AcceptRegistration(RegisterResponse(0, FromInt32(Int32(pid)))) == Some(ChannelName(pid))
  {
    Int32RoundTrip(pid);
    Int32RoundTrip(0);
    ChannelNameSurvives(pid);
    var f := Field(ChannelName(pid), CHANNEL_FIELD_SIZE);
    assert |f| == CHANNEL_FIELD_SIZE by { ChannelNameLength(pid); FieldSize(ChannelName(pid)); }
    assert (Int32(0) + f)[..4] == Int32(0) && (Int32(0) + f)[4..] == f;
  }

  lemma FieldSize(src: string)
    ensures |Field(src, CHANNEL_FIELD_SIZE)| == CHANNEL_FIELD_SIZE
  {
  }

  // ---------------------------------------------------------------- connections

  /** A connection to the daemon's own socket, or to the client's channel. */
  datatype Kind = Registration | Exchange

  datatype ServerPc = Queued | Got(bytes: Bytes) | Answered | Dropped

  datatype ClientPc = Sending | Receiving | Finished

  /**
    `target` is the name of the socket the client connects to; `msg` is what the client hands to send, `sent` how much
    of it has gone out, `reply` what the server has written. `processed` and `answer` record the bytes given to
    process_request and its result; `accepted` the response the client returned to its caller.
   */
  datatype Conn = Conn(pid: Pid, kind: Kind, target: string, msg: Bytes, sent: nat, server: ServerPc, reply: Bytes,
                       client: ClientPc, processed: Option<Bytes>, answer: Option<Bytes>, accepted: Option<Bytes>)

  /** `NetlinkClient`, one thread per pid: it waits on at most one connection. */
  datatype Client = Client(registered: bool, channel: string, busy: bool)

  datatype State = State(conns: seq<Conn>, clients: map<Pid, Client>)

  datatype Action =
    | Appear(pid: Pid)
    | Connect(pid: Pid, kind: Kind, req: Bytes)
    | ClientSend(c: nat, n: nat)               // send() takes n bytes of the message
    | ServerRecv(c: nat, k: nat)               // recv() returns k bytes, 0 on timeout
    | ServerServe(c: nat, ok: bool, answer: Bytes)
    | ClientRecv(c: nat, k: nat)

  function RequestSize(kind: Kind): nat
  {
    if kind.Registration? then REGISTER_REQUEST_SIZE else REQUEST_SIZE
  }

  function ResponseSize(kind: Kind): nat
  {
    if kind.Registration? then REGISTER_RESPONSE_SIZE else RESPONSE_SIZE
  }

  predicate Enabled(s: State, a: Action)
  {
    match a
    case Appear(pid) => pid !in s.clients
    case Connect(pid, kind, req) =>
      && pid in s.clients && !s.clients[pid].busy
      && (kind.Registration? <==> !s.clients[pid].registered) && (kind.Exchange? ==> |req| == REQUEST_SIZE)
    case ClientSend(c, n) => c < |s.conns| && s.conns[c].client.Sending? && n <= |s.conns[c].msg|
    case ServerRecv(c, k) =>
      c < |s.conns| && s.conns[c].server.Queued? && k <= s.conns[c].sent && k <= RequestSize(s.conns[c].kind)
      && s.conns[c].sent <= |s.conns[c].msg|
    case ServerServe(c, _, answer) =>
      c < |s.conns| && s.conns[c].server.Got? && |answer| == RESPONSE_SIZE
      && |s.conns[c].server.bytes| == RequestSize(s.conns[c].kind)
    case ClientRecv(c, k) =>
      c < |s.conns| && s.conns[c].client.Receiving? && s.conns[c].pid in s.clients
      && k <= |s.conns[c].reply| && k <= ResponseSize(s.conns[c].kind)
  }

  /** The pid a registration request names. Any four bytes name one. */
  function RequestPid(b: Bytes): Pid
    requires |b| == REGISTER_REQUEST_SIZE
  {
    FromInt32(b)
  }

  /** What the server's thread does with the bytes of its one recv. */
  function AfterServerRecv(x: Conn, b: Bytes): Conn
  {
    x.(server := if |b| == RequestSize(x.kind) then Got(b) else Dropped)
  }

  /** handle_client_registration, or process_request, and the sending of the response; either may send nothing. */
  function AfterServe(x: Conn, ok: bool, answer: Bytes): Conn
    requires x.server.Got? && |x.server.bytes| == RequestSize(x.kind)
  {
    match x.kind
    case Registration =>
      x.(server := Answered, reply := if ok then RegisterResponse(0, RequestPid(x.server.bytes)) else [])
    case Exchange =>
      x.(server := Answered, processed := Some(x.server.bytes), answer := Some(answer),
         reply := if ok then answer else [])
  }

  function AfterClientRecv(x: Conn, b: Bytes): Conn
  {
    x.(client := Finished, accepted := if x.kind.Exchange? && |b| == RESPONSE_SIZE then Some(b) else None)
  }

  function ClientAfterRecv(cl: Client, kind: Kind, b: Bytes): Client
  {
    match kind
    case Registration =>
      (match AcceptRegistration(b)
       case Some(name) => Client(true, name, false)
       case None => cl.(busy := false))
    case Exchange => cl.(busy := false)
  }

  function Next(s: State, a: Action): State
    requires Enabled(s, a)
  {
    match a
    case Appear(pid) => s.(clients := s.clients[pid := Client(false, "", false)])
    case Connect(pid, kind, req) =>
      var msg := if kind.Registration? then Int32(pid) else req;
      var target := if kind.Registration? then DAEMON_NAME else s.clients[pid].channel;
      s.(conns := s.conns + [Conn(pid, kind, target, msg, 0, Queued, [], Sending, None, None, None)],
         clients := s.clients[pid := s.clients[pid].(busy := true)])
    case ClientSend(c, n) => s.(conns := s.conns[c := s.conns[c].(sent := n, client := Receiving)])
    case ServerRecv(c, k) => s.(conns := s.conns[c := AfterServerRecv(s.conns[c], s.conns[c].msg[..k])])
    case ServerServe(c, ok, answer) => s.(conns := s.conns[c := AfterServe(s.conns[c], ok, answer)])
    case ClientRecv(c, k) =>
      var x := s.conns[c];
      s.(conns := s.conns[c := AfterClientRecv(x, x.reply[..k])],
         clients := s.clients[x.pid := ClientAfterRecv(s.clients[x.pid], x.kind, x.reply[..k])])
  }

  ghost predicate Run(s: State, acts: seq<Action>, s': State)
    decreases |acts|
  {
    if acts == [] then s == s' else Enabled(s, acts[0]) && Run(Next(s, acts[0]), acts[1..], s')
  }

  // ---------------------------------------------------------------- invariant

  predicate ConnOk(x: Conn)
  {
    && x.target == (if x.kind.Registration? then DAEMON_NAME else ChannelName(x.pid))
    && (x.kind.Registration? ==> x.msg == Int32(x.pid)) && |x.msg| == RequestSize(x.kind) && x.sent <= |x.msg|
    && (x.server.Got? ==> x.server.bytes == x.msg)
    && (!x.server.Answered? ==> x.reply == [] && x.answer.None?)
    && (x.reply == [] || |x.reply| == ResponseSize(x.kind))
    && (x.kind.Registration? ==> x.reply == [] || x.reply == RegisterResponse(0, x.pid))
    && (x.kind.Exchange? ==> x.reply == [] || x.answer == Some(x.reply))
    && (x.processed.Some? ==> x.kind.Exchange? && x.processed.value == x.msg)
    && (x.answer.Some? ==> x.processed.Some?)
    && (x.accepted.Some? ==> x.kind.Exchange? && x.answer == x.accepted)
  }

  predicate ClientOk(pid: Pid, cl: Client)
  {
    cl.registered ==> cl.channel == ChannelName(pid)
  }

  ghost predicate Inv(s: State)
  {
    && (forall i :: 0 <= i < |s.conns| ==> ConnOk(s.conns[i]))
    && (forall pid :: pid in s.clients ==> ClientOk(pid, s.clients[pid]))
  }

  lemma RecvKeepsConn(x: Conn, k: nat)
    requires ConnOk(x) && x.server.Queued? && k <= x.sent && k <= RequestSize(x.kind)
    ensures ConnOk(AfterServerRecv(x, x.msg[..k]))
  {
    if k == |x.msg| { assert x.msg[..k] == x.msg; }
  }

  lemma ServeKeepsConn(x: Conn, ok: bool, answer: Bytes)
    requires ConnOk(x) && x.server.Got? && |answer| == RESPONSE_SIZE
    ensures ConnOk(AfterServe(x, ok, answer))
  {
    Int32RoundTrip(x.pid);
    FieldSize(ChannelName(x.pid));
  }

  lemma AcceptKeepsConn(x: Conn, k: nat)
    requires ConnOk(x) && k <= |x.reply| && k <= ResponseSize(x.kind)
    ensures ConnOk(AfterClientRecv(x, x.reply[..k]))
  {
    if k == |x.reply| { assert x.reply[..k] == x.reply; }
  }

  /** Only the client's own channel name can be accepted, and only from a whole response. */
  lemma AcceptsOwnChannel(x: Conn, cl: Client, k: nat)
    requires ConnOk(x) && ClientOk(x.pid, cl) && k <= |x.reply|
    ensures ClientOk(x.pid, ClientAfterRecv(cl, x.kind, x.reply[..k]))
  {
    if x.kind.Registration? && k == REGISTER_RESPONSE_SIZE {
      RegistrationRoundTrip(x.pid);
      assert |x.reply| == REGISTER_RESPONSE_SIZE by { FieldSize(ChannelName(x.pid)); }
      assert x.reply[..k] == x.reply;
    }
  }

  lemma StepKeepsInv(s: State, a: Action)
    requires Inv(s) && Enabled(s, a)
    ensures Inv(Next(s, a))
  {
    match a
    case ServerRecv(c, k) => RecvKeepsConn(s.conns[c], k);
    case ServerServe(c, ok, answer) => ServeKeepsConn(s.conns[c], ok, answer);
    case ClientRecv(c, k) =>
      AcceptKeepsConn(s.conns[c], k);
      AcceptsOwnChannel(s.conns[c], s.clients[s.conns[c].pid], k);
    case _ =>
  }

  lemma {:induction false} RunKeepsInv(s: State, acts: seq<Action>, s': State)
    requires Inv(s) && Run(s, acts, s')
    ensures Inv(s')
    decreases |acts|
  {
    if acts != [] {
      StepKeepsInv(s, acts[0]);
      RunKeepsInv(Next(s, acts[0]), acts[1..], s');
    }
  }

  /**
    Handshake integrity, for any number of clients, any segmentation and any timeouts: a registered client holds the
    channel name of its own pid; the bytes that reach process_request are a whole request, identical to the one that
    connection's client sent; and a response a client accepts is the result of that request.
   */
  lemma HandshakeIntegrity(acts: seq<Action>, s: State)
    requires Run(State([], map[]), acts, s)
    ensures forall pid :: pid in s.clients && s.clients[pid].registered ==> s.clients[pid].channel == ChannelName(pid)
    ensures forall i :: 0 <= i < |s.conns| && s.conns[i].processed.Some? ==>
      s.conns[i].kind.Exchange? && |s.conns[i].msg| == REQUEST_SIZE && s.conns[i].processed.value == s.conns[i].msg
    ensures forall i :: 0 <= i < |s.conns| && s.conns[i].accepted.Some? ==>
      s.conns[i].processed == Some(s.conns[i].msg) && s.conns[i].accepted == s.conns[i].answer
  {
    RunKeepsInv(State([], map[]), acts, s);
    forall pid | pid in s.clients && s.clients[pid].registered
      ensures s.clients[pid].channel == ChannelName(pid)
    {
      assert ClientOk(pid, s.clients[pid]);
    }
    forall i | 0 <= i < |s.conns| && (s.conns[i].processed.Some? || s.conns[i].accepted.Some?)
      ensures ConnOk(s.conns[i])
    {
    }
  }

  /**
    A request reaches its client's own session: while the daemon has a session for that pid, the path an exchange
    connects to is bound to the socket of that session, and to no other.
   */
  lemma RequestReachesOwnSession(acts: seq<Action>, s: State, i: nat, d: Daemon.State)
    requires Run(State([], map[]), acts, s) && i < |s.conns| && s.conns[i].kind.Exchange?
    requires Daemon.Reachable(d) && s.conns[i].pid in d.table
    ensures var x := s.conns[i];
      && SocketPath(x.target) == PathText(Channel(x.pid))
      && DaemonInvariant.Bound(d, x.pid, d.table[x.pid])
      && d.table[x.pid] < |d.heap| && d.heap[d.table[x.pid]].pid == x.pid
      && forall p :: p in d.paths && PathText(p) == SocketPath(x.target) ==>
           d.paths[p] == Daemon.SessionSock(d.table[x.pid])
  {
    RunKeepsInv(State([], map[]), acts, s);
    var x := s.conns[i];
    assert ConnOk(x);
    DaemonTheorems.PathOwnership(d, x.pid);
    DaemonInvariant.ReachableInv(d);
    forall p | p in d.paths && PathText(p) == SocketPath(x.target)
      ensures d.paths[p] == Daemon.SessionSock(d.table[x.pid])
    {
      PathTextInjective(p, Channel(x.pid));
    }
  }

  // ---------------------------------------------------------------- what a run sends and answers

  /** The connection's owner and kind, the bytes its client hands to send, and the answer it was given. */
  predicate IsFor(x: Conn, pid: Pid, kind: Kind, req: Bytes)
  {
    x.pid == pid && x.kind == kind && x.msg == (if kind.Registration? then Int32(pid) else req)
  }

  /** The answer of process_request that a run gives on connection i, if it gives one. */
  function AnswerIn(acts: seq<Action>, i: nat): Option<Bytes>
  {
    if acts == [] then None
    else
      var later := AnswerIn(acts[1..], i);
      if later.Some? then later else if acts[0].ServerServe? && acts[0].c == i then Some(acts[0].answer) else None
  }

  /** The connections a run makes, in order. */
  function ConnectsIn(acts: seq<Action>): seq<(Pid, Kind, Bytes)>
  {
    if acts == [] then []
    else (if acts[0].Connect? then [(acts[0].pid, acts[0].kind, acts[0].req)] else []) + ConnectsIn(acts[1..])
  }

  lemma StepOnConn(s: State, a: Action, i: nat)
    requires Enabled(s, a)
    ensures |Next(s, a).conns| == |s.conns| + (if a.Connect? then 1 else 0)
    ensures i < |s.conns| ==>
      var x, y := s.conns[i], Next(s, a).conns[i];
      && y.pid == x.pid && y.kind == x.kind && y.msg == x.msg
      && y.answer == (if a.ServerServe? && a.c == i && x.kind.Exchange? then Some(a.answer) else x.answer)
    ensures a.Connect? && i == |s.conns| ==> IsFor(Next(s, a).conns[i], a.pid, a.kind, a.req)
    ensures a.Connect? && i == |s.conns| ==> Next(s, a).conns[i].answer == None
  {
  }

  /** A connection keeps its owner, its kind and its message, and its answer is the last it was given. */
  lemma {:induction false} ConnOverRun(s: State, acts: seq<Action>, s': State, i: nat)
    requires Run(s, acts, s') && i < |s.conns|
    ensures i < |s'.conns|
    ensures var x, y := s.conns[i], s'.conns[i];
      && y.pid == x.pid && y.kind == x.kind && y.msg == x.msg
      && (x.kind.Exchange? ==> y.answer == (if AnswerIn(acts, i).Some? then AnswerIn(acts, i) else x.answer))
    decreases |acts|
  {
    if acts != [] {
      StepOnConn(s, acts[0], i);
      ConnOverRun(Next(s, acts[0]), acts[1..], s', i);
    }
  }

  /**
    The i-th connection of a run carries exactly the request the i-th client to connect makes of it, and the answer
    recorded on it is one that the run gave on that connection.
   */
  lemma {:induction false} ConnsOfRun(s: State, acts: seq<Action>, s': State, i: nat)
    requires Run(s, acts, s')
    ensures |s'.conns| == |s.conns| + |ConnectsIn(acts)|
    ensures |s.conns| <= i < |s'.conns| ==>
      var (pid, kind, req) := ConnectsIn(acts)[i - |s.conns|];
      && IsFor(s'.conns[i], pid, kind, req)
      && (kind.Exchange? && s'.conns[i].answer.Some? ==> s'.conns[i].answer == AnswerIn(acts, i))
    decreases |acts|
  {
    if acts != [] {
      var t := Next(s, acts[0]);
      StepOnConn(s, acts[0], i);
      ConnsOfRun(t, acts[1..], s', i);
      if acts[0].Connect? && i == |s.conns| {
        ConnOverRun(t, acts[1..], s', i);
      }
    }
  }

  /** A response a client accepts is the result given on its own connection, to the request it made there. */
  lemma AcceptedIsAnswered(acts: seq<Action>, s: State, i: nat)
    requires Run(State([], map[]), acts, s) && i < |s.conns| && s.conns[i].accepted.Some?
    ensures i < |ConnectsIn(acts)| && ConnectsIn(acts)[i].1 == Exchange && ConnectsIn(acts)[i].0 == s.conns[i].pid
    ensures s.conns[i].processed == Some(ConnectsIn(acts)[i].2)
    ensures s.conns[i].accepted == AnswerIn(acts, i)
  {
    HandshakeIntegrity(acts, s);
    ConnsOfRun(State([], map[]), acts, s, i);
    RunKeepsInv(State([], map[]), acts, s);
    assert ConnOk(s.conns[i]);
  }

  // ---------------------------------------------------------------- requests and responses in memory

  function Flag(b: bool): char { if b then '\U{1}' else '\U{0}' }

  /** `NetlinkRequest`: three bytes, one of padding, the bitrate and the name. */
  function RequestBytes(op: char, up: bool, setBitrate: bool, bitrate: Uint32, name: string): Bytes
  {
    [op, Flag(up), Flag(setBitrate), '\0'] + WordBytes(bitrate) + Field(name, IF_NAME_SIZE)
  }

  lemma NameFieldSize(name: string)
    ensures |Field(name, IF_NAME_SIZE)| == 16
  {
  }

  /** A request is 24 bytes, from which the daemon reads back what the client put in. */
  lemma RequestRoundTrip(op: char, up: bool, setBitrate: bool, bitrate: Uint32, name: string)
    ensures var b := RequestBytes(op, up, setBitrate, bitrate, name);
      && |b| == REQUEST_SIZE == 24
      && b[0] == op && (b[1] != '\0' <==> up) && (b[2] != '\0' <==> setBitrate)
      && FromUint32(b[4..8]) == bitrate && CString(b[8..]) == LinkName(name)
  {
    var b := RequestBytes(op, up, setBitrate, bitrate, name);
    WordRoundTrip(bitrate);
    NameFieldSize(name);
    FieldReadsBack(name, IF_NAME_SIZE);
    assert b[4..8] == WordBytes(bitrate) && b[8..] == Field(name, IF_NAME_SIZE);
  }

  /** `NetlinkResponse`: the result, two flags, the message, and padding to a multiple of four. */
  function ResponseBytes(result: Pid, exists_: bool, isUp: bool, message: string): Bytes
  {
    Int32(result) + [Flag(exists_), Flag(isUp)] + Field(message, 256) + ['\0', '\0']
  }

  lemma MessageFieldSize(message: string)
    ensures |Field(message, 256)| == 256
  {
  }

  /** A response is 264 bytes, from which the client reads back the result and the flags. */
  lemma ResponseRoundTrip(result: Pid, exists_: bool, isUp: bool, message: string)
    ensures var b := ResponseBytes(result, exists_, isUp, message);
      && |b| == RESPONSE_SIZE == 264
      && FromInt32(b[..4]) == result && (b[4] != '\0' <==> exists_) && (b[5] != '\0' <==> isUp)
  {
    var b := ResponseBytes(result, exists_, isUp, message);
    Int32RoundTrip(result);
    MessageFieldSize(message);
    assert b[..4] == Int32(result);
  }

  // ---------------------------------------------------------------- the client class

  /**
    How the system calls of one exchange end: connect, send, and the bytes recv returned (none on timeout or error).
   */
  datatype Exchanged = Exchanged(connected: bool, sent: int, received: Bytes)

  class NetlinkClient {
    var registered: bool
    var channelName: string
    ghost var dialled: seq<string>  // the socket paths it tried to connect to

    constructor ()
      ensures !registered && channelName == "" && dialled == []
    {
      registered := false;
      channelName := "";
      dialled := [];
    }

    /** The client as the step system sees it between two exchanges. */
    ghost function Abstract(): Client
      reads this
    {
      Client(registered, channelName, false)
    }

    /**
      `ensure_registered`: a registered client does nothing; otherwise only a whole response with result 0 registers it,
      and a failure leaves it as it was.
     */
    method EnsureRegistered(e: Exchanged) returns (ok: bool)
      modifies this
      ensures ok <==> registered
      ensures old(registered) ==> Abstract() == old(Abstract())
      ensures !old(registered) && e.connected && e.sent >= 0 ==>
        Abstract() == ClientAfterRecv(old(Abstract()), Registration, e.received)
      ensures !old(registered) && !(e.connected && e.sent >= 0) ==> Abstract() == old(Abstract())
      ensures dialled == old(dialled) + (if old(registered) then [] else [SocketPath(DAEMON_NAME)])
    {
      if registered { return true; }
      dialled := dialled + [SocketPath(DAEMON_NAME)];
      if !e.connected { return false; }
      if e.sent < 0 { return false; }
      if |e.received| != REGISTER_RESPONSE_SIZE { return false; }
      if FromInt32(e.received[..4]) != 0 { return false; }
      channelName := CString(e.received[4..]);
      registered := true;
      return true;
    }

    /**
      `send_request`: it connects to the channel the client holds, and a response is returned only when the client is
      registered and recv returned a whole one.
     */
    method SendRequest(reg: Exchanged, e: Exchanged) returns (response: Option<Bytes>)
      modifies this
      ensures response.Some? <==> registered && e.connected && e.sent >= 0 && |e.received| == RESPONSE_SIZE
      ensures response.Some? ==> response.value == e.received
      ensures old(registered) ==> Abstract() == old(Abstract())
      ensures dialled == old(dialled) + (if old(registered) then [] else [SocketPath(DAEMON_NAME)])
                       + (if registered then [SocketPath(channelName)] else [])
    {
      var ok := EnsureRegistered(reg);
      if !ok { return None; }
      dialled := dialled + [SocketPath(channelName)];
      if !e.connected { return None; }
      if e.sent < 0 { return None; }
      if |e.received| != RESPONSE_SIZE { return None; }
      return Some(e.received);
    }
  }
}
