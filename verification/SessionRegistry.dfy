/**
  The daemon's critical sections on its session map, as its own loops perform them: registration, the cleanup pass
  and the final sweep (Daemon.cpp:102-156, 221-246, 250-264).
 */
module SessionRegistry {
  import opened Base
  import opened Naming
  import UnixSocket
  import opened DaemonProtocol

  /** A `ClientSession`; its socket is the path it listens on. */
  datatype Client = Client(path: Path, hasThread: bool, joined: bool, lastActivity: int, running: bool)
  {
    /** Told to stop, and with no thread left to join. */
    predicate Stopped() { !running && (hasThread ==> joined) }
  }

  /** Sets running to false and joins the worker thread, when there is one. */
  function StopAndJoin(x: Client): (y: Client)
    ensures y.Stopped() && y.path == x.path && y.lastActivity == x.lastActivity
  {
    x.(running := false, joined := x.hasThread)
  }

  /** What the cleanup loop reads of each session: its stored activity, and whether its process is alive. */
  function Readings(sessions: map<Pid, Client>, alive: set<Pid>): map<Pid, Seen>
  {
    map p | p in sessions :: Seen(sessions[p].lastActivity, p in alive)
  }

  function AllStopped(sessions: map<Pid, Client>): map<Pid, Client>
  {
    map p | p in sessions :: StopAndJoin(sessions[p])
  }

  /** The paths of some pids' channels. */
  function ChannelPaths(pids: set<Pid>): set<string>
  {
    set p | p in pids :: PathText(Channel(p))
  }

  /** Removing one more key. */
  lemma MinusOneMore<K, V>(m: map<K, V>, gone: set<K>, k: K)
    ensures m - gone - {k} == m - (gone + {k})
  {
    assert (m - gone - {k}).Keys == (m - (gone + {k})).Keys;
  }

  /** What is missing from a map that lost some of its keys. */
  lemma MissingKeys<K, V>(m: map<K, V>, gone: set<K>)
    requires gone <= m.Keys
    ensures m.Keys - (m - gone).Keys == gone
  {
  }

  /** A map without its expired sessions is its survivors. */
  lemma RestSurvives<T>(m: map<Pid, T>, gone: set<Pid>, seen: map<Pid, Seen>, now: int)
    requires m.Keys == seen.Keys
    requires forall p :: p in gone <==> p in m && Expired(seen[p], now)
    ensures m - gone == Survivors(m, seen, now)
  {
    assert (m - gone).Keys == Survivors(m, seen, now).Keys;
  }

  /** Erasing one more session unlinks one more path. */
  lemma OnePathMore(m: map<string, int>, gone: set<Pid>, pid: Pid)
    ensures m - ChannelPaths(gone) - {PathText(Channel(pid))} == m - ChannelPaths(gone + {pid})
  {
    assert ChannelPaths(gone + {pid}) == ChannelPaths(gone) + {PathText(Channel(pid))};
  }

  /** Every session is bound to the path of its own pid. */
  ghost predicate AllBound(sessions: map<Pid, Client>, bound: map<string, int>)
  {
    forall p :: p in sessions ==> sessions[p].path == Channel(p) && PathText(Channel(p)) in bound
  }

  /** Binding or unbinding one pid's path leaves those of the others bound. */
  lemma OthersStayBound(sessions: map<Pid, Client>, bound: map<string, int>, pid: Pid, fd: int)
    requires AllBound(sessions, bound) && pid !in sessions
    ensures AllBound(sessions, bound - {PathText(Channel(pid))})
    ensures AllBound(sessions, bound[PathText(Channel(pid)) := fd])
  {
    forall p | p in sessions ensures PathText(Channel(p)) != PathText(Channel(pid)) {
      PathTextInjective(Channel(p), Channel(pid));
    }
  }

  lemma OneMoreBound(sessions: map<Pid, Client>, bound: map<string, int>, pid: Pid, x: Client)
    requires AllBound(sessions, bound) && x.path == Channel(pid) && PathText(Channel(pid)) in bound
    ensures AllBound(sessions[pid := x], bound)
  {
  }

  class Registry {
    const dir: UnixSocket.RunDirectory
    var sessions: map<Pid, Client>
    ghost var destroyed: map<Pid, Client>  // sessions as their destructor last found them

    /** Every session in the map is bound to the path of its own pid, and none was destroyed with a thread to join. */
    ghost predicate Valid()
      reads this, dir
    {
      && AllBound(sessions, dir.bound)
      && (forall p :: p in destroyed ==> destroyed[p].Stopped())
    }

    constructor (dir: UnixSocket.RunDirectory)
      ensures this.dir == dir && sessions == map[] && destroyed == map[] && Valid()
    {
      this.dir := dir;
      sessions := map[];
      destroyed := map[];
    }

    /** Daemon.cpp:124-130: binds and listens on the channel's path of a new pid, or leaves it unbound. */
    method OpenChannel(pid: Pid, o: UnixSocket.Init) returns (ok: bool)
      modifies dir
      ensures ok <==> o.fd != -1 && o.bind && o.listen
      ensures ok ==> dir.bound == old(dir.bound)[PathText(Channel(pid)) := o.fd]
      ensures !ok ==> dir.bound == old(dir.bound) - {PathText(Channel(pid))}
    {
      PathTextInjective(Channel(pid), Channel(pid));
      var socket := new UnixSocket.Socket(dir, ChannelName(pid), UnixSocket.SERVER);
      ok := socket.Initialize(o);
      if !ok { socket.Close(); }
    }

    /** Daemon.cpp:132-138: the session of a bound channel enters the map, with its thread when that can be created. */
    method Publish(pid: Pid, now: int, spawn: bool)
      requires Valid() && PathText(Channel(pid)) in dir.bound
      modifies this`sessions
      ensures Valid() && sessions == old(sessions)[pid := Client(Channel(pid), spawn, false, now, true)]
    {
      var x := Client(Channel(pid), false, false, now, true);
      OneMoreBound(sessions, dir.bound, pid, x);
      sessions := sessions[pid := x];
      if spawn {
        OneMoreBound(sessions, dir.bound, pid, x.(hasThread := true));
        sessions := sessions[pid := x.(hasThread := true)];
      }
    }

    /** Daemon.cpp:118-140: a new pid's session, bound to its own path; none when initialisation fails. */
    method AddSession(pid: Pid, now: int, o: UnixSocket.Init, spawn: bool) returns (ok: bool)
      requires Valid() && pid !in sessions
      modifies this`sessions, dir
      ensures Valid()
      ensures ok <==> o.fd != -1 && o.bind && o.listen && spawn
      ensures o.fd != -1 && o.bind && o.listen ==>
        && sessions == old(sessions)[pid := Client(Channel(pid), spawn, false, now, true)]
        && dir.bound == old(dir.bound)[PathText(Channel(pid)) := o.fd]
      ensures !(o.fd != -1 && o.bind && o.listen) ==>
        sessions == old(sessions) && dir.bound == old(dir.bound) - {PathText(Channel(pid))}
    {
      OthersStayBound(sessions, dir.bound, pid, o.fd);
      ok := OpenChannel(pid, o);
      if !ok { return; }
      Publish(pid, now, spawn);
      ok := spawn;
    }

    /**
      `handle_client_registration`: a known pid only has its activity renewed. A new pid gets a session bound to its own
      path unless initialisation fails, in which case nothing is left of it; when the thread cannot be created the
      session stays and no reply is sent. Every reply carries result 0 and the pid's own channel name.
     */
    method HandleClientRegistration(pid: Pid, now: int, o: UnixSocket.Init, spawn: bool) returns (reply: Option<string>)
      requires Valid()
      modifies this`sessions, dir
      ensures Valid()
      ensures reply.Some? ==> reply.value == ChannelName(pid)
      ensures reply.Some? <==> pid in old(sessions) || (o.fd != -1 && o.bind && o.listen && spawn)
      ensures pid in old(sessions) ==>
        sessions == old(sessions)[pid := old(sessions)[pid].(lastActivity := now)] && dir.bound == old(dir.bound)
      ensures pid !in old(sessions) && o.fd != -1 && o.bind && o.listen ==>
        && sessions == old(sessions)[pid := Client(Channel(pid), spawn, false, now, true)]
        && dir.bound == old(dir.bound)[PathText(Channel(pid)) := o.fd]
      ensures pid !in old(sessions) && !(o.fd != -1 && o.bind && o.listen) ==>
        sessions == old(sessions) && dir.bound == old(dir.bound) - {PathText(Channel(pid))}
    {
      if pid in sessions {
        sessions := sessions[pid := sessions[pid].(lastActivity := now)];
      } else {
        var ok := AddSession(pid, now, o, spawn);
        if !ok { return None; }
      }
      return Some(ChannelName(pid));
    }

    /** Takes pid's session out of the map and destroys it: its socket's destructor unlinks the path. */
    method Erase(pid: Pid)
      requires Valid() && pid in sessions && sessions[pid].Stopped()
      modifies this, dir
      ensures Valid()
      ensures sessions == old(sessions) - {pid} && destroyed == old(destroyed)[pid := old(sessions)[pid]]
      ensures dir.bound == old(dir.bound) - {PathText(Channel(pid))}
    {
      OthersStayBound(sessions - {pid}, dir.bound, pid, 0);
      destroyed := destroyed[pid := sessions[pid]];
      dir.bound := dir.bound - {PathText(sessions[pid].path)};
      sessions := sessions - {pid};
    }

    /** Sets one session's flag and joins its worker. */
    method StopOne(pid: Pid)
      requires Valid() && pid in sessions
      modifies this`sessions
      ensures Valid() && sessions == old(sessions)[pid := StopAndJoin(old(sessions)[pid])]
    {
      sessions := sessions[pid := StopAndJoin(sessions[pid])];
    }

    /** What the cleanup thread does with one expired session. */
    method StopAndErase(pid: Pid)
      requires Valid() && pid in sessions
      modifies this, dir
      ensures Valid() && sessions == old(sessions) - {pid} && destroyed.Keys == old(destroyed).Keys + {pid}
      ensures dir.bound == old(dir.bound) - {PathText(Channel(pid))}
    {
      sessions := sessions[pid := StopAndJoin(sessions[pid])];
      Erase(pid);
    }

    /**
      One pass of `session_cleanup_worker`, erasing while it iterates: of the sessions it found it leaves exactly those
      that were neither dead nor idle for more than five minutes when it read them, unchanged; it unlinks the paths
      of the others and no other path, and destroys each only after stopping it and joining its worker.
     */
    method CleanupPass(now: int, alive: set<Pid>)
      requires Valid()
      modifies this, dir
      ensures Valid()
      ensures sessions == Survivors(old(sessions), Readings(old(sessions), alive), now)
      ensures forall p :: p in old(sessions) ==>
        (p in sessions <==> p in alive && now - old(sessions)[p].lastActivity <= 300)
      ensures dir.bound == old(dir.bound) - ChannelPaths(old(sessions).Keys - sessions.Keys)
      ensures old(sessions).Keys - sessions.Keys <= destroyed.Keys
    {
      ghost var start, gone, seen := sessions, {}, Readings(sessions, alive);
      var todo := sessions.Keys;
      while todo != {}
        invariant Valid()
        invariant todo <= sessions.Keys && sessions == start - gone
        invariant forall p :: p in gone <==> p in start && p !in todo && Expired(seen[p], now)
        invariant dir.bound == old(dir.bound) - ChannelPaths(gone)
        invariant gone <= destroyed.Keys
      {
        var pid :| pid in todo;
        todo := todo - {pid};
        if Expired(Seen(sessions[pid].lastActivity, pid in alive), now) {
          MinusOneMore(start, gone, pid);
          OnePathMore(old(dir.bound), gone, pid);
          StopAndErase(pid);
          gone := gone + {pid};
        }
      }
      RestSurvives(start, gone, seen, now);
      MissingKeys(start, gone);
    }

    /** The first loop of `cleanup_sessions`: stops every session and joins its worker. */
    method StopAll()
      requires Valid()
      modifies this`sessions
      ensures Valid() && sessions == AllStopped(old(sessions))
    {
      ghost var start := sessions;
      var todo := sessions.Keys;
      while todo != {}
        invariant Valid() && todo <= start.Keys && sessions.Keys == start.Keys
        invariant forall p :: p in start ==> sessions[p] == (if p in todo then start[p] else StopAndJoin(start[p]))
      {
        var pid :| pid in todo;
        StopOne(pid);
        todo := todo - {pid};
      }
      assert sessions == AllStopped(start);
    }

    /** The second loop of `cleanup_sessions`, and of a map's destructor. */
    method EraseAll()
      requires Valid() && forall p :: p in sessions ==> sessions[p].Stopped()
      modifies this, dir
      ensures sessions == map[] && Valid()
      ensures dir.bound == old(dir.bound) - ChannelPaths(old(sessions).Keys)
      ensures old(sessions).Keys <= destroyed.Keys
    {
      ghost var start, gone := sessions, {};
      while sessions != map[]
        invariant Valid() && gone <= start.Keys && sessions == start - gone
        invariant dir.bound == old(dir.bound) - ChannelPaths(gone)
        invariant gone <= destroyed.Keys
        decreases sessions.Keys
      {
        var pid :| pid in sessions.Keys;
        MinusOneMore(start, gone, pid);
        OnePathMore(old(dir.bound), gone, pid);
        Erase(pid);
        gone := gone + {pid};
      }
      MissingKeys(start, gone);
    }

    /** `cleanup_sessions`: every session is stopped and joined, then all are destroyed and their paths unlinked. */
    method CleanupSessions()
      requires Valid()
      modifies this, dir
      ensures sessions == map[] && Valid()
      ensures dir.bound == old(dir.bound) - ChannelPaths(old(sessions).Keys)
      ensures old(sessions).Keys <= destroyed.Keys
    {
      StopAll();
      EraseAll();
    }
  }
}
