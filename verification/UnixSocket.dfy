/** A Unix domain socket over the `/run` namespace (UnixSocket.cpp, UnixSocket.hpp). */
module UnixSocket {
  import opened Naming

  datatype Mode = SERVER | CLIENT

  /** The bound paths of the namespace, with the descriptor listening on each. */
  class RunDirectory {
    var bound: map<string, int>

    constructor ()
      ensures bound == map[]
    {
      bound := map[];
    }
  }

  /** How the system calls of one `initialize` end. */
  datatype Init = Init(fd: int, bind: bool, listen: bool, connect: bool)

  class Socket {
    const dir: RunDirectory
    var fd: int
    var path: string
    var mode: Mode
    var connected: bool

    constructor (dir: RunDirectory, name: string, mode: Mode)
      ensures this.dir == dir && fd == -1 && path == SocketPath(name) && this.mode == mode && !connected
    {
      this.dir := dir;
      fd := -1;
      path := SocketPath(name);
      this.mode := mode;
      connected := false;
    }

    /** The constructor for accepted connections: a client socket, which never unlinks anything. */
    constructor Accepted(dir: RunDirectory, fd: int, path: string)
      ensures this.dir == dir && this.fd == fd && this.path == path && mode == CLIENT && connected
    {
      this.dir := dir;
      this.fd := fd;
      this.path := path;
      mode := CLIENT;
      connected := true;
    }

    /**
      The move constructor: descriptor and path change hands, and nothing is unlinked, now or by the other's
      destructor.
     */
    constructor Moved(other: Socket)
      modifies other
      ensures dir == other.dir && fd == old(other.fd) && path == old(other.path) && mode == old(other.mode)
      ensures connected == old(other.connected)
      ensures other.fd == -1 && !other.connected && other.Unlinked() == {}
    {
      dir := other.dir;
      fd := other.fd;
      path := other.path;
      mode := other.mode;
      connected := other.connected;
      new;
      other.path := "";
      other.fd := -1;
      other.connected := false;
    }

    /** The paths `close` removes: a server's own path, unless the path was moved away. */
    ghost function Unlinked(): set<string>
      reads this
    {
      if mode == SERVER && path != "" then {path} else {}
    }

    /** `close`, and the destructor */
    method Close()
      modifies this`fd, this`connected, dir
      ensures fd == -1 && !connected
      ensures dir.bound == old(dir.bound) - Unlinked()
    {
      fd := -1;
      if mode == SERVER && path != "" {
        dir.bound := dir.bound - {path};
      }
      connected := false;
    }

    /**
      `initialize`: a server that succeeds listens on its path, whoever was bound there before; one that fails is not
      bound there. No other path is ever touched.
     */
    method Initialize(o: Init) returns (ok: bool)
      requires path != ""
      modifies this`fd, this`connected, dir
      ensures ok <==> o.fd != -1 && AddressFits(path) && (if mode == SERVER then o.bind && o.listen else o.connect)
      ensures ok ==> fd == o.fd && connected
      ensures !ok ==> fd == -1 && connected == (o.fd == -1 && old(connected))
      ensures ok && mode == SERVER ==> dir.bound == old(dir.bound)[path := fd]
      ensures !ok && o.fd != -1 ==> dir.bound == old(dir.bound) - Unlinked()
      ensures (ok && mode == CLIENT) || o.fd == -1 ==> dir.bound == old(dir.bound)
    {
      fd := o.fd;
      if fd == -1 { return false; }
      if !AddressFits(path) {
        Close();
        return false;
      }
      if mode == SERVER {
        dir.bound := dir.bound - {path};
        if !o.bind || path in dir.bound {  // bind fails on a path that exists
          Close();
          return false;
        }
        dir.bound := dir.bound[path := fd];
        if !o.listen {
          Close();
          return false;
        }
        connected := true;
      } else {
        if !o.connect {
          Close();
          return false;
        }
        connected := true;
      }
      return true;
    }

    /** `accept`: only a connected server accepts, and the new socket's destructor will not unlink the server's path. */
    method Accept(clientFd: int) returns (client: Socket?)
      ensures client != null <==> mode == SERVER && connected && clientFd != -1
      ensures client != null ==> fresh(client) && client.fd == clientFd && client.connected && client.Unlinked() == {}
    {
      if mode != SERVER || !connected { return null; }
      if clientFd == -1 { return null; }
      client := new Socket.Accepted(dir, clientFd, path);
    }

    /** Move assignment: this socket's own path is closed first; the other keeps neither descriptor nor path. */
    method MoveAssign(other: Socket)
      requires other != this && other.dir == dir
      modifies this, other, dir
      ensures fd == old(other.fd) && path == old(other.path) && mode == old(other.mode)
      ensures connected == old(other.connected)
      ensures other.fd == -1 && !other.connected && other.Unlinked() == {}
      ensures dir.bound == old(dir.bound) - old(Unlinked())
    {
      Close();
      fd := other.fd;
      path := other.path;
      other.path := "";
      mode := other.mode;
      connected := other.connected;
      other.fd := -1;
      other.connected := false;
    }
  }
}
