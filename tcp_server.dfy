/**
 * `TCPServer` (tornado/tcpserver.py:40-290): the instance that owns the
 * listening sockets. Sockets are values of `Registry.Socket`; the calls
 * into the event loop, the sockets and the process module are appended to
 * the ghost `trace`; `bind_sockets` is replaced by the list it returned.
 */
module TcpServer {
  import opened Wrappers
  import opened SslOptions
  import opened Registry
  import Connection

  class TCPServer {
    const ssl: SslConfig
    const maxBufferSize: Option<int>
    /** Line 107 stores `None` whatever the constructor was given. */
    const readChunkSize: Option<int> := None

    /** `_sockets`: descriptor to listening socket. */
    var sockets: map<int, Socket>
    /** `_pending_sockets`: bound by `bind` before `start`, not yet registered. */
    var pending: seq<Socket>
    /** `_started`. */
    var started: bool
    /** The foreign calls made so far. */
    ghost var trace: seq<Event>

    ghost predicate Valid()
      reads this
    {
      && KeyedByFd(sockets)
      && Announced(sockets, trace)
      && (started ==> pending == [])
    }

    /** Field initialisation of `__init__` (lines 96-107); the check of
        `ssl_options` is `NewTCPServer` below. */
    constructor (ssl: SslConfig, maxBufferSize: Option<int>, readChunkSize: Option<int>)
      ensures Valid()
      ensures sockets == map[] && pending == [] && !started && trace == []
      ensures this.ssl == ssl && this.maxBufferSize == maxBufferSize && this.readChunkSize == None
    {
      this.ssl := ssl;
      this.maxBufferSize := maxBufferSize;
      sockets := map[];
      pending := [];
      started := false;
      trace := [];
    }

    /** `add_sockets` (lines 156-163): file and register each socket, in list order. */
    method AddSockets(socks: seq<Socket>)
      requires Valid()
      modifies this`sockets, this`trace
      ensures Valid()
      ensures sockets == Register(old(sockets), socks)
      ensures trace == old(trace) + AcceptEvents(socks)
    {
      var i := 0;
      while i < |socks|
        invariant 0 <= i <= |socks|
        invariant Valid()
        invariant sockets == Register(old(sockets), socks[..i])
        invariant trace == old(trace) + AcceptEvents(socks[..i])
      {
        var sock := socks[i];
        assert socks[..i + 1][..i] == socks[..i];
        sockets := sockets[sock.fd := sock];
        trace := trace + [AcceptHandlerAdded(sock)];
        i := i + 1;
      }
      assert socks[..i] == socks;
    }

    /** `add_socket` (lines 165-167). */
    method AddSocket(sock: Socket)
      requires Valid()
      modifies this`sockets, this`trace
      ensures Valid()
      ensures sockets == old(sockets)[sock.fd := sock]
      ensures trace == old(trace) + [AcceptHandlerAdded(sock)]
    {
      assert [sock][..0] == [];
      AddSockets([sock]);
    }

    /** `listen` (lines 128-140), given the sockets `bind_sockets(port, address)` returned. */
    method Listen(bound: seq<Socket>)
      requires Valid()
      modifies this`sockets, this`trace
      ensures Valid()
      ensures sockets == Register(old(sockets), bound)
      ensures trace == old(trace) + AcceptEvents(bound)
    {
      AddSockets(bound);
    }

    /** `bind` (lines 170-196), given the sockets `bind_sockets` returned:
        queued before `start`, registered at once after it. */
    method Bind(bound: seq<Socket>)
      requires Valid()
      modifies this`sockets, this`pending, this`trace
      ensures Valid()
      ensures old(started) ==>
                sockets == Register(old(sockets), bound) && trace == old(trace) + AcceptEvents(bound) &&
                pending == old(pending)
      ensures !old(started) ==>
                pending == old(pending) + bound && sockets == old(sockets) && trace == old(trace)
    {
      if started {
        AddSockets(bound);
      } else {
        pending := pending + bound;
      }
    }

    /**
     * `start` (lines 199-225). A second call fails the assertion of line 219
     * (`failed`) and changes nothing; otherwise it forks unless
     * `num_processes == 1` and registers the pending sockets in order.
     */
    method Start(numProcesses: Option<int>) returns (failed: bool)
      requires Valid()
      modifies this`started, this`pending, this`sockets, this`trace
      ensures Valid()
      ensures failed == old(started)
      ensures failed ==> unchanged(this)
      ensures !failed ==>
                && started && pending == []
                && sockets == Register(old(sockets), old(pending))
                && trace == old(trace) + ForkEvents(numProcesses) + AcceptEvents(old(pending))
    {
      if started {
        return true;
      }
      failed := false;
      started := true;
      if numProcesses != Some(1) {
        trace := trace + [ProcessesForked(numProcesses)];
      }
      var socks := pending;
      pending := [];
      AddSockets(socks);
    }

    /**
     * `stop` (lines 228-236): for each registry entry, in the dict's order
     * (returned as `order`), remove its handler and close it. The registry,
     * the pending list and the flag are left as they were.
     */
    method Stop() returns (ghost order: seq<int>)
      requires Valid()
      modifies this`trace
      ensures Valid()
      ensures Enumerates(order, sockets.Keys)
      ensures trace == old(trace) + StopEvents(sockets, order)
    {
      order := [];
      var rest := sockets.Keys;
      while rest != {}
        invariant rest <= sockets.Keys
        invariant forall k :: 0 <= k < |order| ==> order[k] in sockets && order[k] !in rest
        invariant forall fd :: fd in sockets ==> fd in rest || fd in order
        invariant NoDuplicates(order)
        invariant trace == old(trace) + StopEvents(sockets, order)
        decreases rest
      {
        HasMember(rest);
        var fd :| fd in rest;
        trace := trace + [HandlerRemoved(fd), SocketClosed(sockets[fd])];
        order := order + [fd];
        rest := rest - {fd};
      }
    }

    /** `_handle_connection` (lines 246-290) on this server's configuration. */
    method HandleConnection(sslModule: bool, wrap: Connection.WrapResult,
                            build: Connection.Step, handler: Connection.Step)
      returns (o: Connection.Outcome)
      ensures o == Connection.HandleConnection(ssl != NoSsl, sslModule, wrap, maxBufferSize,
                                               readChunkSize, build, handler)
      // Both stream kinds receive the server's max_buffer_size and a None read_chunk_size.
      ensures o.Served? || o.Logged? ==>
                o.stream.maxBufferSize == maxBufferSize && o.stream.readChunkSize == None
    {
      o := Connection.HandleConnection(ssl != NoSsl, sslModule, wrap, maxBufferSize,
                                       readChunkSize, build, handler);
    }
  }

  /**
   * `TCPServer(ssl_options=..., max_buffer_size=..., read_chunk_size=...)`
   * (lines 96-125), with `os.path.exists` as `pathExists`: the constructor
   * raises exactly when the options check fails, and otherwise yields a
   * server that is not started and holds no sockets.
   */
  method NewTCPServer(ssl: SslConfig, maxBufferSize: Option<int>, readChunkSize: Option<int>,
                      pathExists: Path -> bool)
    returns (r: Result<TCPServer, InitError>)
    ensures r.Failure? <==> CheckSslOptions(ssl, pathExists).Some?
    ensures r.Failure? ==> CheckSslOptions(ssl, pathExists) == Some(r.error)
    ensures r.Success? ==>
              && fresh(r.value) && r.value.Valid()
              && r.value.sockets == map[] && r.value.pending == [] && !r.value.started
              && r.value.trace == []
              && r.value.ssl == ssl && r.value.maxBufferSize == maxBufferSize
              && r.value.readChunkSize == None
  {
    var server := new TCPServer(ssl, maxBufferSize, readChunkSize);
    var err := CheckSslOptions(ssl, pathExists);
    if err.Some? {
      return Failure(err.value);
    }
    return Success(server);
  }

  /**
   * Binding before `start` and binding after it end in the same state: two
   * fresh servers, one running bind(queued), bind(bound), start and the other
   * bind(queued), start, bind(bound), hold the same registry and have made
   * the same foreign calls in the same order.
   */
  method BindBeforeOrAfterStart(ssl: SslConfig, maxBufferSize: Option<int>, readChunkSize: Option<int>,
                                queued: seq<Socket>, bound: seq<Socket>, numProcesses: Option<int>)
    returns (before: TCPServer, after: TCPServer)
    ensures before.Valid() && after.Valid()
    ensures before.started && after.started && before.pending == [] && after.pending == []
    ensures before.sockets == after.sockets == Register(map[], queued + bound)
    ensures before.trace == after.trace == ForkEvents(numProcesses) + AcceptEvents(queued + bound)
  {
    RegisterAppend(map[], queued, bound);
    AcceptEventsAppend(queued, bound);
    before := BindAllThenStart(ssl, maxBufferSize, readChunkSize, queued, bound, numProcesses);
    after := StartBetweenBinds(ssl, maxBufferSize, readChunkSize, queued, bound, numProcesses);
  }

  /** A fresh server running bind(queued), bind(bound), start(numProcesses). */
  method BindAllThenStart(ssl: SslConfig, maxBufferSize: Option<int>, readChunkSize: Option<int>,
                          queued: seq<Socket>, bound: seq<Socket>, numProcesses: Option<int>)
    returns (server: TCPServer)
    ensures server.Valid() && server.started && server.pending == []
    ensures server.sockets == Register(map[], queued + bound)
    ensures server.trace == ForkEvents(numProcesses) + AcceptEvents(queued + bound)
  {
    server := new TCPServer(ssl, maxBufferSize, readChunkSize);
    server.Bind(queued);
    server.Bind(bound);
    assert server.pending == queued + bound;
    ghost var empty, none := server.sockets, server.trace;
    assert empty == map[] && none == [];
    var failed := server.Start(numProcesses);
    assert server.sockets == Register(empty, queued + bound);
  }

  /** A fresh server running bind(queued), start(numProcesses), bind(bound). */
  method StartBetweenBinds(ssl: SslConfig, maxBufferSize: Option<int>, readChunkSize: Option<int>,
                           queued: seq<Socket>, bound: seq<Socket>, numProcesses: Option<int>)
    returns (server: TCPServer)
    ensures server.Valid() && server.started && server.pending == []
    ensures server.sockets == Register(Register(map[], queued), bound)
    ensures server.trace == ForkEvents(numProcesses) + AcceptEvents(queued) + AcceptEvents(bound)
  {
    server := new TCPServer(ssl, maxBufferSize, readChunkSize);
    server.Bind(queued);
    assert server.pending == queued;
    ghost var empty, none := server.sockets, server.trace;
    assert empty == map[] && none == [];
    var failed := server.Start(numProcesses);
    assert server.sockets == Register(empty, queued);
    ghost var started := server.sockets;
    server.Bind(bound);
    assert server.sockets == Register(started, bound);
  }

  /** `start` forks exactly when `num_processes != 1`, and at most once. */
  lemma StartForksUnlessOne(numProcesses: Option<int>)
    ensures ProcessesForked(numProcesses) in ForkEvents(numProcesses) <==> numProcesses != Some(1)
    ensures |ForkEvents(numProcesses)| <= 1
  {
  }
}
