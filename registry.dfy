/**
 * The listening-socket registry of `TCPServer` as values: the `_sockets`
 * dict that `add_sockets` fills (tornado/tcpserver.py:156-163), the events
 * its foreign calls make, and the events `stop` makes (lines 234-236).
 * The class in TcpServer is proved against these functions.
 */
module Registry {
  import opened Wrappers

  /** A listening socket: its descriptor (`sock.fileno()`) and an identity
      that tells apart two socket objects reporting the same descriptor. */
  datatype Socket = Socket(fd: int, id: nat)

  /** The calls into code outside the core, in the order they are made. */
  datatype Event =
    | AcceptHandlerAdded(sock: Socket)        // add_accept_handler(sock, ...)
    | HandlerRemoved(fd: int)                 // io_loop.remove_handler(fd)
    | SocketClosed(sock: Socket)              // sock.close()
    | ProcessesForked(count: Option<int>)     // process.fork_processes(num_processes)

  /** The descriptors of a list of sockets. */
  function Fds(s: seq<Socket>): set<int> {
    set i | 0 <= i < |s| :: s[i].fd
  }

  /** Every entry is filed under its own socket's descriptor. */
  ghost predicate KeyedByFd(m: map<int, Socket>) {
    forall fd :: fd in m ==> m[fd].fd == fd
  }

  /** Every entry of the registry had an accept handler registered for it. */
  ghost predicate Announced(m: map<int, Socket>, trace: seq<Event>) {
    forall fd :: fd in m ==> AcceptHandlerAdded(m[fd]) in trace
  }

  /** `_sockets` after `self._sockets[sock.fileno()] = sock` for each socket of `s`, in order. */
  function Register(m: map<int, Socket>, s: seq<Socket>): (r: map<int, Socket>)
    ensures r.Keys == m.Keys + Fds(s)
    ensures KeyedByFd(m) ==> KeyedByFd(r)
  {
    if s == [] then m
    else
      var last := s[|s| - 1];
      assert Fds(s) == Fds(s[..|s| - 1]) + {last.fd};
      Register(m, s[..|s| - 1])[last.fd := last]
  }

  /** The `add_accept_handler` calls `add_sockets` makes: one per list element, in order. */
  function AcceptEvents(s: seq<Socket>): (r: seq<Event>)
    ensures |r| == |s|
    ensures forall i :: 0 <= i < |s| ==> r[i] == AcceptHandlerAdded(s[i])
  {
    if s == [] then [] else AcceptEvents(s[..|s| - 1]) + [AcceptHandlerAdded(s[|s| - 1])]
  }

  /** `num_processes != 1` forks, whatever else it is (`None`, 0, negative, > 1). */
  function ForkEvents(numProcesses: Option<int>): seq<Event> {
    if numProcesses != Some(1) then [ProcessesForked(numProcesses)] else []
  }

  /** The `remove_handler` and `close` calls of `stop`, visiting the descriptors in `order`. */
  function StopEvents(m: map<int, Socket>, order: seq<int>): (r: seq<Event>)
    requires forall k :: 0 <= k < |order| ==> order[k] in m
    ensures |r| == 2 * |order|
    ensures forall k :: 0 <= k < |order| ==>
              r[2 * k] == HandlerRemoved(order[k]) && r[2 * k + 1] == SocketClosed(m[order[k]])
  {
    if order == [] then []
    else
      var last := order[|order| - 1];
      StopEvents(m, order[..|order| - 1]) + [HandlerRemoved(last), SocketClosed(m[last])]
  }

  ghost predicate NoDuplicates(order: seq<int>) {
    forall i, j :: 0 <= i < j < |order| ==> order[i] != order[j]
  }

  /** `order` visits every key of the registry exactly once, as iterating a dict does. */
  ghost predicate Enumerates(order: seq<int>, keys: set<int>) {
    && (forall k :: 0 <= k < |order| ==> order[k] in keys)
    && (forall fd :: fd in keys ==> fd in order)
    && NoDuplicates(order)
  }

  /** A non-empty set of descriptors has a member to visit next. */
  lemma HasMember(s: set<int>)
    requires s != {}
    ensures exists fd :: fd in s
  {
    if forall fd :: fd !in s {
      assert false;
    }
  }

  /** The last socket of the list with a given descriptor is the one registered under it. */
  lemma {:induction false} RegisterLastWins(m: map<int, Socket>, s: seq<Socket>, i: nat)
    requires i < |s|
    requires forall j :: i < j < |s| ==> s[j].fd != s[i].fd
    ensures Register(m, s)[s[i].fd] == s[i]
  {
    if i < |s| - 1 {
      RegisterLastWins(m, s[..|s| - 1], i);
    }
  }

  /** Descriptors the list does not mention keep their earlier entry. */
  lemma {:induction false} RegisterKeepsOthers(m: map<int, Socket>, s: seq<Socket>, fd: int)
    requires fd in m && fd !in Fds(s)
    ensures Register(m, s)[fd] == m[fd]
  {
    if s != [] {
      assert Fds(s[..|s| - 1]) <= Fds(s);
      RegisterKeepsOthers(m, s[..|s| - 1], fd);
    }
  }

  /** Registering two lists one after the other is registering their concatenation. */
  lemma {:induction false} RegisterAppend(m: map<int, Socket>, a: seq<Socket>, b: seq<Socket>)
    ensures Register(m, a + b) == Register(Register(m, a), b)
  {
    if b == [] {
      assert a + b == a;
    } else {
      assert (a + b)[..|a + b| - 1] == a + b[..|b| - 1];
      RegisterAppend(m, a, b[..|b| - 1]);
    }
  }

  /** Every registered entry comes from the list or was already there. */
  lemma {:induction false} RegisterSources(m: map<int, Socket>, s: seq<Socket>, fd: int)
    requires fd in Register(m, s)
    ensures Register(m, s)[fd] in s || (fd in m && Register(m, s)[fd] == m[fd])
  {
    if s != [] {
      var last := s[|s| - 1];
      if fd != last.fd {
        RegisterSources(m, s[..|s| - 1], fd);
      }
    }
  }

  /** The accept-handler events of a concatenation are those of its parts, in order. */
  lemma AcceptEventsAppend(a: seq<Socket>, b: seq<Socket>)
    ensures AcceptEvents(a + b) == AcceptEvents(a) + AcceptEvents(b)
  {
  }

  /**
   * No guard against repeats: a socket listed n times is registered with the
   * event loop n times.
   */
  lemma {:induction false} RegistrationsPerSocket(s: seq<Socket>, x: Socket)
    ensures multiset(AcceptEvents(s))[AcceptHandlerAdded(x)] == multiset(s)[x]
  {
    if s != [] {
      var init, last := s[..|s| - 1], s[|s| - 1];
      assert s == init + [last];
      RegistrationsPerSocket(init, x);
    }
  }

  /** Two sockets with the same descriptor: the second replaces the first in
      the registry, yet both get an accept handler. */
  lemma SameFdTwice(m: map<int, Socket>, a: Socket, b: Socket)
    requires a.fd == b.fd
    ensures Register(m, [a, b]) == m[a.fd := b]
    ensures AcceptEvents([a, b]) == [AcceptHandlerAdded(a), AcceptHandlerAdded(b)]
  {
    assert [a, b][..1] == [a];
    assert [a][..0] == [];
    assert Register(m, [a]) == m[a.fd := a];
    assert m[a.fd := a][b.fd := b] == m[a.fd := b];
  }

  /** Listening on two lists with disjoint descriptors keeps the first list's entries. */
  lemma ListenTwiceKeepsBoth(m: map<int, Socket>, a: seq<Socket>, b: seq<Socket>, fd: int)
    requires Fds(a) !! Fds(b)
    requires fd in Fds(a)
    ensures fd in Register(m, a + b) && Register(m, a + b)[fd] == Register(m, a)[fd]
  {
    RegisterAppend(m, a, b);
    RegisterKeepsOthers(Register(m, a), b, fd);
  }

  /** An enumeration of a set is as long as the set is large. */
  lemma {:induction false} EnumerationLength(order: seq<int>, keys: set<int>)
    requires Enumerates(order, keys)
    ensures |order| == |keys|
  {
    if order != [] {
      var last := order[|order| - 1];
      var init := order[..|order| - 1];
      assert last !in init;
      forall fd | fd in keys - {last} ensures fd in init {
        var j :| 0 <= j < |order| && order[j] == fd;
        assert j != |order| - 1;
        assert init[j] == fd;
      }
      EnumerationLength(init, keys - {last});
    } else {
      assert forall fd :: fd in keys ==> fd in order;
      assert keys == {};
    }
  }

  /** Visiting each descriptor once gives one `remove_handler` per visit. */
  lemma {:induction false} RemovalsPerFd(m: map<int, Socket>, order: seq<int>, fd: int)
    requires forall k :: 0 <= k < |order| ==> order[k] in m
    ensures multiset(StopEvents(m, order))[HandlerRemoved(fd)] == multiset(order)[fd]
  {
    if order != [] {
      var init, last := order[..|order| - 1], order[|order| - 1];
      assert order == init + [last];
      RemovalsPerFd(m, init, fd);
    }
  }

  /** In an enumeration without repeats, each key occurs once and nothing else occurs. */
  lemma {:induction false} EnumerationCounts(order: seq<int>, keys: set<int>, fd: int)
    requires Enumerates(order, keys)
    ensures multiset(order)[fd] == if fd in keys then 1 else 0
  {
    if order != [] {
      var init, last := order[..|order| - 1], order[|order| - 1];
      assert order == init + [last];
      assert Enumerates(init, keys - {last}) by {
        forall g | g in keys - {last} ensures g in init {
          var j :| 0 <= j < |order| && order[j] == g;
          assert j != |order| - 1;
          assert init[j] == g;
        }
      }
      EnumerationCounts(init, keys - {last}, fd);
    } else {
      assert fd in keys ==> fd in order;
    }
  }

  /**
   * `stop` deregisters every registered descriptor exactly once and closes its
   * socket right after; it makes two calls per registry entry and no others.
   */
  lemma StopReleasesEachOnce(m: map<int, Socket>, order: seq<int>, fd: int)
    requires Enumerates(order, m.Keys)
    ensures |StopEvents(m, order)| == 2 * |m|
    ensures multiset(StopEvents(m, order))[HandlerRemoved(fd)] == if fd in m then 1 else 0
    ensures fd in m ==> (exists k :: 0 <= k < |order| && order[k] == fd &&
                           StopEvents(m, order)[2 * k] == HandlerRemoved(fd) &&
                           StopEvents(m, order)[2 * k + 1] == SocketClosed(m[fd]))
  {
    EnumerationLength(order, m.Keys);
    assert |m.Keys| == |m|;
    RemovalsPerFd(m, order, fd);
    EnumerationCounts(order, m.Keys, fd);
  }
}
