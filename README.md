# TCPServer listening-socket lifecycle, in Dafny

This project models `TCPServer` from tornado (`tornado/tcpserver.py`). The
server owns the listening sockets of a process. `bind` queues them until
`start`, and `listen`, `add_sockets` and `add_socket` register them right
away. `start` may fork worker processes and then registers the queue.
`stop` deregisters and closes every registered socket. For each accepted
connection, `_handle_connection` optionally wraps it in TLS, sorts early
TLS failures into benign closes and re-raised errors, and then builds an
`IOStream` or `SSLIOStream` and calls `handle_stream`. That last step runs
inside a catch-all that logs and suppresses the error.

Modules:

- `SslOptions` (ssl_options.dfy): the constructor's eager check of
  `ssl_options`, with `os.path.exists` passed in as a predicate.
- `Connection` (connection.dfy): `_handle_connection` as a pure function.
  Its inputs are the wrap result, whether stream construction raised, and
  what the handler did.
- `Registry` (registry.dfy): the value-level specification of the `_sockets`
  dict and of the foreign calls (`add_accept_handler`, `remove_handler`,
  `close`, `fork_processes`), recorded as events.
- `TcpServer` (tcp_server.dfy): the `TCPServer` class. Its fields are
  `sockets`, `pending` and `started`, plus a ghost event `trace`. Its
  methods are proved against the `Registry` functions.
- `Wrappers` (wrappers.dfy): `Option` and `Result`.

A socket is represented by its descriptor (`fileno()`) together with an
identity. The identity tells apart two socket objects that report the same
descriptor. `bind_sockets` is not modelled: `bind` and `listen` receive the
list of sockets that it returned.

Where the source's own comments, or a reader, might expect otherwise, the model follows the code:

- The comment at tornado/tcpserver.py:227 says `stop` clears and closes every listening socket. Lines 234-236 close them but never clear `_sockets`, so a second `stop` deregisters and closes the same sockets again.
- `add_sockets` does not guard against registering one descriptor twice. Each list element gets its own `add_accept_handler` call.
- An `ssl_options` dict without `"certfile"` is rejected even when the dict is empty.
- A non-benign wrap error is raised outside the `try` at line 277, so it escapes `_handle_connection`. The catch-all does not log it.
- The `read_chunk_size` argument is dropped at line 107, so both stream kinds receive `None`.
- A missing `ssl` module is found by `assert ssl` when a connection arrives, not at construction.

## Model

| member | source | states |
|---|---|---|
| `SslOptions.CheckSslOptions` | tornado/tcpserver.py:114-125 | Options are accepted exactly when they are not a dict, or when the certfile key is present, its path exists, and the keyfile path also exists if that key is present. Every rejection is either a missing certfile key or a named option whose path does not exist. |
| `SslOptions.NonDictNotChecked` | tornado/tcpserver.py:114 | `None` and non-dict options (an `SSLContext`) are never checked, whatever the filesystem holds. |
| `SslOptions.MissingCertfileFailsFirst` | tornado/tcpserver.py:114-117 | A dict without `"certfile"` fails with KeyError. The result is the same under any two filesystems, so no path is looked up first. |
| `SslOptions.AbsentKeyfileAccepted` | tornado/tcpserver.py:119-125 | An existing certfile with no keyfile key is accepted. |
| `SslOptions.CertfileReportedBeforeKeyfile` | tornado/tcpserver.py:119-121 | When the certfile path is missing, the ValueError names the certfile, even if the keyfile is missing too. |
| `Connection.Dispatch` | tornado/tcpserver.py:277-290 | Only a non-`Exception` escapes the guarded block. The handler runs exactly when the stream was built. The outcome is "served" exactly when both steps complete. |
| `Connection.HandleConnection` | tornado/tcpserver.py:246-290 | The contract fixes the outcome on every input. With SSL configured but no `ssl` module, the assertion of line 251 escapes. After a successful wrap, the guarded block runs on an SSL stream. The connection is closed quietly exactly when SSL is configured and the wrap failed with `SSL_ERROR_EOF`, `ECONNABORTED` or `EINVAL`. Every other wrap failure is re-raised. Without SSL, no wrap happens and the guarded block runs on a plain stream. Every stream gets the given sizes. |
| `Connection.BenignCloseSkipsHandler` | tornado/tcpserver.py:250-274 | A benign early disconnect closes the connection, raises nothing and never calls `handle_stream`. |
| `Connection.ErrorBoundary` | tornado/tcpserver.py:277-290 | Once the wrap step is passed, an `Exception` from stream construction or from the handler never leaves `_handle_connection`. |
| `Connection.DefaultHandlerIsLogged` | tornado/tcpserver.py:239-290 | With the default `handle_stream` (`NotImplementedError`), every built stream ends in a logged, suppressed error. |
| `Connection.HandlerInvokedIff` | tornado/tcpserver.py:250-288 | `handle_stream` is called if and only if the wrap step is passed (or SSL is off) and the stream constructor returns. |
| `Registry.Register` | tornado/tcpserver.py:156-157 | After registering a list, the registry's keys are the old keys plus the list's descriptors, and every entry stays filed under its own socket's descriptor. |
| `Registry.AcceptEvents` | tornado/tcpserver.py:156-163 | One accept-handler registration per list element, in list order. |
| `Registry.StopEvents` | tornado/tcpserver.py:234-236 | For each visited descriptor, a `remove_handler(fd)` immediately followed by the `close` of its socket. |
| `Registry.RegisterLastWins` | tornado/tcpserver.py:156-157 | Among several sockets with one descriptor, the last one in the list is the one registered. Earlier entries are overwritten. |
| `Registry.RegisterKeepsOthers` | tornado/tcpserver.py:156-157 | Registry entries for descriptors the list does not mention keep their earlier socket. |
| `Registry.RegisterAppend` | tornado/tcpserver.py:156-157 | Registering `a` then `b` gives the same registry as registering `a + b`. |
| `Registry.RegisterSources` | tornado/tcpserver.py:156-157 | Every registered socket comes from the list or was already registered. |
| `Registry.AcceptEventsAppend` | tornado/tcpserver.py:156-163 | The registrations for `a + b` are those for `a` followed by those for `b`. |
| `Registry.RegistrationsPerSocket` | tornado/tcpserver.py:156-163 | A socket listed n times gets exactly n accept-handler registrations. Repeats are not guarded against. |
| `Registry.SameFdTwice` | tornado/tcpserver.py:156-163 | Two sockets with one descriptor: the second replaces the first in the registry, and both get an accept handler. |
| `Registry.ListenTwiceKeepsBoth` | tornado/tcpserver.py:128-140 | Listening on a second list with other descriptors keeps the first list's registrations. |
| `Registry.RemovalsPerFd` | tornado/tcpserver.py:234-235 | `stop` makes one `remove_handler(fd)` per visit of `fd`. |
| `Registry.StopReleasesEachOnce` | tornado/tcpserver.py:234-236 | `stop` makes exactly two calls per registry entry. Each registered descriptor is deregistered exactly once, immediately followed by the close of its socket. |
| `TcpServer.TCPServer.Valid` | tornado/tcpserver.py:102-105 | The instance invariant that every method keeps. Each `_sockets` entry is filed under its own socket's descriptor, and each had an accept handler registered for it. The pending list is empty once the server has started. |
| `TcpServer.TCPServer.constructor` | tornado/tcpserver.py:96-107 | A new server is not started and has an empty registry, an empty pending list and no foreign calls. Its `read_chunk_size` is `None` whatever was passed. |
| `TcpServer.TCPServer.AddSockets` | tornado/tcpserver.py:144-163 | The registry becomes the old one with each socket filed under its descriptor, in order. One registration is recorded per element. The pending list and the flag are unchanged. |
| `TcpServer.TCPServer.AddSocket` | tornado/tcpserver.py:165-167 | Files the one socket under its descriptor and registers it once. |
| `TcpServer.TCPServer.Listen` | tornado/tcpserver.py:128-140 | Registers the bound sockets immediately, with no `start` needed. |
| `TcpServer.TCPServer.Bind` | tornado/tcpserver.py:170-196 | Before `start`, appends the sockets to the pending list and leaves the registry and trace alone. After `start`, registers them at once and leaves the pending list alone. |
| `TcpServer.TCPServer.Start` | tornado/tcpserver.py:199-225 | A second call fails and changes nothing. Otherwise: started, pending list empty, the old pending sockets registered in order, and one fork event exactly when `num_processes != 1`, before the registrations. |
| `TcpServer.TCPServer.Stop` | tornado/tcpserver.py:228-236 | Visits every registry key exactly once, recording `remove_handler` then `close` for each. The registry, the pending list and the flag are unchanged. |
| `TcpServer.TCPServer.HandleConnection` | tornado/tcpserver.py:246-290 | Classifies a connection with this server's configuration. Any stream gets the server's `max_buffer_size` and a `None` `read_chunk_size`. |
| `TcpServer.NewTCPServer` | tornado/tcpserver.py:96-125 | Construction fails exactly when the `ssl_options` check fails, with that error. Otherwise it returns a fresh, unstarted, empty server with the given options. |
| `TcpServer.BindBeforeOrAfterStart` | tornado/tcpserver.py:193-225 | Two fresh servers, one running bind, bind, start and the other bind, start, bind, end in the same registry, with the same foreign calls in the same order. Both are started and have an empty pending list. |
| `TcpServer.BindAllThenStart` | tornado/tcpserver.py:193-225 | Binding two lists before `start` registers their concatenation in order, after the fork event, if any. |
| `TcpServer.StartBetweenBinds` | tornado/tcpserver.py:193-225 | Binding one list before `start` and one after it registers the first at `start` and the second at once. |
| `TcpServer.StartForksUnlessOne` | tornado/tcpserver.py:221-222 | `ForkEvents`, the fork decision, holds a fork event if and only if `num_processes != 1` (`None`, 0, negative and values above 1 all fork), and never more than one. |

## Left out

- `io_loop`: the constructor argument and the lazy `IOLoop.current()` default (lines 98, 153-154) are environment lookups with no logic.
- `bind_sockets`: address resolution and socket creation happen outside the core. `bind` and `listen` take the resulting list, so `port`, `address`, `family` and `backlog` do not appear.
- `add_accept_handler`, `IOLoop.remove_handler`, `socket.close` and `process.fork_processes` are code outside the core. They appear only as events in a ghost trace. `TcpServer.TCPServer.Start` continues as the forked child does; what the parent process does and what each worker inherits are not modelled.
- `ssl_wrap_socket`, `IOStream` and `SSLIOStream` are external I/O. Their results are inputs (`WrapResult`, `Step`). The model records only the stream kind and the sizes passed, not the asynchronous TLS handshake.
- `os.path.exists` is filesystem I/O and becomes the `pathExists` parameter. Values in an `ssl_options` dict are taken to be path strings.
- `app_log.error` and the traceback become the `Logged` outcome. The `connection` and `address` objects passed to `handle_stream` are not modelled.
- `ECONNABORTED` uses its Linux value (103); it is platform-dependent. `SSL_ERROR_EOF` is 8 and `EINVAL` is 22.
- Running Python with `-O` strips the `assert` statements at lines 219 and 251. The model keeps both assertions.
- `num_processes` is `None` or an integer. Other Python values (such as `1.0`) are not modelled.
- The order in which `stop` visits the dict is not fixed. `TcpServer.TCPServer.Stop` returns the order it used as a ghost value.
