/**
 * What `TCPServer._handle_connection` does with one accepted connection
 * (tornado/tcpserver.py:246-290): the optional TLS wrap and its error
 * classification, then the stream construction and the `handle_stream` call
 * inside a catch-all that logs and suppresses.
 *
 * The foreign calls are inputs: what `ssl_wrap_socket` did, whether the
 * stream constructor raised, and what the handler did.
 */
module Connection {
  import opened Wrappers

  /** `ssl.SSL_ERROR_EOF`. */
  const SSL_ERROR_EOF: int := 8
  /** `errno.ECONNABORTED` (Linux value). */
  const ECONNABORTED: int := 103
  /** `errno.EINVAL`. */
  const EINVAL: int := 22

  /** What `ssl_wrap_socket(connection, ...)` did. */
  datatype WrapResult =
    | Wrapped
      /** `ssl.SSLError`; `args0` is `err.args[0]`, `None` when `err.args` is empty. */
    | SslError(args0: Option<int>)
      /** Any other `socket.error`; `errno` is what `errno_from_exception` returns. */
    | SocketError(errno: Option<int>)
      /** An exception that is not a `socket.error`. */
    | OtherError

  /** How a step of the guarded block ended: normally, with an `Exception`, or
      with a `BaseException` that is not an `Exception` (`SystemExit`, ...). */
  datatype Step = Completes | RaisesException | RaisesBaseException

  /** The default `handle_stream` raises `NotImplementedError`, an `Exception`. */
  const DEFAULT_HANDLE_STREAM: Step := RaisesException

  datatype StreamKind = PlainStream | SslStream

  /** Which stream class is built and the sizes it receives. */
  datatype StreamArgs = StreamArgs(kind: StreamKind, maxBufferSize: Option<int>, readChunkSize: Option<int>)

  /** The two steps inside the `try` of line 277. */
  datatype Stage = StreamConstruction | HandleStream

  /** Why an exception leaves `_handle_connection`. */
  datatype Cause =
    | SslUnavailable             // `assert ssl` of line 251
    | EmptySslErrorArgs          // `err.args[0]` raises IndexError
    | WrapFailed(failure: WrapResult)  // the bare `raise` of lines 261 and 276
    | Uncaught(stage: Stage)     // not an `Exception`, so `except Exception` lets it through

  datatype Outcome =
      /** `connection.close()`; no stream, no handler. */
    | ClosedEarly
      /** An exception propagates to the caller. */
    | Escaped(cause: Cause)
      /** The stream was built and `handle_stream` returned. */
    | Served(stream: StreamArgs)
      /** An `Exception` in `stage` was logged with `app_log.error` and suppressed. */
    | Logged(stream: StreamArgs, stage: Stage)

  /** The wrap failures lines 258 and 273 treat as the peer going away. */
  predicate IsBenignWrapFailure(w: WrapResult) {
    match w
    case SslError(a) => a == Some(SSL_ERROR_EOF)
    case SocketError(e) => e == Some(ECONNABORTED) || e == Some(EINVAL)
    case _ => false
  }

  /** True when `handle_stream` was entered. */
  predicate HandlerInvoked(o: Outcome) {
    || o.Served?
    || (o.Logged? && o.stage == HandleStream)
    || o == Escaped(Uncaught(HandleStream))
  }

  /** The guarded block of lines 277-290: build the stream, call the handler. */
  function Dispatch(stream: StreamArgs, build: Step, handler: Step): (o: Outcome)
    // Only a non-`Exception` gets past the boundary.
    ensures o.Escaped? <==>
              build == RaisesBaseException || (build == Completes && handler == RaisesBaseException)
    ensures o.Served? <==> build == Completes && handler == Completes
    // The handler runs exactly when the stream was built.
    ensures HandlerInvoked(o) <==> build == Completes
    ensures !o.ClosedEarly?
    ensures o.Served? || o.Logged? ==> o.stream == stream
  {
    match build
    case RaisesException => Logged(stream, StreamConstruction)
    case RaisesBaseException => Escaped(Uncaught(StreamConstruction))
    case Completes =>
      match handler
      case Completes => Served(stream)
      case RaisesException => Logged(stream, HandleStream)
      case RaisesBaseException => Escaped(Uncaught(HandleStream))
  }

  /**
   * `_handle_connection`. `sslConfigured` is `ssl_options is not None`;
   * `sslModule` says whether the `ssl` module could be imported.
   */
  function HandleConnection(sslConfigured: bool, sslModule: bool, wrap: WrapResult,
                            maxBufferSize: Option<int>, readChunkSize: Option<int>,
                            build: Step, handler: Step): (o: Outcome)
    // The connection is closed quietly exactly on the benign wrap failures.
    ensures o.ClosedEarly? <==> sslConfigured && sslModule && IsBenignWrapFailure(wrap)
    // Every other wrap failure is re-raised (after reading `err.args[0]`).
    ensures sslConfigured && sslModule && !wrap.Wrapped? && !IsBenignWrapFailure(wrap) ==>
              o == (if wrap == SslError(None) then Escaped(EmptySslErrorArgs) else Escaped(WrapFailed(wrap)))
    // A stream is attempted only after a successful wrap or with no SSL; its
    // class follows the configuration and it gets the server's sizes.
    ensures o.Served? || o.Logged? ==>
              (sslConfigured ==> sslModule && wrap == Wrapped) &&
              o.stream == StreamArgs(if sslConfigured then SslStream else PlainStream, maxBufferSize, readChunkSize)
    // Without the ssl module, the assertion of line 251 fails.
    ensures sslConfigured && !sslModule ==> o == Escaped(SslUnavailable)
    // After a successful wrap, the guarded block runs on an SSL stream.
    ensures sslConfigured && sslModule && wrap == Wrapped ==>
              o == Dispatch(StreamArgs(SslStream, maxBufferSize, readChunkSize), build, handler)
    // Without SSL, no wrap happens: the outcome does not depend on it.
    ensures !sslConfigured ==>
              o == Dispatch(StreamArgs(PlainStream, maxBufferSize, readChunkSize), build, handler)
  {
    if sslConfigured then
      if !sslModule then Escaped(SslUnavailable)
      else
        match wrap
        case Wrapped => Dispatch(StreamArgs(SslStream, maxBufferSize, readChunkSize), build, handler)
        case SslError(a) =>
          if a.None? then Escaped(EmptySslErrorArgs)
          else if a.value == SSL_ERROR_EOF then ClosedEarly
          else Escaped(WrapFailed(wrap))
        case SocketError(e) =>
          if e == Some(ECONNABORTED) || e == Some(EINVAL) then ClosedEarly
          else Escaped(WrapFailed(wrap))
        case OtherError => Escaped(WrapFailed(wrap))
    else
      Dispatch(StreamArgs(PlainStream, maxBufferSize, readChunkSize), build, handler)
  }

  /** A benign early disconnect never reaches `handle_stream` and raises nothing. */
  lemma BenignCloseSkipsHandler(sslModule: bool, wrap: WrapResult, maxBufferSize: Option<int>,
                                readChunkSize: Option<int>, build: Step, handler: Step)
    requires sslModule && IsBenignWrapFailure(wrap)
    ensures var o := HandleConnection(true, sslModule, wrap, maxBufferSize, readChunkSize, build, handler);
            o == ClosedEarly && !HandlerInvoked(o)
  {
  }

  /**
   * The catch-all: once the wrap step is passed, an exception from stream
   * construction or the handler escapes only if it is not an `Exception`.
   */
  lemma ErrorBoundary(sslConfigured: bool, sslModule: bool, wrap: WrapResult, maxBufferSize: Option<int>,
                      readChunkSize: Option<int>, build: Step, handler: Step)
    requires sslConfigured ==> sslModule && wrap == Wrapped
    requires build != RaisesBaseException && handler != RaisesBaseException
    ensures !HandleConnection(sslConfigured, sslModule, wrap, maxBufferSize, readChunkSize, build, handler).Escaped?
  {
  }

  /** With the default `handle_stream`, every built stream ends in a logged `NotImplementedError`. */
  lemma DefaultHandlerIsLogged(sslConfigured: bool, sslModule: bool, wrap: WrapResult,
                               maxBufferSize: Option<int>, readChunkSize: Option<int>)
    requires sslConfigured ==> sslModule && wrap == Wrapped
    ensures HandleConnection(sslConfigured, sslModule, wrap, maxBufferSize, readChunkSize, Completes, DEFAULT_HANDLE_STREAM)
            == Logged(StreamArgs(if sslConfigured then SslStream else PlainStream, maxBufferSize, readChunkSize), HandleStream)
  {
  }

  /** `handle_stream` runs exactly when the wrap step is passed and the stream is built. */
  lemma HandlerInvokedIff(sslConfigured: bool, sslModule: bool, wrap: WrapResult, maxBufferSize: Option<int>,
                          readChunkSize: Option<int>, build: Step, handler: Step)
    ensures HandlerInvoked(HandleConnection(sslConfigured, sslModule, wrap, maxBufferSize, readChunkSize, build, handler))
            <==> (sslConfigured ==> sslModule && wrap == Wrapped) && build == Completes
  {
  }
}
