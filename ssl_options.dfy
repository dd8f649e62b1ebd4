/**
 * The eager check of the `ssl_options` argument that `TCPServer.__init__`
 * performs before any socket exists (tornado/tcpserver.py:114-125).
 */
module SslOptions {
  import opened Wrappers

  type Path = string

  const CERTFILE: string := "certfile"
  const KEYFILE: string := "keyfile"

  /**
   * The `ssl_options` argument: `None`, a dict of keyword arguments for
   * `ssl.wrap_socket` (values are the paths the check looks at), or any
   * other object, such as an `ssl.SSLContext`, which is not checked.
   */
  datatype SslConfig =
    | NoSsl
    | DictOptions(entries: map<string, Path>)
    | OtherOptions

  /** The exception construction raises. */
  datatype InitError =
    | MissingKey(key: string)                // KeyError
    | FileNotFound(key: string, path: Path)  // ValueError naming the option and its path

  /**
   * The validation of lines 114-125, with `os.path.exists` passed in as
   * `pathExists`. `None` means construction goes through.
   */
  function CheckSslOptions(opts: SslConfig, pathExists: Path -> bool): (r: Option<InitError>)
    // Accepted exactly when the options are not a dict, or the certfile key is
    // present and names an existing path and a keyfile, if any, does too.
    ensures r.None? <==>
              (opts.DictOptions? ==>
                 CERTFILE in opts.entries && pathExists(opts.entries[CERTFILE]) &&
                 (KEYFILE in opts.entries ==> pathExists(opts.entries[KEYFILE])))
    // Every rejection names an option of the dict: a missing certfile key, or
    // an option whose path does not exist.
    ensures r.Some? ==> opts.DictOptions? && match r.value
              case MissingKey(k) => k == CERTFILE && k !in opts.entries
              case FileNotFound(k, p) =>
                (k == CERTFILE || k == KEYFILE) && k in opts.entries &&
                opts.entries[k] == p && !pathExists(p)
  {
    match opts
    case DictOptions(d) =>
      if CERTFILE !in d then Some(MissingKey(CERTFILE))
      else if !pathExists(d[CERTFILE]) then Some(FileNotFound(CERTFILE, d[CERTFILE]))
      else if KEYFILE in d && !pathExists(d[KEYFILE]) then Some(FileNotFound(KEYFILE, d[KEYFILE]))
      else None
    case _ => None
  }

  /** `None` and non-dict options are never checked, whatever the filesystem holds. */
  lemma NonDictNotChecked(opts: SslConfig, pathExists: Path -> bool)
    requires !opts.DictOptions?
    ensures CheckSslOptions(opts, pathExists) == None
  {
  }

  /**
   * A dict without the certfile key fails with KeyError before any path is
   * looked up: the outcome is the same under any two filesystems.
   */
  lemma MissingCertfileFailsFirst(d: map<string, Path>, pathExists1: Path -> bool, pathExists2: Path -> bool)
    requires CERTFILE !in d
    ensures CheckSslOptions(DictOptions(d), pathExists1) == Some(MissingKey(CERTFILE))
    ensures CheckSslOptions(DictOptions(d), pathExists1) == CheckSslOptions(DictOptions(d), pathExists2)
  {
  }

  /** An existing certfile with no keyfile key is accepted. */
  lemma AbsentKeyfileAccepted(d: map<string, Path>, pathExists: Path -> bool)
    requires CERTFILE in d && pathExists(d[CERTFILE]) && KEYFILE !in d
    ensures CheckSslOptions(DictOptions(d), pathExists) == None
  {
  }

  /** The certfile is looked at before the keyfile: when both are missing, the certfile is named. */
  lemma CertfileReportedBeforeKeyfile(d: map<string, Path>, pathExists: Path -> bool)
    requires CERTFILE in d && !pathExists(d[CERTFILE])
    ensures CheckSslOptions(DictOptions(d), pathExists) == Some(FileNotFound(CERTFILE, d[CERTFILE]))
  {
  }
}
