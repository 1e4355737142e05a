/** Start-up validation of the grizzly command-line launcher.

    The launcher reads its flags, prints usage and exits 0 when help is
    asked for, otherwise checks the document root, the stub, the cert and
    the key in that order, exits 1 on the first rule that fails, and
    otherwise builds the options record handed to the server engine.
    Here the parsed flags are a value, the filesystem is the predicate
    `onDisk`, and the three outcomes are a datatype.
 */
module Startup {

  datatype Option<T> = None | Some(value: T)

  /** Value used by the launcher when a flag is not given. */
  function OrElse<T>(o: Option<T>, default: T): T {
    match o
    case Some(v) => v
    case None => default
  }

  const DefaultPort: int := 8443
  const DefaultBackend: string := "secure.gooddata.com"

  /** What the argument parser yields for `--document-root`: nothing, the
      bare switch (a boolean), or a string argument. */
  datatype DocumentRootFlag = Absent | Bool(flag: bool) | Str(path: string)

  /** The parsed command line. `port` and `backend` are None when the flag
      was not given; `stub`, `cert` and `key` hold the given string, which
      may be empty. */
  datatype Flags = Flags(
    help: bool,
    port: Option<int>,
    backend: Option<string>,
    documentRoot: DocumentRootFlag,
    stub: Option<string>,
    cert: Option<string>,
    key: Option<string>,
    autoassignPort: bool)

  /** The options record passed to the engine. */
  datatype Options = Options(
    host: string,
    port: int,
    root: string,
    stub: Option<string>,
    cert: Option<string>,
    key: Option<string>,
    autoassignPort: bool)

  /** The four paths the launcher checks for existence, in checking order. */
  datatype Field = DocumentRoot | Stub | Cert | Key

  datatype Failure =
    | NoDocumentRoot                        // document root missing, empty or a bare switch
    | NotFound(field: Field, tried: string) // a supplied path that does not exist

  datatype Outcome = Help | Err(failure: Failure) | Ok(options: Options)

  /** JavaScript truthiness of an optional string: absent and "" are falsy. */
  predicate Truthy(o: Option<string>) {
    o.Some? && o.value != ""
  }

  /** Position of each rule in the checking order. */
  function Rank(f: Field): nat {
    match f
    case DocumentRoot => 0
    case Stub => 1
    case Cert => 2
    case Key => 3
  }

  /** Whether the flag behind `f` holds a path the launcher will check. */
  predicate Supplied(flags: Flags, f: Field) {
    match f
    case DocumentRoot => flags.documentRoot.Str? && flags.documentRoot.path != ""
    case Stub => Truthy(flags.stub)
    case Cert => Truthy(flags.cert)
    case Key => Truthy(flags.key)
  }

  /** The path the launcher tries for `f` ("" when there is none). */
  function PathOf(flags: Flags, f: Field): string {
    match f
    case DocumentRoot => if flags.documentRoot.Str? then flags.documentRoot.path else ""
    case Stub => OrElse(flags.stub, "")
    case Cert => OrElse(flags.cert, "")
    case Key => OrElse(flags.key, "")
  }

  /** The existence rule for `f` fails: the path was supplied and is not on disk. */
  predicate Fails(flags: Flags, onDisk: string -> bool, f: Field) {
    Supplied(flags, f) && !onDisk(PathOf(flags, f))
  }

  /** `f` is the failing rule the launcher reports: help is off, a document
      root was given, `f` fails and every rule checked before it passes. */
  predicate FirstFailing(flags: Flags, onDisk: string -> bool, f: Field) {
    && !flags.help
    && Supplied(flags, DocumentRoot)
    && Fails(flags, onDisk, f)
    && forall g :: Rank(g) < Rank(f) ==> !Fails(flags, onDisk, g)
  }

  /** The launcher's decision before it starts the engine. */
  function Validate(flags: Flags, onDisk: string -> bool): (r: Outcome)
    // help wins over every other flag and every rule
    ensures r.Help? <==> flags.help
    // a missing, empty or bare-switch document root is reported before any existence check
    ensures r == Err(NoDocumentRoot) <==> !flags.help && !Supplied(flags, DocumentRoot)
    // only the first failing existence rule is reported, with the path it tried
    ensures forall f :: r == Err(NotFound(f, PathOf(flags, f))) <==> FirstFailing(flags, onDisk, f)
    ensures r.Err? && r.failure.NotFound? ==> r.failure.tried == PathOf(flags, r.failure.field)
    // success exactly when no rule fails
    ensures r.Ok? <==> !flags.help && Supplied(flags, DocumentRoot) && forall f :: !Fails(flags, onDisk, f)
    // on success the flags are copied, with the parser's defaults for port and backend
    ensures r.Ok? ==>
      && r.options.host == OrElse(flags.backend, DefaultBackend)
      && r.options.port == OrElse(flags.port, DefaultPort)
      && r.options.root == PathOf(flags, DocumentRoot)
      && r.options.stub == flags.stub
      && r.options.cert == flags.cert
      && r.options.key == flags.key
      && r.options.autoassignPort == flags.autoassignPort
  {
    if flags.help then
      Help
    else
      match flags.documentRoot
      case Absent => Err(NoDocumentRoot)
      case Bool(_) => Err(NoDocumentRoot)
      case Str(root) =>
        if root == "" then Err(NoDocumentRoot)
        else if !onDisk(root) then
          assert Fails(flags, onDisk, DocumentRoot) && Rank(DocumentRoot) == 0;
          Err(NotFound(DocumentRoot, root))
        else if Truthy(flags.stub) && !onDisk(flags.stub.value) then
          assert Fails(flags, onDisk, Stub) && Rank(Stub) == 1;
          Err(NotFound(Stub, flags.stub.value))
        else if Truthy(flags.cert) && !onDisk(flags.cert.value) then
          assert Fails(flags, onDisk, Cert) && Rank(Cert) == 2;
          Err(NotFound(Cert, flags.cert.value))
        else if Truthy(flags.key) && !onDisk(flags.key.value) then
          assert Fails(flags, onDisk, Key) && Rank(Key) == 3;
          Err(NotFound(Key, flags.key.value))
        else
          Ok(Options(
            host := OrElse(flags.backend, DefaultBackend),
            port := OrElse(flags.port, DefaultPort),
            root := root,
            stub := flags.stub,
            cert := flags.cert,
            key := flags.key,
            autoassignPort := flags.autoassignPort))
  }

  /** The process exit code an outcome leads to; None when the launcher
      goes on to start the engine. */
  function ExitCode(o: Outcome): (code: Option<int>)
    ensures code == Some(0) <==> o.Help?
    ensures code == Some(1) <==> o.Err?
    ensures code == None <==> o.Ok?
  {
    match o
    case Help => Some(0)
    case Err(_) => Some(1)
    case Ok(_) => None
  }

  /** With help set, neither the other flags nor the filesystem matter. */
  lemma HelpIgnoresEverythingElse(a: Flags, b: Flags, onDiskA: string -> bool, onDiskB: string -> bool)
    requires a.help && b.help
    ensures Validate(a, onDiskA) == Validate(b, onDiskB) == Help
    ensures ExitCode(Validate(a, onDiskA)) == Some(0)
  {
  }

  /** Every failure exits with status 1. */
  lemma FailuresExitOne(flags: Flags, onDisk: string -> bool)
    ensures Validate(flags, onDisk).Err? <==> !flags.help && (!Supplied(flags, DocumentRoot) || exists f :: Fails(flags, onDisk, f))
    ensures Validate(flags, onDisk).Err? ==> ExitCode(Validate(flags, onDisk)) == Some(1)
  {
  }

  /** An optional file that is absent or empty never causes a failure. */
  lemma UnsuppliedFileNeverFails(flags: Flags, onDisk: string -> bool, f: Field)
    requires !Supplied(flags, f)
    ensures forall p :: Validate(flags, onDisk) != Err(NotFound(f, p))
  {
  }

  /** Validation only asks the filesystem about the paths that were supplied:
      two filesystems that agree on those give the same outcome. */
  lemma ConsultsOnlySuppliedPaths(flags: Flags, onDisk1: string -> bool, onDisk2: string -> bool)
    requires forall f :: Supplied(flags, f) ==> onDisk1(PathOf(flags, f)) == onDisk2(PathOf(flags, f))
    ensures Validate(flags, onDisk1) == Validate(flags, onDisk2)
  {
  }

  /** Creating files never turns an accepted command line into a rejected one. */
  lemma MoreFilesStillAccepted(flags: Flags, onDisk1: string -> bool, onDisk2: string -> bool)
    requires forall p :: onDisk1(p) ==> onDisk2(p)
    requires Validate(flags, onDisk1).Ok?
    ensures Validate(flags, onDisk2) == Validate(flags, onDisk1)
  {
  }
}
