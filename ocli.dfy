/** The `OCLI` class: one `@ocli/<name>` package, with its core function,
    its command metadata, the flags its command handler sets, and the helpers
    every command uses to resolve globs, read configuration files and fail. */
module Ocli {
  import opened Wrappers
  import opened Text
  import opened Values
  import opened Host
  import opened Utils

  const Scope := "@ocli/"
  /** The `TypeError` of destructuring `meta` when it is `null` or `undefined`. */
  function MissingMeta(meta: Value): string {
    if meta.Null? then "Cannot destructure 'meta' as it is null."
    else "Cannot destructure 'meta' as it is undefined."
  }
  const NoPathsFound := "No usable or existing paths found: "
  const Failed := "Failed"

  /** A core function as the library sees it: the number of parameters it
      declares (`fn.length`) and what a call with the given arguments
      resolves to or fails with. */
  datatype Seed = Seed(arity: nat, call: seq<Value> -> Result<Value>)

  /** `this._.fn`: nothing yet, the bound function itself, or the batch
      processor built around it with the given batch settings. */
  datatype Core = NoCore | Direct(seed: Seed) | Batched(seed: Seed, settings: Json)

  /** A command handler: what it returns for the parsed arguments. */
  type Handler = Json -> Value

  /** `this.cmd.handler`: absent, or the wrapper around the given handler. */
  datatype CmdHandler = NoHandler | Wrapped(inner: Handler)

  /** How `fail` ends: by throwing the error, or by logging it and exiting
      the process with code 1. */
  datatype Failure = Thrown(message: string) | Exited(message: string)

  /** The argument of `fail`: an `Error` by its message, or any other value. */
  datatype FailArg = ErrorObject(message: string) | Message(v: Value)

  /** A parsed configuration file for a single run. */
  datatype Config = Config(src: Json, dest: Json, options: Json)

  /** A parsed configuration file for a task. */
  datatype BatchConfig = BatchConfig(options: Json, paths: seq<Json>)

  // ---------------------------------------------------------------- names

  /** `pkgName` of a package whose name is `name`. */
  function PkgName(name: string): string {
    Scope + Lower(name)
  }

  lemma {:induction false} LowerIdempotent(s: string)
    ensures Lower(Lower(s)) == Lower(s)
  {
    var l := Lower(s);
    assert forall i :: 0 <= i < |s| ==> LowerChar(l[i]) == l[i];
  }

  /** The name is stored lower-cased, so the scoped name is the scope followed
      by the stored name. */
  lemma PkgNameOfLibrary(libName: string)
    ensures PkgName(Lower(libName)) == Scope + Lower(libName)
  {
    LowerIdempotent(libName);
  }

  /** `[o <name>]`. */
  function PrefixOf(name: string): string {
    "[o " + name + "]"
  }

  /** `prefix(str)`: the bare prefix for an empty string; otherwise `str`
      itself when it already starts with the prefix, ignoring case, and the
      prefix, a space and `str` when it does not. */
  function Prefixed(name: string, str: string): (r: string)
    ensures StartsWith(Lower(r), Lower(PrefixOf(name)))
    ensures str == "" ==> r == PrefixOf(name)
    ensures str != "" && StartsWith(Lower(str), Lower(PrefixOf(name))) ==> r == str
    ensures str != "" && !StartsWith(Lower(str), Lower(PrefixOf(name))) ==> r == PrefixOf(name) + " " + str
  {
    var pre := PrefixOf(name);
    if str == "" then pre
    else if !StartsWith(Lower(str), Lower(pre)) then
      LowerAppend(pre, " " + str);
      assert Lower(pre + " " + str)[..|pre|] == Lower(pre);
      pre + " " + str
    else str
  }

  /** Prefixing twice is prefixing once: a message that already carries the
      prefix, such as one `fail` produced before, is left as it is. */
  lemma PrefixIdempotent(name: string, str: string)
    ensures Prefixed(name, Prefixed(name, str)) == Prefixed(name, str)
  {
    assert StartsWith(Lower(PrefixOf(name)), Lower(PrefixOf(name)));
  }

  // ---------------------------------------------------------------- globs

  /** `defaultGlobOptions`. */
  const DefaultGlobOptions: Json := ObjOf([
    ("dot", Bool(false)), ("deep", Bool(true)), ("ignore", Arr([])), ("stats", Bool(false)),
    ("onlyFiles", Bool(true)), ("onlyDirectories", Bool(false)),
    ("followSymlinkedDirectories", Bool(true)), ("unique", Bool(true)),
    ("markDirectories", Bool(false)), ("absolute", Bool(false)), ("nobrace", Bool(false)),
    ("brace", Bool(true)), ("noglobstar", Bool(false)), ("globstar", Bool(true)),
    ("noext", Bool(false)), ("extension", Bool(true)), ("nocase", Bool(false)),
    ("case", Bool(true)), ("matchBase", Bool(false)), ("transform", Null)])

  /** The options handed to the glob engine: the defaults overridden by the caller's. */
  function GlobOptions(options: Json): (r: Json)
    ensures IsObject(r)
    ensures forall k :: HasOwn(options, k) ==> Prop(r, k) == options.fields[k]
    ensures forall k :: !HasOwn(options, k) ==> Prop(r, k) == Prop(DefaultGlobOptions, k)
  {
    Spread(DefaultGlobOptions, options)
  }

  /** The message of the empty-result error. */
  function NoPaths(env: Env, patterns: Json): string {
    var text := env.stringify(patterns);
    NoPathsFound + (if text.Some? then text.value else "")
  }

  /** `getGlobPaths(patterns, options, failOnEmpty)`: falsy patterns match
      nothing without asking the engine; matching nothing fails when
      `failOnEmpty` is set and gives the empty list otherwise; an engine
      failure is passed on. */
  function GetGlobPaths(env: Env, patterns: Json, options: Json, failOnEmpty: bool): (r: Result<seq<string>>)
    ensures !Truthy(patterns) ==> r == (if failOnEmpty then Err(NoPaths(env, patterns)) else Ok([]))
    ensures failOnEmpty && r.Ok? ==> r.value != []
    ensures r.Ok? && r.value != [] ==> env.glob(EnsureSrcArray(patterns), GlobOptions(options)) == r
    ensures var found := env.glob(EnsureSrcArray(patterns), GlobOptions(options));
      Truthy(patterns) ==>
        && (found.Err? ==> r == found)
        && (found.Ok? && found.value != [] ==> r == found)
        && (found.Ok? && found.value == [] ==> r == (if failOnEmpty then Err(NoPaths(env, patterns)) else Ok([])))
  {
    var errMsg := NoPaths(env, patterns);
    if !Truthy(patterns) then
      if failOnEmpty then Err(errMsg) else Ok([])
    else
      var found := env.glob(EnsureSrcArray(patterns), GlobOptions(options));
      if found.Err? then found
      else if found.value == [] then
        if failOnEmpty then Err(errMsg) else Ok([])
      else found
  }

  // ---------------------------------------------------------------- config files

  /** The `TypeError` of reading property `key` of `null` or `undefined`. */
  function ReadOfUnset(v: Value, key: string): string {
    "Cannot read properties of " + (if v.Null? then "null" else "undefined") + " (reading '" + key + "')"
  }

  /** `{ ...(defaults || {}), ...(options || {}) }`: the keys of `options`
      override those of `defaults`. */
  function MergeOptions(defaults: Json, options: Json): (r: Json)
    ensures IsObject(r)
    ensures forall k :: HasOwn(r, k) <==> HasOwn(defaults, k) || HasOwn(options, k)
    ensures forall k :: Prop(r, k) == if HasOwn(options, k) then options.fields[k] else Prop(defaults, k)
  {
    Spread(Spread(EmptyObj, OrEmpty(defaults)), OrEmpty(options))
  }

  /** `getConfig(filePath, defaultOptions)`: `src` and `dest` as the file has
      them, the file's options over the defaults. */
  function GetConfig(env: Env, filePath: Value, defaultOptions: Json): (r: Result<Config>)
    ensures var read := env.readJson(filePath);
      && (read.Err? ==> r == Err(read.msg))
      && (read.Ok? && !IsSet(read.value) ==> r == Err(ReadOfUnset(read.value, "src")))
      && (read.Ok? && IsSet(read.value) ==> r.Ok?)
    ensures r.Ok? ==> var config := env.readJson(filePath).value;
      r.value.src == Prop(config, "src") && r.value.dest == Prop(config, "dest")
      && r.value.options == MergeOptions(defaultOptions, Prop(config, "options"))
  {
    var read := env.readJson(filePath);
    if read.Err? then Err(read.msg)
    else
      var config := read.value;
      if !IsSet(config) then Err(ReadOfUnset(config, "src"))
      else Ok(Config(Prop(config, "src"), Prop(config, "dest"), MergeOptions(defaultOptions, Prop(config, "options"))))
  }

  /** The one-character strings of `s`, as spreading a string gives them. */
  function Chars(s: string): (r: seq<Json>)
    ensures |r| == |s| && forall i :: 0 <= i < |s| ==> r[i] == Str([s[i]])
  {
    if s == [] then [] else [Str([s[0]])] + Chars(s[1..])
  }

  /** The `TypeError` of spreading a value that is not iterable. */
  function NotIterable(v: Value): string {
    TypeName(v) + " is not iterable"
  }

  /** `[...(v || [])]`: a copy of a list; nothing for a falsy value. */
  function CopyList(v: Json): (r: Result<seq<Json>>)
    ensures !Truthy(v) ==> r == Ok([])
    ensures v.Arr? ==> r == Ok(v.items)
    ensures Truthy(v) && v.Str? ==> r == Ok(Chars(v.s))
    ensures Truthy(v) && !v.Arr? && !v.Str? ==> r == Err(NotIterable(v))
  {
    if !Truthy(v) then Ok([])
    else if v.Arr? then Ok(v.items)
    else if v.Str? then Ok(Chars(v.s))
    else Err(NotIterable(v))
  }

  /** `getBatchConfig(filePath, defaultGlobalOptions)`: the file's options
      over the defaults, and a copy of its `paths`, empty when it has none. */
  function GetBatchConfig(env: Env, filePath: Value, defaultGlobalOptions: Json): (r: Result<BatchConfig>)
    ensures var read := env.readJson(filePath);
      && (read.Err? ==> r == Err(read.msg))
      && (read.Ok? && !IsSet(read.value) ==> r == Err(ReadOfUnset(read.value, "options")))
      && (read.Ok? && IsSet(read.value) ==>
        var paths := CopyList(Prop(read.value, "paths"));
        (paths.Err? ==> r == Err(paths.msg)) && (paths.Ok? ==> r.Ok?))
    ensures r.Ok? ==> var config := env.readJson(filePath).value;
      r.value.options == MergeOptions(defaultGlobalOptions, Prop(config, "options"))
      && r.value.paths == CopyList(Prop(config, "paths")).value
  {
    var read := env.readJson(filePath);
    if read.Err? then Err(read.msg)
    else
      var config := read.value;
      if !IsSet(config) then Err(ReadOfUnset(config, "options"))
      else
        var paths := CopyList(Prop(config, "paths"));
        if paths.Err? then Err(paths.msg)
        else Ok(BatchConfig(MergeOptions(defaultGlobalOptions, Prop(config, "options")), paths.value))
  }

  // ---------------------------------------------------------------- the class

  /** `{ quiet: true, verbose: false }`. */
  const LogDefaults: Value := Obj(["quiet", "verbose"], map["quiet" := Bool(true), "verbose" := Bool(false)])

  lemma LogDefaultsObject()
    ensures IsObject(LogDefaults)
    ensures Prop(LogDefaults, "quiet") == Bool(true) && Prop(LogDefaults, "verbose") == Bool(false)
  {
    assert LogDefaults.keys[0] != LogDefaults.keys[1];
  }

  /** `{ quiet: true, verbose: false, ...(options || {}) }`. */
  function GlobalOptions(options: Json): (r: Json)
    ensures IsObject(r)
    ensures Prop(r, "quiet") == if HasOwn(options, "quiet") then options.fields["quiet"] else Bool(true)
    ensures Prop(r, "verbose") == if HasOwn(options, "verbose") then options.fields["verbose"] else Bool(false)
  {
    LogDefaultsObject();
    Spread(LogDefaults, OrEmpty(options))
  }

  /** The logger's `enabled` and `verbose` at construction: logging is off
      unless the global options set a falsy `quiet`, and `verbose` is the
      option's value, `false` by default. */
  function LogFlags(options: Json): (bool, Value) {
    (if HasOwn(options, "quiet") then !Truthy(options.fields["quiet"]) else false,
     if HasOwn(options, "verbose") then options.fields["verbose"] else Bool(false))
  }

  /** The flags are those the global options give. */
  lemma LogFlagsOfGlobalOptions(options: Json)
    ensures LogFlags(options).0 == !Truthy(Prop(GlobalOptions(options), "quiet"))
    ensures LogFlags(options).1 == Prop(GlobalOptions(options), "verbose")
  {
    var g := GlobalOptions(options);
    assert Prop(g, "quiet") == if HasOwn(options, "quiet") then options.fields["quiet"] else Bool(true);
  }

  /** `const { batchProcess, ...cmdMeta } = meta`: the command metadata. */
  function CmdMeta(meta: Json): (r: Json)
    ensures IsObject(r)
    ensures forall k :: HasOwn(r, k) <==> HasOwn(meta, k) && k != "batchProcess"
    ensures forall k :: k != "batchProcess" ==> Prop(r, k) == Prop(meta, k)
  {
    if meta.Obj? then Delete(meta, "batchProcess") else EmptyObj
  }

  /** The message of the error `fail` raises for its argument. */
  function MessageOf(arg: FailArg): string {
    match arg
    case ErrorObject(m) => m
    case Message(v) => if v.Undefined? then Failed else StringOf(v)
  }

  class OCLI {
    /** The lower-cased library name. */
    const name: string
    var core: Core
    /** The command metadata other than its handler. */
    var cmd: Json
    var handler: CmdHandler
    var cmdCall: bool
    /** `this._.supportsBatchTask`, unset until a batch core is defined. */
    var supportsBatchTask: Value
    var logEnabled: bool
    var logVerbose: Value

    /** `new OCLI(libName, options)`. */
    constructor (libName: string, options: Json)
      ensures name == Lower(libName)
      ensures core == NoCore && cmd == EmptyObj && handler == NoHandler
      ensures !cmdCall && supportsBatchTask == Undefined
      ensures (logEnabled, logVerbose) == LogFlags(options)
    {
      var flags := LogFlags(options);
      name := Lower(libName);
      core := NoCore;
      cmd := EmptyObj;
      handler := NoHandler;
      cmdCall := false;
      supportsBatchTask := Undefined;
      logEnabled, logVerbose := flags.0, flags.1;
    }

    /** The `supportsBatchTask` getter. */
    predicate SupportsBatchTask()
      reads this
    {
      Truthy(supportsBatchTask)
    }

    /** `define(fn, meta)`, the command handler passed apart from the other
        metadata: a truthy `batchProcess` marks batch support and makes the
        core the batch processor around `fn`; otherwise the core is `fn`
        itself. The handler, when there is one, is wrapped. */
    method Define(fn: Seed, meta: Json, metaHandler: Option<Handler>) returns (r: Result<()>)
      modifies this
      ensures r.Err? <==> !IsSet(meta)
      ensures r.Err? ==> r.msg == MissingMeta(meta) && unchanged(this)
      ensures r.Ok? && Truthy(Prop(meta, "batchProcess")) ==>
        core == Batched(fn, Prop(meta, "batchProcess")) && supportsBatchTask == Bool(true)
      ensures r.Ok? && !Truthy(Prop(meta, "batchProcess")) ==>
        core == Direct(fn) && supportsBatchTask == old(supportsBatchTask)
      ensures r.Ok? ==> cmd == CmdMeta(meta)
      ensures r.Ok? ==> handler == if metaHandler.Some? then Wrapped(metaHandler.value) else NoHandler
      ensures cmdCall == old(cmdCall) && logEnabled == old(logEnabled) && logVerbose == old(logVerbose)
    {
      if !IsSet(meta) {
        return Err(MissingMeta(meta));
      }
      var batchProcess := Prop(meta, "batchProcess");
      if Truthy(batchProcess) {
        supportsBatchTask := Bool(true);
        core := Batched(fn, batchProcess);
      } else {
        core := Direct(fn);
      }
      cmd := CmdMeta(meta);
      handler := if metaHandler.Some? then Wrapped(metaHandler.value) else NoHandler;
      return Ok(());
    }

    /** Calling the wrapped handler with `argv` (`{}` when omitted): marks a
        command-line call, enables logging unless `quiet` is `true`, and
        makes it verbose only when `verbose` is `true`; non-boolean flags
        count as absent. */
    method Handle(argv: Json) returns (r: Result<Value>)
      requires handler.Wrapped?
      modifies this
      ensures core == old(core) && cmd == old(cmd) && handler == old(handler)
      ensures supportsBatchTask == old(supportsBatchTask)
      ensures cmdCall
      ensures argv.Null? ==>
        r == Err(ReadOfUnset(argv, "quiet")) && logEnabled == old(logEnabled) && logVerbose == old(logVerbose)
      ensures !argv.Null? ==> var args := if argv.Undefined? then EmptyObj else argv;
        logEnabled == !(Prop(args, "quiet") == Bool(true))
        && logVerbose == Bool(Prop(args, "verbose") == Bool(true))
        && r == Ok(handler.inner(args))
    {
      cmdCall := true;
      if argv.Null? {
        return Err(ReadOfUnset(argv, "quiet"));
      }
      var args := if argv.Undefined? then EmptyObj else argv;
      var quiet, verbose := Prop(args, "quiet"), Prop(args, "verbose");
      logEnabled := if quiet.Bool? then !quiet.b else true;
      logVerbose := Bool(if verbose.Bool? then verbose.b else false);
      return Ok(handler.inner(args));
    }

    /** `fail(errOrMsg)`: the error's message gets the prefix; a command-line
        call in production mode exits, anything else throws. */
    function Fail(arg: FailArg, production: bool): (f: Failure)
      reads this
      ensures f.Exited? <==> production && cmdCall
      ensures f.message == Prefixed(name, MessageOf(arg))
      ensures StartsWith(Lower(f.message), Lower(PrefixOf(name)))
    {
      var message := Prefixed(name, MessageOf(arg));
      if production && cmdCall then Exited(message) else Thrown(message)
    }
  }

  /** Failing again with the message of an earlier failure gives the same
      message: an error raised by `fail` inside a core function and failed
      once more by the batch processor is not prefixed twice. */
  lemma FailTwice(o: OCLI, arg: FailArg, production: bool, production': bool)
    ensures o.Fail(ErrorObject(o.Fail(arg, production).message), production').message
      == o.Fail(arg, production).message
  {
    PrefixIdempotent(o.name, MessageOf(arg));
  }
}
