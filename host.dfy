/** What the library obtains from its surroundings and does not compute
    itself: the process working directory, the JSON reader and writer, the
    runtime's number conversions of fractional text, the glob engine and
    the file system. Each is a parameter of the model. */
module Host {
  import opened Wrappers
  import opened Values
  import opened Paths

  /** A JavaScript value that is well formed. */
  type Json = v: Value | Wf(v) witness Undefined

  /** An absolute normalised path. */
  type Path = p: Segs | Canonical(p) witness []

  /** The runtime conversion applied to a numeric string. */
  datatype Conversion = ToNumber | ParseFloat | ParseInt

  /** A file-system request whose outcome the library only passes on. */
  datatype FsCall =
    | Copy(from: Path, to: Path, options: Json)
    | EnsureDir(dir: Path)
    | WriteJson(file: Path, content: Json, options: Json)
    | MakeDir(dir: Path, mode: Json)

  datatype Env = Env(
    /** `process.cwd()`. */
    cwd: Path,
    /** `JSON.parse`: the value, or the message of the `SyntaxError`. */
    jsonParse: string -> Result<Json>,
    /** `jsonc.safe.stringify`: the text, or nothing when it yields none. */
    stringify: Json -> Option<string>,
    /** `Number`, `parseFloat` or `parseInt(_, 10)` applied to text that is
        not a plain decimal integer. */
    convert: (Conversion, string) -> Json,
    /** The glob engine: matched paths for the patterns and options, or the
        message it rejects with. */
    glob: (seq<Value>, Json) -> Result<seq<string>>,
    /** Reading and parsing the JSON file a value names, relative paths taken
        from the working directory; a value that is not a readable path fails. */
    readJson: Value -> Result<Json>,
    /** `fs.pathExists`. */
    pathExists: Path -> bool,
    /** `fs.lstat(p).isDirectory()`, failing when `p` cannot be read. */
    isDirectory: Path -> Result<bool>,
    /** `utils.getParents(dir, levels, sep)`: the last `levels` levels of a
        relative directory; its code is not part of this model. */
    getParents: (string, Value) -> string,
    /** Performs a file-system request, failing with a message. */
    perform: FsCall -> Option<string>
  )

  /** The `TypeError`s of `path.resolve(base, p)` given a `p` that is not a
      string, of `path.relative` given a `from` that is not one, and of
      `fs.lstat` given a path that is not one. */
  const SourceNotString := "The \"paths[1]\" argument must be of type string."
  const FromNotString := "The \"from\" argument must be of type string."
  const PathNotAccepted := "The \"path\" argument must be of type string or an instance of Buffer or URL."

  /** `path.resolve(base, p)` on JavaScript values. The arguments are taken
      from the right: `p` is checked first, and an absolute `p` is the
      result without `base` being read at all. */
  function ResolveValues(cwd: Path, base: Value, p: Value): (r: Result<Path>)
    ensures !p.Str? ==> r == Err(SourceNotString)
    ensures p.Str? && IsAbsolute(p.s) ==> r == Ok(ResolveOne(cwd, p.s))
    ensures p.Str? && !IsAbsolute(p.s) && !base.Str? ==> r == Err(BaseNotString)
    ensures p.Str? && base.Str? ==> r == Ok(Resolve(cwd, base.s, p.s))
  {
    if !p.Str? then Err(SourceNotString)
    else if IsAbsolute(p.s) then Ok(ResolveOne(cwd, p.s))
    else if !base.Str? then Err(BaseNotString)
    else Ok(Resolve(cwd, base.s, p.s))
  }

  /** The `cwd` option as `path.relative` resolves it. It is only read once
      `path.relative` has accepted it, that is, when it is a string; any
      other value stands for the process working directory. */
  function CwdPath(env: Env, cwd: Value): (r: Path)
    ensures cwd.Str? ==> r == ResolveOne(env.cwd, cwd.s)
  {
    if cwd.Str? then ResolveOne(env.cwd, cwd.s) else env.cwd
  }
}
