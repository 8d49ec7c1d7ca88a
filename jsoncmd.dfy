/** The core function of the `json` command: it rewrites one JSON file,
    indented or not, into a destination directory or over itself, and
    refuses to replace an existing file unless asked to. */
module JsonCommand {
  import opened Wrappers
  import opened Values
  import opened Host
  import opened Paths
  import opened Batch
  import opened Copy
  import opened Text
  import Ocli

  /** The command's name, `new OCLI('JSON')` lower-cased: `fail` prefixes
      its messages with "[o json]". */
  const JsonName := "json"

  const AlreadyExists := "JSON file already exists: "

  /** `defaultOptions`, with `process.cwd()` for `cwd`. */
  function JsonDefaults(env: Env): (r: Json)
    ensures IsObject(r)
  {
    ObjOf([("indent", Num(0)), ("removeComments", Bool(false)), ("parents", Bool(false)),
      ("overwrite", Bool(false)), ("errorOnExists", Bool(true)), ("dereference", Bool(false)),
      ("cwd", Str(Render(env.cwd))), ("dot", Bool(false))])
  }

  /** The `batchProcess` settings the command is defined with. Each of the
      five is given, so destructuring them with their defaults keeps them. */
  function JsonSettings(env: Env): Settings {
    Settings(JsonDefaults(env), Str("Wrote"), Bool(true), Bool(true), Bool(false))
  }

  /** `typeof v === 'number' && v > 0`. */
  predicate Positive(v: Value) {
    match v
    case Num(n) => n > 0
    case Float(t) => !(|t| > 0 && t[0] == '-')
    case Inf(negative) => !negative
    case _ => false
  }

  /** The parent part with `parents` set: the source's directory relative to
      `cwd` (nothing when it leaves `cwd`), cut down to its last levels when
      `parents` is a positive number. */
  function ParentLevels(env: Env, cwd: Path, from: Path, parents: Value): (part: string)
    ensures ParentPart(cwd, from) == "" || !Positive(parents) ==> part == ParentPart(cwd, from)
  {
    var p := ParentPart(cwd, from);
    if p != "" && Positive(parents) then env.getParents(p, parents) else p
  }

  /** The `parents` argument of the final `path.join`: empty unless both a
      destination and `parents` are given. */
  function JoinedPart(env: Env, cwd: Path, from: Path, parents: Value): (part: string)
    ensures !Truthy(parents) ==> part == ""
  {
    if Truthy(parents) then ParentLevels(env, cwd, from, parents) else ""
  }

  /** The file written: `path.join(dest, parents, basename)`, where without
      `dest` the source's own directory is used and no parent part. */
  function JsonTarget(env: Env, cwd: Path, from: Path, dest: Value, parents: Value): (r: Path)
    requires !Truthy(dest) || dest.Str?
    ensures !Truthy(dest) ==> r == from
    ensures Truthy(dest) && !(Truthy(parents) && Positive(parents)) ==>
      r == CopyTarget(env, cwd, from, dest.s, Truthy(parents))
  {
    if !Truthy(dest) then
      assert JoinPath(Dirname(from), Basename(from)) == from by {
        if from == [] {
          JoinEmpty(from);
        } else {
          JoinSegment(Dirname(from), Basename(from));
          assert Dirname(from) + [Basename(from)] == from;
        }
      }
      JoinPath(Dirname(from), Basename(from))
    else
      JoinPath(JoinPath(ResolveOne(env.cwd, dest.s), JoinedPart(env, cwd, from, parents)), Basename(from))
  }

  /** The text `path.join(dest, parents, basename)` gives, which the
      messages show: relative when `dest` is, and without `dest` the
      source's own path. Resolved, it is the file written. */
  function JsonTargetText(env: Env, cwd: Path, from: Path, dest: Value, parents: Value): (t: string)
    requires !Truthy(dest) || dest.Str?
    ensures ResolveOne(env.cwd, t) == JsonTarget(env, cwd, from, dest, parents)
    ensures !Truthy(dest) ==> t == Render(from)
  {
    if !Truthy(dest) then
      JoinDirnameBasename(from);
      ResolveRendered(env.cwd, "", from);
      JoinText([Render(Dirname(from)), "", Basename(from)])
    else
      JoinTextResolves(env.cwd, dest.s, JoinedPart(env, cwd, from, parents), Basename(from));
      JoinText([dest.s, JoinedPart(env, cwd, from, parents), Basename(from)])
  }

  /** The options of the write: `space` is the indent, 0 when it is falsy,
      and `autoPath` is the `parents` option. */
  function WriteOptions(options: Json): (r: Json)
    ensures IsObject(r)
    ensures Truthy(Prop(options, "indent")) ==> Prop(r, "space") == Prop(options, "indent")
    ensures !Truthy(Prop(options, "indent")) ==> Prop(r, "space") == Num(0)
    ensures Prop(r, "autoPath") == Prop(options, "parents")
  {
    var indent := Prop(options, "indent");
    var o := Put(EmptyObj, "space", if Truthy(indent) then indent else Num(0));
    Put(o, "autoPath", Prop(options, "parents"))
  }

  /** The message `ocli.fail` throws for an existing target shown as `shown`. */
  function ExistsMessage(shown: string): (m: string)
    ensures m == Ocli.PrefixOf(JsonName) + " " + AlreadyExists + shown
  {
    var m := AlreadyExists + shown;
    assert !StartsWith(Lower(m), Lower(Ocli.PrefixOf(JsonName))) by {
      assert Lower(m)[0] == 'j' && Lower(Ocli.PrefixOf(JsonName))[0] == '[';
    }
    Ocli.Prefixed(JsonName, m)
  }

  /** Whether an existing target stops the write: only without `overwrite`.
      The target is checked as the file it names, and shown as `shown`. */
  function ExistingTarget(env: Env, to: Path, shown: string, options: Json): (r: Option<Result<Value>>)
    ensures r.Some? <==> !Truthy(Prop(options, "overwrite")) && env.pathExists(to)
    ensures r.Some? && Truthy(Prop(options, "errorOnExists")) ==> r.value == Err(ExistsMessage(shown))
    ensures r.Some? && !Truthy(Prop(options, "errorOnExists")) ==> r.value == Ok(Bool(false))
  {
    if !Truthy(Prop(options, "overwrite")) && env.pathExists(to) then
      if Truthy(Prop(options, "errorOnExists")) then Some(Err(ExistsMessage(shown))) else Some(Ok(Bool(false)))
    else None
  }

  /** Reading the source and writing it to the target. */
  function Rewrite(env: Env, from: Path, to: Path, options: Json): (r: Result<Value>)
    ensures r.Ok? ==> r.value == Bool(true)
    ensures r.Ok? <==> (env.readJson(Str(Render(from))).Ok?
      && env.perform(WriteJson(to, env.readJson(Str(Render(from))).value, WriteOptions(options))).None?)
  {
    var content := env.readJson(Str(Render(from)));
    if content.Err? then Err(content.msg)
    else
      var failure := env.perform(WriteJson(to, content.value, WriteOptions(options)));
      if failure.Some? then Err(failure.value) else Ok(Bool(true))
  }

  /** `fnSeed(src, dest, options)`: `true` once the file is written, `false`
      when an existing file is kept, or the error that stops it. The `cwd`
      option is read to resolve a relative source and, with a destination
      and `parents`, to take the source relative to it. */
  function JsonSeed(env: Env, src: Value, dest: Value, options: Json): (r: Result<Value>)
    requires options.Obj?
    ensures !src.Str? ==> r == Err(SourceNotString)
    ensures src.Str? && !IsAbsolute(src.s) && !Prop(options, "cwd").Str? ==> r == Err(BaseNotString)
    ensures ResolveValues(env.cwd, Prop(options, "cwd"), src).Ok? && Truthy(dest) && !dest.Str? ==> r == Err(DestNotString)
    ensures ResolveValues(env.cwd, Prop(options, "cwd"), src).Ok? && dest.Str? && Truthy(dest) ==>
      (env.perform(EnsureDir(ResolveOne(env.cwd, dest.s))).Some? ==>
        r == Err(env.perform(EnsureDir(ResolveOne(env.cwd, dest.s))).value))
      && (env.perform(EnsureDir(ResolveOne(env.cwd, dest.s))).None? ==>
        Truthy(Prop(options, "parents")) && !Prop(options, "cwd").Str? ==> r == Err(FromNotString))
    ensures r.Ok? ==> r.value == Bool(true) || r.value == Bool(false)
  {
    var cwd := Prop(options, "cwd");
    var from := ResolveValues(env.cwd, cwd, src);
    if from.Err? then Err(from.msg)
    else if Truthy(dest) && !dest.Str? then Err(DestNotString)
    else
      var ensured := if Truthy(dest) then env.perform(EnsureDir(ResolveOne(env.cwd, dest.s))) else None;
      if ensured.Some? then Err(ensured.value)
      else if Truthy(dest) && Truthy(Prop(options, "parents")) && !cwd.Str? then Err(FromNotString)
      else
        var to := JsonTarget(env, CwdPath(env, cwd), from.value, dest, Prop(options, "parents"));
        var shown := JsonTargetText(env, CwdPath(env, cwd), from.value, dest, Prop(options, "parents"));
        var existing := ExistingTarget(env, to, shown, options);
        if existing.Some? then existing.value else Rewrite(env, from.value, to, options)
  }

  // ---------------------------------------------------------------- properties

  /** The command is a glob-based batch over files only, reporting what it
      "Wrote": its summary counts files. */
  lemma JsonBatchOfFiles(env: Env, n: int)
    ensures var s := JsonSettings(env);
      && Truthy(s.useGlobs) && Truthy(s.files) && !Truthy(s.directories) && s.verb == Str("Wrote")
      && Plural(s, n) == (if n == 1 then "file" else "files")
  {
  }

  /** Without `dest` the file is written over its source, so without
      `overwrite` an existing source is never written: the call fails or
      gives `false`. */
  lemma NoDestKeepsSource(env: Env, src: string, options: Json)
    requires options.Obj? && ResolveValues(env.cwd, Prop(options, "cwd"), Str(src)).Ok?
    requires !Truthy(Prop(options, "overwrite"))
    requires env.pathExists(ResolveValues(env.cwd, Prop(options, "cwd"), Str(src)).value)
    ensures var from := ResolveValues(env.cwd, Prop(options, "cwd"), Str(src)).value;
      JsonSeed(env, Str(src), Undefined, options)
        == if Truthy(Prop(options, "errorOnExists")) then Err(ExistsMessage(Render(from))) else Ok(Bool(false))
  {
  }

  /** Without `overwrite`, an existing target is never written: the call
      fails with "JSON file already exists" when `errorOnExists` is set, and
      gives `false` otherwise. */
  lemma JsonKeepsExisting(env: Env, src: string, dest: Value, options: Json)
    requires options.Obj? && Prop(options, "cwd").Str? && (!Truthy(dest) || dest.Str?)
    requires Truthy(dest) ==> env.perform(EnsureDir(ResolveOne(env.cwd, dest.s))).None?
    requires !Truthy(Prop(options, "overwrite"))
    requires var from := Resolve(env.cwd, Prop(options, "cwd").s, src);
      env.pathExists(JsonTarget(env, ResolveOne(env.cwd, Prop(options, "cwd").s), from, dest, Prop(options, "parents")))
    ensures var from := Resolve(env.cwd, Prop(options, "cwd").s, src);
      var shown := JsonTargetText(env, ResolveOne(env.cwd, Prop(options, "cwd").s), from, dest, Prop(options, "parents"));
      JsonSeed(env, Str(src), dest, options)
        == if Truthy(Prop(options, "errorOnExists")) then Err(ExistsMessage(shown)) else Ok(Bool(false))
  {
  }

  /** Once nothing stops it, the file is written to the target with the
      options of the write, and the call gives `true`. */
  lemma JsonWrites(env: Env, src: Value, dest: Value, options: Json)
    requires options.Obj?
    requires JsonSeed(env, src, dest, options) == Ok(Bool(true))
    ensures ResolveValues(env.cwd, Prop(options, "cwd"), src).Ok? && (!Truthy(dest) || dest.Str?)
    ensures var from := ResolveValues(env.cwd, Prop(options, "cwd"), src).value;
      var to := JsonTarget(env, CwdPath(env, Prop(options, "cwd")), from, dest, Prop(options, "parents"));
      && (Truthy(Prop(options, "overwrite")) || !env.pathExists(to))
      && env.readJson(Str(Render(from))).Ok?
      && env.perform(WriteJson(to, env.readJson(Str(Render(from))).value, WriteOptions(options))).None?
  {
  }
}
