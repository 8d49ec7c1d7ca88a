/** `copyOne`, the seed of the `copy` command: copies one source file into
    a destination directory, optionally below the source's own directories
    relative to `cwd`, never outside the destination. */
module Copy {
  import opened Wrappers
  import opened Text
  import opened Values
  import opened Host
  import opened Paths

  /** The `TypeError` of `path.join` given a first argument that is not a
      string. */
  const DestNotString := "The \"path\" argument must be of type string."

  /** The directories kept under the destination with `parents`: the
      source's directory relative to `cwd`, or nothing when that relative
      path contains "..". */
  function ParentPart(cwd: Path, from: Path): string {
    var p := Relative(cwd, Dirname(from));
    if Contains(p, "..") then "" else p
  }

  /** With a source directory inside `cwd`, the parent part names exactly
      the segments below `cwd`. */
  lemma ParentPartInside(cwd: Path, from: Path)
    requires !Contains(Relative(cwd, Dirname(from)), "..")
    ensures IsPrefix(cwd, Dirname(from))
    ensures ParentPart(cwd, from) == JoinWith(Dirname(from)[|cwd|..], '/')
  {
    RelativeWithoutDots(cwd, Dirname(from));
  }

  /** The file the copy goes to: `path.join(dest, parents, basename)`, as the
      file system resolves it. */
  function CopyTarget(env: Env, cwd: Path, from: Path, dest: string, parents: bool): (r: Path)
    ensures var d := ResolveOne(env.cwd, dest); var dir := Dirname(from);
      var inside := parents && !Contains(Relative(cwd, dir), "..");
      (inside ==> IsPrefix(cwd, dir))
      && r == d + (if inside then dir[|cwd|..] else []) + (if from == [] then [] else [Basename(from)])
  {
    var d := ResolveOne(env.cwd, dest);
    var dir := Dirname(from);
    var inside := parents && !Contains(Relative(cwd, dir), "..");
    var part := if parents then ParentPart(cwd, from) else "";
    var mid: Segs := if inside then (ParentPartInside(cwd, from); dir[|cwd|..]) else [];
    assert JoinPath(d, part) == d + mid by {
      if inside {
        ParentPartInside(cwd, from);
        JoinCanonical(d, mid);
      } else {
        JoinEmpty(d);
      }
    }
    var base := JoinPath(d, part);
    assert JoinPath(base, Basename(from)) == base + (if from == [] then [] else [Basename(from)]) by {
      if from != [] {
        JoinSegment(base, Basename(from));
      } else {
        JoinEmpty(base);
      }
    }
    JoinPath(base, Basename(from))
  }

  /** The options passed on to the copy: all but `dot`, with
      `preserveTimestamps` set to `timestamps`. */
  function CopyOptions(options: Json): (r: Json)
    requires options.Obj?
    ensures IsObject(r) && !HasOwn(r, "dot")
    ensures Prop(r, "preserveTimestamps") == Prop(options, "timestamps")
    ensures forall k :: k != "dot" && k != "preserveTimestamps" ==>
      (Prop(r, k) == Prop(options, k) && (HasOwn(r, k) <==> HasOwn(options, k)))
  {
    var rest := Delete(options, "dot");
    Put(rest, "preserveTimestamps", Prop(rest, "timestamps"))
  }

  /** The request `copyOne(src, dest, options)` makes, or the error that
      stops it first: resolving the source (which reads `cwd` only for a
      relative source), then, with `parents`, taking it relative to `cwd`,
      then joining it to the destination. */
  function CopyRequest(env: Env, src: Value, dest: Value, options: Json): (r: Result<FsCall>)
    requires options.Obj?
    ensures !src.Str? ==> r == Err(SourceNotString)
    ensures src.Str? && !IsAbsolute(src.s) && !Prop(options, "cwd").Str? ==> r == Err(BaseNotString)
    ensures src.Str? && IsAbsolute(src.s) && Truthy(Prop(options, "parents")) && !Prop(options, "cwd").Str? ==>
      r == Err(FromNotString)
    ensures src.Str? && !dest.Str? && (Prop(options, "cwd").Str? || (IsAbsolute(src.s) && !Truthy(Prop(options, "parents")))) ==>
      r == Err(DestNotString)
    ensures r.Ok? <==> src.Str? && dest.Str? && (Prop(options, "cwd").Str? || (IsAbsolute(src.s) && !Truthy(Prop(options, "parents"))))
    ensures r.Ok? ==> var from := ResolveValues(env.cwd, Prop(options, "cwd"), src).value;
      r == Ok(Copy(from, CopyTarget(env, CwdPath(env, Prop(options, "cwd")), from, dest.s, Truthy(Prop(options, "parents"))),
        CopyOptions(options)))
  {
    var cwd := Prop(options, "cwd");
    var parents := Truthy(Prop(options, "parents"));
    var from := ResolveValues(env.cwd, cwd, src);
    if from.Err? then Err(from.msg)
    else if parents && !cwd.Str? then Err(FromNotString)
    else if !dest.Str? then Err(DestNotString)
    else Ok(Copy(from.value, CopyTarget(env, CwdPath(env, cwd), from.value, dest.s, parents), CopyOptions(options)))
  }

  /** An absolute source copied without `parents` never reads `cwd`: two
      option sets that differ only there copy the same file to the same
      place, even when one `cwd` is not a string. */
  lemma CopyAbsoluteIgnoresCwd(env: Env, src: string, dest: string, options: Json, options': Json)
    requires options.Obj? && options'.Obj? && IsAbsolute(src)
    requires Prop(options, "parents") == Prop(options', "parents") && !Truthy(Prop(options, "parents"))
    ensures CopyRequest(env, Str(src), Str(dest), options).Ok? && CopyRequest(env, Str(src), Str(dest), options').Ok?
    ensures CopyRequest(env, Str(src), Str(dest), options).value.from == CopyRequest(env, Str(src), Str(dest), options').value.from
    ensures CopyRequest(env, Str(src), Str(dest), options).value.to == CopyRequest(env, Str(src), Str(dest), options').value.to
  {
    var from := ResolveOne(env.cwd, src);
    assert ResolveValues(env.cwd, Prop(options, "cwd"), Str(src)) == Ok(from);
    assert ResolveValues(env.cwd, Prop(options', "cwd"), Str(src)) == Ok(from);
    CopyFlatAnyCwd(env, CwdPath(env, Prop(options, "cwd")), CwdPath(env, Prop(options', "cwd")), from, dest);
  }

  /** Without `parents` the target does not depend on `cwd`. */
  lemma CopyFlatAnyCwd(env: Env, cwd: Path, cwd': Path, from: Path, dest: string)
    ensures CopyTarget(env, cwd, from, dest, false) == CopyTarget(env, cwd', from, dest, false)
  {
  }

  /** `copyOne(src, dest, options)`: `true` once the copy is done, or the
      error of the copy. */
  function CopyOne(env: Env, src: Value, dest: Value, options: Json): (r: Result<Value>)
    requires options.Obj?
    ensures r.Ok? <==> CopyRequest(env, src, dest, options).Ok? && env.perform(CopyRequest(env, src, dest, options).value).None?
    ensures r.Ok? ==> r.value == Bool(true)
  {
    var request := CopyRequest(env, src, dest, options);
    if request.Err? then Err(request.msg)
    else
      var failure := env.perform(request.value);
      if failure.Some? then Err(failure.value) else Ok(Bool(true))
  }

  // ---------------------------------------------------------------- properties

  /** A path below `cwd` whose directory is below it too: the part under
      `cwd` is the directory's part followed by the base name. */
  lemma BelowSplit(cwd: Path, from: Path)
    requires from != [] && IsPrefix(cwd, Dirname(from))
    ensures IsPrefix(cwd, from)
    ensures from[|cwd|..] == Dirname(from)[|cwd|..] + [Basename(from)]
  {
    var dir := Dirname(from);
    assert from == dir + [Basename(from)];
    assert from[..|cwd|] == dir[..|cwd|];
  }

  /** With `parents` and a source directory inside `cwd` (the relative path
      free of ".."), the source's path below `cwd` is repeated below the
      destination. */
  lemma CopyParentsInside(env: Env, cwd: Path, from: Path, dest: string)
    requires from != [] && !Contains(Relative(cwd, Dirname(from)), "..")
    ensures IsPrefix(cwd, from)
    ensures CopyTarget(env, cwd, from, dest, true) == ResolveOne(env.cwd, dest) + from[|cwd|..]
  {
    ParentPartInside(cwd, from);
    BelowSplit(cwd, from);
  }

  /** Without `parents`, or with a source directory outside `cwd`, the file
      goes directly into the destination under its own name. */
  lemma CopyFlat(env: Env, cwd: Path, from: Path, dest: string, parents: bool)
    requires from != []
    requires !parents || !IsPrefix(cwd, Dirname(from))
    ensures CopyTarget(env, cwd, from, dest, parents) == ResolveOne(env.cwd, dest) + [Basename(from)]
  {
  }

  /** Whatever the options, the copy lands inside the destination directory. */
  lemma CopyStaysInDest(env: Env, cwd: Path, from: Path, dest: string, parents: bool)
    ensures IsPrefix(ResolveOne(env.cwd, dest), CopyTarget(env, cwd, from, dest, parents))
  {
    var d := ResolveOne(env.cwd, dest);
    var to := CopyTarget(env, cwd, from, dest, parents);
    assert to[..|d|] == d;
  }
}
