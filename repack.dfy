/** `repack`: copies a package.json into a destination directory, edited on
    the way. The paths are checked first; then the parsed object is edited
    in a fixed order (flags, `remove`, `set`, the smart defaults) and its
    keys are optionally sorted. */
module Repack {
  import opened Wrappers
  import opened Text
  import opened Values
  import opened Host
  import opened Paths
  import opened Notation
  import opened KeySort
  import opened KeySortFacts
  import opened Utils

  const NoDestination := "Destination directory is not specified."
  const InvalidSource := "Invalid source package.json path."
  const SameDirectory := "Destination cannot be the same as source directory."
  const NotAPackage := "Source is not a valid package.json: "
  const NotSafe := "It's not safe to overwrite the destination. Looks like a project folder."
  const PackageFile := "package.json"

  /** The package file is a segment of a path, and a path ending in it
      names a file in the path's own directory. */
  lemma PackageFileJoin(dir: Path)
    ensures IsSegment(PackageFile)
    ensures JoinPath(dir, PackageFile) == dir + [PackageFile]
    ensures Dirname(dir + [PackageFile]) == dir
  {
    assert '/' !in PackageFile;
    JoinSegment(dir, PackageFile);
    assert (dir + [PackageFile])[..|dir|] == dir;
  }
  const Unlicensed := "UNLICENSED"

  /** The dependency flags, and the keys they delete, in the same order. */
  const DependencyFlags := ["removeDeps", "removeDevDeps", "removeBundledDeps", "removeOptDeps", "removePeerDeps"]
  const DependencyKeys := ["dependencies", "devDependencies", "bundledDependencies", "optionalDependencies",
    "peerDependencies"]
  /** All the keys the flags may change. */
  const FlaggedKeys := ["private", "name", "description"] + DependencyKeys

  /** The keys `smart` pins to the top and to the bottom. */
  const SmartTop := ["private", "name", "version", "description", "repository", "homepage", "bugs", "license",
    "author", "main", "files", "directories", "bin", "scripts", "engines"]
  const SmartBottom := ["types", "typings", "keywords", "dependencies", "peerDependencies",
    "optionalDependencies", "bundledDependencies", "bundleDependencies", "devDependencies"]

  const SmartSort := SortOptions(Asc, false, SmartTop, SmartBottom)
  const PlainSort := SortOptions(Asc, false, [], [])

  // ---------------------------------------------------------------- options

  /** The pairs of `defaultOptions`, with `cwd` the working directory. */
  function DefaultPairs(env: Env): seq<(string, Value)> {
    [("indent", Num(2)), ("install", Bool(false)), ("bundle", Bool(false)), ("private", Bool(false)),
      ("set", Arr([])), ("remove", Arr([])), ("removeDeps", Bool(false)), ("removeDevDeps", Bool(false)),
      ("removeBundledDeps", Bool(false)), ("removeOptDeps", Bool(false)), ("removePeerDeps", Bool(false)),
      ("danger", Bool(false)), ("cwd", Str(Render(env.cwd)))]
  }

  /** `defaultOptions`. */
  function Defaults(env: Env): (r: Json)
    ensures IsObject(r)
    ensures Prop(r, "cwd") == Str(Render(env.cwd))
  {
    ObjOf(DefaultPairs(env))
  }

  /** `{ ...defaultOptions, ...(options || {}) }`. */
  function RepackOptions(env: Env, options: Json): (r: Json)
    ensures IsObject(r)
    ensures forall k :: HasOwn(options, k) ==> Prop(r, k) == options.fields[k]
    ensures forall k :: !HasOwn(options, k) ==> Prop(r, k) == Prop(Defaults(env), k)
  {
    Spread(Defaults(env), OrEmpty(options))
  }

  // ---------------------------------------------------------------- prepare

  /** The source path as given: `src` resolved against the `cwd` option, or
      that option itself when `src` is empty, which `fs.lstat` refuses when
      it is not a string. */
  function SourcePath(env: Env, cwd: Value, src: string): (r: Result<Path>)
    ensures src != "" ==> r == ResolveValues(env.cwd, cwd, Str(src))
    ensures src == "" && cwd.Str? ==> r == Ok(ResolveOne(env.cwd, cwd.s))
    ensures src == "" && !cwd.Str? ==> r == Err(PathNotAccepted)
  {
    if src != "" then ResolveValues(env.cwd, cwd, Str(src))
    else if cwd.Str? then Ok(ResolveOne(env.cwd, cwd.s))
    else Err(PathNotAccepted)
  }

  /** The destination directory: `dest`, or else `src`, resolved against the
      `cwd` option. */
  function DestDir(env: Env, cwd: Value, src: string, dest: string): (r: Result<Path>)
    ensures r == ResolveValues(env.cwd, cwd, Str(if dest != "" then dest else src))
  {
    ResolveValues(env.cwd, cwd, Str(if dest != "" then dest else src))
  }

  /** The package file: a directory stands for its package.json. */
  function PackagePath(env: Env, p: Path): (r: Result<Path>)
    ensures r.Err? <==> env.isDirectory(p).Err?
    ensures r.Ok? ==> r.value == if env.isDirectory(p).value then p + [PackageFile] else p
  {
    var isDir := env.isDirectory(p);
    if isDir.Err? then Err(isDir.msg)
    else if isDir.value then PackageFileJoin(p); Ok(JoinPath(p, PackageFile))
    else Ok(p)
  }

  datatype Prepared = Prepared(pkgObj: Json, destDir: Path)

  /** `prepare(src, dest, opts)`; an absent `src` or `dest` is the empty
      string. The `cwd` option is read only where a relative path is
      resolved against it, or where an empty `src` stands for it. */
  function Prepare(env: Env, src: string, dest: string, opts: Json): (r: Result<Prepared>)
    ensures src == "" && dest == "" ==> r == Err(NoDestination)
    ensures (src != "" || dest != "") && !Prop(opts, "cwd").Str? ==>
      ((src != "" && !IsAbsolute(src)) || !IsAbsolute(if dest != "" then dest else src)) ==> r == Err(BaseNotString)
    ensures src == "" && IsAbsolute(dest) && !Prop(opts, "cwd").Str? ==> r == Err(PathNotAccepted)
    ensures r.Ok? ==> SourcePath(env, Prop(opts, "cwd"), src).Ok? && DestDir(env, Prop(opts, "cwd"), src, dest).Ok?
    ensures r.Ok? ==> var file := PackagePath(env, SourcePath(env, Prop(opts, "cwd"), src).value);
      file.Ok? && EndsWith(Render(file.value), PackageFile)
      && r.value.destDir == DestDir(env, Prop(opts, "cwd"), src, dest).value && Dirname(file.value) != r.value.destDir
      && env.readJson(Str(Render(file.value))) == Ok(r.value.pkgObj) && r.value.pkgObj.Obj?
  {
    if src == "" && dest == "" then Err(NoDestination)
    else
      var cwd := Prop(opts, "cwd");
      var source := SourcePath(env, cwd, src);
      var destDir := DestDir(env, cwd, src, dest);
      if src != "" && source.Err? then Err(source.msg)
      else if destDir.Err? then Err(destDir.msg)
      else if source.Err? then Err(source.msg)
      else ReadSource(env, PackagePath(env, source.value), destDir.value)
  }

  /** The checks on the package file once both paths are known: its name,
      its directory against the destination, and its content. */
  function ReadSource(env: Env, file: Result<Path>, destDir: Path): (r: Result<Prepared>)
    ensures file.Err? ==> r == Err(file.msg)
    ensures file.Ok? && !EndsWith(Render(file.value), PackageFile) ==> r == Err(InvalidSource)
    ensures file.Ok? && EndsWith(Render(file.value), PackageFile) && Dirname(file.value) == destDir ==>
      r == Err(SameDirectory)
    ensures r.Ok? ==>
      file.Ok? && EndsWith(Render(file.value), PackageFile)
      && r.value.destDir == destDir && Dirname(file.value) != destDir
      && env.readJson(Str(Render(file.value))) == Ok(r.value.pkgObj) && r.value.pkgObj.Obj?
  {
    if file.Err? then Err(file.msg)
    else if !EndsWith(Render(file.value), PackageFile) then Err(InvalidSource)
    else if Dirname(file.value) == destDir then Err(SameDirectory)
    else
      var pkg := env.readJson(Str(Render(file.value)));
      if pkg.Err? || !pkg.value.Obj? then Err(NotAPackage + Render(file.value))
      else Ok(Prepared(pkg.value, destDir))
  }

  /** A rendered path ends with its last segment. */
  lemma RenderEndsWith(p: Path, name: string)
    requires IsSegment(name)
    ensures EndsWith(Render(p + [name]), name)
  {
    JoinWithLast(p, name);
  }

  lemma {:induction false} JoinWithLast(p: seq<string>, name: string)
    ensures EndsWith(JoinWith(p + [name], '/'), name)
    decreases |p|
  {
    if p != [] {
      assert (p + [name])[1..] == p[1..] + [name];
      JoinWithLast(p[1..], name);
    }
  }

  /** A directory given as the source with no destination is refused: the
      destination defaults to the source, which is then the directory of
      the package file. */
  lemma SourceDirectoryWithoutDest(env: Env, src: string, opts: Json)
    requires src != "" && SourcePath(env, Prop(opts, "cwd"), src).Ok?
    requires env.isDirectory(SourcePath(env, Prop(opts, "cwd"), src).value) == Ok(true)
    ensures Prepare(env, src, "", opts) == Err(SameDirectory)
  {
    var p := SourcePath(env, Prop(opts, "cwd"), src).value;
    assert DestDir(env, Prop(opts, "cwd"), src, "") == Ok(p);
    PackageFileJoin(p);
    RenderEndsWith(p, PackageFile);
    assert PackagePath(env, p) == Ok(p + [PackageFile]);
  }

  /** A source file whose name does not end in package.json is refused. */
  lemma SourceNotNamedPackage(env: Env, src: string, dest: string, opts: Json)
    requires src != "" && SourcePath(env, Prop(opts, "cwd"), src).Ok? && DestDir(env, Prop(opts, "cwd"), src, dest).Ok?
    requires env.isDirectory(SourcePath(env, Prop(opts, "cwd"), src).value) == Ok(false)
    requires !EndsWith(Render(SourcePath(env, Prop(opts, "cwd"), src).value), PackageFile)
    ensures Prepare(env, src, dest, opts) == Err(InvalidSource)
  {
  }

  // ---------------------------------------------------------------- safety

  /** `has(destDir, name)` for an entry name: whether the entry `name`
      directly inside the directory exists. */
  function Has(env: Env, destDir: Path, name: string): bool
    requires IsSegment(name)
  {
    env.pathExists(destDir + [name])
  }

  /** `has` joins the directory and the name as `path.join` does: for an
      entry name that is the entry directly inside. */
  lemma HasJoin(env: Env, destDir: Path, name: string)
    requires IsSegment(name)
    ensures Has(env, destDir, name) == env.pathExists(JoinPath(destDir, name))
  {
    JoinSegment(destDir, name);
  }

  /** `nonSafeDest(destDir)`: the destination directory holds a
      package.json, a package-lock.json, a node_modules, a .git or a .bin
      entry. */
  function NonSafeDest(env: Env, destDir: Path): bool {
    Has(env, destDir, "package.json") || Has(env, destDir, "package-lock.json") || Has(env, destDir, "node_modules")
    || Has(env, destDir, ".git") || Has(env, destDir, ".bin")
  }

  /** The refusal to write into a project folder unless `danger` is set. */
  function CheckDestination(env: Env, destDir: Path, opts: Json): (r: Result<()>)
    ensures r.Err? <==> !Truthy(Prop(opts, "danger")) && NonSafeDest(env, destDir)
    ensures r.Err? ==> r.msg == NotSafe
  {
    if !Truthy(Prop(opts, "danger")) && NonSafeDest(env, destDir) then Err(NotSafe) else Ok(())
  }

  // ---------------------------------------------------------------- editing

  /** Deletes `key` when the option `flag` is set. */
  function DropIf(o: Json, opts: Json, flag: string, key: string): (r: Json)
    requires o.Obj?
    ensures r.Obj?
    ensures forall k :: k != key ==> Prop(r, k) == Prop(o, k) && (HasOwn(r, k) <==> HasOwn(o, k))
    ensures Prop(r, key) == if Truthy(Prop(opts, flag)) then Undefined else Prop(o, key)
  {
    if Truthy(Prop(opts, flag)) then Delete(o, key) else o
  }

  /** Sets `key` to `v` when `cond` holds. */
  function PutIf(o: Json, cond: bool, key: string, v: Json): (r: Json)
    requires o.Obj?
    ensures r.Obj?
    ensures forall k :: k != key ==> Prop(r, k) == Prop(o, k) && (HasOwn(r, k) <==> HasOwn(o, k))
    ensures Prop(r, key) == if cond then v else Prop(o, key)
  {
    if cond then Put(o, key, v) else o
  }

  /** The object after `private`, `name` and `description`. */
  function Marked(pkg: Json, opts: Json): (r: Json)
    requires pkg.Obj?
    ensures r.Obj?
  {
    var a := PutIf(pkg, Truthy(Prop(opts, "private")), "private", Bool(true));
    var b := PutIf(a, Prop(opts, "name").Str?, "name", Prop(opts, "name"));
    PutIf(b, Prop(opts, "description").Str?, "description", Prop(opts, "description"))
  }

  /** `private` marks the package private. */
  lemma MarkedPrivate(pkg: Json, opts: Json)
    requires pkg.Obj?
    ensures Prop(Marked(pkg, opts), "private") ==
      if Truthy(Prop(opts, "private")) then Bool(true) else Prop(pkg, "private")
  {
  }

  /** A string `name` or `description` replaces the package's own; any other
      value leaves it. */
  lemma MarkedTexts(pkg: Json, opts: Json)
    requires pkg.Obj?
    ensures Prop(Marked(pkg, opts), "name") == if Prop(opts, "name").Str? then Prop(opts, "name") else Prop(pkg, "name")
    ensures Prop(Marked(pkg, opts), "description") ==
      if Prop(opts, "description").Str? then Prop(opts, "description") else Prop(pkg, "description")
  {
  }

  /** The three options change only their own keys. */
  lemma MarkedOthers(pkg: Json, opts: Json)
    requires pkg.Obj?
    ensures forall k :: k != "private" && k != "name" && k != "description" ==>
      (Prop(Marked(pkg, opts), k) == Prop(pkg, k) && (HasOwn(Marked(pkg, opts), k) <==> HasOwn(pkg, k)))
  {
  }

  /** `DropIf` for each flag of `flags` in turn, with the key at the same
      position of `keys`. */
  function DropAll(o: Json, opts: Json, flags: seq<string>, keys: seq<string>): (r: Json)
    requires o.Obj? && |flags| == |keys|
    ensures r.Obj?
    decreases |flags|
  {
    if flags == [] then o else DropAll(DropIf(o, opts, flags[0], keys[0]), opts, flags[1..], keys[1..])
  }

  /** With distinct keys, each key ends up deleted exactly when its flag is
      set, and every other key is left alone. */
  lemma {:induction false} DropAllProps(o: Json, opts: Json, flags: seq<string>, keys: seq<string>)
    requires o.Obj? && |flags| == |keys| && Distinct(keys)
    ensures forall i :: 0 <= i < |keys| ==> (Prop(DropAll(o, opts, flags, keys), keys[i])
      == if Truthy(Prop(opts, flags[i])) then Undefined else Prop(o, keys[i]))
    ensures forall k :: k !in keys ==>
      (Prop(DropAll(o, opts, flags, keys), k) == Prop(o, k) && (HasOwn(DropAll(o, opts, flags, keys), k) <==> HasOwn(o, k)))
    decreases |flags|
  {
    if flags != [] {
      var o' := DropIf(o, opts, flags[0], keys[0]);
      assert Distinct(keys[1..]);
      DropAllProps(o', opts, flags[1..], keys[1..]);
      forall i | 0 <= i < |keys|
        ensures Prop(DropAll(o, opts, flags, keys), keys[i])
          == if Truthy(Prop(opts, flags[i])) then Undefined else Prop(o, keys[i])
      {
        if i > 0 {
          assert keys[i] == keys[1..][i - 1] && flags[i] == flags[1..][i - 1];
          assert keys[i] != keys[0];
        } else {
          assert keys[0] !in keys[1..];
        }
      }
      forall k | k !in keys
        ensures Prop(DropAll(o, opts, flags, keys), k) == Prop(o, k)
        ensures HasOwn(DropAll(o, opts, flags, keys), k) <==> HasOwn(o, k)
      {
        assert k != keys[0] && k !in keys[1..];
      }
    }
  }

  /** The object after the dependency flags, applied in turn. */
  function Stripped(o: Json, opts: Json): (r: Json)
    requires o.Obj?
    ensures r.Obj?
  {
    DropAll(o, opts, DependencyFlags, DependencyKeys)
  }

  /** One step of `DropAll`. */
  lemma DropAllStep(o: Json, opts: Json, flags: seq<string>, keys: seq<string>)
    requires o.Obj? && |flags| == |keys| && flags != []
    ensures DropAll(o, opts, flags, keys) == DropAll(DropIf(o, opts, flags[0], keys[0]), opts, flags[1..], keys[1..])
  {
  }

  /** The five dependency flags written out one after the other are
      `Stripped`. */
  lemma StrippedUnrolled(o: Json, opts: Json)
    requires o.Obj?
    ensures Stripped(o, opts) == DropIf(DropIf(DropIf(DropIf(DropIf(o, opts, "removeDeps", "dependencies"),
      opts, "removeDevDeps", "devDependencies"), opts, "removeBundledDeps", "bundledDependencies"),
      opts, "removeOptDeps", "optionalDependencies"), opts, "removePeerDeps", "peerDependencies")
  {
    var f, k := DependencyFlags, DependencyKeys;
    var o1 := DropIf(o, opts, f[0], k[0]);
    DropAllStep(o, opts, f, k);
    var o2 := DropIf(o1, opts, f[1], k[1]);
    DropAllStep(o1, opts, f[1..], k[1..]);
    var o3 := DropIf(o2, opts, f[2], k[2]);
    DropAllStep(o2, opts, f[2..], k[2..]);
    var o4 := DropIf(o3, opts, f[3], k[3]);
    DropAllStep(o3, opts, f[3..], k[3..]);
    DropAllStep(o4, opts, f[4..], k[4..]);
  }

  /** Each dependency flag deletes exactly its own key. */
  lemma StrippedProps(o: Json, opts: Json)
    requires o.Obj?
    ensures forall i :: 0 <= i < |DependencyKeys| ==> (Prop(Stripped(o, opts), DependencyKeys[i])
      == if Truthy(Prop(opts, DependencyFlags[i])) then Undefined else Prop(o, DependencyKeys[i]))
    ensures forall k :: k !in DependencyKeys ==>
      (Prop(Stripped(o, opts), k) == Prop(o, k) && (HasOwn(Stripped(o, opts), k) <==> HasOwn(o, k)))
  {
    DependencyKeysDistinct();
    forall i | 0 <= i < |DependencyKeys|
      ensures Prop(Stripped(o, opts), DependencyKeys[i])
        == if Truthy(Prop(opts, DependencyFlags[i])) then Undefined else Prop(o, DependencyKeys[i])
    {
      DropAllKey(o, opts, DependencyFlags, DependencyKeys, i);
    }
    forall k | k !in DependencyKeys
      ensures Prop(Stripped(o, opts), k) == Prop(o, k) && (HasOwn(Stripped(o, opts), k) <==> HasOwn(o, k))
    {
      DropAllOther(o, opts, DependencyFlags, DependencyKeys, k);
    }
  }

  /** One key of `DropAll`: deleted exactly when its flag is set. */
  lemma DropAllKey(o: Json, opts: Json, flags: seq<string>, keys: seq<string>, i: nat)
    requires o.Obj? && |flags| == |keys| && Distinct(keys) && i < |keys|
    ensures Prop(DropAll(o, opts, flags, keys), keys[i]) == if Truthy(Prop(opts, flags[i])) then Undefined else Prop(o, keys[i])
  {
    DropAllProps(o, opts, flags, keys);
  }

  /** A key outside `keys` is left alone by `DropAll`. */
  lemma DropAllOther(o: Json, opts: Json, flags: seq<string>, keys: seq<string>, k: string)
    requires o.Obj? && |flags| == |keys| && Distinct(keys) && k !in keys
    ensures Prop(DropAll(o, opts, flags, keys), k) == Prop(o, k)
    ensures HasOwn(DropAll(o, opts, flags, keys), k) <==> HasOwn(o, k)
  {
    DropAllProps(o, opts, flags, keys);
  }

  lemma DependencyKeysDistinct()
    ensures |DependencyFlags| == |DependencyKeys| && Distinct(DependencyKeys)
  {
  }

  /** The object after the flag options. */
  function Flagged(pkg: Json, opts: Json): (r: Json)
    requires pkg.Obj?
    ensures r.Obj?
  {
    Stripped(Marked(pkg, opts), opts)
  }

  /** The flags change only their own keys: every other key keeps its value
      and its presence. */
  lemma FlaggedOthers(pkg: Json, opts: Json)
    requires pkg.Obj?
    ensures forall k :: k !in FlaggedKeys ==>
      (Prop(Flagged(pkg, opts), k) == Prop(pkg, k) && (HasOwn(Flagged(pkg, opts), k) <==> HasOwn(pkg, k)))
  {
    forall k | k !in FlaggedKeys
      ensures Prop(Flagged(pkg, opts), k) == Prop(pkg, k) && (HasOwn(Flagged(pkg, opts), k) <==> HasOwn(pkg, k))
    {
      FlaggedOther(pkg, opts, k);
    }
  }

  /** One key outside `FlaggedKeys`: neither marking nor stripping touches it. */
  lemma FlaggedOther(pkg: Json, opts: Json, k: string)
    requires pkg.Obj? && k !in FlaggedKeys
    ensures Prop(Flagged(pkg, opts), k) == Prop(pkg, k) && (HasOwn(Flagged(pkg, opts), k) <==> HasOwn(pkg, k))
  {
    assert k !in DependencyKeys && k != "private" && k != "name" && k != "description";
    MarkedOthers(pkg, opts);
    DependencyKeysDistinct();
    DropAllOther(Marked(pkg, opts), opts, DependencyFlags, DependencyKeys, k);
  }

  /** The object after `remove`: the listed notations deleted. */
  function Removed(obj: Json, opts: Json): (r: Json)
    requires obj.Obj?
    ensures r.Obj?
  {
    var list := Prop(opts, "remove");
    if Truthy(list) then
      RemoveAllObject(obj, NormalizedStrings(EnsureArray(list), true));
      RemoveAll(obj, NormalizedStrings(EnsureArray(list), true))
    else obj
  }

  /** The object after `set`, or the error of a `set` that throws. */
  function Assigned(env: Env, obj: Json, opts: Json): (r: Result<Json>)
    requires obj.Obj?
    ensures r.Ok? ==> r.value.Obj?
  {
    var pairs := Prop(opts, "set");
    if Truthy(pairs) then
      if PropsSet(env, obj, pairs, true).Ok? then PropsSetObject(env, obj, pairs, true); PropsSet(env, obj, pairs, true)
      else PropsSet(env, obj, pairs, true)
    else Ok(obj)
  }

  /** A private package under `smart` is marked unlicensed. */
  function Licensed(obj: Json, opts: Json): (r: Json)
    requires obj.Obj?
    ensures r.Obj?
    ensures r == if Prop(opts, "private") == Bool(true) then Put(obj, "license", Str(Unlicensed)) else obj
  {
    if Prop(opts, "private") == Bool(true) then Set(obj, ["license"], Str(Unlicensed), true).value else obj
  }

  /** The last stage: `smart` marks a private package unlicensed and sorts
      with the fixed top and bottom keys; `sort` alone sorts ascending. */
  function Arranged(obj: Json, opts: Json): (r: Json)
    requires obj.Obj?
  {
    if Truthy(Prop(opts, "smart")) then SortedKeys(Licensed(obj, opts), SmartSort)
    else if Truthy(Prop(opts, "sort")) then SortedKeys(obj, PlainSort)
    else obj
  }

  /** The object `repack` writes for the package `pkg`, or the error that
      stops it. */
  function Edited(env: Env, pkg: Json, destDir: Path, opts: Json): (r: Result<Json>)
    requires pkg.Obj?
  {
    var safe := CheckDestination(env, destDir, opts);
    if safe.Err? then Err(safe.msg)
    else
      var afterSet := Assigned(env, Removed(Flagged(pkg, opts), opts), opts);
      if afterSet.Err? then afterSet else Ok(Arranged(afterSet.value, opts))
  }

  /** `private`, `name` and `description` applied to the package in place. */
  method ApplyMarks(pkg: Json, opts: Json) returns (r: Json)
    requires pkg.Obj?
    ensures r == Marked(pkg, opts)
  {
    r := pkg;
    if Truthy(Prop(opts, "private")) {
      r := Put(r, "private", Bool(true));
    }
    if Prop(opts, "name").Str? {
      r := Put(r, "name", Prop(opts, "name"));
    }
    if Prop(opts, "description").Str? {
      r := Put(r, "description", Prop(opts, "description"));
    }
  }

  /** The dependency flags applied to the package in place, one after the
      other. */
  method ApplyDrops(o: Json, opts: Json) returns (r: Json)
    requires o.Obj?
    ensures r == Stripped(o, opts)
  {
    r := DropIf(o, opts, "removeDeps", "dependencies");
    r := DropIf(r, opts, "removeDevDeps", "devDependencies");
    r := DropIf(r, opts, "removeBundledDeps", "bundledDependencies");
    r := DropIf(r, opts, "removeOptDeps", "optionalDependencies");
    r := DropIf(r, opts, "removePeerDeps", "peerDependencies");
    StrippedUnrolled(o, opts);
  }

  /** `remove`, then `set`, applied to the package in place. */
  method ApplyLists(env: Env, flagged: Json, opts: Json) returns (r: Result<Json>)
    requires flagged.Obj?
    ensures r == Assigned(env, Removed(flagged, opts), opts)
  {
    var pkg := flagged;
    if Truthy(Prop(opts, "remove")) {
      pkg := RemoveProps(pkg, Prop(opts, "remove"));
    }
    assert pkg == Removed(flagged, opts);
    if Truthy(Prop(opts, "set")) {
      r := SetProps(env, pkg, Prop(opts, "set"), true);
    } else {
      r := Ok(pkg);
    }
  }

  /** The `smart` and `sort` stage, reassigning the package. */
  method ApplyArrange(obj: Json, opts: Json) returns (r: Json)
    requires obj.Obj?
    ensures r == Arranged(obj, opts)
  {
    r := obj;
    if Truthy(Prop(opts, "smart")) {
      if Prop(opts, "private") == Bool(true) {
        r := Set(r, ["license"], Str(Unlicensed), true).value;
      }
      r := SortKeys(r, SmartSort);
    }
    if Truthy(Prop(opts, "sort")) && !Truthy(Prop(opts, "smart")) {
      r := SortKeys(r, PlainSort);
    }
  }

  /** Lines 109-151 of `repack`: the destination check, then the edits of
      the parsed package in place. */
  method EditPackage(env: Env, prepared: Prepared, opts: Json) returns (r: Result<Json>)
    requires prepared.pkgObj.Obj?
    ensures r == Edited(env, prepared.pkgObj, prepared.destDir, opts)
  {
    if !Truthy(Prop(opts, "danger")) && NonSafeDest(env, prepared.destDir) {
      return Err(NotSafe);
    }
    var marked := ApplyMarks(prepared.pkgObj, opts);
    var pkg := ApplyDrops(marked, opts);
    var afterSet := ApplyLists(env, pkg, opts);
    if afterSet.Err? {
      return afterSet;
    }
    var arranged := ApplyArrange(afterSet.value, opts);
    return Ok(arranged);
  }

  /** What `repack(src, dest, options)` writes: the edited package, as the
      package.json of the destination directory. */
  datatype Written = Written(file: Path, pkg: Json)

  /** `repack(src, dest, options)` up to the write: the edited package and
      the package.json in the destination directory it goes to, never the
      file it was read from. */
  function Run(env: Env, src: string, dest: string, options: Json): (r: Result<Written>)
    ensures var opts := RepackOptions(env, options); var prepared := Prepare(env, src, dest, opts);
      && (prepared.Err? ==> r == Err(prepared.msg))
      && (prepared.Ok? ==>
        var edited := Edited(env, prepared.value.pkgObj, prepared.value.destDir, opts);
        && (edited.Err? ==> r == Err(edited.msg))
        && (edited.Ok? ==> r.Ok? && r.value.file == JoinPath(prepared.value.destDir, PackageFile) && r.value.pkg == edited.value))
    ensures r.Ok? ==> var opts := RepackOptions(env, options);
      r.value.file != PackagePath(env, SourcePath(env, Prop(opts, "cwd"), src).value).value
  {
    var opts := RepackOptions(env, options);
    var prepared := Prepare(env, src, dest, opts);
    if prepared.Err? then Err(prepared.msg)
    else
      var edited := Edited(env, prepared.value.pkgObj, prepared.value.destDir, opts);
      if edited.Err? then Err(edited.msg)
      else
        PreparedKeepsSource(env, src, dest, opts);
        Ok(Written(JoinPath(prepared.value.destDir, PackageFile), edited.value))
  }

  /** The package.json `repack` writes is never the one it reads: the
      destination directory differs from the source's. */
  lemma PreparedKeepsSource(env: Env, src: string, dest: string, opts: Json)
    requires Prepare(env, src, dest, opts).Ok?
    ensures SourcePath(env, Prop(opts, "cwd"), src).Ok? && PackagePath(env, SourcePath(env, Prop(opts, "cwd"), src).value).Ok?
    ensures JoinPath(Prepare(env, src, dest, opts).value.destDir, PackageFile)
      != PackagePath(env, SourcePath(env, Prop(opts, "cwd"), src).value).value
  {
    var destDir := Prepare(env, src, dest, opts).value.destDir;
    var file := PackagePath(env, SourcePath(env, Prop(opts, "cwd"), src).value).value;
    assert Dirname(file) != destDir;
    PackageFileJoin(destDir);
  }

  // ---------------------------------------------------------------- properties

  /** `remove` runs before `set`: with plain names on both sides, a name
      that is both removed and set ends up set. */
  lemma RemoveBeforeSet(env: Env, obj: Json, opts: Json)
    requires obj.Obj? && Truthy(Prop(opts, "remove")) && Prop(opts, "set").Obj?
    requires forall k :: k in NormalizedStrings(EnsureArray(Prop(opts, "remove")), true) ==> Flat(k)
    requires forall k :: k in Prop(opts, "set").keys ==> Flat(k)
    ensures Assigned(env, Removed(obj, opts), opts).Ok?
    ensures forall k :: (Prop(Assigned(env, Removed(obj, opts), opts).value, k)
      == if k in Prop(opts, "set").keys then Prop(opts, "set").fields[k]
         else if k in NormalizedStrings(EnsureArray(Prop(opts, "remove")), true) then Undefined
         else Prop(obj, k))
  {
    var names := NormalizedStrings(EnsureArray(Prop(opts, "remove")), true);
    RemoveAllFlat(obj, names);
    var pairs := Prop(opts, "set");
    SetEntriesFlat(Removed(obj, opts), pairs.keys, pairs.fields);
  }

  /** The first of the names of `xs` that `obj` owns comes first. */
  lemma {:induction false} PresentInFirst(xs: seq<string>, obj: Value)
    requires xs != [] && HasOwn(obj, xs[0])
    ensures PresentIn(xs, obj) != [] && PresentIn(xs, obj)[0] == xs[0]
    decreases |xs|
  {
    if |xs| > 1 {
      PresentInFirst(xs[..|xs| - 1], obj);
    }
  }

  /** Adding keys to an object without any keeps the first one first. */
  lemma {:induction false} NewFirst(ks: seq<string>)
    requires ks != []
    ensures New([], ks) != [] && New([], ks)[0] == ks[0]
    decreases |ks|
  {
    if |ks| > 1 {
      NewFirst(ks[..|ks| - 1]);
    }
  }

  /** A key pinned first that the object owns comes out first. */
  lemma TopFirst(obj: Json, opts: SortOptions)
    requires obj.Obj? && opts.top != [] && HasOwn(obj, opts.top[0])
    ensures SortedKeys(obj, opts).keys != [] && SortedKeys(obj, opts).keys[0] == opts.top[0]
  {
    PresentInFirst(opts.top, obj);
    NewFirst(PresentIn(opts.top, obj));
    SortKeysOrder(obj, opts);
  }

  /** Under `smart`, a package that is private and owns the key comes out
      with `private` as its first key and the licence `UNLICENSED`. */
  lemma SmartPrivateFirst(obj: Json, opts: Json)
    requires obj.Obj? && Truthy(Prop(opts, "smart")) && Prop(opts, "private") == Bool(true)
    requires HasOwn(obj, "private")
    ensures Arranged(obj, opts).keys != [] && Arranged(obj, opts).keys[0] == "private"
    ensures Prop(Arranged(obj, opts), "license") == Str(Unlicensed)
  {
    var lic := Licensed(obj, opts);
    assert Arranged(obj, opts) == SortedKeys(lic, SmartSort);
    assert HasOwn(lic, "private") && HasOwn(lic, "license");
    TopFirst(lic, SmartSort);
    SortKeysValues(lic, SmartSort);
  }

  /** Nothing pinned: every key is unpinned. */
  lemma {:induction false} MiddleUnpinned(ks: seq<string>)
    ensures Middle(ks, [], []) == ks
    decreases |ks|
  {
    if ks != [] {
      MiddleUnpinned(ks[..|ks| - 1]);
      assert ks == ks[..|ks| - 1] + [ks[|ks| - 1]];
    }
  }

  /** With nothing pinned the keys come out in comparer order. */
  lemma UnpinnedOrder(obj: Json, opts: SortOptions)
    requires obj.Obj? && opts.top == [] && opts.bottom == []
    ensures SortedKeys(obj, opts).keys == SortStrings(obj.keys, opts.comparer)
  {
    SortKeysOrder(obj, opts);
    UnpinnedLayout(obj, SortStrings(obj.keys, opts.comparer), opts.top, opts.bottom);
  }

  /** With no pinned keys, the layout is the middle part alone. */
  lemma UnpinnedLayout(obj: Value, m: seq<string>, top: seq<string>, bottom: seq<string>)
    requires top == [] && bottom == []
    ensures New([], PresentIn(top, obj)) + Middle(m, top, bottom) + New(top, PresentIn(bottom, obj)) == m
  {
    MiddleUnpinned(m);
    assert PresentIn(top, obj) == [] && PresentIn(bottom, obj) == [];
    assert New([], []) == [] && New(top, []) == [];
    assert [] + Middle(m, [], []) + [] == m;
  }

  /** `sort` without `smart` orders the keys ascending and keeps every key
      with its value. */
  lemma PlainSortAscending(obj: Json, opts: Json)
    requires obj.Obj? && !Truthy(Prop(opts, "smart")) && Truthy(Prop(opts, "sort"))
    ensures Arranged(obj, opts).keys == SortStrings(obj.keys, Asc)
    ensures SortedBy(Arranged(obj, opts).keys, Asc)
    ensures forall k :: HasOwn(Arranged(obj, opts), k) <==> HasOwn(obj, k)
    ensures forall k :: HasOwn(obj, k) ==> Prop(Arranged(obj, opts), k) == obj.fields[k]
  {
    assert Arranged(obj, opts) == SortedKeys(obj, PlainSort);
    UnpinnedOrder(obj, PlainSort);
    SortKeysKeepsKeys(obj, PlainSort);
    SortKeysValues(obj, PlainSort);
  }
}
