/** The batch engine every batch command shares: it turns a core function
    that processes one item (a seed) into a processor that runs one batch
    (a source, a destination and options) or a task (a configuration file
    listing several batches), counting the items with a `Stats` counter.
    The items of a batch and the batches of a task run one after another;
    the first failure aborts the run. */
module Batch {
  import opened Wrappers
  import opened Values
  import opened Host
  import opened Paths
  import opened Utils
  import opened BatchItems
  import opened StatsModel
  import opened Ocli

  const InvalidSource := "Invalid source."
  const NoArguments := "No arguments passed."

  /** The batch settings of a command, with their defaults applied. */
  datatype Settings = Settings(defaultOptions: Json, verb: Json, useGlobs: Json, files: Json, directories: Json)

  /** What `prepare` gives: the destination and the options of a run. */
  datatype Prepared = Prepared(dest: Json, opts: Json)

  /** How `batchProcessor` reads its arguments. */
  datatype Call = NoArgs | RunTask(configFile: Json) | RunBatch(source: Json, destination: Json, options: Json)

  /** How a call of the batch processor ends: with the run's statistics, or
      by failing through `fail`. */
  datatype Outcome = Resolved(stats: Snapshot) | Failed(failure: Failure)

  function DefaultTo(v: Json, d: Json): Json {
    if v.Undefined? then d else v
  }

  /** Destructuring `batchProcessSettings` with its defaults. */
  function SettingsOf(batchProcess: Json): Settings {
    Settings(Prop(batchProcess, "defaultOptions"),
      DefaultTo(Prop(batchProcess, "verb"), Str("Processed")),
      DefaultTo(Prop(batchProcess, "useGlobs"), Bool(true)),
      DefaultTo(Prop(batchProcess, "files"), Bool(true)),
      DefaultTo(Prop(batchProcess, "directories"), Bool(true)))
  }

  // ---------------------------------------------------------------- words

  /** The singular and plural item words for the kinds of entries processed. */
  function Words(files: Json, directories: Json): (w: (string, string))
    ensures Truthy(files) && !Truthy(directories) ==> w == ("file", "files")
    ensures !Truthy(files) && Truthy(directories) ==> w == ("directory", "directories")
    ensures Truthy(files) == Truthy(directories) ==> w == ("item", "items")
  {
    if Truthy(files) && !Truthy(directories) then ("file", "files")
    else if !Truthy(files) && Truthy(directories) then ("directory", "directories")
    else ("item", "items")
  }

  /** `plural(num)`: the singular word exactly when the count is 1. */
  function Plural(s: Settings, num: int): (r: string)
    ensures r == Words(s.files, s.directories).0 <==> num == 1
    ensures num != 1 ==> r == Words(s.files, s.directories).1
  {
    var w := Words(s.files, s.directories);
    if num == 1 then w.0 else w.1
  }

  // ---------------------------------------------------------------- prepare

  /** `prepare(options, dest)`: the caller's options over the default
      options, and a string destination resolved against the `cwd` option,
      which is read only for a relative destination. */
  function Prepare(env: Env, s: Settings, options: Json, dest: Json): (r: Result<Prepared>)
    ensures r.Ok? ==> r.value.opts == MergeOptions(s.defaultOptions, options)
    ensures r.Err? <==> dest.Str? && !IsAbsolute(dest.s) && !Prop(MergeOptions(s.defaultOptions, options), "cwd").Str?
    ensures r.Err? ==> r.msg == BaseNotString
    ensures r.Ok? && !dest.Str? ==> r.value.dest == dest
    ensures r.Ok? && dest.Str? && IsAbsolute(dest.s) ==> r.value.dest == Str(Render(ResolveOne(env.cwd, dest.s)))
    ensures r.Ok? && dest.Str? && !IsAbsolute(dest.s) ==>
      r.value.dest == Str(Render(Resolve(env.cwd, Prop(r.value.opts, "cwd").s, dest.s)))
  {
    var opts := MergeOptions(s.defaultOptions, options);
    if !dest.Str? then Ok(Prepared(dest, opts))
    else
      var resolved := ResolveValues(env.cwd, Prop(opts, "cwd"), dest);
      if resolved.Err? then Err(resolved.msg)
      else Ok(Prepared(Str(Render(resolved.value)), opts))
  }

  /** Preparing again with an already prepared string destination keeps it,
      whatever the `cwd` option: a task's global destination passed on to
      its batches is not moved. */
  lemma PrepareResolvedDest(env: Env, s: Settings, options: Json, p: Path)
    ensures Prepare(env, s, options, Str(Render(p))) == Ok(Prepared(Str(Render(p)), MergeOptions(s.defaultOptions, options)))
  {
    ResolveRendered(env.cwd, "", p);
  }

  // ---------------------------------------------------------------- paths

  /** The options `getPaths` hands to the glob resolver. */
  function GlobOptionsFor(env: Env, s: Settings, opts: Json): Json {
    ObjOf([("cwd", Or(Prop(opts, "cwd"), Str(Render(env.cwd)))), ("dot", Prop(opts, "dot")),
      ("onlyFiles", s.files), ("onlyDirectories", s.directories),
      ("followSymlinkedDirectories", Prop(opts, "dereference"))])
  }

  /** `getPaths(source, opts)`: without globs, `ensureSrcArray(source)`;
      with globs, the resolved paths, an empty match failing, and a failure
      passed on unless the `force` option is set, which turns it into no
      paths. */
  function GetPaths(env: Env, s: Settings, source: Json, opts: Json): (r: Result<seq<Value>>)
    ensures !Truthy(s.useGlobs) ==> r == Ok(EnsureSrcArray(source))
    ensures Truthy(s.useGlobs) ==> var found := GetGlobPaths(env, source, GlobOptionsFor(env, s, opts), true);
      (found.Err? && !Truthy(Prop(opts, "force")) ==> r == Err(found.msg))
      && (found.Err? && Truthy(Prop(opts, "force")) ==> r == Ok([]))
      && (found.Ok? ==> r == Ok(StrValues(found.value)) && found.value != [])
  {
    if Truthy(s.useGlobs) then
      var found := GetGlobPaths(env, source, GlobOptionsFor(env, s, opts), true);
      if found.Err? then
        if !Truthy(Prop(opts, "force")) then Err(found.msg) else Ok([])
      else Ok(StrValues(found.value))
    else Ok(EnsureSrcArray(source))
  }

  // ---------------------------------------------------------------- the seed

  /** The arity guard as written: no number is below 2 and above 3 at once. */
  predicate ArityRejected(arity: int) {
    arity < 2 && arity > 3
  }

  lemma ArityGuardNeverFires(arity: int)
    ensures !ArityRejected(arity)
  {
  }

  /** `fnSeed(src, dest, opts)`: a seed declaring two parameters is called
      without the destination; any other seed gets all three. */
  function SeedCall(seed: Seed, src: Value, dest: Value, opts: Value): (r: Result<Value>)
    ensures seed.arity == 2 ==> r == seed.call([src, opts])
    ensures seed.arity != 2 ==> r == seed.call([src, dest, opts])
  {
    if seed.arity == 2 then seed.call([src, opts]) else seed.call([src, dest, opts])
  }

  /** The error of the first seed call over `paths` that fails, if any. */
  function FirstFailure(seed: Seed, paths: seq<Value>, dest: Value, opts: Value): Option<string>
    decreases |paths|
  {
    if paths == [] then None
    else
      var before := FirstFailure(seed, paths[..|paths| - 1], dest, opts);
      if before.Some? then before
      else
        var last := SeedCall(seed, paths[|paths| - 1], dest, opts);
        if last.Err? then Some(last.msg) else None
  }

  lemma FirstFailureStep(seed: Seed, paths: seq<Value>, i: nat, dest: Value, opts: Value)
    requires i < |paths|
    ensures FirstFailure(seed, paths[..i + 1], dest, opts)
      == if FirstFailure(seed, paths[..i], dest, opts).Some? then FirstFailure(seed, paths[..i], dest, opts)
         else if SeedCall(seed, paths[i], dest, opts).Err? then Some(SeedCall(seed, paths[i], dest, opts).msg)
         else None
  {
    assert paths[..i + 1][..i] == paths[..i];
  }

  /** No call fails exactly when every call over `paths` succeeds. */
  lemma {:induction false} FirstFailureNone(seed: Seed, paths: seq<Value>, dest: Value, opts: Value)
    ensures FirstFailure(seed, paths, dest, opts) == None
      <==> forall i :: 0 <= i < |paths| ==> SeedCall(seed, paths[i], dest, opts).Ok?
    decreases |paths|
  {
    if paths != [] {
      var init := paths[..|paths| - 1];
      FirstFailureNone(seed, init, dest, opts);
      assert forall i :: 0 <= i < |init| ==> init[i] == paths[i];
    }
  }

  /** A failure is the error of some call, every earlier call succeeding. */
  lemma {:induction false} FirstFailureSome(seed: Seed, paths: seq<Value>, dest: Value, opts: Value)
    requires FirstFailure(seed, paths, dest, opts).Some?
    ensures exists i :: (0 <= i < |paths| && SeedCall(seed, paths[i], dest, opts) == Err(FirstFailure(seed, paths, dest, opts).value)
      && forall j :: 0 <= j < i ==> SeedCall(seed, paths[j], dest, opts).Ok?)
    decreases |paths|
  {
    var init := paths[..|paths| - 1];
    assert forall i :: 0 <= i < |init| ==> init[i] == paths[i];
    if FirstFailure(seed, init, dest, opts).Some? {
      FirstFailureSome(seed, init, dest, opts);
    } else {
      FirstFailureNone(seed, init, dest, opts);
      var k := |paths| - 1;
      assert SeedCall(seed, paths[k], dest, opts) == Err(FirstFailure(seed, paths, dest, opts).value);
    }
  }

  // ---------------------------------------------------------------- a batch

  /** The number of items a batch processes, or the error that ends it: an
      invalid source before anything else, then a failure to prepare, to
      resolve the paths or of a seed call. */
  function BatchCount(env: Env, s: Settings, seed: Seed, source: Json, destination: Json, options: Json): (r: Result<nat>)
    ensures !Truthy(source) ==> r == Err(InvalidSource)
  {
    if !Truthy(source) then Err(InvalidSource)
    else
      var prepared := Prepare(env, s, options, destination);
      if prepared.Err? then Err(prepared.msg)
      else
        var found := GetPaths(env, s, source, prepared.value.opts);
        if found.Err? then Err(found.msg)
        else
          var failure := FirstFailure(seed, found.value, prepared.value.dest, prepared.value.opts);
          if failure.Some? then Err(failure.value) else Ok(|found.value|)
  }

  /** A batch succeeds exactly when the source is truthy, the options are
      prepared, the paths resolve and the seed succeeds on every path; it
      then counts every path. */
  lemma BatchCountOk(env: Env, s: Settings, seed: Seed, source: Json, destination: Json, options: Json)
    ensures BatchCount(env, s, seed, source, destination, options).Ok? <==>
      Truthy(source) && Prepare(env, s, options, destination).Ok?
      && var p := Prepare(env, s, options, destination).value;
      GetPaths(env, s, source, p.opts).Ok?
      && forall i :: 0 <= i < |GetPaths(env, s, source, p.opts).value| ==>
        SeedCall(seed, GetPaths(env, s, source, p.opts).value[i], p.dest, p.opts).Ok?
    ensures BatchCount(env, s, seed, source, destination, options).Ok? ==>
      BatchCount(env, s, seed, source, destination, options).value
        == |GetPaths(env, s, source, Prepare(env, s, options, destination).value.opts).value|
  {
    if Truthy(source) && Prepare(env, s, options, destination).Ok? {
      var p := Prepare(env, s, options, destination).value;
      var found := GetPaths(env, s, source, p.opts);
      if found.Ok? {
        BatchCountOfPaths(env, s, seed, source, destination, options);
        FirstFailureNone(seed, found.value, p.dest, p.opts);
      }
    }
  }

  /** Once the options are prepared and the paths found, a batch counts
      every path unless a seed call fails. */
  lemma BatchCountOfPaths(env: Env, s: Settings, seed: Seed, source: Json, destination: Json, options: Json)
    requires Truthy(source) && Prepare(env, s, options, destination).Ok?
    requires GetPaths(env, s, source, Prepare(env, s, options, destination).value.opts).Ok?
    ensures var p := Prepare(env, s, options, destination).value;
      var paths := GetPaths(env, s, source, p.opts).value;
      BatchCount(env, s, seed, source, destination, options)
        == if FirstFailure(seed, paths, p.dest, p.opts).Some? then Err(FirstFailure(seed, paths, p.dest, p.opts).value)
           else Ok(|paths|)
  {
  }

  /** A failure among the first `i` paths is the failure of all of them. */
  lemma {:induction false} FirstFailureLater(seed: Seed, paths: seq<Value>, i: nat, dest: Value, opts: Value)
    requires i <= |paths|
    requires FirstFailure(seed, paths[..i], dest, opts).Some?
    ensures FirstFailure(seed, paths, dest, opts) == FirstFailure(seed, paths[..i], dest, opts)
    decreases |paths| - i
  {
    if i < |paths| {
      FirstFailureStep(seed, paths, i, dest, opts);
      FirstFailureLater(seed, paths, i + 1, dest, opts);
    } else {
      assert paths[..i] == paths;
    }
  }

  /** The loop of `fnBatch`: the seed runs on each path in turn, and every
      call that returns counts one item on `stats`, whose total is the
      number of paths. */
  method CountPaths(stats: Stats, seed: Seed, paths: seq<Value>, dest: Value, opts: Value) returns (failure: Option<string>)
    requires stats.total == |paths| && stats.completed == 0 && stats.endTime == None
    modifies stats
    ensures failure == FirstFailure(seed, paths, dest, opts)
    ensures stats.total == |paths| && stats.startTime == old(stats.startTime) && stats.endTime == None
    ensures failure.None? ==> stats.completed == |paths|
  {
    var i := 0;
    while i < |paths|
      invariant 0 <= i <= |paths|
      invariant stats.total == |paths| && stats.completed == i
      invariant stats.startTime == old(stats.startTime) && stats.endTime == None
      invariant FirstFailure(seed, paths[..i], dest, opts) == None
    {
      var call := SeedCall(seed, paths[i], dest, opts);
      FirstFailureStep(seed, paths, i, dest, opts);
      if call.Err? {
        FirstFailureLater(seed, paths, i + 1, dest, opts);
        return Some(call.msg);
      }
      var update := stats.Update(Num(1));
      assert update.Ok?;
      i := i + 1;
    }
    assert paths[..i] == paths;
    return None;
  }

  /** The part of `fnBatch` after the paths are known: the counter's total
      is set to the number of paths, the seed runs on each, and the counter
      is ended at `finish`. */
  method RunPaths(stats: Stats, seed: Seed, paths: seq<Value>, dest: Value, opts: Value, finish: Millis) returns (r: Result<Snapshot>)
    requires stats.total == 0 && stats.completed == 0 && stats.endTime == None
    modifies stats
    ensures r.Err? <==> FirstFailure(seed, paths, dest, opts).Some?
    ensures r.Err? ==> r.msg == FirstFailure(seed, paths, dest, opts).value
    ensures r.Ok? ==> r.value.total == |paths| && r.value.completed == |paths|
    ensures r.Ok? ==> r.value.percent == if paths != [] then 1.0 else 0.0
    ensures r.Ok? ==> r.value.startTime == old(stats.startTime) && r.value.endTime == Some(finish)
  {
    var totalSet := stats.SetTotal(|paths|);
    assert totalSet.Ok?;
    var failure := CountPaths(stats, seed, paths, dest, opts);
    if failure.Some? {
      return Err(failure.value);
    }
    var ended := stats.End(finish);
    assert ended.Ok?;
    PercentComplete(stats);
    return Ok(stats.ToObject());
  }

  /** `fnBatch(source, destination, options)` with the clock reading `start`
      when it begins and `finish` when it ends. The counter's total is set
      to the number of paths and every seed call that returns, whatever it
      returns, counts one item; so a batch that does not fail ends with
      every item counted. */
  method FnBatch(env: Env, s: Settings, seed: Seed, source: Json, destination: Json, options: Json, start: Millis, finish: Millis)
    returns (r: Result<Snapshot>)
    ensures r.Err? <==> BatchCount(env, s, seed, source, destination, options).Err?
    ensures r.Err? ==> r.msg == BatchCount(env, s, seed, source, destination, options).msg
    ensures r.Ok? ==> r.value.total == BatchCount(env, s, seed, source, destination, options).value
    ensures r.Ok? ==> r.value.completed == r.value.total
    ensures r.Ok? ==> r.value.percent == if r.value.total > 0 then 1.0 else 0.0
    ensures r.Ok? ==> r.value.startTime == start && r.value.endTime == Some(finish)
  {
    if !Truthy(source) {
      return Err(InvalidSource);
    }
    var stats := new Stats(0, start);
    var prepared := Prepare(env, s, options, destination);
    if prepared.Err? {
      return Err(prepared.msg);
    }
    var found := GetPaths(env, s, source, prepared.value.opts);
    if found.Err? {
      return Err(found.msg);
    }
    r := RunPaths(stats, seed, found.value, prepared.value.dest, prepared.value.opts, finish);
  }

  // ---------------------------------------------------------------- a task

  /** Adds the count of one more part to a running count; the first error stays. */
  function Combine(before: Result<nat>, next: Result<nat>): (r: Result<nat>)
    ensures r.Ok? <==> before.Ok? && next.Ok?
    ensures r.Ok? ==> r.value == before.value + next.value
    ensures before.Err? ==> r == before
  {
    if before.Err? then before
    else if next.Err? then Err(next.msg)
    else Ok(before.value + next.value)
  }

  /** The number of items one entry of a task processes, or its error: an
      entry that is not a valid batch item, or a batch that fails. */
  function EntryCount(env: Env, s: Settings, seed: Seed, entry: Json, globalOpts: Json, globalDest: Json): Result<nat> {
    var item := NormalizedItem(entry, globalOpts, globalDest);
    if item.Err? then Err(item.msg)
    else BatchCount(env, s, seed, item.value.src, item.value.dest, item.value.options)
  }

  /** The counts of a task's entries, one per entry. */
  function EntryCounts(env: Env, s: Settings, seed: Seed, entries: seq<Json>, globalOpts: Json, globalDest: Json): (r: seq<Result<nat>>)
    ensures CountsOf(r, env, s, seed, entries, globalOpts, globalDest)
  {
    seq(|entries|, j requires 0 <= j < |entries| => EntryCount(env, s, seed, entries[j], globalOpts, globalDest))
  }

  /** `counts` holds the count of each entry. */
  predicate CountsOf(counts: seq<Result<nat>>, env: Env, s: Settings, seed: Seed, entries: seq<Json>, globalOpts: Json, globalDest: Json) {
    |counts| == |entries|
    && forall j {:trigger EntryCount(env, s, seed, entries[j], globalOpts, globalDest)} :: 0 <= j < |entries| ==>
      counts[j] == EntryCount(env, s, seed, entries[j], globalOpts, globalDest)
  }

  /** Counts added up, or the first error among them. */
  function Sum(counts: seq<Result<nat>>): (r: Result<nat>)
    decreases |counts|
  {
    if counts == [] then Ok(0) else Combine(Sum(counts[..|counts| - 1]), counts[|counts| - 1])
  }

  lemma SumStep(counts: seq<Result<nat>>, i: nat)
    requires i < |counts|
    ensures Sum(counts[..i + 1]) == Combine(Sum(counts[..i]), counts[i])
  {
    assert counts[..i + 1][..i] == counts[..i];
  }

  /** An error among the first `i` counts is the error of all of them. */
  lemma {:induction false} SumLater(counts: seq<Result<nat>>, i: nat)
    requires i <= |counts|
    requires Sum(counts[..i]).Err?
    ensures Sum(counts) == Sum(counts[..i])
    decreases |counts| - i
  {
    if i < |counts| {
      SumStep(counts, i);
      SumLater(counts, i + 1);
    } else {
      assert counts[..i] == counts;
    }
  }

  /** The sum is an error exactly when some count is, and then it is the
      first of them. */
  lemma {:induction false} SumErr(counts: seq<Result<nat>>)
    ensures Sum(counts).Err? <==> exists i :: 0 <= i < |counts| && counts[i].Err?
    ensures Sum(counts).Err? ==> exists i :: (0 <= i < |counts| && counts[i].Err? && Sum(counts).msg == counts[i].msg
      && forall j :: 0 <= j < i ==> counts[j].Ok?)
    decreases |counts|
  {
    if counts != [] {
      var n := |counts| - 1;
      SumErr(counts[..n]);
      assert forall i :: 0 <= i < n ==> counts[..n][i] == counts[i];
    }
  }

  /** The number of items a task processes, or the error that ends it: the
      configuration file is read, its options are prepared with their own
      `dest`, and each entry runs as a batch. */
  function TaskCount(env: Env, s: Settings, seed: Seed, configFile: Json): Result<nat> {
    var config := GetBatchConfig(env, configFile, s.defaultOptions);
    if config.Err? then Err(config.msg)
    else
      var global := Prepare(env, s, config.value.options, Prop(config.value.options, "dest"));
      if global.Err? then Err(global.msg)
      else Sum(EntryCounts(env, s, seed, config.value.paths, global.value.opts, global.value.dest))
  }

  /** A task of no entries succeeds and processes nothing. */
  lemma EmptyTask(env: Env, s: Settings, seed: Seed, configFile: Json)
    requires GetBatchConfig(env, configFile, s.defaultOptions).Ok?
    requires GetBatchConfig(env, configFile, s.defaultOptions).value.paths == []
    requires !Prop(GetBatchConfig(env, configFile, s.defaultOptions).value.options, "dest").Str?
    ensures TaskCount(env, s, seed, configFile) == Ok(0)
  {
  }

  /** Entry `i` of a task: normalised against the global options and
      destination, then run as a batch. */
  method RunEntry(env: Env, s: Settings, seed: Seed, entries: seq<Json>, i: nat, globalOpts: Json, globalDest: Json, now: Millis,
                  ghost counts: seq<Result<nat>>)
    returns (r: Result<Snapshot>)
    requires i < |entries|
    requires CountsOf(counts, env, s, seed, entries, globalOpts, globalDest)
    ensures r.Err? <==> counts[i].Err?
    ensures r.Err? ==> r.msg == counts[i].msg
    ensures r.Ok? ==> r.value.total == counts[i].value
    ensures r.Ok? ==> r.value.completed == r.value.total && r.value.startTime == now
  {
    assert counts[i] == EntryCount(env, s, seed, entries[i], globalOpts, globalDest);
    var item := NormalizeBatchItem(entries[i], globalOpts, globalDest);
    if item.Err? {
      return Err(item.msg);
    }
    r := FnBatch(env, s, seed, item.value.src, item.value.dest, item.value.options, now, now);
  }

  /** The loop of `fnTask`: each entry runs as a batch whose snapshot is
      merged into `stats`; the first failing entry ends it. */
  method MergeEntries(stats: Stats, env: Env, s: Settings, seed: Seed, entries: seq<Json>, globalOpts: Json, globalDest: Json, now: Millis,
                      ghost counts: seq<Result<nat>>)
    returns (r: Result<()>)
    requires CountsOf(counts, env, s, seed, entries, globalOpts, globalDest)
    requires stats.total == 0 && stats.completed == 0 && stats.startTime == now && stats.endTime == None
    modifies stats
    ensures r.Err? <==> Sum(counts).Err?
    ensures r.Err? ==> r.msg == Sum(counts).msg
    ensures r.Ok? ==> stats.total == Sum(counts).value
    ensures stats.completed == stats.total && stats.startTime == now && stats.endTime == None
  {
    var i := 0;
    while i < |entries|
      invariant 0 <= i <= |entries|
      invariant Sum(counts[..i]).Ok?
      invariant stats.total == Sum(counts[..i]).value
      invariant stats.completed == stats.total
      invariant stats.startTime == now && stats.endTime == None
    {
      SumStep(counts, i);
      var batch := RunEntry(env, s, seed, entries, i, globalOpts, globalDest, now, counts);
      if batch.Err? {
        SumLater(counts, i + 1);
        return Err(batch.msg);
      }
      stats.MergeWith(Counts(batch.value.total, batch.value.completed, batch.value.startTime));
      i := i + 1;
    }
    assert counts[..i] == counts;
    return Ok(());
  }

  /** `fnTask(configFile)` with the clock reading `now` throughout: one
      batch per entry of the configuration file, each merged into a running
      counter that is ended once. */
  method FnTask(env: Env, s: Settings, seed: Seed, configFile: Json, now: Millis) returns (r: Result<Snapshot>)
    ensures r.Err? <==> TaskCount(env, s, seed, configFile).Err?
    ensures r.Err? ==> r.msg == TaskCount(env, s, seed, configFile).msg
    ensures r.Ok? ==> r.value.total == TaskCount(env, s, seed, configFile).value
    ensures r.Ok? ==> r.value.completed == r.value.total
    ensures r.Ok? ==> r.value.startTime == now && r.value.endTime == Some(now)
  {
    var stats := new Stats(0, now);
    var config := GetBatchConfig(env, configFile, s.defaultOptions);
    if config.Err? {
      return Err(config.msg);
    }
    var configOpts := config.value.options;
    var global := Prepare(env, s, configOpts, Prop(configOpts, "dest"));
    if global.Err? {
      return Err(global.msg);
    }
    ghost var counts := EntryCounts(env, s, seed, config.value.paths, global.value.opts, global.value.dest);
    var merged := MergeEntries(stats, env, s, seed, config.value.paths, global.value.opts, global.value.dest, now, counts);
    if merged.Err? {
      return Err(merged.msg);
    }
    var ended := stats.End(now);
    assert ended.Ok?;
    return Ok(stats.ToObject());
  }

  // ---------------------------------------------------------------- dispatch

  /** How `batchProcessor(...args)` reads its arguments: one argument is a
      task's configuration file; two are a source and either a string
      destination or the options; three or more are a source, a destination
      and the options. */
  function Dispatch(args: seq<Json>): Call {
    if |args| == 0 then NoArgs
    else if |args| == 1 then RunTask(args[0])
    else if |args| == 2 then
      if args[1].Str? then RunBatch(args[0], args[1], Undefined) else RunBatch(args[0], Null, args[1])
    else RunBatch(args[0], args[1], args[2])
  }

  /** `batchProcessor(...args)` of the command `ocli`, in production mode
      or not, with the clock reading `now`: any error is failed through
      `ocli.fail`, which prefixes its message. */
  method BatchProcessor(ocli: OCLI, env: Env, s: Settings, seed: Seed, production: bool, args: seq<Json>, now: Millis)
    returns (r: Outcome)
    ensures Dispatch(args).NoArgs? ==> r == Failed(ocli.Fail(Message(Str(NoArguments)), production))
    ensures Dispatch(args).RunTask? ==> var count := TaskCount(env, s, seed, Dispatch(args).configFile);
      (count.Err? ==> r == Failed(ocli.Fail(ErrorObject(count.msg), production)))
      && (count.Ok? ==> r.Resolved? && r.stats.total == count.value && r.stats.completed == count.value)
    ensures Dispatch(args).RunBatch? ==> var call := Dispatch(args);
      var count := BatchCount(env, s, seed, call.source, call.destination, call.options);
      (count.Err? ==> r == Failed(ocli.Fail(ErrorObject(count.msg), production)))
      && (count.Ok? ==> r.Resolved? && r.stats.total == count.value && r.stats.completed == count.value)
  {
    var call := Dispatch(args);
    match call {
      case NoArgs =>
        return Failed(ocli.Fail(Message(Str(NoArguments)), production));
      case RunTask(configFile) =>
        var result := FnTask(env, s, seed, configFile, now);
        if result.Err? {
          return Failed(ocli.Fail(ErrorObject(result.msg), production));
        }
        return Resolved(result.value);
      case RunBatch(source, destination, options) =>
        var result := FnBatch(env, s, seed, source, destination, options, now, now);
        if result.Err? {
          return Failed(ocli.Fail(ErrorObject(result.msg), production));
        }
        return Resolved(result.value);
    }
  }
}
