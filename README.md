# ocli core, modelled in Dafny

This project models the core of **ocli**, a family of small command-line
tools built on a shared engine. The model covers:

- **`Stats`**: the progress counter of a run. It holds a total, a completed
  count, a start time and an optional end time. Its lifecycle is: set the
  total, count updates, end, merge.
- **The batch factory**: it turns a command's *seed* function, which
  processes one path, into a processor for batches (a source pattern and a
  destination) and tasks (a JSON file listing batches). It counts every
  processed path in a `Stats`.
- **The `utils` library**:
  - `repeat`, `camelCase` and the quote helpers;
  - the numeric-text predicates;
  - `normalizeStringArray`, `splitFirst` and `ensureSrcArray`;
  - dot-notation `get`/`set`/`setProps`/`remove`/`removeProps`;
  - `pick`, `pickOptsFromArgv` and `sortKeys`;
  - batch-item normalisation.
- **The typed string parser**: `parse` and `parseSafe`, with typed parsing of
  octal, hexadecimal, binary, boolean and JSON text, and auto-detection.
- **The `OCLI` class**: its name, the message prefix, glob-path resolution,
  the config readers, `define`, the wrapped command handler and `fail`.
- **`repack`**: checks the paths of a package.json, then edits the parsed
  object in a fixed order and optionally sorts its keys.
- **Three seed functions**:
  - `copyOne` of the `copy` command;
  - `fnSeed` of the `json` command, with its batch descriptor;
  - `fnSeed` of the `mkdir` command, which resolves the file mode.

## How the model is built

JavaScript values are the datatype `Values.Value`:

- `undefined`, `null`, booleans, integers, strings, arrays, and objects that
  keep their key order;
- non-integral numbers by their text, and the infinities and NaN.

Errors are `Wrappers.Result` values that carry the source's own message
texts.

Paths are absolute and normalised, as lists of segments (`Paths`). Node's
`path.resolve`, `join`, `relative`, `dirname` and `basename` are written out
on them. `Host.ResolveValues` is `path.resolve(base, p)` on JavaScript
values: it checks `p` first and reads `base` only for a relative `p`.
The text of `path.join` and `path.normalize` is modelled as well
(`Paths.JoinText`), because the `json` command shows it in a message. It
keeps leading ".." of a relative path, and `Paths.NormalizeTextResolves`
proves it names the same file as the path it came from.

Everything the library takes from its surroundings is a field of
`Host.Env`:

- the process working directory;
- `JSON.parse` and the number conversions of fractional text;
- the glob engine;
- JSON file reading, `fs.pathExists` and `lstat`;
- a performer for the file-system requests a seed makes.

Clock readings are parameters.

The code that changes state in place is written as imperative Dafny:

- `Stats` and `OCLI` are classes.
- `repeat`, `normalizeStringArray`, `setProps`, `removeProps`, `pick`,
  `pickOptsFromArgv` and `sortKeys` are loops.
- The batch and task runs are loops that update a `Stats`.

Each of these methods is proved against a function that specifies it, and
the properties are proved about those functions.

The asynchronous `pmap` runs its items sequentially here. The first failing
item, in input order, stops the run.

## Model

| member | source | states |
|---|---|---|
| StatsModel.Stats.constructor | packages/core/lib/Stats.js:3-10 | a new counter has the given total, nothing completed, the given start time and no end time |
| StatsModel.Stats.SetTotal | packages/core/lib/Stats.js:16-21 | fails with "Cannot set total after Stats#end() is called." exactly when ended, changing nothing; otherwise stores the total, 0 for a negative one, and keeps the other fields |
| StatsModel.Stats.Update | packages/core/lib/Stats.js:47-63 | a missing increment counts as 1; succeeds exactly when not ended, total non-zero, the increment an integer of at least 1 and within total; `+Infinity` fails as exceeding the total; each failure has its own message in source order and leaves the counter unchanged; success adds exactly the increment |
| StatsModel.Stats.End | packages/core/lib/Stats.js:65-71 | sets the end time once; a second call fails with "Stats#end() is already called." and changes nothing |
| StatsModel.Stats.Percent | packages/core/lib/Stats.js:27-31 | 0 for a total of 0, otherwise the fraction with percent × total = completed |
| StatsModel.PercentComplete | packages/core/lib/Stats.js:27-31 | percent is 1 exactly when total > 0 and completed == total |
| StatsModel.FreshStats | packages/core/lib/Stats.js:3-10 | a counter with nothing completed and no end has percent 0 and is not ended |
| StatsModel.Stats.ToObject | packages/core/lib/Stats.js:73-82 | the snapshot carries total, completed, percent, start and end time of the counter |
| StatsModel.Stats.MergeWith | packages/core/lib/Stats.js:89-97 | the receiver gets the sums of both totals and completed counts, the earlier start time and no end time |
| StatsModel.Stats.Merge | packages/core/lib/Stats.js:109-114 | an instance first argument is merged into in place and returned; a plain record gives a fresh counter; either way the result holds the sums, the earliest start time, and is not ended |
| Batch.Words | packages/core/lib/batchFactory.js:55-64 | files only gives file/files, directories only gives directory/directories, anything else item/items |
| Batch.Plural | packages/core/lib/batchFactory.js:65 | the singular word exactly when the count is 1, the plural otherwise |
| Batch.Prepare | packages/core/lib/batchFactory.js:68-75 | the options are the caller's over the defaults; a string destination is resolved against the merged `cwd`, which is read only for a relative destination and fails exactly then when it is not a string; an absolute destination resolves on its own; any other destination is kept |
| Batch.PrepareResolvedDest | packages/core/lib/batchFactory.js:68-75 | an already resolved destination is left as it is, whatever the `cwd` option holds, so a task's global destination is not moved twice |
| Batch.GetPaths | packages/core/lib/batchFactory.js:77-91 | without globs the source as a list; with globs the glob engine's non-empty paths, its error rethrown unless `force` is set, in which case the list is empty |
| Batch.ArityGuardNeverFires | packages/core/lib/batchFactory.js:97-100 | the seed arity guard can never fire |
| Batch.SeedCall | packages/core/lib/batchFactory.js:103-108 | arity 2 calls the seed with (path, options), any other arity with (path, dest, options) |
| Batch.FirstFailureNone | packages/core/lib/batchFactory.js:122-126 | no failure in a run exactly when every seed call returns |
| Batch.FirstFailureSome | packages/core/lib/batchFactory.js:122-126 | a reported failure is the error of some path's call, all earlier calls returning |
| Batch.BatchCount | packages/core/lib/batchFactory.js:111 | a falsy source fails with "Invalid source." |
| Batch.BatchCountOk | packages/core/lib/batchFactory.js:110-136 | a batch succeeds exactly when the source is truthy, preparation and path resolution succeed and every seed call returns; it then counts every path |
| Batch.CountPaths | packages/core/lib/batchFactory.js:116-127 | the loop sets total to the number of paths, stops at the first failing seed call, and otherwise counts every path once, whatever the seed returns |
| Batch.RunPaths | packages/core/lib/batchFactory.js:116-135 | a run fails with the first seed error; otherwise total == completed == number of paths, percent 1 (0 for no paths), and the end time is set |
| Batch.FnBatch | packages/core/lib/batchFactory.js:110-136 | `fnBatch` fails exactly as the batch count fails; otherwise its snapshot has completed == total == the count, the start and end times given |
| Batch.Combine | packages/core/lib/batchFactory.js:150-156 | merging two batch results: the sum when both succeed, the first error otherwise |
| Batch.SumErr | packages/core/lib/batchFactory.js:150-156 | a task fails exactly when some entry fails, with the message of such an entry |
| Batch.EmptyTask | packages/core/lib/batchFactory.js:138-163 | a task with no entries succeeds and counts nothing |
| Batch.RunEntry | packages/core/lib/batchFactory.js:151-154 | one task entry, normalised and run as a batch, gives that entry's count or error |
| Batch.MergeEntries | packages/core/lib/batchFactory.js:150-156 | the loop over the tasks fails exactly when the sum of the entry counts fails; otherwise the accumulated counter holds that sum, all completed, not ended |
| Batch.FnTask | packages/core/lib/batchFactory.js:138-163 | `fnTask` fails exactly when the task count fails; otherwise total == completed == the sum of the batches, ended once |
| Batch.BatchProcessor | packages/core/lib/batchFactory.js:165-187 | no arguments fails with "No arguments passed."; one argument runs a task; more run a batch, a non-string second argument being the options; any error is passed to `fail` |
| BatchItems.NormalizeBatchItemPaths | packages/core/lib/utils.js:588-594 | the in-place path normalisation of an item equals its specification `NormalizedPaths`; unset items fail |
| BatchItems.ObjectPathsSrc | packages/core/lib/utils.js:588-594 | an object item's `src` becomes an empty list when falsy and a comma split when a string |
| BatchItems.ObjectPathsOthers | packages/core/lib/utils.js:588-594 | no other key of an object item changes; `src` is added last when missing |
| BatchItems.SrcOfEnsureSrcArray | packages/core/lib/utils.js:600-606 | the normalised `src` of an object item is its `ensureSrcArray` |
| BatchItems.SrcList | packages/core/lib/utils.js:590-592 | a string `src` becomes the list `ensureSrcArray` gives for it, one item per comma piece |
| BatchItems.RestOf | packages/core/lib/utils.js:613 | the inline options are exactly the item's keys other than `src` and `dest`, with their values |
| BatchItems.NormalizeBatchItem | packages/core/lib/utils.js:608-628 | equals `NormalizedItem`, which fails with "Invalid batch item" exactly for a falsy item |
| BatchItems.NormalizedItemSrc | packages/core/lib/utils.js:608-628 | `src` is an array item itself, a string item split on commas, or an object item's normalised `src` |
| BatchItems.NormalizedItemDest | packages/core/lib/utils.js:620 | `dest` is item.dest, else the global options' dest, else the global destination |
| BatchItems.NormalizedItemOptions | packages/core/lib/utils.js:613-617 | options are the global options without `dest`, overridden by the item's inline keys |
| Utils.Repeat | packages/core/lib/utils.js:79-88 | '' for a count below 1; otherwise the text repeated `Copies(count)` times, the count itself below 2^31 |
| Utils.CopiesSmall | packages/core/lib/utils.js:79-88 | a count from 1 to 2^31 - 1 gives exactly that many copies |
| Utils.RepAdd | packages/core/lib/utils.js:79-88 | copies add up: n + m copies are n copies followed by m copies |
| Utils.CamelCaseOfWords | packages/core/lib/utils.js:90-94 | words joined by `-`, `_` or space become the first word lower-cased followed by the others capitalised |
| Utils.RemoveSurQuotes | packages/core/lib/utils.js:109-113 | the result is trimmed and no longer than the input |
| Utils.RemoveQuotesRoundTrip | packages/core/lib/utils.js:103-113 | quoting trimmed text with `"` or `'` and removing the quotes gives the text back |
| Utils.RemoveQuotesUnquoted | packages/core/lib/utils.js:103-113 | text without matching surrounding quotes is only trimmed |
| Utils.DecimalIntegerIsNumeric | packages/core/lib/utils.js:49-57 | a decimal integer passes `isJsNumeric` |
| Utils.SplitFirst | packages/core/lib/utils.js:242-253 | fails only for an empty text and delimiter; one piece exactly when the delimiter does not occur, else two pieces that rebuild the text around it |
| Utils.SplitFirstAtFirst | packages/core/lib/utils.js:242-253 | the split is at the first occurrence: the first piece holds no delimiter |
| Utils.SplitFirstAssign | packages/core/lib/utils.js:348 | splitting a pair at the first `:` or `=`: one piece, the text itself, exactly when there is none; else the text before it without its trailing whitespace (holding no `:` or `=`) and the text after it without its leading whitespace |
| Utils.SplitAssignPair | packages/core/lib/utils.js:348 | splitting `name`, a `:` or `=`, and `value` gives back `name` and `value` when the name holds no separator and neither has whitespace next to it |
| Utils.EnsureArray | packages/core/lib/utils.js:210-214 | an array is kept; a set value becomes the one-item list of itself; `null` and `undefined` give [] |
| Utils.EnsureSrcArray | packages/core/lib/utils.js:600-606 | an array is returned as is; a string gives one string per comma piece, each free of commas, and itself alone when it has no comma; any other value gives nothing |
| Utils.NormalizeStringArray | packages/core/lib/utils.js:216-235 | the reduce loop gives `NormalizedStrings`: items in order, trimmed, split on the separator with its surrounding blanks, empty pieces dropped |
| Utils.NormalizedStringsPieces | packages/core/lib/utils.js:216-235 | every output piece is non-empty and trimmed, and holds no comma when splitting |
| Utils.NormalizedStringsAppend | packages/core/lib/utils.js:216-235 | the output keeps the input order: normalising a concatenation concatenates the outputs |
| Utils.NormalizedStringsIdempotent | packages/core/lib/utils.js:216-235 | normalising an already normal list gives it back |
| Notation.GetSnoc | packages/core/lib/utils.js:269-285 | `get` on a longer path reads the last name from the object at the shorter path, undefined when that is not an object |
| Notation.Set | packages/core/lib/utils.js:299-328 | a non-object target comes back unchanged; the result has the target's type |
| Notation.SetThenGet | packages/core/lib/utils.js:299-328 | after `set`, intermediate objects created as needed, `get` at the path gives the value |
| Notation.SetKeepsExisting | packages/core/lib/utils.js:299-328 | without overwrite, a path that already exists leaves the object unchanged |
| Notation.OverwriteOnlyExisting | packages/core/lib/utils.js:299-328 | on a path that does not exist, overwrite makes no difference |
| Notation.SetLeavesOthers | packages/core/lib/utils.js:299-328 | paths that diverge from the one set read as before |
| Notation.SetThroughNull | packages/core/lib/utils.js:299-328 | a null or undefined level on the way fails, as assigning a property of it throws |
| Notation.RemoveReturnsOld | packages/core/lib/utils.js:370-391 | `remove` returns the old value at the path |
| Notation.RemoveThenGet | packages/core/lib/utils.js:370-391 | after `remove` the path reads undefined |
| Notation.RemoveLeavesOthers | packages/core/lib/utils.js:370-391 | other paths read as before |
| Notation.PairValue | packages/core/lib/utils.js:348-350 | a pair without a value part gives null |
| Notation.SetProps | packages/core/lib/utils.js:344-361 | string or array pairs are set in order from their normalised texts; an object's entries are set in key order; any other value leaves the object |
| Notation.SetEntriesFlat | packages/core/lib/utils.js:344-361 | setting the entries of an object of plain keys with overwrite gives each key its value and keeps the rest |
| Notation.SetPairsNonObject | packages/core/lib/utils.js:299-300 | pairs set on a non-object leave it unchanged |
| Notation.RemoveProps | packages/core/lib/utils.js:401-409 | the loop removes every normalised notation from an object, and leaves a non-object alone |
| Notation.RemoveAllFlat | packages/core/lib/utils.js:401-409 | removing plain names deletes exactly those keys and keeps every other key and value |
| Notation.PickOne | packages/core/lib/utils.js:421-424 | one key is copied exactly when it is own and, with `ignoreUndefined`, defined |
| Notation.Pick | packages/core/lib/utils.js:418-427 | the result holds exactly the listed keys that are picked, with the source's values; reading keys of an unset source fails |
| Notation.OptionName | packages/core/lib/utils.js:443-446 | the camel-cased alias when it is a longer string than the key, else the camel-cased key |
| Notation.PickOptsFromArgv | packages/core/lib/utils.js:439-453 | fails exactly when an entry of the description is unset, or argv is unset and there are entries; otherwise builds the object of one `pick` step per entry, in order |
| Notation.PickedOptsPicks | packages/core/lib/utils.js:439-453 | that object holds exactly the option names (key or longer alias, camel-cased) that argv owns, with argv's values |
| KeySort.SortStrings | packages/core/lib/utils.js:487 | the sorted key list is ordered by the comparer and a permutation of the keys |
| KeySort.SortKeys | packages/core/lib/utils.js:467-496 | the loops fill the copy as `SortedKeys` specifies |
| KeySortFacts.SortKeysKeepsKeys | packages/core/lib/utils.js:467-496 | the sorted copy has exactly the object's keys |
| KeySortFacts.SortKeysValues | packages/core/lib/utils.js:481-485 | each value is kept, nested objects sorted again when `deep` is set |
| KeySortFacts.SortKeysOrder | packages/core/lib/utils.js:484-494 | the key order is the present top keys in their order, then the others in sorted order, then the present bottom keys |
| KeySortFacts.SortKeysMiddleSorted | packages/core/lib/utils.js:487-489 | the keys between the pinned ones are in the comparer's order |
| Parser.KindOf | packages/core/lib/parser.js:89-122 | an empty or `any` type name is not a forced type |
| Parser.ParseNumeric | packages/core/lib/parser.js:35-81 | the result is a number; a failure has the message `Cannot parse "<str>" to "<type>"`; "NaN" always fails |
| Parser.ParseBool | packages/core/lib/parser.js:83-87 | true only for non-empty text |
| Parser.FalsyWordAnywhere | packages/core/lib/parser.js:83-87 | text containing 0, no, false, null or undefined anywhere parses as false |
| Parser.TruthyText | packages/core/lib/parser.js:83-87 | text free of those words parses as true exactly when non-empty |
| Parser.ParseJsonType | packages/core/lib/parser.js:5-33 | success is `JSON.parse`'s value, an object for the object types and an array for the array types; failure has the parse message |
| Parser.ForceParse | packages/core/lib/parser.js:89-128 | an unknown type name fails with the parse message; every failure carries it |
| Parser.Parse | packages/core/lib/parser.js:130-134 | a non-string is returned as it is; an unknown type name fails |
| Parser.ParseTrimsFirst | packages/core/lib/parser.js:131-132 | parsing text and parsing its trimmed form agree |
| Parser.TypedString | packages/core/lib/parser.js:93-96 | `str` and `string` give the trimmed text |
| Parser.TypedRadix | packages/core/lib/parser.js:55-70 | octal, hex and binary accept exactly their digit class, the prefix optional, and give the base-N value; anything else fails |
| Parser.NaNRejected | packages/core/lib/parser.js:37 | "NaN" fails for every numeric type |
| Parser.RadixRoundTrip | packages/core/lib/parser.js:55-70 | the base-N digits of any natural parse back to it |
| Parser.PrefixedRoundTrip | packages/core/lib/parser.js:55-70 | the same with the `0o`, `0x` or `0b` prefix |
| Parser.TypedBool | packages/core/lib/parser.js:109-112 | `bool` and `boolean` apply `_parseBool` |
| Parser.TypedObject | packages/core/lib/parser.js:10-14 | the object types accept exactly the text `JSON.parse` reads as an object |
| Parser.TypedArray | packages/core/lib/parser.js:15-19 | the array types accept exactly the text `JSON.parse` reads as an array |
| Parser.TypedJson | packages/core/lib/parser.js:20-22 | `json` accepts whatever `JSON.parse` reads |
| Parser.ParseUntyped | packages/core/lib/parser.js:134-167 | without a type the trimmed text is auto-detected |
| Parser.AutoQuoted | packages/core/lib/parser.js:137 | quoted text gives its inner text, untrimmed |
| Parser.EarlyJson | packages/core/lib/parser.js:139 | text that starts with `[` or `{` and a quoted key goes straight to `JSON.parse` |
| Parser.AutoLiterals | packages/core/lib/parser.js:141-144 | null, undefined, true and false give their literals |
| Parser.AutoNaN | packages/core/lib/parser.js:146 | "NaN" gives NaN |
| Parser.AutoInfinity | packages/core/lib/parser.js:145 | "Infinity" gives the positive infinity |
| Parser.AutoNegInfinity | packages/core/lib/parser.js:145 | "-Infinity" gives the negative infinity |
| Parser.AutoPrefixed | packages/core/lib/parser.js:154-159 | prefixed octal, hex or binary digits give their value |
| Parser.AutoDecimal | packages/core/lib/parser.js:161 | plain decimal digits give their decimal value |
| Parser.ParseSafe | packages/core/lib/parser.js:170-176 | the error exactly when `parse` fails, otherwise the parsed value |
| Parser.ParseSafeNeverFails | packages/core/lib/parser.js:170-176 | `parseSafe` never fails: `[err]` for a failing parse and `[null, v]` otherwise |
| Parser.ObjectWithInfinityAsWritten | packages/core/lib/parser.js:139-145 | with the early test as written, `{"x":"Infinity"}` auto-parses to NaN |
| Parser.ObjectWithInfinityIntended | packages/core/lib/parser.js:139 | with the early test as intended, the same text goes to `JSON.parse` |
| Parser.EarlyTestsAgree | packages/core/lib/parser.js:139-167 | apart from text holding "Infinity", the two early tests give the same result |
| Ocli.OCLI.constructor | packages/core/lib/OCLI.js:56-72 | the name is lower-cased, nothing is defined yet, and the log flags come from `quiet` (default true) and `verbose` (default false) |
| Ocli.PkgNameOfLibrary | packages/core/lib/OCLI.js:86-88 | the package name is `@ocli/` followed by the lower-cased library name |
| Ocli.Prefixed | packages/core/lib/OCLI.js:161-168 | empty text gives `[o name]`; text already starting with it, ignoring case, is kept; anything else gets it in front |
| Ocli.PrefixIdempotent | packages/core/lib/OCLI.js:161-168 | prefixing twice is prefixing once |
| Ocli.GlobOptions | packages/core/lib/OCLI.js:185-188 | the caller's glob options over the defaults |
| Ocli.GetGlobPaths | packages/core/lib/OCLI.js:178-196 | falsy patterns, or an empty match, fail with the "No usable or existing paths found" message when `failOnEmpty` is set and give [] otherwise; a non-empty match is exactly what the glob engine found; engine errors are passed on |
| Ocli.MergeOptions | packages/core/lib/OCLI.js:211-214 | the merged object has the keys of both, the caller's value winning |
| Ocli.GetConfig | packages/core/lib/OCLI.js:206-216 | a read error is passed on; an unset config fails reading `src`; any other config succeeds, with `src` and `dest` as the file has them and the file's options over the defaults |
| Ocli.CopyList | packages/core/lib/OCLI.js:233 | a falsy value gives [], an array its items, a string its characters, and any other value fails as not iterable |
| Ocli.GetBatchConfig | packages/core/lib/OCLI.js:226-235 | a read error is passed on; an unset config fails reading `options`; otherwise it succeeds exactly when `paths` can be copied, with the options merged the same way and `paths` that copy |
| Ocli.GlobalOptions | packages/core/lib/OCLI.js:62-66 | `quiet` and `verbose` default to true and false unless given |
| Ocli.LogFlagsOfGlobalOptions | packages/core/lib/OCLI.js:68-71 | logging is enabled unless `quiet` is truthy; verbose as given |
| Ocli.CmdMeta | packages/core/lib/OCLI.js:262 | the command metadata is the meta without `batchProcess` |
| Ocli.OCLI.Define | packages/core/lib/OCLI.js:261-289 | a truthy `batchProcess` marks batch support and makes the core the batch processor; otherwise the core is the function itself; the handler is wrapped when given; an unset meta fails |
| Ocli.OCLI.Handle | packages/core/lib/OCLI.js:279-286 | always marks a command-line call, also when a null argv then fails reading `quiet` with logging left as it was; otherwise logging is enabled unless `quiet` is true, verbose only when `verbose` is true, and the handler runs with `{}` for no argv |
| Ocli.OCLI.Fail | packages/core/lib/OCLI.js:300-315 | the message gets the prefix; the process exits exactly for a production command-line call, otherwise the error is thrown |
| Ocli.FailTwice | packages/core/lib/OCLI.js:300-315 | failing again with the message of a failure does not prefix it twice |
| Repack.Defaults | packages/repack/index.js:18-32 | the defaults are an object whose `cwd` is the working directory |
| Repack.RepackOptions | packages/repack/index.js:103-106 | the caller's options over the defaults |
| Repack.PackagePath | packages/repack/index.js:49-52 | a directory source means its package.json; an unreadable source fails |
| Repack.Prepare | packages/repack/index.js:37-71 | no source and no destination fails; `cwd` is read only to resolve a relative path or to stand for an empty source, and fails there when it is not a string; on success the source file ends in package.json, is not directly in the destination directory, and reads as an object |
| Repack.ReadSource | packages/repack/index.js:47-71 | the package file fails as `lstat` does, then unless named package.json, then when directly in the destination directory; a success reads it as an object |
| Repack.SourceDirectoryWithoutDest | packages/repack/index.js:45-59 | a source directory without a destination is refused as the same directory |
| Repack.SourceNotNamedPackage | packages/repack/index.js:53-55 | a source file not named package.json is refused |
| Repack.PreparedKeepsSource | packages/repack/index.js:57-59 | the file written is never the file read |
| Repack.Run | packages/repack/index.js:96-154 | fails as `prepare` or the edit fails; otherwise the edited package goes to package.json in the destination directory, never the file it was read from |
| Repack.HasJoin | packages/repack/index.js:73-75 | `has` is existence of the entry inside the directory |
| Repack.CheckDestination | packages/repack/index.js:85-111 | fails with "not safe" exactly when `danger` is unset and the destination holds a package.json, package-lock.json, node_modules, .git or .bin |
| Repack.MarkedPrivate | packages/repack/index.js:113 | `private` sets `private: true` |
| Repack.MarkedTexts | packages/repack/index.js:114-115 | `name` and `description` are replaced only by strings |
| Repack.MarkedOthers | packages/repack/index.js:113-115 | no other key changes |
| Repack.StrippedProps | packages/repack/index.js:116-120 | each dependency flag deletes exactly its own key; other keys stay |
| Repack.FlaggedOthers | packages/repack/index.js:113-120 | keys outside the flagged ones are untouched |
| Repack.Licensed | packages/repack/index.js:133-135 | `private` set to true forces `license` to UNLICENSED |
| Repack.RemoveBeforeSet | packages/repack/index.js:123-125 | `remove` applies before `set`, so a key in both ends with the `set` value |
| Repack.EditPackage | packages/repack/index.js:109-151 | the in-place edits produce `Edited`: the destination check, the flags, `remove`, `set`, then the smart or plain sort |
| Repack.ApplyMarks | packages/repack/index.js:113-115 | the three marks in place equal `Marked` |
| Repack.ApplyDrops | packages/repack/index.js:116-120 | the five deletions in place equal `Stripped` |
| Repack.ApplyLists | packages/repack/index.js:123-125 | `remove` then `set` in place equal `Assigned` after `Removed` |
| Repack.ApplyArrange | packages/repack/index.js:127-151 | the smart or plain sort in place equals `Arranged` |
| Repack.SmartPrivateFirst | packages/repack/index.js:127-142 | with `smart` and `private`, `private` is the first key and the license is UNLICENSED |
| Repack.PlainSortAscending | packages/repack/index.js:145-151 | `sort` without `smart` gives the same keys and values in ascending order |
| Copy.CopyTarget | packages/copy/index.js:33-43 | the destination, then the source's directory below `cwd` when `parents` is set and it is inside `cwd`, then the base name |
| Copy.CopyParentsInside | packages/copy/index.js:35-43 | with `parents` and a source inside `cwd`, its path below `cwd` is repeated below the destination |
| Copy.CopyFlat | packages/copy/index.js:33-43 | without `parents`, or for a source outside `cwd`, the file goes straight into the destination |
| Copy.CopyStaysInDest | packages/copy/index.js:35-42 | whatever the options, the target lies inside the destination |
| Copy.CopyOptions | packages/copy/index.js:50-51 | the options passed on drop `dot` and set `preserveTimestamps` to `timestamps`, the others unchanged |
| Host.ResolveValues | packages/copy/index.js:28 | a non-string path fails first; an absolute path resolves without the base being read; a relative path needs a string base and is resolved against it |
| Copy.CopyRequest | packages/copy/index.js:26-51 | the source is resolved first: a non-string source fails, and `cwd` is read, and must be a string, only for a relative one; then with `parents` `cwd` must be a string; then the destination must be one; a success is the copy of the resolved source to the target |
| Copy.CopyAbsoluteIgnoresCwd | packages/copy/index.js:26-43 | an absolute source copied without `parents` goes from and to the same paths whatever `cwd` holds |
| Copy.CopyFlatAnyCwd | packages/copy/index.js:33-43 | without `parents` the target does not depend on `cwd` |
| Copy.CopyOne | packages/copy/index.js:26-54 | true exactly when the request is made and the copy succeeds |
| JsonCommand.JsonDefaults | packages/core/cli/commands/json.js:20-29 | the defaults are an object |
| JsonCommand.JsonBatchOfFiles | packages/core/cli/commands/json.js:184-191 | the command is a glob-based batch over files only, with the verb "Wrote", counting file/files |
| JsonCommand.ParentLevels | packages/core/cli/commands/json.js:44-54 | the parent part is cut to levels only when it is non-empty and `parents` a positive number |
| JsonCommand.JsonTarget | packages/core/cli/commands/json.js:39-62 | without a destination the source itself; with one and no level count, the same target as the copy seed |
| JsonCommand.WriteOptions | packages/core/cli/commands/json.js:73-76 | `space` is the indent, 0 when falsy; `autoPath` is `parents` |
| JsonCommand.JsonTargetText | packages/core/cli/commands/json.js:55-62 | the text `path.join(dest, parents, basename)` gives, resolved, is the file written; without a destination it is the source's own path |
| JsonCommand.ExistingTarget | packages/core/cli/commands/json.js:64-70 | an existing target stops the write exactly without `overwrite`: `ocli.fail`'s "[o json] JSON file already exists: " error naming the joined text with `errorOnExists`, false otherwise |
| JsonCommand.Rewrite | packages/core/cli/commands/json.js:72-78 | true exactly when the source reads and the write succeeds |
| JsonCommand.JsonSeed | packages/core/cli/commands/json.js:32-79 | the source is resolved first, reading `cwd` only when it is relative; then a non-string destination fails, then `ensureDir` failures are passed on, then `parents` with a destination needs a string `cwd`; a success is true or false |
| JsonCommand.NoDestKeepsSource | packages/core/cli/commands/json.js:55-70 | without a destination and without `overwrite`, an existing source is never rewritten: the call fails with "[o json] JSON file already exists: " and the source's resolved path, or gives false |
| JsonCommand.JsonKeepsExisting | packages/core/cli/commands/json.js:64-70 | without `overwrite`, an existing target fails the call with the prefixed message naming the joined text (relative when the destination is), or gives false, never writing |
| Paths.JoinTextResolves | packages/core/cli/commands/json.js:62 | the text of `path.join(a, b, c)`, resolved, is the path `a` names joined with `b` and then `c` |
| Paths.NormalizeTextResolves | packages/core/cli/commands/json.js:62 | `path.normalize` keeps the file a text names: resolved, the normalised and the original text are the same path |
| Paths.JoinDirnameBasename | packages/core/cli/commands/json.js:59-62 | joining a resolved path's directory, nothing and its base name gives back the path's own text |
| JsonCommand.JsonWrites | packages/core/cli/commands/json.js:64-78 | a call giving true wrote the read content to the target, which did not exist or `overwrite` was set |
| Mkdir.ModeOption | packages/core/cli/commands/mkdir.js:21 | the mode of the options, undefined without options |
| Mkdir.ResolveMode | packages/core/cli/commands/mkdir.js:22-28 | a non-string mode is kept; octal text gives its base-8 value; other text its number when numeric; otherwise "Invalid file mode: <mode>" |
| Mkdir.OctalMode | packages/core/cli/commands/mkdir.js:23 | octal digits, with or without `0o`, give their base-8 value |
| Mkdir.DecimalMode | packages/core/cli/commands/mkdir.js:24 | a decimal integer with an 8 or a 9 is read as decimal |
| Mkdir.InvalidModeText | packages/core/cli/commands/mkdir.js:25-27 | text neither octal nor numeric is rejected with its own text in the message |
| Mkdir.MkdirRequest | packages/core/cli/commands/mkdir.js:20-30 | the mode error first, then a non-string path; otherwise the directory resolved with the resolved mode |
| Mkdir.MkdirSeed | packages/core/cli/commands/mkdir.js:20-31 | resolves with nothing exactly when the request is made and the directory is created |

## Left out

- Concurrency: `utils.pmap` and `Promise.all` run the items one after another here. The first failing item in input order is the one reported. Progress interleaving is not modelled.
- I/O: the glob engine, JSON file reading and writing (with `jsonc` comment stripping), `fs.pathExists`, `lstat`, `ensureDir`, `fs.copy`, `fs.mkdir` and `JSON.parse` are fields of `Host.Env`. Their results are not modelled.
- `utils.getParents` is not part of this model. Its result is an opaque field of `Host.Env`.
- The clock: `Date.now()` is a parameter. `Stats.elapsedTime` (floating point and `toFixed`) is not modelled, and neither is the `elapsedTime` field of `toObject`.
- Floating point: `Number`, `parseFloat` and `parseInt` on text that is not a plain decimal integer are the `convert` field of `Host.Env`. `percent` is an exact rational. Integer text is read exactly, as an unbounded integer: the rounding of JavaScript numbers above 2^53 and the overflow of very long digit strings to `Infinity` are not modelled.
- Parser.RadixRoundTrip: the digits of every natural read back exactly. In the source `parseInt` gives that value only below 2^53 and rounds above it.
- Parser.PrefixedRoundTrip: as `RadixRoundTrip`, exact for every natural, where the source rounds above 2^53.
- Parser.AutoPrefixed: the value of prefixed digits is exact for every natural, where the source rounds above 2^53.
- Parser.AutoDecimal: the value of decimal digits is exact for every natural. The source's `parseFloat` rounds above 2^53 and gives `Infinity` beyond the largest double.
- Mkdir.OctalMode: the base-8 value is exact for digit strings of any length, where `parseInt` rounds above 2^53.
- Mkdir.DecimalMode: the decimal value is exact for any length, where `Number` rounds above 2^53.
- StatsModel.Stats.Update: the counter is an integer. The source also adds a fractional increment of at least 1, and adds `NaN` (which passes both of its tests), leaving a fractional or `NaN` count; the model refuses both with the bad-increment message.
- Parser.ParseSafe, Notation.PairValue, Notation.SetProps and Mkdir.ResolveMode: they parse through `Parser.Parse`, which uses the intended early JSON test (see Findings). On brace text holding "Infinity", such as the pair `a:{"x":"Infinity"}`, the source gives NaN where the model gives the parsed object.
- Logging, styling, yargs builders and handlers are not modelled, and neither is `process.exit`. `fail` gives an `Exited` or a `Thrown` outcome instead.
- The texts of the runtime's own `TypeError`s are fixed strings in the format of current Node versions, not produced by the runtime: those for non-string path arguments, `Ocli.NotIterable`, `Ocli.ReadOfUnset`, `Ocli.MissingMeta`, `Notation.NoAlias`, `BatchItems.ReadOfUnset`, and the failure of `Utils.SplitFirst` on empty text and delimiter.
- Notation.Get: it reads own properties only. JavaScript's `obj[prop]` also finds inherited ones such as `toString`, which the model reads as `undefined`.
- `Notation` (`get`/`set`/`remove`) works on objects only: descending into arrays by index is not modelled.
- `sortKeys`: `localeCompare` is approximated by code-point order. Only the `asc` and `desc` comparers are modelled, not custom comparer functions. JavaScript's integer-like key ordering is not modelled.
- Case mapping (`toLowerCase`, `toUpperCase`) is ASCII only.
- `repack`: the one-argument overload that reads a config file (packages/repack/index.js:97-102) is not modelled. Nor are the `outputFile` write with `indent`, `npm install`/`npm pack` and `cleanStdErr`. The model stops at the object written and its path.
- Repack.Prepare: an empty source stands for the `cwd` option, and the model compares its directory with the destination as a resolved path. The source compares the `cwd` text itself, joined with package.json, so a relative or empty `cwd` never matches the absolute destination there and is not refused as the same directory; `lstat` of an empty `cwd` fails in the source, while the model reads the process working directory.
- Repack.Defaults: only the `cwd` entry is stated. The other defaults are data written out in `DefaultPairs`.
- The `json` command: `removeComments` is not modelled. The source is read by `readJson` the same way whether or not comments are stripped.
- The `json` command: its batch descriptor is the `Batch.Settings` value `JsonSettings` itself, not an object read through `SettingsOf`.
- JsonCommand.JsonTarget: with `parents` a positive number, the part kept comes from `getParents` and is stated only through `ParentLevels`.
- JsonCommand.JsonSeed: it requires an options object, which the batch processor always passes. A truthy destination that is not a string fails with the `path.join` type error, not with the error of `ensureDir`.
- Copy and json: the `..` guard tests the relative path for the substring "..". A directory named like `a..b` also empties the parent part, as in the source.
- Mkdir: `fs.mkdir` resolves a relative path against the process working directory, which the model does too. A Buffer or URL path is outside the model.
- Utils.SplitFirst: the delimiter is a string only. The RegExp form is modelled only for the one pattern the core passes, `/\s*[:=]\s*/`, by `Utils.SplitFirstAssign`.
- Utils.NormalizeStringArray: the separator is read as regular-expression text in the program. The model takes only no separator or `','`, the only one the core passes.
- Utils.Repeat: the count is always given. Its default of 1 is not modelled.
- Values.Spread and Values.OrEmpty: spreading a string or an array, which adds its indices as keys in JavaScript, is read as adding nothing.
- Utils.Repeat: counts of 2^31 and more follow ToInt32 wrap-around through `Copies`. Only counts below 2^31 are stated to give exactly `count` copies.
- Utils.RemoveSurQuotes: the contract states trimming and length only. The quote behaviour is stated by `RemoveQuotesRoundTrip` and `RemoveQuotesUnquoted`.
- Notation.Set: the contract states the type only. Reading back, keeping existing values and leaving other paths are the lemmas `SetThenGet`, `SetKeepsExisting` and `SetLeavesOthers`.
- Parser.ParseBool: the contract states only that true needs non-empty text. The substring rule is `FalsyWordAnywhere` and `TruthyText`.
- Parser.Parse: the contract states the pass-through and the unknown type. The typed and auto-detected cases are the lemmas named in the table.
- JsonCommand.JsonDefaults: only the object shape is stated. The values are data.
- `titleCase`, `formatSize`, `exec`, file sizes, module resolution, `hasGlob` and `isPromise`/`safe*` are outside the modelled core.
- The `clean` and `remove` commands are not modelled.

## Findings

| source | as written | input that shows it | evidently intended | confidence | as-written member | corrected member |
|---|---|---|---|---|---|---|
| packages/core/lib/parser.js:139 | the early JSON test `/^\s*(\[\|{\s*"})/` asks for `"}` right after an opening brace, so objects with a key skip it | `{"x":"Infinity"}` skips `JSON.parse`, matches the `-?Infinity` test and auto-parses to NaN | `/^\s*(\[\|{\s*")/`: an object whose first key follows the brace goes to `JSON.parse` | not executed | Parser.ObjectWithInfinityAsWritten | Parser.ObjectWithInfinityIntended |

The rest of the model uses the intended test (`Parser.Parse`).
`Parser.EarlyTestsAgree` shows the two tests differ only on text holding
"Infinity", given a runtime that reads no number from brace text.

Other places where the code differs from the documented behaviour are
modelled as the code has them:

- The `Stats` constructor stores a negative total as given. Only the setter
  clamps it to 0.
- The seed arity guard `arity < 2 && arity > 3` can never fire.
- `fnBatch` counts every seed call that returns, whatever it returns.
- `prefix` builds `[o name]`.
