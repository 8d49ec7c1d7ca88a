/** The core function of the `mkdir` command: it reads the file mode, which
    may be given as octal or decimal text, and asks the file system to
    create the directory with it. */
module Mkdir {
  import opened Wrappers
  import opened Text
  import opened Values
  import opened Host
  import opened Paths
  import opened Utils
  import opened Parser

  const InvalidMode := "Invalid file mode: "

  /** `let { mode } = options || {}`. */
  function ModeOption(options: Json): (mode: Json)
    ensures !Truthy(options) ==> mode == Undefined
    ensures options.Obj? ==> mode == Prop(options, "mode")
  {
    if Truthy(options) then Prop(options, "mode") else Undefined
  }

  /** The mode given to `fs.mkdir`: a string is read as octal, then as a
      number, and rejected when it is neither; any other value is kept. */
  function ResolveMode(env: Env, mode: Json): (r: Result<Json>)
    ensures !mode.Str? ==> r == Ok(mode)
    ensures mode.Str? && InRadix(Trim(mode.s), AsOctal) ==>
      r == Ok(Num(RadixValue(Trim(mode.s), AsOctal)))
    ensures mode.Str? && !InRadix(Trim(mode.s), AsOctal) ==>
      (r.Ok? <==> Parse(env, mode, "number").Ok?)
    ensures mode.Str? && !InRadix(Trim(mode.s), AsOctal) && r.Ok? ==>
      r == Parse(env, mode, "number")
    ensures r.Err? ==> r.msg == InvalidMode + mode.s
  {
    if !mode.Str? then Ok(mode)
    else
      TypedRadix(env, mode.s, "octal");
      var (err, m) := ParseSafe(env, mode, "octal");
      var (err', m') := if err.Some? then ParseSafe(env, mode, "number") else (err, m);
      if err'.Some? then Err(InvalidMode + mode.s) else Ok(m')
  }

  /** The request `fnSeed(dirPath, options)` makes, or the error that stops
      it first. */
  function MkdirRequest(env: Env, dirPath: Value, options: Json): (r: Result<FsCall>)
    ensures ResolveMode(env, ModeOption(options)).Err? ==> r == Err(ResolveMode(env, ModeOption(options)).msg)
    ensures ResolveMode(env, ModeOption(options)).Ok? && !dirPath.Str? ==> r == Err(PathNotAccepted)
    ensures r.Ok? ==> dirPath.Str? && r.value == MakeDir(ResolveOne(env.cwd, dirPath.s), ResolveMode(env, ModeOption(options)).value)
  {
    var mode := ResolveMode(env, ModeOption(options));
    if mode.Err? then Err(mode.msg)
    else if !dirPath.Str? then Err(PathNotAccepted)
    else Ok(MakeDir(ResolveOne(env.cwd, dirPath.s), mode.value))
  }

  /** `fnSeed(dirPath, options)`: resolves with nothing once the directory
      is made, or fails with the mode error or the file system's error. */
  function MkdirSeed(env: Env, dirPath: Value, options: Json): (r: Result<Value>)
    ensures r.Ok? <==> MkdirRequest(env, dirPath, options).Ok? && env.perform(MkdirRequest(env, dirPath, options).value).None?
    ensures r.Ok? ==> r.value == Undefined
  {
    var request := MkdirRequest(env, dirPath, options);
    if request.Err? then Err(request.msg)
    else
      var failure := env.perform(request.value);
      if failure.Some? then Err(failure.value) else Ok(Undefined)
  }

  // ---------------------------------------------------------------- properties

  /** Octal digits, with or without `0o`, give their base-8 value. */
  lemma {:induction false} OctalMode(env: Env, d: string, prefixed: bool)
    requires |d| > 0 && AllOctal(d)
    ensures ResolveMode(env, Str(if prefixed then "0o" + d else d)) == Ok(Num(DigitsValue(d, 8)))
  {
    var s := if prefixed then "0o" + d else d;
    if prefixed {
      PrefixedDigits(d, AsOctal);
    } else {
      RadixDigits(d, AsOctal);
    }
    TrimOfTrimmed(s);
  }

  /** `_parseNumeric` reads a decimal integer as the integer it spells. */
  lemma NumericOfDecimal(env: Env, s: string)
    requires IsDecimalInteger(s)
    ensures ParseNumeric(env, s, "number") == Ok(Num(DecimalIntegerValue(s)))
  {
    assert KindOf("number") == Some(NumericKind(AsNumber));
    assert s != "NaN" by {
      assert !IsDigit('N');
    }
    DecimalIntegerIsNumeric(s);
  }

  /** Text read as a number is trimmed and handed to `_parseNumeric`. */
  lemma NumberParse(env: Env, s: string)
    ensures Parse(env, Str(s), "number") == ParseNumeric(env, Trim(s), "number")
  {
    assert KindOf("number") == Some(NumericKind(AsNumber));
  }

  /** A decimal integer reads, as a number, as the integer it spells. */
  lemma NumberOfDecimal(env: Env, s: string)
    requires IsDecimalInteger(s) && IsTrimmed(s)
    ensures Parse(env, Str(s), "number") == Ok(Num(DecimalIntegerValue(s)))
  {
    NumberParse(env, s);
    TrimOfTrimmed(s);
    NumericOfDecimal(env, s);
  }

  /** A decimal integer with an 8 or a 9 in it is trimmed text outside the
      octal digit class. */
  lemma DecimalNotOctal(s: string, k: nat)
    requires IsDecimalInteger(s) && k < |s| && (s[k] == '8' || s[k] == '9')
    ensures IsTrimmed(s) && !InRadix(s, AsOctal)
  {
    assert IsDigit(s[|s| - 1]);
    assert !IsOctalDigit(s[k]);
  }

  /** A decimal integer with an 8 or a 9 in it is not octal, and is read as
      the decimal number it spells. */
  lemma DecimalMode(env: Env, s: string, k: nat)
    requires IsDecimalInteger(s) && k < |s| && (s[k] == '8' || s[k] == '9')
    ensures ResolveMode(env, Str(s)) == Ok(Num(DecimalIntegerValue(s)))
  {
    DecimalNotOctal(s, k);
    TrimOfTrimmed(s);
    NumberOfDecimal(env, s);
  }

  /** Text that is not numeric is refused as a number. */
  lemma NumberRefused(env: Env, s: string)
    requires !IsJsNumeric(Trim(s))
    ensures Parse(env, Str(s), "number").Err?
  {
    NumberParse(env, s);
    assert KindOf("number") == Some(NumericKind(AsNumber));
  }

  /** Text that is neither octal nor numeric is rejected with its own text
      in the message. */
  lemma InvalidModeText(env: Env, s: string)
    requires !InRadix(Trim(s), AsOctal) && !IsJsNumeric(Trim(s))
    ensures ResolveMode(env, Str(s)) == Err(InvalidMode + s)
  {
    NumberRefused(env, s);
  }
}
