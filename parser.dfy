/** The typed string parser (`utils.parse`): a type name forces one
    conversion, and without one the text is auto-detected in a fixed order.
    A thrown `TypeError` is an `Err` carrying its message. */
module Parser {
  import opened Wrappers
  import opened Text
  import opened Values
  import opened Host
  import opened Utils

  datatype NumKind = AsNumber | AsFloat | AsInt | AsOctal | AsHex | AsBinary

  datatype Kind = StrKind | NumericKind(num: NumKind) | BoolKind | ObjKind | ArrKind | JsonKind

  /** The type names `_forceParse` accepts. */
  function KindOf(typeName: string): (r: Option<Kind>)
    ensures typeName == "" || typeName == "any" ==> r.None?
  {
    if typeName == "str" || typeName == "string" then Some(StrKind)
    else if typeName == "num" || typeName == "number" then Some(NumericKind(AsNumber))
    else if typeName == "float" then Some(NumericKind(AsFloat))
    else if typeName == "int" || typeName == "integer" then Some(NumericKind(AsInt))
    else if typeName == "octal" then Some(NumericKind(AsOctal))
    else if typeName == "hex" || typeName == "hexadecimal" then Some(NumericKind(AsHex))
    else if typeName == "bin" || typeName == "binary" then Some(NumericKind(AsBinary))
    else if typeName == "bool" || typeName == "boolean" then Some(BoolKind)
    else if typeName == "obj" || typeName == "object" then Some(ObjKind)
    else if typeName == "arr" || typeName == "array" then Some(ArrKind)
    else if typeName == "json" then Some(JsonKind)
    else None
  }

  predicate IsNumericType(typeName: string) {
    KindOf(typeName).Some? && KindOf(typeName).value.NumericKind?
  }

  predicate IsRadix(k: NumKind) {
    k.AsOctal? || k.AsHex? || k.AsBinary?
  }

  function CannotParse(str: string, typeName: string): string {
    "Cannot parse \"" + str + "\" to \"" + typeName + "\""
  }

  // ---------------------------------------------------------------- integer radices

  function RadixOf(k: NumKind): nat
    requires IsRadix(k)
  {
    match k
    case AsOctal => 8
    case AsHex => 16
    case _ => 2
  }

  /** The digit-class test of each radix, with the prefix optional. */
  predicate InRadix(s: string, k: NumKind)
    requires IsRadix(k)
  {
    match k
    case AsOctal => IsOctal(s, true)
    case AsHex => IsHex(s, true)
    case _ => IsBinary(s, true)
  }

  /** The digits `parseInt` reads: `0o`/`0O` and `0b` are removed before the
      call, and `parseInt(_, 16)` skips a `0x`/`0X` itself. */
  function Unprefixed(s: string, k: NumKind): (d: string)
    requires IsRadix(k) && InRadix(s, k)
    ensures |d| > 0 && AllHex(d)
    ensures k.AsOctal? ==> AllOctal(d)
    ensures k.AsBinary? ==> AllBinary(d)
  {
    var prefixed := if k.AsOctal? then HasOctalPrefix(s) else if k.AsHex? then HasHexPrefix(s) else HasBinaryPrefix(s);
    if prefixed then s[2..] else s
  }

  function RadixValue(s: string, k: NumKind): nat
    requires IsRadix(k) && InRadix(s, k)
  {
    DigitsValue(Unprefixed(s, k), RadixOf(k))
  }

  // ---------------------------------------------------------------- decimal text

  function ConversionOf(k: NumKind): Conversion {
    match k
    case AsNumber => ToNumber
    case AsFloat => ParseFloat
    case _ => ParseInt
  }

  /** `Number(s)`, `parseFloat(s)` or `parseInt(s, 10)` on text that
      `isJsNumeric` accepts. A decimal integer is read exactly, the two
      infinities are known, and the rest is the runtime's conversion. */
  function ConvertText(env: Env, c: Conversion, s: string): (v: Json)
    ensures IsDecimalInteger(s) ==> v == Num(DecimalIntegerValue(s))
    ensures s == "Infinity" && c != ParseInt ==> v == Inf(false)
    ensures (s == "Infinity" || s == "-Infinity") && c == ParseInt ==> v == NaN
  {
    if IsDecimalInteger(s) then Num(DecimalIntegerValue(s))
    else if s == "Infinity" || s == "-Infinity" then
      (if c == ParseInt then NaN else Inf(s[0] == '-'))
    else env.convert(c, s)
  }

  /** `_parseNumeric(str, type)`. */
  function ParseNumeric(env: Env, str: string, typeName: string): (r: Result<Json>)
    requires IsNumericType(typeName)
    ensures r.Ok? ==> r.value.Num? || r.value.Float? || r.value.Inf?
    ensures r.Err? ==> r.msg == CannotParse(str, typeName)
    ensures str == "NaN" ==> r.Err?
  {
    var k := KindOf(typeName).value.num;
    var err := Err(CannotParse(str, typeName));
    if str == "NaN" then err
    else if IsRadix(k) then
      if InRadix(str, k) then Ok(Num(RadixValue(str, k))) else err
    else if !IsJsNumeric(str) then err
    else
      var v := ConvertText(env, ConversionOf(k), str);
      if v.Num? || v.Float? || v.Inf? then Ok(v) else err
  }

  // ---------------------------------------------------------------- bool and JSON

  /** `_parseBool(str)`: a falsy word anywhere makes it false. */
  predicate HasFalsyWord(s: string) {
    Contains(s, "0") || Contains(s, "no") || Contains(s, "false") || Contains(s, "null") || Contains(s, "undefined")
  }

  function ParseBool(s: string): (b: bool)
    ensures b ==> s != ""
  {
    if HasFalsyWord(s) then false else s != ""
  }

  /** `_parseJsonType(str, type)`: `JSON.parse`, then the shape the type asks for. */
  function ParseJsonType(env: Env, str: string, typeName: string, k: Kind): (r: Result<Json>)
    requires k.ObjKind? || k.ArrKind? || k.JsonKind?
    ensures r.Ok? ==> r == env.jsonParse(str) && !r.value.Undefined?
    ensures r.Ok? && k.ObjKind? ==> r.value.Obj?
    ensures r.Ok? && k.ArrKind? ==> r.value.Arr?
    ensures r.Err? ==> r.msg == CannotParse(str, typeName)
  {
    var err := Err(CannotParse(str, typeName));
    match env.jsonParse(str)
    case Err(_) => err
    case Ok(v) =>
      if v.Undefined? || (k.ObjKind? && !v.Obj?) || (k.ArrKind? && !v.Arr?) then err else Ok(v)
  }

  /** `_forceParse(str, type)`. */
  function ForceParse(env: Env, str: string, typeName: string): (r: Result<Json>)
    ensures KindOf(typeName).None? ==> r == Err(CannotParse(str, typeName))
    ensures r.Err? ==> r.msg == CannotParse(str, typeName)
  {
    match KindOf(typeName)
    case None => Err(CannotParse(str, typeName))
    case Some(k) =>
      match k
      case StrKind => Ok(Str(str))
      case NumericKind(_) => ParseNumeric(env, str, typeName)
      case BoolKind => Ok(Bool(ParseBool(str)))
      case _ => ParseJsonType(env, str, typeName, k)
  }

  // ---------------------------------------------------------------- auto-detection

  /** The early JSON test, `/^\s*(\[|{\s*")/`: an array, or an object whose
      first key follows the brace. */
  predicate LooksLikeJson(s: string) {
    var t := TrimStart(s);
    |t| > 0 && (t[0] == '[' || (t[0] == '{' && KeyFollows(t[1..])))
  }

  /** After optional whitespace comes a quote. */
  predicate KeyFollows(u: string) {
    var v := TrimStart(u);
    |v| > 0 && v[0] == '"'
  }

  /** The same test as the source writes it, `/^\s*(\[|{\s*"})/`, where the
      object case asks for `"}` after the brace. */
  predicate LooksLikeJsonAsWritten(s: string) {
    var t := TrimStart(s);
    |t| > 0 && (t[0] == '[' || (t[0] == '{' && QuoteBraceFollows(t[1..])))
  }

  /** After optional whitespace come a quote and a closing brace. */
  predicate QuoteBraceFollows(u: string) {
    var v := TrimStart(u);
    |v| > 1 && v[0] == '"' && v[1] == '}'
  }

  /** `Number(str)` on trimmed text that holds "Infinity". */
  function InfinityText(s: string): (v: Json)
    ensures v.Inf? || v.NaN?
  {
    if s == "Infinity" || s == "+Infinity" then Inf(false)
    else if s == "-Infinity" then Inf(true)
    else NaN
  }

  function AsOption(r: Result<Json>): (o: Option<Json>)
    ensures o.Some? <==> r.Ok?
    ensures o.Some? ==> o.value == r.value
  {
    if r.Ok? then Some(r.value) else None
  }

  /** The guarded block of auto-detection: octal, hexadecimal and binary with
      their prefix required, then any JavaScript number text read as a float.
      A failure in the chosen branch is swallowed. */
  function TryNumeric(env: Env, s: string): (o: Option<Json>)
    ensures o.Some? ==> o.value.Num? || o.value.Float? || o.value.Inf?
  {
    if IsOctal(s, false) then AsOption(ParseNumeric(env, s, "octal"))
    else if IsHex(s, false) then AsOption(ParseNumeric(env, s, "hexadecimal"))
    else if IsBinary(s, false) then AsOption(ParseNumeric(env, s, "binary"))
    else if IsJsNumeric(s) then AsOption(ParseNumeric(env, s, "float"))
    else None
  }

  /** The literal checks and number detection shared by both versions of
      auto-detection, after the quote and early JSON tests. */
  function AutoLiteral(env: Env, s: string): Result<Json> {
    if s == "null" then Ok(Null)
    else if s == "undefined" then Ok(Undefined)
    else if s == "true" then Ok(Bool(true))
    else if s == "false" then Ok(Bool(false))
    else if Contains(s, "Infinity") then Ok(InfinityText(s))
    else if s == "NaN" then Ok(NaN)
    else NumberOrJson(env, s)
  }

  /** Number detection, and `JSON.parse` when it finds no number. */
  function NumberOrJson(env: Env, s: string): Result<Json> {
    match TryNumeric(env, s)
    case Some(v) => Ok(v)
    case None => env.jsonParse(s)
  }

  /** Auto-detection on trimmed text, with the early JSON test as intended. */
  function ParseAuto(env: Env, s: string): Result<Json> {
    if HasSurQuotes(s) then Ok(Str(Inner(s)))
    else if LooksLikeJson(s) then env.jsonParse(s)
    else AutoLiteral(env, s)
  }

  /** Auto-detection with the early JSON test as written. */
  function ParseAutoAsWritten(env: Env, s: string): Result<Json> {
    if HasSurQuotes(s) then Ok(Str(Inner(s)))
    else if LooksLikeJsonAsWritten(s) then env.jsonParse(s)
    else AutoLiteral(env, s)
  }

  /** `utils.parse(str, type)`; the empty type name stands for a missing one. */
  function Parse(env: Env, v: Json, typeName: string): (r: Result<Json>)
    ensures !v.Str? ==> r == Ok(v)
    ensures v.Str? && KindOf(typeName).None? && typeName != "" && typeName != "any" ==>
      r == Err(CannotParse(Trim(v.s), typeName))
  {
    if !v.Str? then Ok(v)
    else
      var s := Trim(v.s);
      if typeName != "" && typeName != "any" then ForceParse(env, s, typeName) else ParseAuto(env, s)
  }

  /** `utils.parse` with the early JSON test as written. */
  function ParseAsWritten(env: Env, v: Json, typeName: string): Result<Json> {
    if !v.Str? then Ok(v)
    else
      var s := Trim(v.s);
      if typeName != "" && typeName != "any" then ForceParse(env, s, typeName) else ParseAutoAsWritten(env, s)
  }

  /** `utils.parseSafe(str, type)` destructured as `[err, value]`. */
  function ParseSafe(env: Env, v: Json, typeName: string): (r: (Option<string>, Json))
    ensures r.0.None? <==> Parse(env, v, typeName).Ok?
    ensures r.0.None? ==> r.1 == Parse(env, v, typeName).value
    ensures r.0.Some? ==> r.0.value == Parse(env, v, typeName).msg && r.1 == Undefined
  {
    match Parse(env, v, typeName)
    case Ok(x) => (None, x)
    case Err(m) => (Some(m), Undefined)
  }

  // ---------------------------------------------------------------- lemmas

  lemma WithoutFirstChar(s: string, t: string)
    requires |t| > 0 && t[0] !in s
    ensures !Contains(s, t)
  {
  }

  lemma OccursChar(s: string, t: string, i: nat, k: nat)
    requires OccursAt(s, t, i) && k < |t|
    ensures s[i + k] == t[k]
  {
    assert s[i..i + |t|][k] == s[i + k];
  }

  lemma HexHasNoLetterI(s: string)
    requires AllHex(s)
    ensures 'I' !in s
  {
  }

  /** Parsing trims first: whitespace around the text never matters. */
  lemma ParseTrimsFirst(env: Env, s: string, typeName: string)
    ensures Parse(env, Str(s), typeName) == Parse(env, Str(Trim(s)), typeName)
  {
    TrimIdempotent(s);
  }

  /** The string types give back the trimmed text. */
  lemma TypedString(env: Env, s: string, typeName: string)
    requires typeName == "str" || typeName == "string"
    ensures Parse(env, Str(s), typeName) == Ok(Str(Trim(s)))
  {
  }

  /** A typed octal, hexadecimal or binary parse accepts exactly the digit
      class of its radix, the prefix being optional, and gives the value of
      the digits. */
  lemma {:induction false} TypedRadix(env: Env, s: string, typeName: string)
    requires IsNumericType(typeName) && IsRadix(KindOf(typeName).value.num)
    ensures var t := Trim(s);
      var k := KindOf(typeName).value.num;
      Parse(env, Str(s), typeName)
        == if InRadix(t, k) then Ok(Num(RadixValue(t, k))) else Err(CannotParse(t, typeName))
  {
    var t := Trim(s);
    if t == "NaN" {
      assert !IsHexDigit(t[0]);
    }
  }

  /** The input "NaN" is refused by every numeric type. */
  lemma NaNRejected(env: Env, s: string, typeName: string)
    requires Trim(s) == "NaN" && IsNumericType(typeName)
    ensures Parse(env, Str(s), typeName) == Err(CannotParse("NaN", typeName))
  {
  }

  /** A typed radix parse of trimmed text of the right digit class succeeds. */
  lemma ParseRadixText(env: Env, t: string, typeName: string)
    requires IsNumericType(typeName) && IsRadix(KindOf(typeName).value.num)
    requires IsTrimmed(t) && InRadix(t, KindOf(typeName).value.num)
    ensures Parse(env, Str(t), typeName) == Ok(Num(RadixValue(t, KindOf(typeName).value.num)))
  {
    TrimOfTrimmed(t);
    TypedRadix(env, t, typeName);
  }

  predicate AllRadixDigits(d: string, k: NumKind)
    requires IsRadix(k)
  {
    match k
    case AsOctal => AllOctal(d)
    case AsHex => AllHex(d)
    case _ => AllBinary(d)
  }

  function Prefix(k: NumKind): string
    requires IsRadix(k)
  {
    match k
    case AsOctal => "0o"
    case AsHex => "0x"
    case _ => "0b"
  }

  /** Bare digits of a radix are accepted, and their value is read as is. */
  lemma RadixDigits(d: string, k: NumKind)
    requires IsRadix(k) && |d| > 0 && AllRadixDigits(d, k)
    ensures InRadix(d, k) && IsTrimmed(d)
    ensures RadixValue(d, k) == DigitsValue(d, RadixOf(k))
  {
    assert IsHexDigit(d[0]) && IsHexDigit(d[|d| - 1]);
    if |d| >= 2 {
      assert IsHexDigit(d[1]);
    }
  }

  /** Digits after the radix prefix are accepted, and the prefix is skipped. */
  lemma PrefixedDigits(d: string, k: NumKind)
    requires IsRadix(k) && |d| > 0 && AllRadixDigits(d, k)
    ensures InRadix(Prefix(k) + d, k) && IsTrimmed(Prefix(k) + d)
    ensures RadixValue(Prefix(k) + d, k) == DigitsValue(d, RadixOf(k))
  {
    var s := Prefix(k) + d;
    assert s[2..] == d;
    assert IsHexDigit(s[|s| - 1]);
  }

  /** Digits rendered in the radix of a typed radix parse read back as the
      number rendered: octal, hexadecimal and binary parses invert `NatToRadix`. */
  lemma {:induction false} RadixRoundTrip(env: Env, n: nat, typeName: string)
    requires IsNumericType(typeName) && IsRadix(KindOf(typeName).value.num)
    ensures Parse(env, Str(NatToRadix(n, RadixOf(KindOf(typeName).value.num))), typeName) == Ok(Num(n))
  {
    var k := KindOf(typeName).value.num;
    var d := NatToRadix(n, RadixOf(k));
    NatToRadixValue(n, RadixOf(k));
    NatToRadixClass(n, RadixOf(k));
    RadixDigits(d, k);
    ParseRadixText(env, d, typeName);
  }

  /** The same with the radix prefix `0o`, `0x` or `0b` in front. */
  lemma {:induction false} PrefixedRoundTrip(env: Env, n: nat, typeName: string)
    requires IsNumericType(typeName) && IsRadix(KindOf(typeName).value.num)
    ensures var k := KindOf(typeName).value.num;
      Parse(env, Str(Prefix(k) + NatToRadix(n, RadixOf(k))), typeName) == Ok(Num(n))
  {
    var k := KindOf(typeName).value.num;
    var d := NatToRadix(n, RadixOf(k));
    NatToRadixValue(n, RadixOf(k));
    NatToRadixClass(n, RadixOf(k));
    PrefixedDigits(d, k);
    ParseRadixText(env, Prefix(k) + d, typeName);
  }

  /** A typed radix parse of text of the right digit class, before trimming. */
  lemma ParseNumericRadix(env: Env, t: string, typeName: string)
    requires IsNumericType(typeName) && IsRadix(KindOf(typeName).value.num)
    requires InRadix(t, KindOf(typeName).value.num)
    ensures ParseNumeric(env, t, typeName) == Ok(Num(RadixValue(t, KindOf(typeName).value.num)))
  {
    if t == "NaN" {
      assert !IsHexDigit(t[0]);
    }
  }

  /** Trimmed text goes to auto-detection when no type is given. */
  lemma ParseUntyped(env: Env, t: string)
    requires IsTrimmed(t)
    ensures Parse(env, Str(t), "") == ParseAuto(env, t)
  {
    TrimOfTrimmed(t);
  }

  /** Text starting with a digit is neither quoted nor early JSON. */
  lemma AutoFromDigit(env: Env, t: string)
    requires IsTrimmed(t) && |t| > 0 && IsDigit(t[0])
    ensures ParseAuto(env, t) == AutoLiteral(env, t)
  {
    TrimOfTrimmed(t);
    assert !HasSurQuotes(t);
    assert TrimStart(t) == t;
    assert !LooksLikeJson(t);
  }

  /** Text starting with a digit and holding no "I" is none of the literals. */
  lemma LiteralFromDigit(env: Env, t: string)
    requires |t| > 0 && IsDigit(t[0]) && 'I' !in t
    ensures AutoLiteral(env, t) == NumberOrJson(env, t)
  {
    WithoutFirstChar(t, "Infinity");
  }

  /** Trimmed text that starts with a digit and holds no "I" skips the quote,
      JSON and literal checks of auto-detection and goes to number detection. */
  lemma AutoNumericText(env: Env, t: string)
    requires IsTrimmed(t) && |t| > 0 && IsDigit(t[0]) && 'I' !in t
    ensures Parse(env, Str(t), "") == NumberOrJson(env, t)
  {
    ParseUntyped(env, t);
    AutoFromDigit(env, t);
    LiteralFromDigit(env, t);
  }

  /** The type name auto-detection passes for each radix. */
  function RadixTypeName(k: NumKind): (name: string)
    requires IsRadix(k)
    ensures KindOf(name) == Some(NumericKind(k))
  {
    if k.AsOctal? then "octal" else if k.AsHex? then "hexadecimal" else "binary"
  }

  /** The branch number detection takes for text with a radix prefix. */
  lemma TryNumericPrefixed(env: Env, t: string, k: NumKind)
    requires IsRadix(k) && |t| > 2 && t[..2] == Prefix(k) && InRadix(t, k)
    ensures TryNumeric(env, t) == AsOption(ParseNumeric(env, t, RadixTypeName(k)))
  {
    assert t[0] == Prefix(k)[0] && t[1] == Prefix(k)[1];
    if k.AsOctal? {
      assert IsOctal(t, false);
    } else if k.AsHex? {
      assert !IsOctal(t, false) && IsHex(t, false);
    } else {
      assert !IsOctal(t, false) && !IsHex(t, false) && IsBinary(t, false);
    }
  }

  /** Number detection takes prefixed radix text in its own radix. */
  lemma NumberOrJsonPrefixed(env: Env, d: string, k: NumKind)
    requires IsRadix(k) && |d| > 0 && AllRadixDigits(d, k)
    ensures NumberOrJson(env, Prefix(k) + d) == Ok(Num(DigitsValue(d, RadixOf(k))))
  {
    var t := Prefix(k) + d;
    PrefixedDigits(d, k);
    assert t[..2] == Prefix(k);
    ParseNumericRadix(env, t, RadixTypeName(k));
    TryNumericPrefixed(env, t, k);
  }

  /** Number detection reads decimal digits in radix 10. */
  lemma NumberOrJsonDecimal(env: Env, t: string)
    requires |t| > 0 && AllDigits(t)
    ensures NumberOrJson(env, t) == Ok(Num(DigitsValue(t, 10)))
  {
    DigitsUnprefixed(t);
    FloatOfDigits(env, t);
    DecimalIntegerIsNumeric(t);
    TryNumericFloat(env, t);
  }

  /** Number text without a radix prefix is read as a float. */
  lemma TryNumericFloat(env: Env, t: string)
    requires !IsOctal(t, false) && !IsHex(t, false) && !IsBinary(t, false) && IsJsNumeric(t)
    ensures TryNumeric(env, t) == AsOption(ParseNumeric(env, t, "float"))
  {
  }

  /** Plain digits carry no `0o`, `0x` or `0b` prefix. */
  lemma DigitsUnprefixed(t: string)
    requires |t| > 0 && AllDigits(t)
    ensures !IsOctal(t, false) && !IsHex(t, false) && !IsBinary(t, false)
  {
    if |t| >= 2 {
      assert IsDigit(t[1]);
    }
  }

  /** Plain digits read as a float are the integer they spell. */
  lemma FloatOfDigits(env: Env, t: string)
    requires |t| > 0 && AllDigits(t)
    ensures ParseNumeric(env, t, "float") == Ok(Num(DigitsValue(t, 10)))
  {
    assert IsDecimalInteger(t) && DecimalIntegerValue(t) == DigitsValue(t, 10) by {
      assert IsDigit(t[0]);
    }
    FloatKind();
    NumericOfDecimalInteger(env, t, "float");
  }

  lemma FloatKind()
    ensures KindOf("float") == Some(NumericKind(AsFloat))
  {
  }

  /** A decimal integer read by a non-radix numeric type is the integer it
      spells. */
  lemma NumericOfDecimalInteger(env: Env, t: string, typeName: string)
    requires IsNumericType(typeName) && !IsRadix(KindOf(typeName).value.num)
    requires IsDecimalInteger(t)
    ensures ParseNumeric(env, t, typeName) == Ok(Num(DecimalIntegerValue(t)))
  {
    DecimalIntegerIsNumeric(t);
    assert t != "NaN" by {
      assert !IsDigit('N');
    }
  }

  /** Auto-detection reads `0o` octal, `0x` hexadecimal and `0b` binary text
      as the number it renders. */
  lemma {:induction false} AutoPrefixed(env: Env, n: nat, k: NumKind)
    requires IsRadix(k)
    ensures Parse(env, Str(Prefix(k) + NatToRadix(n, RadixOf(k))), "") == Ok(Num(n))
  {
    var d := NatToRadix(n, RadixOf(k));
    var t := Prefix(k) + d;
    NatToRadixValue(n, RadixOf(k));
    NatToRadixClass(n, RadixOf(k));
    assert AllRadixDigits(d, k);
    PrefixedDigits(d, k);
    HexHasNoLetterI(d);
    assert 'I' !in Prefix(k) && t[0] == '0';
    AutoNumericText(env, t);
    NumberOrJsonPrefixed(env, d, k);
  }

  /** Auto-detection reads decimal digits as a decimal number, even with a
      leading zero. */
  lemma {:induction false} AutoDecimal(env: Env, n: nat)
    ensures Parse(env, Str(NatToDecimal(n)), "") == Ok(Num(n))
  {
    var t := NatToDecimal(n);
    NatToRadixValue(n, 10);
    HexHasNoLetterI(t);
    assert IsTrimmed(t) by {
      assert IsDigit(t[0]) && IsDigit(t[|t| - 1]);
    }
    AutoNumericText(env, t);
    NumberOrJsonDecimal(env, t);
  }

  /** Text in matching quotes gives back what is between them, untrimmed. */
  lemma AutoQuoted(env: Env, x: string, q: char)
    requires q == '"' || q == '\''
    ensures Parse(env, Str([q] + x + [q]), "") == Ok(Str(x))
  {
    var t := [q] + x + [q];
    assert IsTrimmed(t);
    ParseUntyped(env, t);
    TrimOfTrimmed(t);
    assert HasSurQuotes(t);
    assert Inner(t) == x by {
      assert t[1..|t| - 1] == x;
    }
  }

  /** A type name other than "any" forces its conversion on the trimmed text. */
  lemma ParseTyped(env: Env, s: string, typeName: string)
    requires typeName != "" && typeName != "any"
    ensures Parse(env, Str(s), typeName) == ForceParse(env, Trim(s), typeName)
  {
  }

  /** Text starting with a letter or a sign is neither quoted nor early JSON. */
  lemma WordStart(t: string)
    requires |t| > 0 && ('a' <= t[0] <= 'z' || 'A' <= t[0] <= 'Z' || t[0] == '-')
    ensures !HasSurQuotes(t) && !LooksLikeJson(t) && !LooksLikeJsonAsWritten(t)
  {
    assert TrimStart(t) == t;
    var r := TrimEnd(t);
    assert Trim(t) == r;
    assert !IsSpace(t[0]);
    assert |r| > 0;
    assert r[0] == t[0];
  }

  /** Text starting with a letter or a sign skips the quote and early JSON tests. */
  lemma AutoWord(env: Env, t: string)
    requires |t| > 0 && ('a' <= t[0] <= 'z' || 'A' <= t[0] <= 'Z' || t[0] == '-')
    ensures ParseAuto(env, t) == AutoLiteral(env, t)
  {
    WordStart(t);
  }

  /** The literal words of auto-detection. */
  lemma AutoLiterals(env: Env)
    ensures ParseAuto(env, "null") == Ok(Null) && ParseAuto(env, "undefined") == Ok(Undefined)
      && ParseAuto(env, "true") == Ok(Bool(true)) && ParseAuto(env, "false") == Ok(Bool(false))
  {
    AutoWord(env, "null");
    AutoWord(env, "undefined");
    AutoWord(env, "true");
    AutoWord(env, "false");
  }

  /** Where "Infinity" occurs in the three non-finite words. */
  lemma InfinityWords()
    ensures Contains("Infinity", "Infinity") && Contains("-Infinity", "Infinity")
    ensures !Contains("NaN", "Infinity")
  {
    assert OccursAt("Infinity", "Infinity", 0);
    assert OccursAt("-Infinity", "Infinity", 1);
  }

  /** "NaN" is read as the number NaN. */
  lemma AutoNaN(env: Env)
    ensures ParseAuto(env, "NaN") == Ok(NaN)
  {
    AutoWord(env, "NaN");
    InfinityWords();
  }

  /** "Infinity" and "-Infinity" are read as the infinities. */
  lemma AutoInfinity(env: Env)
    ensures ParseAuto(env, "Infinity") == Ok(Inf(false))
  {
    AutoWord(env, "Infinity");
    InfinityWords();
  }

  lemma AutoNegInfinity(env: Env)
    ensures ParseAuto(env, "-Infinity") == Ok(Inf(true))
  {
    var t := "-Infinity";
    assert t != "Infinity" && t != "+Infinity" by { assert t[0] == '-'; }
    assert InfinityText(t) == Inf(true);
    InfinityWords();
    assert AutoLiteral(env, t) == Ok(Inf(true));
    AutoWord(env, t);
  }

  // ---------------------------------------------------------------- the early JSON test

  /** The runtime reads no number from text that opens with a brace. */
  ghost predicate BraceIsNaN(env: Env) {
    forall c, u :: |u| > 0 && u[0] == '{' ==> env.convert(c, u) == NaN
  }

  /** An object whose first value holds the word "Infinity". */
  const ObjectWithInfinity: string := "{\"x\":\"Infinity\"}"

  /** Trimmed text keeps its first character after `TrimStart`. */
  lemma TrimmedStart(t: string)
    requires IsTrimmed(t)
    ensures TrimStart(t) == t && Trim(t) == t
  {
    TrimOfTrimmed(t);
  }

  /** Text that opens with a brace is no quoted string, no literal word and
      no radix or decimal integer text. */
  lemma BraceText(t: string)
    requires IsTrimmed(t) && |t| > 0 && t[0] == '{'
    ensures !HasSurQuotes(t) && !IsDecimalInteger(t)
    ensures !IsOctal(t, false) && !IsHex(t, false) && !IsBinary(t, false)
    ensures t != "null" && t != "undefined" && t != "true" && t != "false" && t != "NaN"
    ensures t != "Infinity" && t != "-Infinity"
  {
    TrimmedStart(t);
  }

  /** Without the word "Infinity", brace text that escapes the early test
      falls through every literal and number check to `JSON.parse`. */
  lemma BraceFallsThrough(env: Env, t: string)
    requires BraceIsNaN(env) && IsTrimmed(t) && |t| > 0 && t[0] == '{'
    requires !Contains(t, "Infinity")
    ensures AutoLiteral(env, t) == env.jsonParse(t)
  {
    BraceText(t);
    if IsJsNumeric(t) {
      TryNumericFloat(env, t);
      FloatKind();
      BraceFloatRefused(env, t);
    }
    assert TryNumeric(env, t) == None;
  }

  /** Brace text the runtime reads as NaN is refused as a float. */
  lemma BraceFloatRefused(env: Env, t: string)
    requires BraceIsNaN(env) && |t| > 0 && t[0] == '{'
    requires !IsDecimalInteger(t) && t != "Infinity" && t != "-Infinity"
    ensures ParseNumeric(env, t, "float").Err?
  {
    FloatKind();
    assert ConvertText(env, ParseFloat, t) == NaN;
  }

  /** The early test as written passes only what the intended one passes. */
  lemma AsWrittenNarrower(t: string)
    ensures LooksLikeJsonAsWritten(t) ==> LooksLikeJson(t)
  {
  }

  /** Without a type, `utils.parse` auto-detects on the trimmed text. */
  lemma UntypedTrims(env: Env, s: string)
    ensures Parse(env, Str(s), "") == ParseAuto(env, Trim(s))
  {
  }

  lemma UntypedTrimsAsWritten(env: Env, s: string)
    ensures ParseAsWritten(env, Str(s), "") == ParseAutoAsWritten(env, Trim(s))
  {
  }

  /** As intended, an array, or an object whose first key follows the brace,
      goes whole to `JSON.parse`, whatever it holds. */
  lemma EarlyJsonAuto(env: Env, t: string)
    requires IsTrimmed(t) && LooksLikeJson(t)
    ensures ParseAuto(env, t) == env.jsonParse(t)
  {
    TrimmedStart(t);
    assert t[0] == '[' || t[0] == '{';
  }

  lemma EarlyJson(env: Env, s: string)
    requires LooksLikeJson(Trim(s))
    ensures Parse(env, Str(s), "") == env.jsonParse(Trim(s))
  {
    UntypedTrims(env, s);
    EarlyJsonAuto(env, Trim(s));
  }

  /** The string facts about the example object. */
  lemma ObjectWithInfinityTrimmed()
    ensures IsTrimmed(ObjectWithInfinity) && ObjectWithInfinity[0] == '{'
    ensures Trim(ObjectWithInfinity) == ObjectWithInfinity
  {
    TrimmedStart(ObjectWithInfinity);
  }

  lemma ObjectWithInfinityEarly()
    ensures LooksLikeJson(ObjectWithInfinity) && !LooksLikeJsonAsWritten(ObjectWithInfinity)
  {
    var t := ObjectWithInfinity;
    ObjectWithInfinityTrimmed();
    var u := t[1..];
    assert u[0] == '"' && u[1] == 'x' && u[|u| - 1] == '}';
    TrimmedStart(u);
    assert KeyFollows(u) && !QuoteBraceFollows(u);
  }

  lemma ObjectWithInfinityWord()
    ensures Contains(ObjectWithInfinity, "Infinity")
  {
    assert ObjectWithInfinity[6..14] == "Infinity";
    assert OccursAt(ObjectWithInfinity, "Infinity", 6);
  }

  /** As written, an object holding the word "Infinity" skips the early test
      and reads as the number NaN. */
  lemma ObjectWithInfinityAsWritten(env: Env)
    ensures ParseAsWritten(env, Str(ObjectWithInfinity), "") == Ok(NaN)
  {
    var t := ObjectWithInfinity;
    ObjectWithInfinityTrimmed();
    ObjectWithInfinityEarly();
    ObjectWithInfinityWord();
    BraceText(t);
    assert AutoLiteral(env, t) == Ok(NaN);
    UntypedTrimsAsWritten(env, t);
  }

  /** As intended, the same object goes to `JSON.parse`. */
  lemma ObjectWithInfinityIntended(env: Env)
    ensures Parse(env, Str(ObjectWithInfinity), "") == env.jsonParse(ObjectWithInfinity)
  {
    ObjectWithInfinityTrimmed();
    ObjectWithInfinityEarly();
    EarlyJson(env, ObjectWithInfinity);
  }

  /** When the runtime reads no number from brace text, the two early tests
      differ only on text holding "Infinity". */
  lemma EarlyTestsAgreeAuto(env: Env, t: string)
    requires BraceIsNaN(env) && IsTrimmed(t) && !Contains(t, "Infinity")
    ensures ParseAutoAsWritten(env, t) == ParseAuto(env, t)
  {
    AsWrittenNarrower(t);
    if LooksLikeJson(t) && !LooksLikeJsonAsWritten(t) {
      TrimmedStart(t);
      if t[0] == '{' {
        BraceText(t);
        BraceFallsThrough(env, t);
      }
    }
  }

  lemma EarlyTestsAgree(env: Env, s: string)
    requires BraceIsNaN(env) && !Contains(Trim(s), "Infinity")
    ensures ParseAsWritten(env, Str(s), "") == Parse(env, Str(s), "")
  {
    UntypedTrims(env, s);
    UntypedTrimsAsWritten(env, s);
    EarlyTestsAgreeAuto(env, Trim(s));
  }

  /** The bool types apply `_parseBool`. */
  lemma TypedBool(env: Env, t: string, typeName: string)
    requires typeName == "bool" || typeName == "boolean"
    ensures ForceParse(env, t, typeName) == Ok(Bool(ParseBool(t)))
  {
    assert KindOf(typeName) == Some(BoolKind);
  }

  /** A falsy word anywhere in the text makes the bool parse false. */
  lemma FalsyWordAnywhere(a: string, w: string, b: string)
    requires w == "0" || w == "no" || w == "false" || w == "null" || w == "undefined"
    ensures !ParseBool(a + w + b)
  {
    var s := a + w + b;
    assert s[|a|..|a| + |w|] == w;
    assert OccursAt(s, w, |a|);
  }

  /** Text free of the falsy words parses to true exactly when it is not empty. */
  lemma TruthyText(s: string)
    requires '0' !in s && 'n' !in s && 'f' !in s
    ensures ParseBool(s) <==> s != ""
  {
    WithoutFirstChar(s, "0");
    WithoutFirstChar(s, "no");
    WithoutFirstChar(s, "false");
    WithoutFirstChar(s, "null");
    if Contains(s, "undefined") {
      var i: nat :| i <= |s| && OccursAt(s, "undefined", i);
      OccursChar(s, "undefined", i, 1);
      assert false;
    }
  }

  /** The object types accept exactly the texts `JSON.parse` reads as an object. */
  lemma TypedObject(env: Env, t: string, typeName: string)
    requires typeName == "obj" || typeName == "object"
    ensures var j := env.jsonParse(t);
      ForceParse(env, t, typeName) == if j.Ok? && j.value.Obj? then j else Err(CannotParse(t, typeName))
  {
    assert KindOf(typeName) == Some(ObjKind);
  }

  /** The array types accept exactly the texts `JSON.parse` reads as an array. */
  lemma TypedArray(env: Env, t: string, typeName: string)
    requires typeName == "arr" || typeName == "array"
    ensures var j := env.jsonParse(t);
      ForceParse(env, t, typeName) == if j.Ok? && j.value.Arr? then j else Err(CannotParse(t, typeName))
  {
    assert KindOf(typeName) == Some(ArrKind);
  }

  /** The json type accepts whatever `JSON.parse` reads. */
  lemma TypedJson(env: Env, t: string)
    ensures var j := env.jsonParse(t);
      ForceParse(env, t, "json") == if j.Ok? && !j.value.Undefined? then j else Err(CannotParse(t, "json"))
  {
    assert KindOf("json") == Some(JsonKind);
  }

  /** `parseSafe` reports exactly the failures of `parse`, and gives its value otherwise. */
  lemma ParseSafeNeverFails(env: Env, v: Json, typeName: string)
    ensures var r := ParseSafe(env, v, typeName);
      match Parse(env, v, typeName)
      case Ok(x) => r == (None, x)
      case Err(m) => r == (Some(m), Undefined)
  {
  }
}
