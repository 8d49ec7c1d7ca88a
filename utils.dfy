/** The string and array helpers of the core `utils` object. */
module Utils {
  import opened Wrappers
  import opened Text
  import opened Values
  import opened Host

  // ---------------------------------------------------------------- repeat

  /** The ECMAScript ToInt32 conversion used by `&` and `>>=`. */
  function ToInt32(n: int): (r: int)
    ensures -0x8000_0000 <= r < 0x8000_0000
    ensures -0x8000_0000 <= n < 0x8000_0000 ==> r == n
    ensures (n - r) % 0x1_0000_0000 == 0
  {
    var m := n % 0x1_0000_0000;
    if m >= 0x8000_0000 then m - 0x1_0000_0000 else m
  }

  /** `n` copies of `s`, one after another. */
  function Rep(s: string, n: nat): string
  {
    if n == 0 then "" else s + Rep(s, n - 1)
  }

  lemma {:induction false} RepAdd(s: string, i: nat, j: nat)
    ensures Rep(s, i + j) == Rep(s, i) + Rep(s, j)
    decreases i
  {
    if i > 0 {
      RepAdd(s, i - 1, j);
      assert i + j - 1 == (i - 1) + j;
    }
  }

  lemma {:induction false} RepDouble(s: string, k: nat)
    ensures Rep(s + s, k) == Rep(s, 2 * k)
    decreases k
  {
    if k > 0 {
      RepDouble(s, k - 1);
      RepAdd(s, 2, 2 * (k - 1));
      assert Rep(s, 2) == s + s;
      assert 2 * k == 2 + 2 * (k - 1);
    }
  }

  /** The number of copies `repeat(s, count)` yields for `count >= 1`: the
      loop reads the count through ToInt32, so counts of 2^31 and more wrap. */
  function Copies(count: int): nat
    requires count >= 1
  {
    var m := ToInt32(count);
    if m >= 0 then m else m % 2
  }

  /** Counts that fit in 31 bits give exactly that many copies. */
  lemma {:induction false} CopiesSmall(count: int)
    requires 1 <= count < 0x8000_0000
    ensures Copies(count) == count
  {
  }

  /** The copies of `str` a remaining count `c` of the loop still adds. */
  function Pending(str: string, c: int): string {
    if c > 0 then Rep(str, Copies(c)) else ""
  }

  /** One turn of the doubling loop keeps the text still to be produced. */
  lemma {:induction false} RepeatStep(str: string, c: int)
    requires c >= 1
    ensures ToInt32(c) / 2 < c
    ensures ToInt32(c) % 2 == 1 ==> str + Pending(str + str, ToInt32(c) / 2) == Pending(str, c)
    ensures ToInt32(c) % 2 != 1 ==> Pending(str + str, ToInt32(c) / 2) == Pending(str, c)
  {
    var m := ToInt32(c);
    if m >= 0 {
      if m / 2 > 0 {
        assert Copies(m / 2) == m / 2;
        RepDouble(str, m / 2);
      }
      RepAdd(str, m % 2, 2 * (m / 2));
      assert m % 2 + 2 * (m / 2) == m;
      assert Rep(str, 1) == str;
    } else {
      assert Rep(str, 1) == str;
    }
  }

  /** `repeat(string, count)`: doubles the text while shifting the count right. */
  method Repeat(s: string, count: int) returns (r: string)
    ensures count < 1 ==> r == ""
    ensures count >= 1 ==> r == Rep(s, Copies(count))
  {
    if count < 1 {
      return "";
    }
    var repeated := "";
    var c := count;
    var str := s;
    while c > 0
      invariant repeated + Pending(str, c) == Rep(s, Copies(count))
      decreases c
    {
      var m := ToInt32(c);
      RepeatStep(str, c);
      ghost var rest := Pending(str + str, m / 2);
      if m % 2 == 1 {
        AppendAssoc(repeated, str, rest);
        repeated := repeated + str;
      }
      c := m / 2;
      str := str + str;
    }
    return repeated;
  }

  // ---------------------------------------------------------------- camelCase

  predicate IsWordSep(c: char) {
    c == '-' || c == '_' || c == ' '
  }

  /** `.replace(/[-_ ](.)/g, upper)`: a separator followed by a character `.`
      matches is replaced by that character upper-cased. */
  function CamelScan(t: string): (r: string)
    ensures |r| <= |t|
  {
    if |t| >= 2 && IsWordSep(t[0]) && !IsLineTerminator(t[1]) then [UpperChar(t[1])] + CamelScan(t[2..])
    else if t == [] then []
    else [t[0]] + CamelScan(t[1..])
  }

  /** `.replace(/(^.)/, lower)`. */
  function LowerFirst(t: string): string {
    if |t| >= 1 && !IsLineTerminator(t[0]) then [LowerChar(t[0])] + t[1..] else t
  }

  /** `camelCase(str)`. */
  function CamelCase(s: string): string {
    LowerFirst(CamelScan(Trim(s)))
  }

  /** A word whose first letter is upper-cased. */
  function Capitalized(w: string): string {
    if w == [] then [] else [UpperChar(w[0])] + w[1..]
  }

  function CapitalizedAll(ws: seq<string>): string {
    if ws == [] then "" else Capitalized(ws[0]) + CapitalizedAll(ws[1..])
  }

  /** A word made of neither separators nor whitespace. */
  predicate PlainWord(w: string) {
    forall i :: 0 <= i < |w| ==> !IsWordSep(w[i]) && !IsSpace(w[i])
  }

  lemma {:induction false} CamelScanPlain(w: string, x: string)
    requires PlainWord(w)
    ensures CamelScan(w + x) == w + CamelScan(x)
    decreases |w|
  {
    if w != [] {
      assert (w + x)[0] == w[0] && (w + x)[1..] == w[1..] + x;
      CamelScanPlain(w[1..], x);
      assert [w[0]] + w[1..] == w;
    } else {
      assert w + x == x;
    }
  }

  /** A separator before a character that `.` matches is dropped and the
      character upper-cased. */
  lemma {:induction false} CamelScanSep(c: char, t: string)
    requires IsWordSep(c) && |t| >= 1 && !IsLineTerminator(t[0])
    ensures CamelScan([c] + t) == [UpperChar(t[0])] + CamelScan(t[1..])
  {
    assert ([c] + t)[1] == t[0] && ([c] + t)[2..] == t[1..];
  }

  lemma {:induction false} JoinWithCons(w: string, ws: seq<string>, c: char)
    requires ws != []
    ensures JoinWith([w] + ws, c) == w + [c] + JoinWith(ws, c)
  {
    assert ([w] + ws)[1..] == ws;
  }

  /** The joined text starts with the first word; past its first character
      it is the join of the shortened first word and the others. */
  lemma {:induction false} JoinWithTail(ws: seq<string>, c: char)
    requires ws != [] && ws[0] != []
    ensures |JoinWith(ws, c)| >= 1 && JoinWith(ws, c)[0] == ws[0][0]
    ensures JoinWith(ws, c)[1..] == JoinWith([ws[0][1..]] + ws[1..], c)
  {
    if |ws| > 1 {
      JoinWithCons(ws[0][1..], ws[1..], c);
      assert [ws[0]] + ws[1..] == ws;
      JoinWithCons(ws[0], ws[1..], c);
      assert (ws[0] + [c] + JoinWith(ws[1..], c))[1..] == ws[0][1..] + [c] + JoinWith(ws[1..], c);
    }
  }

  lemma {:induction false} CamelScanWords(w: string, ws: seq<string>, c: char)
    requires IsWordSep(c) && PlainWord(w)
    requires forall i :: 0 <= i < |ws| ==> ws[i] != [] && PlainWord(ws[i])
    ensures CamelScan(JoinWith([w] + ws, c)) == w + CapitalizedAll(ws)
    decreases |ws|
  {
    if ws == [] {
      assert JoinWith([w], c) == w;
      CamelScanPlain(w, "");
      assert w + "" == w;
    } else {
      var j := JoinWith(ws, c);
      var w0 := ws[0];
      JoinWithCons(w, ws, c);
      CamelScanPlain(w, [c] + j);
      assert w + [c] + j == w + ([c] + j);
      JoinWithTail(ws, c);
      assert !IsSpace(w0[0]);
      CamelScanSep(c, j);
      CamelScanWords(w0[1..], ws[1..], c);
      var up := [UpperChar(w0[0])];
      var tail := CapitalizedAll(ws[1..]);
      AppendAssoc(up, w0[1..], tail);
      calc {
        CamelScan(JoinWith([w] + ws, c));
        w + CamelScan([c] + j);
        w + (up + CamelScan(j[1..]));
        w + (up + (w0[1..] + tail));
        w + (Capitalized(w0) + tail);
        w + CapitalizedAll(ws);
      }
    }
  }

  lemma {:induction false} JoinWithEnds(ws: seq<string>, c: char)
    requires |ws| >= 1 && forall i :: 0 <= i < |ws| ==> ws[i] != []
    ensures var j := JoinWith(ws, c);
      |j| >= 1 && j[0] == ws[0][0] && j[|j| - 1] == ws[|ws| - 1][|ws[|ws| - 1]| - 1]
    decreases |ws|
  {
    if |ws| > 1 {
      JoinWithEnds(ws[1..], c);
    }
  }

  /** Words joined by '-', '_' or ' ' come out as one camel-cased word:
      "dash-dash" becomes "dashDash". */
  lemma {:induction false} CamelCaseOfWords(ws: seq<string>, c: char)
    requires IsWordSep(c) && |ws| >= 1
    requires forall i :: 0 <= i < |ws| ==> ws[i] != [] && PlainWord(ws[i])
    ensures CamelCase(JoinWith(ws, c)) == LowerFirst(ws[0] + CapitalizedAll(ws[1..]))
  {
    JoinWithEnds(ws, c);
    var j := JoinWith(ws, c);
    assert IsTrimmed(j);
    TrimOfTrimmed(j);
    assert [ws[0]] + ws[1..] == ws;
    CamelScanWords(ws[0], ws[1..], c);
  }

  // ---------------------------------------------------------------- quotes

  /** `hasSurQuotes(str)`: the trimmed text starts and ends with the same quote. */
  predicate HasSurQuotes(s: string) {
    var t := Trim(s);
    |t| >= 1 && ((t[0] == '"' && t[|t| - 1] == '"') || (t[0] == '\'' && t[|t| - 1] == '\''))
  }

  /** `str.slice(1, -1)`. */
  function Inner(t: string): (r: string)
    ensures |r| <= |t|
    ensures |t| >= 2 ==> t == [t[0]] + r + [t[|t| - 1]]
  {
    if |t| >= 2 then t[1..|t| - 1] else ""
  }

  /** `removeSurQuotes(str)`. */
  function RemoveSurQuotes(s: string): (r: string)
    ensures IsTrimmed(r) && |r| <= |s|
  {
    var t := Trim(s);
    if HasSurQuotes(t) then Trim(Inner(t)) else t
  }

  /** Quoting trimmed text and removing the quotes again gives the text back. */
  lemma {:induction false} RemoveQuotesRoundTrip(x: string, q: char)
    requires q == '"' || q == '\''
    requires IsTrimmed(x)
    ensures RemoveSurQuotes([q] + x + [q]) == x
  {
    var s := [q] + x + [q];
    assert IsTrimmed(s);
    TrimOfTrimmed(s);
    TrimOfTrimmed(x);
    assert Inner(s) == x;
  }

  /** Text that is not quoted comes back trimmed and otherwise unchanged. */
  lemma {:induction false} RemoveQuotesUnquoted(s: string)
    requires !HasSurQuotes(s)
    ensures RemoveSurQuotes(s) == Trim(s)
  {
    TrimIdempotent(s);
  }

  // ---------------------------------------------------------------- digit classes

  predicate HasOctalPrefix(s: string) {
    |s| >= 2 && s[0] == '0' && (s[1] == 'o' || s[1] == 'O')
  }

  predicate HasHexPrefix(s: string) {
    |s| >= 2 && s[0] == '0' && (s[1] == 'x' || s[1] == 'X')
  }

  predicate HasBinaryPrefix(s: string) {
    |s| >= 2 && s[0] == '0' && s[1] == 'b'
  }

  /** `isOctal(str, prefixOptional)`: `/^(0[oO]?)?[0-7]+$/` or `/^0[oO][0-7]+$/`. */
  predicate IsOctal(s: string, prefixOptional: bool) {
    (HasOctalPrefix(s) && |s| > 2 && AllOctal(s[2..]))
    || (prefixOptional && |s| > 0 && AllOctal(s))
  }

  /** `isHex(str, prefixOptional)`: `/^(0x)?[0-9A-F]+$/i` or `/^0x[0-9A-F]+$/i`. */
  predicate IsHex(s: string, prefixOptional: bool) {
    (HasHexPrefix(s) && |s| > 2 && AllHex(s[2..]))
    || (prefixOptional && |s| > 0 && AllHex(s))
  }

  /** `isBinary(str, prefixOptional)`: `/^(0b)?[01]+$/` or `/^0b[01]+$/`. */
  predicate IsBinary(s: string, prefixOptional: bool) {
    (HasBinaryPrefix(s) && |s| > 2 && AllBinary(s[2..]))
    || (prefixOptional && |s| > 0 && AllBinary(s))
  }

  /** `/^-?\d+$/`: text whose number value is an integer read digit by digit. */
  predicate IsDecimalInteger(s: string) {
    if |s| > 0 && s[0] == '-' then |s| > 1 && AllDigits(s[1..]) else |s| > 0 && AllDigits(s)
  }

  function DecimalIntegerValue(s: string): int
    requires IsDecimalInteger(s)
  {
    if s[0] == '-' then 0 - DigitsValue(s[1..], 10) else DigitsValue(s, 10)
  }

  /** `isNumeric(str)`: `/^-?\d+\.?\d*$/`. */
  predicate IsNumeric(s: string) {
    var u := if |s| > 0 && s[0] == '-' then s[1..] else s;
    exists i :: 0 < i <= |u| && AllDigits(u[..i])
      && (i == |u| || (u[i] == '.' && AllDigits(u[i + 1..])))
  }

  predicate AllSigns(t: string) {
    forall j :: 0 <= j < |t| ==> t[j] == '+' || t[j] == '-'
  }

  /** The exponent after the `e` at `k`: signs, then a digit. */
  predicate ExponentAt(s: string, k: nat) {
    exists m :: k < m < |s| && IsDigit(s[m]) && AllSigns(s[k + 1..m])
  }

  /** A mantissa ends just before `k`: in a digit, or in a point after a digit. */
  predicate MantissaBefore(s: string, k: nat)
    requires k <= |s|
  {
    (k >= 1 && IsDigit(s[k - 1])) || (k >= 2 && s[k - 1] == '.' && IsDigit(s[k - 2]))
  }

  /** `isSceintific(str)`: `/\d+\.?\d*e[+-]*\d+/i` somewhere in the text. */
  predicate IsScientific(s: string) {
    exists k: nat :: k < |s| && (s[k] == 'e' || s[k] == 'E') && MantissaBefore(s, k) && ExponentAt(s, k)
  }

  /** `isJsNumeric(str)`. */
  predicate IsJsNumeric(s: string) {
    IsScientific(s) || IsNumeric(s) || s == "Infinity" || s == "-Infinity"
  }

  lemma {:induction false} DecimalIntegerIsNumeric(s: string)
    requires IsDecimalInteger(s)
    ensures IsJsNumeric(s)
  {
    var u := if |s| > 0 && s[0] == '-' then s[1..] else s;
    assert u[..|u|] == u;
    assert 0 < |u| <= |u| && AllDigits(u[..|u|]);
    assert IsNumeric(s);
  }

  // ---------------------------------------------------------------- splitFirst

  /** `splitFirst(str, delim)` for a string delimiter. With the empty
      delimiter on the empty string `split` yields no piece and reading the
      first piece's length throws. */
  function SplitFirst(s: string, d: string): (r: Result<seq<string>>)
    ensures r.Err? <==> s == "" && d == ""
    ensures r.Ok? ==> 1 <= |r.value| <= 2
    ensures r.Ok? && |d| > 0 && |r.value| == 2 ==> r.value[0] + d + r.value[1] == s
    ensures r.Ok? && |d| > 0 ==> (|r.value| == 1 <==> !Contains(s, d))
  {
    if d == "" then
      if s == "" then Err("Cannot read properties of undefined (reading 'length')")
      else if |s| == 1 then Ok([s])
      else Ok([s[..1], s[1..]])
    else
      var i := IndexOf(s, d, 0);
      if i < 0 then Ok([s])
      else
        assert s == s[..i] + d + s[i + |d|..] by {
          assert s[i..i + |d|] == d;
        }
        Ok([s[..i], s[i + |d|..]])
  }

  /** The first delimiter is the one split at: the first piece does not hold it. */
  lemma {:induction false} SplitFirstAtFirst(s: string, d: string)
    requires |d| > 0
    requires |SplitFirst(s, d).value| == 2
    ensures !Contains(SplitFirst(s, d).value[0], d)
  {
    var i := IndexOf(s, d, 0);
    var a := s[..i];
    if Contains(a, d) {
      var j: nat :| j <= |a| && OccursAt(a, d, j);
      assert s[j..j + |d|] == a[j..j + |d|];
      assert OccursAt(s, d, j);
    }
  }

  predicate IsAssign(c: char) {
    c == ':' || c == '='
  }

  /** Index of the first ':' or '='. */
  function FirstAssign(s: string): (i: nat)
    ensures i <= |s|
    ensures i < |s| ==> IsAssign(s[i])
    ensures forall j :: 0 <= j < i ==> !IsAssign(s[j])
  {
    if s == [] || IsAssign(s[0]) then 0 else 1 + FirstAssign(s[1..])
  }

  /** `splitFirst(str, /\s*[:=]\s*\/)`: split at the first ':' or '=',
      dropping the whitespace on both sides of it. */
  function SplitFirstAssign(s: string): (r: seq<string>)
    ensures 1 <= |r| <= 2
    ensures |r| == 1 <==> forall j :: 0 <= j < |s| ==> !IsAssign(s[j])
    ensures |r| == 1 ==> r[0] == s
    ensures |r| == 2 ==> forall j :: 0 <= j < |r[0]| ==> !IsAssign(r[0][j])
    ensures FirstAssign(s) < |s| ==>
      r == [TrimEnd(s[..FirstAssign(s)]), TrimStart(s[FirstAssign(s) + 1..])]
  {
    var c := FirstAssign(s);
    if c == |s| then [s] else [TrimEnd(s[..c]), TrimStart(s[c + 1..])]
  }

  /** Splitting `name` `sep` `value` gives back the name and the value, when
      the name holds no ':' or '=' and neither has whitespace next to `sep`. */
  lemma {:induction false} SplitAssignPair(name: string, sep: char, value: string)
    requires IsAssign(sep) && forall j :: 0 <= j < |name| ==> !IsAssign(name[j])
    requires name == [] || !IsSpace(name[|name| - 1])
    requires value == [] || !IsSpace(value[0])
    ensures SplitFirstAssign(name + [sep] + value) == [name, value]
  {
    var s := name + [sep] + value;
    assert s == name + ([sep] + value);
    FirstAssignAt(name, [sep] + value);
    assert s[..|name|] == name && s[|name| + 1..] == value;
    calc {
      SplitFirstAssign(s);
      [TrimEnd(s[..|name|]), TrimStart(s[|name| + 1..])];
      [TrimEnd(name), TrimStart(value)];
      { assert TrimEnd(name) == name; assert TrimStart(value) == value; }
      [name, value];
    }
  }

  /** The first ':' or '=' of `a + b` lies in `b` when `a` holds none. */
  lemma {:induction false} FirstAssignAt(a: string, b: string)
    requires forall j :: 0 <= j < |a| ==> !IsAssign(a[j])
    requires b != [] && IsAssign(b[0])
    ensures FirstAssign(a + b) == |a|
  {
    if a != [] {
      assert (a + b)[1..] == a[1..] + b;
      FirstAssignAt(a[1..], b);
    } else {
      assert a + b == b;
    }
  }

  // ---------------------------------------------------------------- arrays

  /** `ensureArray(value)`. */
  function EnsureArray(v: Value): (r: seq<Value>)
    ensures v.Arr? ==> r == v.items
    ensures !v.Arr? ==> (r == [] <==> !IsSet(v))
    ensures !v.Arr? && IsSet(v) ==> r == [v]
  {
    if v.Arr? then v.items else if IsSet(v) then [v] else []
  }

  /** `ensureSrcArray(src)`: an array as it is, a string split on commas. */
  function EnsureSrcArray(src: Value): (r: seq<Value>)
    ensures src.Arr? ==> r == src.items
    ensures src.Str? ==> |r| == |SplitOn(src.s, ',')|
    ensures src.Str? ==> forall i :: 0 <= i < |r| ==> r[i].Str? && ',' !in r[i].s && r[i] == Str(SplitComma(src.s)[i])
    ensures src.Str? && ',' !in src.s ==> r == [src]
    ensures !src.Arr? && !src.Str? ==> r == []
  {
    if src.Arr? then src.items
    else if src.Str? then
      if ',' !in src.s then SplitCommaNoComma(src.s); StrValues(SplitComma(src.s))
      else StrValues(SplitComma(src.s))
    else []
  }

  /** An item as text: `String(item).trim()`, or nothing for `null` and `undefined`. */
  function ItemText(v: Value): (t: string)
    ensures IsTrimmed(t)
  {
    if IsSet(v) then Trim(StringOf(v)) else ""
  }

  /** The texts of the items, in order. */
  function ItemTexts(items: seq<Value>): (r: seq<string>)
    ensures |r| == |items| && forall i :: 0 <= i < |items| ==> r[i] == ItemText(items[i])
  {
    if items == [] then [] else [ItemText(items[0])] + ItemTexts(items[1..])
  }

  /** The pieces of the strings list, in order, dropping empty ones. */
  function NonEmpty(ss: seq<string>): (r: seq<string>)
    ensures forall i :: 0 <= i < |r| ==> r[i] != ""
    ensures forall x :: x in r ==> x in ss
  {
    if ss == [] then []
    else if ss[0] == "" then NonEmpty(ss[1..])
    else [ss[0]] + NonEmpty(ss[1..])
  }

  /** What the text of one item contributes to the result. */
  function TextPieces(t: string, commas: bool): seq<string>
  {
    if t == "" then []
    else if commas then NonEmpty(SplitComma(t))
    else [t]
  }

  function PiecesOf(texts: seq<string>, commas: bool): seq<string>
  {
    if texts == [] then [] else TextPieces(texts[0], commas) + PiecesOf(texts[1..], commas)
  }

  /** The result of `normalizeStringArray` on the items of a list, with or
      without splitting each item on commas. */
  function NormalizedStrings(items: seq<Value>, commas: bool): seq<string>
  {
    PiecesOf(ItemTexts(items), commas)
  }

  /** Pushes the non-empty pieces, in order (`forEach` with `if (ss) memo.push(ss)`). */
  method PushNonEmpty(memo: seq<string>, pieces: seq<string>) returns (r: seq<string>)
    ensures r == memo + NonEmpty(pieces)
  {
    r := memo;
    var j := 0;
    while j < |pieces|
      invariant 0 <= j <= |pieces|
      invariant r + NonEmpty(pieces[j..]) == memo + NonEmpty(pieces)
    {
      assert pieces[j..][1..] == pieces[j + 1..];
      ghost var rest := NonEmpty(pieces[j + 1..]);
      if pieces[j] != "" {
        AppendAssoc(r, [pieces[j]], rest);
        r := r + [pieces[j]];
      }
      j := j + 1;
    }
    assert pieces[j..] == [];
  }

  lemma {:induction false} PiecesOfStep(texts: seq<string>, i: nat, commas: bool)
    requires i < |texts|
    ensures PiecesOf(texts[i..], commas) == TextPieces(texts[i], commas) + PiecesOf(texts[i + 1..], commas)
  {
    assert texts[i..][1..] == texts[i + 1..];
  }

  /** The `reduce` callback of `normalizeStringArray`: pushes what one item contributes. */
  method PushItem(memo: seq<string>, item: Value, commas: bool) returns (r: seq<string>)
    ensures r == memo + TextPieces(ItemText(item), commas)
  {
    var t := ItemText(item);
    if t == "" {
      assert memo + [] == memo;
      return memo;
    }
    if commas {
      r := PushNonEmpty(memo, SplitComma(t));
    } else {
      r := memo + [t];
    }
  }

  /** `normalizeStringArray(list, sep)` for no separator or the separator ','. */
  method NormalizeStringArray(list: Value, commas: bool) returns (r: seq<string>)
    ensures r == NormalizedStrings(EnsureArray(list), commas)
  {
    var items := EnsureArray(list);
    if |items| == 0 {
      return [];
    }
    ghost var texts := ItemTexts(items);
    var memo: seq<string> := [];
    var i := 0;
    while i < |items|
      invariant 0 <= i <= |items|
      invariant memo + PiecesOf(texts[i..], commas) == PiecesOf(texts, commas)
    {
      ghost var before := memo;
      memo := PushItem(memo, items[i], commas);
      MemoStep(texts, i, commas, before, memo);
      i := i + 1;
    }
    MemoDone(texts, i, commas, memo);
    return memo;
  }

  /** One item more: the pieces pushed so far extend by that item's pieces. */
  lemma MemoStep(texts: seq<string>, i: nat, commas: bool, before: seq<string>, after: seq<string>)
    requires i < |texts| && before + PiecesOf(texts[i..], commas) == PiecesOf(texts, commas)
    requires after == before + TextPieces(texts[i], commas)
    ensures after + PiecesOf(texts[i + 1..], commas) == PiecesOf(texts, commas)
  {
    PiecesOfStep(texts, i, commas);
    AppendAssoc(before, TextPieces(texts[i], commas), PiecesOf(texts[i + 1..], commas));
  }

  lemma MemoDone(texts: seq<string>, i: nat, commas: bool, memo: seq<string>)
    requires i == |texts| && memo + PiecesOf(texts[i..], commas) == PiecesOf(texts, commas)
    ensures memo == PiecesOf(texts, commas)
  {
    assert texts[i..] == [];
  }

  /** A normalised element: non-empty, trimmed and, when splitting, free of commas. */
  predicate NormalizedPiece(x: string, commas: bool) {
    x != "" && IsTrimmed(x) && (commas ==> ',' !in x)
  }

  /** Every piece of splitting trimmed text on commas is trimmed. */
  lemma {:induction false} SplitCommaTrimmed(t: string, i: nat)
    requires IsTrimmed(t) && i < |SplitComma(t)|
    ensures IsTrimmed(SplitComma(t)[i])
  {
    var n := |SplitOn(t, ',')|;
    SplitCommaAt(t, i);
    OuterPiecesTrimmed(t, i);
    CommaPieceTrimmed(SplitOn(t, ',')[i], i > 0, i < n - 1);
  }

  lemma SplitCommaAt(t: string, i: nat)
    requires i < |SplitComma(t)|
    ensures SplitComma(t)[i] == CommaPiece(SplitOn(t, ',')[i], i > 0, i < |SplitOn(t, ',')| - 1)
  {
  }

  /** The first piece of trimmed text starts as the text does, and the last
      one ends as it does. */
  lemma OuterPiecesTrimmed(t: string, i: nat)
    requires IsTrimmed(t) && i < |SplitOn(t, ',')|
    ensures var p := SplitOn(t, ',')[i];
      (i == 0 && p != [] ==> !IsSpace(p[0])) && (i == |SplitOn(t, ',')| - 1 && p != [] ==> !IsSpace(p[|p| - 1]))
  {
    SplitOnEnds(t, ',');
  }

  /** A comma piece is trimmed at each end that borders a comma, and keeps
      the characters of its other ends. */
  lemma CommaPieceTrimmed(p: string, afterComma: bool, beforeComma: bool)
    requires !afterComma && p != [] ==> !IsSpace(p[0])
    requires !beforeComma && p != [] ==> !IsSpace(p[|p| - 1])
    ensures IsTrimmed(CommaPiece(p, afterComma, beforeComma))
  {
    var a := if afterComma then TrimStart(p) else p;
    assert a != [] ==> !IsSpace(a[0]);
    assert a != [] ==> a[|a| - 1] == p[|p| - 1];
  }

  lemma {:induction false} TextPiecesNormalized(t: string, commas: bool)
    requires IsTrimmed(t)
    ensures forall x :: x in TextPieces(t, commas) ==> NormalizedPiece(x, commas)
  {
    if t != "" && commas {
      var ps := SplitComma(t);
      forall x | x in NonEmpty(ps)
        ensures NormalizedPiece(x, commas)
      {
        var i :| 0 <= i < |ps| && ps[i] == x;
        SplitCommaTrimmed(t, i);
      }
    }
  }

  lemma {:induction false} PiecesOfNormalized(texts: seq<string>, commas: bool)
    requires forall i :: 0 <= i < |texts| ==> IsTrimmed(texts[i])
    ensures forall x :: x in PiecesOf(texts, commas) ==> NormalizedPiece(x, commas)
  {
    if texts != [] {
      TextPiecesNormalized(texts[0], commas);
      PiecesOfNormalized(texts[1..], commas);
    }
  }

  /** `normalizeStringArray` never yields an empty string; it yields trimmed
      text, split at every comma when a separator is given. */
  lemma {:induction false} NormalizedStringsPieces(items: seq<Value>, commas: bool)
    ensures forall x :: x in NormalizedStrings(items, commas) ==> NormalizedPiece(x, commas)
  {
    PiecesOfNormalized(ItemTexts(items), commas);
  }

  lemma {:induction false} PiecesOfAppend(a: seq<string>, b: seq<string>, commas: bool)
    ensures PiecesOf(a + b, commas) == PiecesOf(a, commas) + PiecesOf(b, commas)
  {
    if a != [] {
      assert (a + b)[0] == a[0] && (a + b)[1..] == a[1..] + b;
      PiecesOfAppend(a[1..], b, commas);
      var p := TextPieces(a[0], commas);
      AppendAssoc(p, PiecesOf(a[1..], commas), PiecesOf(b, commas));
    } else {
      assert a + b == b;
    }
  }

  /** Normalising keeps the order of the input: it works item by item. */
  lemma {:induction false} NormalizedStringsAppend(a: seq<Value>, b: seq<Value>, commas: bool)
    ensures NormalizedStrings(a + b, commas) == NormalizedStrings(a, commas) + NormalizedStrings(b, commas)
  {
    assert ItemTexts(a + b) == ItemTexts(a) + ItemTexts(b);
    PiecesOfAppend(ItemTexts(a), ItemTexts(b), commas);
  }

  /** Pieces that are already normalised come out as they are. */
  lemma {:induction false} PiecesOfNormal(xs: seq<string>, commas: bool)
    requires forall i :: 0 <= i < |xs| ==> NormalizedPiece(xs[i], commas)
    ensures PiecesOf(xs, commas) == xs
  {
    if xs != [] {
      var x := xs[0];
      if commas {
        SplitCommaNoComma(x);
        assert NonEmpty([x]) == [x];
      }
      assert TextPieces(x, commas) == [x];
      forall i | 0 <= i < |xs[1..]|
        ensures NormalizedPiece(xs[1..][i], commas)
      {
        assert xs[1..][i] == xs[i + 1];
      }
      PiecesOfNormal(xs[1..], commas);
      assert [x] + xs[1..] == xs;
    }
  }

  /** Normalising a normalised list changes nothing. */
  lemma {:induction false} NormalizedStringsIdempotent(xs: seq<string>, commas: bool)
    requires forall i :: 0 <= i < |xs| ==> NormalizedPiece(xs[i], commas)
    ensures NormalizedStrings(StrValues(xs), commas) == xs
  {
    TextsOfTrimmed(xs);
    PiecesOfNormal(xs, commas);
  }

  /** Trimmed strings are their own item texts. */
  lemma TextsOfTrimmed(xs: seq<string>)
    requires forall i :: 0 <= i < |xs| ==> IsTrimmed(xs[i])
    ensures ItemTexts(StrValues(xs)) == xs
  {
    var texts := ItemTexts(StrValues(xs));
    forall i | 0 <= i < |xs|
      ensures texts[i] == xs[i]
    {
      assert StrValues(xs)[i] == Str(xs[i]);
      TextOfTrimmed(xs[i]);
    }
  }

  lemma TextOfTrimmed(x: string)
    requires IsTrimmed(x)
    ensures ItemText(Str(x)) == x
  {
    assert StringOf(Str(x)) == x;
    TrimOfTrimmed(x);
  }
}
