/** Character classes and string primitives of the JavaScript runtime that the
    library relies on: `trim`, `\s`, ASCII case mapping, digit classes,
    `split` on one character, substring tests and decimal rendering. */
module Text {

  /** JavaScript's `\s` and the set `String.prototype.trim` removes:
      WhiteSpace and LineTerminator code points. */
  predicate IsSpace(c: char) {
    var k := c as int;
    (9 <= k <= 13) || k == 0x20 || k == 0xA0 || k == 0x1680 || (0x2000 <= k <= 0x200A)
    || k == 0x2028 || k == 0x2029 || k == 0x202F || k == 0x205F || k == 0x3000 || k == 0xFEFF
  }

  /** Characters that `.` in a JavaScript regular expression does not match. */
  predicate IsLineTerminator(c: char) {
    var k := c as int;
    k == 10 || k == 13 || k == 0x2028 || k == 0x2029
  }

  predicate IsDigit(c: char) { '0' <= c <= '9' }
  predicate IsOctalDigit(c: char) { '0' <= c <= '7' }
  predicate IsBinaryDigit(c: char) { c == '0' || c == '1' }
  predicate IsHexDigit(c: char) { IsDigit(c) || ('a' <= c <= 'f') || ('A' <= c <= 'F') }

  predicate AllDigits(s: string) { forall i :: 0 <= i < |s| ==> IsDigit(s[i]) }
  predicate AllOctal(s: string) { forall i :: 0 <= i < |s| ==> IsOctalDigit(s[i]) }
  predicate AllBinary(s: string) { forall i :: 0 <= i < |s| ==> IsBinaryDigit(s[i]) }
  predicate AllHex(s: string) { forall i :: 0 <= i < |s| ==> IsHexDigit(s[i]) }

  /** Value of one hexadecimal (or lower radix) digit. */
  function DigitValue(c: char): (d: nat)
    requires IsHexDigit(c)
    ensures d < 16
    ensures IsDigit(c) ==> d == c as int - '0' as int
    ensures IsOctalDigit(c) ==> d < 8
    ensures IsBinaryDigit(c) ==> d < 2
  {
    if IsDigit(c) then c as int - '0' as int
    else if 'a' <= c <= 'f' then c as int - 'a' as int + 10
    else c as int - 'A' as int + 10
  }

  /** Positional value of a digit string in the given radix (most significant first). */
  function DigitsValue(s: string, radix: nat): nat
    requires AllHex(s)
    decreases |s|
  {
    if s == [] then 0 else DigitsValue(s[..|s| - 1], radix) * radix + DigitValue(s[|s| - 1])
  }

  // ---------------------------------------------------------------- trimming

  function TrimStart(s: string): (r: string)
    ensures |r| <= |s| && r == s[|s| - |r|..]
    ensures r == [] || !IsSpace(r[0])
    ensures forall i :: 0 <= i < |s| - |r| ==> IsSpace(s[i])
  {
    if |s| > 0 && IsSpace(s[0]) then TrimStart(s[1..]) else s
  }

  function TrimEnd(s: string): (r: string)
    ensures |r| <= |s| && r == s[..|r|]
    ensures r == [] || !IsSpace(r[|r| - 1])
    ensures forall i :: |r| <= i < |s| ==> IsSpace(s[i])
  {
    if |s| > 0 && IsSpace(s[|s| - 1]) then TrimEnd(s[..|s| - 1]) else s
  }

  /** `String.prototype.trim`. */
  function Trim(s: string): (r: string)
    ensures IsTrimmed(r) && |r| <= |s|
    ensures exists i: nat | i <= |s| :: OccursAt(s, r, i) && SpacesOutside(s, i, i + |r|)
  {
    var t := TrimStart(s);
    var r := TrimEnd(t);
    TrimWithin(s, t, r);
    r
  }

  /** A prefix `r` of a suffix `t` of `s`, with only spaces before `t` and
      after `r`, occurs in `s` where `t` starts. */
  lemma TrimWithin(s: string, t: string, r: string)
    requires |t| <= |s| && t == s[|s| - |t|..] && |r| <= |t| && r == t[..|r|]
    requires forall k :: 0 <= k < |s| - |t| ==> IsSpace(s[k])
    requires forall k :: |r| <= k < |t| ==> IsSpace(t[k])
    ensures OccursAt(s, r, |s| - |t|) && SpacesOutside(s, |s| - |t|, |s| - |t| + |r|)
  {
    var i := |s| - |t|;
    assert s[i..i + |r|] == r by {
      assert s[i..i + |r|] == t[..|r|];
    }
    forall k | i + |r| <= k < |s|
      ensures IsSpace(s[k])
    {
      assert s[k] == t[k - i];
    }
  }

  /** Every character of `s` outside `[i, j)` is whitespace. */
  predicate SpacesOutside(s: string, i: nat, j: nat)
    requires i <= j <= |s|
  {
    (forall k :: 0 <= k < i ==> IsSpace(s[k])) && (forall k :: j <= k < |s| ==> IsSpace(s[k]))
  }

  predicate IsTrimmed(s: string) {
    s == [] || (!IsSpace(s[0]) && !IsSpace(s[|s| - 1]))
  }

  lemma TrimOfTrimmed(s: string)
    requires IsTrimmed(s)
    ensures Trim(s) == s
  {
  }

  lemma TrimIdempotent(s: string)
    ensures Trim(Trim(s)) == Trim(s)
  {
    TrimOfTrimmed(Trim(s));
  }

  // ---------------------------------------------------------------- case

  function LowerChar(c: char): char {
    if 'A' <= c <= 'Z' then (c as int + 32) as char else c
  }

  function UpperChar(c: char): char {
    if 'a' <= c <= 'z' then (c as int - 32) as char else c
  }

  /** `String.prototype.toLowerCase`, on the ASCII range. */
  function Lower(s: string): (r: string)
    ensures |r| == |s|
    ensures forall i :: 0 <= i < |s| ==> r[i] == LowerChar(s[i])
  {
    if s == [] then [] else [LowerChar(s[0])] + Lower(s[1..])
  }

  lemma LowerAppend(a: string, b: string)
    ensures Lower(a + b) == Lower(a) + Lower(b)
  {
  }

  // ---------------------------------------------------------------- search

  predicate StartsWith(s: string, p: string) {
    |p| <= |s| && s[..|p|] == p
  }

  predicate EndsWith(s: string, p: string) {
    |p| <= |s| && s[|s| - |p|..] == p
  }

  predicate OccursAt(s: string, t: string, i: nat) {
    i + |t| <= |s| && s[i..i + |t|] == t
  }

  /** `s.includes(t)`. */
  predicate Contains(s: string, t: string) {
    exists i: nat | i <= |s| :: OccursAt(s, t, i)
  }

  /** Index of the first occurrence of a non-empty `t` in `s`, if any. */
  function IndexOf(s: string, t: string, from: nat): (r: int)
    requires |t| > 0
    decreases |s| - from
    ensures r == -1 || (from <= r && OccursAt(s, t, r))
    ensures r == -1 ==> forall i: nat :: from <= i ==> !OccursAt(s, t, i)
    ensures r != -1 ==> forall i: nat :: from <= i < r ==> !OccursAt(s, t, i)
  {
    if from + |t| > |s| then -1
    else if s[from..from + |t|] == t then from
    else IndexOf(s, t, from + 1)
  }

  // ---------------------------------------------------------------- split/join

  /** Regrouping a concatenation; calling it keeps the three parts opaque. */
  lemma AppendAssoc<T>(a: seq<T>, b: seq<T>, c: seq<T>)
    ensures a + b + c == a + (b + c)
  {
  }

  /** Joins pieces with one separator character between them. */
  function JoinWith(parts: seq<string>, sep: char): string
  {
    if |parts| == 0 then ""
    else if |parts| == 1 then parts[0]
    else parts[0] + [sep] + JoinWith(parts[1..], sep)
  }

  /** `s.split(c)` for a one-character separator. */
  function SplitOn(s: string, c: char): (r: seq<string>)
    ensures |r| >= 1
    ensures forall i :: 0 <= i < |r| ==> c !in r[i]
    ensures c !in s ==> r == [s]
  {
    if s == [] then [""]
    else
      var rest := SplitOn(s[1..], c);
      if s[0] == c then [""] + rest
      else
        assert c !in s ==> [s[0]] + s[1..] == s;
        [[s[0]] + rest[0]] + rest[1..]
  }

  /** Splitting and joining again on the same character gives back the input. */
  lemma {:induction false} JoinSplit(s: string, c: char)
    ensures JoinWith(SplitOn(s, c), c) == s
  {
    if s != [] {
      var rest := SplitOn(s[1..], c);
      JoinSplit(s[1..], c);
      var r := SplitOn(s, c);
      if s[0] == c {
        assert r == [""] + rest;
        assert r[1..] == rest;
        assert JoinWith(r, c) == "" + [c] + JoinWith(rest, c);
      } else if |rest| == 1 {
        assert r == [[s[0]] + rest[0]];
        assert JoinWith(rest, c) == rest[0];
      } else {
        assert r == [[s[0]] + rest[0]] + rest[1..];
        assert r[1..] == rest[1..];
        assert JoinWith(rest, c) == rest[0] + [c] + JoinWith(rest[1..], c);
        assert JoinWith(r, c) == [s[0]] + rest[0] + [c] + JoinWith(rest[1..], c);
      }
    }
  }

  /** The first piece of a split is a prefix of the input and the last piece a suffix. */
  lemma SplitOnEnds(s: string, c: char)
    ensures var r := SplitOn(s, c);
      |r[0]| <= |s| && r[0] == s[..|r[0]|]
      && |r[|r| - 1]| <= |s| && r[|r| - 1] == s[|s| - |r[|r| - 1]|..]
  {
    SplitOnFirst(s, c);
    SplitOnLast(s, c);
    assert LastPiece(s, c) == SplitOn(s, c)[|SplitOn(s, c)| - 1];
  }

  lemma {:induction false} SplitOnFirst(s: string, c: char)
    ensures |SplitOn(s, c)[0]| <= |s| && SplitOn(s, c)[0] == s[..|SplitOn(s, c)[0]|]
  {
    if s != [] && s[0] != c {
      SplitOnFirst(s[1..], c);
      var rest := SplitOn(s[1..], c);
      assert SplitOn(s, c)[0] == [s[0]] + rest[0];
    }
  }

  /** The last piece of a split. */
  function LastPiece(s: string, c: char): string {
    var r := SplitOn(s, c);
    r[|r| - 1]
  }

  lemma {:induction false} SplitOnLast(s: string, c: char)
    ensures |LastPiece(s, c)| <= |s| && LastPiece(s, c) == s[|s| - |LastPiece(s, c)|..]
  {
    if s != [] {
      SplitOnLast(s[1..], c);
      var rest := SplitOn(s[1..], c);
      if s[0] != c && |rest| == 1 {
        assert c !in s[1..] by {
          if c in s[1..] {
            SplitOnSingle(s[1..], c);
          }
        }
        assert SplitOn(s, c) == [s];
        assert s[|s| - |s|..] == s;
      } else {
        var last := LastPiece(s[1..], c);
        assert LastPiece(s, c) == last;
        SuffixOfTail(s, last);
      }
    }
  }

  lemma SuffixOfTail(s: string, t: string)
    requires |s| > 0 && |t| <= |s| - 1 && t == s[1..][|s| - 1 - |t|..]
    ensures |t| <= |s| && t == s[|s| - |t|..]
  {
    assert s[1..][|s| - 1 - |t|..] == s[|s| - |t|..];
  }

  /** A single piece means the separator does not occur. */
  lemma {:induction false} SplitOnSingle(s: string, c: char)
    ensures |SplitOn(s, c)| == 1 <==> c !in s
  {
    if s != [] {
      SplitOnSingle(s[1..], c);
    }
  }

  /** Splitting after a first piece that holds no separator. */
  lemma {:induction false} SplitOnAfterPiece(a: string, b: string, c: char)
    requires c !in a
    ensures SplitOn(a + [c] + b, c) == [a] + SplitOn(b, c)
  {
    var s := a + [c] + b;
    if a == [] {
      assert s[0] == c && s[1..] == b;
    } else {
      assert s[0] == a[0] && s[1..] == a[1..] + [c] + b;
      SplitOnAfterPiece(a[1..], b, c);
      assert [a[0]] + a[1..] == a;
    }
  }

  /** One step of a split: a separator starts a new piece, any other
      character joins the first piece. */
  lemma SplitOnCons(x: char, t: string, c: char)
    ensures SplitOn([x] + t, c)
      == if x == c then [""] + SplitOn(t, c) else [[x] + SplitOn(t, c)[0]] + SplitOn(t, c)[1..]
  {
    assert ([x] + t)[0] == x && ([x] + t)[1..] == t;
  }

  /** A separator between two strings splits them apart: the pieces of the
      whole are the pieces of each. */
  lemma {:induction false} SplitOnAppend(a: string, b: string, c: char)
    ensures SplitOn(a + [c] + b, c) == SplitOn(a, c) + SplitOn(b, c)
  {
    if a == [] {
      assert a + [c] + b == [c] + b;
      SplitOnCons(c, b, c);
    } else {
      var x, t := a[0], a[1..];
      assert a == [x] + t;
      assert a + [c] + b == [x] + (t + [c] + b);
      SplitOnAppend(t, b, c);
      SplitOnAppendCons(x, t, b, c);
    }
  }

  /** The inductive step of `SplitOnAppend`: one more character in front. */
  lemma SplitOnAppendCons(x: char, t: string, b: string, c: char)
    requires SplitOn(t + [c] + b, c) == SplitOn(t, c) + SplitOn(b, c)
    ensures SplitOn([x] + (t + [c] + b), c) == SplitOn([x] + t, c) + SplitOn(b, c)
  {
    SplitOnCons(x, t + [c] + b, c);
    SplitOnCons(x, t, c);
    ConsPieces(x, c, SplitOn(t + [c] + b, c), SplitOn(t, c), SplitOn(b, c));
  }

  /** A character in front of pieces `rt + rb` goes to the first piece of `rt`. */
  lemma ConsPieces(x: char, c: char, ru: seq<string>, rt: seq<string>, rb: seq<string>)
    requires |rt| >= 1 && ru == rt + rb
    ensures (if x == c then [""] + ru else [[x] + ru[0]] + ru[1..])
      == (if x == c then [""] + rt else [[x] + rt[0]] + rt[1..]) + rb
  {
    if x != c {
      assert ru[0] == rt[0] && ru[1..] == rt[1..] + rb;
    }
  }

  /** Joining one more piece adds a separator and the piece. */
  lemma {:induction false} JoinWithSnoc(parts: seq<string>, p: string, sep: char)
    requires |parts| >= 1
    ensures JoinWith(parts + [p], sep) == JoinWith(parts, sep) + [sep] + p
  {
    if |parts| > 1 {
      assert (parts + [p])[1..] == parts[1..] + [p];
      JoinWithSnoc(parts[1..], p, sep);
    }
  }

  /** Joining pieces free of the separator and splitting again gives the pieces back. */
  lemma {:induction false} SplitJoin(parts: seq<string>, c: char)
    requires |parts| >= 1
    requires forall i :: 0 <= i < |parts| ==> c !in parts[i]
    ensures SplitOn(JoinWith(parts, c), c) == parts
  {
    if |parts| > 1 {
      SplitJoin(parts[1..], c);
      SplitOnAfterPiece(parts[0], JoinWith(parts[1..], c), c);
      assert [parts[0]] + parts[1..] == parts;
    }
  }

  /** One piece of `s.split(/\s*,\s*\/)`: whitespace next to a comma is consumed
      by the separator, whitespace away from commas is kept. */
  function CommaPiece(p: string, afterComma: bool, beforeComma: bool): string
  {
    var a := if afterComma then TrimStart(p) else p;
    if beforeComma then TrimEnd(a) else a
  }

  /** `s.split(/\s*,\s*\/)`: split on commas, dropping the whitespace that
      surrounds each comma. */
  function SplitComma(s: string): (r: seq<string>)
    ensures |r| == |SplitOn(s, ',')| && |r| >= 1
    ensures forall i :: 0 <= i < |r| ==> ',' !in r[i]
  {
    var ps := SplitOn(s, ',');
    var n := |ps|;
    seq(n, i requires 0 <= i < n => CommaPiece(ps[i], i > 0, i < n - 1))
  }

  lemma SplitCommaNoComma(s: string)
    requires ',' !in s
    ensures SplitComma(s) == [s]
  {
  }

  // ---------------------------------------------------------------- numbers

  /** The digit for `d`; above 9 the lower-case letters. */
  function DigitChar(d: nat): (c: char)
    requires d < 16
    ensures IsHexDigit(c) && DigitValue(c) == d
    ensures d < 10 ==> IsDigit(c)
    ensures d < 8 ==> IsOctalDigit(c)
    ensures d < 2 ==> IsBinaryDigit(c)
  {
    if d < 10 then ('0' as int + d) as char else ('a' as int + d - 10) as char
  }

  lemma DivMod(n: nat, radix: nat)
    requires 2 <= radix <= n
    ensures n / radix < n && (n / radix) * radix + n % radix == n && n % radix < radix
  {
  }

  lemma {:induction false} DigitsValueSnoc(s: string, c: char, radix: nat)
    requires AllHex(s) && IsHexDigit(c)
    ensures AllHex(s + [c])
    ensures DigitsValue(s + [c], radix) == DigitsValue(s, radix) * radix + DigitValue(c)
  {
    assert (s + [c])[..|s|] == s;
  }

  /** Rendering of a natural number in a radix from 2 to 16, without leading zeros. */
  function NatToRadix(n: nat, radix: nat): (r: string)
    requires 2 <= radix <= 16
    ensures |r| >= 1 && AllHex(r)
    decreases n
  {
    if n < radix then [DigitChar(n)]
    else
      DivMod(n, radix);
      NatToRadix(n / radix, radix) + [DigitChar(n % radix)]
  }

  /** Rendering and reading back in the same radix is the identity. */
  lemma {:induction false} NatToRadixValue(n: nat, radix: nat)
    requires 2 <= radix <= 16
    ensures DigitsValue(NatToRadix(n, radix), radix) == n
    decreases n
  {
    if n >= radix {
      DivMod(n, radix);
      var q, m := n / radix, n % radix;
      var front := NatToRadix(q, radix);
      NatToRadixValue(q, radix);
      DigitsValueSnoc(front, DigitChar(m), radix);
    }
  }

  /** The rendering uses only the digits of its radix. */
  lemma {:induction false} NatToRadixClass(n: nat, radix: nat)
    requires 2 <= radix <= 16
    ensures radix <= 10 ==> AllDigits(NatToRadix(n, radix))
    ensures radix <= 8 ==> AllOctal(NatToRadix(n, radix))
    ensures radix == 2 ==> AllBinary(NatToRadix(n, radix))
    decreases n
  {
    if n >= radix {
      DivMod(n, radix);
      var front := NatToRadix(n / radix, radix);
      var c := DigitChar(n % radix);
      NatToRadixClass(n / radix, radix);
      assert NatToRadix(n, radix) == front + [c];
    }
  }

  /** Decimal rendering of a natural number, as `String(n)` gives it. */
  function NatToDecimal(n: nat): (r: string)
    ensures |r| >= 1 && AllDigits(r)
  {
    NatToRadixClass(n, 10);
    NatToRadix(n, 10)
  }

  /** `String(n)` for an integer. */
  function IntToDecimal(n: int): string
  {
    if n < 0 then "-" + NatToDecimal(-n) else NatToDecimal(n)
  }
}
