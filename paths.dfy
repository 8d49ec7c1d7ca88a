/** POSIX path handling as Node's `path` module does it, on absolute paths
    kept as lists of segments. A relative path stands for the absolute path
    the file system resolves it to, against the process working directory.
    Where a message shows the text of `path.join`, that text is modelled too,
    and proved to name the same file. */
module Paths {
  import opened Text

  /** The `TypeError` of `path.resolve` given a base that is not a string. */
  const BaseNotString := "The \"paths[0]\" argument must be of type string."

  /** An absolute path by its segments: "/a/b" is ["a", "b"], "/" is []. */
  type Segs = seq<string>

  predicate IsSegment(s: string) {
    s != "" && s != "." && s != ".." && '/' !in s
  }

  predicate Canonical(p: Segs) {
    forall i :: 0 <= i < |p| ==> IsSegment(p[i])
  }

  predicate IsPrefix(a: Segs, b: Segs) {
    |a| <= |b| && b[..|a|] == a
  }

  predicate NoSlash(parts: seq<string>) {
    forall i :: 0 <= i < |parts| ==> '/' !in parts[i]
  }

  /** One step of normalisation: empty and "." parts vanish, ".." climbs (never above the root). */
  function Step(acc: Segs, part: string): (r: Segs)
    requires Canonical(acc) && '/' !in part
    ensures Canonical(r)
  {
    if part == "" || part == "." then acc
    else if part == ".." then (if acc == [] then [] else acc[..|acc| - 1])
    else acc + [part]
  }

  function Normalize(acc: Segs, parts: seq<string>): (r: Segs)
    requires Canonical(acc) && NoSlash(parts)
    ensures Canonical(r)
    decreases |parts|
  {
    if parts == [] then acc else Normalize(Step(acc, parts[0]), parts[1..])
  }

  function Parts(s: string): (r: seq<string>)
    ensures NoSlash(r) && |r| >= 1
  {
    SplitOn(s, '/')
  }

  predicate IsAbsolute(s: string) {
    |s| > 0 && s[0] == '/'
  }

  /** `path.resolve(p)` with `cwd` the process working directory. */
  function ResolveOne(cwd: Segs, p: string): (r: Segs)
    requires Canonical(cwd)
    ensures Canonical(r)
  {
    Normalize(if IsAbsolute(p) then [] else cwd, Parts(p))
  }

  /** `path.resolve(base, p)`. */
  function Resolve(cwd: Segs, base: string, p: string): (r: Segs)
    requires Canonical(cwd)
    ensures Canonical(r)
    ensures IsAbsolute(p) ==> r == ResolveOne(cwd, p)
  {
    if IsAbsolute(p) then ResolveOne(cwd, p) else Normalize(ResolveOne(cwd, base), Parts(p))
  }

  /** `path.join(base, rel)` read as the path it names. */
  function JoinPath(base: Segs, rel: string): (r: Segs)
    requires Canonical(base)
    ensures Canonical(r)
  {
    Normalize(base, Parts(rel))
  }

  function Render(p: Segs): string {
    "/" + JoinWith(p, '/')
  }

  function Basename(p: Segs): string {
    if p == [] then "" else p[|p| - 1]
  }

  function Dirname(p: Segs): (r: Segs)
    requires Canonical(p)
    ensures Canonical(r)
  {
    if p == [] then [] else p[..|p| - 1]
  }

  function CommonPrefix(a: Segs, b: Segs): (k: nat)
    ensures k <= |a| && k <= |b| && a[..k] == b[..k]
    ensures k < |a| && k < |b| ==> a[k] != b[k]
  {
    if a == [] || b == [] || a[0] != b[0] then 0
    else
      var k := 1 + CommonPrefix(a[1..], b[1..]);
      assert a[..k] == [a[0]] + a[1..][..k - 1];
      assert b[..k] == [b[0]] + b[1..][..k - 1];
      k
  }

  function Ups(n: nat): (r: seq<string>)
    ensures |r| == n && forall i :: 0 <= i < n ==> r[i] == ".."
  {
    if n == 0 then [] else [".."] + Ups(n - 1)
  }

  /** The parts of `path.relative(from, to)`. */
  function RelativeParts(from: Segs, to: Segs): seq<string>
  {
    var k := CommonPrefix(from, to);
    Ups(|from| - k) + to[k..]
  }

  /** `path.relative(from, to)` for resolved paths. */
  function Relative(from: Segs, to: Segs): string
  {
    JoinWith(RelativeParts(from, to), '/')
  }

  /** Where `n` climbs above `cwd` lead: `n` segments fewer, never above the root. */
  function Above(cwd: Segs, n: nat): (r: Segs)
    requires Canonical(cwd)
    ensures Canonical(r)
  {
    if n >= |cwd| then [] else cwd[..|cwd| - n]
  }

  /** One step of `path.normalize` on a relative path, which keeps the
      climbs ".." it cannot undo at the front. */
  function RelStep(ups: nat, acc: Segs, part: string): (r: (nat, Segs))
    requires Canonical(acc) && '/' !in part
    ensures Canonical(r.1)
  {
    if part == "" || part == "." then (ups, acc)
    else if part == ".." then (if acc == [] then (ups + 1, acc) else (ups, acc[..|acc| - 1]))
    else (ups, acc + [part])
  }

  /** How `path.normalize` reads a relative path: the climbs ".." it
      keeps at the front and the segments after them. */
  function NormalizeRel(ups: nat, acc: Segs, parts: seq<string>): (r: (nat, Segs))
    requires Canonical(acc) && NoSlash(parts)
    ensures Canonical(r.1)
    decreases |parts|
  {
    if parts == [] then (ups, acc)
    else
      var n := RelStep(ups, acc, parts[0]);
      NormalizeRel(n.0, n.1, parts[1..])
  }

  /** `path.normalize(s)`: "." for nothing, the segments joined again, a
      trailing separator kept, and ".." kept at the front of a relative path. */
  function NormalizeText(s: string): string {
    if s == "" then "."
    else
      var trailing := if s[|s| - 1] == '/' then "/" else "";
      if IsAbsolute(s) then
        var segs := Normalize([], Parts(s));
        if segs == [] then "/" else "/" + JoinWith(segs, '/') + trailing
      else
        var n := NormalizeRel(0, [], Parts(s));
        var body := Ups(n.0) + n.1;
        if body == [] then "." + trailing else JoinWith(body, '/') + trailing
  }

  function NonEmpty(args: seq<string>): (r: seq<string>)
    ensures forall i :: 0 <= i < |r| ==> r[i] != ""
  {
    if args == [] then [] else (if args[0] == "" then [] else [args[0]]) + NonEmpty(args[1..])
  }

  /** `path.join(...args)`: the non-empty arguments joined with "/" and
      normalised, "." when there are none. Unlike `path.resolve`, an
      absolute argument after the first does not start over. */
  function JoinText(args: seq<string>): string {
    var joined := JoinWith(NonEmpty(args), '/');
    if joined == "" then "." else NormalizeText(joined)
  }

  // ---------------------------------------------------------------- lemmas

  lemma {:induction false} NormalizeCanonical(acc: Segs, parts: Segs)
    requires Canonical(acc) && Canonical(parts)
    ensures Normalize(acc, parts) == acc + parts
    decreases |parts|
  {
    if parts != [] {
      NormalizeCanonical(acc + [parts[0]], parts[1..]);
      assert acc + [parts[0]] + parts[1..] == acc + parts;
    }
  }

  lemma {:induction false} NormalizeUps(acc: Segs, n: nat, rest: seq<string>)
    requires Canonical(acc) && n <= |acc| && NoSlash(rest)
    ensures Normalize(acc, Ups(n) + rest) == Normalize(acc[..|acc| - n], rest)
    decreases n
  {
    if n > 0 {
      var acc' := acc[..|acc| - 1];
      UpsFirst(n, rest);
      NormalizeUp(acc, Ups(n) + rest);
      assert acc'[..|acc'| - (n - 1)] == acc[..|acc| - n];
      NormalizeUps(acc', n - 1, rest);
    } else {
      assert Ups(0) + rest == rest;
      assert acc[..|acc| - 0] == acc;
    }
  }

  /** A run of ".." parts followed by parts without a slash: the first is
      "..", and the others are one ".." fewer. */
  lemma UpsFirst(n: nat, rest: seq<string>)
    requires n > 0 && NoSlash(rest)
    ensures NoSlash(Ups(n) + rest) && NoSlash(Ups(n - 1) + rest)
    ensures (Ups(n) + rest)[0] == ".." && (Ups(n) + rest)[1..] == Ups(n - 1) + rest
  {
    assert Ups(n) == [".."] + Ups(n - 1);
  }

  /** A leading ".." drops the last segment of a non-empty path. */
  lemma NormalizeUp(acc: Segs, parts: seq<string>)
    requires Canonical(acc) && acc != [] && NoSlash(parts) && parts != [] && parts[0] == ".."
    ensures Normalize(acc, parts) == Normalize(acc[..|acc| - 1], parts[1..])
  {
  }

  lemma RelativePartsNoSlash(from: Segs, to: Segs)
    requires Canonical(to)
    ensures NoSlash(RelativeParts(from, to))
  {
  }

  /** Resolving the relative path from `from` to `to` against `from` gives `to`. */
  lemma ResolveRelative(from: Segs, to: Segs)
    requires Canonical(from) && Canonical(to)
    ensures JoinPath(from, Relative(from, to)) == to
  {
    var k := CommonPrefix(from, to);
    var parts := RelativeParts(from, to);
    RelativePartsNoSlash(from, to);
    if parts == [] {
      assert Parts(Relative(from, to)) == [""];
      assert k == |from| && k == |to|;
      assert from == from[..k] && to == to[..k];
    } else {
      SplitJoin(parts, '/');
      NormalizeUps(from, |from| - k, to[k..]);
      assert from[..|from| - (|from| - k)] == to[..k];
      NormalizeCanonical(to[..k], to[k..]);
      assert to[..k] + to[k..] == to;
    }
  }

  /** A relative path free of the text ".." never climbs: `from` is then a
      prefix of `to`, and the relative path lists the remaining segments. */
  lemma RelativeWithoutDots(from: Segs, to: Segs)
    requires Canonical(from) && Canonical(to)
    requires !Contains(Relative(from, to), "..")
    ensures IsPrefix(from, to)
    ensures Relative(from, to) == JoinWith(to[|from|..], '/')
  {
    var k := CommonPrefix(from, to);
    var parts := RelativeParts(from, to);
    if |from| - k > 0 {
      assert parts[0] == "..";
      var s := Relative(from, to);
      if |parts| == 1 {
        assert s == "..";
      } else {
        assert s == ".." + ['/'] + JoinWith(parts[1..], '/');
      }
      assert OccursAt(s, "..", 0);
      assert false;
    }
    assert Ups(0) + to[k..] == to[k..];
  }

  /** The segments named by the joined string of canonical segments. */
  lemma JoinCanonical(base: Segs, segs: Segs)
    requires Canonical(base) && Canonical(segs)
    ensures JoinPath(base, JoinWith(segs, '/')) == base + segs
  {
    if segs == [] {
      assert Parts("") == [""];
    } else {
      SplitJoin(segs, '/');
      NormalizeCanonical(base, segs);
    }
  }

  lemma JoinSegment(base: Segs, name: string)
    requires Canonical(base) && IsSegment(name)
    ensures JoinPath(base, name) == base + [name]
  {
    NormalizeCanonical(base, [name]);
  }

  /** Joining the empty string changes nothing. */
  lemma JoinEmpty(base: Segs)
    requires Canonical(base)
    ensures JoinPath(base, "") == base
  {
    assert Parts("") == [""];
  }

  /** A rendered absolute path resolves to itself, whatever the base. */
  lemma ResolveRendered(cwd: Segs, base: string, p: Segs)
    requires Canonical(cwd) && Canonical(p)
    ensures Resolve(cwd, base, Render(p)) == p
  {
    var j := JoinWith(p, '/');
    var s := Render(p);
    assert s[0] == '/' && s[1..] == j;
    assert Parts(s) == [""] + Parts(j);
    assert Normalize([], Parts(s)) == Normalize([], Parts(j));
    JoinCanonical([], p);
    assert [] + p == p;
  }

  /** A normalisation runs in two halves: the parts of a longer path. */
  lemma {:induction false} NormalizeAppend(acc: Segs, p: seq<string>, q: seq<string>)
    requires Canonical(acc) && NoSlash(p) && NoSlash(q)
    ensures NoSlash(p + q)
    ensures Normalize(acc, p + q) == Normalize(Normalize(acc, p), q)
    decreases |p|
  {
    assert NoSlash(p + q) by {
      forall i | 0 <= i < |p + q|
        ensures '/' !in (p + q)[i]
      {
        if i < |p| {
          assert (p + q)[i] == p[i];
        } else {
          assert (p + q)[i] == q[i - |p|];
        }
      }
    }
    if p == [] {
      assert p + q == q;
    } else {
      assert (p + q)[0] == p[0] && (p + q)[1..] == p[1..] + q;
      NormalizeAppend(Step(acc, p[0]), p[1..], q);
    }
  }

  /** Climbs past the root stay at the root. */
  lemma {:induction false} NormalizeClimbs(acc: Segs, n: nat, rest: seq<string>)
    requires Canonical(acc) && NoSlash(rest)
    ensures NoSlash(Ups(n) + rest)
    ensures Normalize(acc, Ups(n) + rest) == Normalize(Above(acc, n), rest)
    decreases n
  {
    if n == 0 {
      assert Ups(0) + rest == rest;
      assert acc[..|acc| - 0] == acc;
    } else {
      UpsFirst(n, rest);
      var acc' := Step(acc, "..");
      NormalizeClimbs(acc', n - 1, rest);
      assert Above(acc', n - 1) == Above(acc, n);
    }
  }

  /** One step on the relative text and one step on the path it names
      keep them in step. */
  lemma StepRel(cwd: Segs, ups: nat, acc: Segs, part: string)
    requires Canonical(cwd) && Canonical(acc) && '/' !in part
    ensures Canonical(Above(cwd, ups) + acc)
    ensures var n := RelStep(ups, acc, part);
      Step(Above(cwd, ups) + acc, part) == Above(cwd, n.0) + n.1
  {
    var above := Above(cwd, ups);
    assert Canonical(above + acc) by {
      forall i | 0 <= i < |above + acc|
        ensures IsSegment((above + acc)[i])
      {
        if i < |above| {
          assert (above + acc)[i] == above[i];
        } else {
          assert (above + acc)[i] == acc[i - |above|];
        }
      }
    }
    if part == ".." {
      if acc == [] {
        assert above + acc == above;
      } else {
        assert (above + acc)[..|above + acc| - 1] == above + acc[..|acc| - 1];
      }
    } else if part != "" && part != "." {
      assert above + acc + [part] == above + (acc + [part]);
    }
  }

  /** A relative path read by `path.normalize` names the same file as the
      original, once both are resolved against the same directory. */
  lemma {:induction false} NormalizeRelResolves(cwd: Segs, ups: nat, acc: Segs, parts: seq<string>)
    requires Canonical(cwd) && Canonical(acc) && NoSlash(parts)
    ensures Canonical(Above(cwd, ups) + acc)
    ensures var n := NormalizeRel(ups, acc, parts);
      Normalize(Above(cwd, ups) + acc, parts) == Above(cwd, n.0) + n.1
    decreases |parts|
  {
    StepRel(cwd, ups, acc, "");
    if parts != [] {
      StepRel(cwd, ups, acc, parts[0]);
      var n := RelStep(ups, acc, parts[0]);
      NormalizeRelResolves(cwd, n.0, n.1, parts[1..]);
    }
  }

  /** An empty part changes nothing. */
  lemma NormalizeEmptyPart(acc: Segs)
    requires Canonical(acc)
    ensures Normalize(acc, [""]) == acc
  {
  }

  /** The parts of a string with a trailing separator: an empty last part. */
  lemma PartsOfTrailing(j: string, trailing: string)
    requires trailing == "" || trailing == "/"
    ensures trailing == "/" ==> Parts(j + trailing) == Parts(j) + [""]
    ensures trailing == "" ==> j + trailing == j
  {
    if trailing == "/" {
      SplitOnAppend(j, "", '/');
      assert j + ['/'] + "" == j + trailing;
    }
  }

  /** `path.normalize` keeps the path a string names: resolved against any
      directory, the normalised text and the original are the same path. */
  lemma NormalizeTextResolves(cwd: Segs, s: string)
    requires Canonical(cwd)
    ensures ResolveOne(cwd, NormalizeText(s)) == ResolveOne(cwd, s)
  {
    if s == "" {
      assert Parts(".") == ["."];
    } else {
      var trailing := if s[|s| - 1] == '/' then "/" else "";
      if IsAbsolute(s) {
        NormalizeAbsolute(cwd, Normalize([], Parts(s)), trailing);
      } else {
        NormalizeRelative(cwd, NormalizeRel(0, [], Parts(s)), trailing);
        NormalizeRelResolves(cwd, 0, [], Parts(s));
        assert Above(cwd, 0) + [] == cwd;
      }
    }
  }

  /** The text `path.normalize` gives for an absolute path names its segments. */
  lemma NormalizeAbsolute(cwd: Segs, segs: Segs, trailing: string)
    requires Canonical(cwd) && Canonical(segs) && (trailing == "" || trailing == "/")
    ensures segs == [] ==> ResolveOne(cwd, "/") == segs
    ensures segs != [] ==> ResolveOne(cwd, "/" + JoinWith(segs, '/') + trailing) == segs
  {
    if segs == [] {
      assert Parts("/") == ["", ""];
    } else {
      ResolveRendered(cwd, "", segs);
      PartsOfTrailing(Render(segs), trailing);
      if trailing == "/" {
        NormalizeAppend([], Parts(Render(segs)), [""]);
      }
    }
  }

  /** The text `path.normalize` gives for a relative path climbs, then
      descends, as the path it came from. */
  lemma NormalizeRelative(cwd: Segs, n: (nat, Segs), trailing: string)
    requires Canonical(cwd) && Canonical(n.1) && (trailing == "" || trailing == "/")
    ensures var body := Ups(n.0) + n.1;
      ResolveOne(cwd, if body == [] then "." + trailing else JoinWith(body, '/') + trailing)
        == Above(cwd, n.0) + n.1
  {
    var body := Ups(n.0) + n.1;
    NormalizeClimbs(cwd, n.0, n.1);
    NormalizeCanonical(Above(cwd, n.0), n.1);
    if body == [] {
      assert n.0 == 0 && n.1 == [];
      assert Above(cwd, 0) + [] == cwd;
      assert Parts(".") == ["."];
      if trailing == "/" {
        SplitOnAppend(".", "", '/');
        assert "." + ['/'] + "" == "." + trailing;
        assert Parts("." + trailing) == ["."] + [""];
        assert Normalize(cwd, ["."] + [""]) == Normalize(cwd, [""]);
      }
    } else {
      var j := JoinWith(body, '/');
      SplitJoin(body, '/');
      PartsOfTrailing(j, trailing);
      if trailing == "/" {
        NormalizeAppend(cwd, body, [""]);
      }
    }
  }

  /** Two strings joined by a separator normalise as one after the other. */
  lemma NormalizeJoined(root: Segs, a: string, b: string)
    requires Canonical(root)
    ensures Normalize(root, Parts(a + "/" + b)) == Normalize(Normalize(root, Parts(a)), Parts(b))
  {
    SplitOnAppend(a, b, '/');
    assert a + ['/'] + b == a + "/" + b;
    NormalizeAppend(root, Parts(a), Parts(b));
  }

  /** Resolving `a/x` is joining `x` onto what `a` resolves to. */
  lemma ResolveJoinedOne(cwd: Segs, a: string, x: string)
    requires Canonical(cwd) && a != ""
    ensures ResolveOne(cwd, a + "/" + x) == JoinPath(ResolveOne(cwd, a), x)
  {
    assert (a + "/" + x)[0] == a[0];
    NormalizeJoined(if IsAbsolute(a) then [] else cwd, a, x);
  }

  /** The text `path.join(a, b, c)` joins before normalising. */
  lemma JoinedThree(a: string, b: string, c: string)
    requires a != ""
    ensures var ab := if b == "" then a else a + "/" + b;
      JoinWith(NonEmpty([a, b, c]), '/') == if c == "" then ab else ab + "/" + c
  {
    assert [a, b, c][1..] == [b, c] && [b, c][1..] == [c] && [c][1..] == [];
    assert NonEmpty([c]) == (if c == "" then [] else [c]) + NonEmpty([]);
    assert NonEmpty([b, c]) == (if b == "" then [] else [b]) + NonEmpty([c]);
    var tail := (if b == "" then [] else [b]) + (if c == "" then [] else [c]);
    assert NonEmpty([a, b, c]) == [a] + tail;
    if b != "" && c != "" {
      assert [a] + tail == [a, b, c];
      assert JoinWith([b, c], '/') == b + "/" + JoinWith([c], '/');
    } else if b != "" {
      assert [a] + tail == [a, b];
    } else if c != "" {
      assert [a] + tail == [a, c];
    }
  }

  /** `path.join(a, b, c)` with a non-empty first argument, resolved, is
      the path `a` names joined with `b` and then `c`: the text `join` gives
      names the file the joined path stands for. */
  lemma JoinTextResolves(cwd: Segs, a: string, b: string, c: string)
    requires Canonical(cwd) && a != ""
    ensures ResolveOne(cwd, JoinText([a, b, c])) == JoinPath(JoinPath(ResolveOne(cwd, a), b), c)
  {
    JoinedThree(a, b, c);
    var ab := if b == "" then a else a + "/" + b;
    var joined := JoinWith(NonEmpty([a, b, c]), '/');
    NormalizeTextResolves(cwd, joined);
    if b == "" {
      JoinEmpty(ResolveOne(cwd, a));
    } else {
      ResolveJoinedOne(cwd, a, b);
    }
    if c == "" {
      JoinEmpty(ResolveOne(cwd, ab));
    } else {
      ResolveJoinedOne(cwd, ab, c);
    }
  }

  /** A rendered non-empty path does not end with a separator. */
  lemma RenderLast(p: Segs)
    requires Canonical(p) && p != []
    ensures var r := Render(p); r[|r| - 1] != '/'
  {
    var b := p[|p| - 1];
    if |p| == 1 {
      assert Render(p) == "/" + b;
    } else {
      assert p == p[..|p| - 1] + [b];
      JoinWithSnoc(p[..|p| - 1], b, '/');
      assert Render(p) == "/" + JoinWith(p[..|p| - 1], '/') + "/" + b;
    }
  }

  /** The rendered form of a non-empty path is already normal. */
  lemma NormalizeRendered(p: Segs)
    requires Canonical(p) && p != []
    ensures NormalizeText(Render(p)) == Render(p)
  {
    RenderLast(p);
    ResolveRendered([], "", p);
  }

  /** A segment after two separators: `path.normalize` drops the extra one. */
  lemma NormalizeDoubleSlash(b: string)
    requires IsSegment(b)
    ensures NormalizeText("//" + b) == "/" + b
  {
    var s := "//" + b;
    assert s[0] == '/' && s[|s| - 1] == b[|b| - 1];
    PartsDoubleSlash(b);
    NormalizeBelowRoot(b);
    assert JoinWith([b], '/') == b;
  }

  lemma PartsDoubleSlash(b: string)
    requires '/' !in b
    ensures Parts("//" + b) == ["", "", b]
  {
    assert "/" + b == "" + ['/'] + b;
    SplitOnAppend("", b, '/');
    assert "//" + b == "" + ['/'] + ("/" + b);
    SplitOnAppend("", "/" + b, '/');
  }

  lemma NormalizeBelowRoot(b: string)
    requires IsSegment(b)
    ensures Normalize([], ["", "", b]) == [b]
  {
    assert ["", "", b][1..] == ["", b] && ["", b][1..] == [b] && [b][1..] == [];
    calc {
      Normalize([], ["", "", b]);
      Normalize(Step([], ""), ["", b]);
      Normalize(Step([], ""), [b]);
      Normalize(Step([], b), []);
    }
  }

  /** `path.join` drops an empty middle argument, and an empty last one. */
  lemma NonEmptyThree(a: string, b: string)
    requires a != ""
    ensures NonEmpty([a, "", b]) == if b == "" then [a] else [a, b]
  {
    assert [a, "", b][1..] == ["", b] && ["", b][1..] == [b] && [b][1..] == [];
    assert NonEmpty([b]) == (if b == "" then [] else [b]) + NonEmpty([]);
  }

  /** Joining a path's directory and its base name, as `path.join(dir, '',
      base)` does for a resolved path, gives the path's own text. */
  lemma JoinDirnameBasename(p: Segs)
    requires Canonical(p)
    ensures JoinText([Render(Dirname(p)), "", Basename(p)]) == Render(p)
  {
    if p == [] {
      JoinAtRoot();
    } else if |p| == 1 {
      assert Render(Dirname(p)) == "/" && Render(p) == "/" + p[0];
      JoinBelowRoot(p[0]);
    } else {
      JoinDirnameNested(p);
    }
  }

  /** `path.join('/', '', '')` is the root. */
  lemma JoinAtRoot()
    ensures JoinText(["/", "", ""]) == "/"
  {
    NonEmptyThree("/", "");
    assert JoinWith(["/"], '/') == "/";
    assert Parts("/") == ["", ""];
  }

  /** `path.join('/', '', b)` for a segment `b` is "/b". */
  lemma JoinBelowRoot(b: string)
    requires IsSegment(b)
    ensures JoinText(["/", "", b]) == "/" + b
  {
    NonEmptyThree("/", b);
    assert JoinWith(["/", b], '/') == "//" + b;
    NormalizeDoubleSlash(b);
  }

  /** Below the root, the directory, a separator and the base name render the path. */
  lemma JoinDirnameNested(p: Segs)
    requires Canonical(p) && |p| > 1
    ensures JoinText([Render(Dirname(p)), "", Basename(p)]) == Render(p)
  {
    var dir := Dirname(p);
    var b := Basename(p);
    NonEmptyThree(Render(dir), b);
    assert JoinWith([Render(dir), b], '/') == Render(dir) + "/" + b;
    assert p == dir + [b];
    JoinWithSnoc(dir, b, '/');
    assert Render(dir) + "/" + b == Render(p);
    NormalizeRendered(p);
  }
}
