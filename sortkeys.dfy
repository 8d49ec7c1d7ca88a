/** `sortKeys`: a copy of a plain object whose keys are re-inserted with some
    keys pinned to the top, some to the bottom and the rest sorted between them,
    recursing into nested objects when asked to. */
module KeySort {
  import opened Values
  import opened Host

  /** The comparers selected by name; `localeCompare` is taken as plain
      lexicographic order on character codes. */
  datatype Comparer = Asc | Desc

  /** The options after defaults are applied; a `top` or `bottom` that is not
      an array is the empty list. */
  datatype SortOptions = SortOptions(comparer: Comparer, deep: bool, top: seq<string>, bottom: seq<string>)

  const DefaultSortOptions := SortOptions(Asc, true, [], [])

  // ------------------------------------------------------------ string order

  /** `a` sorts before or equal to `b`, character code by character code. */
  predicate Le(a: string, b: string)
    decreases |a|
  {
    if a == [] then true
    else if b == [] then false
    else if a[0] < b[0] then true
    else if b[0] < a[0] then false
    else Le(a[1..], b[1..])
  }

  lemma {:induction false} LeTotal(a: string, b: string)
    ensures Le(a, b) || Le(b, a)
    decreases |a|
  {
    if a != [] && b != [] && a[0] == b[0] {
      LeTotal(a[1..], b[1..]);
    }
  }

  lemma {:induction false} LeTrans(a: string, b: string, c: string)
    requires Le(a, b) && Le(b, c)
    ensures Le(a, c)
    decreases |a|
  {
    if a != [] && b != [] && c != [] && a[0] == b[0] && b[0] == c[0] {
      LeTrans(a[1..], b[1..], c[1..]);
    }
  }

  lemma {:induction false} LeAntisym(a: string, b: string)
    requires Le(a, b) && Le(b, a)
    ensures a == b
    decreases |a|
  {
    if a != [] && b != [] {
      LeAntisym(a[1..], b[1..]);
      assert a == [a[0]] + a[1..] && b == [b[0]] + b[1..];
    }
  }

  /** `a` may precede `b` under the comparer. */
  predicate InOrder(a: string, b: string, c: Comparer) {
    if c == Asc then Le(a, b) else Le(b, a)
  }

  lemma InOrderTotal(a: string, b: string, c: Comparer)
    ensures InOrder(a, b, c) || InOrder(b, a, c)
  {
    LeTotal(a, b);
  }

  lemma InOrderTrans(a: string, b: string, d: string, c: Comparer)
    requires InOrder(a, b, c) && InOrder(b, d, c)
    ensures InOrder(a, d, c)
  {
    if c == Asc { LeTrans(a, b, d); } else { LeTrans(d, b, a); }
  }

  predicate SortedBy(s: seq<string>, c: Comparer) {
    forall i, j :: 0 <= i < j < |s| ==> InOrder(s[i], s[j], c)
  }

  /** Inserting one key before the first key it may precede. */
  function Insert(x: string, s: seq<string>, c: Comparer): (r: seq<string>)
    ensures multiset(r) == multiset(s) + multiset{x}
  {
    if s == [] then [x]
    else if InOrder(x, s[0], c) then [x] + s
    else
      assert s == [s[0]] + s[1..];
      [s[0]] + Insert(x, s[1..], c)
  }

  /** Inserting into a sorted list keeps it sorted. */
  lemma {:induction false} InsertSorted(x: string, s: seq<string>, c: Comparer)
    requires SortedBy(s, c)
    ensures SortedBy(Insert(x, s, c), c)
  {
    if s != [] && InOrder(x, s[0], c) {
      forall j | 0 <= j < |s|
        ensures InOrder(x, s[j], c)
      {
        if j > 0 {
          InOrderTrans(x, s[0], s[j], c);
        }
      }
      ConsSorted(x, s, c);
    } else if s != [] {
      var rest := Insert(x, s[1..], c);
      InsertSorted(x, s[1..], c);
      InOrderTotal(x, s[0], c);
      HeadBeforeInserted(x, s, c);
      ConsSorted(s[0], rest, c);
      assert Insert(x, s, c) == [s[0]] + rest;
    }
  }

  /** A key that may precede every key of a sorted list keeps it sorted in
      front. */
  lemma ConsSorted(h: string, r: seq<string>, c: Comparer)
    requires SortedBy(r, c)
    requires forall j :: 0 <= j < |r| ==> InOrder(h, r[j], c)
    ensures SortedBy([h] + r, c)
  {
  }

  /** The first key of a sorted list may precede every key of the rest with
      a key inserted that it may precede. */
  lemma HeadBeforeInserted(x: string, s: seq<string>, c: Comparer)
    requires SortedBy(s, c) && s != [] && InOrder(s[0], x, c)
    ensures forall j :: 0 <= j < |Insert(x, s[1..], c)| ==> InOrder(s[0], Insert(x, s[1..], c)[j], c)
  {
    var rest := Insert(x, s[1..], c);
    forall j | 0 <= j < |rest|
      ensures InOrder(s[0], rest[j], c)
    {
      assert rest[j] in multiset(rest);
      if rest[j] != x {
        assert rest[j] in multiset(s[1..]);
        var m :| 0 <= m < |s| - 1 && s[1..][m] == rest[j];
        assert s[m + 1] == rest[j];
      }
    }
  }

  /** `keys.sort(comp)`: a sorted permutation of the keys. */
  function SortStrings(ks: seq<string>, c: Comparer): (r: seq<string>)
    ensures SortedBy(r, c)
    ensures multiset(r) == multiset(ks)
  {
    if ks == [] then []
    else
      assert ks == [ks[0]] + ks[1..];
      var rest := SortStrings(ks[1..], c);
      InsertSorted(ks[0], rest, c);
      Insert(ks[0], rest, c)
  }

  // ------------------------------------------------------------ key lists

  /** The names of `xs` that `obj` owns, in order (repeats kept). */
  function PresentIn(xs: seq<string>, obj: Value): (r: seq<string>)
    ensures forall k :: k in r <==> k in xs && HasOwn(obj, k)
  {
    if xs == [] then []
    else
      var p := PresentIn(xs[..|xs| - 1], obj);
      var k := xs[|xs| - 1];
      assert xs == xs[..|xs| - 1] + [k];
      if HasOwn(obj, k) then p + [k] else p
  }

  /** The keys of `ks` pinned neither to the top nor to the bottom, in order. */
  function Middle(ks: seq<string>, top: seq<string>, bottom: seq<string>): (r: seq<string>)
    ensures forall k :: k in r <==> k in ks && k !in top && k !in bottom
  {
    if ks == [] then []
    else
      var p := Middle(ks[..|ks| - 1], top, bottom);
      var k := ks[|ks| - 1];
      assert ks == ks[..|ks| - 1] + [k];
      if k !in top && k !in bottom then p + [k] else p
  }

  /** The names of `ks` not in `xs`, each once, in order of first occurrence:
      the keys that assigning `ks` in turn adds to an object with keys `xs`. */
  function New(xs: seq<string>, ks: seq<string>): (r: seq<string>)
    ensures forall k :: k in r <==> k in ks && k !in xs
    ensures Distinct(r)
  {
    if ks == [] then []
    else
      var p := New(xs, ks[..|ks| - 1]);
      var k := ks[|ks| - 1];
      assert ks == ks[..|ks| - 1] + [k];
      if k in xs || k in p then p else p + [k]
  }

  // ------------------------------------------------------------ the result

  /** The sorted keys are keys of the object. */
  lemma SortedOwnKeys(obj: Json, c: Comparer)
    requires obj.Obj?
    ensures forall k :: k in SortStrings(obj.keys, c) <==> k in obj.fields
  {
    var ks := SortStrings(obj.keys, c);
    forall k
      ensures k in ks <==> k in obj.keys
    {
      assert k in ks <==> k in multiset(ks);
      assert k in obj.keys <==> k in multiset(obj.keys);
    }
  }

  /** The value `add` stores for a property: nested plain objects sorted too
      when `deep` is set. */
  function Child(v: Value, opts: SortOptions): (r: Value)
    requires Wf(v)
    ensures Wf(r)
    decreases v, 5, 0
  {
    if opts.deep && v.Obj? then SortedKeys(v, opts) else v
  }

  /** `add(key)` for the keys `ks` in turn, starting from `start`. */
  function Fill(start: Json, obj: Json, ks: seq<string>, opts: SortOptions): (r: Json)
    requires start.Obj? && obj.Obj?
    requires forall k :: k in ks ==> k in obj.fields
    ensures r.Obj?
    decreases obj, 1, |ks|
  {
    if ks == [] then start
    else
      var k := ks[|ks| - 1];
      Put(Fill(start, obj, ks[..|ks| - 1], opts), k, Child(obj.fields[k], opts))
  }

  /** The object after the top keys are added. */
  function AfterTop(obj: Json, opts: SortOptions): (r: Json)
    requires obj.Obj?
    ensures r.Obj?
    decreases obj, 2, 0
  {
    Fill(EmptyObj, obj, PresentIn(opts.top, obj), opts)
  }

  /** The object after the unpinned keys are added too, in comparer order. */
  function AfterMiddle(obj: Json, opts: SortOptions): (r: Json)
    requires obj.Obj?
    ensures r.Obj?
    decreases obj, 3, 0
  {
    SortedOwnKeys(obj, opts.comparer);
    Fill(AfterTop(obj, opts), obj, Middle(SortStrings(obj.keys, opts.comparer), opts.top, opts.bottom), opts)
  }

  /** The object `sortKeys(obj, options)` returns: the bottom keys added last. */
  function SortedKeys(obj: Json, opts: SortOptions): (r: Json)
    requires obj.Obj?
    ensures r.Obj?
    decreases obj, 4, 0
  {
    Fill(AfterMiddle(obj, opts), obj, PresentIn(opts.bottom, obj), opts)
  }

  /** One pinned name more: added when the object owns it. */
  lemma PinStep(start: Json, obj: Json, xs: seq<string>, i: nat, opts: SortOptions)
    requires start.Obj? && obj.Obj? && i < |xs|
    ensures Fill(start, obj, PresentIn(xs[..i + 1], obj), opts)
      == if xs[i] in obj.fields
         then Put(Fill(start, obj, PresentIn(xs[..i], obj), opts), xs[i], Child(obj.fields[xs[i]], opts))
         else Fill(start, obj, PresentIn(xs[..i], obj), opts)
  {
    assert xs[..i + 1][..i] == xs[..i];
    var p := PresentIn(xs[..i], obj);
    if xs[i] in obj.fields {
      assert (p + [xs[i]])[..|p|] == p;
    }
  }

  /** One sorted key more: added unless it is pinned. */
  lemma MiddleStep(start: Json, obj: Json, ks: seq<string>, i: nat, top: seq<string>, bottom: seq<string>, opts: SortOptions)
    requires start.Obj? && obj.Obj? && i < |ks|
    requires forall k :: k in ks ==> k in obj.fields
    ensures Fill(start, obj, Middle(ks[..i + 1], top, bottom), opts)
      == if ks[i] !in top && ks[i] !in bottom
         then Put(Fill(start, obj, Middle(ks[..i], top, bottom), opts), ks[i], Child(obj.fields[ks[i]], opts))
         else Fill(start, obj, Middle(ks[..i], top, bottom), opts)
  {
    assert ks[..i + 1][..i] == ks[..i];
    var p := Middle(ks[..i], top, bottom);
    if ks[i] !in top && ks[i] !in bottom {
      assert (p + [ks[i]])[..|p|] == p;
    }
  }

  // ------------------------------------------------------------ the method


  /** The nested `add(key)`: stores the (possibly sorted) value of `key`. */
  method Add(sorted: Json, obj: Json, key: string, opts: SortOptions) returns (r: Json)
    requires sorted.Obj? && obj.Obj? && key in obj.fields
    ensures r == Put(sorted, key, Child(obj.fields[key], opts))
    decreases obj, 0
  {
    var v := obj.fields[key];
    if opts.deep && v.Obj? {
      v := SortKeys(v, opts);
    }
    r := Put(sorted, key, v);
  }

  /** `pins.forEach(key => { if (hasOwn(obj, key)) add(key); })`. */
  method AddPinned(sorted: Json, obj: Json, pins: seq<string>, opts: SortOptions) returns (r: Json)
    requires sorted.Obj? && obj.Obj?
    ensures r == Fill(sorted, obj, PresentIn(pins, obj), opts)
    decreases obj, 1
  {
    r := sorted;
    var i := 0;
    while i < |pins|
      invariant 0 <= i <= |pins|
      invariant r == Fill(sorted, obj, PresentIn(pins[..i], obj), opts)
    {
      var key := pins[i];
      PinStep(sorted, obj, pins, i, opts);
      if key in obj.fields {
        r := Add(r, obj, key, opts);
      }
      i := i + 1;
    }
    assert pins[..i] == pins;
  }

  /** `keys.forEach(key => { if (!top.includes(key) && !bottom.includes(key)) add(key); })`. */
  method AddUnpinned(sorted: Json, obj: Json, keys: seq<string>, top: seq<string>, bottom: seq<string>, opts: SortOptions)
    returns (r: Json)
    requires sorted.Obj? && obj.Obj?
    requires forall k :: k in keys ==> k in obj.fields
    ensures r == Fill(sorted, obj, Middle(keys, top, bottom), opts)
    decreases obj, 1
  {
    r := sorted;
    var i := 0;
    while i < |keys|
      invariant 0 <= i <= |keys|
      invariant r == Fill(sorted, obj, Middle(keys[..i], top, bottom), opts)
    {
      var key := keys[i];
      MiddleStep(sorted, obj, keys, i, top, bottom, opts);
      if key !in top && key !in bottom {
        r := Add(r, obj, key, opts);
      }
      i := i + 1;
    }
    assert keys[..i] == keys;
  }

  /** `sortKeys(obj, options)`: top keys, then the other keys in comparer
      order, then bottom keys, each added to a fresh object. */
  method SortKeys(obj: Json, opts: SortOptions) returns (sorted: Json)
    requires obj.Obj?
    ensures sorted == SortedKeys(obj, opts)
    decreases obj, 2
  {
    sorted := AddPinned(EmptyObj, obj, opts.top, opts);
    var keys := SortStrings(obj.keys, opts.comparer);
    SortedOwnKeys(obj, opts.comparer);
    sorted := AddUnpinned(sorted, obj, keys, opts.top, opts.bottom, opts);
    sorted := AddPinned(sorted, obj, opts.bottom, opts);
    assert sorted == Fill(AfterMiddle(obj, opts), obj, PresentIn(opts.bottom, obj), opts);
  }
}

/** What `sortKeys` promises about the object it returns. */
module KeySortFacts {
  import opened Values
  import opened Host
  import opened KeySort

  /** `add` stores each name of `ks` with its (possibly sorted) value and
      leaves the other properties alone. */
  lemma {:induction false} FillFields(start: Json, obj: Json, ks: seq<string>, opts: SortOptions)
    requires start.Obj? && obj.Obj?
    requires forall k :: k in ks ==> k in obj.fields
    ensures forall k :: k in Fill(start, obj, ks, opts).fields <==> k in start.fields || k in ks
    ensures forall k :: k in ks ==> Fill(start, obj, ks, opts).fields[k] == Child(obj.fields[k], opts)
    ensures forall k :: k !in ks && k in start.fields ==> Fill(start, obj, ks, opts).fields[k] == start.fields[k]
    decreases |ks|
  {
    if ks != [] {
      var init := ks[..|ks| - 1];
      assert ks == init + [ks[|ks| - 1]];
      FillFields(start, obj, init, opts);
    }
  }

  /** `add` keeps the keys already there in place and appends each new name
      once, at its first occurrence. */
  lemma {:induction false} FillKeys(start: Json, obj: Json, ks: seq<string>, opts: SortOptions)
    requires start.Obj? && obj.Obj?
    requires forall k :: k in ks ==> k in obj.fields
    ensures Fill(start, obj, ks, opts).keys == start.keys + New(start.keys, ks)
    decreases |ks|
  {
    if ks != [] {
      var init := ks[..|ks| - 1];
      var k := ks[|ks| - 1];
      InitIn(ks, obj.fields);
      FillKeys(start, obj, init, opts);
      FillFields(start, obj, init, opts);
      var f := Fill(start, obj, init, opts);
      NewSnoc(start.keys, ks);
      var p := New(start.keys, init);
      assert k in f.fields <==> k in start.keys || k in p;
      var r := Put(f, k, Child(obj.fields[k], opts));
      assert Fill(start, obj, ks, opts) == r;
      AppendOne(start.keys, p, k);
    }
  }

  lemma AppendOne(a: seq<string>, b: seq<string>, k: string)
    ensures a + (b + [k]) == (a + b) + [k]
  {
  }

  /** The names before the last of a list are among those of the list. */
  lemma InitIn(ks: seq<string>, m: map<string, Value>)
    requires ks != [] && forall k :: k in ks ==> k in m
    ensures forall k :: k in ks[..|ks| - 1] ==> k in m
  {
    forall k | k in ks[..|ks| - 1]
      ensures k in m
    {
      var j :| 0 <= j < |ks| - 1 && ks[j] == k;
      assert ks[j] in ks;
    }
  }

  /** One name more is new when neither `xs` nor the earlier names hold it. */
  lemma NewSnoc(xs: seq<string>, ks: seq<string>)
    requires ks != []
    ensures var p := New(xs, ks[..|ks| - 1]); var k := ks[|ks| - 1];
      New(xs, ks) == if k in xs || k in p then p else p + [k]
  {
  }

  /** Names none of which is among `xs`, listed once each, are all new. */
  lemma {:induction false} NewFresh(xs: seq<string>, ks: seq<string>)
    requires Distinct(ks) && forall k :: k in ks ==> k !in xs
    ensures New(xs, ks) == ks
    decreases |ks|
  {
    if ks != [] {
      var init := ks[..|ks| - 1];
      assert ks == init + [ks[|ks| - 1]];
      NewFresh(xs, init);
    }
  }

  /** What is new depends only on which of the names `xs` holds. */
  lemma {:induction false} NewSame(xs: seq<string>, ys: seq<string>, ks: seq<string>)
    requires forall k :: k in ks ==> (k in xs <==> k in ys)
    ensures New(xs, ks) == New(ys, ks)
    decreases |ks|
  {
    if ks != [] {
      var init := ks[..|ks| - 1];
      assert ks == init + [ks[|ks| - 1]];
      NewSame(xs, ys, init);
    }
  }

  lemma {:induction false} InsertDistinct(x: string, s: seq<string>, c: Comparer)
    requires Distinct(s) && x !in s
    ensures Distinct(Insert(x, s, c))
    decreases |s|
  {
    if s != [] && !InOrder(x, s[0], c) {
      InsertDistinct(x, s[1..], c);
      var rest := Insert(x, s[1..], c);
      assert s[0] !in multiset(rest) by {
        assert multiset(rest) == multiset(s[1..]) + multiset{x};
        assert s[0] !in s[1..];
      }
    }
  }

  /** Sorting a list of distinct keys repeats none. */
  lemma {:induction false} SortStringsDistinct(ks: seq<string>, c: Comparer)
    requires Distinct(ks)
    ensures Distinct(SortStrings(ks, c))
    decreases |ks|
  {
    if ks != [] {
      SortStringsDistinct(ks[1..], c);
      var rest := SortStrings(ks[1..], c);
      assert ks[0] !in multiset(rest) by {
        assert ks[0] !in ks[1..];
      }
      InsertDistinct(ks[0], rest, c);
    }
  }

  lemma {:induction false} MiddleDistinct(ks: seq<string>, top: seq<string>, bottom: seq<string>)
    requires Distinct(ks)
    ensures Distinct(Middle(ks, top, bottom))
    decreases |ks|
  {
    if ks != [] {
      var init := ks[..|ks| - 1];
      assert ks == init + [ks[|ks| - 1]];
      MiddleDistinct(init, top, bottom);
    }
  }

  /** Leaving keys out of a sorted list keeps it sorted. */
  lemma {:induction false} MiddleSorted(ks: seq<string>, top: seq<string>, bottom: seq<string>, c: Comparer)
    requires SortedBy(ks, c)
    ensures SortedBy(Middle(ks, top, bottom), c)
    decreases |ks|
  {
    if ks != [] {
      var init := ks[..|ks| - 1];
      var k := ks[|ks| - 1];
      assert ks == init + [k];
      MiddleSorted(init, top, bottom, c);
      var p := Middle(init, top, bottom);
      forall i | 0 <= i < |p|
        ensures InOrder(p[i], k, c)
      {
        assert p[i] in init;
        var m :| 0 <= m < |init| && init[m] == p[i];
        assert ks[m] == p[i];
      }
    }
  }

  /** `sortKeys` keeps exactly the keys of the object. */
  lemma SortKeysKeepsKeys(obj: Json, opts: SortOptions)
    requires obj.Obj?
    ensures forall k :: HasOwn(SortedKeys(obj, opts), k) <==> HasOwn(obj, k)
  {
    SortedOwnKeys(obj, opts.comparer);
    var ks := SortStrings(obj.keys, opts.comparer);
    var top := AfterTop(obj, opts);
    FillFields(EmptyObj, obj, PresentIn(opts.top, obj), opts);
    FillFields(top, obj, Middle(ks, opts.top, opts.bottom), opts);
    FillFields(AfterMiddle(obj, opts), obj, PresentIn(opts.bottom, obj), opts);
  }

  /** Each property keeps its value, except that a nested plain object is
      itself sorted when `deep` is set. */
  lemma SortKeysValues(obj: Json, opts: SortOptions)
    requires obj.Obj?
    ensures forall k :: HasOwn(obj, k) ==> Prop(SortedKeys(obj, opts), k) == Child(obj.fields[k], opts)
  {
    SortKeysKeepsKeys(obj, opts);
    SortedOwnKeys(obj, opts.comparer);
    var ks := SortStrings(obj.keys, opts.comparer);
    var top := AfterTop(obj, opts);
    FillFields(EmptyObj, obj, PresentIn(opts.top, obj), opts);
    FillFields(top, obj, Middle(ks, opts.top, opts.bottom), opts);
    FillFields(AfterMiddle(obj, opts), obj, PresentIn(opts.bottom, obj), opts);
  }

  /** The key order: the present top keys first (each once, in the order
      given), then the unpinned keys in comparer order, then the present
      bottom keys that are not also top keys (each once, in the order given). */
  lemma SortKeysOrder(obj: Json, opts: SortOptions)
    requires obj.Obj?
    ensures SortedKeys(obj, opts).keys
      == New([], PresentIn(opts.top, obj))
       + Middle(SortStrings(obj.keys, opts.comparer), opts.top, opts.bottom)
       + New(opts.top, PresentIn(opts.bottom, obj))
  {
    SortedOwnKeys(obj, opts.comparer);
    var ks := SortStrings(obj.keys, opts.comparer);
    var t := New([], PresentIn(opts.top, obj));
    var m := Middle(ks, opts.top, opts.bottom);
    var pb := PresentIn(opts.bottom, obj);
    FillKeys(EmptyObj, obj, PresentIn(opts.top, obj), opts);
    assert AfterTop(obj, opts).keys == t;
    SortStringsDistinct(obj.keys, opts.comparer);
    MiddleDistinct(ks, opts.top, opts.bottom);
    NewFresh(t, m);
    FillKeys(AfterTop(obj, opts), obj, m, opts);
    assert AfterMiddle(obj, opts).keys == t + m;
    NewSame(t + m, opts.top, pb);
    FillKeys(AfterMiddle(obj, opts), obj, pb, opts);
  }

  /** The unpinned keys sit in comparer order. */
  lemma SortKeysMiddleSorted(obj: Json, opts: SortOptions)
    requires obj.Obj?
    ensures SortedBy(Middle(SortStrings(obj.keys, opts.comparer), opts.top, opts.bottom), opts.comparer)
  {
    MiddleSorted(SortStrings(obj.keys, opts.comparer), opts.top, opts.bottom, opts.comparer);
  }
}
