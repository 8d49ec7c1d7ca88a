/** Dot-notation access to nested plain objects (`get`, `set`, `remove`), the
    list forms `setProps` and `removeProps`, and the property pickers `pick`
    and `pickOptsFromArgv`. An object is a value here: where the library
    changes an object in place, the model returns the changed object. */
module Notation {
  import opened Wrappers
  import opened Text
  import opened Values
  import opened Host
  import opened Utils
  import opened Parser

  /** `notation.split('.')`. */
  function Props(notation: string): seq<string> {
    SplitOn(notation, '.')
  }

  /** Every name of the path is non-empty (`get` stops at an empty one). */
  predicate Names(props: seq<string>) {
    forall i :: 0 <= i < |props| ==> props[i] != ""
  }

  // ---------------------------------------------------------------- get

  /** `get(obj, props)`: the value at the path, `undefined` once the way
      leaves the plain objects or meets an empty name. */
  function Get(obj: Value, props: seq<string>): (r: Value)
    ensures Wf(obj) ==> Wf(r)
    decreases |props|
  {
    if !obj.Obj? || props == [] || props[0] == "" then Undefined
    else
      var o := Prop(obj, props[0]);
      if |props| > 1 then Get(o, props[1..]) else o
  }

  /** Reading a longer path is reading its last name in the value at the
      shorter one. */
  lemma {:induction false} GetSnoc(obj: Value, path: seq<string>, last: string)
    requires path != [] && Names(path) && last != ""
    ensures Get(obj, path + [last]) == var parent := Get(obj, path);
      if parent.Obj? then Prop(parent, last) else Undefined
    decreases |path|
  {
    var p := path + [last];
    if obj.Obj? {
      assert p[0] == path[0];
      if |path| > 1 {
        assert p[1..] == path[1..] + [last];
        assert Names(path[1..]);
        GetSnoc(Prop(obj, path[0]), path[1..], last);
      } else {
        assert p[1..] == [last];
      }
    }
  }

  // ---------------------------------------------------------------- set

  /** The `TypeError` of `hasOwnProperty` called on `null` or `undefined`. */
  const NullLevel: string := "Cannot convert undefined or null to object"

  /** The level `set` walks into below `note`: the existing value, or a fresh object. */
  function Next(level: Json, note: string): Json
    requires level.Obj?
  {
    if note in level.fields then Prop(level, note) else EmptyObj
  }

  /** The walk of `set` from `level` down `props`. An existing name is followed;
      a missing one gets a fresh object, or the value at the last name. The
      last name is assigned only when it is missing or `overwrite` is set.
      A `null` or `undefined` on the way throws, and any other value that is
      not a plain object silently drops the assignment. */
  function SetAt(level: Json, props: seq<string>, value: Json, overwrite: bool): Result<Json>
    decreases |props|
  {
    if props == [] then Ok(level)
    else if level.Null? || level.Undefined? then Err(NullLevel)
    else if !level.Obj? then Ok(level)
    else
      var note := props[0];
      if |props| == 1 then
        if note !in level.fields || overwrite then Ok(Put(level, note, value)) else Ok(level)
      else
        var next: Json := Next(level, note);
        match SetAt(next, props[1..], value, overwrite)
        case Ok(sub) => Ok(Put(level, note, sub))
        case Err(m) => Err(m)
  }

  /** `set(obj, notation, value, overwrite)`: a target that is not a plain
      object is given back as it is. */
  function Set(obj: Json, props: seq<string>, value: Json, overwrite: bool): (r: Result<Json>)
    ensures !obj.Obj? ==> r == Ok(obj)
    ensures r.Ok? ==> TypeName(r.value) == TypeName(obj)
  {
    if TypeName(obj) != "object" then Ok(obj) else SetAt(obj, props, value, overwrite)
  }

  /** The way to the last name meets plain objects only, as far as it exists. */
  predicate Open(level: Value, props: seq<string>)
    decreases |props|
  {
    level.Obj? && (|props| > 1 && props[0] in level.fields ==> Open(level.fields[props[0]], props[1..]))
  }

  /** Every name of the path exists. */
  predicate Has(level: Value, props: seq<string>)
    decreases |props|
  {
    level.Obj? && props != [] && props[0] in level.fields
    && (|props| > 1 ==> Has(level.fields[props[0]], props[1..]))
  }

  /** The walk below an object whose next level succeeds. */
  lemma SetAtStep(level: Json, props: seq<string>, value: Json, overwrite: bool, next: Json)
    requires level.Obj? && |props| > 1
    requires next == Next(level, props[0])
    requires SetAt(next, props[1..], value, overwrite).Ok?
    ensures SetAt(level, props, value, overwrite) == Ok(Put(level, props[0], SetAt(next, props[1..], value, overwrite).value))
  {
  }

  /** Reading below a name just written. */
  lemma GetPut(level: Json, props: seq<string>, sub: Json)
    requires level.Obj? && |props| > 1 && props[0] != ""
    ensures Get(Put(level, props[0], sub), props) == Get(sub, props[1..])
  {
  }

  /** The walk of `set` succeeds on an open path and leaves the value at its end. */
  lemma {:induction false} SetAtThenGet(level: Json, props: seq<string>, value: Json, overwrite: bool)
    requires Open(level, props) && Names(props) && props != []
    requires overwrite || !Has(level, props)
    ensures var r := SetAt(level, props, value, overwrite); r.Ok? && Get(r.value, props) == value
    decreases |props|
  {
    var note := props[0];
    if |props| > 1 {
      var rest := props[1..];
      var next: Json := Next(level, note);
      NextOpen(level, props, overwrite);
      SetAtThenGet(next, rest, value, overwrite);
      SetAtStep(level, props, value, overwrite, next);
      GetPut(level, props, SetAt(next, rest, value, overwrite).value);
    } else {
      SetAtLast(level, props, value, overwrite);
    }
  }

  /** Below the first name of an open path the rest of it is open, and
      missing unless `overwrite` is set. */
  lemma NextOpen(level: Json, props: seq<string>, overwrite: bool)
    requires Open(level, props) && Names(props) && |props| > 1
    requires overwrite || !Has(level, props)
    ensures Names(props[1..]) && Open(Next(level, props[0]), props[1..])
    ensures overwrite || !Has(Next(level, props[0]), props[1..])
  {
  }

  /** The last name of a path is written when it is missing or `overwrite`
      is set. */
  lemma SetAtLast(level: Json, props: seq<string>, value: Json, overwrite: bool)
    requires level.Obj? && |props| == 1 && props[0] != ""
    requires overwrite || !Has(level, props)
    ensures var r := SetAt(level, props, value, overwrite); r.Ok? && Get(r.value, props) == value
  {
    var r := Put(level, props[0], value);
    assert SetAt(level, props, value, overwrite) == Ok(r);
    assert Prop(r, props[0]) == value;
  }

  /** `get` reads back what `set` wrote, missing objects on the way being
      created, unless an existing value is kept for want of `overwrite`. */
  lemma SetThenGet(obj: Json, props: seq<string>, value: Json, overwrite: bool)
    requires Open(obj, props) && Names(props) && props != []
    requires overwrite || !Has(obj, props)
    ensures var r := Set(obj, props, value, overwrite); r.Ok? && Get(r.value, props) == value
  {
    SetAtThenGet(obj, props, value, overwrite);
  }

  /** Without `overwrite`, a path that exists all the way changes nothing. */
  lemma {:induction false} SetKeepsExisting(obj: Json, props: seq<string>, value: Json)
    requires Has(obj, props)
    ensures Set(obj, props, value, false) == Ok(obj)
    decreases |props|
  {
    var note := props[0];
    if |props| > 1 {
      var next: Json := Prop(obj, note);
      SetKeepsExisting(next, props[1..], value);
      assert obj.fields[note := next] == obj.fields;
    }
  }

  /** `overwrite` matters only for a path that exists all the way. */
  lemma {:induction false} OverwriteOnlyExisting(level: Json, props: seq<string>, value: Json)
    requires !Has(level, props)
    ensures SetAt(level, props, value, false) == SetAt(level, props, value, true)
    decreases |props|
  {
    if level.Obj? && |props| > 1 {
      var note := props[0];
      var next: Json := Next(level, note);
      OverwriteOnlyExisting(next, props[1..], value);
    }
  }

  /** The paths part at some name: neither is a prefix of the other. */
  predicate Diverge(p: seq<string>, q: seq<string>)
    decreases |p|
  {
    |p| > 0 && |q| > 0 && (p[0] != q[0] || Diverge(p[1..], q[1..]))
  }

  /** Nothing on the empty object. */
  lemma GetEmpty(q: seq<string>)
    ensures Get(EmptyObj, q) == Undefined
  {
    if q != [] && q[0] != "" && |q| > 1 {
      assert Prop(EmptyObj, q[0]) == Undefined;
    }
  }

  /** `set` leaves every path that parts from its own as it was. */
  lemma {:induction false} SetLeavesOthers(level: Json, props: seq<string>, q: seq<string>, value: Json, overwrite: bool)
    requires Diverge(props, q) && SetAt(level, props, value, overwrite).Ok?
    ensures Get(SetAt(level, props, value, overwrite).value, q) == Get(level, q)
    decreases |props|
  {
    if level.Obj? && q[0] != "" {
      var note := props[0];
      var r := SetAt(level, props, value, overwrite).value;
      if note == q[0] {
        var next: Json := Next(level, note);
        SetLeavesOthers(next, props[1..], q[1..], value, overwrite);
        if note !in level.fields {
          GetEmpty(q[1..]);
        }
      } else {
        assert Prop(r, q[0]) == Prop(level, q[0]);
      }
    }
  }

  /** A `null` or `undefined` on the way makes `set` throw. */
  lemma SetThroughNull(obj: Json, props: seq<string>, value: Json, overwrite: bool)
    requires obj.Obj? && |props| > 1 && props[0] in obj.fields
    requires obj.fields[props[0]].Null? || obj.fields[props[0]].Undefined?
    ensures Set(obj, props, value, overwrite) == Err(NullLevel)
  {
    assert TypeName(obj) == "object";
    assert SetAt(obj.fields[props[0]], props[1..], value, overwrite) == Err(NullLevel);
  }

  // ---------------------------------------------------------------- remove

  /** `delete parent[last]` on the object at `path` below `level`. */
  function DeleteAt(level: Json, path: seq<string>, last: string): Json
    decreases |path|
  {
    if !level.Obj? then level
    else if path == [] then Delete(level, last)
    else if path[0] in level.fields then Put(level, path[0], DeleteAt(Prop(level, path[0]), path[1..], last))
    else level
  }

  /** `remove(obj, notation)`: the removed value, and the object afterwards. */
  function Remove(obj: Json, props: seq<string>): (Json, Json)
  {
    if !obj.Obj? then (Undefined, obj)
    else if |props| == 1 then (Prop(obj, props[0]), Delete(obj, props[0]))
    else if props == [] then (Undefined, obj)
    else
      var path := props[..|props| - 1];
      var last := props[|props| - 1];
      var parent := Get(obj, path);
      if parent.Obj? then (Prop(parent, last), DeleteAt(obj, path, last)) else (Undefined, obj)
  }

  lemma SplitLast(props: seq<string>)
    requires |props| > 1
    ensures props == props[..|props| - 1] + [props[|props| - 1]]
  {
  }

  /** `remove` returns the value that was at the path. */
  lemma RemoveReturnsOld(obj: Json, props: seq<string>)
    requires Names(props) && props != []
    ensures Remove(obj, props).0 == Get(obj, props)
  {
    if obj.Obj? && |props| > 1 {
      SplitLast(props);
      GetSnoc(obj, props[..|props| - 1], props[|props| - 1]);
    }
  }

  /** The object at `path` loses exactly the name `last`. */
  lemma {:induction false} DeleteAtGet(level: Json, path: seq<string>, last: string)
    requires path != [] && Names(path) && Get(level, path).Obj?
    ensures Get(DeleteAt(level, path, last), path) == Delete(Get(level, path), last)
    decreases |path|
  {
    if |path| > 1 {
      assert Names(path[1..]);
      DeleteAtGet(Prop(level, path[0]), path[1..], last);
    }
  }

  /** After `remove` nothing is left at the path. */
  lemma RemoveThenGet(obj: Json, props: seq<string>)
    requires Names(props) && props != []
    ensures Get(Remove(obj, props).1, props) == Undefined
  {
    if obj.Obj? && |props| > 1 {
      var path := props[..|props| - 1];
      var last := props[|props| - 1];
      SplitLast(props);
      GetSnoc(Remove(obj, props).1, path, last);
      if Get(obj, path).Obj? {
        DeleteAtGet(obj, path, last);
      } else {
        GetSnoc(obj, path, last);
      }
    }
  }

  /** `delete` on the way to `path + [last]` leaves every path that parts from it. */
  lemma {:induction false} DeleteAtLeavesOthers(level: Json, path: seq<string>, last: string, q: seq<string>)
    requires Diverge(path + [last], q)
    ensures Get(DeleteAt(level, path, last), q) == Get(level, q)
    decreases |path|
  {
    if level.Obj? && q[0] != "" {
      if path == [] {
        DeleteAtTop(level, last, q);
      } else if path[0] == q[0] && path[0] in level.fields {
        TailSnoc(path, last);
        assert |q| > 1;
        var sub := Prop(level, path[0]);
        DeleteAtLeavesOthers(sub, path[1..], last, q[1..]);
        GetPut(level, q, DeleteAt(sub, path[1..], last));
      } else if path[0] in level.fields {
        DeleteAtAside(level, path, last, q);
      }
    }
  }

  /** `delete` at the top leaves the paths that start with another name. */
  lemma DeleteAtTop(level: Json, last: string, q: seq<string>)
    requires level.Obj? && Diverge([last], q)
    ensures Get(DeleteAt(level, [], last), q) == Get(level, q)
  {
    assert last != q[0] by {
      assert !Diverge([last][1..], q[1..]);
    }
    var d := Delete(level, last);
    assert Prop(d, q[0]) == Prop(level, q[0]);
    SameFirstProp(d, level, q);
  }

  /** `delete` below another first name leaves the path as it was. */
  lemma DeleteAtAside(level: Json, path: seq<string>, last: string, q: seq<string>)
    requires level.Obj? && path != [] && q != [] && path[0] != q[0] && path[0] in level.fields
    ensures Get(DeleteAt(level, path, last), q) == Get(level, q)
  {
    var d := Put(level, path[0], DeleteAt(Prop(level, path[0]), path[1..], last));
    assert Prop(d, q[0]) == Prop(level, q[0]);
    SameFirstProp(d, level, q);
  }

  lemma TailSnoc(path: seq<string>, last: string)
    requires path != []
    ensures (path + [last])[0] == path[0] && (path + [last])[1..] == path[1..] + [last]
  {
  }

  /** `remove` leaves every path that parts from its own as it was. */
  lemma RemoveLeavesOthers(obj: Json, props: seq<string>, q: seq<string>)
    requires Diverge(props, q)
    ensures Get(Remove(obj, props).1, q) == Get(obj, q)
  {
    if obj.Obj? && |props| == 1 {
      assert props[0] != q[0] by {
        assert !Diverge(props[1..], q[1..]);
      }
      DeleteLeavesOthers(obj, props[0], q);
    } else if obj.Obj? && |props| > 1 {
      RemoveDeepLeavesOthers(obj, props, q);
    }
  }

  /** `delete` of one name leaves every path that starts with another. */
  lemma DeleteLeavesOthers(obj: Json, name: string, q: seq<string>)
    requires obj.Obj? && q != [] && name != q[0]
    ensures Get(Remove(obj, [name]).1, q) == Get(obj, q)
  {
    var d := Delete(obj, name);
    assert Remove(obj, [name]).1 == d;
    assert Prop(d, q[0]) == Prop(obj, q[0]);
    SameFirstProp(d, obj, q);
  }

  /** `remove` below the top level leaves every path that parts from its own. */
  lemma RemoveDeepLeavesOthers(obj: Json, props: seq<string>, q: seq<string>)
    requires obj.Obj? && |props| > 1 && Diverge(props, q)
    ensures Get(Remove(obj, props).1, q) == Get(obj, q)
  {
    var path := props[..|props| - 1];
    var last := props[|props| - 1];
    SplitLast(props);
    if Get(obj, path).Obj? {
      assert Remove(obj, props).1 == DeleteAt(obj, path, last);
      DeleteAtLeavesOthers(obj, path, last, q);
    } else {
      assert Remove(obj, props).1 == obj;
    }
  }

  /** Two objects that agree on the first name of a path agree on the path. */
  lemma SameFirstProp(a: Value, b: Value, q: seq<string>)
    requires a.Obj? && b.Obj? && q != [] && Prop(a, q[0]) == Prop(b, q[0])
    ensures Get(a, q) == Get(b, q)
  {
  }

  // ---------------------------------------------------------------- setProps

  /** The value a `"notation:value"` pair sets: the text after the first ':'
      or '=', auto-parsed, kept as text when it does not parse, and `null`
      when there is none. */
  function PairValue(env: Env, sp: seq<string>): (v: Json)
    ensures |sp| < 2 || sp[1] == "" ==> v == Null
  {
    var value: Json := if |sp| == 2 && sp[1] != "" then Str(sp[1]) else Null;
    var res := ParseSafe(env, value, "");
    if res.0.Some? then value else res.1
  }

  /** One pair text set on the object: the notation before the first ':' or '='. */
  function SetPair(env: Env, obj: Json, item: string, overwrite: bool): Result<Json> {
    var sp := SplitFirstAssign(Trim(item));
    Set(obj, Props(sp[0]), PairValue(env, sp), overwrite)
  }

  /** The pair texts set one after the other; the first `set` that throws ends it. */
  function SetPairs(env: Env, obj: Json, items: seq<string>, overwrite: bool): Result<Json>
    decreases |items|
  {
    if items == [] then Ok(obj)
    else
      match SetPair(env, obj, items[0], overwrite)
      case Ok(o) => SetPairs(env, o, items[1..], overwrite)
      case Err(m) => Err(m)
  }

  /** The keys of a pairs object set one after the other with their values. */
  function SetEntries(obj: Json, keys: seq<string>, fields: map<string, Value>, overwrite: bool): Result<Json>
    requires forall k :: k in keys ==> k in fields && Wf(fields[k])
    decreases |keys|
  {
    if keys == [] then Ok(obj)
    else
      match Set(obj, Props(keys[0]), fields[keys[0]], overwrite)
      case Ok(o) => SetEntries(o, keys[1..], fields, overwrite)
      case Err(m) => Err(m)
  }

  /** The `forEach` over the pair texts of `setProps`. */
  method SetPairList(env: Env, obj: Json, items: seq<string>, overwrite: bool) returns (r: Result<Json>)
    ensures r == SetPairs(env, obj, items, overwrite)
  {
    var cur := obj;
    var i := 0;
    while i < |items|
      invariant 0 <= i <= |items|
      invariant SetPairs(env, cur, items[i..], overwrite) == SetPairs(env, obj, items, overwrite)
    {
      assert items[i..][1..] == items[i + 1..];
      var step := SetPair(env, cur, items[i], overwrite);
      if step.Err? {
        return Err(step.msg);
      }
      cur := step.value;
      i := i + 1;
    }
    assert items[i..] == [];
    return Ok(cur);
  }

  /** The `forEach` over the keys of a pairs object. */
  method SetEntryList(obj: Json, keys: seq<string>, fields: map<string, Value>, overwrite: bool) returns (r: Result<Json>)
    requires forall k :: k in keys ==> k in fields && Wf(fields[k])
    ensures r == SetEntries(obj, keys, fields, overwrite)
  {
    var cur := obj;
    var i := 0;
    while i < |keys|
      invariant 0 <= i <= |keys|
      invariant SetEntries(cur, keys[i..], fields, overwrite) == SetEntries(obj, keys, fields, overwrite)
    {
      assert keys[i..][1..] == keys[i + 1..];
      var key := keys[i];
      var step := Set(cur, Props(key), fields[key], overwrite);
      if step.Err? {
        return Err(step.msg);
      }
      cur := step.value;
      i := i + 1;
    }
    assert keys[i..] == [];
    return Ok(cur);
  }

  /** `setProps(obj, pairs, overwrite)`: pairs as a string or an array of
      `"notation:value"` texts (split on commas), or as an object. */
  method SetProps(env: Env, obj: Json, pairs: Json, overwrite: bool) returns (r: Result<Json>)
    ensures pairs.Str? || pairs.Arr? ==>
      r == SetPairs(env, obj, NormalizedStrings(EnsureArray(pairs), true), overwrite)
    ensures pairs.Obj? ==> r == SetEntries(obj, pairs.keys, pairs.fields, overwrite)
    ensures !pairs.Str? && !pairs.Arr? && !pairs.Obj? ==> r == Ok(obj)
  {
    if pairs.Str? || pairs.Arr? {
      var items := NormalizeStringArray(pairs, true);
      r := SetPairList(env, obj, items, overwrite);
    } else if pairs.Obj? {
      r := SetEntryList(obj, pairs.keys, pairs.fields, overwrite);
    } else {
      r := Ok(obj);
    }
  }

  /** What `setProps(obj, pairs, overwrite)` gives. */
  function PropsSet(env: Env, obj: Json, pairs: Json, overwrite: bool): Result<Json> {
    if pairs.Str? || pairs.Arr? then SetPairs(env, obj, NormalizedStrings(EnsureArray(pairs), true), overwrite)
    else if pairs.Obj? then SetEntries(obj, pairs.keys, pairs.fields, overwrite)
    else Ok(obj)
  }

  /** Pair texts set on a plain object leave a plain object. */
  lemma {:induction false} SetPairsObject(env: Env, obj: Json, items: seq<string>, overwrite: bool)
    requires obj.Obj? && SetPairs(env, obj, items, overwrite).Ok?
    ensures SetPairs(env, obj, items, overwrite).value.Obj?
    decreases |items|
  {
    if items != [] {
      SetPairsObject(env, SetPair(env, obj, items[0], overwrite).value, items[1..], overwrite);
    }
  }

  /** The entries of a pairs object set on a plain object leave a plain object. */
  lemma {:induction false} SetEntriesObject(obj: Json, keys: seq<string>, fields: map<string, Value>, overwrite: bool)
    requires forall k :: k in keys ==> k in fields && Wf(fields[k])
    requires obj.Obj? && SetEntries(obj, keys, fields, overwrite).Ok?
    ensures SetEntries(obj, keys, fields, overwrite).value.Obj?
    decreases |keys|
  {
    if keys != [] {
      SetEntriesObject(Set(obj, Props(keys[0]), fields[keys[0]], overwrite).value, keys[1..], fields, overwrite);
    }
  }

  /** `setProps` on a plain object leaves a plain object. */
  lemma PropsSetObject(env: Env, obj: Json, pairs: Json, overwrite: bool)
    requires obj.Obj? && PropsSet(env, obj, pairs, overwrite).Ok?
    ensures PropsSet(env, obj, pairs, overwrite).value.Obj?
  {
    if pairs.Str? || pairs.Arr? {
      SetPairsObject(env, obj, NormalizedStrings(EnsureArray(pairs), true), overwrite);
    } else if pairs.Obj? {
      SetEntriesObject(obj, pairs.keys, pairs.fields, overwrite);
    }
  }

  /** A plain name: one level, no dots. */
  predicate Flat(k: string) {
    '.' !in k
  }

  /** A pairs object with plain names, set with `overwrite`, gives each of its
      keys its value and leaves the other keys of the target. */
  lemma {:induction false} SetEntriesFlat(obj: Json, keys: seq<string>, fields: map<string, Value>)
    requires obj.Obj? && Distinct(keys)
    requires forall k :: k in keys ==> k in fields && Wf(fields[k]) && Flat(k)
    ensures SetEntries(obj, keys, fields, true).Ok?
    ensures forall k :: (Prop(SetEntries(obj, keys, fields, true).value, k) ==
      if k in keys then fields[k] else Prop(obj, k))
    decreases |keys|
  {
    if keys != [] {
      var k0 := keys[0];
      assert k0 in keys && Flat(k0);
      assert Props(k0) == [k0];
      var o := Put(obj, k0, fields[k0]);
      assert Set(obj, Props(k0), fields[k0], true) == Ok(o);
      assert Distinct(keys[1..]);
      SetEntriesFlat(o, keys[1..], fields);
      assert forall k :: k in keys <==> k == k0 || k in keys[1..];
      assert k0 !in keys[1..];
    }
  }

  /** `setProps` on a target that is not a plain object gives it back. */
  lemma {:induction false} SetPairsNonObject(env: Env, obj: Json, items: seq<string>, overwrite: bool)
    requires !obj.Obj?
    ensures SetPairs(env, obj, items, overwrite) == Ok(obj)
    decreases |items|
  {
    if items != [] {
      SetPairsNonObject(env, obj, items[1..], overwrite);
    }
  }

  // ---------------------------------------------------------------- removeProps

  /** The notations removed one after the other. */
  function RemoveAll(obj: Json, notations: seq<string>): Json
    decreases |notations|
  {
    if notations == [] then obj else RemoveAll(Remove(obj, Props(notations[0])).1, notations[1..])
  }

  /** `removeProps(obj, notationList)`, the list split on commas. */
  method RemoveProps(obj: Json, list: Json) returns (r: Json)
    ensures r == if obj.Obj? then RemoveAll(obj, NormalizedStrings(EnsureArray(list), true)) else obj
  {
    if !obj.Obj? {
      return obj;
    }
    var notations := NormalizeStringArray(list, true);
    if |notations| == 0 {
      return obj;
    }
    r := obj;
    var i := 0;
    while i < |notations|
      invariant 0 <= i <= |notations|
      invariant RemoveAll(r, notations[i..]) == RemoveAll(obj, notations)
    {
      assert notations[i..][1..] == notations[i + 1..];
      r := Remove(r, Props(notations[i])).1;
      i := i + 1;
    }
    assert notations[i..] == [];
  }

  /** Removing from a plain object leaves a plain object. */
  lemma {:induction false} RemoveAllObject(obj: Json, notations: seq<string>)
    requires obj.Obj?
    ensures RemoveAll(obj, notations).Obj?
    decreases |notations|
  {
    if notations != [] {
      var props := Props(notations[0]);
      if |props| > 1 {
        DeleteAtObject(obj, props[..|props| - 1], props[|props| - 1]);
      }
      RemoveAllObject(Remove(obj, props).1, notations[1..]);
    }
  }

  lemma {:induction false} DeleteAtObject(level: Json, path: seq<string>, last: string)
    requires level.Obj?
    ensures DeleteAt(level, path, last).Obj?
  {
  }

  /** Removing plain names deletes exactly those keys and keeps the others
      with their values. */
  lemma {:induction false} RemoveAllFlat(obj: Json, names: seq<string>)
    requires obj.Obj? && forall k :: k in names ==> Flat(k)
    ensures RemoveAll(obj, names).Obj?
    ensures forall k :: Prop(RemoveAll(obj, names), k) == if k in names then Undefined else Prop(obj, k)
    ensures forall k :: HasOwn(RemoveAll(obj, names), k) <==> HasOwn(obj, k) && k !in names
    decreases |names|
  {
    if names != [] {
      var k0 := names[0];
      assert k0 in names && Flat(k0);
      assert Props(k0) == [k0];
      var o := Delete(obj, k0);
      assert Remove(obj, Props(k0)).1 == o;
      RemoveAllFlat(o, names[1..]);
      assert forall k :: k in names <==> k == k0 || k in names[1..];
    }
  }

  // ---------------------------------------------------------------- pick

  /** A property `pick` copies: own, and defined unless undefined ones are kept. */
  predicate Picks(obj: Value, k: string, ignoreUndefined: bool) {
    HasOwn(obj, k) && (!ignoreUndefined || obj.fields[k] != Undefined)
  }

  /** `o` holds exactly the properties of `obj` that `pick` copies for the
      names `ks`, with their values. */
  ghost predicate PickedFrom(o: Value, obj: Value, ks: seq<string>, ignoreUndefined: bool) {
    IsObject(o)
    && (forall k :: HasOwn(o, k) <==> k in ks && Picks(obj, k, ignoreUndefined))
    && (forall k :: HasOwn(o, k) ==> o.fields[k] == obj.fields[k])
  }

  /** The copy step of `pick` for one name. */
  function PickOne(o: Json, obj: Json, key: string, ignoreUndefined: bool): (r: Json)
    requires IsObject(o)
    ensures IsObject(r)
    ensures Picks(obj, key, ignoreUndefined) ==> r.fields == o.fields[key := obj.fields[key]]
    ensures !Picks(obj, key, ignoreUndefined) ==> r == o
  {
    if Picks(obj, key, ignoreUndefined) then Put(o, key, obj.fields[key]) else o
  }

  /** One name more: copied when `pick` copies it. */
  lemma PickStep(o: Json, obj: Json, ks: seq<string>, key: string, ignoreUndefined: bool)
    requires PickedFrom(o, obj, ks, ignoreUndefined)
    ensures PickedFrom(PickOne(o, obj, key, ignoreUndefined), obj, ks + [key], ignoreUndefined)
  {
    assert forall k :: k in ks + [key] <==> k in ks || k == key;
  }

  /** `pick(obj, keys, ignoreUndefined)`; `hasOwnProperty` on `null` or
      `undefined` throws. */
  method Pick(obj: Json, keys: seq<string>, ignoreUndefined: bool) returns (r: Result<Json>)
    ensures r.Err? <==> !IsSet(obj) && keys != []
    ensures r.Ok? ==> PickedFrom(r.value, obj, keys, ignoreUndefined)
  {
    if !IsSet(obj) && keys != [] {
      return Err(NullLevel);
    }
    var o: Json := EmptyObj;
    var i := 0;
    while i < |keys|
      invariant 0 <= i <= |keys|
      invariant PickedFrom(o, obj, keys[..i], ignoreUndefined)
    {
      var key := keys[i];
      assert keys[..i + 1] == keys[..i] + [key];
      PickStep(o, obj, keys[..i], key, ignoreUndefined);
      o := PickOne(o, obj, key, ignoreUndefined);
      i := i + 1;
    }
    assert keys[..i] == keys;
    return Ok(o);
  }

  /** The option name `pickOptsFromArgv` reads for a key: the alias when it is
      a longer string, camel-cased. */
  function OptionName(key: string, alias: Value): (n: string)
    ensures alias.Str? && |alias.s| > |key| ==> n == CamelCase(alias.s)
    ensures !(alias.Str? && |alias.s| > |key|) ==> n == CamelCase(key)
  {
    CamelCase(if alias.Str? && |alias.s| > |key| then alias.s else key)
  }

  /** The option names of the entries of an options description, in order. */
  function OptionNames(meta: Value, keys: seq<string>): (r: seq<string>)
    ensures |r| == |keys|
  {
    if keys == [] then []
    else
      var key := keys[|keys| - 1];
      OptionNames(meta, keys[..|keys| - 1]) + [OptionName(key, Prop(Prop(meta, key), "alias"))]
  }

  /** Every entry of the options description is set. */
  predicate EntriesSet(meta: Value, keys: seq<string>) {
    forall j :: 0 <= j < |keys| ==> IsSet(Prop(meta, keys[j]))
  }


  lemma EntriesSetStep(meta: Value, ks: seq<string>, k: string)
    requires EntriesSet(meta, ks) && IsSet(Prop(meta, k))
    ensures EntriesSet(meta, ks + [k])
  {
  }

  /** The option name of the entry `keys[i]`. */
  function OptionNameAt(meta: Value, keys: seq<string>, i: nat): string
    requires i < |keys|
  {
    OptionName(keys[i], Prop(Prop(meta, keys[i]), "alias"))
  }

  /** What `pickOptsFromArgv` builds for the entries `keys`, one `pick`
      step per entry. */
  function PickedOpts(argv: Json, meta: Value, keys: seq<string>, ignoreUndefined: bool): (r: Json)
    ensures IsObject(r)
  {
    if keys == [] then EmptyObj
    else
      var o := PickedOpts(argv, meta, keys[..|keys| - 1], ignoreUndefined);
      PickOne(o, argv, OptionNameAt(meta, keys, |keys| - 1), ignoreUndefined)
  }

  /** The object built holds exactly the arguments under the option names. */
  lemma {:induction false} PickedOptsPicks(argv: Json, meta: Value, keys: seq<string>, ignoreUndefined: bool)
    ensures PickedFrom(PickedOpts(argv, meta, keys, ignoreUndefined), argv, OptionNames(meta, keys), ignoreUndefined)
    decreases |keys|
  {
    if keys != [] {
      var init := keys[..|keys| - 1];
      PickedOptsPicks(argv, meta, init, ignoreUndefined);
      PickStep(PickedOpts(argv, meta, init, ignoreUndefined), argv, OptionNames(meta, init),
        OptionNameAt(meta, keys, |keys| - 1), ignoreUndefined);
    }
  }

  /** One entry more extends the built object by one `pick` step. */
  lemma PickedOptsSnoc(argv: Json, meta: Value, keys: seq<string>, i: nat, ignoreUndefined: bool)
    requires i < |keys|
    ensures PickedOpts(argv, meta, keys[..i + 1], ignoreUndefined)
      == PickOne(PickedOpts(argv, meta, keys[..i], ignoreUndefined), argv, OptionNameAt(meta, keys, i), ignoreUndefined)
  {
    var ks := keys[..i + 1];
    assert ks[..|ks| - 1] == keys[..i];
  }


  lemma EntriesSetSnoc(meta: Value, keys: seq<string>, i: nat)
    requires i < |keys| && EntriesSet(meta, keys[..i]) && IsSet(Prop(meta, keys[i]))
    ensures EntriesSet(meta, keys[..i + 1])
  {
    assert keys[..i + 1] == keys[..i] + [keys[i]];
    EntriesSetStep(meta, keys[..i], keys[i]);
  }

  lemma UnsetEntry(meta: Value, keys: seq<string>, i: nat)
    requires i < |keys| && !IsSet(Prop(meta, keys[i]))
    ensures !EntriesSet(meta, keys)
  {
  }

  lemma WholePrefix(keys: seq<string>, i: nat)
    requires i == |keys|
    ensures keys[..i] == keys
  {
  }

  /** The `TypeError` of destructuring `alias` out of an entry that is
      `null` or `undefined`. */
  function NoAlias(entry: Value): string {
    "Cannot destructure property 'alias' of 'cmdOptsMeta[key]' as it is "
      + (if entry.Null? then "null" else "undefined") + "."
  }

  /** `pickOptsFromArgv(argv, cmdOptsMeta, ignoreUndefined)`: for each option
      described, the argument under its option name. */
  method PickOptsFromArgv(argv: Json, meta: Value, ignoreUndefined: bool) returns (r: Result<Json>)
    requires meta.Obj?
    ensures r.Err? <==> meta.keys != [] && (!IsSet(argv) || !EntriesSet(meta, meta.keys))
    ensures r.Ok? ==> r.value == PickedOpts(argv, meta, meta.keys, ignoreUndefined)
  {
    var keys := meta.keys;
    var o: Json := EmptyObj;
    var i := 0;
    while i < |keys|
      invariant 0 <= i <= |keys|
      invariant i > 0 ==> IsSet(argv)
      invariant EntriesSet(meta, keys[..i])
      invariant o == PickedOpts(argv, meta, keys[..i], ignoreUndefined)
    {
      var key := keys[i];
      var entry := Prop(meta, key);
      if !IsSet(entry) {
        UnsetEntry(meta, keys, i);
        return Err(NoAlias(entry));
      }
      if !IsSet(argv) {
        assert keys != [];
        return Err(NullLevel);
      }
      var k := OptionNameAt(meta, keys, i);
      EntriesSetSnoc(meta, keys, i);
      PickedOptsSnoc(argv, meta, keys, i, ignoreUndefined);
      o := PickOne(o, argv, k, ignoreUndefined);
      i := i + 1;
    }
    WholePrefix(keys, i);
    return Ok(o);
  }
}
