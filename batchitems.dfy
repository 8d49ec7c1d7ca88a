/** Batch items: the `src`/`dest`/options records a batch task runs, built
    from a path string, a path list or an object with inline options. */
module BatchItems {
  import opened Wrappers
  import opened Text
  import opened Values
  import opened Host
  import opened Utils

  const InvalidItem := "Invalid batch item"

  /** A normalised batch item. */
  datatype BatchItem = BatchItem(src: Json, dest: Json, options: Json)

  /** `a || b`. */
  function Or(a: Json, b: Json): (r: Json)
    ensures Truthy(r) <==> Truthy(a) || Truthy(b)
    ensures Truthy(a) ==> r == a
  {
    if Truthy(a) then a else b
  }

  /** `s.split(srcSep)`: the pieces between commas, with the whitespace around
      each comma dropped. */
  function SrcList(s: string): (r: Value)
    ensures Wf(r) && r.Arr? && |r.items| == |SplitOn(s, ',')|
    ensures r.items == EnsureSrcArray(Str(s))
  {
    Arr(StrValues(SplitComma(s)))
  }

  /** What the `src` of an object item becomes: a list for a falsy or string
      value, the value itself otherwise. */
  function SrcOf(v: Value): (r: Value)
    ensures !Truthy(v) ==> r == Arr([])
    ensures Truthy(v) && !v.Str? ==> r == v
  {
    if !Truthy(v) then Arr([]) else if v.Str? then SrcList(v.s) else v
  }

  /** The `TypeError` of reading `item.src` on `null` or `undefined`. */
  function ReadOfUnset(item: Value): string {
    "Cannot read properties of " + (if item.Null? then "null" else "undefined") + " (reading 'src')"
  }

  /** The object item with its `src` made a list. */
  function ObjectPaths(item: Json): (r: Json)
    requires item.Obj?
    ensures r.Obj?
  {
    var v := Prop(item, "src");
    var level := if !Truthy(v) then Put(item, "src", Arr([])) else item;
    var w := Prop(level, "src");
    if w.Str? then Put(level, "src", SrcList(w.s)) else level
  }

  /** `{ src }`. */
  function SrcObject(src: Json): (r: Json)
    ensures IsObject(r) && r.keys == ["src"] && Prop(r, "src") == src
  {
    Obj(["src"], map["src" := src])
  }

  function NormalizedPaths(item: Json): (r: Result<Json>)
    ensures r.Err? <==> !IsSet(item)
  {
    if item.Arr? then Ok(SrcObject(item))
    else if item.Str? then Ok(SrcObject(SrcList(item.s)))
    else if !IsSet(item) then Err(ReadOfUnset(item))
    else if item.Obj? then Ok(ObjectPaths(item))
    else Ok(item)
  }

  /** `_normalizeBatchItemPaths(item)`: a list or string becomes `{ src }`; an
      object gets its `src` made a list in place; any other value is kept
      (assigning to a property of a primitive does nothing). */
  method NormalizeBatchItemPaths(item: Json) returns (r: Result<Json>)
    ensures r == NormalizedPaths(item)
  {
    if item.Arr? {
      return Ok(SrcObject(item));
    }
    if item.Str? {
      return Ok(SrcObject(SrcList(item.s)));
    }
    if !IsSet(item) {
      return Err(ReadOfUnset(item));
    }
    var level := item;
    if level.Obj? {
      if !Truthy(Prop(level, "src")) {
        level := Put(level, "src", Arr([]));
      }
      var v := Prop(level, "src");
      if v.Str? {
        level := Put(level, "src", SrcList(v.s));
      }
    }
    return Ok(level);
  }

  /** An object item gets `src` as `SrcOf` makes it. */
  lemma ObjectPathsSrc(item: Json)
    requires item.Obj?
    ensures Prop(ObjectPaths(item), "src") == SrcOf(Prop(item, "src"))
  {
  }

  /** An object item keeps every other property, and keeps its key order,
      `src` going last when it was missing. */
  lemma ObjectPathsOthers(item: Json)
    requires item.Obj?
    ensures forall k :: k != "src" ==> Prop(ObjectPaths(item), k) == Prop(item, k)
    ensures forall k :: k != "src" ==> (HasOwn(ObjectPaths(item), k) <==> HasOwn(item, k))
    ensures HasOwn(item, "src") ==> ObjectPaths(item).keys == item.keys
    ensures !HasOwn(item, "src") ==> ObjectPaths(item).keys == item.keys + ["src"]
  {
  }

  /** An object's `src` that is falsy but not the empty string, a non-empty
      string or a list ends up as `ensureSrcArray` makes it. */
  lemma SrcOfEnsureSrcArray(v: Value)
    requires !Truthy(v) || v.Str? || v.Arr?
    requires v != Str("")
    ensures SrcOf(v) == Arr(EnsureSrcArray(v))
  {
  }

  /** `const { src, dest, ...itemOpts } = item`: the rest of a plain object
      without `src` and `dest`; nothing for other values. */
  function RestOf(item: Json): (r: Json)
    ensures IsObject(r)
    ensures forall k :: HasOwn(r, k) <==> HasOwn(item, k) && k != "src" && k != "dest"
    ensures forall k :: HasOwn(r, k) ==> Prop(r, k) == Prop(item, k)
  {
    if item.Obj? then Delete(Delete(item, "src"), "dest") else EmptyObj
  }

  /** `{ ...globalOpts, ...itemOpts }`: the global options but `dest`, under
      the item's own options but `src` and `dest`. */
  function MergedItemOptions(global: Json, it: Json): (r: Json)
    requires IsObject(global)
  {
    Spread(Spread(EmptyObj, Delete(global, "dest")), RestOf(it))
  }

  function NormalizedItem(item: Json, globalOptions: Json, globalDest: Json): (r: Result<BatchItem>)
    ensures r.Err? <==> !Truthy(item)
    ensures r.Err? ==> r.msg == InvalidItem
  {
    if !Truthy(item) then Err(InvalidItem)
    else
      var it := NormalizedPaths(item).value;
      var global := OrEmpty(globalOptions);
      Ok(BatchItem(Prop(it, "src"), Or(Or(Prop(it, "dest"), Prop(global, "dest")), globalDest), MergedItemOptions(global, it)))
  }

  /** `normalizeBatchItem(item, globalOptions, globalDest)`. */
  method NormalizeBatchItem(item: Json, globalOptions: Json, globalDest: Json) returns (r: Result<BatchItem>)
    ensures r == NormalizedItem(item, globalOptions, globalDest)
  {
    if !Truthy(item) {
      return Err(InvalidItem);
    }
    var paths := NormalizeBatchItemPaths(item);
    var it := paths.value;
    var src, dest := Prop(it, "src"), Prop(it, "dest");
    var global := OrEmpty(globalOptions);
    var globalOptsDest := Prop(global, "dest");
    var options := MergedItemOptions(global, it);
    return Ok(BatchItem(src, Or(Or(dest, globalOptsDest), globalDest), options));
  }

  /** The item's paths: a string is split on commas, a list is kept, an
      object's `src` is made a list. */
  lemma NormalizedItemSrc(item: Json, globalOptions: Json, globalDest: Json)
    requires Truthy(item)
    ensures NormalizedItem(item, globalOptions, globalDest).value.src
      == if item.Obj? then SrcOf(Prop(item, "src"))
         else if item.Arr? then item
         else if item.Str? then SrcList(item.s)
         else Undefined
  {
    if item.Obj? {
      ObjectPathsSrc(item);
    }
  }

  /** The destination: the item's own, else the global options', else the
      global destination. */
  lemma NormalizedItemDest(item: Json, globalOptions: Json, globalDest: Json)
    requires Truthy(item)
    ensures NormalizedItem(item, globalOptions, globalDest).value.dest
      == Or(Or(Prop(item, "dest"), Prop(globalOptions, "dest")), globalDest)
  {
    PathsKeepDest(item);
    assert Prop(OrEmpty(globalOptions), "dest") == Prop(globalOptions, "dest");
  }

  lemma PathsKeepDest(item: Json)
    requires IsSet(item)
    ensures Prop(NormalizedPaths(item).value, "dest") == Prop(item, "dest")
  {
    if item.Obj? {
      ObjectPathsOthers(item);
    }
  }

  /** The inline options of an item: its own keys other than `src` and `dest`. */
  lemma ItemOptions(item: Json)
    requires IsSet(item)
    ensures forall k :: HasOwn(RestOf(NormalizedPaths(item).value), k) <==> HasOwn(item, k) && k != "src" && k != "dest"
    ensures forall k :: HasOwn(RestOf(NormalizedPaths(item).value), k) ==> Prop(RestOf(NormalizedPaths(item).value), k) == Prop(item, k)
  {
    if item.Obj? {
      ObjectPathsOthers(item);
    }
  }

  /** The global options without `dest`. */
  lemma GlobalOptions(globalOptions: Json)
    ensures forall k :: (Prop(Spread(EmptyObj, Delete(OrEmpty(globalOptions), "dest")), k)
      == if k == "dest" then Undefined else Prop(globalOptions, k))
  {
  }

  /** The options: the global options without `dest`, overridden by the
      item's inline keys other than `src` and `dest`. */
  lemma NormalizedItemOptions(item: Json, globalOptions: Json, globalDest: Json)
    requires Truthy(item)
    ensures forall k :: (Prop(NormalizedItem(item, globalOptions, globalDest).value.options, k)
      == if k == "dest" then Undefined
         else if k != "src" && HasOwn(item, k) then item.fields[k]
         else Prop(globalOptions, k))
  {
    ItemOptions(item);
    GlobalOptions(globalOptions);
  }
}
