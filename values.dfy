/** JavaScript values as the library sees them: JSON data, plus `undefined`,
    the non-finite numbers and the distinction between integral and other
    numbers. Plain objects keep their own key order next to a key-to-value map. */
module Values {
  import opened Text

  datatype Value =
    | Undefined
    | Null
    | Bool(b: bool)
      /** An integral number. */
    | Num(n: int)
      /** A finite number with a fractional part, by its canonical JavaScript text. */
    | Float(text: string)
    | Inf(negative: bool)
    | NaN
    | Str(s: string)
    | Arr(items: seq<Value>)
      /** A plain object: its own keys in insertion order and their values. */
    | Obj(keys: seq<string>, fields: map<string, Value>)

  const EmptyObj: Value := Obj([], map[])

  predicate Distinct(ks: seq<string>) {
    forall i, j :: 0 <= i < j < |ks| ==> ks[i] != ks[j]
  }

  /** Keys listed once each, exactly the keys of the map, at every depth. */
  predicate Wf(v: Value) {
    match v
    case Arr(items) => forall i :: 0 <= i < |items| ==> Wf(items[i])
    case Obj(keys, fields) =>
      Distinct(keys) && (forall k :: k in keys ==> k in fields) && (forall k :: k in fields ==> k in keys)
      && (forall k :: k in fields ==> Wf(fields[k]))
    case _ => true
  }

  /** A well-formed plain object. */
  predicate IsObject(v: Value) {
    v.Obj? && Wf(v)
  }

  /** JavaScript truthiness (`Boolean(v)`). */
  predicate Truthy(v: Value) {
    match v
    case Undefined => false
    case Null => false
    case Bool(b) => b
    case Num(n) => n != 0
    case NaN => false
    case Str(s) => s != ""
    case _ => true
  }

  /** `v !== null && v !== undefined`. */
  predicate IsSet(v: Value) {
    !v.Undefined? && !v.Null?
  }

  predicate IsNumber(v: Value) {
    v.Num? || v.Float? || v.Inf? || v.NaN?
  }

  /** The library's `type()` helper: the lower-cased internal class name. */
  function TypeName(v: Value): (r: string)
    ensures r == "object" <==> v.Obj?
    ensures r == "array" <==> v.Arr?
  {
    match v
    case Undefined => "undefined"
    case Null => "null"
    case Bool(_) => "boolean"
    case Str(_) => "string"
    case Arr(_) => "array"
    case Obj(_, _) => "object"
    case _ => "number"
  }

  /** Reading `v[k]` on a value that is not `null` or `undefined`. Only the
      own properties of plain objects are modelled. */
  function Prop(v: Value, k: string): (r: Value)
    ensures Wf(v) ==> Wf(r)
  {
    if v.Obj? && k in v.fields then v.fields[k] else Undefined
  }

  /** `Object.prototype.hasOwnProperty.call(v, k)` on a plain object. */
  predicate HasOwn(v: Value, k: string) {
    v.Obj? && k in v.fields
  }

  lemma DistinctAppend(ks: seq<string>, k: string)
    requires Distinct(ks) && k !in ks
    ensures Distinct(ks + [k])
  {
  }

  /** `o[k] = v`: an existing key keeps its place, a new key goes last. */
  function Put(o: Value, k: string, v: Value): (r: Value)
    requires IsObject(o) && Wf(v)
    ensures IsObject(r)
    ensures r.fields == o.fields[k := v]
    ensures k in o.fields ==> r.keys == o.keys
    ensures k !in o.fields ==> r.keys == o.keys + [k]
  {
    if k in o.fields then Obj(o.keys, o.fields[k := v])
    else
      DistinctAppend(o.keys, k);
      Obj(o.keys + [k], o.fields[k := v])
  }

  /** The keys of `ks` other than `k`, in order. */
  function Without(ks: seq<string>, k: string): (r: seq<string>)
    ensures forall x :: x in r <==> x in ks && x != k
    ensures Distinct(ks) ==> Distinct(r)
    ensures k !in ks ==> r == ks
  {
    if ks == [] then []
    else if ks[0] == k then Without(ks[1..], k)
    else
      var rest := Without(ks[1..], k);
      assert Distinct(ks) ==> ks[0] !in ks[1..];
      [ks[0]] + rest
  }

  /** `delete o[k]`. */
  function Delete(o: Value, k: string): (r: Value)
    requires IsObject(o)
    ensures IsObject(r)
    ensures r.keys == Without(o.keys, k)
    ensures r.fields == o.fields - {k}
    ensures k !in o.fields ==> r == o
  {
    Obj(Without(o.keys, k), o.fields - {k})
  }

  /** Copies the own keys `ks` of `src` onto `o`, in order, as `{...o, ...src}`
      does for a plain object `src`. */
  function PutAll(o: Value, ks: seq<string>, src: map<string, Value>): (r: Value)
    requires IsObject(o)
    requires forall k :: k in ks ==> k in src && Wf(src[k])
    ensures IsObject(r)
    ensures forall k :: k in r.fields <==> k in o.fields || k in ks
    ensures forall k :: k in r.fields ==> r.fields[k] == if k in ks then src[k] else o.fields[k]
    ensures |r.keys| >= |o.keys| && r.keys[..|o.keys|] == o.keys
    decreases |ks|
  {
    if ks == [] then o
    else
      var o' := Put(o, ks[0], src[ks[0]]);
      assert o'.keys[..|o.keys|] == o.keys;
      var r := PutAll(o', ks[1..], src);
      assert forall k :: k in ks <==> k == ks[0] || k in ks[1..];
      r
  }

  /** `{ ...a, ...b }` for a plain object `a`: the keys of `b` override those
      of `a`. Spreading `null`, `undefined`, a number or a boolean adds
      nothing. The model assumes `b` is one of those or a plain object: a
      string or an array, which would add its indices as keys, is read as
      adding nothing. */
  function Spread(a: Value, b: Value): (r: Value)
    requires IsObject(a) && Wf(b)
    ensures IsObject(r)
    ensures forall k :: Prop(r, k) == if HasOwn(b, k) then b.fields[k] else Prop(a, k)
    ensures forall k :: HasOwn(r, k) <==> HasOwn(a, k) || HasOwn(b, k)
    ensures |r.keys| >= |a.keys| && r.keys[..|a.keys|] == a.keys
  {
    if b.Obj? then PutAll(a, b.keys, b.fields) else a
  }

  /** `v || {}` where `v` is then spread or read. The model assumes `v` is a
      plain object or holds no keys of its own: a string or an array, whose
      indices JavaScript would spread as keys, is read as contributing none. */
  function OrEmpty(v: Value): (r: Value)
    requires Wf(v)
    ensures IsObject(r)
    ensures forall k :: HasOwn(r, k) <==> HasOwn(v, k)
    ensures forall k :: Prop(r, k) == Prop(v, k)
  {
    if v.Obj? then v else EmptyObj
  }

  /** Copying a well-formed object into an empty one gives back the object. */
  lemma {:induction false} PutAllFresh(o: Value, ks: seq<string>, src: map<string, Value>)
    requires IsObject(o) && Distinct(o.keys + ks)
    requires forall k :: k in ks ==> k in src && Wf(src[k])
    ensures PutAll(o, ks, src).keys == o.keys + ks
    decreases |ks|
  {
    if ks != [] {
      var k := ks[0];
      assert (o.keys + ks)[|o.keys|] == k;
      assert forall i :: 0 <= i < |o.keys| ==> (o.keys + ks)[i] == o.keys[i];
      assert k !in o.keys;
      var o' := Put(o, k, src[k]);
      assert o'.keys == o.keys + [k];
      assert o'.keys + ks[1..] == o.keys + ks;
      PutAllFresh(o', ks[1..], src);
    }
  }

  /** `String(v)`. */
  function StringOf(v: Value): string
  {
    match v
    case Undefined => "undefined"
    case Null => "null"
    case Bool(b) => if b then "true" else "false"
    case Num(n) => IntToDecimal(n)
    case Float(t) => t
    case Inf(neg) => if neg then "-Infinity" else "Infinity"
    case NaN => "NaN"
    case Str(s) => s
    case Arr(items) => JoinItems(items)
    case Obj(_, _) => "[object Object]"
  }

  /** `Array.prototype.join(',')`: `null` and `undefined` items print as empty. */
  function JoinItems(items: seq<Value>): string
    decreases items
  {
    if items == [] then ""
    else
      var first := if IsSet(items[0]) then StringOf(items[0]) else "";
      if |items| == 1 then first else first + "," + JoinItems(items[1..])
  }

  /** Strings as values, element by element. */
  function StrValues(ss: seq<string>): (r: seq<Value>)
    ensures |r| == |ss| && forall i :: 0 <= i < |ss| ==> r[i] == Str(ss[i])
  {
    if ss == [] then [] else [Str(ss[0])] + StrValues(ss[1..])
  }

  /** An object built from key/value pairs with distinct keys. */
  function ObjOf(pairs: seq<(string, Value)>): (r: Value)
    requires forall i :: 0 <= i < |pairs| ==> Wf(pairs[i].1)
    ensures IsObject(r)
    ensures forall i :: 0 <= i < |pairs| ==> pairs[i].0 in r.fields
  {
    if pairs == [] then EmptyObj
    else
      var rest := ObjOf(pairs[..|pairs| - 1]);
      var last := pairs[|pairs| - 1];
      Put(rest, last.0, last.1)
  }
}
