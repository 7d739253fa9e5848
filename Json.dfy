/** The JSON-like values the application receives from the proxy, read with
    JavaScript's rules: truthiness, `typeof`, property access, `Object.keys`,
    `String(v)` and `Number(v)`. Numbers are integers (see README). An object's
    fields are listed in `Object.keys` order, with distinct keys. */
module Json {
  import opened Wrappers
  import opened JsText

  datatype Json =
    | JNull
    | JBool(b: bool)
    | JNum(n: int)
    | JStr(s: string)
    | JArr(elems: seq<Json>)
    | JObj(fields: seq<Field>)

  datatype Field = Field(key: string, value: Json)

  /** `typeof v === "object"`: true for null, arrays and objects. */
  predicate TypeofObject(v: Json) {
    v.JNull? || v.JArr? || v.JObj?
  }

  /** `!!v`. */
  predicate Truthy(v: Json) {
    match v
    case JNull => false
    case JBool(b) => b
    case JNum(n) => n != 0
    case JStr(s) => s != ""
    case _ => true
  }

  /** `!!x` for a property read that may be `undefined` (None). */
  predicate TruthyOpt(x: Option<Json>) {
    x.Some? && Truthy(x.value)
  }

  /** Value of the first field named `k`. */
  function Lookup(fs: seq<Field>, k: string): Option<Json> {
    if |fs| == 0 then None
    else if fs[0].key == k then Some(fs[0].value)
    else Lookup(fs[1..], k)
  }

  /** `v.k` (or `v?.k`) for a key that is not an array index or `length`:
      a field of an object, and `undefined` for every other value. */
  function Get(v: Json, k: string): Option<Json> {
    if v.JObj? then Lookup(v.fields, k) else None
  }

  /** `Lookup` finds nothing when no field has the key. */
  lemma {:induction false} LookupAbsent(fs: seq<Field>, k: string)
    requires forall i :: 0 <= i < |fs| ==> fs[i].key != k
    ensures Lookup(fs, k).None?
  {
    if |fs| > 0 {
      assert fs[0].key != k;
      LookupAbsent(fs[1..], k);
    }
  }

  /** `Lookup` gives the value of the first field with the key. */
  lemma {:induction false} LookupFirst(fs: seq<Field>, k: string, i: nat)
    requires i < |fs| && fs[i].key == k
    requires forall j :: 0 <= j < i ==> fs[j].key != k
    ensures Lookup(fs, k) == Some(fs[i].value)
  {
    if i > 0 {
      assert fs[0].key != k;
      assert fs[1..][i - 1] == fs[i];
      LookupFirst(fs[1..], k, i - 1);
    }
  }

  /** `o?.k` where `o` itself may be `undefined`. */
  function GetOpt(o: Option<Json>, k: string): Option<Json> {
    if o.Some? then Get(o.value, k) else None
  }

  /** `a || b` where `a` is a property read: truthy exactly when either
      operand is, and always one of the two. */
  function OrElse(a: Option<Json>, b: Json): (r: Json)
    ensures Truthy(r) <==> TruthyOpt(a) || Truthy(b)
    ensures a == Some(r) || r == b
  {
    if TruthyOpt(a) then a.value else b
  }

  /** Number of own enumerable properties of an array or object. */
  function Count(v: Json): nat {
    match v
    case JArr(es) => |es|
    case JObj(fs) => |fs|
    case _ => 0
  }

  /** The `i`-th key of `Object.keys(v)`: an index for an array. */
  function KeyAt(v: Json, i: nat): string
    requires i < Count(v)
  {
    if v.JArr? then IntToString(i) else v.fields[i].key
  }

  /** `v[Object.keys(v)[i]]`. */
  function Child(v: Json, i: nat): (c: Json)
    requires i < Count(v)
  {
    if v.JArr? then v.elems[i] else v.fields[i].value
  }

  /** The pairs `[k, v[k]]` for `k` in `Object.keys(v)`; none for primitives
      (the callers never enumerate strings). */
  function OwnEntries(v: Json): (r: seq<Field>)
    ensures |r| == Count(v)
    ensures forall i :: 0 <= i < |r| ==> r[i] == Field(KeyAt(v, i), Child(v, i))
  {
    match v
    case JArr(es) => seq(|es|, i requires 0 <= i < |es| => Field(IntToString(i), es[i]))
    case JObj(fs) => fs
    case _ => []
  }

  /** Some node of the tree under `v` (itself included), reached through
      arrays and objects only, satisfies `p`. */
  ghost predicate SomeNode(v: Json, p: Json -> bool)
    decreases v
  {
    p(v) || exists i :: 0 <= i < Count(v) && SomeNodeChild(v, i, p)
  }

  ghost predicate SomeNodeChild(v: Json, i: nat, p: Json -> bool)
    requires i < Count(v)
    decreases v, 0
  {
    if v.JArr? then SomeNode(v.elems[i], p)
    else
      assert v.fields[i] in v.fields;
      SomeNode(v.fields[i].value, p)
  }

  /** `String(v)`: arrays are joined with commas (null elements give the empty
      string), other objects give "[object Object]". */
  function ToJsString(v: Json): string
    decreases v, 1
  {
    match v
    case JNull => "null"
    case JBool(b) => if b then "true" else "false"
    case JNum(n) => IntToString(n)
    case JStr(s) => s
    case JArr(es) => JoinElements(v, 0)
    case JObj(_) => "[object Object]"
  }

  /** The elements of array `v` from index `i`, as `Array.prototype.join`
      writes them. */
  function JoinElements(v: Json, i: nat): string
    requires v.JArr? && i <= |v.elems|
    decreases v, 0, |v.elems| - i
  {
    if i == |v.elems| then ""
    else
      var e := v.elems[i];
      var piece := if e.JNull? then "" else ToJsString(e);
      if i + 1 == |v.elems| then piece else piece + "," + JoinElements(v, i + 1)
  }

  /** `Number(v)`; `strToNum` is `Number` on strings, None for NaN. */
  function ToNumber(v: Json, strToNum: string -> Option<int>): Option<int> {
    match v
    case JNull => Some(0)
    case JBool(b) => Some(if b then 1 else 0)
    case JNum(n) => Some(n)
    case _ => strToNum(ToJsString(v))
  }

  /** `JSON.parse(String(v))` as the application calls it on a value that
      may not be a string. */
  function ParseValue(v: Json, parse: string -> Option<Json>): Option<Json> {
    parse(ToJsString(v))
  }
}
