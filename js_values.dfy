/** The loosely typed values the pages receive from the backend, with the few
    JavaScript operations the pages apply to them: truthiness, `??`, property
    access and `Object.entries`. */
module JsValues {

  /** A JSON value as `axios` hands it over, plus `undefined`, which is what a
      missing property reads as. An object's members are listed in the order
      the runtime enumerates them, each key once. */
  datatype Json =
    | Undefined
    | Null
    | Bool(b: bool)
    | Num(n: real)
    | Str(s: string)
    | Arr(items: seq<Json>)
    | Obj(members: seq<Member>)

  datatype Member = Member(key: string, value: Json)

  /** `null` or `undefined`: the values `??` and `?.` react to, and the values
      whose property access throws a TypeError. */
  predicate Nullish(j: Json) {
    j.Undefined? || j.Null?
  }

  /** JavaScript truthiness (JSON has no NaN). A truthy value is never null
      or undefined, so a property read guarded by it cannot throw; arrays
      and objects, even empty ones, are truthy. */
  predicate Truthy(j: Json): (b: bool)
    ensures b ==> !Nullish(j)
    ensures j.Arr? || j.Obj? ==> b
  {
    match j
    case Undefined => false
    case Null => false
    case Bool(b) => b
    case Num(n) => n != 0.0
    case Str(s) => s != ""
    case Arr(_) => true
    case Obj(_) => true
  }

  /** `x ?? d` */
  function OrElse(x: Json, d: Json): (r: Json)
    ensures !Nullish(x) ==> r == x
    ensures Nullish(x) ==> r == d
  {
    if Nullish(x) then d else x
  }

  /** The member value stored under `key` in `ms`, or `Undefined`. */
  function Lookup(ms: seq<Member>, key: string): (r: Json)
    ensures (forall i :: 0 <= i < |ms| ==> ms[i].key != key) ==> r == Undefined
  {
    if ms == [] then Undefined
    else if ms[0].key == key then ms[0].value
    else Lookup(ms[1..], key)
  }

  /** The value found is the one under the first member with that key. */
  lemma {:induction false} LookupFirst(ms: seq<Member>, key: string, i: nat)
    requires i < |ms| && ms[i].key == key
    requires forall k :: 0 <= k < i ==> ms[k].key != key
    ensures Lookup(ms, key) == ms[i].value
  {
    if i > 0 {
      LookupFirst(ms[1..], key, i - 1);
    }
  }

  /** `j[key]` for a value that is not `null`/`undefined` (the pages check for
      those first, because reading a property of them throws). The keys the
      pages read are none of the built-in properties of arrays, strings,
      numbers or booleans, so on those the read yields `undefined`. */
  function Prop(j: Json, key: string): (r: Json)
    ensures !j.Obj? ==> r == Undefined
    ensures j.Obj? ==> r == Lookup(j.members, key)
  {
    match j
    case Obj(ms) => Lookup(ms, key)
    case _ => Undefined
  }

  /** `x?.key`: `undefined` when `x` is null or undefined. */
  function OptProp(x: Json, key: string): (r: Json)
    ensures Nullish(x) ==> r == Undefined
    ensures !Nullish(x) ==> r == Prop(x, key)
  {
    if Nullish(x) then Undefined else Prop(x, key)
  }

  /** The decimal rendering of an index, as array indices appear as keys. */
  function IndexKey(n: nat): (s: string)
    ensures 0 < |s|
    ensures forall i :: 0 <= i < |s| ==> '0' <= s[i] <= '9'
    decreases n
  {
    var d := [(n % 10) as char + '0'];
    if n < 10 then d else IndexKey(n / 10) + d
  }

  /** `Object.entries(v)` for a truthy `v`: the members of an object in
      order, the indexed items of an array or the indexed characters of a
      string; numbers and booleans have no own enumerable properties. */
  function Entries(v: Json): (es: seq<Member>)
    ensures v.Obj? ==> es == v.members
    ensures v.Arr? ==> |es| == |v.items| && forall i :: 0 <= i < |es| ==> es[i] == Member(IndexKey(i), v.items[i])
    ensures v.Str? ==> |es| == |v.s| && forall i :: 0 <= i < |es| ==> es[i] == Member(IndexKey(i), Str([v.s[i]]))
    ensures !(v.Obj? || v.Arr? || v.Str?) ==> es == []
  {
    match v
    case Obj(ms) => ms
    case Arr(xs) => seq(|xs|, i requires 0 <= i < |xs| => Member(IndexKey(i), xs[i]))
    case Str(s) => seq(|s|, i requires 0 <= i < |s| => Member(IndexKey(i), Str([s[i]])))
    case _ => []
  }
}
