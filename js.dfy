/** The slice of JavaScript value semantics that the edge functions depend on: dynamically typed
    values as `req.json()`, `JSON.parse` and the model SDK produce them, truthiness, property reads
    with and without optional chaining, object spread, `Object.keys`, and the string conversion of
    template literals. */
module Js {
  import opened Strings

  datatype Option<+T> = None | Some(value: T)

  /** What a `throw` carries: an `Error` instance (TypeError and SyntaxError included), or any
      other value, kept as `String(v)` and `typeof v`. */
  datatype Thrown =
    | ErrorObj(message: string)
    | NonError(text: string, typeName: string)

  /** The result of a step that may throw. */
  datatype Outcome<+T> = Done(value: T) | Threw(thrown: Thrown)

  /** A JavaScript value. Numbers are integers here. An object lists its own enumerable
      properties in the order JavaScript enumerates them (array-index keys ascending, then the
      other keys in insertion order). A function is represented by what calling it yields. */
  datatype Value =
    | Undefined
    | Null
    | Bool(b: bool)
    | Num(n: int)
    | Str(s: string)
    | Arr(elems: seq<Value>)
    | Obj(props: seq<(string, Value)>)
    | Fn(call: Outcome<Value>)

  predicate Nullish(v: Value) {
    v.Undefined? || v.Null?
  }

  /** JavaScript's ToBoolean: the falsy values are undefined, null, false, 0 and "". */
  predicate Truthy(v: Value) {
    match v
    case Undefined => false
    case Null => false
    case Bool(b) => b
    case Num(n) => n != 0
    case Str(s) => s != []
    case _ => true
  }

  function IntToString(n: int): string {
    if n < 0 then "-" + NatToString(-n) else NatToString(n)
  }

  /** The string a template literal substitutes for `v` (`${v}`). */
  function ToString(v: Value): string
    decreases v, if v.Arr? then |v.elems| + 1 else 0
  {
    match v
    case Undefined => "undefined"
    case Null => "null"
    case Bool(b) => if b then "true" else "false"
    case Num(n) => IntToString(n)
    case Str(s) => s
    case Arr(xs) => JoinElems(v, 0)
    case Obj(_) => "[object Object]"
    case Fn(_) => "function () { [native code] }"
  }

  /** `Array.prototype.join(",")` over the elements of `v` from index `i` on; null and undefined
      elements contribute the empty string. */
  function JoinElems(v: Value, i: nat): string
    requires v.Arr? && i <= |v.elems|
    decreases v, |v.elems| - i
  {
    if i == |v.elems| then
      ""
    else
      var x := v.elems[i];
      (if i > 0 then "," else "") + (if Nullish(x) then "" else ToString(x)) + JoinElems(v, i + 1)
  }

  /** A canonical array index: the decimal rendering of an integer below 2^32 - 1. */
  predicate IsArrayIndex(k: string) {
    k != [] && (forall i :: 0 <= i < |k| ==> IsDigit(k[i])) && (|k| == 1 || k[0] != '0')
    && ParseNat(k) < 0xFFFF_FFFF
  }

  /** Every index of an array or string is an array-index key. */
  lemma IndexIsArrayIndex(i: nat)
    requires i < 0xFFFF_FFFF
    ensures IsArrayIndex(NatToString(i)) && ParseNat(NatToString(i)) == i
  {
    ParseNatToString(i);
  }

  /** The value of the first property named `key`, or undefined. */
  function FindProp(props: seq<(string, Value)>, key: string): Value {
    if props == [] then Undefined
    else if props[0].0 == key then props[0].1
    else FindProp(props[1..], key)
  }

  /** An object of one property answers that property's key and no other. */
  lemma LookupSingle(name: string, value: Value, key: string)
    ensures Lookup(Obj([(name, value)]), key) == if name == key then value else Undefined
  {
    var props := [(name, value)];
    assert props[1..] == [] && props[0] == (name, value);
    assert Lookup(Obj(props), key) == FindProp(props, key);
  }

  /** `v[key]` for a `v` that is neither undefined nor null. Arrays and strings answer their
      indices and `length`; their prototype members are not modelled, and none of the keys the
      modelled code reads names one. */
  function Lookup(v: Value, key: string): Value {
    match v
    case Obj(props) => FindProp(props, key)
    case Arr(xs) =>
      if key == "length" then Num(|xs|)
      else if IsArrayIndex(key) && ParseNat(key) < |xs| then xs[ParseNat(key)]
      else Undefined
    case Str(s) =>
      if key == "length" then Num(|s|)
      else if IsArrayIndex(key) && ParseNat(key) < |s| then Str([s[ParseNat(key)]])
      else Undefined
    case _ => Undefined
  }

  /** The TypeError message of V8 for reading `key` off undefined or null. */
  function ReadError(v: Value, key: string): string {
    "Cannot read properties of " + ToString(v) + " (reading '" + key + "')"
  }

  /** `v.key`: throws a TypeError when `v` is undefined or null. */
  function Get(v: Value, key: string): (r: Outcome<Value>)
    ensures r.Threw? <==> Nullish(v)
    ensures r.Done? ==> r.value == Lookup(v, key)
  {
    if Nullish(v) then Threw(ErrorObj(ReadError(v, key))) else Done(Lookup(v, key))
  }

  /** `v?.key`: undefined when `v` is undefined or null. */
  function OptGet(v: Value, key: string): Value {
    if Nullish(v) then Undefined else Lookup(v, key)
  }

  /** `{...v}` and `Object.keys(v)`: the own enumerable string-keyed properties of `v`, in
      enumeration order. Strings and arrays contribute their indices; other primitives and
      functions have none. */
  function OwnEntries(v: Value): (r: seq<(string, Value)>)
    ensures v.Arr? ==> |r| == |v.elems|
    ensures v.Str? ==> |r| == |v.s|
  {
    match v
    case Obj(props) => props
    case Arr(xs) => seq(|xs|, i requires 0 <= i < |xs| => (NatToString(i), xs[i]))
    case Str(s) => seq(|s|, i requires 0 <= i < |s| => (NatToString(i), Str([s[i]])))
    case _ => []
  }

  function Names<V>(props: seq<(string, V)>): (r: seq<string>)
    ensures |r| == |props|
    ensures forall i :: 0 <= i < |props| ==> r[i] == props[i].0
  {
    seq(|props|, i requires 0 <= i < |props| => props[i].0)
  }

  /** `Object.keys(v)`. */
  function Keys(v: Value): seq<string> {
    Names(OwnEntries(v))
  }

  /** The properties after `key: val` is written into an object literal that already holds
      `props`: `key` reads back `val`, every other key reads what it did. */
  function SetProp(props: seq<(string, Value)>, key: string, val: Value): (r: seq<(string, Value)>)
    ensures FindProp(r, key) == val
    ensures forall k :: k != key ==> FindProp(r, k) == FindProp(props, k)
  {
    if props == [] then
      [(key, val)]
    else if props[0].0 == key then
      [(key, val)] + props[1..]
    else
      [props[0]] + SetProp(props[1..], key, val)
  }

  /** Writing a key keeps the order of the keys: an existing key stays where it is, a new one
      goes last. */
  lemma {:induction false} SetPropKeys(props: seq<(string, Value)>, key: string, val: Value)
    ensures (exists i :: 0 <= i < |props| && props[i].0 == key) ==>
              |SetProp(props, key, val)| == |props|
              && forall i :: 0 <= i < |props| ==> SetProp(props, key, val)[i].0 == props[i].0
    ensures (forall i :: 0 <= i < |props| ==> props[i].0 != key) ==>
              SetProp(props, key, val) == props + [(key, val)]
  {
    if props != [] && props[0].0 != key {
      SetPropKeys(props[1..], key, val);
      var r := SetProp(props, key, val);
      var rest := SetProp(props[1..], key, val);
      assert r == [props[0]] + rest;
      if exists i :: 0 <= i < |props| && props[i].0 == key {
        var i :| 0 <= i < |props| && props[i].0 == key;
        assert props[1..][i - 1].0 == key;
        forall j | 0 <= j < |props| ensures r[j].0 == props[j].0 {
          if j > 0 { assert r[j] == rest[j - 1]; }
        }
      }
      if forall i :: 0 <= i < |props| ==> props[i].0 != key {
        assert forall i :: 0 <= i < |props| - 1 ==> props[1..][i] == props[i + 1];
        assert props == [props[0]] + props[1..];
      }
    }
  }

  /** The properties of `props` other than `key`, in order. */
  function WithoutProp(props: seq<(string, Value)>, key: string): (r: seq<(string, Value)>)
    ensures FindProp(r, key) == Undefined
    ensures forall k :: k != key ==> FindProp(r, k) == FindProp(props, k)
  {
    if props == [] then []
    else if props[0].0 == key then WithoutProp(props[1..], key)
    else [props[0]] + WithoutProp(props[1..], key)
  }

  /** Writing `key` into an object changes nothing but `key`, when the object lists each key once. */
  lemma {:induction false} SetPropKeepsOthers(props: seq<(string, Value)>, key: string, val: Value)
    requires forall i, j :: 0 <= i < j < |props| ==> props[i].0 != props[j].0
    ensures WithoutProp(SetProp(props, key, val), key) == WithoutProp(props, key)
  {
    if props != [] && props[0].0 != key {
      SetPropKeepsOthers(props[1..], key, val);
    } else if props != [] {
      WithoutAbsent(props[1..], key);
    }
  }

  /** Removing a key that is not present changes nothing. */
  lemma {:induction false} WithoutAbsent(props: seq<(string, Value)>, key: string)
    requires forall i :: 0 <= i < |props| ==> props[i].0 != key
    ensures WithoutProp(props, key) == props
  {
    if props != [] {
      WithoutAbsent(props[1..], key);
    }
  }
}
