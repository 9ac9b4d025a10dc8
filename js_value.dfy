/**
 * The JavaScript values that the modelled code receives from `JSON.parse`
 * and passes around: undefined, null, booleans, numbers (integers here),
 * strings, arrays and plain objects. An object is its list of own
 * properties in insertion order; keys are distinct.
 */
module JsValue {
  import opened Wrappers
  import Text

  datatype Json =
    | Undefined
    | Null
    | Bool(b: bool)
    | Num(n: int)
    | Str(s: string)
    | Arr(items: seq<Json>)
    | Obj(props: seq<(string, Json)>)

  /** JavaScript truthiness: undefined, null, false, 0 and '' are falsy. */
  predicate Truthy(v: Json) {
    match v
    case Undefined => false
    case Null => false
    case Bool(b) => b
    case Num(n) => n != 0
    case Str(s) => s != ""
    case Arr(_) => true
    case Obj(_) => true
  }

  /** `a || b`. */
  function Or(a: Json, b: Json): (r: Json)
    ensures Truthy(a) ==> r == a
    ensures !Truthy(a) ==> r == b
    ensures b != Undefined ==> r != Undefined
  {
    if Truthy(a) then a else b
  }

  /** Destructuring or reading a property of these two throws a TypeError. */
  predicate IsNullish(v: Json) { v == Undefined || v == Null }

  /**
   * Index of the own property named `key`, if any. Keys are distinct in
   * every object built here; when a parsed text repeats a key, the last
   * occurrence is the one `JSON.parse` keeps, so the search runs from the end.
   */
  function FindKey(props: seq<(string, Json)>, key: string): (r: Option<nat>)
    ensures r.Some? ==> r.value < |props| && props[r.value].0 == key
    ensures r.Some? ==> forall j :: r.value < j < |props| ==> props[j].0 != key
    ensures r.None? ==> forall j :: 0 <= j < |props| ==> props[j].0 != key
  {
    if |props| == 0 then None
    else if props[|props| - 1].0 == key then Some(|props| - 1)
    else FindKey(props[..|props| - 1], key)
  }

  /** Own property `key` of an object; `undefined` for anything else. */
  function Get(v: Json, key: string): Json {
    match v
    case Obj(props) =>
      (match FindKey(props, key)
       case Some(i) => props[i].1
       case None => Undefined)
    case _ => Undefined
  }

  /** `key in obj` for an object's own properties. */
  predicate Has(v: Json, key: string) {
    v.Obj? && FindKey(v.props, key).Some?
  }

  /** `obj[key] = value`: an existing key keeps its place, a new key goes last. */
  function SetProp(props: seq<(string, Json)>, key: string, value: Json): (r: seq<(string, Json)>)
    ensures FindKey(props, key).Some? ==> |r| == |props|
    ensures FindKey(props, key).None? ==> r == props + [(key, value)]
    ensures forall j :: 0 <= j < |props| && props[j].0 != key ==> r[j] == props[j]
  {
    match FindKey(props, key)
    case Some(i) => props[i := (key, value)]
    case None => props + [(key, value)]
  }

  lemma {:induction false} FindKeyIs(props: seq<(string, Json)>, key: string, i: nat)
    requires i < |props| && props[i].0 == key
    requires forall j :: i < j < |props| ==> props[j].0 != key
    ensures FindKey(props, key) == Some(i)
  {
    if i < |props| - 1 {
      FindKeyIs(props[..|props| - 1], key, i);
    }
  }

  lemma {:induction false} FindKeyAbsent(props: seq<(string, Json)>, key: string)
    requires forall j :: 0 <= j < |props| ==> props[j].0 != key
    ensures FindKey(props, key) == None
  {
    if |props| > 0 {
      FindKeyAbsent(props[..|props| - 1], key);
    }
  }

  /** Reading a property after `obj[key] = value`: the new value under `key`, the old one elsewhere. */
  lemma GetSetProp(props: seq<(string, Json)>, key: string, value: Json, k: string)
    ensures Get(Obj(SetProp(props, key, value)), k) == if k == key then value else Get(Obj(props), k)
    ensures Has(Obj(SetProp(props, key, value)), k) <==> k == key || Has(Obj(props), k)
  {
    var r := SetProp(props, key, value);
    match FindKey(props, key)
    case Some(i) =>
      if k == key {
        FindKeyIs(r, k, i);
      } else {
        match FindKey(props, k)
        case Some(m) => FindKeyIs(r, k, m);
        case None => FindKeyAbsent(r, k);
      }
    case None =>
      if k == key {
        FindKeyIs(r, k, |props|);
      } else {
        match FindKey(props, k)
        case Some(m) => FindKeyIs(r, k, m);
        case None => FindKeyAbsent(r, k);
      }
  }

  /** `delete obj[key]`: every property named `key` goes, the others keep their order. */
  function DeleteProp(props: seq<(string, Json)>, key: string): (r: seq<(string, Json)>)
    ensures forall j :: 0 <= j < |r| ==> r[j].0 != key
    ensures forall p :: p in props && p.0 != key ==> p in r
    ensures forall p :: p in r ==> p in props
  {
    if |props| == 0 then []
    else
      var init := DeleteProp(props[..|props| - 1], key);
      var last := props[|props| - 1];
      assert forall p :: p in props[..|props| - 1] ==> p in props;
      if last.0 == key then init else init + [last]
  }

  /** Reading a property after `delete obj[key]`: undefined under `key`, the old value elsewhere. */
  lemma {:induction false} GetDeleteProp(props: seq<(string, Json)>, key: string, k: string)
    ensures Get(Obj(DeleteProp(props, key)), k) == if k == key then Undefined else Get(Obj(props), k)
    ensures Has(Obj(DeleteProp(props, key)), k) <==> k != key && Has(Obj(props), k)
  {
    var r := DeleteProp(props, key);
    if k == key {
      FindKeyAbsent(r, k);
    } else if |props| > 0 {
      var init := props[..|props| - 1];
      GetDeleteProp(init, key, k);
      GetLast(props, k);
      if props[|props| - 1].0 != key {
        assert r[..|r| - 1] == DeleteProp(init, key);
        GetLast(r, k);
      }
    }
  }

  /** Every key occurs once. */
  predicate DistinctKeys(props: seq<(string, Json)>) {
    forall i, j :: 0 <= i < j < |props| ==> props[i].0 != props[j].0
  }

  lemma SetPropDistinct(props: seq<(string, Json)>, key: string, value: Json)
    requires DistinctKeys(props)
    ensures DistinctKeys(SetProp(props, key, value))
  {
  }

  /**
   * The own properties of an object built by assigning `props` in order,
   * as `JSON.parse` builds one: a repeated key keeps its first place and
   * takes its last value.
   */
  function OwnProps(props: seq<(string, Json)>): (r: seq<(string, Json)>)
    ensures DistinctKeys(r)
  {
    if |props| == 0 then []
    else
      var init := OwnProps(props[..|props| - 1]);
      SetPropDistinct(init, props[|props| - 1].0, props[|props| - 1].1);
      SetProp(init, props[|props| - 1].0, props[|props| - 1].1)
  }

  /** A read sees the last property first. */
  lemma GetLast(props: seq<(string, Json)>, k: string)
    requires |props| > 0
    ensures Get(Obj(props), k) == if props[|props| - 1].0 == k then props[|props| - 1].1 else Get(Obj(props[..|props| - 1]), k)
    ensures Has(Obj(props), k) <==> props[|props| - 1].0 == k || Has(Obj(props[..|props| - 1]), k)
  {
  }

  /** Building the object by assignment changes no property read. */
  lemma {:induction false} OwnPropsReads(props: seq<(string, Json)>, k: string)
    ensures Get(Obj(OwnProps(props)), k) == Get(Obj(props), k)
    ensures Has(Obj(OwnProps(props)), k) <==> Has(Obj(props), k)
  {
    if |props| > 0 {
      var init := props[..|props| - 1];
      var last := props[|props| - 1];
      OwnPropsReads(init, k);
      GetSetProp(OwnProps(init), last.0, last.1, k);
      GetLast(props, k);
    }
  }

  /** `[String(i), s[i]]` for each position from `from` on. */
  function IndexedChars(s: string, from: nat): (r: seq<(string, Json)>)
    requires from <= |s|
    ensures |r| == |s| - from
    ensures forall i :: 0 <= i < |r| ==> r[i] == (Text.NatToString(from + i), Str([s[from + i]]))
    decreases |s| - from
  {
    if from == |s| then [] else [(Text.NatToString(from), Str([s[from]]))] + IndexedChars(s, from + 1)
  }

  /** `[String(i), items[i]]` for each position from `from` on. */
  function IndexedItems(items: seq<Json>, from: nat): (r: seq<(string, Json)>)
    requires from <= |items|
    ensures |r| == |items| - from
    ensures forall i :: 0 <= i < |r| ==> r[i] == (Text.NatToString(from + i), items[from + i])
    decreases |items| - from
  {
    if from == |items| then [] else [(Text.NatToString(from), items[from])] + IndexedItems(items, from + 1)
  }

  /**
   * `Object.entries(v)`: the own properties of an object, the indexed
   * characters of a string or items of an array, nothing for other
   * primitives; null and undefined make it throw (`None`).
   */
  function Entries(v: Json): (r: Option<seq<(string, Json)>>)
    ensures r.None? <==> IsNullish(v)
    ensures r.Some? && v.Obj? ==> r.value == OwnProps(v.props)
  {
    match v
    case Undefined => None
    case Null => None
    case Obj(props) => Some(OwnProps(props))
    case Str(s) => Some(IndexedChars(s, 0))
    case Arr(items) => Some(IndexedItems(items, 0))
    case _ => Some([])
  }

  /** `typeof v`; null, arrays and objects are all 'object'. */
  function TypeOf(v: Json): string {
    match v
    case Undefined => "undefined"
    case Null => "object"
    case Bool(_) => "boolean"
    case Num(_) => "number"
    case Str(_) => "string"
    case Arr(_) => "object"
    case Obj(_) => "object"
  }

  /**
   * `a === b`. Objects and arrays coming out of `JSON.parse` are fresh, so
   * they are never identical to anything else.
   */
  predicate StrictEq(a: Json, b: Json) {
    match (a, b)
    case (Undefined, Undefined) => true
    case (Null, Null) => true
    case (Bool(x), Bool(y)) => x == y
    case (Num(x), Num(y)) => x == y
    case (Str(x), Str(y)) => x == y
    case _ => false
  }

  /** `===` on these values is equality of primitives. */
  lemma StrictEqIsSamePrimitive(a: Json, b: Json)
    ensures StrictEq(a, b) <==> a == b && !a.Arr? && !a.Obj?
  {
  }

  /**
   * `String(v)`: arrays join their elements with ',', null and undefined
   * elements as ''. A number is its decimal digits, which is what
   * JavaScript writes for magnitudes below 10^21.
   */
  function ToJsString(v: Json): string
    decreases v, 1
  {
    match v
    case Undefined => "undefined"
    case Null => "null"
    case Bool(b) => if b then "true" else "false"
    case Num(n) => Text.IntToString(n)
    case Str(s) => s
    case Arr(items) => JoinElements(v, items)
    case Obj(_) => "[object Object]"
  }

  function JoinElements(ghost whole: Json, items: seq<Json>): string
    requires forall x :: x in items ==> x < whole
    decreases whole, 0, |items|
  {
    if |items| == 0 then ""
    else
      assert items[0] in items;
      assert forall x :: x in items[1..] ==> x in items;
      var head := if IsNullish(items[0]) then "" else ToJsString(items[0]);
      if |items| == 1 then head else head + "," + JoinElements(whole, items[1..])
  }

}
