/**
 A JSON value as Foundation's JSONSerialization hands it to the model code: one of the
 kinds of RFC 8259 section 3 (object, array, string, number, true/false, null). An object
 is the `[String: Any]` dictionary that the hydrating initialisers receive.

 The checked casts below are Swift's `value as? T` on such a value. Each one yields a value
 exactly when the input is present and of the matching kind, and never fails otherwise.
 */
module Json {
  import opened Wrappers

  /** Numbers are kept exact, as reals; Foundation's binary floating point is not modelled. */
  datatype Json =
    | JObject(members: map<string, Json>)
    | JArray(elements: seq<Json>)
    | JString(text: string)
    | JNumber(number: real)
    | JBool(truth: bool)
    | JNull

  /** `[String: Any]` */
  type Dictionary = map<string, Json>

  /** Bounds of Swift's `Int` on a 64-bit platform. */
  const IntMin: int := -0x8000_0000_0000_0000
  const IntMax: int := 0x7FFF_FFFF_FFFF_FFFF

  /** A number that `as? Int` accepts: integral and representable as a 64-bit `Int`. */
  predicate IsSwiftInt(x: real) {
    x == x.Floor as real && IntMin <= x.Floor <= IntMax
  }

  /** `dictionary[key]`: the value stored under `key`, if any. */
  function Lookup(d: Dictionary, key: string): (r: Option<Json>)
    ensures r.Some? <==> key in d
    ensures r.Some? ==> r.value == d[key]
  {
    if key in d then Some(d[key]) else None
  }

  /** `value as? Int` */
  function AsInt(v: Option<Json>): (r: Option<int>)
    ensures r.Some? <==> v.Some? && v.value.JNumber? && IsSwiftInt(v.value.number)
    ensures r.Some? ==> v == Some(JNumber(r.value as real)) && IntMin <= r.value <= IntMax
  {
    match v
    case Some(JNumber(x)) => if IsSwiftInt(x) then Some(x.Floor) else None
    case _ => None
  }

  /** `value as? Double` (any JSON number) */
  function AsDouble(v: Option<Json>): (r: Option<real>)
    ensures r.Some? <==> v.Some? && v.value.JNumber?
    ensures r.Some? ==> v == Some(JNumber(r.value))
  {
    match v
    case Some(JNumber(x)) => Some(x)
    case _ => None
  }

  /** `value as? Bool` (JSON kinds are disjoint: a number is never a Bool) */
  function AsBool(v: Option<Json>): (r: Option<bool>)
    ensures r.Some? <==> v.Some? && v.value.JBool?
    ensures r.Some? ==> v == Some(JBool(r.value))
  {
    match v
    case Some(JBool(b)) => Some(b)
    case _ => None
  }

  /** `value as? String` */
  function AsString(v: Option<Json>): (r: Option<string>)
    ensures r.Some? <==> v.Some? && v.value.JString?
    ensures r.Some? ==> v == Some(JString(r.value))
  {
    match v
    case Some(JString(s)) => Some(s)
    case _ => None
  }

  /** `value as? [String: Any]` */
  function AsObject(v: Option<Json>): (r: Option<Dictionary>)
    ensures r.Some? <==> v.Some? && v.value.JObject?
    ensures r.Some? ==> v == Some(JObject(r.value))
  {
    match v
    case Some(JObject(m)) => Some(m)
    case _ => None
  }

  /** The strings of `vs` when every element is a string (the element check of `as? [String]`). */
  function StringsOf(vs: seq<Json>): (r: Option<seq<string>>)
    ensures r.Some? <==> forall i :: 0 <= i < |vs| ==> vs[i].JString?
    ensures r.Some? ==> |r.value| == |vs| && forall i :: 0 <= i < |vs| ==> vs[i] == JString(r.value[i])
  {
    if vs == [] then Some([])
    else match (vs[0], StringsOf(vs[1..]))
      case (JString(s), Some(rest)) => Some([s] + rest)
      case _ => None
  }

  /** The dictionaries of `vs` when every element is an object (the element check of `as? [[String: Any]]`). */
  function ObjectsOf(vs: seq<Json>): (r: Option<seq<Dictionary>>)
    ensures r.Some? <==> forall i :: 0 <= i < |vs| ==> vs[i].JObject?
    ensures r.Some? ==> |r.value| == |vs| && forall i :: 0 <= i < |vs| ==> vs[i] == JObject(r.value[i])
  {
    if vs == [] then Some([])
    else match (vs[0], ObjectsOf(vs[1..]))
      case (JObject(m), Some(rest)) => Some([m] + rest)
      case _ => None
  }

  /** `value as? [String]`: an array all of whose elements are strings (an empty array qualifies). */
  function AsStringArray(v: Option<Json>): (r: Option<seq<string>>)
    ensures r.Some? <==> v.Some? && v.value.JArray? && forall i :: 0 <= i < |v.value.elements| ==> v.value.elements[i].JString?
    ensures r.Some? ==> |r.value| == |v.value.elements| &&
                        forall i :: 0 <= i < |r.value| ==> v.value.elements[i] == JString(r.value[i])
  {
    match v
    case Some(JArray(vs)) => StringsOf(vs)
    case _ => None
  }

  /** `value as? [[String: Any]]`: an array all of whose elements are objects. */
  function AsObjectArray(v: Option<Json>): (r: Option<seq<Dictionary>>)
    ensures r.Some? <==> v.Some? && v.value.JArray? && forall i :: 0 <= i < |v.value.elements| ==> v.value.elements[i].JObject?
    ensures r.Some? ==> |r.value| == |v.value.elements| &&
                        forall i :: 0 <= i < |r.value| ==> v.value.elements[i] == JObject(r.value[i])
  {
    match v
    case Some(JArray(vs)) => ObjectsOf(vs)
    case _ => None
  }

  /** Casting back a value that was written with the matching kind gives it back unchanged. */
  lemma {:induction false} StringsOfRoundTrip(ss: seq<string>)
    ensures StringsOf(seq(|ss|, i requires 0 <= i < |ss| => JString(ss[i]))) == Some(ss)
  {
    if ss != [] {
      var vs := seq(|ss|, i requires 0 <= i < |ss| => JString(ss[i]));
      assert vs[1..] == seq(|ss[1..]|, i requires 0 <= i < |ss[1..]| => JString(ss[1..][i]));
      StringsOfRoundTrip(ss[1..]);
      assert [ss[0]] + ss[1..] == ss;
    }
  }

  /** The JSON kinds are disjoint under the casts: at most one of the scalar and container
      casts succeeds, except that every value accepted by `as? Int` is also accepted by
      `as? Double`, and that both array casts accept the empty array (and only it). */
  lemma KindsAreDisjoint(v: Option<Json>)
    ensures AsInt(v).Some? ==> AsDouble(v).Some?
    ensures AsDouble(v).Some? ==>
              AsBool(v).None? && AsString(v).None? && AsObject(v).None? && AsStringArray(v).None? && AsObjectArray(v).None?
    ensures AsBool(v).Some? ==>
              AsString(v).None? && AsObject(v).None? && AsStringArray(v).None? && AsObjectArray(v).None?
    ensures AsString(v).Some? ==> AsObject(v).None? && AsStringArray(v).None? && AsObjectArray(v).None?
    ensures AsObject(v).Some? ==> AsStringArray(v).None? && AsObjectArray(v).None?
    ensures AsStringArray(v).Some? && AsObjectArray(v).Some? <==> v == Some(JArray([]))
  {
  }
}
