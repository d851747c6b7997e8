/**
 * The JSON values the source reads and writes, and the few JavaScript
 * behaviours it relies on when it handles them untyped: truthiness, property
 * reads, and property assignment, which throws a TypeError on `null` and on
 * primitives because the modules run in strict mode.
 *
 * `JSON.stringify` and `JSON.parse` are not modelled; a `Codec` stands for
 * the pair, and `Lawful` is what the proofs rely on: parsing what was
 * stringified gives the value back, and the text is never empty (the source
 * treats an empty stored string as missing). A string that does not parse is
 * `None`.
 */
module Json {
  import opened Wrappers
  import opened Seqs

  /** Every number the site stores is a count, so numbers are integers. */
  datatype Json =
    | JNull
    | JBool(b: bool)
    | JNum(n: int)
    | JStr(s: string)
    | JArr(items: seq<Json>)
    | JObj(fields: map<string, Json>)

  datatype Codec = Codec(encode: Json -> string, decode: string -> Option<Json>)

  ghost predicate Lawful(c: Codec) {
    forall v :: c.decode(c.encode(v)) == Some(v) && c.encode(v) != ""
  }

  /** The names every plain object inherits from `Object.prototype`
      (section 20.1.3 of the ECMAScript specification, with the accessor
      helpers of its Annex B). Reading one gives a function, or the
      prototype object itself for `__proto__`, so the read is truthy. */
  const ObjectPrototypeNames: set<string> := {
    "constructor", "hasOwnProperty", "isPrototypeOf", "propertyIsEnumerable",
    "toLocaleString", "toString", "valueOf", "__proto__",
    "__defineGetter__", "__defineSetter__", "__lookupGetter__", "__lookupSetter__"}

  /** JavaScript truthiness of a parsed value. */
  predicate Truthy(j: Json) {
    match j
    case JNull => false
    case JBool(b) => b
    case JNum(n) => n != 0
    case JStr(s) => s != ""
    case JArr(_) => true
    case JObj(_) => true
  }

  /** `j[k]` on an object: `None` stands for `undefined`. */
  function Field(j: Json, k: string): (r: Option<Json>)
    ensures r.Some? ==> j.JObj? && k in j.fields
  {
    if j.JObj? && k in j.fields then Some(j.fields[k]) else None
  }

  /** `j[k] = v`. On an object the field is replaced; on an array the
      assignment succeeds but the property is not serialised, so the array is
      what remains (keys here are never array indices); on `null` and on
      primitives it throws, which is `None`. */
  function SetField(j: Json, k: string, v: Json): (r: Option<Json>)
    ensures r.None? <==> !(j.JObj? || j.JArr?)
    ensures j.JObj? ==> r == Some(JObj(j.fields[k := v]))
    ensures j.JArr? ==> r == Some(j)
  {
    match j
    case JObj(m) => Some(JObj(m[k := v]))
    case JArr(_) => Some(j)
    case _ => None
  }

  /** A JavaScript array of strings. */
  function StrArray(xs: seq<string>): (r: Json)
    ensures r.JArr? && |r.items| == |xs|
  {
    JArr(Map(xs, (x: string) => JStr(x)))
  }

  /** Reads an array of strings back; anything else is `None`. */
  function AsStrings(j: Json): (r: Option<seq<string>>)
    ensures r.Some? ==> j.JArr? && |r.value| == |j.items|
  {
    if j.JArr? && forall i :: 0 <= i < |j.items| ==> j.items[i].JStr?
    then Some(Map(j.items, (x: Json) => if x.JStr? then x.s else ""))
    else None
  }

  /** Reading back an array of strings gives the strings. */
  lemma StrArrayRoundTrip(xs: seq<string>)
    ensures AsStrings(StrArray(xs)) == Some(xs)
  {
    var j := StrArray(xs);
    assert forall i :: 0 <= i < |j.items| ==> j.items[i] == JStr(xs[i]);
    var back := Map(j.items, (x: Json) => if x.JStr? then x.s else "");
    assert |back| == |xs|;
    assert forall i :: 0 <= i < |xs| ==> back[i] == xs[i];
    assert back == xs;
  }
}
