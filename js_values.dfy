/**
 * JavaScript values as the client sees them: the JSON values of request and
 * response bodies, plus references to objects that live on the caller's heap
 * (the address objects the request builder edits in place), together with the
 * few language rules the client's code depends on: truthiness, property
 * lookup, conversion to string and loose equality (`==`) with a string.
 */
module JsValues {
  import opened Outcomes
  import opened JsNumbers

  /** A mutable JavaScript object owned by the caller: its own properties. */
  class JsObject {
    var fields: map<string, Json>

    constructor (fields: map<string, Json>)
      ensures this.fields == fields
    {
      this.fields := fields;
    }
  }

  datatype Json =
    | Undefined
    | Null
    | Bool(b: bool)
    | Num(n: real)
    | Str(s: string)
    | Arr(items: seq<Json>)
    | Obj(members: map<string, Json>)   // a fresh object that nothing else refers to
    | Ref(obj: JsObject)                // an object shared with the caller

  /** A value that holds no reference into the heap, such as everything `JSON.parse` returns. */
  predicate IsPlain(j: Json)
  {
    match j
    case Ref(_) => false
    case Arr(items) => forall i :: 0 <= i < |items| ==> IsPlain(items[i])
    case Obj(m) => forall k :: k in m ==> IsPlain(m[k])
    case _ => true
  }

  type PlainJson = j: Json | IsPlain(j) witness Null

  /** `!!v`: null, undefined, false, 0 and the empty string are falsy;
   *  every object and array, even an empty one, is truthy. */
  predicate Truthy(j: Json)
    ensures Truthy(j) ==> j != Undefined && j != Null && j != Bool(false) && j != Num(0.0) && j != Str("")
    ensures j.Arr? || j.Obj? || j.Ref? ==> Truthy(j)
    ensures j.Str? ==> (Truthy(j) <==> |j.s| > 0)
  {
    match j
    case Undefined | Null => false
    case Bool(b) => b
    case Num(n) => n != 0.0
    case Str(s) => s != ""
    case Arr(_) | Obj(_) | Ref(_) => true
  }

  /** `o[k]` on an object's own properties: undefined when the key is absent. */
  function Get(m: map<string, Json>, k: string): (v: Json)
    ensures v != Undefined ==> k in m && m[k] == v
    ensures k in m ==> v == m[k]
  {
    if k in m then m[k] else Undefined
  }

  /** `j[k]` for a property name k that no built-in prototype defines: reading
   *  a property of null or undefined throws a TypeError, a primitive or an
   *  array has no such property. */
  function Member(j: PlainJson, k: string): (r: Result<PlainJson>)
    ensures r.Err? <==> j == Null || j == Undefined
    ensures r.Err? ==> r.error == TypeError
    ensures r.Ok? && r.value != Undefined ==> j.Obj? && k in j.members && j.members[k] == r.value
  {
    match j
    case Undefined | Null => Err(TypeError)
    case Obj(m) => Ok(Get(m, k))
    case _ => Ok(Undefined)
  }

  /** `parts.join(sep)` */
  function Join(parts: seq<string>, sep: string): string
  {
    if |parts| == 0 then ""
    else if |parts| == 1 then parts[0]
    else Join(parts[..|parts| - 1], sep) + sep + parts[|parts| - 1]
  }

  /** `String(j)`, the conversion `+` applies when the other operand is a string. */
  function JsToString(j: Json): (r: string)
    ensures j.Str? ==> r == j.s
    ensures j.Obj? || j.Ref? ==> r == "[object Object]"
    ensures j.Arr? && |j.items| == 0 ==> r == ""
    ensures j.Arr? && |j.items| == 1 && j.items[0].Str? ==> r == j.items[0].s
    ensures j.Arr? && |j.items| == 1 && (j.items[0] == Null || j.items[0] == Undefined) ==> r == ""
  {
    match j
    case Undefined => "undefined"
    case Null => "null"
    case Bool(b) => if b then "true" else "false"
    case Num(n) => NumberToString(n)
    case Str(s) => s
    case Arr(items) =>
      // `Array.prototype.join` writes null and undefined elements as ""
      Join(seq(|items|, i requires 0 <= i < |items| =>
             if items[i] == Undefined || items[i] == Null then "" else JsToString(items[i])), ",")
    case Obj(_) | Ref(_) => "[object Object]"
  }

  /** `j == s` (loose equality) with a string literal s. */
  predicate LooseEqualsString(j: Json, s: string)
    ensures j == Null || j == Undefined ==> !LooseEqualsString(j, s)
    ensures j.Str? ==> (LooseEqualsString(j, s) <==> j.s == s)
    ensures j.Num? && s == "" ==> (LooseEqualsString(j, s) <==> j.n == 0.0)
    ensures j.Arr? && |j.items| == 1 && j.items[0].Str? ==> (LooseEqualsString(j, s) <==> j.items[0].s == s)
  {
    match j
    case Undefined | Null => false
    case Str(t) => t == s
    case Num(n) => StringToNumber(s) == Some(n)
    case Bool(b) => StringToNumber(s) == Some(if b then 1.0 else 0.0)
    case Arr(_) => JsToString(j) == s     // ToPrimitive of an array joins its elements
    case Obj(_) | Ref(_) => "[object Object]" == s
  }

  /** The guard `v && v == "FALSE"` holds exactly of the string "FALSE" and of
   *  an array that joins to it, such as ["FALSE"]. */
  lemma TruthyEqualsFalseLiteral(j: Json)
    ensures Truthy(j) && LooseEqualsString(j, "FALSE")
        <==> j == Str("FALSE") || (j.Arr? && JsToString(j) == "FALSE")
  {
    assert !IsDigit('F');
  }

  /** The guard `v && v == "0"` holds exactly of the string "0" and of an array
   *  that joins to it, such as [0] or ["0"]: the number 0 and false equal "0"
   *  loosely but are falsy. */
  lemma TruthyEqualsZeroLiteral(j: Json)
    ensures Truthy(j) && LooseEqualsString(j, "0")
        <==> j == Str("0") || (j.Arr? && JsToString(j) == "0")
  {
    assert StringToNumber("0") == Some(0.0);
  }
}
