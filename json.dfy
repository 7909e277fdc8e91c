/** The values JSON.parse can return, and how JavaScript's truthiness judges them. */
module Json {

  /** A parsed JSON value. Numbers are exact reals, so NaN and the infinities
      are not representable; the `parse` parameter of the client stands for
      JSON.parse including its rounding of a numeral to a double (which turns
      `1e400` into Infinity and `1e-400` into 0). */
  datatype Json =
    | JNull
    | JBool(b: bool)
    | JNumber(n: real)
    | JString(str: string)
    | JArray(items: seq<Json>)
    | JObject(members: map<string, Json>)

  /** JavaScript truthiness (`!!v`): null, false, zero and the empty string are
      falsy; every array and every object, even an empty one, is truthy. */
  predicate Truthy(v: Json)
    ensures Truthy(v) <==> v != JNull && v != JBool(false) && v != JNumber(0.0) && v != JString("")
  {
    match v
    case JNull => false
    case JBool(b) => b
    case JNumber(n) => n != 0.0
    case JString(str) => str != ""
    case JArray(_) => true
    case JObject(_) => true
  }

  /** `!!o[key]` for a parsed object o; an absent member reads as undefined,
      which is falsy. */
  predicate TruthyMember(members: map<string, Json>, key: string)
    ensures key !in members ==> !TruthyMember(members, key)
    ensures key in members ==> (TruthyMember(members, key) <==> Truthy(members[key]))
  {
    key in members && Truthy(members[key])
  }
}
