/** JSON values as the deck validator receives them. */
module Json {

  datatype Option<+T> = None | Some(value: T)

  /** A JSON document. Numbers are mathematical reals (no NaN, no infinities, no signed zero). */
  datatype Json =
    | JNull
    | JBool(b: bool)
    | JNumber(n: real)
    | JString(s: string)
    | JArray(items: seq<Json>)
    | JObject(fields: map<string, Json>)

  /** JavaScript's Number.isInteger on a finite number. */
  predicate IsInteger(n: real) {
    n.Floor as real == n
  }

  /** Property access on an object: None stands for JavaScript's `undefined` (an absent key). */
  function Get(m: map<string, Json>, key: string): (r: Option<Json>)
    ensures r.Some? <==> key in m
    ensures r.Some? ==> r.value == m[key]
  {
    if key in m then Some(m[key]) else None
  }

  /** The entries of `m` whose keys are in `keys`. */
  function Restrict(m: map<string, Json>, keys: set<string>): (r: map<string, Json>)
    ensures r.Keys == m.Keys * keys
    ensures forall k :: k in r ==> r[k] == m[k]
  {
    map k | k in m && k in keys :: m[k]
  }

  /** Adding an entry for a new key before or after the others gives the same object. */
  lemma InsertNewKey(m: map<string, Json>, key: string, v: Json)
    requires key !in m
    ensures map[key := v] + m == m[key := v]
  {
  }
}
