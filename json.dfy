/**
 * JSON documents as Go's encoding/json hands them to the code: a value tree
 * whose objects are maps (duplicate keys already resolved, the last one wins)
 * and whose numbers keep the one distinction the decoder makes, whether the
 * literal is a plain integer or carries a fraction or an exponent.
 */
module Json {

  /** A JSON number literal: digits with an optional minus sign, or anything else, by its value. */
  datatype Number = IntLit(i: int) | FracLit(r: real)

  datatype Json =
    | Null
    | Bool(b: bool)
    | Num(n: Number)
    | Str(s: string)
    | Arr(items: seq<Json>)
    | Obj(fields: map<string, Json>)

  /** The first JSON value read from a request body, or the decoder's error message. */
  datatype Wire = Broken(reason: string) | Parsed(doc: Json)

  /**
   * The number's exact value. Decoding into `any` gives the nearest float64
   * instead; the two agree on every integer of magnitude at most 2^53 and on
   * every fraction a float64 holds exactly, and this model keeps the exact value.
   */
  function Float(n: Number): real {
    match n
    case IntLit(i) => i as real
    case FracLit(r) => r
  }

  /** Go's conversion `int(f)`: the fraction is dropped, rounding toward zero. */
  function Truncate(f: real): (i: int)
    ensures 0.0 <= f ==> i as real <= f < i as real + 1.0
    ensures f < 0.0 ==> i as real - 1.0 < f <= i as real
  {
    if f >= 0.0 then f.Floor else -((-f).Floor)
  }

  /** The name encoding/json gives a JSON value's kind in its type errors. */
  function KindName(j: Json): string {
    match j
    case Null => "null"
    case Bool(_) => "bool"
    case Num(_) => "number"
    case Str(_) => "string"
    case Arr(_) => "array"
    case Obj(_) => "object"
  }
}
