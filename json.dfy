/**
 * JSON documents as value trees, the form serde sees once the text has been
 * parsed. Parsing and printing JSON text are library behaviour and are not
 * modelled.
 */
module Json {

  /**
   * A JSON number as the JSON library classifies it: an integer literal
   * (no fraction, no exponent, inside the library's 64-bit range) or any
   * other finite number. A finite `f64` is modelled by the exact real it
   * denotes: nothing here does arithmetic on it.
   */
  datatype Number = Int(i: int) | Float(x: real)

  datatype Json =
    | JNull
    | JBool(b: bool)
    | JNum(n: Number)
    | JStr(s: string)
    | JArr(elems: seq<Json>)
    | JObj(members: map<string, Json>)

  const U32_LIMIT: int := 0x1_0000_0000
  const U64_LIMIT: int := 0x1_0000_0000_0000_0000

  /** The values of Rust's `u32` and `u64`. */
  type U32 = n: int | 0 <= n < U32_LIMIT
  type U64 = n: int | 0 <= n < U64_LIMIT

  /** True if `n` is an integer literal in the range `0 .. limit - 1`. */
  predicate IsIntegerBelow(n: Number, limit: int)
  {
    n.Int? && 0 <= n.i < limit
  }

  /** The double a number denotes when an `f64` is read from it. */
  function AsF64(n: Number): real
  {
    match n
    case Int(i) => i as real
    case Float(x) => x
  }
}
