/**
 * What serde's derived `Deserialize` and `Serialize` do with one struct field
 * and one scalar, over JSON value trees. Shared by the feed items
 * (src/models/feed.rs) and the response envelope (src/models/mod.rs).
 */
module Serde {
  import opened Wrappers
  import opened Json

  /** True if no key occurs twice. */
  predicate Distinct(names: seq<string>)
  {
    forall i, j | 0 <= i < j < |names| :: names[i] != names[j]
  }

  /**
   * The JSON values a derived struct deserializer sees for the fields
   * `names`: from an object, the member under each key (None when the key
   * is absent; other keys are ignored); from an array, the elements by
   * position, which must number exactly one per field. Anything else is not
   * a struct.
   */
  function Members(j: Json, names: seq<string>): (r: Option<seq<Option<Json>>>)
    ensures r.Some? ==> |r.value| == |names|
  {
    match j
    case JObj(m) =>
      Some(seq(|names|, i requires 0 <= i < |names| =>
        if names[i] in m then Some(m[names[i]]) else None))
    case JArr(xs) =>
      if |xs| == |names| then Some(seq(|xs|, i requires 0 <= i < |xs| => Some(xs[i]))) else None
    case _ => None
  }

  /** A `String` field. */
  function AsStr(j: Json): Option<string>
  {
    if j.JStr? then Some(j.s) else None
  }

  /** A `bool` field. */
  function AsBool(j: Json): Option<bool>
  {
    if j.JBool? then Some(j.b) else None
  }

  /**
   * An unsigned integer field whose type holds `0 .. limit - 1`: only an
   * integer literal in that range is accepted; a fraction, an exponent
   * form or a negative number is refused.
   */
  function AsUnsigned(j: Json, limit: int): (r: Option<int>)
    ensures r.Some? <==> j.JNum? && IsIntegerBelow(j.n, limit)
    ensures r.Some? ==> 0 <= r.value < limit && j == JNum(Int(r.value))
  {
    if j.JNum? && IsIntegerBelow(j.n, limit) then Some(j.n.i) else None
  }

  /** An `f64` field: every JSON number is accepted. */
  function AsFloat(j: Json): Option<real>
  {
    if j.JNum? then Some(AsF64(j.n)) else None
  }

  /** An `Option<String>` field: absent or null is `None`. */
  function AsOptStr(present: Option<Json>): Option<Option<string>>
  {
    if present.None? || present.value == JNull then Some(None)
    else match AsStr(present.value)
      case Some(s) => Some(Some(s))
      case None => None
  }

  /** How an `Option<String>` field is written: `None` becomes null. */
  function FromOptStr(o: Option<string>): Json
  {
    match o
    case Some(s) => JStr(s)
    case None => JNull
  }

  lemma OptStrRoundTrip(o: Option<string>)
    ensures AsOptStr(Some(FromOptStr(o))) == Some(o)
  {
  }
}
