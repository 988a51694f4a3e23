/**
 * `enum Item` with `#[serde(untagged)]` (src/models/feed.rs:6-49): decoding
 * tries the variants one after the other and keeps the first whose struct
 * binds; encoding writes the wrapped struct's fields and no tag.
 */
module FeedItem {
  import opened Wrappers
  import opened Json
  import opened Serde
  import opened FeedSchema

  /** The nested struct `TokenMarketCap` (src/models/feed.rs:110-119). */
  datatype TokenMarketCap = TokenMarketCap(token_address: string, market_cap: real, liquidity: real)

  /** A field value of one of the scalar types. */
  datatype Value =
    | VStr(s: string)
    | VBool(b: bool)
    | VU32(u32: U32)
    | VU64(u64: U64)
    | VF64(f64: real)
    | VMarketCap(mc: TokenMarketCap)

  /** A field's content; `Empty` is the `None` of an `Option` field. */
  datatype Slot = Filled(v: Value) | Empty

  /** A feed item: the variant and its struct's fields in declaration order. */
  datatype Item = Item(variant: Variant, slots: seq<Slot>)

  predicate HasScalar(s: Scalar, v: Value)
  {
    match s
    case Str => v.VStr?
    case Bool => v.VBool?
    case U32 => v.VU32?
    case U64 => v.VU64?
    case F64 => v.VF64?
    case MarketCap => v.VMarketCap?
  }

  predicate SlotFits(k: Kind, slot: Slot)
  {
    match k
    case Req(s) => slot.Filled? && HasScalar(s, slot.v)
    case Opt(s) => slot.Empty? || HasScalar(s, slot.v)
  }

  /** `slots` is a value of a struct whose field types are `kinds`. */
  predicate Conforms(kinds: seq<Kind>, slots: seq<Slot>)
  {
    |slots| == |kinds| && forall i | 0 <= i < |kinds| :: SlotFits(kinds[i], slots[i])
  }

  /** The values Rust's type system allows for an `Item`. */
  predicate WellFormed(it: Item)
  {
    Conforms(Kinds(it.variant), it.slots)
  }

  // ---------------------------------------------------------------------
  // Decoding

  /** `TokenMarketCap`: three required fields. */
  function DecodeMarketCap(j: Json): Option<TokenMarketCap>
  {
    match Members(j, MarketCapStruct.names)
    case None => None
    case Some(ps) =>
      if ps[0].None? || ps[1].None? || ps[2].None? then None
      else match (AsStr(ps[0].value), AsFloat(ps[1].value), AsFloat(ps[2].value))
        case (Some(a), Some(c), Some(l)) => Some(TokenMarketCap(a, c, l))
        case _ => None
  }

  /** One present, non-absent value read as a field of scalar type `s`. */
  function BindScalar(s: Scalar, j: Json): (r: Option<Value>)
    ensures r.Some? ==> HasScalar(s, r.value)
  {
    match s
    case Str => if j.JStr? then Some(VStr(j.s)) else None
    case Bool => if j.JBool? then Some(VBool(j.b)) else None
    case U32 =>
      (match AsUnsigned(j, U32_LIMIT)
       case Some(n) => Some(VU32(n))
       case None => None)
    case U64 =>
      (match AsUnsigned(j, U64_LIMIT)
       case Some(n) => Some(VU64(n))
       case None => None)
    case F64 => if j.JNum? then Some(VF64(AsF64(j.n))) else None
    case MarketCap =>
      (match DecodeMarketCap(j)
       case Some(mc) => Some(VMarketCap(mc))
       case None => None)
  }

  /**
   * One field, given what the struct deserializer found for it (`None` when
   * the key is absent). A required field must be present and bind; an
   * `Option` field is `None` when absent or null, and otherwise must bind.
   */
  function BindSlot(k: Kind, present: Option<Json>): (r: Option<Slot>)
    ensures r.Some? ==> SlotFits(k, r.value)
  {
    match k
    case Req(s) =>
      if present.None? then None
      else (match BindScalar(s, present.value)
            case Some(v) => Some(Filled(v))
            case None => None)
    case Opt(s) =>
      if present.None? || present.value == JNull then Some(Empty)
      else (match BindScalar(s, present.value)
            case Some(v) => Some(Filled(v))
            case None => None)
  }

  /** All fields together: every one must bind, or the struct does not. */
  function BindFields(kinds: seq<Kind>, ps: seq<Option<Json>>): (r: Option<seq<Slot>>)
    requires |kinds| == |ps|
    ensures r.Some? <==> forall i | 0 <= i < |kinds| :: BindSlot(kinds[i], ps[i]).Some?
    ensures r.Some? ==> |r.value| == |kinds|
    ensures r.Some? ==> forall i | 0 <= i < |kinds| :: r.value[i] == BindSlot(kinds[i], ps[i]).value
  {
    if kinds == [] then Some([])
    else
      var head := BindSlot(kinds[0], ps[0]);
      var rest := BindFields(kinds[1..], ps[1..]);
      if head.Some? && rest.Some? then Some([head.value] + rest.value)
      else
        assert head.Some? ==> BindSlot(kinds[1..][0], ps[1..][0]).None? || exists i | 1 <= i < |kinds| - 1 :: BindSlot(kinds[1..][i], ps[1..][i]).None?;
        None
  }

  /** A struct read from a JSON value by serde's derived deserializer. */
  function BindStruct(st: Struct, j: Json): (r: Option<seq<Slot>>)
    requires st.Aligned()
    ensures r.Some? ==> Conforms(st.kinds, r.value)
  {
    match Members(j, st.names)
    case None => None
    case Some(ps) => BindFields(st.kinds, ps)
  }

  /** Struct `st` binds `j`. */
  predicate Admits(st: Struct, j: Json)
  {
    st.Aligned() && BindStruct(st, j).Some?
  }

  /** The structs of the variants in `order`, position by position. */
  function Shapes(order: seq<Variant>): (shapes: seq<Struct>)
    ensures |shapes| == |order|
    ensures forall k | 0 <= k < |order| :: shapes[k] == Schema(order[k])
  {
    seq(|order|, k requires 0 <= k < |order| => Schema(order[k]))
  }

  /**
   * The untagged search: the first position at or after `from` whose struct
   * admits `j`.
   */
  function FirstMatch(shapes: seq<Struct>, j: Json, from: nat): (r: Option<nat>)
    requires from <= |shapes|
    decreases |shapes| - from
    ensures r.Some? ==> from <= r.value < |shapes| && Admits(shapes[r.value], j)
    ensures r.Some? ==> forall k | from <= k < r.value :: !Admits(shapes[k], j)
    ensures r.None? ==> forall k | from <= k < |shapes| :: !Admits(shapes[k], j)
  {
    if from == |shapes| then None
    else if Admits(shapes[from], j) then Some(from)
    else FirstMatch(shapes, j, from + 1)
  }

  /**
   * Untagged decoding over a given variant order: what it returns is an item
   * of a listed variant, with values of its struct's field types.
   */
  function DecodeIn(order: seq<Variant>, j: Json): (r: Option<Item>)
    ensures r.Some? ==> r.value.variant in order && WellFormed(r.value)
  {
    var shapes := Shapes(order);
    match FirstMatch(shapes, j, 0)
    case None => None
    case Some(k) => Some(Item(order[k], BindStruct(shapes[k], j).value))
  }

  /** `Item`'s deserializer: the variants in declaration order. */
  function Decode(j: Json): (r: Option<Item>)
    ensures r.Some? ==> WellFormed(r.value)
  {
    DecodeIn(DeclaredOrder, j)
  }

  // ---------------------------------------------------------------------
  // Encoding

  function EncodeMarketCap(mc: TokenMarketCap): Json
  {
    JObj(map[
      "token_address" := JStr(mc.token_address),
      "market_cap" := JNum(Float(mc.market_cap)),
      "liquidity" := JNum(Float(mc.liquidity))])
  }

  /** A value as serde_json writes it; an `f64` is written with a fraction. */
  function EncodeValue(v: Value): (r: Json)
    ensures r != JNull
  {
    match v
    case VStr(s) => JStr(s)
    case VBool(b) => JBool(b)
    case VU32(n) => JNum(Int(n))
    case VU64(n) => JNum(Int(n))
    case VF64(x) => JNum(Float(x))
    case VMarketCap(mc) => EncodeMarketCap(mc)
  }

  /** `None` is written as null: no field is skipped. */
  function EncodeSlot(s: Slot): Json
  {
    match s
    case Filled(v) => EncodeValue(v)
    case Empty => JNull
  }

  /**
   * A struct's fields as a JSON object. Every struct's keys are distinct; a
   * repeated key would keep its last value.
   */
  function EncodeMembers(names: seq<string>, slots: seq<Slot>): (m: map<string, Json>)
    requires |names| == |slots|
    ensures m.Keys == set n | n in names
    ensures Distinct(names) ==> forall i | 0 <= i < |names| :: m[names[i]] == EncodeSlot(slots[i])
  {
    if names == [] then map[]
    else
      var rest := EncodeMembers(names[1..], slots[1..]);
      var m := if names[0] in rest then rest else rest[names[0] := EncodeSlot(slots[0])];
      assert forall i | 1 <= i < |names| :: names[1..][i - 1] == names[i];
      m
  }

  /**
   * `Item`'s serializer: the wrapped struct's fields, with no tag. The
   * object has exactly the struct's keys.
   */
  function Encode(it: Item): (r: Json)
    requires WellFormed(it)
    ensures r.JObj? && r.members.Keys == set n | n in Names(it.variant)
  {
    SchemaAligned(it.variant);
    JObj(EncodeMembers(Names(it.variant), it.slots))
  }
}
