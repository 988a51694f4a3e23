/**
 * The shapes of the feed items (src/models/feed.rs): the struct that every
 * variant of `enum Item` wraps, as two aligned columns, the JSON key serde
 * uses for each field (`r#type` is the key "type") and the field's type.
 */
module FeedSchema {

  /** The Rust field types that occur in the item structs. */
  datatype Scalar =
    | Str        // String
    | Bool       // bool
    | U32        // u32
    | U64        // u64
    | F64        // f64
    | MarketCap  // the nested struct TokenMarketCap

  /** `Req(s)` is a field of type `s`; `Opt(s)` a field of type `Option<s>`. */
  datatype Kind = Req(scalar: Scalar) | Opt(scalar: Scalar)

  /**
   * A struct's fields in declaration order: field `i` has JSON key `names[i]`
   * and type `kinds[i]`.
   */
  datatype Struct = Struct(names: seq<string>, kinds: seq<Kind>)
  {
    predicate Aligned() { |names| == |kinds| }
  }

  /** The variants of `enum Item`, one per struct (`Option` is `OptionType`). */
  datatype Variant =
    | Swap | Lp | Transfer | Lending | NftMint | NftTrade | NftTransfer
    | NftLending | Bridge | ContractInteraction | Wrap | SudoPool | Reward
    | Staking | Perp | Flashloan | ContractCreation | NftLiquidation
    | OptionType | NftSweep

  /** The order in which `enum Item` declares its variants. */
  const DeclaredOrder: seq<Variant> := [
    Swap, Lp, Transfer, Lending, NftMint, NftTrade, NftTransfer, NftLending,
    Bridge, ContractInteraction, Wrap, SudoPool, Reward, Staking, Perp,
    Flashloan, ContractCreation, NftLiquidation, OptionType, NftSweep
  ]

  /** The struct `TokenMarketCap`. */
  const MarketCapStruct: Struct :=
    Struct(["token_address", "market_cap", "liquidity"], [Req(Str), Req(F64), Req(F64)])

  /** The seven fields every item struct starts with. */
  const HeaderNames: seq<string> :=
    ["wallet", "wallet_label", "tx_hash", "tx_type", "chain", "index", "timestamp"]
  const HeaderKinds: seq<Kind> :=
    [Req(Str), Req(Str), Req(Str), Req(Str), Req(Str), Req(U32), Req(U64)]

  /** The header and then `block`, the eighth field of every item struct. */
  const LeadNames: seq<string> := HeaderNames + ["block"]

  /** The type of `block`: `Option<u64>` in `SudoPool`, `u64` in every other struct. */
  function BlockKind(v: Variant): Kind
  {
    if v == SudoPool then Opt(U64) else Req(U64)
  }

  /** The struct a variant wraps. */
  function Schema(v: Variant): Struct
  {
    Struct(Names(v), Kinds(v))
  }

  /** The JSON keys of a variant's fields, in declaration order. */
  function Names(v: Variant): seq<string>
  {
    LeadNames + BodyNames(v)
  }

  /** The types of a variant's fields, in declaration order. */
  function Kinds(v: Variant): seq<Kind>
  {
    HeaderKinds + [BlockKind(v)] + BodyKinds(v)
  }

  /** The sender and receiver with their labels, at the start of six structs. */
  const PartyKeys: seq<string> := [
    "from", "to", "from_label", "to_label"
  ]

  /** The first token of a pair: `Swap`, `Lp`, `SudoPool` and `Perp` carry these seven fields. */
  const Token0Keys: seq<string> := [
    "token0_address", "token0_amount", "token0_amount_usd", "token0_name",
    "token0_price_usd", "token0_symbol", "token0_icon_link"
  ]

  /** The second token of a pair: `Swap`, `Lp` and `Perp` carry these seven fields. */
  const Token1Keys: seq<string> := [
    "token1_address", "token1_amount", "token1_amount_usd", "token1_name",
    "token1_price_usd", "token1_symbol", "token1_icon_link"
  ]

  const SwapKeys: seq<string> := [
    "dex", "from", "to"
  ]

  const SwapTailKeys: seq<string> := [
    "first_interaction", "token_market_cap"
  ]

  const LpKeys: seq<string> := [
    "dex", "from", "type"
  ]

  const LpRangeKeys: seq<string> := [
    "lower_bound", "upper_bound"
  ]

  const TransferKeys: seq<string> := [
    "amount_usd", "contract_address", "name", "symbol",
    "token_price_usd", "type", "token_icon_link", "token_market_cap"
  ]

  const LendingKeys: seq<string> := [
    "from", "from_label", "action", "address",
    "amount", "amount_usd", "dex", "health_factor",
    "name", "platform", "price_usd", "symbol",
    "token_icon_link"
  ]

  const NftMintKeys: seq<string> := [
    "thumbnail", "image", "amount", "contract_address",
    "contract_type", "fee", "nft_name", "nft_symbol",
    "nft_token_id", "currency_symbol", "type", "value",
    "value_usd"
  ]

  const NftTradeKeys: seq<string> := [
    "from", "to", "thumbnail", "image",
    "action", "contract", "marketplace", "nft_address",
    "nft_name", "nft_symbol"
  ]

  const NftTradeSaleKeys: seq<string> := [
    "nft_token_id", "price", "price_usd", "profit",
    "currency_symbol", "buyer", "seller", "token",
    "first_interaction", "bid_accepted"
  ]

  const NftTransferKeys: seq<string> := [
    "thumbnail", "image", "contract_address", "contract_type",
    "fee", "nft_name", "nft_symbol", "nft_token_id",
    "type", "value"
  ]

  const NftLendingKeys: seq<string> := [
    "thumbnail", "image", "action", "currency_address",
    "currency_symbol", "interest", "nft_address", "nft_name",
    "nft_symbol", "platform", "nft_token_id", "price",
    "price_usd", "terms", "refinance"
  ]

  const BridgeKeys: seq<string> := [
    "token_address", "token_name", "token_symbol", "token_icon_link",
    "amount", "amount_usd", "from_chain", "to_chain",
    "platform", "price", "type"
  ]

  const ContractInteractionKeys: seq<string> := [
    "from", "to", "contract_address", "contract_label"
  ]

  const WrapKeys: seq<string> := [
    "dex", "from", "to", "action",
    "amount", "amount_usd", "contract_address", "name",
    "symbol", "token_price_usd", "token_type", "token_icon_link"
  ]

  const SudoPoolKeys: seq<string> := [
    "dex", "from", "nft_address", "nft_amount",
    "nft_price", "nft_symbol", "to"
  ]

  const RewardKeys: seq<string> := [
    "address", "amount", "amount_usd", "from",
    "name", "price_usd", "symbol"
  ]

  const StakingKeys: seq<string> := [
    "amount", "amount_usd", "token_price_usd", "contract_address",
    "symbol", "name", "action"
  ]

  const PerpKeys: seq<string> := [
    "action", "amount_usd", "average_price", "base_token_address",
    "base_token_amount", "base_token_symbol", "dex", "from",
    "liquidation", "liquidation_price", "to", "trade_direction",
    "perp_details"
  ]

  const PerpPositionKeys: seq<string> := [
    "realized_pnl", "is_nft_perp", "position_size", "position_size_usd",
    "leverage", "unrealized_pnl"
  ]

  const FlashloanKeys: seq<string> := [
    "address", "amount", "amount_usd", "dex",
    "from", "health_factor", "name", "platform",
    "price_usd", "symbol", "token_icon_link"
  ]

  const ContractCreationKeys: seq<string> := [
    "amount_usd", "contract_address", "from", "from_label"
  ]

  const NftLiquidationKeys: seq<string> := [
    "contract_address", "currency_address", "currency_symbol", "dex",
    "from", "nft_address", "nft_name", "nft_symbol",
    "platform", "price", "price_usd", "to",
    "token_id"
  ]

  const OptionTypeKeys: seq<string> := [
    "action", "amount", "asset", "dex",
    "direction", "expiry", "from", "option_price_usd",
    "position_status", "spot_price_usd", "status", "strike_price_usd",
    "to", "type"
  ]

  /** `NftSweep` declares its own fields, the same as `NftTrade`'s. */
  const NftSweepKeys: seq<string> := [
    "from", "to", "thumbnail", "image",
    "action", "contract", "marketplace", "nft_address",
    "nft_name", "nft_symbol"
  ]

  const NftSweepSaleKeys: seq<string> := [
    "nft_token_id", "price", "price_usd", "profit",
    "currency_symbol", "buyer", "seller", "token",
    "first_interaction", "bid_accepted"
  ]

  /**
   * The JSON keys of the fields after `block`, in declaration order, as runs
   * of consecutive keys; runs that several structs share are named once.
   */
  function BodyNames(v: Variant): seq<string>
  {
    match v
    case Swap => SwapKeys + Token0Keys + Token1Keys + SwapTailKeys
    case Lp => LpKeys + Token0Keys + Token1Keys + LpRangeKeys
    case Transfer => PartyKeys + TransferKeys
    case Lending => LendingKeys
    case NftMint => PartyKeys + NftMintKeys
    case NftTrade => NftTradeKeys + NftTradeSaleKeys
    case NftTransfer => PartyKeys + NftTransferKeys
    case NftLending => PartyKeys + NftLendingKeys
    case Bridge => PartyKeys + BridgeKeys
    case ContractInteraction => ContractInteractionKeys
    case Wrap => WrapKeys
    case SudoPool => SudoPoolKeys + Token0Keys
    case Reward => RewardKeys
    case Staking => PartyKeys + StakingKeys
    case Perp => PerpKeys + Token0Keys + Token1Keys + PerpPositionKeys
    case Flashloan => FlashloanKeys
    case ContractCreation => ContractCreationKeys
    case NftLiquidation => NftLiquidationKeys
    case OptionType => OptionTypeKeys
    case NftSweep => NftSweepKeys + NftSweepSaleKeys
  }

  /** The types of the fields after `block`, in declaration order. */
  function BodyKinds(v: Variant): seq<Kind>
  {
    match v
      case Swap => [
        Req(Str), Req(Str), Req(Str), Req(Str),
        Req(F64), Req(F64), Req(Str), Req(F64),
        Req(Str), Req(Str), Req(Str), Req(F64),
        Req(F64), Req(Str), Req(F64), Req(Str),
        Req(Str), Req(Bool), Opt(MarketCap)
      ]
      case Lp => [
        Req(Str), Req(Str), Req(Str), Req(Str),
        Req(F64), Req(F64), Req(Str), Req(F64),
        Req(Str), Req(Str), Req(Str), Req(F64),
        Req(F64), Req(Str), Req(F64), Req(Str),
        Req(Str), Req(F64), Req(F64)
      ]
      case Transfer => [
        Req(Str), Req(Str), Req(Str), Req(Str),
        Req(F64), Req(Str), Req(Str), Req(Str),
        Req(F64), Req(Str), Req(Str), Opt(MarketCap)
      ]
      case Lending => [
        Req(Str), Req(Str), Req(Str), Req(Str),
        Req(F64), Req(F64), Req(Str), Req(F64),
        Req(Str), Req(Str), Req(F64), Req(Str),
        Req(Str)
      ]
      case NftMint => [
        Req(Str), Req(Str), Req(Str), Req(Str),
        Req(Str), Req(Str), Req(F64), Req(Str),
        Req(Str), Req(F64), Req(Str), Req(Str),
        Req(Str), Req(Str), Req(Str), Req(F64),
        Req(F64)
      ]
      case NftTrade => [
        Req(Str), Req(Str), Req(Str), Req(Str),
        Req(Str), Req(Str), Req(Str), Req(Str),
        Req(Str), Req(Str), Req(Str), Req(F64),
        Req(F64), Req(F64), Req(Str), Req(Str),
        Req(Str), Req(Str), Req(Bool), Req(Bool)
      ]
      case NftTransfer => [
        Req(Str), Req(Str), Req(Str), Req(Str),
        Req(Str), Req(Str), Req(Str), Req(Str),
        Req(F64), Req(Str), Req(Str), Req(Str),
        Req(Str), Req(F64)
      ]
      case NftLending => [
        Req(Str), Req(Str), Req(Str), Req(Str),
        Req(Str), Req(Str), Req(Str), Req(Str),
        Req(Str), Req(F64), Req(Str), Req(Str),
        Req(Str), Req(Str), Req(Str), Req(F64),
        Req(F64), Req(F64), Req(Bool)
      ]
      case Bridge => [
        Req(Str), Req(Str), Req(Str), Req(Str),
        Req(Str), Req(Str), Req(Str), Req(Str),
        Req(F64), Req(F64), Req(Str), Req(Str),
        Req(Str), Req(F64), Req(Str)
      ]
      case ContractInteraction => [
        Req(Str), Req(Str), Req(Str), Req(Str)
      ]
      case Wrap => [
        Req(Str), Req(Str), Req(Str), Req(Str),
        Req(F64), Req(F64), Req(Str), Req(Str),
        Req(Str), Req(F64), Req(Str), Req(Str)
      ]
      case SudoPool => [
        Opt(Str), Req(Str), Req(Str), Req(U32),
        Req(F64), Req(Str), Req(Str), Req(Str),
        Req(F64), Req(F64), Req(Str), Req(F64),
        Req(Str), Req(Str)
      ]
      case Reward => [
        Req(Str), Req(F64), Req(F64), Req(Str),
        Req(Str), Req(F64), Req(Str)
      ]
      case Staking => [
        Req(Str), Req(Str), Req(Str), Req(Str),
        Req(F64), Req(F64), Req(F64), Req(Str),
        Req(Str), Req(Str), Req(Str)
      ]
      case Perp => [
        Req(Str), Req(F64), Req(F64), Req(Str),
        Req(F64), Req(Str), Req(Str), Req(Str),
        Req(Bool), Req(F64), Req(Str), Req(Str),
        Req(Str), Req(Str), Req(F64), Req(F64),
        Req(Str), Req(F64), Req(Str), Req(Str),
        Req(Str), Req(F64), Req(F64), Req(Str),
        Req(F64), Req(Str), Req(Str), Req(F64),
        Req(Bool), Opt(F64), Opt(F64), Opt(F64),
        Opt(F64)
      ]
      case Flashloan => [
        Req(Str), Req(F64), Req(F64), Req(Str),
        Req(Str), Req(F64), Req(Str), Req(Str),
        Req(F64), Req(Str), Req(Str)
      ]
      case ContractCreation => [
        Req(F64), Req(Str), Req(Str), Req(Str)
      ]
      case NftLiquidation => [
        Req(Str), Req(Str), Req(Str), Req(Str),
        Req(Str), Req(Str), Req(Str), Req(Str),
        Req(Str), Req(F64), Req(F64), Req(Str),
        Req(Str)
      ]
      case OptionType => [
        Req(Str), Req(F64), Req(Str), Req(Str),
        Req(Str), Req(Str), Req(Str), Req(F64),
        Req(Str), Req(F64), Req(Str), Req(F64),
        Req(Str), Req(Str)
      ]
      case NftSweep => [
        Req(Str), Req(Str), Req(Str), Req(Str),
        Req(Str), Req(Str), Req(Str), Req(Str),
        Req(Str), Req(Str), Req(Str), Req(F64),
        Req(F64), Req(F64), Req(Str), Req(Str),
        Req(Str), Req(Str), Req(Bool), Req(Bool)
      ]
  }


  /** Field `h` of every item struct is the header's field `h`, or `block`. */
  lemma LeadingField(v: Variant, h: nat)
    requires h < |LeadNames|
    ensures h < |Names(v)| && Names(v)[h] == LeadNames[h]
    ensures h < |Kinds(v)| && Kinds(v)[h] == (HeaderKinds + [BlockKind(v)])[h]
  {
  }

  /** Each variant gives one type per key. */
  lemma SchemaAligned(v: Variant)
    ensures Schema(v).Aligned()
  {
    if v == Swap || v == Lp || v == Transfer || v == Lending {
      BodyAlignedA(v);
    } else if v == NftMint || v == NftTrade || v == NftTransfer || v == NftLending {
      BodyAlignedB(v);
    } else if v == Bridge || v == ContractInteraction || v == Wrap || v == SudoPool || v == Reward {
      BodyAlignedC(v);
    } else if v == Perp || v == Staking {
      BodyAlignedD(v);
    } else {
      BodyAlignedE(v);
    }
  }

  lemma BodyAlignedA(v: Variant)
    requires v == Swap || v == Lp || v == Transfer || v == Lending
    ensures |BodyNames(v)| == |BodyKinds(v)|
  {
    match v
    case Swap =>
    case Lp =>
    case Transfer =>
    case Lending =>
  }

  lemma BodyAlignedB(v: Variant)
    requires v == NftMint || v == NftTrade || v == NftTransfer || v == NftLending
    ensures |BodyNames(v)| == |BodyKinds(v)|
  {
    match v
    case NftMint =>
    case NftTrade =>
    case NftTransfer =>
    case NftLending =>
  }

  lemma BodyAlignedC(v: Variant)
    requires v == Bridge || v == ContractInteraction || v == Wrap || v == SudoPool || v == Reward
    ensures |BodyNames(v)| == |BodyKinds(v)|
  {
    match v
    case Bridge =>
    case ContractInteraction =>
    case Wrap =>
    case SudoPool =>
    case Reward =>
  }

  lemma BodyAlignedD(v: Variant)
    requires v == Perp || v == Staking
    ensures |BodyNames(v)| == |BodyKinds(v)|
  {
    match v
    case Perp =>
    case Staking =>
  }

  lemma BodyAlignedE(v: Variant)
    requires v == Flashloan || v == ContractCreation || v == NftLiquidation || v == OptionType || v == NftSweep
    ensures |BodyNames(v)| == |BodyKinds(v)|
  {
    match v
    case Flashloan =>
    case ContractCreation =>
    case NftLiquidation =>
    case OptionType =>
    case NftSweep =>
  }

  /** Where a variant's `Option` fields sit: from position `lo` up to `hi`, exclusive. */
  function OptionalSpan(v: Variant): (span: (nat, nat))
    ensures span.0 <= span.1
  {
    match v
    case Swap => (18, 19)
    case Transfer => (11, 12)
    case SudoPool => (0, 1)
    case Perp => (29, 33)
    case _ => (0, 0)
  }

  /** The keys of a variant's `Option` fields, in declaration order. */
  function OptionalNames(v: Variant): seq<string>
  {
    match v
    case Swap => ["token_market_cap"]
    case Transfer => ["token_market_cap"]
    case SudoPool => ["dex"]
    case Perp => ["position_size", "position_size_usd", "leverage", "unrealized_pnl"]
    case _ => []
  }

  /**
   * Exactly the fields in `OptionalSpan(v)` have an `Option` type, and they
   * are the ones `OptionalNames(v)` lists; every other field is required.
   */
  predicate OptionalExactly(v: Variant)
  {
    var (lo, hi) := OptionalSpan(v);
    hi <= |BodyKinds(v)| &&
    (forall i | 0 <= i < |BodyKinds(v)| :: BodyKinds(v)[i].Opt? <==> lo <= i < hi)
  }

  lemma OptionalFields(v: Variant)
    ensures OptionalExactly(v)
  {
    if v == Swap || v == Lp || v == Transfer || v == Lending {
      OptionalFieldsA(v);
    } else if v == NftMint || v == NftTrade || v == NftTransfer || v == NftLending {
      OptionalFieldsB(v);
    } else if v == Bridge || v == ContractInteraction || v == Wrap || v == SudoPool || v == Reward {
      OptionalFieldsC(v);
    } else if v == Perp || v == Staking {
      OptionalFieldsD(v);
    } else {
      OptionalFieldsE(v);
    }
  }

  lemma OptionalFieldsA(v: Variant)
    requires v == Swap || v == Lp || v == Transfer || v == Lending
    ensures OptionalExactly(v)
  {
    match v
    case Swap =>
    case Lp =>
    case Transfer =>
    case Lending =>
  }

  lemma OptionalFieldsB(v: Variant)
    requires v == NftMint || v == NftTrade || v == NftTransfer || v == NftLending
    ensures OptionalExactly(v)
  {
    match v
    case NftMint =>
    case NftTrade =>
    case NftTransfer =>
    case NftLending =>
  }

  lemma OptionalFieldsC(v: Variant)
    requires v == Bridge || v == ContractInteraction || v == Wrap || v == SudoPool || v == Reward
    ensures OptionalExactly(v)
  {
    match v
    case Bridge =>
    case ContractInteraction =>
    case Wrap =>
    case SudoPool =>
    case Reward =>
  }

  lemma OptionalFieldsD(v: Variant)
    requires v == Perp || v == Staking
    ensures OptionalExactly(v)
  {
    match v
    case Perp =>
    case Staking =>
  }

  lemma OptionalFieldsE(v: Variant)
    requires v == Flashloan || v == ContractCreation || v == NftLiquidation || v == OptionType || v == NftSweep
    ensures OptionalExactly(v)
  {
    match v
    case Flashloan =>
    case ContractCreation =>
    case NftLiquidation =>
    case OptionType =>
    case NftSweep =>
  }

  /** The `Option` fields of `OptionalSpan(v)` carry the keys `OptionalNames(v)`. */
  lemma OptionalFieldNames(v: Variant)
    ensures OptionalSpan(v).1 - OptionalSpan(v).0 == |OptionalNames(v)|
    ensures forall i | OptionalSpan(v).0 <= i < OptionalSpan(v).1 ::
      i < |BodyNames(v)| && BodyNames(v)[i] == OptionalNames(v)[i - OptionalSpan(v).0]
  {
    match v
    case Swap =>
    case Transfer =>
    case SudoPool =>
    case Perp =>
    case _ =>
  }
}
