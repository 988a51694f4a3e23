/**
 * The round trip of `enum Item` (src/models/feed.rs:6-49): every item whose
 * variant is not shadowed decodes from its own encoding as itself. For each
 * variant, a few keys its struct lacks turn away every variant tried before
 * it: each of those requires one of the keys.
 */
module FeedRoundTrip {
  import opened Wrappers
  import opened Json
  import opened FeedSchema
  import opened FeedItem
  import opened FeedProperties
  import opened FeedShadowing
  import FeedKeys

  /** Where `v` stands in the declared order. */
  function Position(v: Variant): (k: nat)
    ensures k < |DeclaredOrder| && DeclaredOrder[k] == v
  {
    match v
    case Swap => 0
    case Lp => 1
    case Transfer => 2
    case Lending => 3
    case NftMint => 4
    case NftTrade => 5
    case NftTransfer => 6
    case NftLending => 7
    case Bridge => 8
    case ContractInteraction => 9
    case Wrap => 10
    case SudoPool => 11
    case Reward => 12
    case Staking => 13
    case Perp => 14
    case Flashloan => 15
    case ContractCreation => 16
    case NftLiquidation => 17
    case OptionType => 18
    case NftSweep => 19
  }

  /** The variants whose encodings round-trip: all but the two shadowed ones. */
  predicate Reachable(v: Variant)
  {
    v != Flashloan && v != NftSweep
  }

  /** `u`'s body field `i` is required and has key `x`. */
  predicate Needs(u: Variant, i: nat, x: string)
  {
    i < |BodyNames(u)| && i < |BodyKinds(u)| && BodyKinds(u)[i].Req? && BodyNames(u)[i] == x
  }

  /** Keys of required fields of `u` that turn away the variants declared after it. */
  function Signature(u: Variant): seq<string>
  {
    match u
    case Swap => ["dex", "to", "token0_name", "token1_name", "first_interaction"]
    case Lp => ["dex", "type", "token0_name", "token1_name"]
    case Transfer => ["to", "from_label", "amount_usd", "name", "type"]
    case Lending => ["from_label", "amount_usd", "dex", "price_usd"]
    case NftMint => ["to", "from_label", "image", "nft_symbol", "currency_symbol", "type"]
    case NftTrade => ["to", "image", "action", "nft_symbol", "price_usd", "currency_symbol", "buyer"]
    case NftTransfer => ["to", "from_label", "image", "nft_symbol", "type"]
    case NftLending => ["to", "from_label", "image", "nft_symbol", "price_usd"]
    case Bridge => ["to", "from_label", "amount_usd", "type"]
    case ContractInteraction => ["to", "contract_label"]
    case Wrap => ["dex", "to", "action", "amount_usd", "name"]
    case SudoPool => ["nft_price", "nft_symbol", "to", "token0_name"]
    case Reward => ["amount_usd", "name", "price_usd"]
    case Staking => ["to", "from_label", "amount_usd"]
    case Perp => ["amount_usd", "to"]
    case Flashloan => ["amount_usd", "dex"]
    case ContractCreation => ["amount_usd"]
    case NftLiquidation => ["nft_symbol"]
    case _ => []
  }

  /** The body positions of the fields of `Signature(u)`. */
  function SignatureAt(u: Variant): seq<nat>
  {
    match u
    case Swap => [0, 2, 6, 13, 17]
    case Lp => [0, 2, 6, 13]
    case Transfer => [1, 2, 4, 6, 9]
    case Lending => [1, 5, 6, 10]
    case NftMint => [1, 2, 5, 11, 13, 14]
    case NftTrade => [1, 3, 4, 9, 12, 14, 15]
    case NftTransfer => [1, 2, 5, 10, 12]
    case NftLending => [1, 2, 5, 12, 16]
    case Bridge => [1, 2, 9, 14]
    case ContractInteraction => [1, 3]
    case Wrap => [0, 2, 3, 5, 7]
    case SudoPool => [4, 5, 6, 10]
    case Reward => [2, 4, 5]
    case Staking => [1, 2, 5]
    case Perp => [1, 10]
    case Flashloan => [2, 3]
    case ContractCreation => [0]
    case NftLiquidation => [7]
    case _ => []
  }

  /** Keys that struct `v` lacks. */
  function Absent(v: Variant): seq<string>
    requires Reachable(v)
  {
    match v
    case Swap => []
    case Lp => ["to"]
    case Transfer => ["dex"]
    case Lending => ["to", "type"]
    case NftMint => ["dex", "name"]
    case NftTrade => ["dex", "type"]
    case NftTransfer => ["dex", "currency_symbol", "name"]
    case NftLending => ["type", "dex", "buyer"]
    case Bridge => ["image", "dex", "name"]
    case ContractInteraction => ["from_label", "dex", "image"]
    case Wrap => ["from_label", "token0_name", "image", "contract_label"]
    case SudoPool => ["from_label", "action", "token1_name", "contract_label"]
    case Reward => ["to", "dex"]
    case Staking => ["type", "price_usd", "dex", "nft_price", "contract_label"]
    case Perp => ["from_label", "name", "nft_symbol", "type", "contract_label", "first_interaction"]
    case ContractCreation => ["to", "dex", "name"]
    case NftLiquidation => ["amount_usd", "image", "token0_name", "contract_label"]
    case OptionType => ["amount_usd", "nft_symbol", "token0_name", "contract_label"]
  }

  /**
   * For the variant at each position before `v`'s in the declared order, a
   * key of its signature that `v` lacks.
   */
  function BlockKeys(v: Variant): seq<string>
    requires Reachable(v)
  {
    match v
    case Swap => []
    case Lp => ["to"]
    case Transfer => ["dex", "dex"]
    case Lending => ["to", "type", "to"]
    case NftMint => ["dex", "dex", "name", "dex"]
    case NftTrade => ["dex", "dex", "type", "dex", "type"]
    case NftTransfer => ["dex", "dex", "name", "dex", "currency_symbol", "currency_symbol"]
    case NftLending => ["dex", "type", "type", "dex", "type", "buyer", "type"]
    case Bridge => ["dex", "dex", "name", "dex", "image", "image", "image", "image"]
    case ContractInteraction => ["dex", "dex", "from_label", "from_label", "from_label", "image", "from_label", "from_label", "from_label"]
    case Wrap => ["token0_name", "token0_name", "from_label", "from_label", "from_label", "image", "from_label", "from_label", "from_label", "contract_label"]
    case SudoPool => ["token1_name", "token1_name", "from_label", "from_label", "from_label", "action", "from_label", "from_label", "from_label", "contract_label", "action"]
    case Reward => ["to", "dex", "to", "dex", "to", "to", "to", "to", "to", "to", "to", "to"]
    case Staking => ["dex", "type", "type", "price_usd", "type", "price_usd", "type", "price_usd", "type", "contract_label", "dex", "nft_price", "price_usd"]
    case Perp => ["first_interaction", "type", "from_label", "from_label", "from_label", "nft_symbol", "from_label", "from_label", "from_label", "contract_label", "name", "nft_symbol", "name", "from_label"]
    case ContractCreation => ["to", "dex", "to", "dex", "to", "to", "to", "to", "to", "to", "to", "to", "name", "to", "to", "dex"]
    case NftLiquidation => ["token0_name", "token0_name", "amount_usd", "amount_usd", "image", "image", "image", "image", "amount_usd", "contract_label", "amount_usd", "token0_name", "amount_usd", "amount_usd", "amount_usd", "amount_usd", "amount_usd"]
    case OptionType => ["token0_name", "token0_name", "amount_usd", "amount_usd", "nft_symbol", "nft_symbol", "nft_symbol", "nft_symbol", "amount_usd", "contract_label", "amount_usd", "nft_symbol", "amount_usd", "amount_usd", "amount_usd", "amount_usd", "amount_usd", "nft_symbol"]
  }

  // ---------------------------------------------------------------------
  // The signatures are required fields

  lemma SwapSignature()
    ensures |SignatureAt(Swap)| == |Signature(Swap)|
    ensures forall k | 0 <= k < |Signature(Swap)| :: Needs(Swap, SignatureAt(Swap)[k], Signature(Swap)[k])
  {
  }

  lemma LpSignature()
    ensures |SignatureAt(Lp)| == |Signature(Lp)|
    ensures forall k | 0 <= k < |Signature(Lp)| :: Needs(Lp, SignatureAt(Lp)[k], Signature(Lp)[k])
  {
  }

  lemma TransferSignature()
    ensures |SignatureAt(Transfer)| == |Signature(Transfer)|
    ensures forall k | 0 <= k < |Signature(Transfer)| :: Needs(Transfer, SignatureAt(Transfer)[k], Signature(Transfer)[k])
  {
  }

  lemma LendingSignature()
    ensures |SignatureAt(Lending)| == |Signature(Lending)|
    ensures forall k | 0 <= k < |Signature(Lending)| :: Needs(Lending, SignatureAt(Lending)[k], Signature(Lending)[k])
  {
  }

  lemma NftMintSignature()
    ensures |SignatureAt(NftMint)| == |Signature(NftMint)|
    ensures forall k | 0 <= k < |Signature(NftMint)| :: Needs(NftMint, SignatureAt(NftMint)[k], Signature(NftMint)[k])
  {
  }

  lemma NftTradeSignature()
    ensures |SignatureAt(NftTrade)| == |Signature(NftTrade)|
    ensures forall k | 0 <= k < |Signature(NftTrade)| :: Needs(NftTrade, SignatureAt(NftTrade)[k], Signature(NftTrade)[k])
  {
  }

  lemma NftTransferSignature()
    ensures |SignatureAt(NftTransfer)| == |Signature(NftTransfer)|
    ensures forall k | 0 <= k < |Signature(NftTransfer)| :: Needs(NftTransfer, SignatureAt(NftTransfer)[k], Signature(NftTransfer)[k])
  {
  }

  lemma NftLendingSignature()
    ensures |SignatureAt(NftLending)| == |Signature(NftLending)|
    ensures forall k | 0 <= k < |Signature(NftLending)| :: Needs(NftLending, SignatureAt(NftLending)[k], Signature(NftLending)[k])
  {
  }

  lemma BridgeSignature()
    ensures |SignatureAt(Bridge)| == |Signature(Bridge)|
    ensures forall k | 0 <= k < |Signature(Bridge)| :: Needs(Bridge, SignatureAt(Bridge)[k], Signature(Bridge)[k])
  {
  }

  lemma ContractInteractionSignature()
    ensures |SignatureAt(ContractInteraction)| == |Signature(ContractInteraction)|
    ensures forall k | 0 <= k < |Signature(ContractInteraction)| :: Needs(ContractInteraction, SignatureAt(ContractInteraction)[k], Signature(ContractInteraction)[k])
  {
  }

  lemma WrapSignature()
    ensures |SignatureAt(Wrap)| == |Signature(Wrap)|
    ensures forall k | 0 <= k < |Signature(Wrap)| :: Needs(Wrap, SignatureAt(Wrap)[k], Signature(Wrap)[k])
  {
  }

  lemma SudoPoolSignature()
    ensures |SignatureAt(SudoPool)| == |Signature(SudoPool)|
    ensures forall k | 0 <= k < |Signature(SudoPool)| :: Needs(SudoPool, SignatureAt(SudoPool)[k], Signature(SudoPool)[k])
  {
  }

  lemma RewardSignature()
    ensures |SignatureAt(Reward)| == |Signature(Reward)|
    ensures forall k | 0 <= k < |Signature(Reward)| :: Needs(Reward, SignatureAt(Reward)[k], Signature(Reward)[k])
  {
  }

  lemma StakingSignature()
    ensures |SignatureAt(Staking)| == |Signature(Staking)|
    ensures forall k | 0 <= k < |Signature(Staking)| :: Needs(Staking, SignatureAt(Staking)[k], Signature(Staking)[k])
  {
  }

  lemma PerpSignature()
    ensures |SignatureAt(Perp)| == |Signature(Perp)|
    ensures forall k | 0 <= k < |Signature(Perp)| :: Needs(Perp, SignatureAt(Perp)[k], Signature(Perp)[k])
  {
  }

  lemma FlashloanSignature()
    ensures |SignatureAt(Flashloan)| == |Signature(Flashloan)|
    ensures forall k | 0 <= k < |Signature(Flashloan)| :: Needs(Flashloan, SignatureAt(Flashloan)[k], Signature(Flashloan)[k])
  {
  }

  lemma ContractCreationSignature()
    ensures |SignatureAt(ContractCreation)| == |Signature(ContractCreation)|
    ensures forall k | 0 <= k < |Signature(ContractCreation)| :: Needs(ContractCreation, SignatureAt(ContractCreation)[k], Signature(ContractCreation)[k])
  {
  }

  lemma NftLiquidationSignature()
    ensures |SignatureAt(NftLiquidation)| == |Signature(NftLiquidation)|
    ensures forall k | 0 <= k < |Signature(NftLiquidation)| :: Needs(NftLiquidation, SignatureAt(NftLiquidation)[k], Signature(NftLiquidation)[k])
  {
  }

  lemma SignatureHolds(u: Variant)
    ensures |SignatureAt(u)| == |Signature(u)|
    ensures forall k | 0 <= k < |Signature(u)| :: Needs(u, SignatureAt(u)[k], Signature(u)[k])
  {
    match u
    case Swap => SwapSignature();
    case Lp => LpSignature();
    case Transfer => TransferSignature();
    case Lending => LendingSignature();
    case NftMint => NftMintSignature();
    case NftTrade => NftTradeSignature();
    case NftTransfer => NftTransferSignature();
    case NftLending => NftLendingSignature();
    case Bridge => BridgeSignature();
    case ContractInteraction => ContractInteractionSignature();
    case Wrap => WrapSignature();
    case SudoPool => SudoPoolSignature();
    case Reward => RewardSignature();
    case Staking => StakingSignature();
    case Perp => PerpSignature();
    case Flashloan => FlashloanSignature();
    case ContractCreation => ContractCreationSignature();
    case NftLiquidation => NftLiquidationSignature();
    case _ =>
  }

  // ---------------------------------------------------------------------
  // Every variant before `v` has a signature key that `v` lacks

  lemma LpBlocked()
    ensures |BlockKeys(Lp)| == Position(Lp)
    ensures forall p | 0 <= p < Position(Lp) ::
      BlockKeys(Lp)[p] in Signature(DeclaredOrder[p]) && BlockKeys(Lp)[p] in Absent(Lp)
  {
  }

  lemma TransferBlocked()
    ensures |BlockKeys(Transfer)| == Position(Transfer)
    ensures forall p | 0 <= p < Position(Transfer) ::
      BlockKeys(Transfer)[p] in Signature(DeclaredOrder[p]) && BlockKeys(Transfer)[p] in Absent(Transfer)
  {
  }

  lemma LendingBlocked()
    ensures |BlockKeys(Lending)| == Position(Lending)
    ensures forall p | 0 <= p < Position(Lending) ::
      BlockKeys(Lending)[p] in Signature(DeclaredOrder[p]) && BlockKeys(Lending)[p] in Absent(Lending)
  {
  }

  lemma NftMintBlocked()
    ensures |BlockKeys(NftMint)| == Position(NftMint)
    ensures forall p | 0 <= p < Position(NftMint) ::
      BlockKeys(NftMint)[p] in Signature(DeclaredOrder[p]) && BlockKeys(NftMint)[p] in Absent(NftMint)
  {
  }

  lemma NftTradeBlocked()
    ensures |BlockKeys(NftTrade)| == Position(NftTrade)
    ensures forall p | 0 <= p < Position(NftTrade) ::
      BlockKeys(NftTrade)[p] in Signature(DeclaredOrder[p]) && BlockKeys(NftTrade)[p] in Absent(NftTrade)
  {
  }

  lemma NftTransferBlocked()
    ensures |BlockKeys(NftTransfer)| == Position(NftTransfer)
    ensures forall p | 0 <= p < Position(NftTransfer) ::
      BlockKeys(NftTransfer)[p] in Signature(DeclaredOrder[p]) && BlockKeys(NftTransfer)[p] in Absent(NftTransfer)
  {
  }

  lemma NftLendingBlocked()
    ensures |BlockKeys(NftLending)| == Position(NftLending)
    ensures forall p | 0 <= p < Position(NftLending) ::
      BlockKeys(NftLending)[p] in Signature(DeclaredOrder[p]) && BlockKeys(NftLending)[p] in Absent(NftLending)
  {
  }

  lemma BridgeBlocked()
    ensures |BlockKeys(Bridge)| == Position(Bridge)
    ensures forall p | 0 <= p < Position(Bridge) ::
      BlockKeys(Bridge)[p] in Signature(DeclaredOrder[p]) && BlockKeys(Bridge)[p] in Absent(Bridge)
  {
  }

  lemma ContractInteractionBlocked()
    ensures |BlockKeys(ContractInteraction)| == Position(ContractInteraction)
    ensures forall p | 0 <= p < Position(ContractInteraction) ::
      BlockKeys(ContractInteraction)[p] in Signature(DeclaredOrder[p]) && BlockKeys(ContractInteraction)[p] in Absent(ContractInteraction)
  {
  }

  lemma WrapBlocked()
    ensures |BlockKeys(Wrap)| == Position(Wrap)
    ensures forall p | 0 <= p < Position(Wrap) ::
      BlockKeys(Wrap)[p] in Signature(DeclaredOrder[p]) && BlockKeys(Wrap)[p] in Absent(Wrap)
  {
  }

  lemma SudoPoolBlocked()
    ensures |BlockKeys(SudoPool)| == Position(SudoPool)
    ensures forall p | 0 <= p < Position(SudoPool) ::
      BlockKeys(SudoPool)[p] in Signature(DeclaredOrder[p]) && BlockKeys(SudoPool)[p] in Absent(SudoPool)
  {
  }

  lemma RewardBlocked()
    ensures |BlockKeys(Reward)| == Position(Reward)
    ensures forall p | 0 <= p < Position(Reward) ::
      BlockKeys(Reward)[p] in Signature(DeclaredOrder[p]) && BlockKeys(Reward)[p] in Absent(Reward)
  {
  }

  lemma StakingBlocked()
    ensures |BlockKeys(Staking)| == Position(Staking)
    ensures forall p | 0 <= p < Position(Staking) ::
      BlockKeys(Staking)[p] in Signature(DeclaredOrder[p]) && BlockKeys(Staking)[p] in Absent(Staking)
  {
  }

  lemma PerpBlocked()
    ensures |BlockKeys(Perp)| == Position(Perp)
    ensures forall p | 0 <= p < Position(Perp) ::
      BlockKeys(Perp)[p] in Signature(DeclaredOrder[p]) && BlockKeys(Perp)[p] in Absent(Perp)
  {
  }

  lemma ContractCreationBlocked()
    ensures |BlockKeys(ContractCreation)| == Position(ContractCreation)
    ensures forall p | 0 <= p < Position(ContractCreation) ::
      BlockKeys(ContractCreation)[p] in Signature(DeclaredOrder[p]) && BlockKeys(ContractCreation)[p] in Absent(ContractCreation)
  {
  }

  lemma NftLiquidationBlocked()
    ensures |BlockKeys(NftLiquidation)| == Position(NftLiquidation)
    ensures forall p | 0 <= p < Position(NftLiquidation) ::
      BlockKeys(NftLiquidation)[p] in Signature(DeclaredOrder[p]) && BlockKeys(NftLiquidation)[p] in Absent(NftLiquidation)
  {
  }

  lemma OptionTypeBlocked()
    ensures |BlockKeys(OptionType)| == Position(OptionType)
    ensures forall p | 0 <= p < Position(OptionType) ::
      BlockKeys(OptionType)[p] in Signature(DeclaredOrder[p]) && BlockKeys(OptionType)[p] in Absent(OptionType)
  {
  }

  lemma BlockKeysHold(v: Variant)
    requires Reachable(v)
    ensures |BlockKeys(v)| == Position(v)
    ensures forall p | 0 <= p < Position(v) ::
      BlockKeys(v)[p] in Signature(DeclaredOrder[p]) && BlockKeys(v)[p] in Absent(v)
  {
    match v
    case Swap =>
    case Lp => LpBlocked();
    case Transfer => TransferBlocked();
    case Lending => LendingBlocked();
    case NftMint => NftMintBlocked();
    case NftTrade => NftTradeBlocked();
    case NftTransfer => NftTransferBlocked();
    case NftLending => NftLendingBlocked();
    case Bridge => BridgeBlocked();
    case ContractInteraction => ContractInteractionBlocked();
    case Wrap => WrapBlocked();
    case SudoPool => SudoPoolBlocked();
    case Reward => RewardBlocked();
    case Staking => StakingBlocked();
    case Perp => PerpBlocked();
    case ContractCreation => ContractCreationBlocked();
    case NftLiquidation => NftLiquidationBlocked();
    case OptionType => OptionTypeBlocked();
  }

  // ---------------------------------------------------------------------
  // Struct `v` has none of the keys of `Absent(v)`

  lemma LpLacks()
    ensures FeedKeys.Disjoint(Absent(Lp), Names(Lp))
  {
    assert FeedKeys.Disjoint(Absent(Lp), LeadNames) && FeedKeys.Disjoint(Absent(Lp), LpKeys) && FeedKeys.Disjoint(Absent(Lp), Token0Keys) && FeedKeys.Disjoint(Absent(Lp), Token1Keys) && FeedKeys.Disjoint(Absent(Lp), LpRangeKeys);
    FeedKeys.DisjointAppend(Absent(Lp), LeadNames, LpKeys);
    FeedKeys.DisjointAppend(Absent(Lp), LeadNames + LpKeys, Token0Keys);
    FeedKeys.DisjointAppend(Absent(Lp), LeadNames + LpKeys + Token0Keys, Token1Keys);
    FeedKeys.DisjointAppend(Absent(Lp), LeadNames + LpKeys + Token0Keys + Token1Keys, LpRangeKeys);
  }

  lemma TransferLacks()
    ensures FeedKeys.Disjoint(Absent(Transfer), Names(Transfer))
  {
    assert FeedKeys.Disjoint(Absent(Transfer), LeadNames) && FeedKeys.Disjoint(Absent(Transfer), PartyKeys) && FeedKeys.Disjoint(Absent(Transfer), TransferKeys);
    FeedKeys.DisjointAppend(Absent(Transfer), LeadNames, PartyKeys);
    FeedKeys.DisjointAppend(Absent(Transfer), LeadNames + PartyKeys, TransferKeys);
  }

  lemma LendingLacks()
    ensures FeedKeys.Disjoint(Absent(Lending), Names(Lending))
  {
    assert FeedKeys.Disjoint(Absent(Lending), LeadNames) && FeedKeys.Disjoint(Absent(Lending), LendingKeys);
    FeedKeys.DisjointAppend(Absent(Lending), LeadNames, LendingKeys);
  }

  lemma NftMintLacks()
    ensures FeedKeys.Disjoint(Absent(NftMint), Names(NftMint))
  {
    assert FeedKeys.Disjoint(Absent(NftMint), LeadNames) && FeedKeys.Disjoint(Absent(NftMint), PartyKeys) && FeedKeys.Disjoint(Absent(NftMint), NftMintKeys);
    FeedKeys.DisjointAppend(Absent(NftMint), LeadNames, PartyKeys);
    FeedKeys.DisjointAppend(Absent(NftMint), LeadNames + PartyKeys, NftMintKeys);
  }

  lemma NftTradeLacks()
    ensures FeedKeys.Disjoint(Absent(NftTrade), Names(NftTrade))
  {
    assert FeedKeys.Disjoint(Absent(NftTrade), LeadNames) && FeedKeys.Disjoint(Absent(NftTrade), NftTradeKeys) && FeedKeys.Disjoint(Absent(NftTrade), NftTradeSaleKeys);
    FeedKeys.DisjointAppend(Absent(NftTrade), LeadNames, NftTradeKeys);
    FeedKeys.DisjointAppend(Absent(NftTrade), LeadNames + NftTradeKeys, NftTradeSaleKeys);
  }

  lemma NftTransferLacks()
    ensures FeedKeys.Disjoint(Absent(NftTransfer), Names(NftTransfer))
  {
    assert FeedKeys.Disjoint(Absent(NftTransfer), LeadNames) && FeedKeys.Disjoint(Absent(NftTransfer), PartyKeys) && FeedKeys.Disjoint(Absent(NftTransfer), NftTransferKeys);
    FeedKeys.DisjointAppend(Absent(NftTransfer), LeadNames, PartyKeys);
    FeedKeys.DisjointAppend(Absent(NftTransfer), LeadNames + PartyKeys, NftTransferKeys);
  }

  lemma NftLendingLacks()
    ensures FeedKeys.Disjoint(Absent(NftLending), Names(NftLending))
  {
    assert FeedKeys.Disjoint(Absent(NftLending), LeadNames) && FeedKeys.Disjoint(Absent(NftLending), PartyKeys) && FeedKeys.Disjoint(Absent(NftLending), NftLendingKeys);
    FeedKeys.DisjointAppend(Absent(NftLending), LeadNames, PartyKeys);
    FeedKeys.DisjointAppend(Absent(NftLending), LeadNames + PartyKeys, NftLendingKeys);
  }

  lemma BridgeLacks()
    ensures FeedKeys.Disjoint(Absent(Bridge), Names(Bridge))
  {
    assert FeedKeys.Disjoint(Absent(Bridge), LeadNames) && FeedKeys.Disjoint(Absent(Bridge), PartyKeys) && FeedKeys.Disjoint(Absent(Bridge), BridgeKeys);
    FeedKeys.DisjointAppend(Absent(Bridge), LeadNames, PartyKeys);
    FeedKeys.DisjointAppend(Absent(Bridge), LeadNames + PartyKeys, BridgeKeys);
  }

  lemma ContractInteractionLacks()
    ensures FeedKeys.Disjoint(Absent(ContractInteraction), Names(ContractInteraction))
  {
    assert FeedKeys.Disjoint(Absent(ContractInteraction), LeadNames) && FeedKeys.Disjoint(Absent(ContractInteraction), ContractInteractionKeys);
    FeedKeys.DisjointAppend(Absent(ContractInteraction), LeadNames, ContractInteractionKeys);
  }

  lemma WrapLacks()
    ensures FeedKeys.Disjoint(Absent(Wrap), Names(Wrap))
  {
    assert FeedKeys.Disjoint(Absent(Wrap), LeadNames) && FeedKeys.Disjoint(Absent(Wrap), WrapKeys);
    FeedKeys.DisjointAppend(Absent(Wrap), LeadNames, WrapKeys);
  }

  lemma SudoPoolLacks()
    ensures FeedKeys.Disjoint(Absent(SudoPool), Names(SudoPool))
  {
    assert FeedKeys.Disjoint(Absent(SudoPool), LeadNames) && FeedKeys.Disjoint(Absent(SudoPool), SudoPoolKeys) && FeedKeys.Disjoint(Absent(SudoPool), Token0Keys);
    FeedKeys.DisjointAppend(Absent(SudoPool), LeadNames, SudoPoolKeys);
    FeedKeys.DisjointAppend(Absent(SudoPool), LeadNames + SudoPoolKeys, Token0Keys);
  }

  lemma RewardLacks()
    ensures FeedKeys.Disjoint(Absent(Reward), Names(Reward))
  {
    assert FeedKeys.Disjoint(Absent(Reward), LeadNames) && FeedKeys.Disjoint(Absent(Reward), RewardKeys);
    FeedKeys.DisjointAppend(Absent(Reward), LeadNames, RewardKeys);
  }

  lemma StakingLacks()
    ensures FeedKeys.Disjoint(Absent(Staking), Names(Staking))
  {
    assert FeedKeys.Disjoint(Absent(Staking), LeadNames) && FeedKeys.Disjoint(Absent(Staking), PartyKeys) && FeedKeys.Disjoint(Absent(Staking), StakingKeys);
    FeedKeys.DisjointAppend(Absent(Staking), LeadNames, PartyKeys);
    FeedKeys.DisjointAppend(Absent(Staking), LeadNames + PartyKeys, StakingKeys);
  }

  lemma PerpLacks()
    ensures FeedKeys.Disjoint(Absent(Perp), Names(Perp))
  {
    assert FeedKeys.Disjoint(Absent(Perp), LeadNames) && FeedKeys.Disjoint(Absent(Perp), PerpKeys) && FeedKeys.Disjoint(Absent(Perp), Token0Keys) && FeedKeys.Disjoint(Absent(Perp), Token1Keys) && FeedKeys.Disjoint(Absent(Perp), PerpPositionKeys);
    FeedKeys.DisjointAppend(Absent(Perp), LeadNames, PerpKeys);
    FeedKeys.DisjointAppend(Absent(Perp), LeadNames + PerpKeys, Token0Keys);
    FeedKeys.DisjointAppend(Absent(Perp), LeadNames + PerpKeys + Token0Keys, Token1Keys);
    FeedKeys.DisjointAppend(Absent(Perp), LeadNames + PerpKeys + Token0Keys + Token1Keys, PerpPositionKeys);
  }

  lemma ContractCreationLacks()
    ensures FeedKeys.Disjoint(Absent(ContractCreation), Names(ContractCreation))
  {
    assert FeedKeys.Disjoint(Absent(ContractCreation), LeadNames) && FeedKeys.Disjoint(Absent(ContractCreation), ContractCreationKeys);
    FeedKeys.DisjointAppend(Absent(ContractCreation), LeadNames, ContractCreationKeys);
  }

  lemma NftLiquidationLacks()
    ensures FeedKeys.Disjoint(Absent(NftLiquidation), Names(NftLiquidation))
  {
    assert FeedKeys.Disjoint(Absent(NftLiquidation), LeadNames) && FeedKeys.Disjoint(Absent(NftLiquidation), NftLiquidationKeys);
    FeedKeys.DisjointAppend(Absent(NftLiquidation), LeadNames, NftLiquidationKeys);
  }

  lemma OptionTypeLacks()
    ensures FeedKeys.Disjoint(Absent(OptionType), Names(OptionType))
  {
    assert FeedKeys.Disjoint(Absent(OptionType), LeadNames) && FeedKeys.Disjoint(Absent(OptionType), OptionTypeKeys);
    FeedKeys.DisjointAppend(Absent(OptionType), LeadNames, OptionTypeKeys);
  }

  lemma AbsentLacked(v: Variant)
    requires Reachable(v)
    ensures FeedKeys.Disjoint(Absent(v), Names(v))
  {
    match v
    case Swap =>
    case Lp => LpLacks();
    case Transfer => TransferLacks();
    case Lending => LendingLacks();
    case NftMint => NftMintLacks();
    case NftTrade => NftTradeLacks();
    case NftTransfer => NftTransferLacks();
    case NftLending => NftLendingLacks();
    case Bridge => BridgeLacks();
    case ContractInteraction => ContractInteractionLacks();
    case Wrap => WrapLacks();
    case SudoPool => SudoPoolLacks();
    case Reward => RewardLacks();
    case Staking => StakingLacks();
    case Perp => PerpLacks();
    case ContractCreation => ContractCreationLacks();
    case NftLiquidation => NftLiquidationLacks();
    case OptionType => OptionTypeLacks();
  }

  // ---------------------------------------------------------------------
  // The round trip

  /** An encoding of a reachable variant binds none of the variants declared before it. */
  lemma EarlierRefuse(it: Item, p: nat)
    requires WellFormed(it) && Reachable(it.variant) && p < Position(it.variant)
    ensures !Admits(Schema(DeclaredOrder[p]), Encode(it))
  {
    var v, u := it.variant, DeclaredOrder[p];
    BlockKeysHold(v);
    var x := BlockKeys(v)[p];
    SignatureHolds(u);
    var k :| 0 <= k < |Signature(u)| && Signature(u)[k] == x;
    AbsentLacked(v);
    NeedsKey(u, SignatureAt(u)[k], Encode(it).members);
  }

  /** Every encoded item of a reachable variant decodes as itself. */
  lemma RoundTrip(it: Item)
    requires WellFormed(it) && Reachable(it.variant)
    ensures Decode(Encode(it)) == Some(it)
  {
    forall p | 0 <= p < Position(it.variant)
      ensures !Admits(Schema(DeclaredOrder[p]), Encode(it))
    {
      EarlierRefuse(it, p);
    }
    RoundTripIn(DeclaredOrder, it, Position(it.variant));
  }

  /** An encoded `NftSweep` comes back as the `NftTrade` with the same fields. */
  lemma NftSweepDecodesAsNftTrade(it: Item)
    requires WellFormed(it) && it.variant == NftSweep
    ensures Decode(Encode(it)) == Some(Item(NftTrade, it.slots))
  {
    SweepSameAsTrade();
    var trade := Item(NftTrade, it.slots);
    assert Encode(trade) == Encode(it);
    RoundTrip(trade);
  }

  // ---------------------------------------------------------------------
  // The corrected order

  /**
   * For each variant declared after `Flashloan`, or just before it, the body
   * position and key of a required field of `Flashloan` that it lacks.
   */
  function FlashloanBlock(v: Variant): (nat, string)
  {
    match v
    case Staking => (3, "dex")
    case Perp => (6, "name")
    case ContractCreation => (3, "dex")
    case _ => (2, "amount_usd")
  }

  /** `Flashloan` requires a key that each variant it now precedes lacks. */
  lemma FlashloanBlocked(v: Variant)
    requires v == Staking || v == Perp || v == ContractCreation || v == NftLiquidation || v == OptionType
    ensures Needs(Flashloan, FlashloanBlock(v).0, FlashloanBlock(v).1) && FlashloanBlock(v).1 in Absent(v)
  {
  }

  /** Position `p` of the corrected order, other than `Flashloan`'s, holds the variant declared at `Unmoved(p)`. */
  function Unmoved(p: nat): nat
  {
    if 12 < p <= 15 then p - 1 else p
  }

  lemma IntendedAt(p: nat)
    requires p < |IntendedOrder| && p != 12
    ensures Unmoved(p) < |DeclaredOrder| && IntendedOrder[p] == DeclaredOrder[Unmoved(p)]
  {
    if p < 12 {
      IntendedOrderShape();
    } else if p <= 15 {
      assert IntendedOrder[13..16] == DeclaredOrder[12..15];
    } else {
      assert IntendedOrder[16..] == DeclaredOrder[16..];
    }
  }

  /** Where a variant other than `Flashloan` and `Reward` stands in the corrected order. */
  function IntendedPosition(v: Variant): (k: nat)
    requires Reachable(v) && v != Reward
    ensures k < |IntendedOrder| && k != 12 && Unmoved(k) == Position(v) && IntendedOrder[k] == v
  {
    var q := Position(v);
    var k := if 12 < q < 15 then q + 1 else q;
    IntendedAt(k);
    k
  }

  /** `Flashloan`, now before `Reward`, refuses the encodings of the variants it precedes. */
  lemma FlashloanRefuses(it: Item)
    requires WellFormed(it) && Reachable(it.variant) && it.variant != Reward
    requires 12 < IntendedPosition(it.variant)
    ensures !Admits(Schema(Flashloan), Encode(it))
  {
    var v := it.variant;
    assert v == Staking || v == Perp || v == ContractCreation || v == NftLiquidation || v == OptionType;
    FlashloanBlocked(v);
    AbsentLacked(v);
    NeedsKey(Flashloan, FlashloanBlock(v).0, Encode(it).members);
  }

  /**
   * In the corrected order an encoded item of a reachable variant other
   * than `Reward` binds none of the variants placed before it.
   */
  lemma IntendedEarlierRefuse(it: Item, p: nat)
    requires WellFormed(it) && Reachable(it.variant) && it.variant != Reward
    requires p < IntendedPosition(it.variant)
    ensures !Admits(Schema(IntendedOrder[p]), Encode(it))
  {
    if p == 12 {
      IntendedOrderShape();
      FlashloanRefuses(it);
    } else {
      IntendedAt(p);
      EarlierRefuse(it, Unmoved(p));
    }
  }

  /**
   * In the corrected order every encoded item decodes as itself, except an
   * `NftSweep`, which `NftTrade` still shadows.
   */
  lemma IntendedRoundTrip(it: Item)
    requires WellFormed(it) && it.variant != NftSweep
    ensures DecodeIn(IntendedOrder, Encode(it)) == Some(it)
  {
    var v := it.variant;
    if v == Flashloan {
      IntendedFlashloanRoundTrip(it);
    } else if v == Reward {
      IntendedRewardRoundTrip(it);
    } else {
      var k := IntendedPosition(v);
      forall p | 0 <= p < k
        ensures !Admits(Schema(IntendedOrder[p]), Encode(it))
      {
        IntendedEarlierRefuse(it, p);
      }
      RoundTripIn(IntendedOrder, it, k);
    }
  }
}
