/**
 * No item struct has two fields with one JSON key: Rust refuses two fields
 * of one name, and no `rename` makes two keys equal (src/models/feed.rs).
 * Proved run by run: every named run of keys in `BodyNames` repeats no key
 * and shares none with the leading fields or with the other runs of its
 * struct.
 */
module FeedKeys {
  import opened Serde
  import opened FeedSchema

  /** No key of `b` is a key of `a`. */
  predicate Disjoint(a: seq<string>, b: seq<string>)
  {
    forall i | 0 <= i < |b| :: b[i] !in a
  }

  /** A run of keys that repeats none and shares none with the leading fields. */
  predicate Fresh(run: seq<string>)
  {
    Distinct(run) && Disjoint(HeaderNames, run) && "block" !in run
  }

  /** Two distinct key lists with no key in common make one distinct list. */
  lemma DistinctAppend(a: seq<string>, b: seq<string>)
    requires Distinct(a) && Distinct(b) && Disjoint(a, b)
    ensures Distinct(a + b)
  {
    forall i, j | 0 <= i < j < |a + b|
      ensures (a + b)[i] != (a + b)[j]
    {
      if j < |a| {
        assert (a + b)[i] == a[i] && (a + b)[j] == a[j];
      } else if i < |a| {
        assert (a + b)[j] == b[j - |a|];
      } else {
        assert (a + b)[i] == b[i - |a|] && (a + b)[j] == b[j - |a|];
      }
    }
  }

  /** A run apart from two runs is apart from them together. */
  lemma DisjointAppend(a: seq<string>, b: seq<string>, c: seq<string>)
    requires Disjoint(a, b) && Disjoint(a, c)
    ensures Disjoint(a, b + c)
  {
    forall i | 0 <= i < |b + c|
      ensures (b + c)[i] !in a
    {
      if i >= |b| {
        assert (b + c)[i] == c[i - |b|];
      }
    }
  }

  /** Two runs apart from a third are apart from it together. */
  lemma ApartFromBoth(a: seq<string>, b: seq<string>, c: seq<string>)
    requires Disjoint(a, c) && Disjoint(b, c)
    ensures Disjoint(a + b, c)
  {
  }

  /** Two fresh runs with no key in common make one fresh run. */
  lemma Join(a: seq<string>, b: seq<string>)
    requires Fresh(a) && Fresh(b) && Disjoint(a, b)
    ensures Fresh(a + b)
  {
    DistinctAppend(a, b);
    DisjointAppend(HeaderNames, a, b);
  }

  /** The eight leading fields have distinct keys. */
  lemma LeadDistinct()
    ensures Distinct(LeadNames)
  {
  }

  /** A fresh run shares no key with the eight leading fields. */
  lemma FreshAfterLead(run: seq<string>)
    requires Fresh(run)
    ensures Disjoint(LeadNames, run)
  {
    forall i | 0 <= i < |run|
      ensures run[i] !in LeadNames
    {
      assert run[i] !in HeaderNames && run[i] != "block";
    }
  }

  // ---------------------------------------------------------------------
  // Each run repeats no key and shares none with the leading fields

  lemma PartyFresh()
    ensures Fresh(PartyKeys)
  {
    PartyDistinct();
    PartyApartFromLead();
  }

  lemma PartyDistinct()
    ensures Distinct(PartyKeys)
  {
  }

  lemma PartyApartFromLead()
    ensures Disjoint(HeaderNames, PartyKeys) && "block" !in PartyKeys
  {
  }

  lemma Token0Fresh()
    ensures Fresh(Token0Keys)
  {
    Token0Distinct();
    Token0ApartFromLead();
  }

  lemma Token0Distinct()
    ensures Distinct(Token0Keys)
  {
  }

  lemma Token0ApartFromLead()
    ensures Disjoint(HeaderNames, Token0Keys) && "block" !in Token0Keys
  {
  }

  lemma Token1Fresh()
    ensures Fresh(Token1Keys)
  {
    Token1Distinct();
    Token1ApartFromLead();
  }

  lemma Token1Distinct()
    ensures Distinct(Token1Keys)
  {
  }

  lemma Token1ApartFromLead()
    ensures Disjoint(HeaderNames, Token1Keys) && "block" !in Token1Keys
  {
  }

  lemma SwapFresh()
    ensures Fresh(SwapKeys)
  {
    SwapDistinct();
    SwapApartFromLead();
  }

  lemma SwapDistinct()
    ensures Distinct(SwapKeys)
  {
  }

  lemma SwapApartFromLead()
    ensures Disjoint(HeaderNames, SwapKeys) && "block" !in SwapKeys
  {
  }

  lemma SwapTailFresh()
    ensures Fresh(SwapTailKeys)
  {
    SwapTailDistinct();
    SwapTailApartFromLead();
  }

  lemma SwapTailDistinct()
    ensures Distinct(SwapTailKeys)
  {
  }

  lemma SwapTailApartFromLead()
    ensures Disjoint(HeaderNames, SwapTailKeys) && "block" !in SwapTailKeys
  {
  }

  lemma LpFresh()
    ensures Fresh(LpKeys)
  {
    LpDistinct();
    LpApartFromLead();
  }

  lemma LpDistinct()
    ensures Distinct(LpKeys)
  {
  }

  lemma LpApartFromLead()
    ensures Disjoint(HeaderNames, LpKeys) && "block" !in LpKeys
  {
  }

  lemma LpRangeFresh()
    ensures Fresh(LpRangeKeys)
  {
    LpRangeDistinct();
    LpRangeApartFromLead();
  }

  lemma LpRangeDistinct()
    ensures Distinct(LpRangeKeys)
  {
  }

  lemma LpRangeApartFromLead()
    ensures Disjoint(HeaderNames, LpRangeKeys) && "block" !in LpRangeKeys
  {
  }

  lemma TransferFresh()
    ensures Fresh(TransferKeys)
  {
    TransferDistinct();
    TransferApartFromLead();
  }

  lemma TransferDistinct()
    ensures Distinct(TransferKeys)
  {
  }

  lemma TransferApartFromLead()
    ensures Disjoint(HeaderNames, TransferKeys) && "block" !in TransferKeys
  {
  }

  lemma LendingFresh()
    ensures Fresh(LendingKeys)
  {
    LendingDistinct();
    LendingApartFromLead();
  }

  lemma LendingDistinct()
    ensures Distinct(LendingKeys)
  {
  }

  lemma LendingApartFromLead()
    ensures Disjoint(HeaderNames, LendingKeys) && "block" !in LendingKeys
  {
  }

  lemma NftMintFresh()
    ensures Fresh(NftMintKeys)
  {
    NftMintDistinct();
    NftMintApartFromLead();
  }

  lemma NftMintDistinct()
    ensures Distinct(NftMintKeys)
  {
  }

  lemma NftMintApartFromLead()
    ensures Disjoint(HeaderNames, NftMintKeys) && "block" !in NftMintKeys
  {
  }

  lemma NftTradeFresh()
    ensures Fresh(NftTradeKeys)
  {
    NftTradeDistinct();
    NftTradeApartFromLead();
  }

  lemma NftTradeDistinct()
    ensures Distinct(NftTradeKeys)
  {
  }

  lemma NftTradeApartFromLead()
    ensures Disjoint(HeaderNames, NftTradeKeys) && "block" !in NftTradeKeys
  {
  }

  lemma NftTradeSaleFresh()
    ensures Fresh(NftTradeSaleKeys)
  {
    NftTradeSaleDistinct();
    NftTradeSaleApartFromLead();
  }

  lemma NftTradeSaleDistinct()
    ensures Distinct(NftTradeSaleKeys)
  {
  }

  lemma NftTradeSaleApartFromLead()
    ensures Disjoint(HeaderNames, NftTradeSaleKeys) && "block" !in NftTradeSaleKeys
  {
  }

  lemma NftTransferFresh()
    ensures Fresh(NftTransferKeys)
  {
    NftTransferDistinct();
    NftTransferApartFromLead();
  }

  lemma NftTransferDistinct()
    ensures Distinct(NftTransferKeys)
  {
  }

  lemma NftTransferApartFromLead()
    ensures Disjoint(HeaderNames, NftTransferKeys) && "block" !in NftTransferKeys
  {
  }

  lemma NftLendingFresh()
    ensures Fresh(NftLendingKeys)
  {
    NftLendingDistinct();
    NftLendingApartFromLead();
  }

  lemma NftLendingDistinct()
    ensures Distinct(NftLendingKeys)
  {
  }

  lemma NftLendingApartFromLead()
    ensures Disjoint(HeaderNames, NftLendingKeys) && "block" !in NftLendingKeys
  {
  }

  lemma BridgeFresh()
    ensures Fresh(BridgeKeys)
  {
    BridgeDistinct();
    BridgeApartFromLead();
  }

  lemma BridgeDistinct()
    ensures Distinct(BridgeKeys)
  {
  }

  lemma BridgeApartFromLead()
    ensures Disjoint(HeaderNames, BridgeKeys) && "block" !in BridgeKeys
  {
  }

  lemma ContractInteractionFresh()
    ensures Fresh(ContractInteractionKeys)
  {
    ContractInteractionDistinct();
    ContractInteractionApartFromLead();
  }

  lemma ContractInteractionDistinct()
    ensures Distinct(ContractInteractionKeys)
  {
  }

  lemma ContractInteractionApartFromLead()
    ensures Disjoint(HeaderNames, ContractInteractionKeys) && "block" !in ContractInteractionKeys
  {
  }

  lemma WrapFresh()
    ensures Fresh(WrapKeys)
  {
    WrapDistinct();
    WrapApartFromLead();
  }

  lemma WrapDistinct()
    ensures Distinct(WrapKeys)
  {
  }

  lemma WrapApartFromLead()
    ensures Disjoint(HeaderNames, WrapKeys) && "block" !in WrapKeys
  {
  }

  lemma SudoPoolFresh()
    ensures Fresh(SudoPoolKeys)
  {
    SudoPoolDistinct();
    SudoPoolApartFromLead();
  }

  lemma SudoPoolDistinct()
    ensures Distinct(SudoPoolKeys)
  {
  }

  lemma SudoPoolApartFromLead()
    ensures Disjoint(HeaderNames, SudoPoolKeys) && "block" !in SudoPoolKeys
  {
  }

  lemma RewardFresh()
    ensures Fresh(RewardKeys)
  {
    RewardDistinct();
    RewardApartFromLead();
  }

  lemma RewardDistinct()
    ensures Distinct(RewardKeys)
  {
  }

  lemma RewardApartFromLead()
    ensures Disjoint(HeaderNames, RewardKeys) && "block" !in RewardKeys
  {
  }

  lemma StakingFresh()
    ensures Fresh(StakingKeys)
  {
    StakingDistinct();
    StakingApartFromLead();
  }

  lemma StakingDistinct()
    ensures Distinct(StakingKeys)
  {
  }

  lemma StakingApartFromLead()
    ensures Disjoint(HeaderNames, StakingKeys) && "block" !in StakingKeys
  {
  }

  lemma PerpFresh()
    ensures Fresh(PerpKeys)
  {
    PerpDistinct();
    PerpApartFromLead();
  }

  lemma PerpDistinct()
    ensures Distinct(PerpKeys)
  {
  }

  lemma PerpApartFromLead()
    ensures Disjoint(HeaderNames, PerpKeys) && "block" !in PerpKeys
  {
  }

  lemma PerpPositionFresh()
    ensures Fresh(PerpPositionKeys)
  {
    PerpPositionDistinct();
    PerpPositionApartFromLead();
  }

  lemma PerpPositionDistinct()
    ensures Distinct(PerpPositionKeys)
  {
  }

  lemma PerpPositionApartFromLead()
    ensures Disjoint(HeaderNames, PerpPositionKeys) && "block" !in PerpPositionKeys
  {
  }

  lemma FlashloanFresh()
    ensures Fresh(FlashloanKeys)
  {
    FlashloanDistinct();
    FlashloanApartFromLead();
  }

  lemma FlashloanDistinct()
    ensures Distinct(FlashloanKeys)
  {
  }

  lemma FlashloanApartFromLead()
    ensures Disjoint(HeaderNames, FlashloanKeys) && "block" !in FlashloanKeys
  {
  }

  lemma ContractCreationFresh()
    ensures Fresh(ContractCreationKeys)
  {
    ContractCreationDistinct();
    ContractCreationApartFromLead();
  }

  lemma ContractCreationDistinct()
    ensures Distinct(ContractCreationKeys)
  {
  }

  lemma ContractCreationApartFromLead()
    ensures Disjoint(HeaderNames, ContractCreationKeys) && "block" !in ContractCreationKeys
  {
  }

  lemma NftLiquidationFresh()
    ensures Fresh(NftLiquidationKeys)
  {
    NftLiquidationDistinct();
    NftLiquidationApartFromLead();
  }

  lemma NftLiquidationDistinct()
    ensures Distinct(NftLiquidationKeys)
  {
  }

  lemma NftLiquidationApartFromLead()
    ensures Disjoint(HeaderNames, NftLiquidationKeys) && "block" !in NftLiquidationKeys
  {
  }

  lemma OptionTypeFresh()
    ensures Fresh(OptionTypeKeys)
  {
    OptionTypeDistinct();
    OptionTypeApartFromLead();
  }

  lemma OptionTypeDistinct()
    ensures Distinct(OptionTypeKeys)
  {
  }

  lemma OptionTypeApartFromLead()
    ensures Disjoint(HeaderNames, OptionTypeKeys) && "block" !in OptionTypeKeys
  {
  }

  lemma NftSweepFresh()
    ensures Fresh(NftSweepKeys)
  {
    NftSweepDistinct();
    NftSweepApartFromLead();
  }

  lemma NftSweepDistinct()
    ensures Distinct(NftSweepKeys)
  {
  }

  lemma NftSweepApartFromLead()
    ensures Disjoint(HeaderNames, NftSweepKeys) && "block" !in NftSweepKeys
  {
  }

  lemma NftSweepSaleFresh()
    ensures Fresh(NftSweepSaleKeys)
  {
    NftSweepSaleDistinct();
    NftSweepSaleApartFromLead();
  }

  lemma NftSweepSaleDistinct()
    ensures Distinct(NftSweepSaleKeys)
  {
  }

  lemma NftSweepSaleApartFromLead()
    ensures Disjoint(HeaderNames, NftSweepSaleKeys) && "block" !in NftSweepSaleKeys
  {
  }

  // ---------------------------------------------------------------------
  // The runs of one struct share no key

  lemma SwapToken0Apart()
    ensures Disjoint(SwapKeys, Token0Keys)
  {
  }

  lemma SwapToken1Apart()
    ensures Disjoint(SwapKeys, Token1Keys)
  {
  }

  lemma SwapTailApart()
    ensures Disjoint(SwapKeys, SwapTailKeys)
  {
  }

  lemma Token0Token1Apart()
    ensures Disjoint(Token0Keys, Token1Keys)
  {
  }

  lemma Token0SwapTailApart()
    ensures Disjoint(Token0Keys, SwapTailKeys)
  {
  }

  lemma Token1SwapTailApart()
    ensures Disjoint(Token1Keys, SwapTailKeys)
  {
  }

  lemma LpToken0Apart()
    ensures Disjoint(LpKeys, Token0Keys)
  {
  }

  lemma LpToken1Apart()
    ensures Disjoint(LpKeys, Token1Keys)
  {
  }

  lemma LpRangeApart()
    ensures Disjoint(LpKeys, LpRangeKeys)
  {
  }

  lemma Token0LpRangeApart()
    ensures Disjoint(Token0Keys, LpRangeKeys)
  {
  }

  lemma Token1LpRangeApart()
    ensures Disjoint(Token1Keys, LpRangeKeys)
  {
  }

  lemma PartyTransferApart()
    ensures Disjoint(PartyKeys, TransferKeys)
  {
  }

  lemma PartyNftMintApart()
    ensures Disjoint(PartyKeys, NftMintKeys)
  {
  }

  lemma NftTradeSaleApart()
    ensures Disjoint(NftTradeKeys, NftTradeSaleKeys)
  {
  }

  lemma PartyNftTransferApart()
    ensures Disjoint(PartyKeys, NftTransferKeys)
  {
  }

  lemma PartyNftLendingApart()
    ensures Disjoint(PartyKeys, NftLendingKeys)
  {
  }

  lemma PartyBridgeApart()
    ensures Disjoint(PartyKeys, BridgeKeys)
  {
  }

  lemma SudoPoolToken0Apart()
    ensures Disjoint(SudoPoolKeys, Token0Keys)
  {
  }

  lemma PartyStakingApart()
    ensures Disjoint(PartyKeys, StakingKeys)
  {
  }

  lemma PerpToken0Apart()
    ensures Disjoint(PerpKeys, Token0Keys)
  {
  }

  lemma PerpToken1Apart()
    ensures Disjoint(PerpKeys, Token1Keys)
  {
  }

  lemma PerpPositionApart()
    ensures Disjoint(PerpKeys, PerpPositionKeys)
  {
  }

  lemma Token0PerpPositionApart()
    ensures Disjoint(Token0Keys, PerpPositionKeys)
  {
  }

  lemma Token1PerpPositionApart()
    ensures Disjoint(Token1Keys, PerpPositionKeys)
  {
  }

  lemma NftSweepSaleApart()
    ensures Disjoint(NftSweepKeys, NftSweepSaleKeys)
  {
  }

  // ---------------------------------------------------------------------
  // Each struct's runs, joined

  lemma SwapBodyFresh()
    ensures Fresh(BodyNames(Swap))
  {
    SwapFresh();
    Token0Fresh();
    Token1Fresh();
    SwapTailFresh();
    SwapToken0Apart();
    SwapToken1Apart();
    SwapTailApart();
    Token0Token1Apart();
    Token0SwapTailApart();
    Token1SwapTailApart();
    Join(SwapKeys, Token0Keys);
    ApartFromBoth(SwapKeys, Token0Keys, Token1Keys);
    Join(SwapKeys + Token0Keys, Token1Keys);
    ApartFromBoth(SwapKeys, Token0Keys, SwapTailKeys);
    ApartFromBoth(SwapKeys + Token0Keys, Token1Keys, SwapTailKeys);
    Join(SwapKeys + Token0Keys + Token1Keys, SwapTailKeys);
  }

  lemma LpBodyFresh()
    ensures Fresh(BodyNames(Lp))
  {
    LpFresh();
    Token0Fresh();
    Token1Fresh();
    LpRangeFresh();
    LpToken0Apart();
    LpToken1Apart();
    LpRangeApart();
    Token0Token1Apart();
    Token0LpRangeApart();
    Token1LpRangeApart();
    Join(LpKeys, Token0Keys);
    ApartFromBoth(LpKeys, Token0Keys, Token1Keys);
    Join(LpKeys + Token0Keys, Token1Keys);
    ApartFromBoth(LpKeys, Token0Keys, LpRangeKeys);
    ApartFromBoth(LpKeys + Token0Keys, Token1Keys, LpRangeKeys);
    Join(LpKeys + Token0Keys + Token1Keys, LpRangeKeys);
  }

  lemma TransferBodyFresh()
    ensures Fresh(BodyNames(Transfer))
  {
    PartyFresh();
    TransferFresh();
    PartyTransferApart();
    Join(PartyKeys, TransferKeys);
  }

  lemma NftMintBodyFresh()
    ensures Fresh(BodyNames(NftMint))
  {
    PartyFresh();
    NftMintFresh();
    PartyNftMintApart();
    Join(PartyKeys, NftMintKeys);
  }

  lemma NftTradeBodyFresh()
    ensures Fresh(BodyNames(NftTrade))
  {
    NftTradeFresh();
    NftTradeSaleFresh();
    NftTradeSaleApart();
    Join(NftTradeKeys, NftTradeSaleKeys);
  }

  lemma NftTransferBodyFresh()
    ensures Fresh(BodyNames(NftTransfer))
  {
    PartyFresh();
    NftTransferFresh();
    PartyNftTransferApart();
    Join(PartyKeys, NftTransferKeys);
  }

  lemma NftLendingBodyFresh()
    ensures Fresh(BodyNames(NftLending))
  {
    PartyFresh();
    NftLendingFresh();
    PartyNftLendingApart();
    Join(PartyKeys, NftLendingKeys);
  }

  lemma BridgeBodyFresh()
    ensures Fresh(BodyNames(Bridge))
  {
    PartyFresh();
    BridgeFresh();
    PartyBridgeApart();
    Join(PartyKeys, BridgeKeys);
  }

  lemma SudoPoolBodyFresh()
    ensures Fresh(BodyNames(SudoPool))
  {
    SudoPoolFresh();
    Token0Fresh();
    SudoPoolToken0Apart();
    Join(SudoPoolKeys, Token0Keys);
  }

  lemma StakingBodyFresh()
    ensures Fresh(BodyNames(Staking))
  {
    PartyFresh();
    StakingFresh();
    PartyStakingApart();
    Join(PartyKeys, StakingKeys);
  }

  lemma PerpBodyFresh()
    ensures Fresh(BodyNames(Perp))
  {
    PerpFresh();
    Token0Fresh();
    Token1Fresh();
    PerpPositionFresh();
    PerpToken0Apart();
    PerpToken1Apart();
    PerpPositionApart();
    Token0Token1Apart();
    Token0PerpPositionApart();
    Token1PerpPositionApart();
    Join(PerpKeys, Token0Keys);
    ApartFromBoth(PerpKeys, Token0Keys, Token1Keys);
    Join(PerpKeys + Token0Keys, Token1Keys);
    ApartFromBoth(PerpKeys, Token0Keys, PerpPositionKeys);
    ApartFromBoth(PerpKeys + Token0Keys, Token1Keys, PerpPositionKeys);
    Join(PerpKeys + Token0Keys + Token1Keys, PerpPositionKeys);
  }

  lemma NftSweepBodyFresh()
    ensures Fresh(BodyNames(NftSweep))
  {
    NftSweepFresh();
    NftSweepSaleFresh();
    NftSweepSaleApart();
    Join(NftSweepKeys, NftSweepSaleKeys);
  }

  /** The keys after `block` of any struct form a fresh run. */
  lemma BodyFresh(v: Variant)
    ensures Fresh(BodyNames(v))
  {
    match v
    case Swap => SwapBodyFresh();
    case Lp => LpBodyFresh();
    case Transfer => TransferBodyFresh();
    case Lending => LendingFresh();
    case NftMint => NftMintBodyFresh();
    case NftTrade => NftTradeBodyFresh();
    case NftTransfer => NftTransferBodyFresh();
    case NftLending => NftLendingBodyFresh();
    case Bridge => BridgeBodyFresh();
    case ContractInteraction => ContractInteractionFresh();
    case Wrap => WrapFresh();
    case SudoPool => SudoPoolBodyFresh();
    case Reward => RewardFresh();
    case Staking => StakingBodyFresh();
    case Perp => PerpBodyFresh();
    case Flashloan => FlashloanFresh();
    case ContractCreation => ContractCreationFresh();
    case NftLiquidation => NftLiquidationFresh();
    case OptionType => OptionTypeFresh();
    case NftSweep => NftSweepBodyFresh();
  }

  /** No item struct has two fields with one JSON key. */
  lemma NamesDistinct(v: Variant)
    ensures Distinct(Names(v))
  {
    BodyFresh(v);
    LeadDistinct();
    FreshAfterLead(BodyNames(v));
    DistinctAppend(LeadNames, BodyNames(v));
  }
}
