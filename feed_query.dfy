/**
 * The query of the feed endpoint (src/api/feed.rs): the `Filters` record,
 * the names of `TxType`, and the pairs `get_feed` appends to the request
 * for the filters that are set.
 */
module FeedQuery {
  import opened Wrappers
  import opened Json
  import opened Text

  // ---------------------------------------------------------------------
  // Transaction types

  /** `TxType` (src/api/feed.rs:45-86); Rust's `Option` is `OptionType`. */
  datatype TxType =
    | Bridge | ContractCreation | ContractInteraction | Flashloan | Lending
    | Lp | NftLending | NftLiquidation | NftMint | NftSweep
    | NftTrade | NftTransfer | OptionType | Perp | Reward
    | Staking | SudoPool | Swap | Transfer | Wrap

  /** `TxType::to_string`, derived with `serialize_all = "snake_case"`. */
  function TxTypeName(t: TxType): (r: string)
    ensures r != [] && ',' !in r
  {
    match t
    case Bridge => "bridge"
    case ContractCreation => "contract_creation"
    case ContractInteraction => "contract_interaction"
    case Flashloan => "flashloan"
    case Lending => "lending"
    case Lp => "lp"
    case NftLending => "nft_lending"
    case NftLiquidation => "nft_liquidation"
    case NftMint => "nft_mint"
    case NftSweep => "nft_sweep"
    case NftTrade => "nft_trade"
    case NftTransfer => "nft_transfer"
    case OptionType => "option"
    case Perp => "perp"
    case Reward => "reward"
    case Staking => "staking"
    case SudoPool => "sudo_pool"
    case Swap => "swap"
    case Transfer => "transfer"
    case Wrap => "wrap"
  }

  /** A name read back into a transaction type: the reference for telling the names apart. */
  function ParseTxType(s: string): Option<TxType>
  {
    if s == "bridge" then Some(Bridge)
    else if s == "contract_creation" then Some(ContractCreation)
    else if s == "contract_interaction" then Some(ContractInteraction)
    else if s == "flashloan" then Some(Flashloan)
    else if s == "lending" then Some(Lending)
    else if s == "lp" then Some(Lp)
    else if s == "nft_lending" then Some(NftLending)
    else if s == "nft_liquidation" then Some(NftLiquidation)
    else if s == "nft_mint" then Some(NftMint)
    else if s == "nft_sweep" then Some(NftSweep)
    else if s == "nft_trade" then Some(NftTrade)
    else if s == "nft_transfer" then Some(NftTransfer)
    else if s == "option" then Some(OptionType)
    else if s == "perp" then Some(Perp)
    else if s == "reward" then Some(Reward)
    else if s == "staking" then Some(Staking)
    else if s == "sudo_pool" then Some(SudoPool)
    else if s == "swap" then Some(Swap)
    else if s == "transfer" then Some(Transfer)
    else if s == "wrap" then Some(Wrap)
    else None
  }

  function TxTypeNames(ts: seq<TxType>): (r: seq<string>)
    ensures |r| == |ts| && forall i | 0 <= i < |ts| :: r[i] == TxTypeName(ts[i])
  {
    seq(|ts|, i requires 0 <= i < |ts| => TxTypeName(ts[i]))
  }

  // ---------------------------------------------------------------------
  // Filters and query pairs

  /** `Filters` (src/api/feed.rs:12-37); `Filters::default()` sets nothing. */
  datatype Filters = Filters(
    wallet: Option<string>,
    limit: Option<U32>,
    list_id: Option<U64>,
    chains: Option<seq<string>>,
    tx_types: Option<seq<TxType>>,
    tokens: Option<seq<string>>,
    min_usd: Option<U64>,
    new_trades: Option<bool>,
    start_from: Option<string>,
    from_timestamp: Option<U64>,
    to_timestamp: Option<U64>,
    include_market_cap: Option<bool>)

  const DefaultFilters: Filters :=
    Filters(None, None, None, None, None, None, None, None, None, None, None, None)

  /** A query string before percent-encoding: its pairs in order. */
  type Query = seq<(string, string)>

  /** The query keys, in the order the filters are looked at. */
  const QueryKeys: seq<string> := [
    "wallet", "limit", "list", "chains", "txTypes", "tokens",
    "minUSD", "newTrades", "startFrom", "fromTimestamp", "toTimestamp"
  ]

  function DecimalOf(o: Option<int>): Option<string>
    requires o.Some? ==> 0 <= o.value
  {
    match o
    case Some(n) => Some(Decimal(n))
    case None => None
  }

  function JoinedOf(o: Option<seq<string>>): Option<string>
  {
    match o
    case Some(xs) => Some(Join(xs, ','))
    case None => None
  }

  function TxTypesOf(o: Option<seq<TxType>>): Option<string>
  {
    match o
    case Some(ts) => Some(Join(TxTypeNames(ts), ','))
    case None => None
  }

  function BoolOf(o: Option<bool>): Option<string>
  {
    match o
    case Some(b) => Some(BoolText(b))
    case None => None
  }

  /**
   * The text each filter contributes, in the order of `QueryKeys`; `None`
   * where the filter is not set. `include_market_cap` has no entry.
   */
  function FieldTexts(f: Filters): (r: seq<Option<string>>)
    ensures |r| == |QueryKeys|
    ensures r[0] == f.wallet
    ensures r[1] == DecimalOf(f.limit)
    ensures r[2] == DecimalOf(f.list_id)
    ensures r[3] == JoinedOf(f.chains)
    ensures r[4] == TxTypesOf(f.tx_types)
    ensures r[5] == JoinedOf(f.tokens)
    ensures r[6] == DecimalOf(f.min_usd)
    ensures r[7] == BoolOf(f.new_trades)
    ensures r[8] == f.start_from
    ensures r[9] == DecimalOf(f.from_timestamp)
    ensures r[10] == DecimalOf(f.to_timestamp)
  {
    [f.wallet, DecimalOf(f.limit), DecimalOf(f.list_id), JoinedOf(f.chains),
     TxTypesOf(f.tx_types), JoinedOf(f.tokens), DecimalOf(f.min_usd),
     BoolOf(f.new_trades), f.start_from, DecimalOf(f.from_timestamp),
     DecimalOf(f.to_timestamp)]
  }

  /** The pairs of the first `n` positions, in order: at most one per position, each under one of the keys. */
  function Present(keys: seq<string>, texts: seq<Option<string>>, n: nat): (q: Query)
    requires |keys| == |texts| && n <= |keys|
    decreases n
    ensures |q| <= n
    ensures forall p | 0 <= p < |q| :: q[p].0 in keys[..n]
  {
    if n == 0 then [] else Present(keys, texts, n - 1) + PairIf(keys[n - 1], texts[n - 1])
  }

  /** The query `get_feed` sends for `f`: at most one pair per filter, each under a filter's key. */
  function QueryOf(f: Filters): (q: Query)
    ensures |q| <= |QueryKeys|
    ensures forall p | 0 <= p < |q| :: q[p].0 in QueryKeys
  {
    Present(QueryKeys, FieldTexts(f), |QueryKeys|)
  }

  /** The pair `(key, v)` when `text` is `Some(v)`, nothing otherwise. */
  function PairIf(key: string, text: Option<string>): Query
  {
    if text.Some? then [(key, text.value)] else []
  }

  /** Reading one more position appends its pair, if any. */
  lemma PresentStep(keys: seq<string>, texts: seq<Option<string>>, k: nat)
    requires |keys| == |texts| && k < |keys|
    ensures Present(keys, texts, k + 1) == Present(keys, texts, k) + PairIf(keys[k], texts[k])
  {
  }

  /** The query as one term per filter, in the order of `QueryKeys`. */
  lemma QueryOfByField(f: Filters)
    ensures QueryOf(f) == [] +
      PairIf("wallet", f.wallet) +
      PairIf("limit", DecimalOf(f.limit)) +
      PairIf("list", DecimalOf(f.list_id)) +
      PairIf("chains", JoinedOf(f.chains)) +
      PairIf("txTypes", TxTypesOf(f.tx_types)) +
      PairIf("tokens", JoinedOf(f.tokens)) +
      PairIf("minUSD", DecimalOf(f.min_usd)) +
      PairIf("newTrades", BoolOf(f.new_trades)) +
      PairIf("startFrom", f.start_from) +
      PairIf("fromTimestamp", DecimalOf(f.from_timestamp)) +
      PairIf("toTimestamp", DecimalOf(f.to_timestamp))
  {
    var keys, texts := QueryKeys, FieldTexts(f);
    PresentStep(keys, texts, 0);
    PresentStep(keys, texts, 1);
    PresentStep(keys, texts, 2);
    PresentStep(keys, texts, 3);
    PresentStep(keys, texts, 4);
    PresentStep(keys, texts, 5);
    PresentStep(keys, texts, 6);
    PresentStep(keys, texts, 7);
    PresentStep(keys, texts, 8);
    PresentStep(keys, texts, 9);
    PresentStep(keys, texts, 10);
  }

  /**
   * One `if let Some(..) = filters.<field>` step of `get_feed`: the request
   * gets the pair `(key, text)` when the filter is set, and is left as it
   * was otherwise.
   */
  method AddIfSet(q: Query, key: string, text: Option<string>) returns (q': Query)
    ensures q' == q + PairIf(key, text)
  {
    q' := q;
    if text.Some? {
      q' := q' + [(key, text.value)];
    }
  }

  /**
   * The if-chain of `get_feed` (src/api/feed.rs:135-167): the request is
   * rebuilt with one more pair for each filter that is set, in a fixed
   * order.
   */
  method BuildQuery(f: Filters) returns (q: Query)
    ensures q == QueryOf(f)
  {
    q := [];
    q := AddIfSet(q, "wallet", f.wallet);
    q := AddIfSet(q, "limit", DecimalOf(f.limit));
    q := AddIfSet(q, "list", DecimalOf(f.list_id));
    q := AddIfSet(q, "chains", JoinedOf(f.chains));
    q := AddIfSet(q, "txTypes", TxTypesOf(f.tx_types));
    q := AddIfSet(q, "tokens", JoinedOf(f.tokens));
    q := AddIfSet(q, "minUSD", DecimalOf(f.min_usd));
    q := AddIfSet(q, "newTrades", BoolOf(f.new_trades));
    q := AddIfSet(q, "startFrom", f.start_from);
    q := AddIfSet(q, "fromTimestamp", DecimalOf(f.from_timestamp));
    q := AddIfSet(q, "toTimestamp", DecimalOf(f.to_timestamp));
    QueryOfByField(f);
  }
}
