/**
 * What the query of `get_feed` (src/api/feed.rs:135-167) promises: one
 * pair per filter that is set, under a fixed key, in a fixed order, with a
 * text the server can read back.
 */
module FeedQueryProperties {
  import opened Wrappers
  import opened Json
  import opened Text
  import opened FeedQuery

  // ---------------------------------------------------------------------
  // The pairs of a table of optional texts

  /** The positions below `n` whose text is set, in increasing order. */
  function SetPositions(texts: seq<Option<string>>, n: nat): (ps: seq<nat>)
    requires n <= |texts|
    ensures forall p | 0 <= p < |ps| :: ps[p] < n && texts[ps[p]].Some?
    ensures forall p, p' | 0 <= p < p' < |ps| :: ps[p] < ps[p']
    ensures forall i | 0 <= i < n && texts[i].Some? :: i in ps
    decreases n
  {
    if n == 0 then []
    else SetPositions(texts, n - 1) + (if texts[n - 1].Some? then [n - 1] else [])
  }

  /** The pairs of the first `n` positions are those of the set positions, in order. */
  lemma {:induction false} PresentAt(keys: seq<string>, texts: seq<Option<string>>, n: nat)
    requires |keys| == |texts| && n <= |keys|
    ensures var q, ps := Present(keys, texts, n), SetPositions(texts, n);
      |q| == |ps| && forall p | 0 <= p < |q| :: q[p] == (keys[ps[p]], texts[ps[p]].value)
    decreases n
  {
    if n > 0 {
      PresentAt(keys, texts, n - 1);
    }
  }

  /** Position `i` is sent with text `v` exactly when its text is `v`, when no two keys are alike. */
  lemma PresentSentIff(keys: seq<string>, texts: seq<Option<string>>, i: nat, v: string)
    requires |keys| == |texts| && i < |keys|
    requires forall a, b | 0 <= a < b < |keys| :: keys[a] != keys[b]
    ensures (keys[i], v) in Present(keys, texts, |keys|) <==> texts[i] == Some(v)
    ensures forall p | 0 <= p < |Present(keys, texts, |keys|)| :: Present(keys, texts, |keys|)[p].0 in keys
  {
    PresentAt(keys, texts, |keys|);
    if texts[i] == Some(v) {
      PresentHas(keys, texts, i);
    }
    if (keys[i], v) in Present(keys, texts, |keys|) {
      PresentOnly(keys, texts, i, v);
    }
  }

  lemma PresentHas(keys: seq<string>, texts: seq<Option<string>>, i: nat)
    requires |keys| == |texts| && i < |keys| && texts[i].Some?
    ensures (keys[i], texts[i].value) in Present(keys, texts, |keys|)
  {
    var q, ps := Present(keys, texts, |keys|), SetPositions(texts, |keys|);
    PresentAt(keys, texts, |keys|);
    var p :| 0 <= p < |ps| && ps[p] == i;
    assert q[p] == (keys[i], texts[i].value);
  }

  lemma PresentOnly(keys: seq<string>, texts: seq<Option<string>>, i: nat, v: string)
    requires |keys| == |texts| && i < |keys|
    requires forall a, b | 0 <= a < b < |keys| :: keys[a] != keys[b]
    requires (keys[i], v) in Present(keys, texts, |keys|)
    ensures texts[i] == Some(v)
  {
    var q, ps := Present(keys, texts, |keys|), SetPositions(texts, |keys|);
    PresentAt(keys, texts, |keys|);
    var p :| 0 <= p < |q| && q[p] == (keys[i], v);
    var j := ps[p];
    assert keys[j] == keys[i] && texts[j].value == v;
    assert j == i;
  }

  /** Later pairs come from later positions. */
  lemma PresentInOrder(keys: seq<string>, texts: seq<Option<string>>, p: nat, p': nat)
    requires |keys| == |texts| && p < p' < |Present(keys, texts, |keys|)|
    ensures exists i, i' | 0 <= i < i' < |keys| ::
      Present(keys, texts, |keys|)[p].0 == keys[i] && Present(keys, texts, |keys|)[p'].0 == keys[i']
  {
    PresentAt(keys, texts, |keys|);
    var ps := SetPositions(texts, |keys|);
    assert Present(keys, texts, |keys|)[p].0 == keys[ps[p]];
    assert Present(keys, texts, |keys|)[p'].0 == keys[ps[p']];
  }

  // ---------------------------------------------------------------------
  // The query of a `Filters`

  /** No two filters share a key. */
  lemma QueryKeysDistinct()
    ensures forall i, j | 0 <= i < j < |QueryKeys| :: QueryKeys[i] != QueryKeys[j]
  {
  }

  /**
   * The query holds one pair per filter that is set, in the order of
   * `QueryKeys`, with that filter's key and text; nothing else.
   */
  lemma QueryShape(f: Filters)
    ensures var q, ps := QueryOf(f), SetPositions(FieldTexts(f), |QueryKeys|);
      |q| == |ps| && forall p | 0 <= p < |q| :: q[p] == (QueryKeys[ps[p]], FieldTexts(f)[ps[p]].value)
  {
    var texts := FieldTexts(f);
    PresentAt(QueryKeys, texts, |QueryKeys|);
  }

  /**
   * Filter `i` is sent with text `v` exactly when it is set to `v`; every
   * key of the query is one of `QueryKeys`.
   */
  lemma FilterSentIff(f: Filters, i: nat, v: string)
    requires i < |QueryKeys|
    ensures (QueryKeys[i], v) in QueryOf(f) <==> FieldTexts(f)[i] == Some(v)
    ensures forall p | 0 <= p < |QueryOf(f)| :: QueryOf(f)[p].0 in QueryKeys
  {
    QueryKeysDistinct();
    var texts := FieldTexts(f);
    PresentSentIff(QueryKeys, texts, i, v);
  }

  /** Each key occurs at most once, and the keys follow the order of `QueryKeys`. */
  lemma KeysInFixedOrder(f: Filters, p: nat, p': nat)
    requires p < p' < |QueryOf(f)|
    ensures exists i, i' | 0 <= i < i' < |QueryKeys| :: QueryOf(f)[p].0 == QueryKeys[i] && QueryOf(f)[p'].0 == QueryKeys[i']
  {
    var texts := FieldTexts(f);
    PresentInOrder(QueryKeys, texts, p, p');
  }

  /** `Filters::default()` sends no pair at all. */
  lemma DefaultSendsNothing()
    ensures QueryOf(DefaultFilters) == []
  {
    QueryShape(DefaultFilters);
  }

  /** `include_market_cap` is never sent: setting it changes nothing. */
  lemma MarketCapNeverSent(f: Filters, b: Option<bool>)
    ensures QueryOf(f.(include_market_cap := b)) == QueryOf(f)
  {
    assert FieldTexts(f.(include_market_cap := b)) == FieldTexts(f);
  }

  /** `limit` is sent as given, even above the documented maximum of 100. */
  lemma LimitNotChecked(f: Filters, n: U32)
    requires f.limit == Some(n)
    ensures ("limit", Decimal(n)) in QueryOf(f)
    ensures ParseDecimal(Decimal(n)) == n
  {
    FilterSentIff(f, 1, Decimal(n));
    DecimalRoundTrip(n);
  }

  /** An empty list is still sent, with an empty text, which a list of one empty string also gives. */
  lemma EmptyListStillSent(f: Filters)
    requires f.chains == Some([])
    ensures ("chains", "") in QueryOf(f)
    ensures Join([], ',') == Join([""], ',')
  {
    FilterSentIff(f, 3, "");
  }

  // ---------------------------------------------------------------------
  // Transaction type names

  /** The names tell the types apart, and none holds the list separator. */
  lemma TxTypeNameReadBack(t: TxType)
    ensures ParseTxType(TxTypeName(t)) == Some(t)
    ensures ',' !in TxTypeName(t)
  {
    if t == Bridge || t == ContractCreation || t == ContractInteraction || t == Flashloan || t == Lending || t == Lp {
      ReadBackA(t);
    } else if t == NftLending || t == NftLiquidation || t == NftMint || t == NftSweep || t == NftTrade {
      ReadBackB(t);
    } else if t == NftTransfer || t == OptionType || t == Perp || t == Reward {
      ReadBackC(t);
    } else if t == Staking || t == SudoPool || t == Swap {
      ReadBackD(t);
    } else {
      ReadBackE(t);
    }
  }

  lemma ReadBackA(t: TxType)
    requires t == Bridge || t == ContractCreation || t == ContractInteraction || t == Flashloan || t == Lending || t == Lp
    ensures ParseTxType(TxTypeName(t)) == Some(t)
    ensures ',' !in TxTypeName(t)
  {
  }

  lemma ReadBackB(t: TxType)
    requires t == NftLending || t == NftLiquidation || t == NftMint || t == NftSweep || t == NftTrade
    ensures ParseTxType(TxTypeName(t)) == Some(t)
    ensures ',' !in TxTypeName(t)
  {
  }

  lemma ReadBackC(t: TxType)
    requires t == NftTransfer || t == OptionType || t == Perp || t == Reward
    ensures ParseTxType(TxTypeName(t)) == Some(t)
    ensures ',' !in TxTypeName(t)
  {
  }

  lemma ReadBackD(t: TxType)
    requires t == Staking || t == SudoPool || t == Swap
    ensures ParseTxType(TxTypeName(t)) == Some(t)
    ensures ',' !in TxTypeName(t)
  {
  }

  lemma ReadBackE(t: TxType)
    requires t == Transfer || t == Wrap
    ensures ParseTxType(TxTypeName(t)) == Some(t)
    ensures ',' !in TxTypeName(t)
  {
  }

  /** The `txTypes` text of a non-empty list reads back as that list. */
  lemma TxTypesReadBack(ts: seq<TxType>)
    requires |ts| >= 1
    ensures var pieces := Split(Join(TxTypeNames(ts), ','), ',');
      |pieces| == |ts| && forall i | 0 <= i < |ts| :: ParseTxType(pieces[i]) == Some(ts[i])
  {
    var names := TxTypeNames(ts);
    forall i | 0 <= i < |names|
      ensures ',' !in names[i]
    {
      TxTypeNameReadBack(ts[i]);
    }
    SplitJoin(names, ',');
    forall i | 0 <= i < |ts|
      ensures ParseTxType(names[i]) == Some(ts[i])
    {
      TxTypeNameReadBack(ts[i]);
    }
  }
}
