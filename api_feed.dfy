/**
 * What `get_feed` (src/api/feed.rs:170-183) makes of the final outcome of
 * the request once the retrying middleware is done with it.
 */
module ApiFeed {
  import opened Wrappers
  import opened Json
  import opened Http
  import opened Errors
  import opened Envelope
  import opened RetryExt
  import opened FeedSchema
  import FeedItem
  import FeedShadowing
  import FeedRoundTrip
  import EnvelopeProperties

  /**
   * The item decoder of `get_feed`: `Item`'s deserializer, with the variants
   * in declared order. It returns well-typed items and never an `NftSweep`.
   */
  function DecodeItem(j: Json): (r: Option<FeedItem.Item>)
    ensures r.Some? ==> FeedItem.WellFormed(r.value) && r.value.variant != NftSweep
  {
    FeedShadowing.NftSweepNeverDecoded(j);
    FeedItem.Decode(j)
  }

  /**
   * The corrected item decoder, with `Flashloan` tried before `Reward`
   * (see `FeedShadowing.IntendedOrder`).
   */
  function DecodeItemIntended(j: Json): (r: Option<FeedItem.Item>)
    ensures r.Some? ==> FeedItem.WellFormed(r.value)
  {
    FeedItem.DecodeIn(FeedShadowing.IntendedOrder, j)
  }

  /**
   * What `get_feed` returns with the item decoder `item`, given the final
   * response (`None` when sending failed for good) and its body parsed as
   * JSON (`None` when it is not JSON): a failed send is a middleware error;
   * a status outside 2xx gives `StatusNot200` with the body text; otherwise
   * the body must decode as a `Response` of items, and only its items are
   * returned.
   */
  function FinishWith(sent: Option<HttpResponse>, parsed: Option<Json>, item: Json -> Option<FeedItem.Item>): (r: Result<seq<FeedItem.Item>, Error>)
    ensures r.Ok? ==> sent.Some? && IsSuccess(sent.value.status) && parsed.Some?
    ensures r.Ok? ==> forall i | 0 <= i < |r.value| :: Yields(item, r.value[i])
  {
    if sent.None? then Err(ReqwestMiddleware)
    else if !IsSuccess(sent.value.status) then Err(StatusNot200(sent.value.body))
    else if parsed.None? then Err(Reqwest)
    else match DecodeResponse(parsed.value, item)
      case None => Err(Reqwest)
      case Some(resp) => Ok(resp.data.items)
  }

  /**
   * `get_feed` as written: items decoded in declared order. Every item it
   * returns is well typed, and none is an `NftSweep`.
   */
  function FinishFeed(sent: Option<HttpResponse>, parsed: Option<Json>): (r: Result<seq<FeedItem.Item>, Error>)
    ensures r.Ok? ==> forall i | 0 <= i < |r.value| :: FeedItem.WellFormed(r.value[i]) && r.value[i].variant != NftSweep
  {
    FinishWith(sent, parsed, DecodeItem)
  }

  /** `get_feed` with the corrected item decoder. */
  function FinishFeedIntended(sent: Option<HttpResponse>, parsed: Option<Json>): Result<seq<FeedItem.Item>, Error>
  {
    FinishWith(sent, parsed, DecodeItemIntended)
  }

  /** `StatusNot200` comes exactly from a status outside 2xx, and carries the body text. */
  lemma StatusRule(r: HttpResponse, parsed: Option<Json>, b: string)
    ensures FinishFeed(Some(r), parsed) == Err(StatusNot200(b)) <==> !IsSuccess(r.status) && b == r.body
  {
  }

  /**
   * The call succeeds exactly when the send succeeded with a 2xx status and
   * the body is a `Response` of feed items; it then returns the items.
   */
  lemma FeedOkIff(sent: Option<HttpResponse>, parsed: Option<Json>)
    ensures FinishFeed(sent, parsed).Ok? <==>
      sent.Some? && IsSuccess(sent.value.status) && parsed.Some? &&
      DecodeResponse(parsed.value, DecodeItem).Some?
    ensures FinishFeed(sent, parsed).Ok? ==>
      FinishFeed(sent, parsed).value == DecodeResponse(parsed.value, DecodeItem).value.data.items
  {
  }

  /** A send the middleware gave up on is a middleware error, whatever else is known. */
  lemma SendFailureIsMiddleware(parsed: Option<Json>)
    ensures FinishFeed(None, parsed) == Err(ReqwestMiddleware)
  {
  }

  /**
   * Only the items are returned: the status code within 2xx, the body text,
   * the envelope's `status` and `message` and the paging are all dropped.
   */
  lemma OnlyItemsReturned(r: HttpResponse, r': HttpResponse, j: Json, j': Json)
    requires IsSuccess(r.status) && IsSuccess(r'.status)
    requires DecodeResponse(j, DecodeItem).Some? && DecodeResponse(j', DecodeItem).Some?
    requires DecodeResponse(j, DecodeItem).value.data.items == DecodeResponse(j', DecodeItem).value.data.items
    ensures FinishFeed(Some(r), Some(j)) == FinishFeed(Some(r'), Some(j'))
  {
  }

  /**
   * A 2xx response other than 200 is retried by the classifier, yet when
   * it is the final response `get_feed` treats it as a success.
   */
  lemma RetriedYetAccepted<E>(r: HttpResponse, parsed: Option<Json>, f: E -> Option<Retryable>)
    requires IsSuccess(r.status) && r.status != 200
    ensures Handle(Ok(r), f) == Some(Transient)
    ensures !FinishFeed(Some(r), parsed).Err? || !FinishFeed(Some(r), parsed).error.StatusNot200?
  {
  }

  /**
   * A response written with any item writer whose output reads back is
   * returned whole, in order, whatever the 2xx status.
   */
  lemma EncodedResponseReturnsItems(r: HttpResponse, resp: Response<FeedItem.Item>, enc: FeedItem.Item -> Json)
    requires IsSuccess(r.status)
    requires forall i | 0 <= i < |resp.data.items| ::
      DecodeItem(enc(resp.data.items[i])) == Some(resp.data.items[i])
    ensures FinishFeed(Some(r), Some(EncodeResponse(resp, enc))) == Ok(resp.data.items)
  {
    EnvelopeProperties.ResponseRoundTrip(resp, DecodeItem, enc);
  }

  /**
   * What `get_feed` returns for an item the server wrote with `Item`'s
   * serializer: the item itself, except that a `Flashloan` comes back as the
   * `Reward` made of its shared fields and an `NftSweep` as the `NftTrade`
   * with the same fields.
   */
  function Returned(it: FeedItem.Item): (r: FeedItem.Item)
    requires FeedItem.WellFormed(it)
    ensures r.variant != Flashloan && r.variant != NftSweep
    ensures FeedRoundTrip.Reachable(it.variant) ==> r == it
  {
    match it.variant
    case Flashloan =>
      FeedShadowing.FlashloanDecodesAsReward(it);
      FeedItem.Item(Reward, FeedShadowing.Project(it.slots, FeedShadowing.RewardInFlashloan))
    case NftSweep => FeedItem.Item(NftTrade, it.slots)
    case _ => it
  }

  /** Every written item reads back as `Returned` says. */
  lemma ItemReadBack(it: FeedItem.Item)
    requires FeedItem.WellFormed(it)
    ensures DecodeItem(FeedItem.Encode(it)) == Some(Returned(it))
  {
    if it.variant == Flashloan {
      FeedShadowing.FlashloanDecodesAsReward(it);
      var back := FeedItem.Decode(FeedItem.Encode(it)).value;
      assert back.slots == Returned(it).slots;
    } else if it.variant == NftSweep {
      FeedRoundTrip.NftSweepDecodesAsNftTrade(it);
    } else {
      FeedRoundTrip.RoundTrip(it);
    }
  }

  /**
   * A 2xx response whose items were written with `Item`'s serializer gives
   * the items back one for one and in order, each as `Returned` says: all of
   * them unchanged except `Flashloan` and `NftSweep` items.
   */
  lemma WrittenFeedRead(r: HttpResponse, resp: Response<FeedItem.Item>, enc: FeedItem.Item -> Json)
    requires IsSuccess(r.status)
    requires forall i | 0 <= i < |resp.data.items| ::
      FeedItem.WellFormed(resp.data.items[i]) && enc(resp.data.items[i]) == FeedItem.Encode(resp.data.items[i])
    ensures var out := FinishFeed(Some(r), Some(EncodeResponse(resp, enc)));
      out.Ok? && |out.value| == |resp.data.items| &&
      forall i | 0 <= i < |resp.data.items| :: out.value[i] == Returned(resp.data.items[i])
  {
    var back := ItemsReadBack(resp.data.items, enc);
    EnvelopeProperties.ResponseReadsAs(resp, DecodeItem, enc, back);
    assert FinishWith(Some(r), Some(EncodeResponse(resp, enc)), DecodeItem) == Ok(back);
  }

  /** Written items read back one for one as `Returned` says. */
  lemma ItemsReadBack(items: seq<FeedItem.Item>, enc: FeedItem.Item -> Json) returns (back: seq<FeedItem.Item>)
    requires forall i | 0 <= i < |items| :: FeedItem.WellFormed(items[i]) && enc(items[i]) == FeedItem.Encode(items[i])
    ensures |back| == |items|
    ensures forall i | 0 <= i < |items| :: back[i] == Returned(items[i]) && DecodeItem(enc(items[i])) == Some(back[i])
  {
    back := seq(|items|, i requires 0 <= i < |items| => Returned(items[i]));
    forall i | 0 <= i < |items|
      ensures DecodeItem(enc(items[i])) == Some(back[i])
    {
      ItemReadBack(items[i]);
    }
  }

  /**
   * With the corrected decoder, a 2xx response of written items gives back
   * every item unchanged, provided none is an `NftSweep`.
   */
  lemma WrittenFeedReadIntended(r: HttpResponse, resp: Response<FeedItem.Item>, enc: FeedItem.Item -> Json)
    requires IsSuccess(r.status)
    requires forall i | 0 <= i < |resp.data.items| ::
      FeedItem.WellFormed(resp.data.items[i]) && resp.data.items[i].variant != NftSweep &&
      enc(resp.data.items[i]) == FeedItem.Encode(resp.data.items[i])
    ensures FinishFeedIntended(Some(r), Some(EncodeResponse(resp, enc))) == Ok(resp.data.items)
  {
    forall i | 0 <= i < |resp.data.items|
      ensures DecodeItemIntended(enc(resp.data.items[i])) == Some(resp.data.items[i])
    {
      FeedRoundTrip.IntendedRoundTrip(resp.data.items[i]);
    }
    EnvelopeProperties.ResponseRoundTrip(resp, DecodeItemIntended, enc);
  }

  /**
   * The two decoders part on exactly the written `Flashloan` items: as
   * written they come back as `Reward`s, with the correction as themselves.
   */
  lemma FlashloanFeedDiffers(r: HttpResponse, resp: Response<FeedItem.Item>, enc: FeedItem.Item -> Json, i: nat)
    requires IsSuccess(r.status)
    requires forall k | 0 <= k < |resp.data.items| ::
      FeedItem.WellFormed(resp.data.items[k]) && resp.data.items[k].variant != NftSweep &&
      enc(resp.data.items[k]) == FeedItem.Encode(resp.data.items[k])
    requires i < |resp.data.items|
    ensures var asWritten := FinishFeed(Some(r), Some(EncodeResponse(resp, enc)));
      var corrected := FinishFeedIntended(Some(r), Some(EncodeResponse(resp, enc)));
      asWritten.Ok? && corrected.Ok? && i < |asWritten.value| && i < |corrected.value| &&
      (asWritten.value[i] == corrected.value[i] <==> resp.data.items[i].variant != Flashloan)
  {
    WrittenFeedRead(r, resp, enc);
    WrittenFeedReadIntended(r, resp, enc);
  }
}
