# A model of the Cielo feed client

This Dafny project models the logic of a small Rust client for the Cielo
feed API. It leaves out the HTTP plumbing and keeps four parts:

- **Feed item decoding.** `enum Item` is `#[serde(untagged)]` over 20
  transaction structs (`FeedSchema`, `FeedItem`). Decoding tries the
  variants in declaration order and keeps the first struct that binds the
  JSON value. Encoding writes the struct's fields and no tag.
  - `FeedProperties`, `FeedFields` and `FeedShadowing` prove what that
    search accepts, which fields decide it, and which variants it can
    never return.
  - `FeedKeys` proves that no struct repeats a key, and `FeedRoundTrip`
    that every encoded item decodes as itself except the two shadowed
    variants, `Flashloan` and `NftSweep`.
- **The response envelope.** `Response<T>`, `ResponseData<T>` and `Paging`
  are read and written by serde's derived code (`Envelope`,
  `EnvelopeProperties`). The item decoder is a parameter there.
- **The query of `get_feed`.** `Filters` becomes an ordered list of
  `(key, text)` pairs (`FeedQuery`, `FeedQueryProperties`):
  - integers are written in decimal and booleans as `true`/`false` (`Text`);
  - lists are joined with `,`;
  - transaction types use their snake_case names.
  - `FeedQuery.BuildQuery` is the if-let chain of the source, written as a
    method that rebuilds the query one filter at a time.
- **The outcome of a call and the client set-up.**
  - `ApiFeed.FinishFeed` turns the final response into the result of
    `get_feed`.
  - `RetryExt.Handle` is the retry classifier, and
    `RetryExt.GetRetryStrategy` builds the backoff policy from the bounds.
  - `Client.New` is `CieloApi::new`: it sets the API-key header through
    small `HeaderValue` and `HeaderMap` classes, fixes the timeout, and
    fills in retry defaults.
  - `Errors.Error` is the crate's three-case error type.

JSON is modelled as a value tree (`Json`), not as text:
- A number is either an integer literal or any other finite number.
- A struct reads from an object by key and ignores other keys.
- A struct also reads from an array by position; the array must hold
  exactly one element per field.
- An `Option` field is `None` when its key is absent or its value is null.

`u32` and `u64` are the subset types `U32` and `U64` of the unbounded
integers. Only an integer literal inside the type's range binds them.

## Model

| member | source | states |
|---|---|---|
| FeedItem.Decode | src/models/feed.rs:6-49 | `Item`'s deserializer tries the variants in declared order; what it returns is well typed |
| FeedItem.DecodeIn | src/models/feed.rs:6-49 | the untagged search over a given order returns only items of a listed variant, with its struct's field types |
| FeedItem.Encode | src/models/feed.rs:6-49 | the written object has exactly the struct's keys and no tag (what each key holds is `FeedProperties.EncodedMembers`) |
| FeedItem.FirstMatch | src/models/feed.rs:6-49 | the variant chosen is the first whose struct binds the value: every earlier one refuses it, and `None` means every variant refuses it |
| FeedItem.BindFields | src/models/feed.rs:52-108 | a struct binds exactly when every one of its fields binds, and then holds each field's value in declaration order |
| FeedItem.BindStruct | src/models/feed.rs:52-108 | whatever binds has the struct's field types |
| FeedItem.BindScalar | src/models/feed.rs:52-108 | a value read for a field has the field's Rust type |
| FeedItem.EncodeMembers | src/models/feed.rs:6-10 | the written object has exactly the struct's keys, and each key holds its own field's value |
| FeedItem.EncodeValue | src/models/feed.rs:6-10 | a present value is never written as null |
| Serde.AsUnsigned | src/models/feed.rs:65-67 | an unsigned field takes exactly an integer literal in its type's range, with no fraction, exponent or sign |
| Serde.OptStrRoundTrip | src/models/mod.rs:22 | an `Option<String>` written out reads back as itself |
| FeedSchema.Schema | src/models/feed.rs:52-1062 | the struct each variant wraps: its JSON keys and field types in declaration order (its properties are the rows below and `FeedKeys.NamesDistinct`) |
| FeedSchema.LeadingField | src/models/feed.rs:55-69 | every struct starts with the same seven header fields and then `block`, with the same types |
| FeedSchema.SchemaAligned | src/models/feed.rs:52-1062 | each struct gives one type per key |
| FeedSchema.OptionalFields | src/models/feed.rs:107 | only `Swap`/`Transfer.token_market_cap`, `SudoPool.dex` and the four `Perp` position fields are `Option` after `block` (lines 222, 641, 826-832) |
| FeedSchema.OptionalFieldNames | src/models/feed.rs:826-832 | the optional fields after `block` carry exactly those names |
| FeedProperties.MarketCapRoundTrip | src/models/feed.rs:110-119 | a written `TokenMarketCap` reads back as itself |
| FeedProperties.ScalarRoundTrip | src/models/feed.rs:52-108 | a written value of any field type reads back as the same value |
| FeedProperties.SlotRoundTrip | src/models/feed.rs:107 | a written field, `None` included, reads back as itself |
| FeedProperties.StructRoundTrip | src/models/feed.rs:52-108 | a struct with distinct keys reads back from its written object field for field |
| FeedProperties.EncodedMembers | src/models/feed.rs:52-108 | reading the written object by the struct's keys finds each field's written value |
| FeedProperties.DecodeInSound | src/models/feed.rs:6-49 | a decoded item's variant is listed, its struct binds the value, and its fields are the ones bound |
| FeedProperties.DecodeInNone | src/models/feed.rs:6-49 | decoding fails exactly when no variant's struct binds |
| FeedProperties.DecodeInPicks | src/models/feed.rs:6-49 | the first variant that binds is the one decoded, with the fields it binds |
| FeedProperties.RoundTripIn | src/models/feed.rs:6-49 | an encoded item decodes as itself when no variant before it binds the encoding |
| FeedProperties.EncodedAlwaysDecodes | src/models/feed.rs:6-49 | every encoded item decodes as some item |
| FeedProperties.NullNeverBinds | src/models/feed.rs:52-108 | null never binds a field that is not an `Option` |
| FeedProperties.MissingRequiredRejects | src/models/feed.rs:52-108 | a struct refuses an object whose required field is absent or of the wrong type |
| FeedProperties.MissingOptionalIsNone | src/models/feed.rs:639-641 | an `Option` field that is absent or null binds as `None` |
| FeedProperties.OtherKeysIgnored | src/models/feed.rs:51-53 | a struct's binding depends only on the members under its own keys |
| FeedProperties.HeaderRequired | src/models/feed.rs:55-67 | an object that lacks a header field, or holds one of the wrong type, decodes as nothing |
| FeedProperties.HeaderRejects | src/models/feed.rs:55-67 | every struct refuses such an object |
| FeedProperties.HeaderField | src/models/feed.rs:55-67 | field `h` of every struct is header field `h` with its type |
| FeedFields.StringBindsAlike | src/models/feed.rs:61 | whether a string binds a field depends on the field's type, not on the text |
| FeedFields.StringContentBlind | src/models/feed.rs:61 | replacing one string member by another string changes no struct's verdict |
| FeedFields.FirstMatchAgrees | src/models/feed.rs:6-49 | two values that every struct treats alike are found at the same position |
| FeedFields.DecodeInAgrees | src/models/feed.rs:6-49 | two such values decode to the same variant, or both fail |
| FeedFields.TxTypeNeverChooses | src/models/feed.rs:61 | rewriting the `tx_type` string keeps the decoded variant, or the failure |
| FeedFields.BoundField | src/models/feed.rs:52-108 | a bound struct holds, for each field, what that field binds from the member under its key |
| FeedFields.RequiredUnsigned | src/models/feed.rs:65-67 | a bound `u32`/`u64` field came from an integer literal below 2^32/2^64 and holds it |
| FeedFields.Decoded | src/models/feed.rs:6-49 | a decoded item is its variant's struct bound to the object |
| FeedFields.DecodedHeaderIntegers | src/models/feed.rs:65-67 | every decoded item read `index` below 2^32 and `timestamp` below 2^64 and holds them |
| FeedFields.DecodedBlock | src/models/feed.rs:69 | `block` is a required integer below 2^64, except in `SudoPool`, where absent or null gives `None` (line 639) |
| FeedFields.BlockField | src/models/feed.rs:639 | an `Option<u64>` `block` is `None` when absent or null, and otherwise an integer below 2^64 |
| FeedFields.DecodedNftAmount | src/models/feed.rs:647 | a decoded `SudoPool` read `nft_amount` from an integer literal below 2^32 |
| FeedFields.NftAmountField | src/models/feed.rs:647 | `SudoPool`'s field 11 is `nft_amount: u32` |
| FeedFields.ExtraKeysKeepBinding | src/models/feed.rs:51-53 | keys a struct does not name never stop it binding and change none of its fields |
| FeedFields.ExtraKeysStillDecode | src/models/feed.rs:51-53 | adding keys the decoded variant does not name still decodes, perhaps as an earlier variant |
| FeedKeys.NamesDistinct | src/models/feed.rs:52-1062 | no item struct repeats a JSON key |
| FeedKeys.DistinctAppend | src/models/feed.rs:52-1062 | two runs of keys without repeats that share no key join into a run without repeats |
| FeedKeys.FreshAfterLead | src/models/feed.rs:55-69 | a run of body keys without repeats and apart from the header shares no key with the header and `block` |
| FeedShadowing.SweepSameAsTrade | src/models/feed.rs:1005-1062 | `NftSweep` has the same keys and types as `NftTrade` (lines 329-386) |
| FeedShadowing.EarlierMatchWins | src/models/feed.rs:6-49 | a variant is not decoded when a variant before it binds the value |
| FeedShadowing.SameShapeShadowed | src/models/feed.rs:6-49 | a variant after another with the same struct is never decoded |
| FeedShadowing.NftSweepNeverDecoded | src/models/feed.rs:48 | no value decodes as `NftSweep` |
| FeedShadowing.EarlyVariantsReject | src/models/feed.rs:10-32 | an object without `to`, `type` and `from_label` binds none of the twelve variants before `Reward` |
| FeedShadowing.NeedsKey | src/models/feed.rs:52-108 | a variant refuses an object that lacks one of its required keys |
| FeedShadowing.EmbeddedAdmits | src/models/feed.rs:51-53 | an object that binds a struct also binds every struct embedded in it, to the shared fields |
| FeedShadowing.LiftEmbeds | src/models/feed.rs:55-69 | embedding survives putting the same leading fields before both structs |
| FeedShadowing.RewardEmbedsInFlashloan | src/models/feed.rs:672-703 | every key of `Reward` is a key of `Flashloan` (lines 837-876), with the same type |
| FeedShadowing.FlashloanObjectNeverDecoded | src/models/feed.rs:837-876 | no JSON object decodes as `Flashloan` |
| FeedShadowing.FlashloanEncodingBinds | src/models/feed.rs:837-876 | an encoded `Flashloan` binds its own struct, to its own fields |
| FeedShadowing.FlashloanObjectBindsReward | src/models/feed.rs:672-703 | an object that binds `Flashloan` binds `Reward`, to the shared fields |
| FeedShadowing.LateObjectDecodesAsReward | src/models/feed.rs:34 | an object that binds `Reward` and has none of the early variants' keys decodes as `Reward` |
| FeedShadowing.FlashloanDecodesAsReward | src/models/feed.rs:34-40 | an encoded `Flashloan` decodes as the `Reward` made of its shared fields |
| FeedShadowing.MoveTo | src/models/feed.rs:6-49 | moving one element leaves the others in order around it |
| FeedShadowing.MovedPermutes | src/models/feed.rs:6-49 | a sequence with one element moved is a permutation of the original |
| FeedShadowing.IntendedOrderIsMove | src/models/feed.rs:6-49 | the corrected order is the declared one with `Flashloan` moved before `Reward`, and lists the same variants |
| FeedShadowing.IntendedFlashloanRoundTrip | src/models/feed.rs:837-876 | in the corrected order an encoded `Flashloan` decodes as itself |
| FeedShadowing.IntendedRewardRoundTrip | src/models/feed.rs:672-703 | in the corrected order an encoded `Reward` still decodes as itself |
| FeedShadowing.IntendedBeforeReward | src/models/feed.rs:34-40 | an object without `to`, `type`, `from_label` and `dex` binds none of the variants tried before `Reward` in the corrected order |
| FeedRoundTrip.Position | src/models/feed.rs:6-49 | where each variant stands in the declared order |
| FeedRoundTrip.SignatureHolds | src/models/feed.rs:52-1062 | the signature keys of each variant are keys of required fields of its struct |
| FeedRoundTrip.BlockKeysHold | src/models/feed.rs:52-1062 | every variant declared before `v` has a signature key that `v`'s struct lacks |
| FeedRoundTrip.AbsentLacked | src/models/feed.rs:52-1062 | each struct has none of the keys listed as absent for it |
| FeedRoundTrip.EarlierRefuse | src/models/feed.rs:6-49 | the encoding of an item binds none of the variants declared before its own, unless it is a `Flashloan` or an `NftSweep` |
| FeedRoundTrip.RoundTrip | src/models/feed.rs:6-49 | every encoded item decodes as itself, except `Flashloan` and `NftSweep` items |
| FeedRoundTrip.NftSweepDecodesAsNftTrade | src/models/feed.rs:1005-1062 | an encoded `NftSweep` comes back as the `NftTrade` with the same fields (lines 329-386) |
| FeedRoundTrip.IntendedPosition | src/models/feed.rs:6-49 | where each variant stands once `Flashloan` is moved before `Reward` |
| FeedRoundTrip.FlashloanBlocked | src/models/feed.rs:837-876 | `Flashloan` requires a key that each variant declared after `Reward` lacks |
| FeedRoundTrip.IntendedRoundTrip | src/models/feed.rs:6-49 | in the corrected order every encoded item decodes as itself except an `NftSweep` |
| Envelope.DecodePaging | src/models/mod.rs:39-47 | `Paging` reads from an object or array; from an object, `has_next_page` is the boolean under that key |
| Envelope.DecodeData | src/models/mod.rs:30-36 | from an object, the items are what the elements of the `items` array decode to, one for one and in order |
| Envelope.DecodeResponse | src/models/mod.rs:15-23 | from an object, `status` is the string under that key, and every item is one the item decoder yields |
| Envelope.EncodeResponse | src/models/mod.rs:15-23 | the envelope is written as an object whose `message` is null exactly when it is `None` |
| Envelope.DecodeItems | src/models/mod.rs:33 | the list reads exactly when every element reads, one item per element, in the same order |
| EnvelopeProperties.PagingAccepts | src/models/mod.rs:40-47 | a `Paging` reads exactly when `total_rows_in_page` is an integer below 2^64, `has_next_page` a bool and `next_object` absent, null or a string; the two are not tied |
| EnvelopeProperties.PagingRoundTrip | src/models/mod.rs:39-47 | a written `Paging` reads back as itself |
| EnvelopeProperties.DataAccepts | src/models/mod.rs:31-36 | `data` reads exactly when `items` is an array whose every element reads and `paging` is a `Paging` |
| EnvelopeProperties.ResponseAccepts | src/models/mod.rs:16-23 | the envelope reads exactly when `status` is a string and `data` reads; `message` may be absent, null or a string |
| EnvelopeProperties.OneBadItemFailsAll | src/models/mod.rs:33 | one element that does not read fails the whole response, so no partial list is returned |
| EnvelopeProperties.DecodedItemsInOrder | src/models/mod.rs:33 | the decoded items are the array's elements, one for one and in order |
| EnvelopeProperties.ResponseReadsAs | src/models/mod.rs:15-47 | a written response reads back with the same status, message and paging, and with what each written item reads as, in order |
| EnvelopeProperties.ResponseRoundTrip | src/models/mod.rs:15-47 | a written response whose items read back reads back whole |
| FeedQuery.TxTypeName | src/api/feed.rs:43-86 | each type's name is non-empty and holds no comma |
| FeedQuery.Present | src/api/feed.rs:135-167 | at most one pair per position read, each under one of the keys |
| FeedQuery.QueryOf | src/api/feed.rs:135-167 | at most one pair per filter, each under a filter's key |
| FeedQuery.PresentStep | src/api/feed.rs:135-167 | looking at one more filter appends its pair, if it has one |
| FeedQuery.QueryOfByField | src/api/feed.rs:135-167 | the query is the eleven filters' pairs in the order of the if-chain |
| FeedQuery.AddIfSet | src/api/feed.rs:135-137 | one `if let` step appends the pair when the filter is set and leaves the query alone otherwise |
| FeedQuery.BuildQuery | src/api/feed.rs:132-167 | the request built step by step holds exactly the query of the filters |
| FeedQueryProperties.SetPositions | src/api/feed.rs:135-167 | the positions of the set filters, strictly increasing and complete |
| FeedQueryProperties.PresentAt | src/api/feed.rs:135-167 | the pairs are those of the set positions, in order, each under its key with its text |
| FeedQueryProperties.PresentSentIff | src/api/feed.rs:135-167 | with distinct keys, a pair is sent exactly when its filter is set to that text, and every key sent is a filter key |
| FeedQueryProperties.PresentHas | src/api/feed.rs:135-167 | a set position is sent |
| FeedQueryProperties.PresentOnly | src/api/feed.rs:135-167 | a pair sent under a key carries that position's text |
| FeedQueryProperties.PresentInOrder | src/api/feed.rs:135-167 | later pairs come from later positions |
| FeedQueryProperties.QueryKeysDistinct | src/api/feed.rs:135-167 | no two filters share a key |
| FeedQueryProperties.QueryShape | src/api/feed.rs:135-167 | the query has one pair per set filter, in if-chain order, under its key with its text, and nothing else |
| FeedQueryProperties.FilterSentIff | src/api/feed.rs:135-167 | filter `i` is sent with text `v` exactly when it is set to `v`; only filter keys are sent |
| FeedQueryProperties.KeysInFixedOrder | src/api/feed.rs:135-167 | whichever filters are set, their keys appear in the order of the if-chain |
| FeedQueryProperties.DefaultSendsNothing | src/api/feed.rs:11 | `Filters::default()` sends no pair |
| FeedQueryProperties.MarketCapNeverSent | src/api/feed.rs:36 | setting `include_market_cap` changes nothing in the query |
| FeedQueryProperties.LimitNotChecked | src/api/feed.rs:138-140 | `limit` is sent in decimal as given, even above the documented 100 (line 15), and the text reads back as the number |
| FeedQueryProperties.EmptyListStillSent | src/api/feed.rs:144-146 | an empty `chains` list is still sent, with an empty text that a list of one empty string also gives |
| FeedQueryProperties.TxTypeNameReadBack | src/api/feed.rs:43-86 | the snake_case names tell the 20 types apart and none holds a comma |
| FeedQueryProperties.TxTypesReadBack | src/api/feed.rs:147-150 | the `txTypes` text of a non-empty list splits back into that list |
| Text.Decimal | src/api/feed.rs:138-140 | `to_string` of an unsigned integer is digits only, with a leading zero only for 0 |
| Text.DecimalRoundTrip | src/api/feed.rs:138-140 | the decimal text denotes the number written |
| Text.BoolText | src/api/feed.rs:157-158 | a bool is written `true` exactly when it is true, and `false` otherwise |
| Text.SplitPiece | src/api/feed.rs:144-146 | a piece without the separator is read back whole |
| Text.SplitJoin | src/api/feed.rs:144-146 | joining strings that hold no comma and splitting the result gives them back |
| Text.JoinIsAmbiguous | src/api/feed.rs:144-146 | nothing is escaped: a comma inside an element reads as a comma between elements |
| ApiFeed.DecodeItem | src/api/feed.rs:178-183 | the items of `get_feed` are read by `Item`'s deserializer in declared order: well typed, never an `NftSweep` |
| ApiFeed.DecodeItemIntended | src/models/feed.rs:6-49 | the corrected item decoder returns well-typed items |
| ApiFeed.FinishWith | src/api/feed.rs:170-183 | a call succeeds only after a 2xx send with a body, and each item returned is one the item decoder yields |
| ApiFeed.FinishFeed | src/api/feed.rs:170-183 | `get_feed` as written returns only well-typed items, never an `NftSweep` |
| ApiFeed.StatusRule | src/api/feed.rs:173-175 | `StatusNot200` comes exactly from a final status outside 2xx and carries the body text |
| ApiFeed.FeedOkIff | src/api/feed.rs:170-183 | the call succeeds exactly when the send succeeded with a 2xx status and the body is a response of feed items, and then returns those items |
| ApiFeed.SendFailureIsMiddleware | src/api/feed.rs:170 | a send the middleware gave up on is a middleware error |
| ApiFeed.OnlyItemsReturned | src/api/feed.rs:178-183 | only `data.items` is returned: status code, envelope status, message and paging are dropped |
| ApiFeed.RetriedYetAccepted | src/api/feed.rs:173 | a 2xx status other than 200 is retried by the classifier (src/reqwest_ext.rs:53) yet accepted as final |
| ApiFeed.EncodedResponseReturnsItems | src/api/feed.rs:178-183 | a written response whose items read back is returned as its items, in order |
| ApiFeed.Returned | src/models/feed.rs:34-48 | a written item comes back unchanged, except a `Flashloan` (as a `Reward`) and an `NftSweep` (as an `NftTrade`) |
| ApiFeed.ItemReadBack | src/models/feed.rs:6-49 | every written item reads back as `Returned` says |
| ApiFeed.WrittenFeedRead | src/api/feed.rs:178-183 | a 2xx response of written items gives them back one for one, in order, each as `Returned` says |
| ApiFeed.WrittenFeedReadIntended | src/api/feed.rs:178-183 | with the corrected decoder the same response gives back every item unchanged, `NftSweep` aside |
| ApiFeed.FlashloanFeedDiffers | src/api/feed.rs:178-183 | the two decoders give different items exactly for the written `Flashloan` items |
| RetryExt.Handle | src/reqwest_ext.rs:47-61 | a response is left alone exactly when its status is 200, and is never `Fatal` |
| RetryExt.FromMillis | src/reqwest_ext.rs:26-27 | a duration from milliseconds has fewer than a second's nanoseconds |
| RetryExt.MillisRoundTrip | src/reqwest_ext.rs:26-27 | the milliseconds survive the conversion to a duration |
| RetryExt.GetRetryStrategy | src/reqwest_ext.rs:19-32 | the policy holds both bounds in milliseconds and the retry count unchanged, unclamped and unordered |
| RetryExt.StrategyInjective | src/reqwest_ext.rs:19-32 | different settings give different policies |
| RetryExt.OnlyStatusCounts | src/reqwest_ext.rs:51-58 | for a response only the status counts, not the body and not the error classifier |
| RetryExt.AllButOkRetried | src/reqwest_ext.rs:53-55 | every status but 200 is retried as transient |
| RetryExt.ErrorsToClassifier | src/reqwest_ext.rs:59 | an error gets the library classifier's verdict, which alone can be `Fatal` |
| Client.HeaderValue.FromStr | src/api/mod.rs:66 | a valid key becomes a header value with that text, not yet sensitive |
| Client.HeaderValue.SetSensitive | src/api/mod.rs:67 | only the sensitive flag changes |
| Client.HeaderMap.Insert | src/api/mod.rs:68 | the value is stored under the name, replacing any earlier one, and nothing else changes |
| Client.New | src/api/mod.rs:58-86 | an invalid key panics and a build failure is the only error; otherwise the one default header is the sensitive `X-API-KEY`, the timeout is 10 s and the retry policy uses the given or default settings |
| Client.UnwrapOr | src/api/mod.rs:76-78 | a given setting is used, a missing one takes the default |
| Client.RetryFor | src/api/mod.rs:75-79 | each missing setting takes its own default (500 ms, 1000 ms, 3, from src/constants.rs:7-11) whatever the others are |
| Client.NoOrderCheck | src/api/mod.rs:76-78 | a minimum interval above the maximum is kept as given |
| Client.TimeoutIsTenSeconds | src/api/mod.rs:72 | the timeout is 10 000 ms |

## Left out

- Sending the request, awaiting it, and the feed URL (src/api/feed.rs:130, 170): network I/O. The final response, or the middleware's failure, is an input of `ApiFeed.FinishFeed`.
- Reading the body text (`text().await?`, src/api/feed.rs:174): a failed read is not modelled. The text is taken as given.
- Parsing and printing JSON text, and URL percent-encoding of the query: library behaviour. JSON is a value tree and the query is a list of string pairs.
- Duplicate keys in a JSON object: an object is a map, so a repeated key cannot be expressed.
- `f64` values are the exact reals they denote, with no rounding; nothing in the source computes with them.
- The retry loop, the exponential backoff delays and the jitter (src/reqwest_ext.rs:24-31): these are inside the retry library. `RetryExt.GetRetryStrategy` keeps only the bounds and the retry count it is given.
- `default_on_request_failure` (src/reqwest_ext.rs:59) belongs to the retry library and is a function parameter of `RetryExt.Handle`.
- Client.New: the retry library may itself assert that the minimum interval is at most the maximum; if it does, `new(key, Some(2000), Some(1000), None)` panics, while `Client.New` panics only on an invalid key and keeps the bounds as given (`Client.NoOrderCheck`). The retry library is not part of this model.
- Client.New: whether `reqwest::Client::builder().build()` succeeds is a parameter. The library's lower-casing of header names is not modelled; the header is kept as `X-API-KEY`.
- The `Display` text and the `From` conversions of `Error` (src/error.rs): only the three cases are kept.
- `TxType`'s snake_case names are written out per variant. They are not derived from the identifiers by a general snake_case function.
- The tests, the example program and src/lib.rs: they need a live API key, or only re-export.

## Findings

| source | as written | input that shows it | evidently intended | confidence | as-written member | corrected member |
|---|---|---|---|---|---|---|
| src/models/feed.rs:34-40 | `Reward` is declared before `Flashloan`, and every key of `Reward` is a key of `Flashloan` with the same type (lines 672-703, 837-876) | the encoding of any `Flashloan` item: an object with `dex`, `health_factor`, `platform` and `token_icon_link` besides the `Reward` keys | a `Flashloan` object decodes as `Flashloan`, which needs `Flashloan` tried before `Reward` | not executed | FeedShadowing.FlashloanDecodesAsReward | FeedRoundTrip.IntendedRoundTrip |

In the declared order, the untagged search returns a `Flashloan` object as
the `Reward` made of its shared fields. `FeedShadowing.FlashloanObjectNeverDecoded`
shows that no JSON object decodes as `Flashloan`. Only an array of
`Flashloan`'s length can still reach it.

`FeedShadowing.IntendedOrder` moves `Flashloan` just before `Reward`. In
that order every encoded item other than an `NftSweep` decodes as itself
(`FeedRoundTrip.IntendedRoundTrip`), `Flashloan` and `Reward` included.

`ApiFeed.FinishFeed` is `get_feed` as written: it reads the items with
`ApiFeed.DecodeItem`, which is `FeedItem.Decode` in declared order, so a
written `Flashloan` comes back as a `Reward` (`ApiFeed.WrittenFeedRead`).
`ApiFeed.FinishFeedIntended` reads them in the corrected order and gives
every such item back unchanged (`ApiFeed.WrittenFeedReadIntended`).
`ApiFeed.FlashloanFeedDiffers` shows that the two part on exactly the
`Flashloan` items.

`NftSweep` is not fixed this way. It has the same struct as `NftTrade`, so
no order lets both decode as themselves (`FeedShadowing.SameShapeShadowed`).
