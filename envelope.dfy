/**
 * The response envelope (src/models/mod.rs): `Response<T>`, `ResponseData<T>`
 * and `Paging`, read and written by serde's derived implementations. The
 * items' own decoder and encoder are parameters, so every property here
 * holds whatever the item type is.
 */
module Envelope {
  import opened Wrappers
  import opened Json
  import opened Serde

  /** `Paging` (src/models/mod.rs:40-47). */
  datatype Paging = Paging(total_rows_in_page: U64, has_next_page: bool, next_object: Option<string>)

  /** `ResponseData<T>` (src/models/mod.rs:31-36). */
  datatype ResponseData<T> = ResponseData(items: seq<T>, paging: Paging)

  /** `Response<T>` (src/models/mod.rs:16-23). */
  datatype Response<T> = Response(status: string, data: ResponseData<T>, message: Option<string>)

  const PagingNames: seq<string> := ["total_rows_in_page", "has_next_page", "next_object"]
  const DataNames: seq<string> := ["items", "paging"]
  const ResponseNames: seq<string> := ["status", "data", "message"]

  // ---------------------------------------------------------------------
  // Decoding

  /** `t` is what `item` makes of some JSON value. */
  ghost predicate Yields<T>(item: Json -> Option<T>, t: T)
  {
    exists x :: item(x) == Some(t)
  }

  /** `Paging`'s deserializer; from an object, `has_next_page` is the boolean under that key. */
  function DecodePaging(j: Json): (r: Option<Paging>)
    ensures r.Some? ==> j.JObj? || j.JArr?
    ensures r.Some? && j.JObj? ==>
      "has_next_page" in j.members && j.members["has_next_page"] == JBool(r.value.has_next_page)
  {
    match Members(j, PagingNames)
    case None => None
    case Some(ps) =>
      if ps[0].None? || ps[1].None? then None
      else match (AsUnsigned(ps[0].value, U64_LIMIT), AsBool(ps[1].value), AsOptStr(ps[2]))
        case (Some(n), Some(b), Some(o)) => Some(Paging(n, b, o))
        case _ => None
  }

  /**
   * A `Vec<T>` read from the elements of a JSON array: every element must
   * decode, and the items keep the elements' order.
   */
  function DecodeItems<T>(xs: seq<Json>, item: Json -> Option<T>): (r: Option<seq<T>>)
    ensures r.Some? <==> forall i | 0 <= i < |xs| :: item(xs[i]).Some?
    ensures r.Some? ==> |r.value| == |xs| && forall i | 0 <= i < |xs| :: r.value[i] == item(xs[i]).value
  {
    if xs == [] then Some([])
    else
      var head := item(xs[0]);
      var rest := DecodeItems(xs[1..], item);
      if head.Some? && rest.Some? then Some([head.value] + rest.value)
      else
        assert head.Some? ==> exists i | 0 <= i < |xs| - 1 :: item(xs[1..][i]).None?;
        None
  }

  /**
   * `ResponseData<T>`'s deserializer; from an object, the items are what
   * the elements of the array under `items` decode to, one for one.
   */
  function DecodeData<T>(j: Json, item: Json -> Option<T>): (r: Option<ResponseData<T>>)
    ensures r.Some? ==> j.JObj? || j.JArr?
    ensures r.Some? && j.JObj? ==>
      "items" in j.members && j.members["items"].JArr? && |j.members["items"].elems| == |r.value.items| &&
      forall i | 0 <= i < |r.value.items| :: item(j.members["items"].elems[i]) == Some(r.value.items[i])
  {
    match Members(j, DataNames)
    case None => None
    case Some(ps) =>
      if ps[0].None? || !ps[0].value.JArr? || ps[1].None? then None
      else match (DecodeItems(ps[0].value.elems, item), DecodePaging(ps[1].value))
        case (Some(items), Some(paging)) => Some(ResponseData(items, paging))
        case _ => None
  }

  /**
   * `Response<T>`'s deserializer, given `T`'s; from an object, `status` is
   * the string under that key, and every item is one that `item` yields.
   */
  function DecodeResponse<T>(j: Json, item: Json -> Option<T>): (r: Option<Response<T>>)
    ensures r.Some? ==> j.JObj? || j.JArr?
    ensures r.Some? && j.JObj? ==> "status" in j.members && j.members["status"] == JStr(r.value.status)
    ensures r.Some? ==> forall i | 0 <= i < |r.value.data.items| :: Yields(item, r.value.data.items[i])
  {
    match Members(j, ResponseNames)
    case None => None
    case Some(ps) =>
      if ps[0].None? || ps[1].None? then None
      else match (AsStr(ps[0].value), DecodeData(ps[1].value, item), AsOptStr(ps[2]))
        case (Some(s), Some(d), Some(msg)) => Some(Response(s, d, msg))
        case _ => None
  }

  // ---------------------------------------------------------------------
  // Encoding

  function EncodePaging(p: Paging): Json
  {
    JObj(map[
      "total_rows_in_page" := JNum(Int(p.total_rows_in_page)),
      "has_next_page" := JBool(p.has_next_page),
      "next_object" := FromOptStr(p.next_object)])
  }

  function EncodeItems<T>(items: seq<T>, enc: T -> Json): (r: seq<Json>)
    ensures |r| == |items| && forall i | 0 <= i < |items| :: r[i] == enc(items[i])
  {
    seq(|items|, i requires 0 <= i < |items| => enc(items[i]))
  }

  function EncodeData<T>(d: ResponseData<T>, enc: T -> Json): Json
  {
    JObj(map["items" := JArr(EncodeItems(d.items, enc)), "paging" := EncodePaging(d.paging)])
  }

  /** `Response<T>`'s serializer, given `T`'s: `message: None` is written as null, not skipped. */
  function EncodeResponse<T>(r: Response<T>, enc: T -> Json): (j: Json)
    ensures j.JObj? && "message" in j.members && (r.message.None? <==> j.members["message"] == JNull)
  {
    JObj(map[
      "status" := JStr(r.status),
      "data" := EncodeData(r.data, enc),
      "message" := FromOptStr(r.message)])
  }
}
