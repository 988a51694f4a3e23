/**
 * What the envelope's derived implementations (src/models/mod.rs) accept,
 * and the round trips they complete.
 */
module EnvelopeProperties {
  import opened Wrappers
  import opened Json
  import opened Serde
  import opened Envelope

  /** An `Option<String>` member: absent, null or a string. */
  predicate OptStrMember(m: map<string, Json>, key: string)
  {
    key !in m || m[key] == JNull || m[key].JStr?
  }

  /**
   * An object is a `Paging` exactly when `total_rows_in_page` is an integer
   * in `0 .. 2^64 - 1`, `has_next_page` a bool and `next_object` absent,
   * null or a string; nothing ties `has_next_page` to `next_object`.
   */
  lemma PagingAccepts(m: map<string, Json>)
    ensures DecodePaging(JObj(m)).Some? <==>
      "total_rows_in_page" in m && m["total_rows_in_page"].JNum? &&
      IsIntegerBelow(m["total_rows_in_page"].n, U64_LIMIT) &&
      "has_next_page" in m && m["has_next_page"].JBool? &&
      OptStrMember(m, "next_object")
  {
    var ps := Members(JObj(m), PagingNames).value;
    assert ps[0] == (if "total_rows_in_page" in m then Some(m["total_rows_in_page"]) else None);
    assert ps[1] == (if "has_next_page" in m then Some(m["has_next_page"]) else None);
    assert ps[2] == (if "next_object" in m then Some(m["next_object"]) else None);
  }

  /** Writing a `Paging` and reading it back gives it back, whatever its fields. */
  lemma PagingRoundTrip(p: Paging)
    ensures DecodePaging(EncodePaging(p)) == Some(p)
  {
    var ps := Members(EncodePaging(p), PagingNames).value;
    assert ps[0] == Some(JNum(Int(p.total_rows_in_page)));
    assert ps[1] == Some(JBool(p.has_next_page));
    assert ps[2] == Some(FromOptStr(p.next_object));
  }

  /**
   * An object is a `ResponseData` exactly when `items` is an array whose
   * every element decodes and `paging` is a `Paging`.
   */
  lemma DataAccepts<T>(m: map<string, Json>, item: Json -> Option<T>)
    ensures DecodeData(JObj(m), item).Some? <==>
      "items" in m && m["items"].JArr? &&
      (forall i | 0 <= i < |m["items"].elems| :: item(m["items"].elems[i]).Some?) &&
      "paging" in m && DecodePaging(m["paging"]).Some?
  {
    var ps := Members(JObj(m), DataNames).value;
    assert ps[0] == (if "items" in m then Some(m["items"]) else None);
    assert ps[1] == (if "paging" in m then Some(m["paging"]) else None);
  }

  /**
   * An object is a `Response` exactly when `status` is a string and `data`
   * a `ResponseData`; `message` may be absent, null or a string.
   */
  lemma ResponseAccepts<T>(m: map<string, Json>, item: Json -> Option<T>)
    ensures DecodeResponse(JObj(m), item).Some? <==>
      "status" in m && m["status"].JStr? &&
      "data" in m && DecodeData(m["data"], item).Some? &&
      OptStrMember(m, "message")
  {
    var ps := Members(JObj(m), ResponseNames).value;
    assert ps[0] == (if "status" in m then Some(m["status"]) else None);
    assert ps[1] == (if "data" in m then Some(m["data"]) else None);
    assert ps[2] == (if "message" in m then Some(m["message"]) else None);
  }

  /**
   * One item that does not decode fails the whole response: no partial
   * list of items is ever returned.
   */
  lemma OneBadItemFailsAll<T>(m: map<string, Json>, d: map<string, Json>, item: Json -> Option<T>, i: nat)
    requires "data" in m && m["data"] == JObj(d)
    requires "items" in d && d["items"].JArr? && i < |d["items"].elems|
    requires item(d["items"].elems[i]).None?
    ensures DecodeResponse(JObj(m), item).None?
  {
    DataAccepts(d, item);
    ResponseAccepts(m, item);
  }

  /** A decoded response holds the items in the order of the array, one per element. */
  lemma DecodedItemsInOrder<T>(m: map<string, Json>, d: map<string, Json>, item: Json -> Option<T>)
    requires "data" in m && m["data"] == JObj(d) && "items" in d && d["items"].JArr?
    requires DecodeResponse(JObj(m), item).Some?
    ensures var items := DecodeResponse(JObj(m), item).value.data.items;
      |items| == |d["items"].elems| &&
      forall i | 0 <= i < |items| :: item(d["items"].elems[i]) == Some(items[i])
  {
    var ps := Members(JObj(m), ResponseNames).value;
    assert ps[1] == Some(JObj(d));
    var qs := Members(JObj(d), DataNames).value;
    assert qs[0] == Some(d["items"]);
  }

  /**
   * A written response reads back with the same status, message and paging,
   * and with the items that its elements read as, one for one and in order.
   */
  lemma ResponseReadsAs<T>(r: Response<T>, item: Json -> Option<T>, enc: T -> Json, out: seq<T>)
    requires |out| == |r.data.items|
    requires forall i | 0 <= i < |r.data.items| :: item(enc(r.data.items[i])) == Some(out[i])
    ensures DecodeResponse(EncodeResponse(r, enc), item) == Some(Response(r.status, ResponseData(out, r.data.paging), r.message))
  {
    var xs := EncodeItems(r.data.items, enc);
    assert DecodeItems(xs, item).value == out;
    PagingRoundTrip(r.data.paging);
    var qs := Members(EncodeData(r.data, enc), DataNames).value;
    assert qs[0] == Some(JArr(xs)) && qs[1] == Some(EncodePaging(r.data.paging));
    var ps := Members(EncodeResponse(r, enc), ResponseNames).value;
    assert ps[0] == Some(JStr(r.status));
    assert ps[1] == Some(EncodeData(r.data, enc));
    assert ps[2] == Some(FromOptStr(r.message));
  }

  /**
   * A response whose items each read back from what is written for them
   * reads back whole.
   */
  lemma ResponseRoundTrip<T>(r: Response<T>, item: Json -> Option<T>, enc: T -> Json)
    requires forall i | 0 <= i < |r.data.items| :: item(enc(r.data.items[i])) == Some(r.data.items[i])
    ensures DecodeResponse(EncodeResponse(r, enc), item) == Some(r)
  {
    ResponseReadsAs(r, item, enc, r.data.items);
  }
}
