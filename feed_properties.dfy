/**
 * What the untagged `enum Item` (src/models/feed.rs) promises and what it
 * does not: which variant a JSON value decodes to, which keys matter, and
 * which items survive an encode/decode round trip.
 */
module FeedProperties {
  import opened Wrappers
  import opened Json
  import opened Serde
  import opened FeedSchema
  import opened FeedItem
  import FeedKeys

  // ---------------------------------------------------------------------
  // Round trip of one struct

  lemma MarketCapRoundTrip(mc: TokenMarketCap)
    ensures DecodeMarketCap(EncodeMarketCap(mc)) == Some(mc)
  {
  }

  /** A value of scalar type `s` is read back from what is written for it. */
  lemma ScalarRoundTrip(s: Scalar, v: Value)
    requires HasScalar(s, v)
    ensures BindScalar(s, EncodeValue(v)) == Some(v)
  {
    if v.VMarketCap? {
      MarketCapRoundTrip(v.mc);
    }
  }

  /** A field value is read back, `None` included (it is written as null). */
  lemma SlotRoundTrip(k: Kind, slot: Slot)
    requires SlotFits(k, slot)
    ensures BindSlot(k, Some(EncodeSlot(slot))) == Some(slot)
  {
    if slot.Filled? {
      ScalarRoundTrip(k.scalar, slot.v);
    }
  }

  /**
   * A struct with distinct keys reads back exactly the fields written for
   * it from the object that encodes it.
   */
  lemma StructRoundTrip(st: Struct, slots: seq<Slot>)
    requires st.Aligned() && Distinct(st.names) && Conforms(st.kinds, slots)
    ensures BindStruct(st, JObj(EncodeMembers(st.names, slots))) == Some(slots)
  {
    var ps := EncodedMembers(st.names, slots);
    forall i | 0 <= i < |st.kinds|
      ensures BindSlot(st.kinds[i], ps[i]) == Some(slots[i])
    {
      SlotRoundTrip(st.kinds[i], slots[i]);
    }
    assert BindFields(st.kinds, ps).value == slots;
  }

  /** Reading the written fields back by name finds each where it was written. */
  lemma EncodedMembers(names: seq<string>, slots: seq<Slot>) returns (ps: seq<Option<Json>>)
    requires |names| == |slots| && Distinct(names)
    ensures Members(JObj(EncodeMembers(names, slots)), names) == Some(ps)
    ensures |ps| == |slots| && forall i | 0 <= i < |slots| :: ps[i] == Some(EncodeSlot(slots[i]))
  {
    var m := EncodeMembers(names, slots);
    ps := Members(JObj(m), names).value;
    forall i | 0 <= i < |slots|
      ensures ps[i] == Some(EncodeSlot(slots[i]))
    {
      assert names[i] in m;
    }
  }

  // ---------------------------------------------------------------------
  // The untagged search

  /** Whatever is decoded is the first variant in `order` whose struct binds. */
  lemma DecodeInSound(order: seq<Variant>, j: Json)
    requires DecodeIn(order, j).Some?
    ensures var it := DecodeIn(order, j).value;
      it.variant in order && Admits(Schema(it.variant), j) && it.slots == BindStruct(Schema(it.variant), j).value
  {
    var k := FirstMatch(Shapes(order), j, 0).value;
    assert Shapes(order)[k] == Schema(order[k]);
  }

  /** Nothing is decoded exactly when no variant's struct binds. */
  lemma DecodeInNone(order: seq<Variant>, j: Json)
    ensures DecodeIn(order, j).None? <==> forall k | 0 <= k < |order| :: !Admits(Schema(order[k]), j)
  {
    var shapes := Shapes(order);
    if FirstMatch(shapes, j, 0).Some? {
      var k := FirstMatch(shapes, j, 0).value;
      assert Admits(Schema(order[k]), j);
    }
  }

  /** If position `k` binds and no earlier one does, `k` is what is decoded. */
  lemma DecodeInPicks(order: seq<Variant>, j: Json, k: nat)
    requires k < |order| && Admits(Schema(order[k]), j)
    requires forall i | 0 <= i < k :: !Admits(Schema(order[i]), j)
    ensures DecodeIn(order, j) == Some(Item(order[k], BindStruct(Schema(order[k]), j).value))
  {
    var shapes := Shapes(order);
    assert Admits(shapes[k], j);
    var r := FirstMatch(shapes, j, 0);
    assert r.Some? && r.value == k;
  }

  /**
   * An encoded item is decoded as itself when no variant before it in
   * `order` binds its encoding.
   */
  lemma RoundTripIn(order: seq<Variant>, it: Item, k: nat)
    requires WellFormed(it)
    requires k < |order| && order[k] == it.variant
    requires forall i | 0 <= i < k :: !Admits(Schema(order[i]), Encode(it))
    ensures DecodeIn(order, Encode(it)) == Some(it)
  {
    FeedKeys.NamesDistinct(it.variant);
    SchemaAligned(it.variant);
    StructRoundTrip(Schema(it.variant), it.slots);
    DecodeInPicks(order, Encode(it), k);
  }

  /** Every encoded item decodes to something, in any order that lists its variant. */
  lemma EncodedAlwaysDecodes(order: seq<Variant>, it: Item)
    requires WellFormed(it) && it.variant in order
    ensures DecodeIn(order, Encode(it)).Some?
  {
    FeedKeys.NamesDistinct(it.variant);
    SchemaAligned(it.variant);
    StructRoundTrip(Schema(it.variant), it.slots);
    var k :| 0 <= k < |order| && order[k] == it.variant;
    DecodeInNone(order, Encode(it));
  }

  // ---------------------------------------------------------------------
  // Required and optional fields

  /** No scalar type accepts null. */
  lemma NullNeverBinds(s: Scalar)
    ensures BindScalar(s, JNull).None?
  {
  }

  /**
   * A required field that is absent, or present with a value its type does
   * not accept (null, a string for a number, an integer out of range, ...),
   * makes the struct refuse an object.
   */
  lemma MissingRequiredRejects(st: Struct, i: nat, m: map<string, Json>)
    requires i < |st.names| && i < |st.kinds| && st.kinds[i].Req?
    requires st.names[i] !in m || BindScalar(st.kinds[i].scalar, m[st.names[i]]).None?
    ensures !Admits(st, JObj(m))
  {
    if st.Aligned() {
      var ps := Members(JObj(m), st.names).value;
      assert BindSlot(st.kinds[i], ps[i]).None?;
    }
  }

  /** An `Option` field that is absent or null binds as `None`. */
  lemma MissingOptionalIsNone(st: Struct, i: nat, m: map<string, Json>)
    requires Admits(st, JObj(m)) && i < |st.names| && st.kinds[i].Opt?
    requires st.names[i] !in m || m[st.names[i]] == JNull
    ensures BindStruct(st, JObj(m)).value[i] == Empty
  {
    var ps := Members(JObj(m), st.names).value;
    assert BindSlot(st.kinds[i], ps[i]) == Some(Empty);
  }

  /** Keys that are not field names play no part in binding a struct. */
  lemma OtherKeysIgnored(st: Struct, m: map<string, Json>, m': map<string, Json>)
    requires st.Aligned()
    requires forall n | n in st.names :: (n in m <==> n in m') && (n in m ==> m[n] == m'[n])
    ensures BindStruct(st, JObj(m)) == BindStruct(st, JObj(m'))
  {
    var ps, ps' := Members(JObj(m), st.names).value, Members(JObj(m'), st.names).value;
    assert forall i | 0 <= i < |st.names| :: ps[i] == ps'[i];
    assert ps == ps';
  }

  /**
   * An object without one of the seven common keys, or with a value there
   * that the key's type does not accept, is no item at all.
   */
  lemma HeaderRequired(m: map<string, Json>, h: nat)
    requires h < |HeaderNames|
    requires HeaderNames[h] !in m || BindScalar(HeaderKinds[h].scalar, m[HeaderNames[h]]).None?
    ensures Decode(JObj(m)) == None
  {
    forall k | 0 <= k < |DeclaredOrder|
      ensures !Admits(Schema(DeclaredOrder[k]), JObj(m))
    {
      HeaderRejects(DeclaredOrder[k], h, m);
    }
    DecodeInNone(DeclaredOrder, JObj(m));
  }

  lemma HeaderRejects(v: Variant, h: nat, m: map<string, Json>)
    requires h < |HeaderNames|
    requires HeaderNames[h] !in m || BindScalar(HeaderKinds[h].scalar, m[HeaderNames[h]]).None?
    ensures !Admits(Schema(v), JObj(m))
  {
    var st := Schema(v);
    HeaderField(v, h);
    MissingRequiredRejects(st, h, m);
  }

  /** Field `h` of every struct is header field `h`, with its type. */
  lemma HeaderField(v: Variant, h: nat)
    requires h < |HeaderNames|
    ensures h < |Schema(v).names| && Schema(v).names[h] == HeaderNames[h]
    ensures h < |Schema(v).kinds| && Schema(v).kinds[h] == HeaderKinds[h]
  {
    LeadingField(v, h);
    assert (HeaderKinds + [BlockKind(v)])[h] == HeaderKinds[h];
  }
}
