/**
 * Which parts of a JSON object decide the variant of `enum Item`
 * (src/models/feed.rs): the content of a string field never does, only
 * whether it is a string; the integer fields bound what a decoded item
 * holds.
 */
module FeedFields {
  import opened Wrappers
  import opened Json
  import opened Serde
  import opened FeedSchema
  import opened FeedItem
  import opened FeedProperties

  // ---------------------------------------------------------------------
  // String content is never looked at

  /** Whether a string binds a field depends on the field's type, not on the string. */
  lemma StringBindsAlike(k: Kind, a: string, b: string)
    ensures BindSlot(k, Some(JStr(a))).Some? == BindSlot(k, Some(JStr(b))).Some?
  {
  }

  /**
   * Replacing the string under one key by another string changes no
   * struct's verdict on the object.
   */
  lemma StringContentBlind(st: Struct, m: map<string, Json>, key: string, b: string)
    requires key in m && m[key].JStr?
    ensures Admits(st, JObj(m)) <==> Admits(st, JObj(m[key := JStr(b)]))
  {
    if st.Aligned() {
      var m' := m[key := JStr(b)];
      var ps, ps' := Members(JObj(m), st.names).value, Members(JObj(m'), st.names).value;
      forall i | 0 <= i < |st.kinds|
        ensures BindSlot(st.kinds[i], ps[i]).Some? == BindSlot(st.kinds[i], ps'[i]).Some?
      {
        if st.names[i] == key {
          StringBindsAlike(st.kinds[i], m[key].s, b);
        } else {
          assert ps[i] == ps'[i];
        }
      }
    }
  }

  /** Two values every struct treats alike are at the same position in the search. */
  lemma {:induction false} FirstMatchAgrees(shapes: seq<Struct>, j: Json, j': Json, from: nat)
    requires from <= |shapes|
    requires forall k | 0 <= k < |shapes| :: Admits(shapes[k], j) <==> Admits(shapes[k], j')
    ensures FirstMatch(shapes, j, from) == FirstMatch(shapes, j', from)
    decreases |shapes| - from
  {
    if from < |shapes| && !Admits(shapes[from], j) {
      FirstMatchAgrees(shapes, j, j', from + 1);
    }
  }

  /** Two values every variant treats alike decode to the same variant, or both fail. */
  lemma DecodeInAgrees(order: seq<Variant>, j: Json, j': Json)
    requires forall k | 0 <= k < |order| :: Admits(Schema(order[k]), j) <==> Admits(Schema(order[k]), j')
    ensures DecodeIn(order, j).Some? <==> DecodeIn(order, j').Some?
    ensures DecodeIn(order, j).Some? ==> DecodeIn(order, j).value.variant == DecodeIn(order, j').value.variant
  {
    var shapes := Shapes(order);
    FirstMatchAgrees(shapes, j, j', 0);
  }

  /**
   * `tx_type` is an ordinary string field: rewriting its value decodes to
   * the same variant, or fails as before.
   */
  lemma TxTypeNeverChooses(m: map<string, Json>, t: string)
    requires "tx_type" in m && m["tx_type"].JStr?
    ensures Decode(JObj(m)).Some? <==> Decode(JObj(m["tx_type" := JStr(t)])).Some?
    ensures Decode(JObj(m)).Some? ==> Decode(JObj(m)).value.variant == Decode(JObj(m["tx_type" := JStr(t)])).value.variant
  {
    forall k | 0 <= k < |DeclaredOrder|
      ensures Admits(Schema(DeclaredOrder[k]), JObj(m)) <==> Admits(Schema(DeclaredOrder[k]), JObj(m["tx_type" := JStr(t)]))
    {
      StringContentBlind(Schema(DeclaredOrder[k]), m, "tx_type", t);
    }
    DecodeInAgrees(DeclaredOrder, JObj(m), JObj(m["tx_type" := JStr(t)]));
  }

  // ---------------------------------------------------------------------
  // Integer fields

  /** What an object that binds a struct gives for field `i`. */
  lemma BoundField(st: Struct, m: map<string, Json>, i: nat)
    requires Admits(st, JObj(m)) && i < |st.names|
    ensures BindSlot(st.kinds[i], if st.names[i] in m then Some(m[st.names[i]]) else None).Some?
    ensures BindStruct(st, JObj(m)).value[i]
         == BindSlot(st.kinds[i], if st.names[i] in m then Some(m[st.names[i]]) else None).value
  {
  }

  /**
   * A required unsigned field binds exactly an integer literal below the
   * type's limit, and holds that integer.
   */
  lemma RequiredUnsigned(st: Struct, slots: seq<Slot>, m: map<string, Json>, i: nat, key: string, limit: int)
    requires Admits(st, JObj(m)) && slots == BindStruct(st, JObj(m)).value
    requires i < |st.names| && st.names[i] == key
    requires (st.kinds[i] == Req(U32) && limit == U32_LIMIT) || (st.kinds[i] == Req(U64) && limit == U64_LIMIT)
    ensures key in m && m[key].JNum? && m[key].n.Int? && 0 <= m[key].n.i < limit && i < |slots|
    ensures slots[i] == Filled(if limit == U32_LIMIT then VU32(m[key].n.i) else VU64(m[key].n.i))
  {
    BoundField(st, m, i);
  }

  /** An item decoded from `m`, its struct and its fields. */
  lemma Decoded(m: map<string, Json>) returns (v: Variant, slots: seq<Slot>)
    requires Decode(JObj(m)).Some?
    ensures Decode(JObj(m)).value == Item(v, slots)
    ensures Admits(Schema(v), JObj(m)) && slots == BindStruct(Schema(v), JObj(m)).value
  {
    DecodeInSound(DeclaredOrder, JObj(m));
    v, slots := Decode(JObj(m)).value.variant, Decode(JObj(m)).value.slots;
  }

  /**
   * Every decoded item read `index` from an integer literal below 2^32 and
   * `timestamp` from one below 2^64, and holds those integers.
   */
  lemma DecodedHeaderIntegers(m: map<string, Json>)
    requires Decode(JObj(m)).Some?
    ensures var it := Decode(JObj(m)).value;
      "index" in m && "timestamp" in m && |it.slots| > 6 &&
      m["index"].JNum? && m["index"].n.Int? && 0 <= m["index"].n.i < U32_LIMIT &&
      it.slots[5] == Filled(VU32(m["index"].n.i)) &&
      m["timestamp"].JNum? && m["timestamp"].n.Int? && 0 <= m["timestamp"].n.i < U64_LIMIT &&
      it.slots[6] == Filled(VU64(m["timestamp"].n.i))
  {
    var v, slots := Decoded(m);
    LeadingField(v, 5);
    LeadingField(v, 6);
    RequiredUnsigned(Schema(v), slots, m, 5, "index", U32_LIMIT);
    RequiredUnsigned(Schema(v), slots, m, 6, "timestamp", U64_LIMIT);
  }

  /**
   * `block` is a required integer below 2^64 in every variant but
   * `SudoPool`, where it may also be absent or null.
   */
  lemma DecodedBlock(m: map<string, Json>)
    requires Decode(JObj(m)).Some?
    ensures var it := Decode(JObj(m)).value;
      |it.slots| > 7 &&
      if it.variant == SudoPool && ("block" !in m || m["block"] == JNull) then it.slots[7] == Empty
      else
        "block" in m && m["block"].JNum? && m["block"].n.Int? && 0 <= m["block"].n.i < U64_LIMIT &&
        it.slots[7] == Filled(VU64(m["block"].n.i))
  {
    var v, slots := Decoded(m);
    LeadingField(v, 7);
    if v == SudoPool {
      BlockField(Schema(v), slots, m);
    } else {
      RequiredUnsigned(Schema(v), slots, m, 7, "block", U64_LIMIT);
    }
  }

  /** An `Option<u64>` field: absent or null is `None`, anything else an integer below 2^64. */
  lemma BlockField(st: Struct, slots: seq<Slot>, m: map<string, Json>)
    requires Admits(st, JObj(m)) && slots == BindStruct(st, JObj(m)).value
    requires 7 < |st.names| && st.names[7] == "block" && st.kinds[7] == Opt(U64)
    ensures 7 < |slots|
    ensures "block" !in m || m["block"] == JNull ==> slots[7] == Empty
    ensures "block" in m && m["block"] != JNull ==>
      m["block"].JNum? && m["block"].n.Int? && 0 <= m["block"].n.i < U64_LIMIT &&
      slots[7] == Filled(VU64(m["block"].n.i))
  {
    BoundField(st, m, 7);
  }

  /** In a decoded `SudoPool`, `nft_amount` came from an integer literal below 2^32. */
  lemma DecodedNftAmount(m: map<string, Json>)
    requires Decode(JObj(m)).Some? && Decode(JObj(m)).value.variant == SudoPool
    ensures var it := Decode(JObj(m)).value;
      "nft_amount" in m && |it.slots| > 11 &&
      m["nft_amount"].JNum? && m["nft_amount"].n.Int? && 0 <= m["nft_amount"].n.i < U32_LIMIT &&
      it.slots[11] == Filled(VU32(m["nft_amount"].n.i))
  {
    var v, slots := Decoded(m);
    NftAmountField();
    RequiredUnsigned(Schema(SudoPool), slots, m, 11, "nft_amount", U32_LIMIT);
  }

  /** Field 11 of `SudoPool` is `nft_amount: u32`. */
  lemma NftAmountField()
    ensures 11 < |Names(SudoPool)| && Names(SudoPool)[11] == "nft_amount"
    ensures 11 < |Kinds(SudoPool)| && Kinds(SudoPool)[11] == Req(U32)
  {
  }

  // ---------------------------------------------------------------------
  // Unknown keys

  /** Keys a struct does not name never stop it binding, and change none of its fields. */
  lemma ExtraKeysKeepBinding(st: Struct, m: map<string, Json>, extra: map<string, Json>)
    requires Admits(st, JObj(m))
    requires forall k | k in extra :: k !in st.names
    ensures Admits(st, JObj(m + extra))
    ensures BindStruct(st, JObj(m + extra)) == BindStruct(st, JObj(m))
  {
    OtherKeysIgnored(st, m, m + extra);
  }

  /**
   * Adding keys that the decoded variant does not name still decodes
   * (the added keys may let a variant declared earlier win).
   */
  lemma ExtraKeysStillDecode(m: map<string, Json>, extra: map<string, Json>)
    requires Decode(JObj(m)).Some?
    requires forall k | k in extra :: k !in Names(Decode(JObj(m)).value.variant)
    ensures Decode(JObj(m + extra)).Some?
  {
    var v, slots := Decoded(m);
    SchemaAligned(v);
    ExtraKeysKeepBinding(Schema(v), m, extra);
    var k :| 0 <= k < |DeclaredOrder| && DeclaredOrder[k] == v;
    DecodeInNone(DeclaredOrder, JObj(m + extra));
  }
}
