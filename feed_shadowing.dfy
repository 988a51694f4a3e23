/**
 * Variants that the untagged search of `enum Item` (src/models/feed.rs:6-49)
 * can never reach, because a variant tried earlier binds everything they
 * bind: `NftSweep` behind `NftTrade`, and `Flashloan` objects behind
 * `Reward`. Also the variant order that lets `Flashloan` round-trip.
 */
module FeedShadowing {
  import opened Wrappers
  import opened Json
  import opened Serde
  import opened FeedSchema
  import opened FeedItem
  import opened FeedProperties
  import FeedKeys

  // ---------------------------------------------------------------------
  // NftSweep

  /** `NftSweep` declares the same keys with the same types as `NftTrade`. */
  lemma SweepSameAsTrade()
    ensures Schema(NftSweep) == Schema(NftTrade)
  {
    assert BodyNames(NftSweep) == BodyNames(NftTrade);
    assert BodyKinds(NftSweep) == BodyKinds(NftTrade);
  }

  /**
   * Decoding never yields `NftSweep`: whatever binds it binds `NftTrade`,
   * which is tried first.
   */
  lemma NftSweepNeverDecoded(j: Json)
    ensures Decode(j).Some? ==> Decode(j).value.variant != NftSweep
  {
    SweepSameAsTrade();
    assert DeclaredOrder[5] == NftTrade && DeclaredOrder[19] == NftSweep;
    assert forall p | 0 <= p < 19 :: DeclaredOrder[p] != NftSweep;
    SameShapeShadowed(DeclaredOrder, 5, 19, j);
  }

  /**
   * A variant listed once in `order` is not what decodes `j` when a variant
   * before it binds `j`.
   */
  lemma EarlierMatchWins(order: seq<Variant>, i: nat, k: nat, j: Json)
    requires i < k < |order| && Admits(Schema(order[i]), j)
    requires forall p | 0 <= p < |order| && p != k :: order[p] != order[k]
    ensures DecodeIn(order, j).Some? && DecodeIn(order, j).value.variant != order[k]
  {
    var shapes := Shapes(order);
    assert Admits(shapes[i], j);
    var r := FirstMatch(shapes, j, 0);
    assert r.Some? && r.value <= i;
  }

  /**
   * A variant listed once in `order`, after another with the same struct,
   * is never decoded.
   */
  lemma SameShapeShadowed(order: seq<Variant>, i: nat, k: nat, j: Json)
    requires i < k < |order| && Schema(order[i]) == Schema(order[k])
    requires forall p | 0 <= p < |order| && p != k :: order[p] != order[k]
    ensures DecodeIn(order, j).Some? ==> DecodeIn(order, j).value.variant != order[k]
  {
    if Admits(Schema(order[k]), j) {
      EarlierMatchWins(order, i, k, j);
    } else if DecodeIn(order, j).Some? {
      DecodeInSound(order, j);
    }
  }

  /** A variant whose body field `i` is required refuses an object without its key. */
  lemma NeedsKey(v: Variant, i: nat, m: map<string, Json>)
    requires i < |BodyNames(v)| && i < |BodyKinds(v)| && BodyKinds(v)[i].Req? && BodyNames(v)[i] !in m
    ensures !Admits(Schema(v), JObj(m))
  {
    var st := Schema(v);
    assert st.names[|LeadNames| + i] == BodyNames(v)[i];
    assert st.kinds[|LeadNames| + i] == BodyKinds(v)[i];
    MissingRequiredRejects(st, |LeadNames| + i, m);
  }

  // ---------------------------------------------------------------------
  // Reward and Flashloan

  /** The first twelve variants, those declared before `Reward`. */
  predicate BeforeReward(v: Variant)
  {
    v == Swap || v == Lp || v == Transfer || v == Lending ||
    v == NftMint || v == NftTrade || v == NftTransfer || v == NftLending ||
    v == Bridge || v == ContractInteraction || v == Wrap || v == SudoPool
  }

  /**
   * Body position, in each variant before `Reward`, of a required key among
   * `to`, `type` and `from_label`.
   */
  function EarlyWitness(v: Variant): nat
  {
    match v
    case Swap => 2
    case Lp => 2
    case Wrap => 2
    case SudoPool => 6
    case _ => 1
  }

  lemma EarlyWitnessRequired(v: Variant)
    requires BeforeReward(v)
    ensures EarlyWitness(v) < |BodyNames(v)| && EarlyWitness(v) < |BodyKinds(v)|
    ensures BodyKinds(v)[EarlyWitness(v)].Req? && BodyNames(v)[EarlyWitness(v)] in {"to", "type", "from_label"}
  {
    if v == Swap || v == Lp || v == Transfer || v == Lending {
      EarlyWitnessA(v);
    } else if v == NftMint || v == NftTrade || v == NftTransfer || v == NftLending {
      EarlyWitnessB(v);
    } else {
      EarlyWitnessC(v);
    }
  }

  lemma EarlyWitnessA(v: Variant)
    requires v == Swap || v == Lp || v == Transfer || v == Lending
    ensures EarlyWitness(v) < |BodyNames(v)| && EarlyWitness(v) < |BodyKinds(v)|
    ensures BodyKinds(v)[EarlyWitness(v)].Req? && BodyNames(v)[EarlyWitness(v)] in {"to", "type", "from_label"}
  {
    match v
    case Swap =>
    case Lp =>
    case Transfer =>
    case Lending =>
  }

  lemma EarlyWitnessB(v: Variant)
    requires v == NftMint || v == NftTrade || v == NftTransfer || v == NftLending
    ensures EarlyWitness(v) < |BodyNames(v)| && EarlyWitness(v) < |BodyKinds(v)|
    ensures BodyKinds(v)[EarlyWitness(v)].Req? && BodyNames(v)[EarlyWitness(v)] in {"to", "type", "from_label"}
  {
    match v
    case NftMint =>
    case NftTrade =>
    case NftTransfer =>
    case NftLending =>
  }

  lemma EarlyWitnessC(v: Variant)
    requires v == Bridge || v == ContractInteraction || v == Wrap || v == SudoPool
    ensures EarlyWitness(v) < |BodyNames(v)| && EarlyWitness(v) < |BodyKinds(v)|
    ensures BodyKinds(v)[EarlyWitness(v)].Req? && BodyNames(v)[EarlyWitness(v)] in {"to", "type", "from_label"}
  {
    match v
    case Bridge =>
    case ContractInteraction =>
    case Wrap =>
    case SudoPool =>
  }

  /** An object without `to`, `type` and `from_label` binds none of the first twelve variants. */
  lemma EarlyVariantsReject(m: map<string, Json>, k: nat)
    requires k < 12 && "to" !in m && "type" !in m && "from_label" !in m
    ensures !Admits(Schema(DeclaredOrder[k]), JObj(m))
  {
    var v := DeclaredOrder[k];
    assert BeforeReward(v);
    EarlyWitnessRequired(v);
    NeedsKey(v, EarlyWitness(v), m);
  }

  /** `small`'s field `i` is `big`'s field `w[i]`: the same key, the same type. */
  predicate Embeds(small: Struct, big: Struct, w: seq<nat>)
  {
    small.Aligned() && big.Aligned() && |w| == |small.names| &&
    forall i | 0 <= i < |w| ::
      w[i] < |big.names| && big.names[w[i]] == small.names[i] && big.kinds[w[i]] == small.kinds[i]
  }

  /** The fields of `slots` at the positions `w`, in the order of `w`. */
  function Project(slots: seq<Slot>, w: seq<nat>): (r: seq<Slot>)
    requires forall i | 0 <= i < |w| :: w[i] < |slots|
    ensures |r| == |w| && forall i | 0 <= i < |w| :: r[i] == slots[w[i]]
  {
    seq(|w|, i requires 0 <= i < |w| => slots[w[i]])
  }

  /**
   * An object that binds a struct also binds every struct embedded in it,
   * to the embedded fields' values.
   */
  lemma EmbeddedAdmits(small: Struct, big: Struct, w: seq<nat>, m: map<string, Json>)
    requires Embeds(small, big, w) && Admits(big, JObj(m))
    ensures Admits(small, JObj(m))
    ensures BindStruct(small, JObj(m)).value == Project(BindStruct(big, JObj(m)).value, w)
  {
    var ps := Members(JObj(m), small.names).value;
    var qs := Members(JObj(m), big.names).value;
    forall i | 0 <= i < |w|
      ensures BindSlot(small.kinds[i], ps[i]) == BindSlot(big.kinds[w[i]], qs[w[i]])
    {
      assert ps[i] == qs[w[i]];
    }
  }

  /** A map of positions after the eight leading fields, extended to whole structs. */
  function Lift(wb: seq<nat>): (w: seq<nat>)
    ensures |w| == |LeadNames| + |wb|
    ensures forall i | 0 <= i < |LeadNames| :: w[i] == i
    ensures forall i | 0 <= i < |wb| :: w[|LeadNames| + i] == |LeadNames| + wb[i]
  {
    [0, 1, 2, 3, 4, 5, 6, 7] + seq(|wb|, i requires 0 <= i < |wb| => |LeadNames| + wb[i])
  }

  /** Embedding survives putting the same eight leading fields in front of both structs. */
  lemma LiftEmbeds(lead: seq<string>, leadKinds: seq<Kind>, small: Struct, big: Struct, wb: seq<nat>)
    requires |lead| == |leadKinds| == |LeadNames| && Embeds(small, big, wb)
    ensures Embeds(Struct(lead + small.names, leadKinds + small.kinds), Struct(lead + big.names, leadKinds + big.kinds), Lift(wb))
  {
    var a := Struct(lead + small.names, leadKinds + small.kinds);
    var b := Struct(lead + big.names, leadKinds + big.kinds);
    var w := Lift(wb);
    forall i | 0 <= i < |w|
      ensures w[i] < |b.names| && b.names[w[i]] == a.names[i] && b.kinds[w[i]] == a.kinds[i]
    {
      if i >= |LeadNames| {
        LiftedBodyField(lead, leadKinds, small, big, wb, i - |LeadNames|);
      } else {
        assert w[i] == i && (lead + big.names)[i] == lead[i] == (lead + small.names)[i];
        assert (leadKinds + big.kinds)[i] == leadKinds[i] == (leadKinds + small.kinds)[i];
      }
    }
  }

  lemma LiftedBodyField(lead: seq<string>, leadKinds: seq<Kind>, small: Struct, big: Struct, wb: seq<nat>, x: nat)
    requires |lead| == |leadKinds| == |LeadNames| && Embeds(small, big, wb) && x < |wb|
    ensures var i, w := |LeadNames| + x, Lift(wb);
      w[i] < |lead + big.names| && (lead + big.names)[w[i]] == (lead + small.names)[i] &&
      (leadKinds + big.kinds)[w[i]] == (leadKinds + small.kinds)[i]
  {
    var i, w := |LeadNames| + x, Lift(wb);
    assert w[i] == |LeadNames| + wb[x];
    assert (lead + small.names)[i] == small.names[x] && (leadKinds + small.kinds)[i] == small.kinds[x];
    assert (lead + big.names)[w[i]] == big.names[wb[x]] && (leadKinds + big.kinds)[w[i]] == big.kinds[wb[x]];
  }

  /** Where the fields of `Reward` after `block` sit among those of `Flashloan`. */
  const RewardBodyInFlashloan: seq<nat> := [0, 1, 2, 4, 6, 8, 9]

  /** Every key of `Reward` is a key of `Flashloan`, with the same type. */
  lemma RewardEmbedsInFlashloan()
    ensures Embeds(Schema(Reward), Schema(Flashloan), Lift(RewardBodyInFlashloan))
  {
    RewardBodyEmbeds();
    var small := Struct(BodyNames(Reward), BodyKinds(Reward));
    var big := Struct(BodyNames(Flashloan), BodyKinds(Flashloan));
    LiftEmbeds(LeadNames, HeaderKinds + [Req(U64)], small, big, RewardBodyInFlashloan);
  }

  /** The fields of `Reward` after `block` are fields of `Flashloan` after `block`, with the same types. */
  lemma RewardBodyEmbeds()
    ensures Embeds(Struct(BodyNames(Reward), BodyKinds(Reward)), Struct(BodyNames(Flashloan), BodyKinds(Flashloan)), RewardBodyInFlashloan)
  {
    assert BodyNames(Reward) == RewardKeys && BodyNames(Flashloan) == FlashloanKeys;
  }

  /**
   * No JSON object decodes as `Flashloan`: whatever object binds it binds
   * `Reward`, which is tried first.
   */
  lemma FlashloanObjectNeverDecoded(m: map<string, Json>)
    requires Admits(Schema(Flashloan), JObj(m))
    ensures Decode(JObj(m)).Some? && Decode(JObj(m)).value.variant != Flashloan
  {
    RewardEmbedsInFlashloan();
    EmbeddedAdmits(Schema(Reward), Schema(Flashloan), Lift(RewardBodyInFlashloan), m);
    assert DeclaredOrder[12] == Reward && DeclaredOrder[15] == Flashloan;
    assert forall p | 0 <= p < |DeclaredOrder| && p != 15 :: DeclaredOrder[p] != Flashloan;
    EarlierMatchWins(DeclaredOrder, 12, 15, JObj(m));
  }

  /** `Flashloan` has none of the keys that rule out the early variants. */
  lemma FlashloanLacks()
    ensures "to" !in Names(Flashloan) && "type" !in Names(Flashloan) && "from_label" !in Names(Flashloan)
  {
  }

  /** `Reward` has none of the keys that rule out the early variants, and no `dex`. */
  lemma RewardLacks()
    ensures "to" !in Names(Reward) && "type" !in Names(Reward) && "from_label" !in Names(Reward)
    ensures "dex" !in Names(Reward)
  {
  }

  /** An encoded `Flashloan` binds its own struct, to its own fields, and lacks the keys every early variant needs. */
  lemma FlashloanEncodingBinds(it: Item)
    requires WellFormed(it) && it.variant == Flashloan
    ensures Encode(it).JObj? && Admits(Schema(Flashloan), Encode(it))
    ensures BindStruct(Schema(Flashloan), Encode(it)).value == it.slots
    ensures "to" !in Encode(it).members && "type" !in Encode(it).members && "from_label" !in Encode(it).members
  {
    FeedKeys.NamesDistinct(Flashloan);
    FlashloanLacks();
    SchemaAligned(Flashloan);
    StructRoundTrip(Schema(Flashloan), it.slots);
  }

  /** The positions of `Flashloan`'s fields that make up a `Reward`. */
  const RewardInFlashloan: seq<nat> := Lift(RewardBodyInFlashloan)

  /** What an object that binds `Flashloan` gives for `Reward`: the shared fields. */
  lemma FlashloanObjectBindsReward(m: map<string, Json>)
    requires Admits(Schema(Flashloan), JObj(m))
    ensures Embeds(Schema(Reward), Schema(Flashloan), RewardInFlashloan)
    ensures Admits(Schema(Reward), JObj(m))
    ensures BindStruct(Schema(Reward), JObj(m)).value
         == Project(BindStruct(Schema(Flashloan), JObj(m)).value, RewardInFlashloan)
  {
    RewardEmbedsInFlashloan();
    EmbeddedAdmits(Schema(Reward), Schema(Flashloan), RewardInFlashloan, m);
  }

  /** An object without the keys of the twelve early variants that binds `Reward` decodes as `Reward`. */
  lemma LateObjectDecodesAsReward(m: map<string, Json>)
    requires Admits(Schema(Reward), JObj(m))
    requires "to" !in m && "type" !in m && "from_label" !in m
    ensures Decode(JObj(m)) == Some(Item(Reward, BindStruct(Schema(Reward), JObj(m)).value))
  {
    assert DeclaredOrder[12] == Reward;
    forall k | 0 <= k < 12
      ensures !Admits(Schema(DeclaredOrder[k]), JObj(m))
    {
      EarlyVariantsReject(m, k);
    }
    DecodeInPicks(DeclaredOrder, JObj(m), 12);
  }

  /**
   * An encoded `Flashloan` comes back as the `Reward` made of its shared
   * fields: the round trip loses the variant and four fields.
   */
  lemma FlashloanDecodesAsReward(it: Item)
    requires WellFormed(it) && it.variant == Flashloan
    ensures Decode(Encode(it)).Some? && Decode(Encode(it)).value.variant == Reward
    ensures |RewardInFlashloan| == |Decode(Encode(it)).value.slots|
    ensures forall i | 0 <= i < |RewardInFlashloan| ::
      RewardInFlashloan[i] < |it.slots| && Decode(Encode(it)).value.slots[i] == it.slots[RewardInFlashloan[i]]
  {
    FlashloanEncodingBinds(it);
    var m := Encode(it).members;
    FlashloanObjectBindsReward(m);
    LateObjectDecodesAsReward(m);
  }

  // ---------------------------------------------------------------------
  // The corrected order: Flashloan before Reward

  /** `s` with its element at `k` moved to position `i`. */
  function MoveTo<T>(s: seq<T>, i: nat, k: nat): (r: seq<T>)
    requires i <= k < |s|
    ensures |r| == |s|
    ensures forall p | 0 <= p < i :: r[p] == s[p]
    ensures r[i] == s[k]
    ensures forall p | i < p <= k :: r[p] == s[p - 1]
    ensures forall p | k < p < |s| :: r[p] == s[p]
  {
    s[..i] + [s[k]] + s[i..k] + s[k + 1..]
  }

  /** Moving an element reorders the sequence and loses nothing. */
  lemma MoveToPermutes<T>(s: seq<T>, i: nat, k: nat)
    requires i <= k < |s|
    ensures multiset(MoveTo(s, i, k)) == multiset(s)
  {
    assert s == s[..i] + s[i..k] + [s[k]] + s[k + 1..];
  }

  /** The declared order with `Flashloan` moved in front of `Reward`. */
  const IntendedOrder: seq<Variant> := [
    Swap, Lp, Transfer, Lending, NftMint, NftTrade, NftTransfer, NftLending,
    Bridge, ContractInteraction, Wrap, SudoPool, Flashloan, Reward, Staking, Perp,
    ContractCreation, NftLiquidation, OptionType, NftSweep
  ]

  /** A sequence that agrees with `MoveTo(s, i, k)` position by position is a permutation of `s`. */
  lemma MovedPermutes<T>(s: seq<T>, t: seq<T>, i: nat, k: nat)
    requires i <= k < |s| == |t|
    requires forall p | 0 <= p < i :: t[p] == s[p]
    requires t[i] == s[k]
    requires forall p | i < p <= k :: t[p] == s[p - 1]
    requires forall p | k < p < |s| :: t[p] == s[p]
    ensures t == MoveTo(s, i, k)
    ensures multiset(t) == multiset(s)
  {
    MoveToPermutes(s, i, k);
  }

  /** The corrected order is the declared one with `Flashloan` moved to position 12. */
  lemma IntendedOrderIsMove()
    ensures IntendedOrder == MoveTo(DeclaredOrder, 12, 15)
    ensures multiset(IntendedOrder) == multiset(DeclaredOrder)
  {
    MovedPermutes(DeclaredOrder, IntendedOrder, 12, 15);
  }

  lemma IntendedOrderShape()
    ensures |IntendedOrder| == |DeclaredOrder|
    ensures forall p | 0 <= p < 12 :: IntendedOrder[p] == DeclaredOrder[p]
    ensures IntendedOrder[12] == Flashloan && IntendedOrder[13] == Reward
  {
  }

  /** In the corrected order an encoded `Flashloan` decodes as itself. */
  lemma IntendedFlashloanRoundTrip(it: Item)
    requires WellFormed(it) && it.variant == Flashloan
    ensures DecodeIn(IntendedOrder, Encode(it)) == Some(it)
  {
    FlashloanEncodingBinds(it);
    IntendedOrderShape();
    forall k | 0 <= k < 12
      ensures !Admits(Schema(IntendedOrder[k]), Encode(it))
    {
      EarlyVariantsReject(Encode(it).members, k);
    }
    RoundTripIn(IntendedOrder, it, 12);
  }

  /** In the corrected order an encoded `Reward` still decodes as itself. */
  lemma IntendedRewardRoundTrip(it: Item)
    requires WellFormed(it) && it.variant == Reward
    ensures DecodeIn(IntendedOrder, Encode(it)) == Some(it)
  {
    RewardLacks();
    IntendedOrderShape();
    IntendedBeforeReward(Encode(it).members);
    RoundTripIn(IntendedOrder, it, 13);
  }

  /** An object without `to`, `type`, `from_label` and `dex` binds none of the first thirteen variants of the corrected order. */
  lemma IntendedBeforeReward(m: map<string, Json>)
    requires "to" !in m && "type" !in m && "from_label" !in m && "dex" !in m
    ensures forall k | 0 <= k < 13 :: !Admits(Schema(IntendedOrder[k]), JObj(m))
  {
    IntendedOrderShape();
    forall k | 0 <= k < 13
      ensures !Admits(Schema(IntendedOrder[k]), JObj(m))
    {
      if k < 12 {
        EarlyVariantsReject(m, k);
      } else {
        NeedsKey(Flashloan, 3, m);
      }
    }
  }
}
