/** Which groups of wallet events form one NFT activity. */
module ActivityGrouping {
  import opened Wrappers

  type EventId = nat

  datatype Direction = Incoming | Outgoing

  datatype EventType = NativeTransfer | TokenTransfer | NftTransfer

  datatype AssetType = Coin | Token | Nft

  /** A missing `hash` is an empty one; `usd` is a finite, non-negative value in cents. */
  datatype Event = Event(id: EventId, wallet: nat, chain: nat, hash: Option<nat>, eventType: EventType, assetType: AssetType,
                         direction: Option<Direction>, positiveAmount: bool, fromZero: bool, toZero: bool, usd: Option<nat>)

  datatype Activity = NftMint | NftPurchase | NftSale

  datatype Classification = Classification(activity: Activity, payments: seq<Event>)

  // ---- Classification ----

  predicate IsFungible(e: Event) {
    (e.eventType.NativeTransfer? && e.assetType.Coin?) || (e.eventType.TokenTransfer? && e.assetType.Token?)
  }

  predicate IsNft(e: Event) {
    e.eventType.NftTransfer? && e.assetType.Nft?
  }

  predicate Goes(e: Event, d: Direction) {
    e.direction == Some(d)
  }

  predicate IsMint(e: Event) {
    IsNft(e) && Goes(e, Incoming) && e.fromZero
  }

  predicate IsBurn(e: Event) {
    IsNft(e) && Goes(e, Outgoing) && e.toZero
  }

  predicate IsPayment(e: Event, d: Direction) {
    Goes(e, d) && IsFungible(e) && e.positiveAmount
  }

  predicate Moves(e: Event, d: Direction) {
    Goes(e, d) && IsNft(e)
  }

  function Filter(es: seq<Event>, keep: Event -> bool): seq<Event> {
    if es == [] then [] else Filter(es[..|es| - 1], keep) + if keep(es[|es| - 1]) then [es[|es| - 1]] else []
  }

  predicate Unclear(e: Event) {
    e.hash.None? || e.direction.None? || (!IsFungible(e) && !IsNft(e)) || IsBurn(e)
  }

  predicate OutPayment(e: Event) { IsPayment(e, Outgoing) }

  predicate InPayment(e: Event) { IsPayment(e, Incoming) }

  predicate OutNft(e: Event) { Moves(e, Outgoing) }

  predicate InNft(e: Event) { Moves(e, Incoming) }

  /** `classifyNftActivity`. */
  function Classify(es: seq<Event>): Option<Classification> {
    var outPayments, inPayments := Filter(es, OutPayment), Filter(es, InPayment);
    var outNfts, inNfts := Filter(es, OutNft), Filter(es, InNft);
    var minted := Filter(inNfts, IsMint);
    if es == [] || (exists e | e in es :: Unclear(e)) then None
    else if |outPayments| + |inPayments| + |outNfts| + |inNfts| != |es| then None
    else if |minted| > 0 && |minted| != |inNfts| then None
    else if |minted| > 0 && |outNfts| == 0 && |inPayments| == 0 then Some(Classification(NftMint, outPayments))
    else if |minted| > 0 then None
    else if |outPayments| > 0 && |inNfts| > 0 && |outNfts| == 0 && |inPayments| == 0 then Some(Classification(NftPurchase, outPayments))
    else if |inPayments| > 0 && |outNfts| > 0 && |inNfts| == 0 && |outPayments| == 0 then Some(Classification(NftSale, inPayments))
    else None
  }

  /** A positive amount of a coin or token going this way. */
  predicate Pays(e: Event, d: Direction) {
    && e.direction == Some(d) && e.positiveAmount
    && ((e.eventType.NativeTransfer? && e.assetType.Coin?) || (e.eventType.TokenTransfer? && e.assetType.Token?))
  }

  /** An NFT going this way; what comes from the zero address is minted, what goes to it is burnt. */
  predicate MovesNft(e: Event, d: Direction) {
    e.direction == Some(d) && e.eventType.NftTransfer? && e.assetType.Nft?
  }

  /** What each activity means, event by event. */
  predicate PartOf(e: Event, a: Activity) {
    && e.hash.Some?
    && match a
       case NftMint => Pays(e, Outgoing) || (MovesNft(e, Incoming) && e.fromZero)
       case NftPurchase => Pays(e, Outgoing) || (MovesNft(e, Incoming) && !e.fromZero)
       case NftSale => Pays(e, Incoming) || (MovesNft(e, Outgoing) && !e.toZero)
  }

  predicate Is(es: seq<Event>, a: Activity) {
    && (forall e | e in es :: PartOf(e, a))
    && (exists e | e in es :: e.assetType.Nft?)
    && (!a.NftMint? ==> exists e | e in es :: !e.assetType.Nft?)
  }

  lemma {:induction false} Filtered(es: seq<Event>, keep: Event -> bool)
    ensures forall e :: e in Filter(es, keep) <==> e in es && keep(e)
    ensures |Filter(es, keep)| <= |es| && (|Filter(es, keep)| == |es| <==> forall e | e in es :: keep(e))
  {
    if es != [] {
      Filtered(es[..|es| - 1], keep);
      assert es == es[..|es| - 1] + [es[|es| - 1]];
    }
  }

  predicate InOneCategory(e: Event) {
    IsPayment(e, Outgoing) || IsPayment(e, Incoming) || Moves(e, Outgoing) || Moves(e, Incoming)
  }

  /** The four categories exclude each other, so their sizes add up exactly when every event is in one. */
  lemma {:induction false} CategoriesAdd(es: seq<Event>)
    ensures var n := |Filter(es, OutPayment)| + |Filter(es, InPayment)| + |Filter(es, OutNft)| + |Filter(es, InNft)|;
            n <= |es| && (n == |es| <==> forall e | e in es :: InOneCategory(e))
  {
    if es != [] {
      var init, last := es[..|es| - 1], es[|es| - 1];
      CategoriesAdd(init);
      assert es == init + [last];
      assert (forall e | e in es :: InOneCategory(e)) <==> (forall e | e in init :: InOneCategory(e)) && InOneCategory(last);
    }
  }

  lemma NonEmpty(es: seq<Event>, keep: Event -> bool)
    ensures |Filter(es, keep)| > 0 <==> exists e | e in es :: keep(e)
  {
    Filtered(es, keep);
    if |Filter(es, keep)| > 0 {
      assert Filter(es, keep)[0] in Filter(es, keep);
    }
  }

  predicate Has(es: seq<Event>, keep: Event -> bool) {
    exists e | e in es :: keep(e)
  }

  /** The sizes the code compares, as statements about the events. */
  lemma SizesMean(es: seq<Event>)
    ensures |Filter(es, OutPayment)| > 0 <==> Has(es, OutPayment)
    ensures |Filter(es, InPayment)| > 0 <==> Has(es, InPayment)
    ensures |Filter(es, OutNft)| > 0 <==> Has(es, OutNft)
    ensures |Filter(es, InNft)| > 0 <==> Has(es, InNft)
    ensures |Filter(Filter(es, InNft), IsMint)| > 0 <==> Has(es, IsMint)
    ensures |Filter(Filter(es, InNft), IsMint)| == |Filter(es, InNft)| <==> forall e | e in es && InNft(e) :: IsMint(e)
    ensures (|Filter(es, OutPayment)| + |Filter(es, InPayment)| + |Filter(es, OutNft)| + |Filter(es, InNft)| == |es|)
              <==> forall e | e in es :: InOneCategory(e)
  {
    NonEmpty(es, OutPayment);
    NonEmpty(es, InPayment);
    NonEmpty(es, OutNft);
    NonEmpty(es, InNft);
    NonEmpty(Filter(es, InNft), IsMint);
    Filtered(es, InNft);
    Filtered(Filter(es, InNft), IsMint);
    CategoriesAdd(es);
  }

  lemma ClassifiedIs(es: seq<Event>)
    requires Classify(es).Some?
    ensures Is(es, Classify(es).value.activity)
  {
    SizesMean(es);
    var a := Classify(es).value.activity;
    forall e | e in es ensures PartOf(e, a) {
      assert InOneCategory(e) && !Unclear(e);
    }
  }

  lemma IsClassified(es: seq<Event>, a: Activity)
    requires Is(es, a)
    ensures Classify(es).Some? && Classify(es).value.activity == a
  {
    IsSizes(es, a);
  }

  /** The sizes the code compares, for a group that is an activity. */
  lemma IsSizes(es: seq<Event>, a: Activity)
    requires Is(es, a)
    ensures es != [] && !exists e | e in es :: Unclear(e)
    ensures |Filter(es, OutPayment)| + |Filter(es, InPayment)| + |Filter(es, OutNft)| + |Filter(es, InNft)| == |es|
    ensures a.NftMint? ==>
              && |Filter(Filter(es, InNft), IsMint)| == |Filter(es, InNft)| > 0
              && |Filter(es, OutNft)| == |Filter(es, InPayment)| == 0
    ensures a.NftPurchase? ==>
              && |Filter(es, OutPayment)| > 0 && |Filter(es, InNft)| > 0
              && |Filter(es, OutNft)| == |Filter(es, InPayment)| == |Filter(Filter(es, InNft), IsMint)| == 0
    ensures a.NftSale? ==>
              && |Filter(es, InPayment)| > 0 && |Filter(es, OutNft)| > 0
              && |Filter(es, InNft)| == |Filter(es, OutPayment)| == |Filter(Filter(es, InNft), IsMint)| == 0
  {
    SizesMean(es);
    IsHas(es, a);
    Filtered(Filter(es, InNft), IsMint);
  }

  /** What an activity's events include and exclude, in the code's terms. */
  lemma IsHas(es: seq<Event>, a: Activity)
    requires Is(es, a)
    ensures es != [] && forall e | e in es :: InOneCategory(e) && !Unclear(e)
    ensures a.NftMint? ==> Has(es, IsMint) && !Has(es, OutNft) && !Has(es, InPayment) && forall e | e in es && InNft(e) :: IsMint(e)
    ensures a.NftPurchase? ==> Has(es, OutPayment) && Has(es, InNft) && !Has(es, OutNft) && !Has(es, InPayment) && !Has(es, IsMint)
    ensures a.NftSale? ==> Has(es, InPayment) && Has(es, OutNft) && !Has(es, InNft) && !Has(es, OutPayment) && !Has(es, IsMint)
  {
    forall e | e in es ensures InOneCategory(e) && !Unclear(e) {
      assert PartOf(e, a);
    }
    var nft :| nft in es && nft.assetType.Nft?;
    assert PartOf(nft, a);
    if !a.NftMint? {
      var paid :| paid in es && !paid.assetType.Nft?;
      assert PartOf(paid, a);
    }
  }

  lemma {:induction false} SameFilter(es: seq<Event>, p: Event -> bool, q: Event -> bool)
    requires forall e | e in es :: p(e) == q(e)
    ensures Filter(es, p) == Filter(es, q)
  {
    if es != [] {
      assert es[|es| - 1] in es;
      SameFilter(es[..|es| - 1], p, q);
    }
  }

  /** What an activity was paid with are all its fungible transfers. */
  lemma PaymentsAreFungible(es: seq<Event>)
    requires Classify(es).Some?
    ensures Classify(es).value.payments == Filter(es, IsFungible)
  {
    ClassifiedIs(es);
    var c := Classify(es).value;
    forall e | e in es ensures (if c.activity.NftSale? then InPayment(e) else OutPayment(e)) == IsFungible(e) {
      assert PartOf(e, c.activity);
    }
    SameFilter(es, if c.activity.NftSale? then InPayment else OutPayment, IsFungible);
  }

  /** The code's counting agrees with the meaning: a group is classified as an activity exactly when it is one. */
  lemma ClassifyMeans(es: seq<Event>, a: Activity)
    ensures (Classify(es).Some? && Classify(es).value.activity == a) <==> Is(es, a)
    ensures Is(es, a) ==> Classify(es) == Some(Classification(a, Filter(es, IsFungible)))
  {
    if Classify(es).Some? {
      ClassifiedIs(es);
      PaymentsAreFungible(es);
    }
    if Is(es, a) { IsClassified(es, a); }
  }
}
