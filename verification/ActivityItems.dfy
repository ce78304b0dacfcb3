/** What a grouped page says about the page's events, in terms of the events alone. */
module ActivityItems {
  import opened Collections
  import opened Wrappers
  import opened ActivityGrouping
  import opened ActivityHistory

  // ---- Amounts ----

  lemma {:induction false} SumAdds(a: seq<Event>, b: seq<Event>)
    ensures Sum(a + b) == Sum(a) + Sum(b)
    ensures |b| == 1 ==> Sum(b) == if b[0].usd.Some? then b[0].usd.value else 0
    decreases |b|
  {
    if b == [] {
      assert a + b == a;
    } else {
      SumAdds(a, b[..|b| - 1]);
      LastOfBoth(a, b);
    }
  }

  predicate AllPriced(ps: seq<Event>) {
    forall p | p in ps :: p.usd.Some?
  }

  lemma OnePayment(p: Event)
    ensures PaymentUsd([p]) == p.usd && PaymentUsd([]) == None
  {
    SumAdds([], [p]);
    assert p in [p] && [] + [p] == [p];
  }

  lemma PricedApart(a: seq<Event>, b: seq<Event>)
    ensures AllPriced(a + b) <==> AllPriced(a) && AllPriced(b)
  {
    assert forall p :: p in a + b <==> p in a || p in b;
  }

  /** Payments that are all priced are worth the sum, and what cannot be priced as a whole has no price. */
  lemma PaymentsAdd(a: seq<Event>, b: seq<Event>)
    requires a != [] && b != []
    ensures !AllPriced(a + b) ==> PaymentUsd(a + b) == None
    ensures AllPriced(a + b) ==> PaymentUsd(a).Some? && PaymentUsd(b).Some? && PaymentUsd(a + b) == Some(PaymentUsd(a).value + PaymentUsd(b).value)
  {
    SumAdds(a, b);
    PricedApart(a, b);
  }

  // ---- Groups ----

  /** Events of one transaction are kept together unless it is incomplete or the event has no hash. */
  lemma KeyMeans(e: Event, incomplete: set<Key>)
    ensures KeyFor(e, incomplete) == if e.hash.Some? && Tx(e.wallet, e.chain, e.hash) !in incomplete then Tx(e.wallet, e.chain, e.hash) else Single(e.id)
    requires Single(e.id) !in incomplete
  {
  }

  predicate TxOnly(incomplete: set<Key>) {
    forall k | k in incomplete :: k.Tx?
  }

  /** The group is what the page shows of one transaction. */
  ghost predicate WholeOnPage(g: seq<Event>, es: seq<Event>, t: Key) {
    forall e :: e in g <==> e in es && e.hash.Some? && Tx(e.wallet, e.chain, e.hash) == t
  }

  /**
   What a transaction item stands for: the page's events of one complete transaction, or one mint whose transaction
   is kept apart; its activity is what these events are, and it is worth what its fungible transfers are worth.
   */
  ghost predicate ItemMeans(item: Item, es: seq<Event>, wallet: nat, incomplete: set<Key>, g: seq<Event>)
    requires item.Transaction?
  {
    && g != [] && Is(g, item.activity) && item.wallet == wallet && item.sources == Ids(g)
    && item.usd == PaymentUsd(Filter(g, IsFungible))
    && (forall e | e in g :: e in es && e.hash.Some? && e.hash == item.hash && e.chain == item.chain)
    && var t := Tx(g[0].wallet, g[0].chain, g[0].hash);
    && if t in incomplete then |g| == 1 && IsMint(g[0]) else WholeOnPage(g, es, t)
  }

  lemma GroupIsWhole(es: seq<Event>, incomplete: set<Key>, t: Key)
    requires TxOnly(incomplete) && t.Tx? && t.hash.Some? && t !in incomplete
    ensures WholeOnPage(GroupOf(es, incomplete, t), es, t)
  {
    GroupFits(es, incomplete, t);
    forall e ensures e in GroupOf(es, incomplete, t) <==> e in es && e.hash.Some? && Tx(e.wallet, e.chain, e.hash) == t {
      KeyMeans(e, incomplete);
    }
  }

  lemma GroupShares(es: seq<Event>, incomplete: set<Key>, k: Key, e: Event)
    requires TxOnly(incomplete) && DistinctIds(es) && e in GroupOf(es, incomplete, k) && e.hash.Some?
    ensures e in es && k == KeyFor(e, incomplete)
    ensures TxKey(e) in incomplete ==> GroupOf(es, incomplete, k) == [e]
    ensures TxKey(e) !in incomplete ==> k == TxKey(e) && WholeOnPage(GroupOf(es, incomplete, k), es, k)
  {
    GroupFits(es, incomplete, k);
    KeyMeans(e, incomplete);
    if TxKey(e) in incomplete {
      SingleGroup(es, incomplete, e);
    } else {
      GroupIsWhole(es, incomplete, k);
    }
  }

  lemma GroupedMeans(es: seq<Event>, wallet: nat, incomplete: set<Key>, k: Key, item: Item)
    requires TxOnly(incomplete) && DistinctIds(es) && StandsFor(item, es, wallet, incomplete, k)
    ensures item.Transaction? && ItemMeans(item, es, wallet, incomplete, GroupOf(es, incomplete, k))
  {
    var g := GroupOf(es, incomplete, k);
    ClassifiedIs(g);
    PaymentsAreFungible(g);
    assert g[0] in g && PartOf(g[0], item.activity);
    GroupShares(es, incomplete, k, g[0]);
    forall e | e in g ensures e in es && e.hash.Some? && e.hash == item.hash && e.chain == item.chain {
      assert PartOf(e, item.activity);
      GroupShares(es, incomplete, k, e);
    }
    if TxKey(g[0]) in incomplete { LoneEvent(g[0]); }
  }

  /** Every transaction item of a grouped page means this, whatever the page holds. */
  lemma ItemsAreMeant(es: seq<Event>, wallet: nat, incomplete: set<Key>, items: seq<Item>, item: Item) returns (g: seq<Event>)
    requires TxOnly(incomplete) && DistinctIds(es) && FromGroups(items, es, wallet, incomplete) && item in items && item.Transaction?
    ensures ItemMeans(item, es, wallet, incomplete, g)
  {
    var k :| StandsFor(item, es, wallet, incomplete, k);
    GroupedMeans(es, wallet, incomplete, k, item);
    g := GroupOf(es, incomplete, k);
  }

  /** And every complete transaction on the page that is an activity is shown as one item. */
  lemma ActivitiesAreShown(es: seq<Event>, wallet: nat, incomplete: set<Key>, items: seq<Item>, t: Key, g: seq<Event>, a: Activity)
    returns (item: Item)
    requires TxOnly(incomplete) && DistinctIds(es) && FromGroups(items, es, wallet, incomplete)
    requires t.Tx? && t.hash.Some? && t !in incomplete && WholeOnPage(g, es, t) && Is(g, a)
    ensures item in items && item.Transaction? && item.activity == a && item.hash == t.hash && item.chain == t.chain
    ensures Elements(item.sources) == set e | e in g :: e.id
  {
    var own := GroupOf(es, incomplete, t);
    GroupIsWhole(es, incomplete, t);
    SameActivity(g, own, a);
    IsClassified(own, a);
    item := Grouped(own, wallet, Classify(own).value);
    assert StandsFor(item, es, wallet, incomplete, t);
    assert own[0] in own;
    IdsOf(own, g);
  }

  lemma SameActivity(g: seq<Event>, own: seq<Event>, a: Activity)
    requires Is(g, a) && forall e :: e in g <==> e in own
    ensures Is(own, a) && own != []
  {
    var nft :| nft in g && nft.assetType.Nft?;
    assert nft in own;
    if !a.NftMint? {
      var paid :| paid in g && !paid.assetType.Nft?;
      assert paid in own;
    }
  }

  lemma IdsOf(own: seq<Event>, g: seq<Event>)
    requires forall e :: e in g <==> e in own
    ensures Elements(Ids(own)) == set e | e in g :: e.id
  {
    forall e | e in g ensures e.id in Ids(own) {
      var i :| 0 <= i < |own| && own[i] == e;
      assert Ids(own)[i] == e.id;
    }
    forall id | id in Ids(own) ensures id in (set e | e in g :: e.id) {
      var i :| 0 <= i < |own| && Ids(own)[i] == id;
      assert own[i] in g;
    }
  }

  /** What is kept apart: the transactions of which some stored event is not on the page. */
  lemma IncompleteMeans(es: seq<Event>, stored: map<EventId, Event>, t: Key)
    requires PageOf(es, stored) && t.Tx? && t.hash.Some?
    ensures Incomplete(stored, es, t) <==>
              exists id | id in stored :: stored[id].wallet == t.wallet && stored[id].chain == t.chain && stored[id].hash == t.hash && id !in Ids(es)
  {
    var g := GroupOf(es, {}, t);
    GroupIsStored(es, stored, {}, t);
    GroupSize(es, {}, t);
    GroupIsWhole(es, {}, t);
    SomeMissing(Elements(Ids(g)), StoredGroup(stored, t));
    forall id | id in StoredGroup(stored, t) ensures id in Elements(Ids(g)) <==> id in Ids(es) {
      ShownInGroup(es, stored, g, t, id);
    }
    if id :| id in StoredGroup(stored, t) && id !in Elements(Ids(g)) { assert id in stored && id !in Ids(es); }
    if id :| id in stored && stored[id].wallet == t.wallet && stored[id].chain == t.chain && stored[id].hash == t.hash && id !in Ids(es) {
      assert TxKey(stored[id]) == t && id in StoredGroup(stored, t);
    }
  }

  /** A subset is smaller exactly when something is missing from it. */
  lemma SomeMissing(part: set<EventId>, whole: set<EventId>)
    requires part <= whole
    ensures |part| < |whole| <==> exists id :: id in whole && id !in part
  {
    SubsetSize(part, whole);
    var rest := whole - part;
    assert whole == part + rest;
    if rest != {} {
      var id :| id in rest;
      assert id in whole && id !in part;
    }
  }

  lemma ShownInGroup(es: seq<Event>, stored: map<EventId, Event>, g: seq<Event>, t: Key, id: EventId)
    requires PageOf(es, stored) && WholeOnPage(g, es, t) && t.Tx? && t.hash.Some? && id in StoredGroup(stored, t)
    ensures id in Ids(g) <==> id in Ids(es)
  {
    if id in Ids(es) {
      var i :| 0 <= i < |es| && Ids(es)[i] == id;
      assert es[i] in es && es[i] in g;
      var j :| 0 <= j < |g| && g[j] == es[i];
      assert Ids(g)[j] == id;
    }
    if id in Ids(g) {
      var j :| 0 <= j < |g| && Ids(g)[j] == id;
      assert g[j] in g;
      var i :| 0 <= i < |es| && es[i] == g[j];
      assert Ids(es)[i] == id;
    }
  }

  // ---- Order ----

  /** Of two keys the one listed first appears on the page before the other does. */
  ghost predicate FirstAppears(es: seq<Event>, incomplete: set<Key>, x: Key, y: Key) {
    exists p | 0 <= p < |es| :: KeyFor(es[p], incomplete) == x && forall q | 0 <= q <= p :: KeyFor(es[q], incomplete) != y
  }

  lemma AppearsStill(es: seq<Event>, incomplete: set<Key>, n: nat, x: Key, y: Key)
    requires n <= |es| && FirstAppears(es[..n], incomplete, x, y)
    ensures FirstAppears(es, incomplete, x, y)
  {
    var p :| 0 <= p < n && KeyFor(es[..n][p], incomplete) == x && forall q | 0 <= q <= p :: KeyFor(es[..n][q], incomplete) != y;
    forall q | 0 <= q <= p ensures KeyFor(es[q], incomplete) != y {
      assert es[..n][q] == es[q];
    }
  }

  lemma {:induction false} OrderIsOfPage(es: seq<Event>, incomplete: set<Key>)
    ensures forall x :: x in Order(es, incomplete) <==> exists p | 0 <= p < |es| :: KeyFor(es[p], incomplete) == x
    decreases |es|
  {
    if es != [] {
      var n := |es| - 1;
      OrderIsOfPage(es[..n], incomplete);
      forall x ensures x in Order(es, incomplete) <==> exists p | 0 <= p < |es| :: KeyFor(es[p], incomplete) == x {
        if exists p | 0 <= p < n :: KeyFor(es[..n][p], incomplete) == x {
          var p :| 0 <= p < n && KeyFor(es[..n][p], incomplete) == x;
          assert KeyFor(es[p], incomplete) == x;
        }
        if exists p | 0 <= p < n :: KeyFor(es[p], incomplete) == x {
          var p :| 0 <= p < n && KeyFor(es[p], incomplete) == x;
          assert KeyFor(es[..n][p], incomplete) == x;
        }
      }
    }
  }

  /** The groups of a page are listed in the order in which they first appear on it, each once. */
  lemma {:induction false} OrderMeans(es: seq<Event>, incomplete: set<Key>, i: nat, j: nat)
    requires i < j < |Order(es, incomplete)|
    ensures FirstAppears(es, incomplete, Order(es, incomplete)[i], Order(es, incomplete)[j])
    decreases |es|
  {
    var n := |es| - 1;
    var front, order := Order(es[..n], incomplete), Order(es, incomplete);
    if j < |front| {
      OrderMeans(es[..n], incomplete, i, j);
      AppearsStill(es, incomplete, n, order[i], order[j]);
    } else {
      OrderIsOfPage(es[..n], incomplete);
      assert order[i] in front && order[j] !in front;
      var p :| 0 <= p < n && KeyFor(es[..n][p], incomplete) == order[i];
      forall q | 0 <= q <= p ensures KeyFor(es[q], incomplete) != order[j] {
        assert KeyFor(es[..n][q], incomplete) in front;
      }
      assert KeyFor(es[p], incomplete) == order[i];
    }
  }

  lemma LastListed(order: seq<Key>, es: seq<Event>, wallet: nat, incomplete: set<Key>)
    requires order != []
    ensures Listing(order, es, wallet, incomplete)
            == Listing(order[..|order| - 1], es, wallet, incomplete) + OfGroup(GroupOf(es, incomplete, order[|order| - 1]), wallet)
  {
  }

  /** The items of one group of the page. */
  function OfGroup(g: seq<Event>, wallet: nat): seq<Item> {
    if g == [] then [] else ItemsOf(g, wallet)
  }

  /** The items of two stretches of the order follow one another. */
  lemma {:induction false} ListingAdds(a: seq<Key>, b: seq<Key>, es: seq<Event>, wallet: nat, incomplete: set<Key>)
    ensures Listing(a + b, es, wallet, incomplete) == Listing(a, es, wallet, incomplete) + Listing(b, es, wallet, incomplete)
    decreases |b|
  {
    if b == [] {
      assert a + b == a;
    } else {
      ListingAdds(a, b[..|b| - 1], es, wallet, incomplete);
      LastOfBoth(a, b);
      LastListed(b, es, wallet, incomplete);
      LastListed(a + b, es, wallet, incomplete);
      var init, more := Listing(b[..|b| - 1], es, wallet, incomplete), OfGroup(GroupOf(es, incomplete, b[|b| - 1]), wallet);
      Associative(Listing(a, es, wallet, incomplete), init, more);
    }
  }

  /** A page is the rows from the offset on, up to the limit. */
  lemma PageMeans(ordered: seq<Event>, limit: nat, offset: nat)
    ensures var page := Page(ordered, limit, offset);
            && |page| == (if |ordered| <= offset then 0 else if |ordered| - offset < limit then |ordered| - offset else limit)
            && forall i | 0 <= i < |page| :: page[i] == ordered[offset + i]
  {
  }
}
