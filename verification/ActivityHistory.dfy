/** Event history with transactions grouped: what becomes one item, and when an item is a page-split fragment. */
module ActivityHistory {
  import opened Collections
  import opened Wrappers
  import opened ActivityGrouping

  datatype Leg = Leg(event: EventId, direction: Option<Direction>)

  datatype Item =
    | Raw(event: Event)
    | Transaction(activity: Activity, wallet: nat, chain: nat, hash: Option<nat>, sources: seq<EventId>,
                  usd: Option<nat>, sent: seq<Leg>, received: seq<Leg>)

  // ---- Items ----

  function Ids(es: seq<Event>): seq<EventId> {
    seq(|es|, i requires 0 <= i < |es| => es[i].id)
  }

  function Legs(es: seq<Event>, d: Direction): seq<Leg> {
    if es == [] then []
    else Legs(es[..|es| - 1], d) + if Goes(es[|es| - 1], d) then [Leg(es[|es| - 1].id, es[|es| - 1].direction)] else []
  }

  function LegIds(legs: seq<Leg>): seq<EventId> {
    seq(|legs|, i requires 0 <= i < |legs| => legs[i].event)
  }

  /** The payments' total in cents, when each is priced; the stored values are rounded sums. */
  function PaymentUsd(ps: seq<Event>): Option<nat> {
    if ps == [] || (exists p | p in ps :: p.usd.None?) then None else Some(Sum(ps))
  }

  function Sum(ps: seq<Event>): nat {
    if ps == [] then 0 else Sum(ps[..|ps| - 1]) + ps[|ps| - 1].usd.GetOr(0)
  }

  /** `mapGroupedTransaction`. */
  function Grouped(es: seq<Event>, wallet: nat, c: Classification): Item
    requires es != []
  {
    Transaction(c.activity, wallet, es[0].chain, es[0].hash, Ids(es), PaymentUsd(c.payments), Legs(es, Outgoing), Legs(es, Incoming))
  }

  function Raws(es: seq<Event>): seq<Item> {
    seq(|es|, i requires 0 <= i < |es| => Raw(es[i]))
  }

  function ItemsOf(es: seq<Event>, wallet: nat): seq<Item>
    requires es != []
  {
    if Classify(es).None? then Raws(es) else [Grouped(es, wallet, Classify(es).value)]
  }

  function Sources(items: seq<Item>): seq<EventId> {
    if items == [] then []
    else Sources(items[..|items| - 1]) + match items[|items| - 1] case Raw(e) => [e.id] case Transaction(_, _, _, _, ids, _, _, _) => ids
  }

  lemma {:induction false} SourcesConcat(a: seq<Item>, b: seq<Item>)
    ensures Sources(a + b) == Sources(a) + Sources(b)
  {
    if b == [] {
      assert a + b == a;
    } else {
      assert (a + b)[..|a + b| - 1] == a + b[..|b| - 1];
      SourcesConcat(a, b[..|b| - 1]);
    }
  }

  lemma {:induction false} RawSources(es: seq<Event>)
    ensures Sources(Raws(es)) == Ids(es)
  {
    if es != [] {
      RawSources(es[..|es| - 1]);
      assert Raws(es)[..|es| - 1] == Raws(es[..|es| - 1]);
      assert Ids(es) == Ids(es[..|es| - 1]) + [es[|es| - 1].id];
    }
  }

  lemma ItemSources(es: seq<Event>, wallet: nat)
    requires es != []
    ensures Sources(ItemsOf(es, wallet)) == Ids(es)
  {
    RawSources(es);
    if Classify(es).Some? {
      var item := Grouped(es, wallet, Classify(es).value);
      assert [item][..0] == [];
      assert Sources([item]) == [] + Ids(es);
    }
  }

  /** The sent and received legs of a group with known directions partition its events. */
  lemma {:induction false} LegsPartition(es: seq<Event>)
    requires forall e | e in es :: e.direction.Some?
    ensures multiset(LegIds(Legs(es, Outgoing))) + multiset(LegIds(Legs(es, Incoming))) == multiset(Ids(es))
  {
    if es != [] {
      var init, last := es[..|es| - 1], es[|es| - 1];
      LegsPartition(init);
      assert Ids(es) == Ids(init) + [last.id];
      assert last in es;
      var leg := Leg(last.id, last.direction);
      if Goes(last, Outgoing) {
        LegIdsSnoc(Legs(init, Outgoing), leg);
        assert Legs(es, Outgoing) == Legs(init, Outgoing) + [leg] && Legs(es, Incoming) == Legs(init, Incoming);
      } else {
        assert last.direction.value.Incoming? && Goes(last, Incoming);
        LegIdsSnoc(Legs(init, Incoming), leg);
        assert Legs(es, Incoming) == Legs(init, Incoming) + [leg] && Legs(es, Outgoing) == Legs(init, Outgoing);
      }
    }
  }

  lemma {:induction false} LegsGo(es: seq<Event>, d: Direction)
    ensures forall l | l in Legs(es, d) :: l.direction == Some(d)
  {
    if es != [] { LegsGo(es[..|es| - 1], d); }
  }

  lemma LegIdsSnoc(legs: seq<Leg>, l: Leg)
    ensures LegIds(legs + [l]) == LegIds(legs) + [l.event]
  {
  }

  // ---- Grouping ----

  datatype Key = Tx(wallet: nat, chain: nat, hash: Option<nat>) | Single(id: EventId)

  function TxKey(e: Event): Key {
    Tx(e.wallet, e.chain, e.hash)
  }

  function KeyFor(e: Event, incomplete: set<Key>): Key {
    var k := if e.hash.Some? then TxKey(e) else Single(e.id);
    if k in incomplete then Single(e.id) else k
  }

  function GroupOf(es: seq<Event>, incomplete: set<Key>, k: Key): seq<Event> {
    if es == [] then []
    else GroupOf(es[..|es| - 1], incomplete, k) + if KeyFor(es[|es| - 1], incomplete) == k then [es[|es| - 1]] else []
  }

  /** The keys of a page in the order of their first appearance. */
  function Order(es: seq<Event>, incomplete: set<Key>): seq<Key> {
    if es == [] then [] else OrderWith(Order(es[..|es| - 1], incomplete), KeyFor(es[|es| - 1], incomplete))
  }

  function OrderWith(order: seq<Key>, k: Key): seq<Key> {
    if k in order then order else order + [k]
  }

  function AllIds(order: seq<Key>, groups: map<Key, seq<Event>>): seq<EventId>
    requires forall k | k in order :: k in groups
  {
    if order == [] then [] else AllIds(order[..|order| - 1], groups) + Ids(groups[order[|order| - 1]])
  }

  predicate DistinctKeys(order: seq<Key>) {
    forall i, j | 0 <= i < j < |order| :: order[i] != order[j]
  }

  lemma {:induction false} AllIdsElsewhere(order: seq<Key>, groups: map<Key, seq<Event>>, k: Key, g: seq<Event>)
    requires (forall x | x in order :: x in groups) && k !in order
    ensures AllIds(order, groups[k := g]) == AllIds(order, groups)
  {
    if order != [] {
      assert order[|order| - 1] in order;
      AllIdsElsewhere(order[..|order| - 1], groups, k, g);
    }
  }

  /** One more event in a listed group is one more id. */
  lemma {:induction false} AllIdsGrow(order: seq<Key>, groups: map<Key, seq<Event>>, k: Key, e: Event)
    requires (forall x | x in order :: x in groups) && k in order && DistinctKeys(order)
    ensures multiset(AllIds(order, groups[k := groups[k] + [e]])) == multiset(AllIds(order, groups)) + multiset{e.id}
  {
    var init, last := order[..|order| - 1], order[|order| - 1];
    assert order == init + [last];
    if last == k {
      AllIdsElsewhere(init, groups, k, groups[k] + [e]);
      assert Ids(groups[k] + [e]) == Ids(groups[k]) + [e.id];
    } else {
      AllIdsGrow(init, groups, k, e);
    }
  }

  lemma {:induction false} GroupFits(es: seq<Event>, incomplete: set<Key>, k: Key)
    ensures forall e | e in GroupOf(es, incomplete, k) :: e in es && KeyFor(e, incomplete) == k
    ensures forall e | e in es && KeyFor(e, incomplete) == k :: e in GroupOf(es, incomplete, k)
  {
    if es != [] {
      GroupFits(es[..|es| - 1], incomplete, k);
      assert es == es[..|es| - 1] + [es[|es| - 1]];
    }
  }

  /** A transaction item stands for one group of the page. */
  ghost predicate StandsFor(item: Item, es: seq<Event>, wallet: nat, incomplete: set<Key>, k: Key) {
    var g := GroupOf(es, incomplete, k);
    g != [] && Classify(g).Some? && item == Grouped(g, wallet, Classify(g).value)
  }

  ghost predicate FromGroups(items: seq<Item>, es: seq<Event>, wallet: nat, incomplete: set<Key>) {
    && (forall item | item in items && item.Transaction? :: exists k :: StandsFor(item, es, wallet, incomplete, k))
    && (forall item, k | StandsFor(item, es, wallet, incomplete, k) :: item in items)
  }

  /** Every key is listed once. */
  ghost predicate Listed(order: seq<Key>, groups: map<Key, seq<Event>>) {
    DistinctKeys(order) && forall k :: k in order <==> k in groups
  }

  ghost predicate GroupsOf(groups: map<Key, seq<Event>>, es: seq<Event>, incomplete: set<Key>) {
    && (forall k | k in groups :: groups[k] == GroupOf(es, incomplete, k) && groups[k] != [])
    && (forall k | k !in groups :: GroupOf(es, incomplete, k) == [])
  }

  /** The page's groups in the order their keys first appear. */
  ghost predicate Partitioned(order: seq<Key>, groups: map<Key, seq<Event>>, es: seq<Event>, incomplete: set<Key>) {
    order == Order(es, incomplete) && Listed(order, groups) && GroupsOf(groups, es, incomplete) && multiset(AllIds(order, groups)) == multiset(Ids(es))
  }

  function ItemsUpTo(order: seq<Key>, groups: map<Key, seq<Event>>, wallet: nat): seq<Item>
    requires forall k | k in order :: k in groups && groups[k] != []
  {
    if order == [] then []
    else ItemsUpTo(order[..|order| - 1], groups, wallet) + ItemsOf(groups[order[|order| - 1]], wallet)
  }

  /** The items of a page: for each key, in the order of first appearance, those of its group. */
  function Listing(order: seq<Key>, es: seq<Event>, wallet: nat, incomplete: set<Key>): seq<Item> {
    if order == [] then []
    else
      var g := GroupOf(es, incomplete, order[|order| - 1]);
      Listing(order[..|order| - 1], es, wallet, incomplete) + if g == [] then [] else ItemsOf(g, wallet)
  }

  lemma {:induction false} ItemsListing(order: seq<Key>, groups: map<Key, seq<Event>>, es: seq<Event>, wallet: nat, incomplete: set<Key>)
    requires (forall k | k in order :: k in groups) && GroupsOf(groups, es, incomplete)
    ensures ItemsUpTo(order, groups, wallet) == Listing(order, es, wallet, incomplete)
  {
    if order != [] { ItemsListing(order[..|order| - 1], groups, es, wallet, incomplete); }
  }

  lemma {:induction false} ItemsSources(order: seq<Key>, groups: map<Key, seq<Event>>, wallet: nat)
    requires forall k | k in order :: k in groups && groups[k] != []
    ensures Sources(ItemsUpTo(order, groups, wallet)) == AllIds(order, groups)
    decreases |order|
  {
    if order != [] {
      SplitLast(order);
      ItemsSources(order[..|order| - 1], groups, wallet);
      ItemsOfSources(ItemsUpTo(order[..|order| - 1], groups, wallet), groups[order[|order| - 1]], wallet);
    }
  }

  lemma ItemsOfSources(items: seq<Item>, es: seq<Event>, wallet: nat)
    requires es != []
    ensures Sources(items + ItemsOf(es, wallet)) == Sources(items) + Ids(es)
  {
    SourcesConcat(items, ItemsOf(es, wallet));
    ItemSources(es, wallet);
  }

  /** Each item comes from some group of the order. */
  lemma {:induction false} ItemFrom(order: seq<Key>, groups: map<Key, seq<Event>>, wallet: nat, item: Item) returns (k: Key)
    requires (forall k | k in order :: k in groups && groups[k] != []) && item in ItemsUpTo(order, groups, wallet)
    ensures k in order && item in ItemsOf(groups[k], wallet)
    decreases |order|
  {
    k := order[|order| - 1];
    if item !in ItemsOf(groups[k], wallet) {
      k := ItemFrom(order[..|order| - 1], groups, wallet, item);
    }
  }

  lemma {:induction false} ItemIn(order: seq<Key>, groups: map<Key, seq<Event>>, wallet: nat, item: Item, k: Key)
    requires (forall k | k in order :: k in groups && groups[k] != []) && k in order && item in ItemsOf(groups[k], wallet)
    ensures item in ItemsUpTo(order, groups, wallet)
    decreases |order|
  {
    SplitLast(order);
    if k != order[|order| - 1] { ItemIn(order[..|order| - 1], groups, wallet, item, k); }
  }

  lemma ItemsFromGroups(order: seq<Key>, groups: map<Key, seq<Event>>, es: seq<Event>, wallet: nat, incomplete: set<Key>)
    requires Partitioned(order, groups, es, incomplete)
    ensures FromGroups(ItemsUpTo(order, groups, wallet), es, wallet, incomplete)
  {
    var items := ItemsUpTo(order, groups, wallet);
    forall item | item in items && item.Transaction? ensures exists k :: StandsFor(item, es, wallet, incomplete, k) {
      var k := ItemFrom(order, groups, wallet, item);
      ItemStandsFor(es, wallet, incomplete, k, item);
    }
    forall item, k | StandsFor(item, es, wallet, incomplete, k) ensures item in items {
      assert k in groups;
      ItemStandsFor(es, wallet, incomplete, k, item);
      ItemIn(order, groups, wallet, item, k);
    }
  }

  lemma ItemStandsFor(es: seq<Event>, wallet: nat, incomplete: set<Key>, k: Key, item: Item)
    requires GroupOf(es, incomplete, k) != []
    ensures item in ItemsOf(GroupOf(es, incomplete, k), wallet) && item.Transaction? <==> StandsFor(item, es, wallet, incomplete, k)
  {
    var g := GroupOf(es, incomplete, k);
    if Classify(g).None? {
      assert forall x | x in Raws(g) :: x.Raw?;
    }
  }

  function GroupsWith(groups: map<Key, seq<Event>>, k: Key, e: Event): map<Key, seq<Event>> {
    groups[k := (if k in groups then groups[k] else []) + [e]]
  }

  lemma GroupsGrow(groups: map<Key, seq<Event>>, es: seq<Event>, incomplete: set<Key>, e: Event)
    requires GroupsOf(groups, es, incomplete)
    ensures GroupsOf(GroupsWith(groups, KeyFor(e, incomplete), e), es + [e], incomplete)
  {
    assert (es + [e])[..|es|] == es;
  }

  lemma ListGrows(order: seq<Key>, groups: map<Key, seq<Event>>, e: Event, k: Key)
    requires Listed(order, groups)
    ensures Listed(OrderWith(order, k), GroupsWith(groups, k, e))
  {
  }

  lemma IdsGrow(order: seq<Key>, groups: map<Key, seq<Event>>, e: Event, k: Key)
    requires Listed(order, groups) && Listed(OrderWith(order, k), GroupsWith(groups, k, e))
    ensures multiset(AllIds(OrderWith(order, k), GroupsWith(groups, k, e))) == multiset(AllIds(order, groups)) + multiset{e.id}
  {
    if k in groups {
      AllIdsGrow(order, groups, k, e);
    } else {
      AllIdsElsewhere(order, groups, k, [e]);
      assert [] + [e] == [e];
      assert (order + [k])[..|order|] == order;
      assert Ids([e]) == [e.id];
    }
  }

  lemma PartitionGrows(order: seq<Key>, groups: map<Key, seq<Event>>, es: seq<Event>, incomplete: set<Key>, e: Event)
    requires Partitioned(order, groups, es, incomplete)
    ensures var k := KeyFor(e, incomplete); Partitioned(OrderWith(order, k), GroupsWith(groups, k, e), es + [e], incomplete)
  {
    var k := KeyFor(e, incomplete);
    GroupsGrow(groups, es, incomplete, e);
    ListGrows(order, groups, e, k);
    IdsGrow(order, groups, e, k);
    IdsSnoc(es, e);
    Prefix(es + [e], |es|);
  }

  lemma IdsSnoc(es: seq<Event>, e: Event)
    ensures multiset(Ids(es + [e])) == multiset(Ids(es)) + multiset{e.id}
  {
    assert Ids(es + [e]) == Ids(es) + [e.id];
  }

  /** The Map of `groupWalletEventsByTransaction`: a JavaScript Map keeps the order of first insertion. */
  method CollectGroups(es: seq<Event>, incomplete: set<Key>) returns (order: seq<Key>, groups: map<Key, seq<Event>>)
    ensures Partitioned(order, groups, es, incomplete)
  {
    order, groups := [], map[];
    for i := 0 to |es|
      invariant Partitioned(order, groups, es[..i], incomplete)
    {
      var k := KeyFor(es[i], incomplete);
      PartitionGrows(order, groups, es[..i], incomplete, es[i]);
      Prefix(es, i);
      order, groups := OrderWith(order, k), GroupsWith(groups, k, es[i]);
    }
    assert es[..|es|] == es;
  }

  lemma Prefix<T>(s: seq<T>, i: nat)
    requires i < |s|
    ensures s[..i + 1] == s[..i] + [s[i]] && s[..i + 1][..i] == s[..i]
  {
  }

  /** The `flatMap` over the groups. */
  method FlattenItems(order: seq<Key>, groups: map<Key, seq<Event>>, wallet: nat) returns (items: seq<Item>)
    requires forall k | k in order :: k in groups && groups[k] != []
    ensures items == ItemsUpTo(order, groups, wallet)
  {
    items := [];
    for i := 0 to |order|
      invariant items == ItemsUpTo(order[..i], groups, wallet)
    {
      Prefix(order, i);
      items := items + ItemsOf(groups[order[i]], wallet);
    }
    assert order[..|order|] == order;
  }

  /** `groupWalletEventsByTransaction`. */
  method GroupWalletEvents(es: seq<Event>, wallet: nat, incomplete: set<Key>) returns (items: seq<Item>)
    ensures multiset(Sources(items)) == multiset(Ids(es))
    ensures FromGroups(items, es, wallet, incomplete)
    ensures items == Listing(Order(es, incomplete), es, wallet, incomplete)
  {
    var order, groups := CollectGroups(es, incomplete);
    items := FlattenItems(order, groups, wallet);
    ItemsListing(order, groups, es, wallet, incomplete);
    ItemsSources(order, groups, wallet);
    ItemsFromGroups(order, groups, es, wallet, incomplete);
  }

  // ---- Completeness against the stored table ----

  function PageCount(es: seq<Event>, k: Key): nat {
    if es == [] then 0 else PageCount(es[..|es| - 1], k) + if TxKey(es[|es| - 1]) == k then 1 else 0
  }

  function StoredGroup(stored: map<EventId, Event>, k: Key): set<EventId> {
    set id | id in stored && TxKey(stored[id]) == k
  }

  function PageKeys(es: seq<Event>): set<Key> {
    set e | e in es :: TxKey(e)
  }

  /** More events of this transaction are stored than the page shows. */
  predicate Incomplete(stored: map<EventId, Event>, es: seq<Event>, k: Key) {
    |StoredGroup(stored, k)| > PageCount(es, k)
  }

  /** The counts hold every key of the page with the number of its events. */
  ghost predicate CountsPage(counts: map<Key, nat>, es: seq<Event>) {
    && counts.Keys == PageKeys(es)
    && (forall k | k in counts :: counts[k] == PageCount(es, k))
    && (forall k | k !in counts :: PageCount(es, k) == 0)
  }

  lemma CountsOneMore(counts: map<Key, nat>, es: seq<Event>, e: Event)
    requires CountsPage(counts, es)
    ensures CountsPage(counts[TxKey(e) := (if TxKey(e) in counts then counts[TxKey(e)] else 0) + 1], es + [e])
  {
    assert (es + [e])[..|es|] == es;
  }

  /** The loop counting a page's events per transaction. */
  method CountGroups(es: seq<Event>) returns (counts: map<Key, nat>)
    ensures CountsPage(counts, es)
  {
    counts := map[];
    for i := 0 to |es|
      invariant CountsPage(counts, es[..i])
    {
      CountsOneMore(counts, es[..i], es[i]);
      assert es[..i + 1] == es[..i] + [es[i]];
      var k := TxKey(es[i]);
      counts := counts[k := (if k in counts then counts[k] else 0) + 1];
    }
    assert es[..|es|] == es;
  }

  /** `findIncompleteWalletEventGroupKeys`, with the count query answered from `stored`. */
  method FindIncompleteKeys(es: seq<Event>, stored: map<EventId, Event>) returns (incomplete: set<Key>)
    ensures incomplete == set k | k in PageKeys(es) && Incomplete(stored, es, k)
  {
    var counts := CountGroups(es);
    incomplete := {};
    var rest := counts.Keys;
    while rest != {}
      invariant rest <= counts.Keys
      invariant incomplete == set k | k in counts.Keys - rest && Incomplete(stored, es, k)
      decreases rest
    {
      var k :| k in rest;
      if |StoredGroup(stored, k)| > counts[k] {
        incomplete := incomplete + {k};
      }
      rest := rest - {k};
    }
  }

  predicate DistinctIds(es: seq<Event>) {
    forall i, j | 0 <= i < j < |es| :: es[i].id != es[j].id
  }

  lemma {:induction false} GroupDistinct(es: seq<Event>, incomplete: set<Key>, k: Key)
    requires DistinctIds(es)
    ensures DistinctIds(GroupOf(es, incomplete, k))
  {
    if es != [] {
      var init, last := es[..|es| - 1], es[|es| - 1];
      GroupDistinct(init, incomplete, k);
      GroupFits(init, incomplete, k);
      forall x | x in GroupOf(init, incomplete, k) ensures x.id != last.id {
        assert x in init;
      }
    }
  }

  lemma DistinctCount(es: seq<Event>)
    requires DistinctIds(es)
    ensures |Elements(Ids(es))| == |es|
  {
    assert forall i | 0 <= i < |es| :: Ids(es)[i] == es[i].id;
    DistinctSize(Ids(es));
  }

  lemma {:induction false} GroupSize(es: seq<Event>, incomplete: set<Key>, k: Key)
    requires k.Tx? && k.hash.Some? && k !in incomplete
    ensures |GroupOf(es, incomplete, k)| == PageCount(es, k)
  {
    if es != [] { GroupSize(es[..|es| - 1], incomplete, k); }
  }

  /** The page shows stored events, each once. */
  predicate PageOf(es: seq<Event>, stored: map<EventId, Event>) {
    DistinctIds(es) && forall e | e in es :: e.id in stored && stored[e.id] == e
  }

  /** A transaction item's sources are all stored events of its wallet, chain and hash. */
  predicate HoldsAll(item: Item, stored: map<EventId, Event>)
    requires item.Transaction?
  {
    Elements(item.sources) == StoredGroup(stored, Tx(item.wallet, item.chain, item.hash))
  }

  function IncompleteKeys(es: seq<Event>, stored: map<EventId, Event>): set<Key> {
    set k | k in PageKeys(es) && Incomplete(stored, es, k)
  }

  /** A group under its transaction's own key is complete. */
  lemma TxGroupHoldsAll(es: seq<Event>, stored: map<EventId, Event>, wallet: nat, k: Key, item: Item)
    requires PageOf(es, stored) && (forall e | e in es :: e.wallet == wallet) && k.Tx?
    requires StandsFor(item, es, wallet, IncompleteKeys(es, stored), k)
    ensures HoldsAll(item, stored)
  {
    var incomplete := IncompleteKeys(es, stored);
    var g := GroupOf(es, incomplete, k);
    GroupFits(es, incomplete, k);
    assert g[0] in g && KeyFor(g[0], incomplete) == k;
    assert k !in incomplete && k == TxKey(g[0]) && g[0] in es;
    GroupSize(es, incomplete, k);
    GroupIsStored(es, stored, incomplete, k);
    SubsetSize(Elements(Ids(g)), StoredGroup(stored, k));
  }

  lemma GroupIsStored(es: seq<Event>, stored: map<EventId, Event>, incomplete: set<Key>, k: Key)
    requires PageOf(es, stored) && k.Tx?
    ensures var g := GroupOf(es, incomplete, k); Elements(Ids(g)) <= StoredGroup(stored, k) && |Elements(Ids(g))| == |g|
  {
    var g := GroupOf(es, incomplete, k);
    GroupFits(es, incomplete, k);
    GroupDistinct(es, incomplete, k);
    DistinctCount(g);
    forall id | id in Elements(Ids(g)) ensures id in StoredGroup(stored, k) {
      var i :| 0 <= i < |Ids(g)| && Ids(g)[i] == id;
      assert g[i] in g && g[i] in es;
    }
  }

  /** An event kept apart from its transaction is an activity of its own exactly when it is a mint. */
  lemma LoneEvent(e: Event)
    ensures Classify([e]).Some? <==> e.hash.Some? && IsMint(e)
  {
    assert e in [e];
    if e.hash.Some? && IsMint(e) {
      assert Is([e], NftMint);
      IsClassified([e], NftMint);
    }
    if Classify([e]).Some? {
      ClassifiedIs([e]);
      assert PartOf(e, Classify([e]).value.activity);
    }
  }

  /** The group of an event kept apart is that event alone. */
  lemma {:induction false} SingleGroup(es: seq<Event>, incomplete: set<Key>, e: Event)
    requires DistinctIds(es) && e in es && KeyFor(e, incomplete) == Single(e.id)
    ensures GroupOf(es, incomplete, Single(e.id)) == [e]
  {
    var g := GroupOf(es, incomplete, Single(e.id));
    GroupFits(es, incomplete, Single(e.id));
    GroupDistinct(es, incomplete, Single(e.id));
    assert |g| > 1 ==> g[0].id != g[1].id;
    assert e in g;
    forall i | 0 <= i < |g| ensures g[i].id == e.id {
      assert g[i] in g;
    }
  }

  /** A mint whose transaction is incomplete yields an item that lacks stored events. */
  lemma LoneMintIsFragment(es: seq<Event>, stored: map<EventId, Event>, wallet: nat, e: Event) returns (item: Item)
    requires PageOf(es, stored) && (forall x | x in es :: x.wallet == wallet)
    requires e in es && e.hash.Some? && IsMint(e) && Incomplete(stored, es, TxKey(e))
    ensures item.Transaction? && StandsFor(item, es, wallet, IncompleteKeys(es, stored), Single(e.id)) && !HoldsAll(item, stored)
  {
    var incomplete := IncompleteKeys(es, stored);
    assert TxKey(e) in incomplete;
    SingleGroup(es, incomplete, e);
    LoneEvent(e);
    item := Grouped([e], wallet, Classify([e]).value);
    PageCountOne(es, e);
    assert Ids([e]) == [e.id];
    assert Elements(item.sources) == {e.id};
  }

  lemma {:induction false} PageCountOne(es: seq<Event>, e: Event)
    requires e in es
    ensures PageCount(es, TxKey(e)) >= 1
  {
    if es[|es| - 1] != e {
      assert es == es[..|es| - 1] + [es[|es| - 1]];
      PageCountOne(es[..|es| - 1], e);
    }
  }

  /** No mint on the page belongs to a transaction of which the page shows only a part. */
  predicate NoSplitMint(es: seq<Event>, stored: map<EventId, Event>) {
    forall e | e in es && e.hash.Some? && IsMint(e) :: !Incomplete(stored, es, TxKey(e))
  }

  /**
   Grouping shows no page-split fragment as a transaction exactly when no mint on the page is split off from
   its transaction: every other incomplete group stays individual events.
   */
  lemma FragmentsExactlyWhen(es: seq<Event>, stored: map<EventId, Event>, wallet: nat, items: seq<Item>)
    requires PageOf(es, stored) && forall e | e in es :: e.wallet == wallet
    requires FromGroups(items, es, wallet, IncompleteKeys(es, stored))
    ensures (forall item | item in items && item.Transaction? :: HoldsAll(item, stored)) <==> NoSplitMint(es, stored)
  {
    var incomplete := IncompleteKeys(es, stored);
    if NoSplitMint(es, stored) {
      forall item | item in items && item.Transaction? ensures HoldsAll(item, stored) {
        var k :| StandsFor(item, es, wallet, incomplete, k);
        var g := GroupOf(es, incomplete, k);
        GroupFits(es, incomplete, k);
        assert g[0] in g && KeyFor(g[0], incomplete) == k;
        if k.Single? {
          SingleGroup(es, incomplete, g[0]);
          LoneEvent(g[0]);
        }
        TxGroupHoldsAll(es, stored, wallet, k, item);
      }
    } else {
      var e :| e in es && e.hash.Some? && IsMint(e) && Incomplete(stored, es, TxKey(e));
      var item := LoneMintIsFragment(es, stored, wallet, e);
      assert item in items;
    }
  }

  predicate HasNft(es: seq<Event>) {
    exists e | e in es :: e.assetType.Nft?
  }

  lemma ActivityHasNft(item: Item, es: seq<Event>, wallet: nat, incomplete: set<Key>, k: Key)
    requires StandsFor(item, es, wallet, incomplete, k)
    ensures HasNft(es)
  {
    var g := GroupOf(es, incomplete, k);
    GroupFits(es, incomplete, k);
    ClassifiedIs(g);
    var e :| e in g && e.assetType.Nft?;
    assert e in es;
  }

  /** Without an NFT on the page nothing is classified, so skipping the count query loses nothing. */
  lemma NoNftNoActivity(es: seq<Event>, wallet: nat, incomplete: set<Key>, items: seq<Item>)
    requires FromGroups(items, es, wallet, incomplete) && !HasNft(es)
    ensures forall item | item in items :: !item.Transaction?
  {
    forall item | item in items ensures !item.Transaction? {
      if item.Transaction? {
        var k :| StandsFor(item, es, wallet, incomplete, k);
        ActivityHasNft(item, es, wallet, incomplete, k);
      }
    }
  }

  /** Legs of every transaction item partition its sources. */
  lemma ItemLegsPartition(es: seq<Event>, wallet: nat, incomplete: set<Key>, items: seq<Item>, item: Item)
    requires FromGroups(items, es, wallet, incomplete) && item in items && item.Transaction?
    ensures multiset(LegIds(item.sent)) + multiset(LegIds(item.received)) == multiset(item.sources)
    ensures (forall l | l in item.sent :: l.direction == Some(Outgoing)) && forall l | l in item.received :: l.direction == Some(Incoming)
  {
    var k :| StandsFor(item, es, wallet, incomplete, k);
    var g := GroupOf(es, incomplete, k);
    ClassifiedIs(g);
    forall e | e in g ensures e.direction.Some? {
      assert PartOf(e, Classify(g).value.activity);
    }
    LegsPartition(g);
    LegsGo(g, Outgoing);
    LegsGo(g, Incoming);
  }

  /** A page of a wallet's history. */
  datatype History = History(items: seq<Item>, hasMore: bool)

  function Page(ordered: seq<Event>, limit: nat, offset: nat): seq<Event> {
    if offset >= |ordered| then [] else if offset + limit <= |ordered| then ordered[offset..offset + limit] else ordered[offset..]
  }

  /** The transactions whose events are kept apart; the count query is only asked when the page has an NFT. */
  function KeptApart(es: seq<Event>, stored: map<EventId, Event>): set<Key> {
    if HasNft(es) then IncompleteKeys(es, stored) else {}
  }

  ghost predicate LegsPartitionSources(item: Item)
    requires item.Transaction?
  {
    multiset(LegIds(item.sent)) + multiset(LegIds(item.received)) == multiset(item.sources)
  }

  lemma GroupedPage(es: seq<Event>, stored: map<EventId, Event>, wallet: nat, items: seq<Item>)
    requires PageOf(es, stored) && forall e | e in es :: e.wallet == wallet
    requires FromGroups(items, es, wallet, KeptApart(es, stored))
    ensures (forall item | item in items && item.Transaction? :: HoldsAll(item, stored)) <==> NoSplitMint(es, stored)
    ensures forall item | item in items && item.Transaction? :: LegsPartitionSources(item)
  {
    if HasNft(es) {
      FragmentsExactlyWhen(es, stored, wallet, items);
    } else {
      NoNftNoActivity(es, wallet, {}, items);
    }
    forall item | item in items && item.Transaction? ensures LegsPartitionSources(item) {
      ItemLegsPartition(es, wallet, KeptApart(es, stored), items, item);
    }
  }

  lemma PageIsPage(ordered: seq<Event>, stored: map<EventId, Event>, wallet: nat, limit: nat, offset: nat)
    requires PageOf(ordered, stored) && forall e | e in ordered :: e.wallet == wallet
    ensures var page := Page(ordered, limit, offset); PageOf(page, stored) && forall e | e in page :: e.wallet == wallet
  {
    assert forall e | e in Page(ordered, limit, offset) :: e in ordered;
  }

  /**
   `listWalletEvents`: `ordered` are the wallet's events as the page query sees them, newest first, and `stored`
   is the table as the later count query sees it; events may have been added in between, none removed.
   */
  method ListWalletEvents(wallet: nat, ordered: seq<Event>, stored: map<EventId, Event>, group: bool, limit: nat, offset: nat)
    returns (h: History)
    requires PageOf(ordered, stored) && forall e | e in ordered :: e.wallet == wallet
    ensures h.hasMore <==> offset + limit < |ordered|
    ensures var page := Page(ordered, limit, offset);
            && multiset(Sources(h.items)) == multiset(Ids(page))
            && h.items == (if group then Listing(Order(page, KeptApart(page, stored)), page, wallet, KeptApart(page, stored)) else Raws(page))
            && (group ==> FromGroups(h.items, page, wallet, KeptApart(page, stored)))
            && (group ==> ((forall item | item in h.items && item.Transaction? :: HoldsAll(item, stored)) <==> NoSplitMint(page, stored)))
    ensures forall item | item in h.items && item.Transaction? :: LegsPartitionSources(item)
  {
    // One row more than the page is fetched, to see whether there is a next page.
    var rows := Page(ordered, limit + 1, offset);
    var page := if |rows| <= limit then rows else rows[..limit];
    assert page == Page(ordered, limit, offset);
    var hasMore := |rows| > limit;
    PageIsPage(ordered, stored, wallet, limit, offset);
    if !group {
      RawSources(page);
      return History(Raws(page), hasMore);
    }
    var incomplete: set<Key> := {};
    if HasNft(page) {
      incomplete := FindIncompleteKeys(page, stored);
    }
    var items := GroupWalletEvents(page, wallet, incomplete);
    GroupedPage(page, stored, wallet, items);
    h := History(items, hasMore);
  }

  /** A page of one mint whose transaction has two stored events. */
  function SplitMint(): Event {
    Event(1, 7, 1, Some(5), NftTransfer, Nft, Some(Incoming), false, true, false, None)
  }

  function SplitMintTable(): map<EventId, Event> {
    map[1 := SplitMint(), 2 := Event(2, 7, 1, Some(5), NativeTransfer, Coin, Some(Outgoing), true, false, false, Some(100))]
  }

  lemma SplitMintIsIncomplete()
    ensures PageOf([SplitMint()], SplitMintTable()) && Incomplete(SplitMintTable(), [SplitMint()], TxKey(SplitMint()))
  {
    var page := [SplitMint()];
    assert StoredGroup(SplitMintTable(), TxKey(SplitMint())) == {1, 2};
    assert page[..0] == [];
    assert PageCount(page, TxKey(SplitMint())) == 1;
  }

  /** Its grouping shows the mint as a transaction of its own, without the payment stored beside it. */
  lemma SplitMintExample(items: seq<Item>)
    requires FromGroups(items, [SplitMint()], 7, IncompleteKeys([SplitMint()], SplitMintTable()))
    ensures exists item | item in items && item.Transaction? :: !HoldsAll(item, SplitMintTable())
  {
    SplitMintIsIncomplete();
    var item := LoneMintIsFragment([SplitMint()], SplitMintTable(), 7, SplitMint());
    assert item in items;
  }
}
