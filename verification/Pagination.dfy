/**
 The three pagination loops, against any provider: a `Provider` is an arbitrary function from the number of a
 request and the cursor it carries to a reply. Each method also returns the pages it obtained, as a ghost.
 */
module Pagination {
  import opened Collections
  import opened Wrappers

  function Concat<T>(pages: seq<seq<T>>): seq<T> {
    if pages == [] then [] else Concat(pages[..|pages| - 1]) + pages[|pages| - 1]
  }

  lemma ConcatSnoc<T>(pages: seq<seq<T>>, page: seq<T>)
    ensures Concat(pages + [page]) == Concat(pages) + page
  {
    assert (pages + [page])[..|pages|] == pages;
  }

  /** The pages of two stretches follow one another, and one page is its own items. */
  lemma {:induction false} ConcatAdds<T>(a: seq<seq<T>>, b: seq<seq<T>>)
    ensures Concat(a + b) == Concat(a) + Concat(b)
    ensures |b| == 1 ==> Concat(b) == b[0]
    decreases |b|
  {
    if b == [] {
      assert a + b == a;
    } else {
      ConcatAdds(a, b[..|b| - 1]);
      LastOfBoth(a, b);
      Associative(Concat(a), Concat(b[..|b| - 1]), b[|b| - 1]);
    }
  }

  function Take<T>(s: seq<T>, n: nat): seq<T> {
    if n < |s| then s[..n] else s
  }

  /** The items from the first on, as many as may be kept. */
  lemma TakeMeans<T>(s: seq<T>, n: nat)
    ensures Take(s, n) <= s && |Take(s, n)| <= n && (|Take(s, n)| < n ==> Take(s, n) == s)
  {
  }

  // ---- Token balances (Alchemy) ----

  const BALANCE_MAX_RETRIES := 1
  const BALANCE_PAGE_SIZE := 100

  datatype BalanceReply = Balances(tokens: Option<seq<nat>>, pageKey: Option<string>) | RateLimited | RequestFailed

  type BalanceProvider = (nat, nat, Option<string>) -> BalanceReply

  datatype BalanceReason = TokenBalancesRateLimited | TokenBalancesInvalidResponse | TokenBalancesPageLimit

  datatype BalanceResult = Listed(tokens: seq<nat>, reason: Option<BalanceReason>) | Threw

  datatype BalancePage = BalancePage(tokens: seq<nat>, pageKey: Option<string>)

  /** An empty page key counts as none. */
  predicate HasNext(key: Option<string>) {
    key.Some? && key.value != ""
  }

  function Tokens(pages: seq<BalancePage>): seq<seq<nat>> {
    seq(|pages|, i requires 0 <= i < |pages| => pages[i].tokens)
  }

  lemma TokensSnoc(pages: seq<BalancePage>, p: BalancePage)
    ensures Tokens(pages + [p]) == Tokens(pages) + [p.tokens]
    ensures Concat(Tokens(pages + [p])) == Concat(Tokens(pages)) + p.tokens
  {
    assert Tokens(pages + [p]) == Tokens(pages) + [p.tokens];
    ConcatSnoc(Tokens(pages), p.tokens);
  }

  /** The page key the request after `pages` carries. */
  function NextKey(pages: seq<BalancePage>): Option<string> {
    if pages == [] then None else pages[|pages| - 1].pageKey
  }

  /** The reply to a request: that of the first attempt, from this one on, which is not rate-limited, else of the last. */
  function ReplyFrom(provider: BalanceProvider, page: nat, key: Option<string>, attempt: nat): BalanceReply
    requires attempt <= BALANCE_MAX_RETRIES
    decreases BALANCE_MAX_RETRIES - attempt
  {
    var reply := provider(page, attempt, key);
    if reply.RateLimited? && attempt < BALANCE_MAX_RETRIES then ReplyFrom(provider, page, key, attempt + 1) else reply
  }

  function Reply(provider: BalanceProvider, page: nat, key: Option<string>): BalanceReply {
    ReplyFrom(provider, page, key, 0)
  }

  ghost predicate AnsweredBy(provider: BalanceProvider, page: nat, key: Option<string>, p: BalancePage) {
    Reply(provider, page, key) == Balances(Some(p.tokens), p.pageKey)
  }

  function SeenKeys(pages: seq<BalancePage>): set<string> {
    set p | p in pages && HasNext(p.pageKey) :: p.pageKey.value
  }

  lemma SeenKeysSnoc(pages: seq<BalancePage>, p: BalancePage)
    ensures SeenKeys(pages + [p]) == SeenKeys(pages) + if HasNext(p.pageKey) then {p.pageKey.value} else {}
  {
    assert p in pages + [p] && forall x | x in pages :: x in pages + [p];
  }

  /** Each page is what the provider answered to the key of the page before, at some attempt. */
  ghost predicate BalanceWalk(provider: BalanceProvider, pages: seq<BalancePage>) {
    pages != [] ==>
      && var init := pages[..|pages| - 1];
      && BalanceWalk(provider, init) && (init != [] ==> HasNext(NextKey(init)))
      && AnsweredBy(provider, |init|, NextKey(init), pages[|pages| - 1])
  }

  lemma BalanceWalkSnoc(provider: BalanceProvider, pages: seq<BalancePage>, p: BalancePage)
    requires BalanceWalk(provider, pages) && (pages != [] ==> HasNext(NextKey(pages)))
    requires AnsweredBy(provider, |pages|, NextKey(pages), p)
    ensures BalanceWalk(provider, pages + [p])
  {
    assert (pages + [p])[..|pages|] == pages;
  }

  /** The retry loop around one request: a rate-limited attempt is repeated once. */
  method RequestBalances(provider: BalanceProvider, page: nat, key: Option<string>) returns (reply: BalanceReply, ghost attempts: nat)
    ensures reply == Reply(provider, page, key) && attempts <= BALANCE_MAX_RETRIES + 1
    ensures reply == if provider(page, 0, key).RateLimited? then provider(page, 1, key) else provider(page, 0, key)
    ensures attempts == if provider(page, 0, key).RateLimited? then 2 else 1
  {
    var n: nat := 0;
    reply := provider(page, n, key);
    while reply.RateLimited? && n < BALANCE_MAX_RETRIES
      invariant n <= BALANCE_MAX_RETRIES && reply == provider(page, n, key)
      invariant ReplyFrom(provider, page, key, n) == Reply(provider, page, key)
      invariant n > 0 ==> provider(page, 0, key).RateLimited?
      decreases BALANCE_MAX_RETRIES - n
    {
      n := n + 1;
      reply := provider(page, n, key);
    }
    attempts := n + 1;
  }

  /** The pages hold nothing beyond `tokens`, and the last of them names no further page. */
  predicate AllBalances(pages: seq<BalancePage>, tokens: seq<nat>) {
    |pages| > 0 && tokens == Concat(Tokens(pages)) && (NextKey(pages).None? || NextKey(pages).value == "")
  }

  /** One more page within the item bound: nothing is lost exactly when it fits. */
  lemma BalancesGrow(pages: seq<BalancePage>, p: BalancePage, tokens: seq<nat>, maxItems: nat)
    requires tokens == Concat(Tokens(pages)) && |tokens| <= maxItems
    ensures var tokens' := tokens + Take(p.tokens, maxItems - |tokens|);
            && |tokens'| <= maxItems && tokens' == Take(Concat(Tokens(pages + [p])), maxItems)
            && |Concat(Tokens(pages + [p]))| == |tokens| + |p.tokens|
            && (tokens' == Concat(Tokens(pages + [p])) <==> |p.tokens| <= maxItems - |tokens|)
            && NextKey(pages + [p]) == p.pageKey
  {
    TokensSnoc(pages, p);
    assert |Concat(Tokens(pages + [p]))| == |tokens| + |p.tokens|;
  }

  predicate RequestDue(pages: seq<BalancePage>) {
    pages != [] ==> HasNext(NextKey(pages))
  }

  /** The reply to the request after `pages`. */
  function NextReply(provider: BalanceProvider, pages: seq<BalancePage>): BalanceReply {
    Reply(provider, |pages|, NextKey(pages))
  }

  /** The page limit is the reason: items did not fit, or a further page is named that may not be fetched. */
  predicate AtBalanceLimit(pages: seq<BalancePage>, maxPages: nat) {
    && pages != []
    && var init, all := pages[..|pages| - 1], |Concat(Tokens(pages))|;
    && (all > maxPages * BALANCE_PAGE_SIZE
        || (HasNext(NextKey(pages))
            && (|pages| >= maxPages || all >= maxPages * BALANCE_PAGE_SIZE || NextKey(pages).value in SeenKeys(init))))
  }

  /** Each outcome has its cause in the provider's replies. */
  predicate BalancesJustified(r: BalanceResult, provider: BalanceProvider, pages: seq<BalancePage>, maxPages: nat) {
    var next := NextReply(provider, pages);
    match r
    case Threw => RequestDue(pages) && next.RequestFailed?
    case Listed(tokens, None) => AllBalances(pages, tokens)
    case Listed(tokens, Some(TokenBalancesRateLimited)) => RequestDue(pages) && next.RateLimited?
    case Listed(tokens, Some(TokenBalancesInvalidResponse)) => RequestDue(pages) && next.Balances? && next.tokens.None?
    case Listed(tokens, Some(TokenBalancesPageLimit)) => AtBalanceLimit(pages, maxPages)
  }

  /** What the loop holds before each request: every page so far, all of its tokens, and the page keys it was given. */
  ghost predicate BalancesSoFar(provider: BalanceProvider, pages: seq<BalancePage>, tokens: seq<nat>, seen: set<string>, maxItems: nat) {
    BalanceWalk(provider, pages) && tokens == Concat(Tokens(pages)) && |tokens| <= maxItems && seen == SeenKeys(pages)
  }

  predicate MustStop(p: BalancePage, count: nat, pageCount: nat, seen: set<string>, maxPages: nat) {
    var maxItems := maxPages * BALANCE_PAGE_SIZE;
    count + |p.tokens| > maxItems
    || (HasNext(p.pageKey) && (pageCount >= maxPages || count + |p.tokens| >= maxItems || p.pageKey.value in seen))
  }

  /** One more page either keeps the loop's account or gives it a reason to stop. */
  lemma BalancesStep(provider: BalanceProvider, pages: seq<BalancePage>, p: BalancePage, tokens: seq<nat>, seen: set<string>, maxPages: nat)
    requires BalancesSoFar(provider, pages, tokens, seen, maxPages * BALANCE_PAGE_SIZE)
    requires RequestDue(pages) && NextReply(provider, pages) == Balances(Some(p.tokens), p.pageKey)
    ensures var pages', maxItems := pages + [p], maxPages * BALANCE_PAGE_SIZE;
            var tokens' := tokens + Take(p.tokens, maxItems - |tokens|);
            && BalanceWalk(provider, pages') && NextKey(pages') == p.pageKey && tokens' == Take(Concat(Tokens(pages')), maxItems)
            && if MustStop(p, |tokens|, |pages'|, seen, maxPages) then AtBalanceLimit(pages', maxPages) && !AllBalances(pages', tokens')
               else BalancesSoFar(provider, pages', tokens', seen + if HasNext(p.pageKey) then {p.pageKey.value} else {}, maxItems)
  {
    BalanceWalkSnoc(provider, pages, p);
    BalancesGrow(pages, p, tokens, maxPages * BALANCE_PAGE_SIZE);
    SeenKeysSnoc(pages, p);
    assert (pages + [p])[..|pages|] == pages;
  }

  lemma AllTaken(tokens: seq<nat>, n: nat)
    requires |tokens| <= n
    ensures Take(tokens, n) == tokens
  {
  }

  /** What a result says about the pages it was made from. */
  ghost predicate BalancesFetched(r: BalanceResult, provider: BalanceProvider, pages: seq<BalancePage>, maxPages: nat) {
    && BalanceWalk(provider, pages) && |pages| <= maxPages && BalancesJustified(r, provider, pages, maxPages)
    && (r.Listed? ==> r.tokens == Take(Concat(Tokens(pages)), maxPages * BALANCE_PAGE_SIZE))
    && (r.Listed? ==> (r.reason.None? <==> AllBalances(pages, r.tokens)))
  }

  ghost predicate BalancesOf(r: BalanceResult, provider: BalanceProvider, maxPages: nat) {
    exists pages :: BalancesFetched(r, provider, pages, maxPages)
  }

  /** The result of a request that brought no page. */
  function Failing(reply: BalanceReply, tokens: seq<nat>): BalanceResult {
    if reply.RateLimited? then Listed(tokens, Some(TokenBalancesRateLimited))
    else if reply.RequestFailed? then Threw
    else Listed(tokens, Some(TokenBalancesInvalidResponse))
  }

  lemma FailsHere(provider: BalanceProvider, pages: seq<BalancePage>, tokens: seq<nat>, seen: set<string>, maxPages: nat)
    requires BalancesSoFar(provider, pages, tokens, seen, maxPages * BALANCE_PAGE_SIZE) && |pages| <= maxPages && RequestDue(pages)
    requires var reply := NextReply(provider, pages); !reply.Balances? || reply.tokens.None?
    ensures BalancesOf(Failing(NextReply(provider, pages), tokens), provider, maxPages)
  {
    AllTaken(tokens, maxPages * BALANCE_PAGE_SIZE);
    assert BalancesFetched(Failing(NextReply(provider, pages), tokens), provider, pages, maxPages);
  }

  lemma LimitedHere(provider: BalanceProvider, pages: seq<BalancePage>, tokens: seq<nat>, maxPages: nat)
    requires BalanceWalk(provider, pages) && |pages| <= maxPages && tokens == Take(Concat(Tokens(pages)), maxPages * BALANCE_PAGE_SIZE)
    requires AtBalanceLimit(pages, maxPages) && !AllBalances(pages, tokens)
    ensures BalancesOf(Listed(tokens, Some(TokenBalancesPageLimit)), provider, maxPages)
  {
    assert BalancesFetched(Listed(tokens, Some(TokenBalancesPageLimit)), provider, pages, maxPages);
  }

  lemma CompleteHere(provider: BalanceProvider, pages: seq<BalancePage>, tokens: seq<nat>, seen: set<string>, maxPages: nat)
    requires BalancesSoFar(provider, pages, tokens, seen, maxPages * BALANCE_PAGE_SIZE) && |pages| <= maxPages
    requires pages != [] && !HasNext(NextKey(pages))
    ensures BalancesOf(Listed(tokens, None), provider, maxPages)
  {
    AllTaken(tokens, maxPages * BALANCE_PAGE_SIZE);
    assert BalancesFetched(Listed(tokens, None), provider, pages, maxPages);
  }

  /** The body of the loop for a request that brought a page. */
  method TakePage(ghost provider: BalanceProvider, ghost pages: seq<BalancePage>, page: BalancePage, pageCount: nat, tokens: seq<nat>,
                  seen: set<string>, maxPages: nat)
    returns (stop: bool, tokens': seq<nat>, seen': set<string>)
    requires BalancesSoFar(provider, pages, tokens, seen, maxPages * BALANCE_PAGE_SIZE) && |pages| + 1 == pageCount <= maxPages
    requires RequestDue(pages) && NextReply(provider, pages) == Balances(Some(page.tokens), page.pageKey)
    ensures stop ==> BalancesOf(Listed(tokens', Some(TokenBalancesPageLimit)), provider, maxPages)
    ensures !stop ==> BalancesSoFar(provider, pages + [page], tokens', seen', maxPages * BALANCE_PAGE_SIZE)
    ensures !stop && HasNext(page.pageKey) ==> pageCount < maxPages
  {
    BalancesStep(provider, pages, page, tokens, seen, maxPages);
    stop := MustStop(page, |tokens|, pageCount, seen, maxPages);
    tokens' := tokens + Take(page.tokens, maxPages * BALANCE_PAGE_SIZE - |tokens|);
    seen' := seen + if HasNext(page.pageKey) then {page.pageKey.value} else {};
    if stop { LimitedHere(provider, pages + [page], tokens', maxPages); }
  }

  /**
   The loop of `fetchAllErc20Balances`. It stops within its page limit and item bound against any provider, lists
   the first items up to the bound, and reports them available exactly when they are all of the provider's pages
   with no page key left.
   */
  method FetchAllBalances(provider: BalanceProvider, maxPages: nat) returns (r: BalanceResult, ghost requests: nat)
    requires 1 <= maxPages
    ensures BalancesOf(r, provider, maxPages)
    ensures requests <= (BALANCE_MAX_RETRIES + 1) * maxPages
  {
    ghost var pages: seq<BalancePage> := [];
    requests := 0;
    var tokens, key, pageCount, seen: set<string> := [], None, 0, {};
    var more := true;
    while more
      invariant requests <= (BALANCE_MAX_RETRIES + 1) * pageCount
      invariant |pages| == pageCount <= maxPages && key == NextKey(pages) && (more ==> pageCount < maxPages)
      invariant BalancesSoFar(provider, pages, tokens, seen, maxPages * BALANCE_PAGE_SIZE)
      invariant if more then RequestDue(pages) else pages != [] && !HasNext(key)
      decreases maxPages - pageCount, more
    {
      var reply, attempts := RequestBalances(provider, pageCount, key);
      requests := requests + attempts;
      if !reply.Balances? || reply.tokens.None? {
        FailsHere(provider, pages, tokens, seen, maxPages);
        return Failing(reply, tokens), requests;
      }
      var page := BalancePage(reply.tokens.value, reply.pageKey);
      pageCount, key := pageCount + 1, page.pageKey;
      var stop;
      stop, tokens, seen := TakePage(provider, pages, page, pageCount, tokens, seen, maxPages);
      if stop {
        return Listed(tokens, Some(TokenBalancesPageLimit)), requests;
      }
      pages, more := pages + [page], HasNext(key);
    }
    CompleteHere(provider, pages, tokens, seen, maxPages);
    r := Listed(tokens, None);
  }

  // ---- Positions (Zerion) ----

  const ZERION_PAGE_SIZE := 100

  /** A next link as it resolves against the first URL. */
  datatype Link = Link(safe: bool, href: nat)

  datatype PositionsPage = PositionsPage(data: seq<nat>, included: seq<nat>, next: Option<Link>)

  datatype PositionsReply = PageOk(page: PositionsPage) | PageInvalid | PageFailed

  type PositionsProvider = (nat, nat) -> PositionsReply

  datatype PositionsResult = Fetched(data: seq<nat>, included: seq<nat>, partial: bool, pageCount: nat) | FetchThrew

  function Data(pages: seq<PositionsPage>): seq<seq<nat>> {
    seq(|pages|, i requires 0 <= i < |pages| => pages[i].data)
  }

  function Included(pages: seq<PositionsPage>): seq<seq<nat>> {
    seq(|pages|, i requires 0 <= i < |pages| => pages[i].included)
  }

  lemma PositionsSnoc(pages: seq<PositionsPage>, p: PositionsPage)
    ensures Concat(Data(pages + [p])) == Concat(Data(pages)) + p.data
    ensures Concat(Included(pages + [p])) == Concat(Included(pages)) + p.included
  {
    assert Data(pages + [p]) == Data(pages) + [p.data];
    ConcatSnoc(Data(pages), p.data);
    assert Included(pages + [p]) == Included(pages) + [p.included];
    ConcatSnoc(Included(pages), p.included);
  }

  /** The link the request after `pages` follows, and its address. */
  function NextLink(first: nat, pages: seq<PositionsPage>): Option<Link> {
    if pages == [] then Some(Link(true, first)) else pages[|pages| - 1].next
  }

  function Followed(first: nat, pages: seq<PositionsPage>): set<nat> {
    if pages == [] then {}
    else
      var init := pages[..|pages| - 1];
      Followed(first, init) + if NextLink(first, init).Some? then {NextLink(first, init).value.href} else {}
  }

  /** Each page is the provider's answer at the link of the page before, which is safe and was not followed before. */
  ghost predicate PositionsWalk(provider: PositionsProvider, first: nat, pages: seq<PositionsPage>) {
    pages != [] ==>
      && var init := pages[..|pages| - 1];
      && PositionsWalk(provider, first, init)
      && NextLink(first, init).Some?
      && var link := NextLink(first, init).value;
      && link.safe && link.href !in Followed(first, init) && provider(|init|, link.href) == PageOk(pages[|pages| - 1])
  }

  ghost predicate AllPositions(pages: seq<PositionsPage>, data: seq<nat>, included: seq<nat>) {
    |pages| > 0 && data == Concat(Data(pages)) && included == Concat(Included(pages)) && pages[|pages| - 1].next.None?
  }

  lemma PositionsWalkSnoc(provider: PositionsProvider, first: nat, pages: seq<PositionsPage>, p: PositionsPage)
    requires PositionsWalk(provider, first, pages) && NextLink(first, pages).Some?
    requires var link := NextLink(first, pages).value;
             link.safe && link.href !in Followed(first, pages) && provider(|pages|, link.href) == PageOk(p)
    ensures PositionsWalk(provider, first, pages + [p])
    ensures Followed(first, pages + [p]) == Followed(first, pages) + {NextLink(first, pages).value.href}
  {
    assert (pages + [p])[..|pages|] == pages;
  }

  /** What one more page adds, within the item bounds, and whether the loop must stop short after it. */
  lemma PageAdds(pages: seq<PositionsPage>, p: PositionsPage, data: seq<nat>, included: seq<nat>, maxItems: nat)
    requires data == Concat(Data(pages)) && included == Concat(Included(pages)) && |data| <= maxItems && |included| <= 2 * maxItems
    ensures var data', included' := data + Take(p.data, maxItems - |data|), included + Take(p.included, 2 * maxItems - |included|);
            && |data'| <= maxItems && |included'| <= 2 * maxItems
            && data' == Take(Concat(Data(pages + [p])), maxItems) && included' == Take(Concat(Included(pages + [p])), 2 * maxItems)
            && |Concat(Data(pages + [p]))| == |data| + |p.data| && |Concat(Included(pages + [p]))| == |included| + |p.included|
            && (|p.data| <= maxItems - |data| && |p.included| <= 2 * maxItems - |included| <==>
                  data' == Concat(Data(pages + [p])) && included' == Concat(Included(pages + [p])))
            && (AllPositions(pages + [p], data', included') <==>
                  p.next.None? && |p.data| <= maxItems - |data| && |p.included| <= 2 * maxItems - |included|)
  {
    PositionsSnoc(pages, p);
    assert |Concat(Data(pages + [p]))| == |data| + |p.data|;
    assert |Concat(Included(pages + [p]))| == |included| + |p.included|;
  }

  /** What the loop holds after `pages`: everything, or a prefix of it that is marked partial. */
  ghost predicate Gathered(pages: seq<PositionsPage>, data: seq<nat>, included: seq<nat>, maxItems: nat, partial: bool) {
    && |data| <= maxItems && |included| <= 2 * maxItems
    && data == Take(Concat(Data(pages)), maxItems) && included == Take(Concat(Included(pages)), 2 * maxItems)
    && (if partial then !AllPositions(pages, data, included) else data == Concat(Data(pages)) && included == Concat(Included(pages)))
  }

  /** The pages hold more than may be kept, or as much and name a further page. */
  predicate OverItems(pages: seq<PositionsPage>, maxItems: nat) {
    var d, i := |Concat(Data(pages))|, |Concat(Included(pages))|;
    || d > maxItems || i > 2 * maxItems
    || (pages != [] && pages[|pages| - 1].next.Some? && (d >= maxItems || i >= 2 * maxItems))
  }

  /** Each outcome has its cause in the provider's replies. */
  ghost predicate PositionsJustified(r: PositionsResult, provider: PositionsProvider, first: nat, pages: seq<PositionsPage>, maxPages: nat) {
    var next := NextLink(first, pages);
    match r
    case Fetched(data, included, true, _) =>
      OverItems(pages, maxPages * ZERION_PAGE_SIZE) || (next.Some? && (|pages| >= maxPages || next.value.href in Followed(first, pages)))
    case Fetched(data, included, false, _) => AllPositions(pages, data, included)
    case FetchThrew => next.Some? && |pages| < maxPages && (next.value.safe ==> !provider(|pages|, next.value.href).PageOk?)
  }

  predicate StopsShort(p: PositionsPage, data: seq<nat>, included: seq<nat>, maxItems: nat) {
    || |p.data| > maxItems - |data| || |p.included| > 2 * maxItems - |included|
    || (p.next.Some? && (|data| + |p.data| >= maxItems || |included| + |p.included| >= 2 * maxItems))
  }

  lemma GatheredGrows(pages: seq<PositionsPage>, p: PositionsPage, data: seq<nat>, included: seq<nat>, maxItems: nat)
    requires Gathered(pages, data, included, maxItems, false)
    ensures Gathered(pages + [p], data + Take(p.data, maxItems - |data|), included + Take(p.included, 2 * maxItems - |included|),
                     maxItems, StopsShort(p, data, included, maxItems))
    ensures StopsShort(p, data, included, maxItems) ==> OverItems(pages + [p], maxItems)
  {
    PageAdds(pages, p, data, included, maxItems);
  }

  /** What a result says about the pages it was made from. */
  ghost predicate PositionsFetched(r: PositionsResult, provider: PositionsProvider, first: nat, pages: seq<PositionsPage>, maxPages: nat) {
    && PositionsWalk(provider, first, pages) && |pages| <= maxPages && PositionsJustified(r, provider, first, pages, maxPages)
    && (r.Fetched? ==>
          && r.data == Take(Concat(Data(pages)), maxPages * ZERION_PAGE_SIZE)
          && r.included == Take(Concat(Included(pages)), 2 * (maxPages * ZERION_PAGE_SIZE))
          && r.pageCount == |pages| && (!r.partial <==> AllPositions(pages, r.data, r.included)))
  }

  /**
   The loop of `fetchAllWalletPositions`: a result not marked partial is exactly all of the provider's pages, and
   whatever lacks something is marked partial.
   */
  method FetchAllPositions(provider: PositionsProvider, first: nat, maxPages: nat) returns (r: PositionsResult, ghost requests: nat)
    requires 1 <= maxPages
    ensures exists pages :: PositionsFetched(r, provider, first, pages, maxPages)
    ensures requests <= maxPages
  {
    ghost var pages: seq<PositionsPage> := [];
    requests := 0;
    var link: Option<Link>, seen: set<nat>, maxItems := Some(Link(true, first)), {}, maxPages * ZERION_PAGE_SIZE;
    var data, included, pageCount, partial: bool := [], [], 0, false;
    while link.Some? && pageCount < maxPages && !partial
      invariant requests == pageCount
      invariant PositionsWalk(provider, first, pages) && |pages| == pageCount <= maxPages && seen == Followed(first, pages)
      invariant Gathered(pages, data, included, maxItems, partial)
      invariant link == NextLink(first, pages)
      invariant partial ==> OverItems(pages, maxItems) || (link.Some? && link.value.href in Followed(first, pages))
      decreases maxPages - pageCount, !partial
    {
      if !link.value.safe {
        r := FetchThrew;
        assert PositionsFetched(r, provider, first, pages, maxPages);
        return;
      }
      if link.value.href in seen {
        partial := true;
      } else {
        var reply := provider(pageCount, link.value.href);
        requests := requests + 1;
        if !reply.PageOk? {
          r := FetchThrew;
          assert PositionsFetched(r, provider, first, pages, maxPages);
          return;
        }
        var page := reply.page;
        PositionsWalkSnoc(provider, first, pages, page);
        GatheredGrows(pages, page, data, included, maxItems);
        seen := seen + {link.value.href};
        pages := pages + [page];
        pageCount := pageCount + 1;
        partial := StopsShort(page, data, included, maxItems);
        data := data + Take(page.data, maxItems - |data|);
        included := included + Take(page.included, 2 * maxItems - |included|);
        link := page.next;
      }
    }
    if link.Some? {
      partial := true;
    }
    r := Fetched(data, included, partial, pageCount);
    assert PositionsFetched(r, provider, first, pages, maxPages);
  }

  // ---- Watched addresses (Alchemy) ----

  const ADDRESS_PAGE_SIZE := 100
  const ADDRESS_MAX_PAGES := 100
  const ADDRESS_MAX_ITEMS := ADDRESS_MAX_PAGES * ADDRESS_PAGE_SIZE

  datatype Cursor = End | After(cursor: string) | MalformedCursor

  /** A reply's count, addresses and cursor; an address that is not one is `None`, the others are in lower case. */
  datatype AddressReply = Answered(count: Option<int>, data: Option<seq<Option<nat>>>, next: Cursor) | Failed

  type AddressProvider = (nat, Option<string>) -> AddressReply

  datatype ListError = PageLimit | RequestError | InvalidResponse | CountChanged | InvalidAddress | MoreThanCounted | DidNotAdvance | Incomplete

  datatype ListResult = Watched(addresses: seq<nat>) | Refused(error: ListError)

  datatype AddressPage = AddressPage(count: nat, addresses: seq<nat>, next: Cursor)

  function Union(pages: seq<AddressPage>): set<nat> {
    set p, a | p in pages && a in p.addresses :: a
  }

  predicate StrictlySorted(s: seq<nat>) {
    forall i, j | 0 <= i < j < |s| :: s[i] < s[j]
  }

  function NextCursor(pages: seq<AddressPage>): Option<string> {
    if pages != [] && pages[|pages| - 1].next.After? then Some(pages[|pages| - 1].next.cursor) else None
  }

  function Somes(s: seq<nat>): seq<Option<nat>> {
    seq(|s|, i requires 0 <= i < |s| => Some(s[i]))
  }

  /** Each page is what the provider answered to the cursor of the page before. */
  ghost predicate AddressWalk(provider: AddressProvider, pages: seq<AddressPage>) {
    pages != [] ==>
      && var init, last := pages[..|pages| - 1], pages[|pages| - 1];
      && AddressWalk(provider, init) && (init != [] ==> NextCursor(init).Some?)
      && provider(|init|, NextCursor(init)) == Answered(Some(last.count), Some(Somes(last.addresses)), last.next)
  }

  function SeenCursors(pages: seq<AddressPage>): set<string> {
    set p | p in pages && p.next.After? :: p.next.cursor
  }

  lemma SeenCursorsSnoc(pages: seq<AddressPage>, p: AddressPage)
    ensures SeenCursors(pages + [p]) == SeenCursors(pages) + if p.next.After? then {p.next.cursor} else {}
  {
    assert p in pages + [p] && forall x | x in pages :: x in pages + [p];
  }

  /** Each refusal has its cause: in the reply to the request after `pages`, or in the pages themselves. */
  ghost predicate RefusalJustified(error: ListError, provider: AddressProvider, pages: seq<AddressPage>) {
    var reply := provider(|pages|, NextCursor(pages));
    (error.Incomplete? || pages == [] || NextCursor(pages).Some?) &&
    match error
    case PageLimit => |pages| >= ADDRESS_MAX_PAGES || (reply.Answered? && reply.count.Some? && reply.count.value > ADDRESS_MAX_ITEMS)
    case RequestError => reply.Failed?
    case InvalidResponse =>
      reply.Answered? && (reply.data.None? || |reply.data.value| > ADDRESS_PAGE_SIZE || reply.count.None? || reply.count.value < 0
                          || reply.next.MalformedCursor?)
    case CountChanged => reply.Answered? && pages != [] && reply.count != Some(pages[|pages| - 1].count)
    case InvalidAddress => reply.Answered? && reply.data.Some? && None in reply.data.value
    case MoreThanCounted => reply.Answered? && reply.data.Some? && reply.count.Some? && |Extended(pages, reply.data.value)| > reply.count.value
    case DidNotAdvance =>
      && reply.Answered? && reply.data.Some? && reply.next.After?
      && (Extended(pages, reply.data.value) == Union(pages) || reply.next.cursor in SeenCursors(pages))
    case Incomplete => pages != [] && pages[|pages| - 1].next.End? && |Union(pages)| != pages[|pages| - 1].count
  }

  /** The union of the pages and the addresses of one more reply. */
  function Extended(pages: seq<AddressPage>, data: seq<Option<nat>>): set<nat> {
    Union(pages) + set d | d in data && d.Some? :: d.value
  }

  lemma ExtendedPlain(pages: seq<AddressPage>, addresses: seq<nat>)
    ensures Extended(pages, Somes(addresses)) == Union(pages) + Elements(addresses)
  {
    forall a | a in addresses ensures Some(a) in Somes(addresses) {
      var i :| 0 <= i < |addresses| && addresses[i] == a;
      assert Somes(addresses)[i] == Some(a);
    }
  }

  lemma AddressWalkSnoc(provider: AddressProvider, pages: seq<AddressPage>, p: AddressPage)
    requires AddressWalk(provider, pages) && (pages != [] ==> NextCursor(pages).Some?)
    requires provider(|pages|, NextCursor(pages)) == Answered(Some(p.count), Some(Somes(p.addresses)), p.next)
    ensures AddressWalk(provider, pages + [p])
    ensures Union(pages + [p]) == Union(pages) + Elements(p.addresses)
  {
    assert (pages + [p])[..|pages|] == pages;
    UnionSnoc(pages, p);
  }

  lemma UnionSnoc(pages: seq<AddressPage>, p: AddressPage)
    ensures Union(pages + [p]) == Union(pages) + Elements(p.addresses)
  {
    assert p in pages + [p] && forall x | x in pages :: x in pages + [p];
  }

  /** The loop over one page's addresses; `None` when one is not an address. */
  method AddAddresses(before: set<nat>, data: seq<Option<nat>>) returns (after: Option<set<nat>>, ghost addresses: seq<nat>)
    ensures after.Some? <==> forall d | d in data :: d.Some?
    ensures after.Some? ==> data == Somes(addresses) && after.value == before + Elements(addresses)
  {
    var all := before;
    addresses := [];
    for i := 0 to |data|
      invariant data[..i] == Somes(addresses) && all == before + Elements(addresses)
      invariant forall d | d in data[..i] :: d.Some?
    {
      if data[i].None? {
        assert data[i] in data;
        return None, addresses;
      }
      assert data[..i + 1] == data[..i] + [data[i]];
      ghost var more := addresses + [data[i].value];
      assert Somes(more) == Somes(addresses) + [data[i]];
      assert Elements(more) == Elements(addresses) + {data[i].value};
      all, addresses := all + {data[i].value}, more;
    }
    assert data[..|data|] == data;
    after := Some(all);
  }

  predicate IsLeast(s: set<nat>, m: nat) {
    m in s && forall x | x in s :: m <= x
  }

  lemma {:induction false} LeastExists(s: set<nat>)
    requires s != {}
    ensures exists m | m in s :: IsLeast(s, m)
  {
    var a :| a in s;
    if s == {a} {
      assert IsLeast(s, a);
    } else {
      var rest := s - {a};
      LeastExists(rest);
      var b :| b in rest && IsLeast(rest, b);
      var m := if a < b then a else b;
      forall x | x in s ensures m <= x {
        assert x == a || x in rest;
      }
      assert IsLeast(s, m);
    }
  }

  predicate AllBelow(sorted: seq<nat>, rest: set<nat>) {
    forall i, b | 0 <= i < |sorted| && b in rest :: sorted[i] < b
  }

  lemma LeastMoves(sorted: seq<nat>, rest: set<nat>, m: nat)
    requires StrictlySorted(sorted) && AllBelow(sorted, rest) && IsLeast(rest, m)
    ensures StrictlySorted(sorted + [m]) && AllBelow(sorted + [m], rest - {m})
  {
  }

  method TakeLeast(rest: set<nat>) returns (m: nat)
    requires rest != {}
    ensures IsLeast(rest, m)
  {
    LeastExists(rest);
    m :| m in rest && IsLeast(rest, m);
  }

  /** `[...addresses].sort()`. */
  method SortAddresses(s: set<nat>) returns (sorted: seq<nat>)
    ensures StrictlySorted(sorted) && Elements(sorted) == s && |sorted| == |s|
  {
    sorted := [];
    var rest := s;
    while rest != {}
      invariant StrictlySorted(sorted) && AllBelow(sorted, rest)
      invariant Elements(sorted) + rest == s && |sorted| + |rest| == |s|
      decreases |rest|
    {
      var m := TakeLeast(rest);
      LeastMoves(sorted, rest, m);
      ElementsSnoc(sorted, m);
      sorted, rest := sorted + [m], rest - {m};
    }
  }

  lemma ElementsSnoc(s: seq<nat>, x: nat)
    ensures Elements(s + [x]) == Elements(s) + {x}
  {
  }

  /** A reply whose count, addresses and cursor have the expected form, in line with the pages before. */
  predicate WellFormed(reply: AddressReply, total: Option<nat>) {
    && reply.Answered? && reply.data.Some? && reply.count.Some? && 0 <= reply.count.value <= ADDRESS_MAX_ITEMS
    && !reply.next.MalformedCursor? && (total.Some? ==> reply.count.value == total.value)
  }

  /** What the loop holds before each request. */
  ghost predicate AddressesSoFar(provider: AddressProvider, pages: seq<AddressPage>, addresses: set<nat>, seen: set<string>, total: Option<nat>) {
    && AddressWalk(provider, pages) && addresses == Union(pages) && seen == SeenCursors(pages)
    && (if pages == [] then total.None? else total == Some(pages[|pages| - 1].count) && total.value <= ADDRESS_MAX_ITEMS)
    && forall p | p in pages :: total == Some(p.count)
  }

  lemma AddressesStep(provider: AddressProvider, pages: seq<AddressPage>, p: AddressPage, addresses: set<nat>, seen: set<string>, total: Option<nat>)
    requires AddressesSoFar(provider, pages, addresses, seen, total) && (pages != [] ==> NextCursor(pages).Some?)
    requires provider(|pages|, NextCursor(pages)) == Answered(Some(p.count), Some(Somes(p.addresses)), p.next)
    requires p.count <= ADDRESS_MAX_ITEMS && (total.Some? ==> p.count == total.value)
    ensures AddressesSoFar(provider, pages + [p], addresses + Elements(p.addresses),
                           seen + if p.next.After? then {p.next.cursor} else {}, Some(p.count))
  {
    AddressWalkSnoc(provider, pages, p);
    SeenCursorsSnoc(pages, p);
  }

  /** The checks of a response before its addresses are looked at. */
  method ExamineReply(ghost provider: AddressProvider, ghost pages: seq<AddressPage>, reply: AddressReply, total: Option<nat>)
    returns (refusal: Option<ListError>)
    requires reply == provider(|pages|, NextCursor(pages)) && (pages != [] ==> NextCursor(pages).Some?)
    requires if pages == [] then total.None? else total == Some(pages[|pages| - 1].count)
    ensures refusal.Some? ==> RefusalJustified(refusal.value, provider, pages)
    ensures refusal.None? ==> WellFormed(reply, total)
  {
    if reply.Failed? {
      return Some(RequestError);
    }
    if reply.count.Some? && reply.count.value > ADDRESS_MAX_ITEMS {
      return Some(PageLimit);
    }
    if reply.data.None? || |reply.data.value| > ADDRESS_PAGE_SIZE || reply.count.None? || reply.count.value < 0
       || reply.next.MalformedCursor? {
      return Some(InvalidResponse);
    }
    if total.Some? && total.value != reply.count.value {
      return Some(CountChanged);
    }
    refusal := None;
  }

  /** Adds the addresses of a response and checks that the walk advances. */
  method ExtendAddresses(ghost provider: AddressProvider, ghost pages: seq<AddressPage>, addresses: set<nat>, reply: AddressReply,
                         seen: set<string>)
    returns (rejection: Option<ListError>, added: set<nat>, ghost plain: seq<nat>)
    requires reply == provider(|pages|, NextCursor(pages)) && WellFormed(reply, None)
    requires addresses == Union(pages) && seen == SeenCursors(pages) && (pages != [] ==> NextCursor(pages).Some?)
    ensures rejection.Some? ==> RefusalJustified(rejection.value, provider, pages)
    ensures rejection.None? ==> reply.data.value == Somes(plain) && added == addresses + Elements(plain) && |added| <= reply.count.value
  {
    var all;
    all, plain := AddAddresses(addresses, reply.data.value);
    added := all.GetOr(addresses);
    if all.None? {
      assert None in reply.data.value;
      return Some(InvalidAddress), added, plain;
    }
    ExtendedPlain(pages, plain);
    if |added| > reply.count.value {
      return Some(MoreThanCounted), added, plain;
    }
    if reply.next.After? && (|added| == |addresses| || reply.next.cursor in seen) {
      if |added| == |addresses| { SubsetSize(addresses, added); }
      return Some(DidNotAdvance), added, plain;
    }
    rejection := None;
  }

  /** What a result says about the pages it was made from. */
  ghost predicate AddressesListed(r: ListResult, provider: AddressProvider, pages: seq<AddressPage>) {
    && AddressWalk(provider, pages) && |pages| <= ADDRESS_MAX_PAGES
    && match r
       case Refused(error) => RefusalJustified(error, provider, pages)
       case Watched(addresses) =>
         && |pages| > 0 && pages[|pages| - 1].next.End? && StrictlySorted(addresses) && Elements(addresses) == Union(pages)
         && (forall p | p in pages :: p.count == |addresses|) && |addresses| <= ADDRESS_MAX_ITEMS
  }

  /**
   The loop of `listAlchemyWebhookWatchedAddresses`: against any provider it makes at most 100 requests, and the
   list it returns is the sorted union of all pages, as many addresses as every page reported, with no cursor left.
   */
  method ListWatchedAddresses(provider: AddressProvider) returns (r: ListResult, ghost requests: nat)
    ensures exists pages :: AddressesListed(r, provider, pages)
    ensures requests <= ADDRESS_MAX_PAGES
  {
    ghost var pages: seq<AddressPage> := [];
    requests := 0;
    var addresses: set<nat>, seen: set<string>, after: Option<string>, total: Option<nat>, fetched := {}, {}, None, None, 0;
    var more := true;
    while more
      invariant requests == fetched
      invariant |pages| == fetched <= ADDRESS_MAX_PAGES && after == NextCursor(pages)
      invariant AddressesSoFar(provider, pages, addresses, seen, total)
      invariant more <==> fetched == 0 || after.Some?
      invariant !more ==> |pages| > 0 && pages[|pages| - 1].next.End?
      decreases ADDRESS_MAX_PAGES - fetched, more
    {
      if fetched >= ADDRESS_MAX_PAGES {
        r := Refused(PageLimit);
        assert AddressesListed(r, provider, pages);
        return;
      }
      var reply := provider(fetched, after);
      requests := requests + 1;
      var refusal := ExamineReply(provider, pages, reply, total);
      if refusal.Some? {
        r := Refused(refusal.value);
        assert AddressesListed(r, provider, pages);
        return;
      }
      var rejection, added, plain := ExtendAddresses(provider, pages, addresses, reply, seen);
      if rejection.Some? {
        r := Refused(rejection.value);
        assert AddressesListed(r, provider, pages);
        return;
      }
      ghost var page := AddressPage(reply.count.value, plain, reply.next);
      AddressesStep(provider, pages, page, addresses, seen, total);
      pages, fetched := pages + [page], fetched + 1;
      total, addresses := Some(reply.count.value), added;
      if reply.next.After? {
        seen := seen + {reply.next.cursor};
      }
      after := if reply.next.After? then Some(reply.next.cursor) else None;
      more := after.Some?;
    }
    if |addresses| != total.value {
      r := Refused(Incomplete);
      assert AddressesListed(r, provider, pages);
      return;
    }
    var sorted := SortAddresses(addresses);
    r := Watched(sorted);
    assert AddressesListed(r, provider, pages);
  }
}
