/**
 The positions service: full requests fetch every supported chain in turn and share the fetch in flight, list
 requests answer from caches and the persisted table only. Both share one cache, whose list-only entries full
 requests ignore.
 */
module Positions {
  import opened Chains
  import opened WalletRecords
  import opened Wrappers

  const TTL_MS := 60 * 1000
  const DEGRADED_TTL_MS := 30 * 1000
  const PERSISTED_MAX_AGE_MS := 24 * 60 * 60 * 1000

  /** `described` says whether any descriptive field is a string; `value` is a finite number of cents. */
  datatype Position = Position(described: bool, value: Option<int>)

  datatype Reason = ChainUnsupported(chain: Chain) | FetchFailed(chain: Chain) | PersistedCache(chain: Chain) | CacheMiss(chain: Chain) | ProviderReason(id: nat)

  /** The address and chain the provider was asked about; its own caches are keyed by these. */
  datatype Origin = Origin(address: nat, chain: Chain)

  /** A provider answer for one chain. */
  datatype ChainPositions = ChainPositions(positions: seq<Position>, partial: bool, reasons: seq<Reason>, origin: Origin)

  /** One chain's contribution; `storedAt` is the capture time of data read from the persisted table. */
  datatype Part = Part(chain: Chain, positions: seq<Position>, storedAt: Option<int>, origin: Origin)

  datatype Result = Result(parts: seq<Part>, partial: bool, reasons: seq<Reason>)

  datatype Reply = Got(answer: ChainPositions) | NotConfigured | Error

  /** What the full request throws when no chain answered. */
  datatype Failure = UnsupportedPositionsChain | FirstError

  // ---- The full request ----

  function PartFrom(c: Chain, a: ChainPositions): Part {
    Part(c, a.positions, None, a.origin)
  }

  function PartsOf(cs: seq<Chain>, replies: seq<Reply>): seq<Part>
    requires |cs| == |replies|
  {
    if cs == [] then []
    else
      PartsOf(cs[..|cs| - 1], replies[..|cs| - 1])
      + if replies[|cs| - 1].Got? then [PartFrom(cs[|cs| - 1], replies[|cs| - 1].answer)] else []
  }

  function ReasonsFor(c: Chain, r: Reply): seq<Reason> {
    match r
    case Got(a) => if a.partial then a.reasons else []
    case NotConfigured => [ChainUnsupported(c)]
    case Error => [FetchFailed(c)]
  }

  function ReasonsOf(cs: seq<Chain>, replies: seq<Reply>): seq<Reason>
    requires |cs| == |replies|
  {
    if cs == [] then [] else ReasonsOf(cs[..|cs| - 1], replies[..|cs| - 1]) + ReasonsFor(cs[|cs| - 1], replies[|cs| - 1])
  }

  function FullResult(cs: seq<Chain>, replies: seq<Reply>): Result
    requires |cs| == |replies|
  {
    Result(PartsOf(cs, replies), ReasonsOf(cs, replies) != [], ReasonsOf(cs, replies))
  }

  lemma OneReplyMore(cs: seq<Chain>, replies: seq<Reply>, i: nat)
    requires i < |cs| == |replies|
    ensures PartsOf(cs[..i + 1], replies[..i + 1])
            == PartsOf(cs[..i], replies[..i]) + if replies[i].Got? then [PartFrom(cs[i], replies[i].answer)] else []
    ensures ReasonsOf(cs[..i + 1], replies[..i + 1]) == ReasonsOf(cs[..i], replies[..i]) + ReasonsFor(cs[i], replies[i])
  {
    assert cs[..i + 1][..i] == cs[..i] && replies[..i + 1][..i] == replies[..i];
  }

  predicate AnyGot(replies: seq<Reply>) {
    exists r | r in replies :: r.Got?
  }

  predicate AnyNotConfigured(replies: seq<Reply>) {
    exists r | r in replies :: r.NotConfigured?
  }

  lemma AnyGrows(replies: seq<Reply>, i: nat)
    requires i < |replies|
    ensures AnyGot(replies[..i + 1]) <==> AnyGot(replies[..i]) || replies[i].Got?
    ensures AnyNotConfigured(replies[..i + 1]) <==> AnyNotConfigured(replies[..i]) || replies[i].NotConfigured?
  {
    assert replies[..i + 1] == replies[..i] + [replies[i]];
    assert replies[i] in replies[..i + 1];
  }

  /** The sequential loop of `getWalletPositions`. */
  method FetchChains(cs: seq<Chain>, replies: seq<Reply>) returns (r: Option<Result>, why: Failure)
    requires |cs| == |replies|
    ensures r.Some? <==> AnyGot(replies)
    ensures r.Some? ==> r.value == FullResult(cs, replies)
    ensures r.Some? ==> Gathered(cs, replies, r.value.parts, r.value.reasons) && (r.value.partial <==> !NoReasons(cs, replies))
    ensures r.None? ==> (why.UnsupportedPositionsChain? <==> AnyNotConfigured(replies))
  {
    var parts: seq<Part> := [];
    var reasons: seq<Reason> := [];
    var unsupported := false;
    for i := 0 to |cs|
      invariant parts == PartsOf(cs[..i], replies[..i]) && reasons == ReasonsOf(cs[..i], replies[..i])
      invariant parts != [] <==> AnyGot(replies[..i])
      invariant unsupported <==> AnyNotConfigured(replies[..i])
    {
      OneReplyMore(cs, replies, i);
      AnyGrows(replies, i);
      match replies[i] {
        case Got(a) =>
          parts := parts + [PartFrom(cs[i], a)];
          if a.partial {
            reasons := reasons + a.reasons;
          }
        case NotConfigured =>
          reasons := reasons + [ChainUnsupported(cs[i])];
          unsupported := true;
        case Error =>
          reasons := reasons + [FetchFailed(cs[i])];
      }
    }
    assert cs[..|cs|] == cs && replies[..|cs|] == replies;
    RepliesGathered(cs, replies);
    UnqualifiedFullResult(cs, replies);
    why := if unsupported then UnsupportedPositionsChain else FirstError;
    r := if parts == [] then None else Some(Result(parts, reasons != [], reasons));
  }

  /** This chain answered, with nothing missing that the provider gave a reason for. */
  predicate Unqualified(r: Reply) {
    r.Got? && (r.answer.partial ==> r.answer.reasons == [])
  }

  /** No chain has a caveat of its own. */
  predicate NoReasons(cs: seq<Chain>, replies: seq<Reply>)
    requires |cs| == |replies|
  {
    forall i | 0 <= i < |cs| :: Unqualified(replies[i])
  }

  lemma NoReasonsSnoc(cs: seq<Chain>, replies: seq<Reply>)
    requires |cs| == |replies| && cs != []
    ensures var n := |cs| - 1;
            NoReasons(cs, replies) <==> NoReasons(cs[..n], replies[..n]) && ReasonsFor(cs[n], replies[n]) == []
  {
    var n := |cs| - 1;
    assert ReasonsFor(cs[n], replies[n]) == [] <==> Unqualified(replies[n]);
    if NoReasons(cs[..n], replies[..n]) && Unqualified(replies[n]) {
      forall i | 0 <= i < |cs| ensures Unqualified(replies[i]) {
        if i < n { assert Unqualified(replies[..n][i]); }
      }
    }
  }

  /** The part is this chain's, and holds the positions of this answer. */
  predicate Holds(part: Part, c: Chain, a: ChainPositions) {
    part.chain == c && part.positions == a.positions && part.origin == a.origin && part.storedAt.None?
  }

  /** The chain has a part that holds what it answered. */
  ghost predicate Listed(parts: seq<Part>, c: Chain, a: ChainPositions) {
    exists k | 0 <= k < |parts| :: Holds(parts[k], c, a)
  }

  /** The part holds what one of the chains answered. */
  ghost predicate Answered(cs: seq<Chain>, replies: seq<Reply>, part: Part)
    requires |cs| == |replies|
  {
    exists m | 0 <= m < |cs| :: replies[m].Got? && Holds(part, cs[m], replies[m].answer)
  }

  /** Why a chain's part is missing or incomplete is among the reasons. */
  predicate Explained(reasons: seq<Reason>, c: Chain, r: Reply) {
    match r
    case Got(a) => a.partial ==> forall x | x in a.reasons :: x in reasons
    case NotConfigured => ChainUnsupported(c) in reasons
    case Error => FetchFailed(c) in reasons
  }

  /** The parts are the answers, each under its chain, and every caveat is given. */
  ghost predicate Gathered(cs: seq<Chain>, replies: seq<Reply>, parts: seq<Part>, reasons: seq<Reason>)
    requires |cs| == |replies|
  {
    && (forall m | 0 <= m < |cs| && replies[m].Got? :: Listed(parts, cs[m], replies[m].answer))
    && (forall k | 0 <= k < |parts| :: Answered(cs, replies, parts[k]))
    && (forall m | 0 <= m < |cs| :: Explained(reasons, cs[m], replies[m]))
  }

  lemma ListedGrows(front: seq<Part>, more: seq<Part>, c: Chain, a: ChainPositions)
    requires Listed(front, c, a)
    ensures Listed(front + more, c, a)
  {
    var k :| 0 <= k < |front| && Holds(front[k], c, a);
    assert Holds((front + more)[k], c, a);
  }

  lemma AnsweredGrows(cs: seq<Chain>, replies: seq<Reply>, n: nat, part: Part)
    requires |cs| == |replies| && n <= |cs| && Answered(cs[..n], replies[..n], part)
    ensures Answered(cs, replies, part)
  {
    var m :| 0 <= m < n && replies[..n][m].Got? && Holds(part, cs[..n][m], replies[..n][m].answer);
    assert replies[m].Got? && Holds(part, cs[m], replies[m].answer);
  }

  lemma ExplainedGrows(front: seq<Reason>, more: seq<Reason>, c: Chain, r: Reply)
    requires Explained(front, c, r)
    ensures Explained(front + more, c, r)
  {
  }

  lemma OwnPart(front: seq<Part>, reasons: seq<Reason>, c: Chain, r: Reply)
    ensures Explained(reasons + ReasonsFor(c, r), c, r)
    ensures r.Got? ==> Listed(front + [PartFrom(c, r.answer)], c, r.answer) && Holds(PartFrom(c, r.answer), c, r.answer)
  {
    if r.Got? { assert Holds((front + [PartFrom(c, r.answer)])[|front|], c, r.answer); }
  }

  lemma GatheredSnoc(cs: seq<Chain>, replies: seq<Reply>, n: nat, front: seq<Part>, reasons: seq<Reason>)
    requires |cs| == |replies| == n + 1 && Gathered(cs[..n], replies[..n], front, reasons)
    ensures Gathered(cs, replies, front + if replies[n].Got? then [PartFrom(cs[n], replies[n].answer)] else [], reasons + ReasonsFor(cs[n], replies[n]))
  {
    var added := if replies[n].Got? then [PartFrom(cs[n], replies[n].answer)] else [];
    OwnPart(front, reasons, cs[n], replies[n]);
    forall m | 0 <= m < |cs| && replies[m].Got? ensures Listed(front + added, cs[m], replies[m].answer) {
      if m < n {
        assert replies[..n][m].Got? && Listed(front, cs[..n][m], replies[..n][m].answer);
        ListedGrows(front, added, cs[m], replies[m].answer);
      }
    }
    forall k | 0 <= k < |front + added| ensures Answered(cs, replies, (front + added)[k]) {
      if k < |front| { AnsweredGrows(cs, replies, n, front[k]); }
      else { assert Holds((front + added)[k], cs[n], replies[n].answer); }
    }
    forall m | 0 <= m < |cs| ensures Explained(reasons + ReasonsFor(cs[n], replies[n]), cs[m], replies[m]) {
      if m < n {
        assert Explained(reasons, cs[..n][m], replies[..n][m]);
        ExplainedGrows(reasons, ReasonsFor(cs[n], replies[n]), cs[m], replies[m]);
      }
    }
  }

  /** What the loop gathers: the part of every chain that answered holds that answer's positions, and nothing else is listed. */
  lemma {:induction false} RepliesGathered(cs: seq<Chain>, replies: seq<Reply>)
    requires |cs| == |replies|
    ensures Gathered(cs, replies, PartsOf(cs, replies), ReasonsOf(cs, replies))
    decreases |cs|
  {
    if cs != [] {
      var n := |cs| - 1;
      RepliesGathered(cs[..n], replies[..n]);
      GatheredSnoc(cs, replies, n, PartsOf(cs[..n], replies[..n]), ReasonsOf(cs[..n], replies[..n]));
    }
  }

  lemma {:induction false} FullParts(cs: seq<Chain>, replies: seq<Reply>)
    requires |cs| == |replies|
    ensures NoReasons(cs, replies) ==> |PartsOf(cs, replies)| == |cs| && forall i | 0 <= i < |cs| :: Holds(PartsOf(cs, replies)[i], cs[i], replies[i].answer)
    ensures forall i | 0 <= i < |PartsOf(cs, replies)| :: PartsOf(cs, replies)[i].storedAt.None?
  {
    if cs != [] {
      FullParts(cs[..|cs| - 1], replies[..|cs| - 1]);
      NoReasonsSnoc(cs, replies);
    }
  }

  /** A full result is unqualified exactly when every chain answered without a caveat of its own. */
  lemma {:induction false} UnqualifiedFullResult(cs: seq<Chain>, replies: seq<Reply>)
    requires |cs| == |replies|
    ensures !FullResult(cs, replies).partial <==> NoReasons(cs, replies)
    ensures !FullResult(cs, replies).partial ==> |PartsOf(cs, replies)| == |cs|
    ensures forall i | 0 <= i < |PartsOf(cs, replies)| :: PartsOf(cs, replies)[i].storedAt.None?
    ensures !FullResult(cs, replies).partial ==> forall i | 0 <= i < |cs| :: replies[i].Got? && Holds(PartsOf(cs, replies)[i], cs[i], replies[i].answer)
  {
    FullParts(cs, replies);
    if cs != [] {
      UnqualifiedFullResult(cs[..|cs| - 1], replies[..|cs| - 1]);
      NoReasonsSnoc(cs, replies);
    }
  }

  // ---- The shared cache ----

  datatype Key = Key(wallet: nat, chains: set<Chain>)

  datatype Entry = Entry(value: Result, listOnly: bool, expiresAt: int)

  datatype JobStage = Running | Finished(value: Result) | Rejected

  /** A full fetch shared under `key`, for the record its first caller read. */
  datatype Job = Job(key: Key, wallet: Wallet, stage: JobStage)

  type JobId = nat

  /** `wallet` is the record the request read. */
  datatype Request =
    | Awaiting(wallet: Wallet, job: JobId)
    | Loading(wallet: Wallet, peeked: seq<Part>, partial: seq<Reason>, missing: seq<Chain>)
    | Served(full: bool, wallet: Wallet, value: Result)
    | Null
    | Failed

  datatype World = World(now: int, cache: map<Key, Entry>, inFlight: map<Key, JobId>, jobs: map<JobId, Job>, requests: map<nat, Request>)

  function KeyOf(w: Wallet): Key {
    Key(w.id, ChainSet(w))
  }

  function Min(a: int, b: int): int {
    if a < b then a else b
  }

  function Lookup(s: World, key: Key, allowListOnly: bool): Option<Result> {
    if key in s.cache && s.now < s.cache[key].expiresAt && (allowListOnly || !s.cache[key].listOnly)
    then Some(s.cache[key].value) else None
  }

  /** `setCachedPositions`; no limit stands for an infinite one. */
  function Stored(s: World, key: Key, value: Result, listOnly: bool, limit: Option<int>): map<Key, Entry> {
    var own := s.now + if value.partial then DEGRADED_TTL_MS else TTL_MS;
    s.cache[key := Entry(value, listOnly, if limit.Some? then Min(own, limit.value) else own)]
  }

  /** What the provider's cache holds of a wallet's chains. */
  function Peeked(cs: seq<Chain>, peeks: seq<Option<ChainPositions>>): seq<Part>
    requires |cs| == |peeks|
  {
    if cs == [] then []
    else
      Peeked(cs[..|cs| - 1], peeks[..|cs| - 1])
      + match peeks[|cs| - 1] case Some(a) => [PartFrom(cs[|cs| - 1], a)] case None => []
  }

  function PeekReasons(peeks: seq<Option<ChainPositions>>): seq<Reason> {
    if peeks == [] then []
    else
      PeekReasons(peeks[..|peeks| - 1])
      + match peeks[|peeks| - 1] case Some(a) => if a.partial then a.reasons else [] case None => []
  }

  function Missing(cs: seq<Chain>, peeks: seq<Option<ChainPositions>>): seq<Chain>
    requires |cs| == |peeks|
  {
    if cs == [] then []
    else Missing(cs[..|cs| - 1], peeks[..|cs| - 1]) + if peeks[|cs| - 1].None? then [cs[|cs| - 1]] else []
  }

  /** The persisted rows of the missing chains that are still fresh now, in chain order. */
  function FreshParts(rows: map<Chain, Part>, missing: seq<Chain>, now: int): seq<Part> {
    if missing == [] then []
    else
      FreshParts(rows, missing[..|missing| - 1], now)
      + var c := missing[|missing| - 1]; if IsFresh(rows, c, now) then [rows[c]] else []
  }

  predicate IsFresh(rows: map<Chain, Part>, c: Chain, now: int) {
    c in rows && rows[c].storedAt.Some? && now < rows[c].storedAt.value + PERSISTED_MAX_AGE_MS
  }

  function MissingReasons(rows: map<Chain, Part>, missing: seq<Chain>, now: int): seq<Reason> {
    if missing == [] then []
    else
      MissingReasons(rows, missing[..|missing| - 1], now)
      + var c := missing[|missing| - 1]; if IsFresh(rows, c, now) then [PersistedCache(c)] else [CacheMiss(c)]
  }

  /** When the first of these parts reaches its age limit. */
  function Deadline(parts: seq<Part>): Option<int> {
    if parts == [] then None
    else
      var rest, last := Deadline(parts[..|parts| - 1]), parts[|parts| - 1];
      if last.storedAt.None? then rest
      else if rest.None? then Some(last.storedAt.value + PERSISTED_MAX_AGE_MS)
      else Some(Min(rest.value, last.storedAt.value + PERSISTED_MAX_AGE_MS))
  }

  /** Each answer is about this wallet's address, on the chain it is given for. */
  ghost predicate RepliesFor(w: Wallet, cs: seq<Chain>, replies: seq<Reply>) {
    |replies| == |cs| && forall i | 0 <= i < |cs| && replies[i].Got? :: replies[i].answer.origin == Origin(w.address, cs[i])
  }

  ghost predicate PeeksFor(w: Wallet, cs: seq<Chain>, peeks: seq<Option<ChainPositions>>) {
    |peeks| == |cs| && forall i | 0 <= i < |cs| && peeks[i].Some? :: peeks[i].value.origin == Origin(w.address, cs[i])
  }

  /** Stored rows are selected by the wallet's address. */
  ghost predicate RowsFor(w: Wallet, rows: map<Chain, Part>) {
    forall c | c in rows :: rows[c].chain == c && rows[c].origin == Origin(w.address, c)
  }

  datatype RequestAct =
    | AskFull(wallet: Wallet, job: JobId)
    | Deliver
    | AskList(wallet: Wallet, peeks: seq<Option<ChainPositions>>)
    | ListDone(rows: map<Chain, Part>)

  datatype JobAct = Finish(replies: seq<Reply>) | Fail

  datatype Step = Tick(elapsed: nat) | OfRequest(r: nat, request: RequestAct) | OfJob(j: JobId, job: JobAct)

  function PutRequest(s: World, r: nat, q: Request): World {
    s.(requests := s.requests[r := q])
  }

  function ListResult(q: Request, rows: map<Chain, Part>, now: int): Result
    requires q.Loading?
  {
    var reasons := q.partial + MissingReasons(rows, q.missing, now);
    Result(q.peeked + FreshParts(rows, q.missing, now), reasons != [], reasons)
  }

  ghost predicate RequestNext(s: World, r: nat, act: RequestAct, s': World) {
    match act
    case AskFull(w, j) =>
      && r !in s.requests
      && var key := KeyOf(w);
      && var hit := Lookup(s, key, false);
      && if SupportedChains(w) == [] then s' == PutRequest(s, r, Failed)
         else if hit.Some? then s' == PutRequest(s, r, Served(true, w, hit.value))
         else if key in s.inFlight then s' == PutRequest(s, r, Awaiting(w, s.inFlight[key]))
         else
           && j !in s.jobs
           && s' == PutRequest(s, r, Awaiting(w, j)).(jobs := s.jobs[j := Job(key, w, Running)], inFlight := s.inFlight[key := j])
    case Deliver =>
      && r in s.requests && s.requests[r].Awaiting?
      && var q := s.requests[r];
      && q.job in s.jobs && !s.jobs[q.job].stage.Running?
      && var stage := s.jobs[q.job].stage;
      && s' == PutRequest(s, r, if stage.Finished? then Served(true, q.wallet, stage.value) else Failed)
    case AskList(w, peeks) =>
      && r !in s.requests && PeeksFor(w, SupportedChains(w), peeks)
      && var hit := Lookup(s, KeyOf(w), true);
      && s' == PutRequest(s, r,
                 if SupportedChains(w) == [] then Failed
                 else if hit.Some? then Served(false, w, hit.value)
                 else Loading(w, Peeked(SupportedChains(w), peeks), PeekReasons(peeks), Missing(SupportedChains(w), peeks)))
    // After the load the cache is looked at again, since a full request may have finished meanwhile.
    case ListDone(rows) =>
      && r in s.requests && s.requests[r].Loading? && RowsFor(s.requests[r].wallet, rows)
      && var q := s.requests[r];
      && var hit, v := Lookup(s, KeyOf(q.wallet), true), ListResult(q, rows, s.now);
      && if hit.Some? then s' == PutRequest(s, r, Served(false, q.wallet, hit.value))
         else if v.parts == [] then s' == PutRequest(s, r, Null)
         else s' == PutRequest(s, r, Served(false, q.wallet, v)).(cache := Stored(s, KeyOf(q.wallet), v, true, Deadline(v.parts)))
  }

  ghost predicate JobNext(s: World, j: JobId, act: JobAct, s': World) {
    && j in s.jobs && s.jobs[j].stage.Running?
    && var job := s.jobs[j];
    match act
    case Finish(replies) =>
      && RepliesFor(job.wallet, SupportedChains(job.wallet), replies) && AnyGot(replies)
      && var v := FullResult(SupportedChains(job.wallet), replies);
      && s' == s.(cache := Stored(s, job.key, v, false, None), jobs := s.jobs[j := job.(stage := Finished(v))], inFlight := s.inFlight - {job.key})
    case Fail => s' == s.(jobs := s.jobs[j := job.(stage := Rejected)], inFlight := s.inFlight - {job.key})
  }

  ghost predicate Next(s: World, step: Step, s': World) {
    match step
    case Tick(elapsed) => s' == s.(now := s.now + elapsed)
    case OfRequest(r, act) => RequestNext(s, r, act, s')
    case OfJob(j, act) => JobNext(s, j, act, s')
  }

  ghost predicate IsRun(run: seq<World>, steps: seq<Step>) {
    && |run| == |steps| + 1 && (forall i | 0 <= i < |steps| :: StepAt(run, steps, i))
    && run[0].cache == map[] && run[0].inFlight == map[] && run[0].jobs == map[] && run[0].requests == map[]
  }

  ghost predicate StepAt(run: seq<World>, steps: seq<Step>, i: nat)
    requires i < |steps| < |run|
  {
    Next(run[i], steps[i], run[i + 1])
  }

  // ---- What a served value is ----

  /** No stored part of the value is a day old at the given time. */
  ghost predicate YoungAt(v: Result, t: int) {
    AllYoung(v.parts, t)
  }

  ghost predicate AllYoung(parts: seq<Part>, t: int) {
    forall i | 0 <= i < |parts| && parts[i].storedAt.Some? :: t < parts[i].storedAt.value + PERSISTED_MAX_AGE_MS
  }

  ghost predicate NothingStored(v: Result) {
    forall i | 0 <= i < |v.parts| :: v.parts[i].storedAt.None?
  }

  /** Each part was fetched for this address, on the chain it is listed under. */
  ghost predicate FetchedFor(w: Wallet, parts: seq<Part>) {
    forall i | 0 <= i < |parts| :: parts[i].origin == Origin(w.address, parts[i].chain)
  }

  /** The value is made of provider answers about this wallet's address, one reply for each supported chain. */
  ghost predicate FullEvidence(w: Wallet, v: Result) {
    exists replies | RepliesFor(w, SupportedChains(w), replies) :: v == FullResult(SupportedChains(w), replies)
  }

  ghost predicate KeysTo(w: Wallet, key: Key) {
    w.id == key.wallet && ChainSet(w) == key.chains
  }

  ghost predicate Evidence(w: Wallet, full: bool, v: Result) {
    FetchedFor(w, v.parts) && (full ==> NothingStored(v) && FullEvidence(w, v))
  }

  /** The value was made for one record, of those in `asked`, of the wallet and chain set the key names. */
  ghost predicate ValueOk(asked: set<Wallet>, key: Key, full: bool, v: Result) {
    exists w | w in asked :: KeysTo(w, key) && Evidence(w, full, v)
  }

  ghost predicate EntryOk(asked: set<Wallet>, key: Key, e: Entry) {
    ValueOk(asked, key, !e.listOnly, e.value) && YoungAt(e.value, e.expiresAt - 1)
  }

  ghost predicate JobOk(asked: set<Wallet>, job: Job) {
    && job.wallet in asked && KeysTo(job.wallet, job.key) && SupportedChains(job.wallet) != []
    && (job.stage.Finished? ==> ValueOk(asked, job.key, true, job.stage.value))
  }

  ghost predicate RequestOk(asked: set<Wallet>, jobs: map<JobId, Job>, q: Request) {
    match q
    case Awaiting(w, j) => SupportedChains(w) != [] && w in asked && j in jobs && KeysTo(w, jobs[j].key)
    case Loading(w, peeked, _, _) =>
      SupportedChains(w) != [] && w in asked && FetchedFor(w, peeked) && forall i | 0 <= i < |peeked| :: peeked[i].storedAt.None?
    case Served(full, w, v) => SupportedChains(w) != [] && w in asked && exists key :: KeysTo(w, key) && ValueOk(asked, key, full, v)
    case _ => true
  }

  ghost predicate CacheOk(asked: set<Wallet>, cache: map<Key, Entry>) {
    forall k | k in cache :: EntryOk(asked, k, cache[k])
  }

  ghost predicate JobsOk(asked: set<Wallet>, jobs: map<JobId, Job>, inFlight: map<Key, JobId>) {
    && (forall j | j in jobs :: JobOk(asked, jobs[j]))
    && (forall k | k in inFlight :: inFlight[k] in jobs && jobs[inFlight[k]].key == k)
  }

  ghost predicate RequestsOk(asked: set<Wallet>, jobs: map<JobId, Job>, requests: map<nat, Request>) {
    forall r | r in requests :: RequestOk(asked, jobs, requests[r])
  }

  ghost predicate Inv(asked: set<Wallet>, s: World) {
    CacheOk(asked, s.cache) && JobsOk(asked, s.jobs, s.inFlight) && RequestsOk(asked, s.jobs, s.requests)
  }

  lemma RequestPut(asked: set<Wallet>, s: World, r: nat, q: Request)
    requires Inv(asked, s) && RequestOk(asked, s.jobs, q)
    ensures Inv(asked, PutRequest(s, r, q))
  {
  }

  lemma CachePut(asked: set<Wallet>, cache: map<Key, Entry>, key: Key, e: Entry)
    requires CacheOk(asked, cache) && EntryOk(asked, key, e)
    ensures CacheOk(asked, cache[key := e])
  {
  }

  lemma JobPut(asked: set<Wallet>, s: World, j: JobId, job: Job)
    requires JobsOk(asked, s.jobs, s.inFlight) && RequestsOk(asked, s.jobs, s.requests) && JobOk(asked, job)
    requires j in s.jobs ==> s.jobs[j].key == job.key
    ensures JobsOk(asked, s.jobs[j := job], s.inFlight) && RequestsOk(asked, s.jobs[j := job], s.requests)
  {
    forall r | r in s.requests ensures RequestOk(asked, s.jobs[j := job], s.requests[r]) {
      assert RequestOk(asked, s.jobs, s.requests[r]);
    }
  }

  lemma {:induction false} DeadlineCoversAll(parts: seq<Part>)
    ensures Deadline(parts).None? ==> forall i | 0 <= i < |parts| :: parts[i].storedAt.None?
    ensures Deadline(parts).Some? ==>
              forall i | 0 <= i < |parts| && parts[i].storedAt.Some? :: Deadline(parts).value <= parts[i].storedAt.value + PERSISTED_MAX_AGE_MS
  {
    if parts != [] { DeadlineCoversAll(parts[..|parts| - 1]); }
  }

  lemma {:induction false} FreshPartsAreYoung(rows: map<Chain, Part>, missing: seq<Chain>, now: int)
    ensures forall i | 0 <= i < |FreshParts(rows, missing, now)| ::
              FreshParts(rows, missing, now)[i].storedAt.Some? &&
              now < FreshParts(rows, missing, now)[i].storedAt.value + PERSISTED_MAX_AGE_MS
  {
    if missing != [] { FreshPartsAreYoung(rows, missing[..|missing| - 1], now); }
  }

  lemma {:induction false} FreshPartsAre(rows: map<Chain, Part>, missing: seq<Chain>, now: int, w: Wallet)
    requires RowsFor(w, rows)
    ensures FetchedFor(w, FreshParts(rows, missing, now)) && AllYoung(FreshParts(rows, missing, now), now)
  {
    if missing != [] { FreshPartsAre(rows, missing[..|missing| - 1], now, w); }
  }

  lemma {:induction false} PeekedAre(cs: seq<Chain>, peeks: seq<Option<ChainPositions>>, w: Wallet)
    requires PeeksFor(w, cs, peeks)
    ensures FetchedFor(w, Peeked(cs, peeks)) && forall i | 0 <= i < |Peeked(cs, peeks)| :: Peeked(cs, peeks)[i].storedAt.None?
  {
    if cs != [] { PeekedAre(cs[..|cs| - 1], peeks[..|cs| - 1], w); }
  }

  lemma {:induction false} FullPartsAre(cs: seq<Chain>, replies: seq<Reply>, w: Wallet)
    requires RepliesFor(w, cs, replies)
    ensures FetchedFor(w, PartsOf(cs, replies))
  {
    if cs != [] { FullPartsAre(cs[..|cs| - 1], replies[..|cs| - 1], w); }
  }

  lemma YoungUntilDeadline(parts: seq<Part>, t: int)
    requires Deadline(parts).Some? ==> t < Deadline(parts).value
    ensures AllYoung(parts, t)
  {
    DeadlineCoversAll(parts);
  }

  lemma ListResultIs(q: Request, rows: map<Chain, Part>, now: int)
    requires q.Loading? && RowsFor(q.wallet, rows) && FetchedFor(q.wallet, q.peeked)
    requires forall i | 0 <= i < |q.peeked| :: q.peeked[i].storedAt.None?
    ensures Evidence(q.wallet, false, ListResult(q, rows, now)) && YoungAt(ListResult(q, rows, now), now)
  {
    FreshPartsAre(rows, q.missing, now, q.wallet);
  }

  /** A hit is good for a request of that kind. */
  lemma HitIs(asked: set<Wallet>, s: World, w: Wallet, full: bool)
    requires CacheOk(asked, s.cache) && SupportedChains(w) != [] && w in asked && Lookup(s, KeyOf(w), !full).Some?
    ensures var v := Lookup(s, KeyOf(w), !full).value; RequestOk(asked, s.jobs, Served(full, w, v)) && YoungAt(v, s.now)
  {
    var key := KeyOf(w);
    var e := s.cache[key];
    assert EntryOk(asked, key, e) && KeysTo(w, key);
    if !full { ListIsWeaker(asked, key, !e.listOnly, e.value); }
  }

  /** A list result is good to serve and to cache. */
  lemma ListIs(asked: set<Wallet>, s: World, q: Request, rows: map<Chain, Part>)
    requires q.Loading? && RequestOk(asked, s.jobs, q) && RowsFor(q.wallet, rows) && CacheOk(asked, s.cache)
    ensures var v, key := ListResult(q, rows, s.now), KeyOf(q.wallet);
            && RequestOk(asked, s.jobs, Served(false, q.wallet, v)) && YoungAt(v, s.now)
            && CacheOk(asked, Stored(s, key, v, true, Deadline(v.parts)))
  {
    var v, key := ListResult(q, rows, s.now), KeyOf(q.wallet);
    ListResultIs(q, rows, s.now);
    assert KeysTo(q.wallet, key) && ValueOk(asked, key, false, v);
    var cache := Stored(s, key, v, true, Deadline(v.parts));
    YoungUntilDeadline(v.parts, cache[key].expiresAt - 1);
    CachePut(asked, s.cache, key, cache[key]);
  }

  lemma ListDoneStep(asked: set<Wallet>, s: World, r: nat, rows: map<Chain, Part>, s': World)
    requires Inv(asked, s) && RequestNext(s, r, ListDone(rows), s')
    ensures Inv(asked, s')
    ensures s'.requests[r].Served? ==> YoungAt(s'.requests[r].value, s.now)
  {
    var q := s.requests[r];
    assert RequestOk(asked, s.jobs, q);
    if Lookup(s, KeyOf(q.wallet), true).Some? {
      HitIs(asked, s, q.wallet, false);
    } else {
      ListIs(asked, s, q, rows);
    }
    assert RequestOk(asked, s.jobs, s'.requests[r]) && CacheOk(asked, s'.cache);
    RequestPut(asked, s.(cache := s'.cache), r, s'.requests[r]);
  }

  lemma ListIsWeaker(asked: set<Wallet>, key: Key, full: bool, v: Result)
    requires ValueOk(asked, key, full, v)
    ensures ValueOk(asked, key, false, v)
  {
    var w :| w in asked && KeysTo(w, key) && Evidence(w, full, v);
    assert Evidence(w, false, v);
  }

  /** A new fetch, with its first caller waiting for it. */
  lemma FetchStarts(asked: set<Wallet>, s: World, r: nat, w: Wallet, j: JobId)
    requires Inv(asked, s) && w in asked && SupportedChains(w) != [] && j !in s.jobs
    ensures Inv(asked, PutRequest(s, r, Awaiting(w, j)).(jobs := s.jobs[j := Job(KeyOf(w), w, Running)], inFlight := s.inFlight[KeyOf(w) := j]))
  {
    assert KeysTo(w, KeyOf(w));
    JobPut(asked, s, j, Job(KeyOf(w), w, Running));
    RequestPut(asked, s.(jobs := s.jobs[j := Job(KeyOf(w), w, Running)], inFlight := s.inFlight[KeyOf(w) := j]), r, Awaiting(w, j));
  }

  lemma AskFullStep(asked: set<Wallet>, s: World, r: nat, w: Wallet, j: JobId, s': World)
    requires Inv(asked, s) && RequestNext(s, r, AskFull(w, j), s') && w in asked
    ensures Inv(asked, s')
  {
    var key := KeyOf(w);
    if SupportedChains(w) == [] {
      RequestPut(asked, s, r, Failed);
    } else if Lookup(s, key, false).Some? {
      HitIs(asked, s, w, true);
      RequestPut(asked, s, r, s'.requests[r]);
    } else if key in s.inFlight {
      assert KeysTo(w, key);
      RequestPut(asked, s, r, Awaiting(w, s.inFlight[key]));
    } else {
      FetchStarts(asked, s, r, w, j);
    }
  }

  lemma AskListStep(asked: set<Wallet>, s: World, r: nat, w: Wallet, peeks: seq<Option<ChainPositions>>, s': World)
    requires Inv(asked, s) && RequestNext(s, r, AskList(w, peeks), s') && w in asked
    ensures Inv(asked, s')
  {
    if SupportedChains(w) != [] && Lookup(s, KeyOf(w), true).Some? { HitIs(asked, s, w, false); }
    PeekedAre(SupportedChains(w), peeks, w);
    RequestPut(asked, s, r, s'.requests[r]);
  }

  lemma FullResultIs(w: Wallet, replies: seq<Reply>)
    requires RepliesFor(w, SupportedChains(w), replies)
    ensures Evidence(w, true, FullResult(SupportedChains(w), replies))
  {
    UnqualifiedFullResult(SupportedChains(w), replies);
    FullPartsAre(SupportedChains(w), replies, w);
  }

  lemma JobStep(asked: set<Wallet>, s: World, j: JobId, act: JobAct, s': World)
    requires Inv(asked, s) && JobNext(s, j, act, s')
    ensures Inv(asked, s')
  {
    var job := s.jobs[j];
    assert JobOk(asked, job);
    if act.Finish? {
      FullResultIs(job.wallet, act.replies);
      assert ValueOk(asked, job.key, true, s'.jobs[j].stage.value);
      CachePut(asked, s.cache, job.key, s'.cache[job.key]);
    }
    JobPut(asked, s, j, s'.jobs[j]);
  }

  lemma DeliverStep(asked: set<Wallet>, s: World, r: nat, s': World)
    requires Inv(asked, s) && RequestNext(s, r, Deliver, s')
    ensures Inv(asked, s')
  {
    assert RequestOk(asked, s.jobs, s.requests[r]) && JobOk(asked, s.jobs[s.requests[r].job]);
    RequestPut(asked, s, r, s'.requests[r]);
  }

  /** The step asks about no wallet record outside this set. */
  predicate AsksWithin(step: Step, asked: set<Wallet>) {
    step.OfRequest? && (step.request.AskFull? || step.request.AskList?) ==> step.request.wallet in asked
  }

  lemma StepInv(asked: set<Wallet>, s: World, step: Step, s': World)
    requires Inv(asked, s) && Next(s, step, s') && AsksWithin(step, asked)
    ensures Inv(asked, s')
  {
    match step
    case Tick(_) =>
    case OfJob(j, act) => JobStep(asked, s, j, act, s');
    case OfRequest(r, act) => {
      match act
      case AskFull(w, j) => AskFullStep(asked, s, r, w, j, s');
      case Deliver => DeliverStep(asked, s, r, s');
      case AskList(w, peeks) => AskListStep(asked, s, r, w, peeks, s');
      case ListDone(rows) => ListDoneStep(asked, s, r, rows, s');
    }
  }

  predicate AllWithin(steps: seq<Step>, asked: set<Wallet>) {
    forall i | 0 <= i < |steps| :: AsksWithin(steps[i], asked)
  }

  /** A run of this process whose requests read these wallet records. */
  ghost predicate Possible(run: seq<World>, steps: seq<Step>, asked: set<Wallet>) {
    IsRun(run, steps) && AllWithin(steps, asked)
  }

  lemma {:induction false} RunInv(asked: set<Wallet>, run: seq<World>, steps: seq<Step>, i: nat)
    requires IsRun(run, steps) && i < |run| && AllWithin(steps, asked)
    ensures Inv(asked, run[i])
  {
    if i > 0 {
      RunInv(asked, run, steps, i - 1);
      assert StepAt(run, steps, i - 1);
      StepInv(asked, run[i - 1], steps[i - 1], run[i]);
    }
  }

  /** The wallet records the requests of a run read. */
  function Asked(steps: seq<Step>): (asked: set<Wallet>)
    ensures AllWithin(steps, asked)
  {
    set i | 0 <= i < |steps| && steps[i].OfRequest? && (steps[i].request.AskFull? || steps[i].request.AskList?) :: steps[i].request.wallet
  }

  /**
   Every request, full or list, is only ever answered about its own wallet and chains, with data fetched for the
   address of `reader`, a record of the wallet with these chains that some request read. A full request gets a
   full result for that record: one reply for each supported chain, never a list-only entry, never stored data.
   */
  lemma AnswersAreOfTheirWallet(run: seq<World>, steps: seq<Step>, i: nat, r: nat) returns (reader: Wallet)
    requires IsRun(run, steps) && i < |run| && r in run[i].requests && run[i].requests[r].Served?
    ensures var q := run[i].requests[r];
            && reader in Asked(steps) && reader.id == q.wallet.id && ChainSet(reader) == ChainSet(q.wallet)
            && FetchedFor(reader, q.value.parts)
            && (q.full ==> NothingStored(q.value) && FullEvidence(reader, q.value))
  {
    RunInv(Asked(steps), run, steps, i);
    var q := run[i].requests[r];
    assert RequestOk(Asked(steps), run[i].jobs, q);
    var key :| KeysTo(q.wallet, key) && ValueOk(Asked(steps), key, q.full, q.value);
    reader :| reader in Asked(steps) && KeysTo(reader, key) && Evidence(reader, q.full, q.value);
  }

  /** Whatever the step that answers a request serves, no stored part of it is a day old then. */
  lemma NothingServedIsADayOld(run: seq<World>, steps: seq<Step>, i: nat, r: nat)
    requires IsRun(run, steps) && i < |steps|
    requires r in run[i + 1].requests && run[i + 1].requests[r].Served?
    requires !(r in run[i].requests && run[i].requests[r].Served?)
    ensures YoungAt(run[i + 1].requests[r].value, run[i].now)
  {
    var asked := Asked(steps);
    RunInv(asked, run, steps, i);
    RunInv(asked, run, steps, i + 1);
    var s, step, s' := run[i], steps[i], run[i + 1];
    assert StepAt(run, steps, i);
    assert step.OfRequest? && step.r == r;
    match step.request
    case AskFull(w, _) => HitIs(asked, s, w, true);
    case Deliver => FullIsYoung(asked, s'.jobs, s'.requests[r], s.now);
    case AskList(w, _) => HitIs(asked, s, w, false);
    case ListDone(rows) => ListDoneStep(asked, s, r, rows, s');
  }

  lemma FullIsYoung(asked: set<Wallet>, jobs: map<JobId, Job>, q: Request, now: int)
    requires RequestOk(asked, jobs, q) && q.Served? && q.full
    ensures YoungAt(q.value, now)
  {
    var key :| KeysTo(q.wallet, key) && ValueOk(asked, key, true, q.value);
    var w :| w in asked && KeysTo(w, key) && Evidence(w, true, q.value);
  }

  /** List mode never replaces a live entry that is still in force. */
  lemma ListNeverOverwritesFull(s: World, r: nat, act: RequestAct, s': World, key: Key)
    requires RequestNext(s, r, act, s') && (act.ListDone? || act.AskList?)
    requires key in s.cache && s.now < s.cache[key].expiresAt && !s.cache[key].listOnly
    ensures key in s'.cache && s'.cache[key] == s.cache[key]
  {
  }
}
