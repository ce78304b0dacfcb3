/**
 The data behind positions answers: a full answer is, unaltered, what one fetch of this process gathered, and a
 list answer is made of replies, of what the provider's cache held, and of stored rows.
 */
module PositionsData {
  import opened Chains
  import opened WalletRecords
  import opened Wrappers
  import opened Positions

  // ---- Full answers ----

  /** A fetch under `key` that ended at this time with this value. */
  datatype Fetch = Fetch(key: Key, value: Result, at: int)

  /** The value is what these replies say about the chains of this record, and marked partial when one says less. */
  ghost predicate Reports(w: Wallet, replies: seq<Reply>, v: Result) {
    var cs := SupportedChains(w);
    && RepliesFor(w, cs, replies) && Gathered(cs, replies, v.parts, v.reasons)
    && (v.partial <==> exists i | 0 <= i < |cs| :: !Unqualified(replies[i]))
    && (!v.partial ==> |v.parts| == |cs| && forall i | 0 <= i < |cs| :: replies[i].Got? && Holds(v.parts[i], cs[i], replies[i].answer))
  }

  lemma FullReports(w: Wallet, replies: seq<Reply>)
    requires RepliesFor(w, SupportedChains(w), replies)
    ensures Reports(w, replies, FullResult(SupportedChains(w), replies))
  {
    RepliesGathered(SupportedChains(w), replies);
    UnqualifiedFullResult(SupportedChains(w), replies);
  }

  ghost predicate Makes(s: World, step: Step, x: Fetch) {
    && step.OfJob? && step.job.Finish? && step.j in s.jobs && x.at == s.now
    && x.key == s.jobs[step.j].key && KeysTo(s.jobs[step.j].wallet, x.key)
    && Reports(s.jobs[step.j].wallet, step.job.replies, x.value)
  }

  /** What an entry may live for from the end of the fetch that filled it. */
  function Lifetime(v: Result): int {
    if v.partial then 30 * 1000 else 60 * 1000
  }

  ghost predicate Fresh(full: iset<Fetch>, key: Key, e: Entry) {
    exists at :: Fetch(key, e.value, at) in full && e.expiresAt <= at + Lifetime(e.value)
  }

  ghost predicate Fetched(full: iset<Fetch>, key: Key, v: Result) {
    exists at :: Fetch(key, v, at) in full
  }

  ghost predicate FullCache(full: iset<Fetch>, cache: map<Key, Entry>) {
    forall k | k in cache && !cache[k].listOnly :: Fresh(full, k, cache[k])
  }

  ghost predicate FullJobs(full: iset<Fetch>, jobs: map<JobId, Job>) {
    forall j | j in jobs && jobs[j].stage.Finished? :: Fetched(full, jobs[j].key, jobs[j].stage.value)
  }

  ghost predicate FullRequest(full: iset<Fetch>, q: Request) {
    q.Served? && q.full ==> Fetched(full, KeyOf(q.wallet), q.value)
  }

  ghost predicate FullData(full: iset<Fetch>, s: World) {
    FullCache(full, s.cache) && FullJobs(full, s.jobs) && forall r | r in s.requests :: FullRequest(full, s.requests[r])
  }

  lemma FullHit(full: iset<Fetch>, s: World, key: Key)
    requires FullCache(full, s.cache) && Lookup(s, key, false).Some?
    ensures Fetched(full, key, Lookup(s, key, false).value)
  {
    assert Fresh(full, key, s.cache[key]);
  }

  lemma FullPut(full: iset<Fetch>, s: World, r: nat, q: Request, s': World)
    requires FullData(full, s) && FullRequest(full, q) && FullCache(full, s'.cache) && FullJobs(full, s'.jobs)
    requires s'.requests == s.requests[r := q]
    ensures FullData(full, s')
  {
  }

  lemma FullAsked(full: iset<Fetch>, s: World, r: nat, w: Wallet, j: JobId, s': World)
    requires FullData(full, s) && RequestNext(s, r, AskFull(w, j), s')
    ensures FullData(full, s')
  {
    if SupportedChains(w) == [] {
      FullPut(full, s, r, Failed, s');
    } else if Lookup(s, KeyOf(w), false).Some? {
      FullHit(full, s, KeyOf(w));
      FullPut(full, s, r, Served(true, w, Lookup(s, KeyOf(w), false).value), s');
    } else {
      FullPut(full, s, r, Awaiting(w, if KeyOf(w) in s.inFlight then s.inFlight[KeyOf(w)] else j), s');
    }
  }

  lemma FullDelivered(full: iset<Fetch>, asked: set<Wallet>, s: World, r: nat, s': World)
    requires FullData(full, s) && Inv(asked, s) && RequestNext(s, r, Deliver, s')
    ensures FullData(full, s')
  {
    var q := s.requests[r];
    assert RequestOk(asked, s.jobs, q);
    FullPut(full, s, r, if s.jobs[q.job].stage.Finished? then Served(true, q.wallet, s.jobs[q.job].stage.value) else Failed, s');
  }

  lemma FullListAsked(full: iset<Fetch>, s: World, r: nat, w: Wallet, peeks: seq<Option<ChainPositions>>, s': World)
    requires FullData(full, s) && RequestNext(s, r, AskList(w, peeks), s')
    ensures FullData(full, s')
  {
    FullPut(full, s, r, s'.requests[r], s');
  }

  lemma FullListDone(full: iset<Fetch>, s: World, r: nat, rows: map<Chain, Part>, s': World)
    requires FullData(full, s) && RequestNext(s, r, ListDone(rows), s')
    ensures FullData(full, s')
  {
    FullPut(full, s, r, s'.requests[r], s');
  }

  lemma FinishMakes(asked: set<Wallet>, s: World, j: JobId, replies: seq<Reply>, s': World)
    requires Inv(asked, s) && JobNext(s, j, Finish(replies), s')
    ensures Makes(s, OfJob(j, Finish(replies)), Fetch(s.jobs[j].key, FullResult(SupportedChains(s.jobs[j].wallet), replies), s.now))
  {
    assert JobOk(asked, s.jobs[j]);
    FullReports(s.jobs[j].wallet, replies);
  }

  lemma FullFinished(full: iset<Fetch>, s: World, j: JobId, replies: seq<Reply>, s': World)
    requires FullData(full, s) && JobNext(s, j, Finish(replies), s')
    requires Fetch(s.jobs[j].key, FullResult(SupportedChains(s.jobs[j].wallet), replies), s.now) in full
    ensures FullData(full, s')
  {
    FetchPut(full, s, j, FullResult(SupportedChains(s.jobs[j].wallet), replies), s');
  }

  lemma FetchPut(full: iset<Fetch>, s: World, j: JobId, v: Result, s': World)
    requires FullData(full, s) && j in s.jobs && Fetch(s.jobs[j].key, v, s.now) in full
    requires s'.cache == Stored(s, s.jobs[j].key, v, false, None) && s'.jobs == s.jobs[j := s.jobs[j].(stage := Finished(v))]
    requires s'.requests == s.requests
    ensures FullData(full, s')
  {
    assert Fresh(full, s.jobs[j].key, s'.cache[s.jobs[j].key]) && Fetched(full, s.jobs[j].key, v);
  }

  lemma FullStep(full: iset<Fetch>, asked: set<Wallet>, s: World, step: Step, s': World)
    requires FullData(full, s) && Inv(asked, s) && Next(s, step, s') && forall x | Makes(s, step, x) :: x in full
    ensures FullData(full, s')
  {
    match step
    case Tick(_) =>
    case OfRequest(r, act) => {
      match act
      case AskFull(w, j) => FullAsked(full, s, r, w, j, s');
      case Deliver => FullDelivered(full, asked, s, r, s');
      case AskList(w, peeks) => FullListAsked(full, s, r, w, peeks, s');
      case ListDone(rows) => FullListDone(full, s, r, rows, s');
    }
    case OfJob(j, act) => if act.Finish? {
      FinishMakes(asked, s, j, act.replies, s');
      FullFinished(full, s, j, act.replies, s');
    }
  }

  ghost predicate MakesAt(run: seq<World>, steps: seq<Step>, j: nat, x: Fetch)
    requires j < |steps| < |run|
  {
    Makes(run[j], steps[j], x)
  }

  ghost predicate MadeBefore(run: seq<World>, steps: seq<Step>, n: nat, x: Fetch)
    requires n <= |steps| < |run|
  {
    exists j: nat | j < n :: MakesAt(run, steps, j, x)
  }

  ghost function Made(run: seq<World>, steps: seq<Step>, n: nat): iset<Fetch>
    requires n <= |steps| < |run|
  {
    iset x | MadeBefore(run, steps, n, x)
  }

  lemma {:induction false} RunFull(run: seq<World>, steps: seq<Step>, n: nat, i: nat)
    requires IsRun(run, steps) && i <= n <= |steps|
    ensures FullData(Made(run, steps, n), run[i])
    decreases i
  {
    if i > 0 {
      RunFull(run, steps, n, i - 1);
      RunInv(Asked(steps), run, steps, i - 1);
      assert StepAt(run, steps, i - 1);
      forall x | Makes(run[i - 1], steps[i - 1], x) ensures x in Made(run, steps, n) {
        assert MakesAt(run, steps, i - 1, x);
      }
      FullStep(Made(run, steps, n), Asked(steps), run[i - 1], steps[i - 1], run[i]);
    }
  }

  /** Every full answer is, as it stands, what the replies of one earlier fetch for the wallet and its chains say. */
  lemma FullAnswersWereFetched(run: seq<World>, steps: seq<Step>, i: nat, r: nat) returns (j: nat, w: Wallet)
    requires IsRun(run, steps) && i < |run| && r in run[i].requests && run[i].requests[r].Served? && run[i].requests[r].full
    ensures j < i && steps[j].OfJob? && steps[j].job.Finish? && steps[j].j in run[j].jobs && w == run[j].jobs[steps[j].j].wallet
    ensures w.id == run[i].requests[r].wallet.id && ChainSet(w) == ChainSet(run[i].requests[r].wallet)
    ensures Reports(w, steps[j].job.replies, run[i].requests[r].value)
  {
    RunFull(run, steps, i, i);
    var q := run[i].requests[r];
    assert FullRequest(Made(run, steps, i), q);
    var at :| Fetch(KeyOf(q.wallet), q.value, at) in Made(run, steps, i);
    j :| j < i && MakesAt(run, steps, j, Fetch(KeyOf(q.wallet), q.value, at));
    w := run[j].jobs[steps[j].j].wallet;
  }

  /** The j-th step ends a fetch for this wallet and chain set, and its replies say this. */
  ghost predicate ReportedAt(run: seq<World>, steps: seq<Step>, j: nat, w: Wallet, v: Result)
    requires j < |steps| < |run|
  {
    && steps[j].OfJob? && steps[j].job.Finish? && steps[j].j in run[j].jobs && KeysTo(run[j].jobs[steps[j].j].wallet, KeyOf(w))
    && Reports(run[j].jobs[steps[j].j].wallet, steps[j].job.replies, v)
  }

  ghost predicate Reported(run: seq<World>, steps: seq<Step>, i: nat, w: Wallet, v: Result)
    requires i <= |steps| < |run|
  {
    exists j: nat | j < i :: ReportedAt(run, steps, j, w, v)
  }

  lemma FullAnswersWereReported(run: seq<World>, steps: seq<Step>, i: nat, r: nat)
    requires IsRun(run, steps) && i < |run| && r in run[i].requests && run[i].requests[r].Served? && run[i].requests[r].full
    ensures Reported(run, steps, i, run[i].requests[r].wallet, run[i].requests[r].value)
  {
    var j, w := FullAnswersWereFetched(run, steps, i, r);
    assert ReportedAt(run, steps, j, run[i].requests[r].wallet, run[i].requests[r].value);
  }

  /** And a full entry of the cache ends a minute after its fetch at the latest, half a minute if it is partial. */
  lemma FullEntriesAreRecent(run: seq<World>, steps: seq<Step>, i: nat, key: Key) returns (j: nat)
    requires IsRun(run, steps) && i < |run| && key in run[i].cache && !run[i].cache[key].listOnly
    ensures j < i && Makes(run[j], steps[j], Fetch(key, run[i].cache[key].value, run[j].now))
    ensures run[i].cache[key].expiresAt <= run[j].now + if run[i].cache[key].value.partial then 30 * 1000 else 60 * 1000
  {
    RunFull(run, steps, i, i);
    var e := run[i].cache[key];
    assert Fresh(Made(run, steps, i), key, e);
    var at :| Fetch(key, e.value, at) in Made(run, steps, i) && e.expiresAt <= at + Lifetime(e.value);
    j :| j < i && MakesAt(run, steps, j, Fetch(key, e.value, at));
  }

  // ---- Every part of every answer ----

  predicate InReplies(replies: seq<Reply>, part: Part) {
    exists m | 0 <= m < |replies| :: replies[m].Got? && Holds(part, part.chain, replies[m].answer)
  }

  predicate InPeeks(peeks: seq<Option<ChainPositions>>, part: Part) {
    exists m | 0 <= m < |peeks| :: peeks[m].Some? && Holds(part, part.chain, peeks[m].value)
  }

  /** The step brings this part in: a reply, an answer the provider's cache held, or a stored row. */
  predicate Gives(step: Step, part: Part) {
    match step
    case OfJob(_, Finish(replies)) => InReplies(replies, part)
    case OfRequest(_, AskList(_, peeks)) => InPeeks(peeks, part)
    case OfRequest(_, ListDone(rows)) => part.chain in rows && rows[part.chain] == part
    case _ => false
  }

  ghost predicate AllIn(given: iset<Part>, parts: seq<Part>) {
    forall k | 0 <= k < |parts| :: parts[k] in given
  }

  ghost predicate RequestFrom(given: iset<Part>, q: Request) {
    match q
    case Loading(_, peeked, _, _) => AllIn(given, peeked)
    case Served(_, _, v) => AllIn(given, v.parts)
    case _ => true
  }

  ghost predicate CacheFrom(given: iset<Part>, cache: map<Key, Entry>) {
    forall k | k in cache :: AllIn(given, cache[k].value.parts)
  }

  ghost predicate JobFrom(given: iset<Part>, job: Job) {
    job.stage.Finished? ==> AllIn(given, job.stage.value.parts)
  }

  ghost predicate PartsData(given: iset<Part>, s: World) {
    && CacheFrom(given, s.cache) && (forall j | j in s.jobs :: JobFrom(given, s.jobs[j]))
    && (forall r | r in s.requests :: RequestFrom(given, s.requests[r]))
  }

  lemma {:induction false} PeekedGiven(cs: seq<Chain>, peeks: seq<Option<ChainPositions>>, all: seq<Option<ChainPositions>>)
    requires |cs| == |peeks| && peeks <= all
    ensures forall k | 0 <= k < |Peeked(cs, peeks)| :: InPeeks(all, Peeked(cs, peeks)[k])
    decreases |cs|
  {
    if cs != [] {
      var n := |cs| - 1;
      PeekedGiven(cs[..n], peeks[..n], all);
      if peeks[n].Some? { assert all[n].Some? && Holds(PartFrom(cs[n], peeks[n].value), cs[n], all[n].value); }
    }
  }

  lemma {:induction false} FreshGiven(rows: map<Chain, Part>, missing: seq<Chain>, now: int)
    requires forall c | c in rows :: rows[c].chain == c
    ensures forall k | 0 <= k < |FreshParts(rows, missing, now)| ::
              FreshParts(rows, missing, now)[k].chain in rows && rows[FreshParts(rows, missing, now)[k].chain] == FreshParts(rows, missing, now)[k]
    decreases |missing|
  {
    if missing != [] { FreshGiven(rows, missing[..|missing| - 1], now); }
  }

  lemma GatheredGiven(cs: seq<Chain>, replies: seq<Reply>, k: nat)
    requires |cs| == |replies| && k < |PartsOf(cs, replies)|
    ensures InReplies(replies, PartsOf(cs, replies)[k])
  {
    RepliesGathered(cs, replies);
    assert Answered(cs, replies, PartsOf(cs, replies)[k]);
  }

  lemma AllOfBoth(given: iset<Part>, a: seq<Part>, b: seq<Part>)
    requires AllIn(given, a) && AllIn(given, b)
    ensures AllIn(given, a + b)
  {
  }

  lemma PartsPut(given: iset<Part>, s: World, r: nat, q: Request, s': World)
    requires PartsData(given, s) && RequestFrom(given, q) && CacheFrom(given, s'.cache)
    requires forall j | j in s'.jobs :: JobFrom(given, s'.jobs[j])
    requires s'.requests == s.requests[r := q]
    ensures PartsData(given, s')
  {
  }

  lemma ListGiven(given: iset<Part>, s: World, r: nat, rows: map<Chain, Part>, s': World)
    requires PartsData(given, s) && RequestNext(s, r, ListDone(rows), s') && forall p | Gives(OfRequest(r, ListDone(rows)), p) :: p in given
    ensures PartsData(given, s')
  {
    var q := s.requests[r];
    assert RequestFrom(given, q);
    FreshGiven(rows, q.missing, s.now);
    var more := FreshParts(rows, q.missing, s.now);
    forall k | 0 <= k < |more| ensures more[k] in given {
      assert Gives(OfRequest(r, ListDone(rows)), more[k]);
    }
    AllOfBoth(given, q.peeked, more);
    PartsPut(given, s, r, s'.requests[r], s');
  }

  lemma AskListGiven(given: iset<Part>, s: World, r: nat, w: Wallet, peeks: seq<Option<ChainPositions>>, s': World)
    requires PartsData(given, s) && RequestNext(s, r, AskList(w, peeks), s') && forall p | Gives(OfRequest(r, AskList(w, peeks)), p) :: p in given
    ensures PartsData(given, s')
  {
    PeekedGiven(SupportedChains(w), peeks, peeks);
    var peeked := Peeked(SupportedChains(w), peeks);
    forall k | 0 <= k < |peeked| ensures peeked[k] in given {
      assert Gives(OfRequest(r, AskList(w, peeks)), peeked[k]);
    }
    PartsPut(given, s, r, s'.requests[r], s');
  }

  lemma AskFullGiven(given: iset<Part>, s: World, r: nat, w: Wallet, j: JobId, s': World)
    requires PartsData(given, s) && RequestNext(s, r, AskFull(w, j), s')
    ensures PartsData(given, s')
  {
    var hit := Lookup(s, KeyOf(w), false);
    PartsPut(given, s, r, if SupportedChains(w) == [] then Failed else if hit.Some? then Served(true, w, hit.value)
                          else Awaiting(w, if KeyOf(w) in s.inFlight then s.inFlight[KeyOf(w)] else j), s');
  }

  lemma DeliverGiven(given: iset<Part>, s: World, r: nat, s': World)
    requires PartsData(given, s) && RequestNext(s, r, Deliver, s')
    ensures PartsData(given, s')
  {
    assert JobFrom(given, s.jobs[s.requests[r].job]);
    PartsPut(given, s, r, s'.requests[r], s');
  }

  lemma FinishGiven(given: iset<Part>, s: World, j: JobId, replies: seq<Reply>, s': World)
    requires PartsData(given, s) && JobNext(s, j, Finish(replies), s') && forall p | Gives(OfJob(j, Finish(replies)), p) :: p in given
    ensures PartsData(given, s')
  {
    var cs := SupportedChains(s.jobs[j].wallet);
    forall k | 0 <= k < |PartsOf(cs, replies)| ensures PartsOf(cs, replies)[k] in given {
      GatheredGiven(cs, replies, k);
      assert Gives(OfJob(j, Finish(replies)), PartsOf(cs, replies)[k]);
    }
    JobGiven(given, s, j, FullResult(cs, replies), s');
  }

  lemma JobGiven(given: iset<Part>, s: World, j: JobId, v: Result, s': World)
    requires PartsData(given, s) && j in s.jobs && AllIn(given, v.parts)
    requires s'.cache == Stored(s, s.jobs[j].key, v, false, None) && s'.jobs == s.jobs[j := s.jobs[j].(stage := Finished(v))]
    requires s'.requests == s.requests
    ensures PartsData(given, s')
  {
  }

  lemma PartsStep(given: iset<Part>, s: World, step: Step, s': World)
    requires PartsData(given, s) && Next(s, step, s') && forall p | Gives(step, p) :: p in given
    ensures PartsData(given, s')
  {
    match step
    case Tick(_) =>
    case OfRequest(r, act) => {
      match act
      case AskFull(w, j) => AskFullGiven(given, s, r, w, j, s');
      case Deliver => DeliverGiven(given, s, r, s');
      case AskList(w, peeks) => AskListGiven(given, s, r, w, peeks, s');
      case ListDone(rows) => ListGiven(given, s, r, rows, s');
    }
    case OfJob(j, act) => if act.Finish? { FinishGiven(given, s, j, act.replies, s'); }
  }

  predicate GivenBefore(steps: seq<Step>, n: nat, part: Part)
    requires n <= |steps|
  {
    exists j | 0 <= j < n :: Gives(steps[j], part)
  }

  ghost function Given(steps: seq<Step>, n: nat): iset<Part>
    requires n <= |steps|
  {
    iset p | GivenBefore(steps, n, p)
  }

  lemma {:induction false} RunParts(run: seq<World>, steps: seq<Step>, n: nat, i: nat)
    requires IsRun(run, steps) && i <= n <= |steps|
    ensures PartsData(Given(steps, n), run[i])
    decreases i
  {
    if i > 0 {
      RunParts(run, steps, n, i - 1);
      assert StepAt(run, steps, i - 1);
      forall p | Gives(steps[i - 1], p) ensures p in Given(steps, n) {
        assert GivenBefore(steps, n, p);
      }
      PartsStep(Given(steps, n), run[i - 1], steps[i - 1], run[i]);
    }
  }

  /** No part of any answer is altered on its way: an earlier step brought it in as it is. */
  lemma EveryPartIsGenuine(run: seq<World>, steps: seq<Step>, i: nat, r: nat, k: nat) returns (j: nat)
    requires IsRun(run, steps) && i < |run| && r in run[i].requests && run[i].requests[r].Served? && k < |run[i].requests[r].value.parts|
    ensures j < i && Gives(steps[j], run[i].requests[r].value.parts[k])
  {
    RunParts(run, steps, i, i);
    assert RequestFrom(Given(steps, i), run[i].requests[r]);
    assert GivenBefore(steps, i, run[i].requests[r].value.parts[k]);
    j :| 0 <= j < i && Gives(steps[j], run[i].requests[r].value.parts[k]);
  }

  // ---- List answers leave nothing known out ----

  /** A stored row of the chain younger than a day. */
  predicate Young(rows: map<Chain, Part>, c: Chain, now: int) {
    c in rows && rows[c].storedAt.Some? && now < rows[c].storedAt.value + 24 * 60 * 60 * 1000
  }

  /** What is known of a chain is listed, and what is missing is given as a reason. */
  ghost predicate ChainListed(c: Chain, peek: Option<ChainPositions>, rows: map<Chain, Part>, now: int, v: Result) {
    match peek
    case Some(a) => Listed(v.parts, c, a) && (a.partial ==> forall x | x in a.reasons :: x in v.reasons)
    case None => if Young(rows, c, now) then rows[c] in v.parts && PersistedCache(c) in v.reasons else CacheMiss(c) in v.reasons
  }

  predicate WholePeek(peek: Option<ChainPositions>) {
    peek.Some? && (peek.value.partial ==> peek.value.reasons == [])
  }

  ghost predicate ListsAll(cs: seq<Chain>, peeks: seq<Option<ChainPositions>>, rows: map<Chain, Part>, now: int, v: Result) {
    && |cs| == |peeks| && (forall m | 0 <= m < |cs| :: ChainListed(cs[m], peeks[m], rows, now, v))
    && (v.partial <==> exists m | 0 <= m < |peeks| :: !WholePeek(peeks[m]))
  }

  lemma {:induction false} PeeksListed(cs: seq<Chain>, peeks: seq<Option<ChainPositions>>)
    requires |cs| == |peeks|
    ensures forall m | 0 <= m < |cs| && peeks[m].Some? :: Listed(Peeked(cs, peeks), cs[m], peeks[m].value)
    decreases |cs|
  {
    if cs != [] {
      var n := |cs| - 1;
      var front := Peeked(cs[..n], peeks[..n]);
      var added := if peeks[n].Some? then [PartFrom(cs[n], peeks[n].value)] else [];
      PeeksListed(cs[..n], peeks[..n]);
      assert Peeked(cs, peeks) == front + added;
      forall m | 0 <= m < |cs| && peeks[m].Some? ensures Listed(Peeked(cs, peeks), cs[m], peeks[m].value) {
        if m < n {
          assert peeks[..n][m].Some? && Listed(front, cs[..n][m], peeks[..n][m].value);
          ListedGrows(front, added, cs[m], peeks[m].value);
        } else {
          assert Holds((front + added)[|front|], cs[n], peeks[n].value);
        }
      }
    }
  }

  lemma {:induction false} PeeksExplained(peeks: seq<Option<ChainPositions>>, m: nat, x: Reason)
    requires m < |peeks| && peeks[m].Some? && peeks[m].value.partial && x in peeks[m].value.reasons
    ensures x in PeekReasons(peeks)
    decreases |peeks|
  {
    if m < |peeks| - 1 { PeeksExplained(peeks[..|peeks| - 1], m, x); }
  }

  /** The provider's cache knows the whole of it, or nothing at all. */
  predicate NoCaveat(peek: Option<ChainPositions>) {
    peek.Some? && peek.value.partial ==> peek.value.reasons == []
  }

  predicate NoCaveats(peeks: seq<Option<ChainPositions>>) {
    forall m | 0 <= m < |peeks| :: NoCaveat(peeks[m])
  }

  lemma NoCaveatsSnoc(peeks: seq<Option<ChainPositions>>)
    requires peeks != []
    ensures NoCaveats(peeks) <==> NoCaveats(peeks[..|peeks| - 1]) && NoCaveat(peeks[|peeks| - 1])
  {
    var n := |peeks| - 1;
    if NoCaveats(peeks[..n]) && NoCaveat(peeks[n]) {
      forall m | 0 <= m < |peeks| ensures NoCaveat(peeks[m]) {
        if m < n { assert NoCaveat(peeks[..n][m]); }
      }
    }
  }

  lemma {:induction false} NoPeekReasons(peeks: seq<Option<ChainPositions>>)
    ensures PeekReasons(peeks) == [] <==> NoCaveats(peeks)
    decreases |peeks|
  {
    if peeks != [] {
      NoPeekReasons(peeks[..|peeks| - 1]);
      NoCaveatsSnoc(peeks);
    }
  }

  lemma {:induction false} MissingAre(cs: seq<Chain>, peeks: seq<Option<ChainPositions>>)
    requires |cs| == |peeks|
    ensures forall m | 0 <= m < |cs| && peeks[m].None? :: cs[m] in Missing(cs, peeks)
    ensures Missing(cs, peeks) == [] <==> forall m | 0 <= m < |cs| :: peeks[m].Some?
    decreases |cs|
  {
    if cs != [] { MissingAre(cs[..|cs| - 1], peeks[..|cs| - 1]); }
  }

  lemma {:induction false} MissingListed(rows: map<Chain, Part>, missing: seq<Chain>, now: int, c: Chain)
    requires c in missing
    ensures if Young(rows, c, now) then rows[c] in FreshParts(rows, missing, now) && PersistedCache(c) in MissingReasons(rows, missing, now)
            else CacheMiss(c) in MissingReasons(rows, missing, now)
    decreases |missing|
  {
    if c != missing[|missing| - 1] { MissingListed(rows, missing[..|missing| - 1], now, c); }
  }

  lemma {:induction false} MissingExplained(rows: map<Chain, Part>, missing: seq<Chain>, now: int)
    ensures MissingReasons(rows, missing, now) == [] <==> missing == []
    decreases |missing|
  {
  }

  lemma ChainIsListed(cs: seq<Chain>, peeks: seq<Option<ChainPositions>>, rows: map<Chain, Part>, now: int, v: Result, m: nat)
    requires m < |cs| == |peeks| && v.parts == Peeked(cs, peeks) + FreshParts(rows, Missing(cs, peeks), now)
    requires v.reasons == PeekReasons(peeks) + MissingReasons(rows, Missing(cs, peeks), now)
    ensures ChainListed(cs[m], peeks[m], rows, now, v)
  {
    if peeks[m].Some? {
      PeeksListed(cs, peeks);
      forall x | peeks[m].value.partial && x in peeks[m].value.reasons ensures x in PeekReasons(peeks) {
        PeeksExplained(peeks, m, x);
      }
      ListedGrows(Peeked(cs, peeks), FreshParts(rows, Missing(cs, peeks), now), cs[m], peeks[m].value);
    } else {
      MissingAre(cs, peeks);
      MissingListed(rows, Missing(cs, peeks), now, cs[m]);
    }
  }

  lemma ListPartial(cs: seq<Chain>, peeks: seq<Option<ChainPositions>>, rows: map<Chain, Part>, now: int)
    requires |cs| == |peeks|
    ensures PeekReasons(peeks) + MissingReasons(rows, Missing(cs, peeks), now) == [] <==> forall m | 0 <= m < |peeks| :: WholePeek(peeks[m])
  {
    NoPeekReasons(peeks);
    MissingAre(cs, peeks);
    if forall m | 0 <= m < |peeks| :: WholePeek(peeks[m]) {
      forall m | 0 <= m < |peeks| ensures NoCaveat(peeks[m]) && peeks[m].Some? { assert WholePeek(peeks[m]); }
    }
    if PeekReasons(peeks) == [] && Missing(cs, peeks) == [] {
      forall m | 0 <= m < |peeks| ensures WholePeek(peeks[m]) { assert NoCaveat(peeks[m]); }
    }
    MissingExplained(rows, Missing(cs, peeks), now);
  }

  /** What a list request computes from what it peeked at and loaded. */
  lemma ListIsComplete(w: Wallet, peeks: seq<Option<ChainPositions>>, rows: map<Chain, Part>, now: int)
    requires |peeks| == |SupportedChains(w)|
    ensures var cs := SupportedChains(w);
            ListsAll(cs, peeks, rows, now, ListResult(Loading(w, Peeked(cs, peeks), PeekReasons(peeks), Missing(cs, peeks)), rows, now))
  {
    var cs := SupportedChains(w);
    var v := ListResult(Loading(w, Peeked(cs, peeks), PeekReasons(peeks), Missing(cs, peeks)), rows, now);
    ListPartial(cs, peeks, rows, now);
    forall m | 0 <= m < |cs| ensures ChainListed(cs[m], peeks[m], rows, now, v) {
      ChainIsListed(cs, peeks, rows, now, v, m);
    }
  }

  /** The step in which a loading request peeked at the provider's cache. */
  predicate Peeks(step: Step, r: nat, q: Request) {
    && step.OfRequest? && step.r == r && step.request.AskList? && q.Loading? && step.request.wallet == q.wallet
    && |step.request.peeks| == |SupportedChains(q.wallet)|
    && var cs := SupportedChains(q.wallet);
    && q == Loading(q.wallet, Peeked(cs, step.request.peeks), PeekReasons(step.request.peeks), Missing(cs, step.request.peeks))
  }

  lemma {:induction false} LoadingPeeked(run: seq<World>, steps: seq<Step>, i: nat, r: nat) returns (j: nat)
    requires IsRun(run, steps) && i < |run| && r in run[i].requests && run[i].requests[r].Loading?
    ensures j < i && Peeks(steps[j], r, run[i].requests[r])
    decreases i
  {
    assert StepAt(run, steps, i - 1);
    if r in run[i - 1].requests && run[i - 1].requests[r] == run[i].requests[r] {
      j := LoadingPeeked(run, steps, i - 1, r);
    } else {
      j := i - 1;
    }
  }

  /** A list request that loads lists everything its peek and its load found, and says what it did not find. */
  lemma ListAnswersAreComplete(run: seq<World>, steps: seq<Step>, i: nat, r: nat) returns (j: nat)
    requires IsRun(run, steps) && i < |steps| && steps[i].OfRequest? && steps[i].r == r && steps[i].request.ListDone?
    requires r in run[i].requests && run[i].requests[r].Loading? && Lookup(run[i], KeyOf(run[i].requests[r].wallet), true).None?
    requires r in run[i + 1].requests && run[i + 1].requests[r].Served?
    ensures j < i && steps[j].OfRequest? && steps[j].r == r && steps[j].request.AskList?
    ensures ListsAll(SupportedChains(steps[j].request.wallet), steps[j].request.peeks, steps[i].request.rows, run[i].now, run[i + 1].requests[r].value)
  {
    assert StepAt(run, steps, i);
    j := LoadingPeeked(run, steps, i, r);
    ListIsComplete(steps[j].request.wallet, steps[j].request.peeks, steps[i].request.rows, run[i].now);
  }
}
