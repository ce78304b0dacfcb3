/**
 A poll is a stretch of the ingestion machine: what `pollOnce` does to the tables and the cursor is what some steps of
 the machine do, so everything proved of the machine's runs holds of any number of polls.
 */
module TrackerReplay {
  import opened Tracker
  import opened TrackerProtocol
  import opened WalletEvents
  import opened Wrappers

  function Last(run: seq<World>): World
    requires run != []
  {
    run[|run| - 1]
  }

  /** The machine has these tables, and the next id is above every id it ever used. */
  ghost predicate Mirrors(s: World, x: Snapshot) {
    s.db == x.db && ValidDb(x.db, x.nextId, x.decided) && forall id | id in s.decided :: id < x.nextId
  }

  /** Only the tables, the decisions and the poll in progress may differ, and the wallets do not. */
  predicate SameBut(s: World, s': World) {
    s' == s.(db := s'.db, decided := s'.decided, poll := s'.poll) && s'.db.wallets == s.db.wallets
  }

  lemma OneStepMore(run: seq<World>, steps: seq<Step>, step: Step, s': World)
    requires IsRun(run, steps) && Next(Last(run), step, s')
    ensures IsRun(run + [s'], steps + [step])
  {
    forall i | 0 <= i < |steps| + 1 ensures Next((run + [s'])[i], (steps + [step])[i], (run + [s'])[i + 1]) {
      if i < |steps| { assert Next(run[i], steps[i], run[i + 1]); }
    }
  }

  // ---- The events of one batch ----

  ghost function WithEvent(s: World, x: Snapshot, e: Event, enqueue: bool, poll: Option<Poll>): World {
    s.(db := Inserted(s.db, e, x.nextId, x.nextId, enqueue), decided := DecidedAfter(s.db, s.decided, e, x.nextId, enqueue), poll := poll)
  }

  lemma MirrorsNext(s: World, x: Snapshot, e: Event, enqueue: bool, poll: Option<Poll>)
    requires Mirrors(s, x) && e.wallet in s.db.wallets
    ensures Inserts(s, e, x.nextId, x.nextId, enqueue, poll, WithEvent(s, x, e, enqueue, poll))
    ensures Mirrors(WithEvent(s, x, e, enqueue, poll), AfterInsert(x, e, enqueue)) && SameBut(s, WithEvent(s, x, e, enqueue, poll))
  {
    NewIdIsFree(x.db, x.nextId);
    InsertedValid(x.db, x.nextId, x.decided, e, enqueue);
  }

  lemma InsertIsStep(s: World, x: Snapshot, p: Poll, enqueue: bool)
    requires Mirrors(s, x) && p.Inserting? && p.done < |p.events| && s.poll == Some(p) && p.events[p.done].wallet in s.db.wallets
    ensures var s' := WithEvent(s, x, p.events[p.done], enqueue, Some(p.(done := p.done + 1)));
            Next(s, InsertNext(x.nextId, x.nextId, enqueue), s') && Mirrors(s', AfterInsert(x, p.events[p.done], enqueue)) && SameBut(s, s')
  {
    MirrorsNext(s, x, p.events[p.done], enqueue, Some(p.(done := p.done + 1)));
  }

  /** Inserting the `n`-th event of a batch. */
  lemma InsertReplayed(run: seq<World>, steps: seq<Step>, x: Snapshot, p: Poll, answers: nat -> Answer, n: nat)
    returns (run': seq<World>, steps': seq<Step>)
    requires IsRun(run, steps) && p.Inserting? && 0 < n <= |p.events| && NoneFails(x.db.wallets, p.events, answers, n)
    requires Last(run).poll == Some(p.(done := n - 1)) && Last(run).db.wallets == x.db.wallets
    requires Mirrors(Last(run), AfterInserts(x, p.events, answers, n - 1))
    ensures IsRun(run', steps') && run <= run' && SameBut(Last(run), Last(run')) && Last(run').poll == Some(p.(done := n))
    ensures Mirrors(Last(run'), AfterInserts(x, p.events, answers, n))
  {
    NoneFailsInit(x.db.wallets, p.events, answers, n);
    OneInsertMore(x, p.events, answers, n - 1);
    var s, y, enqueue := Last(run), AfterInserts(x, p.events, answers, n - 1), answers(n - 1).enqueue;
    var s' := WithEvent(s, y, p.events[n - 1], enqueue, Some(p.(done := n)));
    InsertIsStep(s, y, p.(done := n - 1), enqueue);
    OneStepMore(run, steps, InsertNext(y.nextId, y.nextId, enqueue), s');
    run', steps' := run + [s'], steps + [InsertNext(y.nextId, y.nextId, enqueue)];
  }

  /** Inserting the first `n` events of a batch. */
  lemma {:induction false} InsertsReplayed(run: seq<World>, steps: seq<Step>, x: Snapshot, p: Poll, answers: nat -> Answer, n: nat)
    returns (run': seq<World>, steps': seq<Step>)
    requires IsRun(run, steps) && Mirrors(Last(run), x) && p.Inserting? && p.done == 0 && Last(run).poll == Some(p)
    requires n <= |p.events| && NoneFails(x.db.wallets, p.events, answers, n)
    ensures IsRun(run', steps') && run <= run' && SameBut(Last(run), Last(run')) && Last(run').poll == Some(p.(done := n))
    ensures Mirrors(Last(run'), AfterInserts(x, p.events, answers, n))
    decreases n
  {
    if n == 0 {
      run', steps' := run, steps;
    } else {
      NoneFailsInit(x.db.wallets, p.events, answers, n);
      var run1, steps1 := InsertsReplayed(run, steps, x, p, answers, n - 1);
      run', steps' := InsertReplayed(run1, steps1, x, p, answers, n);
    }
  }

  lemma {:induction false} CommittingCommits(wallets: set<WalletId>, list: seq<Event>, answers: nat -> Answer, i: nat)
    requires i <= |list| && NoneFails(wallets, list, answers, i)
    ensures NoneFails(wallets, list, answers, Committing(wallets, list, answers, i))
    ensures NoneFails(wallets, list, answers, |list|) <==> Committing(wallets, list, answers, i) == |list|
    decreases |list| - i
  {
    if i < |list| && Goes(wallets, list, answers, i) {
      NoneFailsSnoc(wallets, list, answers, i);
      CommittingCommits(wallets, list, answers, i + 1);
    }
  }

  // ---- One batch ----

  /** What trying the batch that starts at `from` does beside the tables. */
  predicate BatchDone(s: World, s': World, from: nat, safe: nat, events: seq<Event>, clean: bool)
    requires from <= safe && s.config.batchSize > 0
  {
    var to := BatchEnd(s.config, Between(from, safe));
    && s'.config == s.config && s'.knownWallets == s.knownWallets && s'.db.wallets == s.db.wallets
    && (if clean
        then s'.cursor == Some(to) && s'.batches == s.batches + [Batch(from, to, events)]
             && s'.poll == if to == safe then None else Some(Between(to + 1, safe))
        else s'.cursor == s.cursor && s'.batches == s.batches && s'.poll == None)
  }

  lemma FailureReplayed(run: seq<World>, steps: seq<Step>) returns (run': seq<World>, steps': seq<Step>)
    requires IsRun(run, steps) && Last(run).poll.Some?
    ensures IsRun(run', steps') && run <= run' && Last(run') == Last(run).(poll := None)
  {
    OneStepMore(run, steps, BatchFails, Last(run).(poll := None));
    run', steps' := run + [Last(run).(poll := None)], steps + [BatchFails];
  }

  lemma FetchReplayed(run: seq<World>, steps: seq<Step>, from: nat, safe: nat, events: seq<Event>) returns (run': seq<World>, steps': seq<Step>)
    requires IsRun(run, steps) && Last(run).poll == Some(Between(from, safe)) && from <= safe
    ensures IsRun(run', steps') && run <= run' && Last(run') == Last(run).(poll := Some(Poll.Inserting(from, safe, events, 0)))
  {
    var s' := Last(run).(poll := Some(Poll.Inserting(from, safe, events, 0)));
    OneStepMore(run, steps, Fetch(events), s');
    run', steps' := run + [s'], steps + [Fetch(events)];
  }

  lemma SaveReplayed(run: seq<World>, steps: seq<Step>, from: nat, safe: nat, events: seq<Event>) returns (run': seq<World>, steps': seq<Step>)
    requires IsRun(run, steps) && Last(run).poll == Some(Poll.Inserting(from, safe, events, |events|)) && from <= safe && Last(run).config.batchSize > 0
    ensures IsRun(run', steps') && run <= run'
    ensures var s, to := Last(run), BatchEnd(Last(run).config, Between(from, safe));
            Last(run') == s.(cursor := Some(to), batches := s.batches + [Batch(from, to, events)],
                             poll := if to == safe then None else Some(Between(to + 1, safe)))
  {
    var s, to := Last(run), BatchEnd(Last(run).config, Between(from, safe));
    var s' := s.(cursor := Some(to), batches := s.batches + [Batch(from, to, events)], poll := if to == safe then None else Some(Between(to + 1, safe)));
    OneStepMore(run, steps, SaveCursor, s');
    run', steps' := run + [s'], steps + [SaveCursor];
  }

  /** A batch whose logs were fetched: its events go in up to the first that fails, and then the cursor moves or the poll ends. */
  lemma FetchedReplayed(run: seq<World>, steps: seq<Step>, x: Snapshot, from: nat, safe: nat, events: seq<Event>, answers: nat -> Answer, saves: bool)
    returns (run': seq<World>, steps': seq<Step>)
    requires IsRun(run, steps) && Mirrors(Last(run), x) && Last(run).poll == Some(Between(from, safe)) && from <= safe && Last(run).config.batchSize > 0
    ensures IsRun(run', steps') && run <= run'
    ensures Mirrors(Last(run'), AfterInserts(x, events, answers, Committing(x.db.wallets, events, answers, 0)))
    ensures BatchDone(Last(run), Last(run'), from, safe, events, saves && NoneFails(x.db.wallets, events, answers, |events|))
  {
    var n := Committing(x.db.wallets, events, answers, 0);
    CommittingCommits(x.db.wallets, events, answers, 0);
    run', steps' := FetchReplayed(run, steps, from, safe, events);
    run', steps' := InsertsReplayed(run', steps', x, Poll.Inserting(from, safe, events, 0), answers, n);
    var s := Last(run');
    run', steps' := EndReplayed(run', steps', from, safe, events, n, saves);
    StillDone(Last(run), s, Last(run'), from, safe, events, n == |events| && saves);
  }

  lemma StillDone(s: World, s': World, s'': World, from: nat, safe: nat, events: seq<Event>, clean: bool)
    requires from <= safe && s.config.batchSize > 0 && SameBut(s, s') && BatchDone(s', s'', from, safe, events, clean)
    ensures BatchDone(s, s'', from, safe, events, clean)
  {
  }

  /** All events of a batch are in, or one failed. */
  lemma EndReplayed(run: seq<World>, steps: seq<Step>, from: nat, safe: nat, events: seq<Event>, n: nat, saves: bool)
    returns (run': seq<World>, steps': seq<Step>)
    requires IsRun(run, steps) && from <= safe && n <= |events| && Last(run).poll == Some(Poll.Inserting(from, safe, events, n)) && Last(run).config.batchSize > 0
    ensures IsRun(run', steps') && run <= run' && BatchDone(Last(run), Last(run'), from, safe, events, n == |events| && saves)
    ensures Last(run').db == Last(run).db && Last(run').decided == Last(run).decided
  {
    if n == |events| && saves {
      run', steps' := SaveReplayed(run, steps, from, safe, events);
    } else {
      run', steps' := FailureReplayed(run, steps);
    }
  }

  /** The `n`-th batch of a poll. */
  lemma BatchReplayed(run: seq<World>, steps: seq<Step>, trail: seq<Snapshot>, scripts: nat -> BatchScript, n: nat, from: nat, safe: nat, clean: bool)
    returns (run': seq<World>, steps': seq<Step>, events: seq<Event>)
    requires IsRun(run, steps) && Last(run).poll == Some(Between(from, safe)) && from <= safe && Last(run).config.batchSize > 0
    requires IsTrail(trail, scripts) && n + 1 < |trail| && Mirrors(Last(run), trail[n]) && clean == Clean(scripts(n), trail[n].db.wallets)
    ensures IsRun(run', steps') && run <= run' && Mirrors(Last(run'), trail[n + 1])
    ensures BatchDone(Last(run), Last(run'), from, safe, events, clean)
  {
    assert TriedAt(trail, scripts, n);
    var script := scripts(n);
    events := EventsOf(script);
    if script.fetches {
      run', steps' := FetchedReplayed(run, steps, trail[n].(inserted := []), from, safe, events, script.answers, script.saves);
    } else {
      run', steps' := FailureReplayed(run, steps);
    }
  }

  // ---- A whole poll ----

  /** After `n` committed batches of a poll that started from `s`. */
  predicate Midway(s: World, s': World, start: nat, safe: nat, n: nat)
    requires start < safe
  {
    var at := EndOf(start, safe, s.config.batchSize, n);
    && s'.config == s.config && s'.knownWallets == s.knownWallets && s'.db.wallets == s.db.wallets
    && s'.cursor == (if n == 0 then s.cursor else Some(at))
    && s'.poll == if at == safe then None else Some(Between(at + 1, safe))
  }

  lemma EndIsEnd(config: Config, start: nat, safe: nat, n: nat)
    requires start < safe && config.batchSize > 0 && EndOf(start, safe, config.batchSize, n) < safe
    ensures BatchEnd(config, Between(EndOf(start, safe, config.batchSize, n) + 1, safe)) == EndOf(start, safe, config.batchSize, n + 1)
  {
    NextEnd(start, safe, config.batchSize, n);
  }

  lemma EndsBelow(start: nat, safe: nat, batchSize: nat, n: nat)
    requires start < safe && EndOf(start, safe, batchSize, n) < safe && n > 0
    ensures EndOf(start, safe, batchSize, n - 1) < safe
  {
  }

  /** The poll is over, with the cursor at `after`. */
  predicate Ended(s: World, s': World, after: Option<nat>) {
    s'.config == s.config && s'.knownWallets == s.knownWallets && s'.db.wallets == s.db.wallets && s'.poll.None? && s'.cursor == after
  }

  /** One more clean batch. */
  lemma MidwayNext(s: World, s': World, s'': World, start: nat, safe: nat, n: nat, events: seq<Event>)
    requires start < safe && s.config.batchSize > 0 && Midway(s, s', start, safe, n) && EndOf(start, safe, s.config.batchSize, n) < safe
    requires BatchDone(s', s'', EndOf(start, safe, s.config.batchSize, n) + 1, safe, events, true)
    ensures Midway(s, s'', start, safe, n + 1)
  {
    EndIsEnd(s.config, start, safe, n);
  }

  /** The poll this scan belongs to has just started, with the tables the trail begins with. */
  ghost predicate Starts(s: World, x: Scan, trail: seq<Snapshot>) {
    && s.config.batchSize == x.batchSize > 0 && x.start < x.safe && s.poll == Some(Between(x.start + 1, x.safe))
    && IsTrail(trail, x.scripts) && Mirrors(s, trail[0])
  }

  /** A run whose last world is in the middle of the scan, after `n` committed batches. */
  ghost predicate Reaches(s: World, x: Scan, trail: seq<Snapshot>, n: nat, run: seq<World>, steps: seq<Step>)
    requires x.start < x.safe && n < |trail|
  {
    IsRun(run, steps) && Mirrors(Last(run), trail[n]) && Midway(s, Last(run), x.start, x.safe, n)
  }

  ghost predicate AllClean(scripts: nat -> BatchScript, wallets: set<WalletId>, n: nat) {
    forall i: nat | i < n :: Clean(scripts(i), wallets)
  }

  lemma NextBatchReplayed(s: World, x: Scan, trail: seq<Snapshot>, n: nat, clean: bool, run: seq<World>, steps: seq<Step>)
    returns (run': seq<World>, steps': seq<Step>)
    requires s.config.batchSize == x.batchSize > 0 && x.start < x.safe && IsTrail(trail, x.scripts) && n + 1 < |trail|
    requires Reaches(s, x, trail, n, run, steps) && EndOf(x.start, x.safe, x.batchSize, n) < x.safe
    requires if clean then AllClean(x.scripts, trail[n].db.wallets, n + 1) else !Clean(x.scripts(n), trail[n].db.wallets)
    ensures IsRun(run', steps') && run <= run' && Mirrors(Last(run'), trail[n + 1])
    ensures if clean then Midway(s, Last(run'), x.start, x.safe, n + 1) else Ended(s, Last(run'), Last(run).cursor)
  {
    var events;
    run', steps', events := BatchReplayed(run, steps, trail, x.scripts, n, EndOf(x.start, x.safe, x.batchSize, n) + 1, x.safe, clean);
    BatchEnds(s, Last(run), Last(run'), x.start, x.safe, n, events, clean);
  }

  lemma BatchEnds(s: World, s': World, s'': World, start: nat, safe: nat, n: nat, events: seq<Event>, clean: bool)
    requires start < safe && s.config.batchSize > 0 && Midway(s, s', start, safe, n) && EndOf(start, safe, s.config.batchSize, n) < safe
    requires BatchDone(s', s'', EndOf(start, safe, s.config.batchSize, n) + 1, safe, events, clean)
    ensures if clean then Midway(s, s'', start, safe, n + 1) else Ended(s, s'', s'.cursor)
  {
    if clean { MidwayNext(s, s', s'', start, safe, n, events); }
  }

  lemma {:induction false} CommittedReplayed(run: seq<World>, steps: seq<Step>, x: Scan, trail: seq<Snapshot>, n: nat)
    returns (run': seq<World>, steps': seq<Step>)
    requires IsRun(run, steps) && Starts(Last(run), x, trail) && n < |trail|
    requires AllClean(x.scripts, Last(run).db.wallets, n) && (n > 0 ==> EndOf(x.start, x.safe, x.batchSize, n - 1) < x.safe)
    ensures run <= run' && Reaches(Last(run), x, trail, n, run', steps')
    decreases n
  {
    if n == 0 {
      run', steps' := run, steps;
    } else {
      if n > 1 { EndsBelow(x.start, x.safe, x.batchSize, n - 1); }
      var run1, steps1 := CommittedReplayed(run, steps, x, trail, n - 1);
      run', steps' := NextBatchReplayed(Last(run), x, trail, n - 1, true, run1, steps1);
    }
  }

  /** Everything the source promises of one poll, as `PollOnce` states it. */
  ghost predicate Polled(config: Config, tracked: set<WalletId>, before: Option<nat>, after: Option<nat>, latest: Latest,
                         scripts: nat -> BatchScript, done: nat, trail: seq<Snapshot>) {
    && IsTrail(trail, scripts) && PollEnds(config, tracked, before, after, latest, done, scripts, trail[0].db.wallets)
    && Tries(config, tracked, before, latest, done, |trail| - 1)
  }

  lemma StartReplayed(run: seq<World>, steps: seq<Step>, tracked: set<WalletId>, latest: Latest) returns (run': seq<World>, steps': seq<Step>)
    requires IsRun(run, steps) && Last(run).poll.None? && tracked != {} && tracked <= Last(run).db.wallets
    requires StartingBlock(Last(run).config, Last(run).cursor, latest.fallback) < latest.poll - Last(run).config.confirmations
    ensures IsRun(run', steps') && run <= run'
    ensures Last(run') == Last(run).(poll := Some(Between(StartingBlock(Last(run).config, Last(run).cursor, latest.fallback) + 1,
                                                          latest.poll - Last(run).config.confirmations)))
  {
    var s := Last(run);
    var s' := s.(poll := Some(Between(StartingBlock(s.config, s.cursor, latest.fallback) + 1, latest.poll - s.config.confirmations)));
    OneStepMore(run, steps, StartPoll(tracked, latest), s');
    run', steps' := run + [s'], steps + [StartPoll(tracked, latest)];
  }

  /** The batches of a started poll. */
  lemma ScanReplayed(run: seq<World>, steps: seq<Step>, x: Scan, trail: seq<Snapshot>, n: nat, after: Option<nat>)
    returns (run': seq<World>, steps': seq<Step>)
    requires IsRun(run, steps) && Starts(Last(run), x, trail)
    requires StoppedAfter(n, x.start, x.safe, x.batchSize, Last(run).cursor, after, x.scripts, Last(run).db.wallets)
    requires |trail| == 1 + if EndOf(x.start, x.safe, x.batchSize, n) == x.safe then n else n + 1
    ensures IsRun(run', steps') && run <= run' && Mirrors(Last(run'), trail[|trail| - 1]) && Ended(Last(run), Last(run'), after)
  {
    run', steps' := CommittedReplayed(run, steps, x, trail, n);
    EndsGrow(x.start, x.safe, x.batchSize, n);
    if EndOf(x.start, x.safe, x.batchSize, n) < x.safe {
      run', steps' := NextBatchReplayed(Last(run), x, trail, n, false, run', steps');
    }
  }

  /** Whatever a poll does, the machine can do, from any world of a run that has the same tables and cursor. */
  lemma PollReplayed(run: seq<World>, steps: seq<Step>, tracked: set<WalletId>, after: Option<nat>, latest: Latest,
                     scripts: nat -> BatchScript, done: nat, trail: seq<Snapshot>)
    returns (run': seq<World>, steps': seq<Step>)
    requires IsRun(run, steps) && Last(run).poll.None? && Last(run).config.batchSize > 0 && tracked <= Last(run).db.wallets
    requires Polled(Last(run).config, tracked, Last(run).cursor, after, latest, scripts, done, trail) && Mirrors(Last(run), trail[0])
    ensures IsRun(run', steps') && run <= run' && Mirrors(Last(run'), trail[|trail| - 1]) && Ended(Last(run), Last(run'), after)
  {
    var s := Last(run);
    var start, safe := StartingBlock(s.config, s.cursor, latest.fallback), latest.poll - s.config.confirmations;
    if tracked == {} || safe <= start {
      run', steps' := run, steps;
    } else {
      run', steps' := StartReplayed(run, steps, tracked, latest);
      run', steps' := ScanReplayed(run', steps', Scan(start, safe, s.config.batchSize, scripts, trail[0], s.cursor), trail, done, after);
    }
  }

  // ---- Any number of polls ----

  /** What one poll finds: the active wallets, the provider's block numbers, and the batches' answers. */
  datatype Round = Round(tracked: set<WalletId>, latest: Latest, scripts: nat -> BatchScript)

  /** The tracker's tables and cursor are those of the last world of a run. */
  ghost predicate RunHas(run: seq<World>, steps: seq<Step>, config: Config, x: Snapshot, cursor: Option<nat>) {
    && IsRun(run, steps) && Mirrors(Last(run), x) && Last(run).poll.None?
    && run[0].config == config && Last(run).config == config && Last(run).cursor == cursor
    && Last(run).knownWallets == Last(run).db.wallets
  }

  lemma RunBegins(config: Config, x: Snapshot, cursor: Option<nat>) returns (run: seq<World>)
    requires config.batchSize > 0 && ValidDb(x.db, x.nextId, x.decided)
    ensures RunHas(run, [], config, x, cursor) && run == [World(config, x.db, cursor, None, [], x.decided, x.db.wallets)]
  {
    run := [World(config, x.db, cursor, None, [], x.decided, x.db.wallets)];
  }

  /**
   With a stored cursor and no configured start block, the polls' cursor never moved back and every block it passed was
   scanned by a committed batch whose events are stored.
   */
  lemma PollsScanEverything(run: seq<World>, steps: seq<Step>, config: Config, x: Snapshot, cursor: Option<nat>)
    requires RunHas(run, steps, config, x, cursor) && run[0].cursor.Some? && config.startBlock == 0
    ensures cursor.Some? && run[0].cursor.value <= cursor.value
    ensures ScannedBetween(x.db, Last(run).batches, run[0].cursor.value, cursor.value)
    ensures forall b, e | b in Last(run).batches && AllStored(x.db, b.events) && e in b.events :: HasRow(x.db, e)
  {
    forall b, e | b in Last(run).batches && AllStored(x.db, b.events) && e in b.events ensures HasRow(x.db, e) {
      StoredMeansRow(x.db, e);
    }
    CursorNeverMovesBack(run, steps, 0, |run| - 1);
    forall block: nat | run[0].cursor.value < block <= cursor.value ensures Scanned(x.db, Last(run).batches, block) {
      var b := NothingIsSkipped(run, steps, |run| - 1, block);
      assert forall e | e in b.events :: Kept(Last(run), e);
    }
  }

  /** `start` and `scheduleNextPoll`: one poll after the other. Together they are one run of the ingestion machine. */
  method RunPolls(tracker: EthereumTracker, rounds: seq<Round>) returns (ghost run: seq<World>, ghost steps: seq<Step>)
    requires tracker.config.batchSize > 0 && tracker.store.Valid()
    requires forall r | r in rounds :: r.tracked <= tracker.store.wallets
    modifies tracker`cursor, tracker.store
    ensures tracker.store.Valid() && RunHas(run, steps, tracker.config, tracker.store.Now([]), tracker.cursor)
    ensures run[0].cursor == old(tracker.cursor) && run[0].db == old(tracker.store.State()) && run[0].batches == []
    ensures old(tracker.cursor).Some? && tracker.config.startBlock == 0 ==>
              && tracker.cursor.Some? && old(tracker.cursor).value <= tracker.cursor.value
              && ScannedBetween(tracker.store.State(), Last(run).batches, old(tracker.cursor).value, tracker.cursor.value)
  {
    steps := [];
    run := RunBegins(tracker.config, tracker.store.Now([]), tracker.cursor);
    ghost var first, wallets := run[0], tracker.store.wallets;
    for i := 0 to |rounds|
      invariant tracker.store.Valid() && tracker.store.wallets == wallets
      invariant RunHas(run, steps, tracker.config, tracker.store.Now([]), tracker.cursor) && run[0] == first
    {
      var r := rounds[i];
      ghost var batches, done, trail := tracker.PollOnce(r.tracked, r.latest, r.scripts);
      run, steps := PollReplayed(run, steps, r.tracked, tracker.cursor, r.latest, r.scripts, done, trail);
    }
    if run[0].cursor.Some? && tracker.config.startBlock == 0 {
      PollsScanEverything(run, steps, tracker.config, tracker.store.Now([]), tracker.cursor);
    }
  }
}
