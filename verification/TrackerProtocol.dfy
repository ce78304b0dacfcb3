/**
 Event ingestion over any number of polls: the tracker may crash or fail at any point, webhooks insert events
 of their own at any time, and wallets come and go. One tracker process runs at a time.
 `batches` and `decided` record what happened; no code reads them.
 */
module TrackerProtocol {
  import opened Wrappers
  import opened WalletEvents
  import opened Tracker

  /** A poll between batches, or inserting the events of the batch that starts at `from`. */
  datatype Poll =
    | Between(from: nat, safe: nat)
    | Inserting(from: nat, safe: nat, events: seq<Event>, done: nat)

  datatype World = World(config: Config, db: Db, cursor: Option<nat>, poll: Option<Poll>,
                         batches: seq<Batch>, decided: map<EventId, bool>, knownWallets: set<WalletId>)

  datatype Step =
    | AddWallet(wallet: WalletId)
    | RemoveWallet(wallet: WalletId)
    | WebhookInsert(event: Event, id: EventId, job: JobId, enqueue: bool)
    | StartPoll(tracked: set<WalletId>, latest: Latest)
    | Fetch(events: seq<Event>)
    | InsertNext(id: EventId, job: JobId, enqueue: bool)
    | SaveCursor
    | BatchFails
    | Crash

  function BatchEnd(config: Config, p: Poll): nat
    requires p.from <= p.safe && config.batchSize > 0
  {
    if p.from + config.batchSize <= p.safe + 1 then p.from + config.batchSize - 1 else p.safe
  }

  ghost predicate Inserts(s: World, e: Event, id: EventId, job: JobId, enqueue: bool, poll: Option<Poll>, s': World) {
    && id !in s.db.events && id !in s.decided && job !in s.db.jobs && e.wallet in s.db.wallets
    && s' == s.(db := Inserted(s.db, e, id, job, enqueue), decided := DecidedAfter(s.db, s.decided, e, id, enqueue), poll := poll)
  }

  ghost predicate Next(s: World, step: Step, s': World) {
    match step
    case AddWallet(w) =>
      w !in s.knownWallets
      && s' == s.(db := s.db.(wallets := s.db.wallets + {w}), knownWallets := s.knownWallets + {w})
    case RemoveWallet(w) => s' == s.(db := WithoutWallet(s.db, w))
    case WebhookInsert(e, id, job, enqueue) => Inserts(s, e, id, job, enqueue, s.poll, s')
    // A poll without wallets to track, or without a new confirmed block, does nothing.
    case StartPoll(tracked, latest) =>
      && s.poll.None? && tracked != {} && tracked <= s.db.wallets
      && var start := StartingBlock(s.config, s.cursor, latest.fallback);
      && start < latest.poll - s.config.confirmations
      && s' == s.(poll := Some(Between(start + 1, latest.poll - s.config.confirmations)))
    case Fetch(events) =>
      && s.poll.Some? && s.poll.value.Between? && s.poll.value.from <= s.poll.value.safe
      && s' == s.(poll := Some(Inserting(s.poll.value.from, s.poll.value.safe, events, 0)))
    case InsertNext(id, job, enqueue) =>
      && s.poll.Some? && s.poll.value.Inserting? && s.poll.value.done < |s.poll.value.events|
      && var p := s.poll.value;
      && Inserts(s, p.events[p.done], id, job, enqueue, Some(p.(done := p.done + 1)), s')
    case SaveCursor =>
      && s.poll.Some? && s.poll.value.Inserting? && s.poll.value.done == |s.poll.value.events| && s.poll.value.from <= s.poll.value.safe && s.config.batchSize > 0
      && var p := s.poll.value;
      && var to := BatchEnd(s.config, p);
      && s' == s.(cursor := Some(to), batches := s.batches + [Batch(p.from, to, p.events)],
                  poll := if to == p.safe then None else Some(Between(to + 1, p.safe)))
    // A failed batch ends the poll like a crash does: what was inserted stays, the cursor does not move.
    case BatchFails => s.poll.Some? && s' == s.(poll := None)
    case Crash => s' == s.(poll := None)
  }

  ghost predicate Init(s: World) {
    && s.config.batchSize > 0 && s.poll.None? && s.batches == [] && Distinct(s.db)
    && s.db.wallets <= s.knownWallets && Decided(s.db, s.decided)
  }

  ghost predicate IsRun(run: seq<World>, steps: seq<Step>) {
    && |run| == |steps| + 1 && Init(run[0])
    && forall i | 0 <= i < |steps| :: Next(run[i], steps[i], run[i + 1])
  }

  // ---- The event table ----

  /** The event is stored, or its wallet is gone for good. */
  ghost predicate Kept(s: World, e: Event) {
    Stored(s.db, e) || (e.wallet in s.knownWallets && e.wallet !in s.db.wallets)
  }

  /** Decisions are remembered for every stored event, and for deleted ones too. */
  ghost predicate DbInv(s: World) {
    && Distinct(s.db) && s.db.wallets <= s.knownWallets && s.db.events.Keys <= s.decided.Keys
    && forall id | id in s.db.events :: (HasJob(s.db, id) <==> s.decided[id])
  }

  ghost predicate AllKept(s: World, events: seq<Event>, n: nat)
    requires n <= |events|
  {
    forall i | 0 <= i < n :: Kept(s, events[i])
  }

  ghost predicate BatchesKept(s: World) {
    && (forall b | b in s.batches :: AllKept(s, b.events, |b.events|))
    && (s.poll.Some? && s.poll.value.Inserting? ==> s.poll.value.done <= |s.poll.value.events| && AllKept(s, s.poll.value.events, s.poll.value.done))
  }

  lemma RemovalKeeps(s: World, w: WalletId, s': World)
    requires DbInv(s) && Next(s, RemoveWallet(w), s')
    ensures DbInv(s')
    ensures forall e | Kept(s, e) :: Kept(s', e)
  {
    forall id | id in s'.db.events ensures HasJob(s'.db, id) <==> HasJob(s.db, id) {
      if HasJob(s.db, id) {
        var j :| j in s.db.jobs && s.db.jobs[j] == id;
        assert j in s'.db.jobs;
      }
    }
    forall e | Kept(s, e) ensures Kept(s', e) {
      if Stored(s.db, e) && e.wallet != w {
        var id :| id in s.db.events && IdentityOf(s.db.events[id]) == IdentityOf(e);
        assert s.db.events[id].wallet == e.wallet;
        assert id in s'.db.events;
      } else if Stored(s.db, e) {
        var id :| id in s.db.events && IdentityOf(s.db.events[id]) == IdentityOf(e);
        assert s.db.events[id].wallet == w;
      }
    }
  }

  lemma InsertKeeps(s: World, e: Event, id: EventId, job: JobId, enqueue: bool, poll: Option<Poll>, s': World)
    requires DbInv(s) && Inserts(s, e, id, job, enqueue, poll, s')
    ensures DbInv(s') && Kept(s', e)
    ensures forall x | Kept(s, x) :: Kept(s', x)
  {
    InsertedDistinct(s.db, e, id, job, enqueue);
    InsertedExtends(s.db, e, id, job, enqueue);
    forall x | Kept(s, x) ensures Kept(s', x) {
      if Stored(s.db, x) { StaysStored(s.db, s'.db, x); }
    }
    if !Stored(s.db, e) {
      assert !HasJob(s.db, id);
      if enqueue { assert job in s'.db.jobs && s'.db.jobs[job] == id; }
    }
  }

  lemma WalletKeeps(s: World, w: WalletId, s': World)
    requires DbInv(s) && Next(s, AddWallet(w), s')
    ensures DbInv(s')
    ensures forall e | Kept(s, e) :: Kept(s', e)
  {
    forall id | id in s.db.events ensures HasJob(s'.db, id) <==> HasJob(s.db, id) {
      if HasJob(s.db, id) {
        var j :| j in s.db.jobs && s.db.jobs[j] == id;
        assert j in s'.db.jobs;
      }
    }
    forall e | Kept(s, e) ensures Kept(s', e) {
      if Stored(s.db, e) {
        var id :| id in s.db.events && IdentityOf(s.db.events[id]) == IdentityOf(e);
        assert id in s'.db.events;
      }
    }
  }

  lemma StepKeeps(s: World, step: Step, s': World)
    requires DbInv(s) && Next(s, step, s')
    ensures DbInv(s')
    ensures forall e | Kept(s, e) :: Kept(s', e)
  {
    match step
    case AddWallet(w) => WalletKeeps(s, w, s');
    case RemoveWallet(w) => RemovalKeeps(s, w, s');
    case WebhookInsert(e, id, job, enqueue) => InsertKeeps(s, e, id, job, enqueue, s.poll, s');
    case InsertNext(id, job, enqueue) =>
      InsertKeeps(s, s.poll.value.events[s.poll.value.done], id, job, enqueue, s'.poll, s');
    case _ =>
  }

  lemma BatchesStep(s: World, step: Step, s': World)
    requires DbInv(s) && BatchesKept(s) && Next(s, step, s')
    ensures BatchesKept(s')
  {
    StepKeeps(s, step, s');
    if step.InsertNext? {
      InsertKeeps(s, s.poll.value.events[s.poll.value.done], step.id, step.job, step.enqueue, s'.poll, s');
    }
  }

  // ---- The cursor ----

  ghost predicate InSomeBatch(batches: seq<Batch>, block: nat) {
    exists b | b in batches :: b.from <= block <= b.to
  }

  ghost predicate CoveredBetween(batches: seq<Batch>, from: nat, to: nat) {
    forall block: nat | from < block <= to :: InSomeBatch(batches, block)
  }

  /** With no configured start block, a poll works right above the cursor and everything since `first` is covered. */
  ghost predicate CursorInv(s: World, first: nat) {
    && s.config.startBlock == 0 && s.config.batchSize > 0
    && s.cursor.Some? && first <= s.cursor.value
    && (s.poll.Some? ==> s.poll.value.from == s.cursor.value + 1 <= s.poll.value.safe)
    && CoveredBetween(s.batches, first, s.cursor.value)
  }

  lemma CursorStep(s: World, step: Step, s': World, first: nat)
    requires CursorInv(s, first) && Next(s, step, s')
    ensures CursorInv(s', first) && s.cursor.value <= s'.cursor.value
  {
    if step.SaveCursor? {
      var p := s.poll.value;
      var b := Batch(p.from, BatchEnd(s.config, p), p.events);
      forall block: nat | first < block <= s'.cursor.value ensures InSomeBatch(s'.batches, block) {
        if block <= s.cursor.value {
          assert InSomeBatch(s.batches, block);
          var x :| x in s.batches && x.from <= block <= x.to;
          assert x in s'.batches;
        } else {
          assert b in s'.batches;
        }
      }
    }
  }

  // ---- Runs ----

  lemma {:induction false} RunInv(run: seq<World>, steps: seq<Step>, i: nat)
    requires IsRun(run, steps) && i < |run|
    ensures DbInv(run[i]) && BatchesKept(run[i])
  {
    if i > 0 {
      RunInv(run, steps, i - 1);
      StepKeeps(run[i - 1], steps[i - 1], run[i]);
      BatchesStep(run[i - 1], steps[i - 1], run[i]);
    }
  }

  lemma {:induction false} RunCursor(run: seq<World>, steps: seq<Step>, i: nat, j: nat)
    requires IsRun(run, steps) && i <= j < |run| && run[0].config.startBlock == 0 && run[0].cursor.Some?
    ensures CursorInv(run[i], run[0].cursor.value) && CursorInv(run[j], run[0].cursor.value)
    ensures run[i].cursor.value <= run[j].cursor.value
    decreases j, i
  {
    if i < j {
      RunCursor(run, steps, i, j - 1);
      CursorStep(run[j - 1], steps[j - 1], run[j], run[0].cursor.value);
    } else if i > 0 {
      RunCursor(run, steps, i - 1, i - 1);
      CursorStep(run[i - 1], steps[i - 1], run[i], run[0].cursor.value);
    }
  }

  /** With a stored cursor and no configured start block, the cursor never moves back. */
  lemma CursorNeverMovesBack(run: seq<World>, steps: seq<Step>, i: nat, j: nat)
    requires IsRun(run, steps) && i <= j < |run| && run[0].config.startBlock == 0 && run[0].cursor.Some?
    ensures run[i].cursor.Some? && run[j].cursor.Some? && run[i].cursor.value <= run[j].cursor.value
  {
    RunCursor(run, steps, i, j);
  }

  ghost predicate Monotone(run: seq<World>) {
    forall i, j | 0 <= i <= j < |run| && run[i].cursor.Some? :: run[j].cursor.Some? && run[i].cursor.value <= run[j].cursor.value
  }

  /** With a configured start block, a poll of one batch saves the block after it, although a later one was stored. */
  lemma ConfiguredStartMovesTheCursorBack(config: Config, wallet: WalletId) returns (run: seq<World>, steps: seq<Step>)
    requires config.batchSize > 0 && config.startBlock > 0
    ensures IsRun(run, steps) && |steps| == 3 && run[0].config == config && run[0].db.wallets == {wallet}
    ensures run[0].cursor == Some(config.startBlock + 2) && run[3].cursor == Some(config.startBlock + 1)
  {
    var b := config.startBlock;
    var latest := Latest(b + 1 + config.confirmations, 0);
    var w := World(config, Db({wallet}, map[], map[]), Some(b + 2), None, [], map[], {wallet});
    var w1 := w.(poll := Some(Between(b + 1, b + 1)));
    var w2 := w.(poll := Some(Inserting(b + 1, b + 1, [], 0)));
    var w3 := w.(cursor := Some(b + 1), batches := [Batch(b + 1, b + 1, [])]);
    run, steps := [w, w1, w2, w3], [StartPoll({wallet}, latest), Fetch([]), SaveCursor];
    assert Next(w, StartPoll({wallet}, latest), w1);
    assert Next(w1, Fetch([]), w2);
    assert Next(w2, SaveCursor, w3);
  }

  /** The cursor is safe from moving back, in every run that starts with one, exactly when no start block is configured. */
  lemma MonotoneExactlyWhen(config: Config)
    requires config.batchSize > 0
    ensures (forall run: seq<World>, steps: seq<Step> | IsRun(run, steps) && run[0].config == config && run[0].cursor.Some? :: Monotone(run)) <==> config.startBlock == 0
  {
    if config.startBlock == 0 {
      forall run: seq<World>, steps: seq<Step> | IsRun(run, steps) && run[0].config == config && run[0].cursor.Some? ensures Monotone(run) {
        forall i, j | 0 <= i <= j < |run| ensures run[i].cursor.Some? && run[j].cursor.Some? && run[i].cursor.value <= run[j].cursor.value {
          CursorNeverMovesBack(run, steps, i, j);
        }
      }
    } else {
      var run, steps := ConfiguredStartMovesTheCursorBack(config, 0);
      assert !Monotone(run);
    }
  }

  /**
   In such a run every block the cursor has passed was scanned by a batch whose events are all stored, those of
   deleted wallets aside.
   */
  lemma NothingIsSkipped(run: seq<World>, steps: seq<Step>, i: nat, block: nat) returns (b: Batch)
    requires IsRun(run, steps) && i < |run| && run[0].config.startBlock == 0 && run[0].cursor.Some?
    requires run[i].cursor.Some? && run[0].cursor.value < block <= run[i].cursor.value
    ensures b in run[i].batches && b.from <= block <= b.to && forall e | e in b.events :: Kept(run[i], e)
    ensures exists j: nat | j < i :: FetchesAt(run, steps, j, b.from, b.events)
    ensures forall e | e in b.events && e.wallet in run[i].db.wallets :: HasRow(run[i].db, e)
  {
    RunCursor(run, steps, i, i);
    RunInv(run, steps, i);
    assert InSomeBatch(run[i].batches, block);
    b :| b in run[i].batches && b.from <= block <= b.to;
    var j := BatchesWereFetched(run, steps, i, b);
    assert AllKept(run[i], b.events, |b.events|);
    forall e | e in b.events && e.wallet in run[i].db.wallets ensures HasRow(run[i].db, e) {
      assert Kept(run[i], e);
      StoredMeansRow(run[i].db, e);
    }
  }

  /** Replays store nothing twice: rows that agree in the identifying columns are one row. */
  lemma EachEventOnce(run: seq<World>, steps: seq<Step>, i: nat, x: EventId, y: EventId)
    requires IsRun(run, steps) && i < |run| && x in run[i].db.events && y in run[i].db.events
    requires SameEvent(run[i].db.events[x], run[i].db.events[y])
    ensures x == y
  {
    IndexIsByColumns(run[i].db.events[x], run[i].db.events[y]);
    RunInv(run, steps, i);
  }

  /** A stored event has one outbox job exactly when its first insertion decided to enqueue, and never a second. */
  lemma OneJobAsDecided(run: seq<World>, steps: seq<Step>, i: nat, id: EventId)
    requires IsRun(run, steps) && i < |run| && id in run[i].db.events
    ensures id in run[i].decided && (HasJob(run[i].db, id) <==> run[i].decided[id])
    ensures forall j, k | j in run[i].db.jobs && k in run[i].db.jobs && run[i].db.jobs[j] == id && run[i].db.jobs[k] == id :: j == k
    ensures i > 0 && id in run[i - 1].decided ==> run[i].decided[id] == run[i - 1].decided[id]
  {
    RunInv(run, steps, i);
    if i > 0 { DecisionsStand(run[i - 1], steps[i - 1], run[i]); }
  }

  lemma DecisionsStand(s: World, step: Step, s': World)
    requires Next(s, step, s')
    ensures forall id | id in s.decided :: id in s'.decided && s'.decided[id] == s.decided[id]
  {
  }

  // ---- What a run's steps put into the tables ----

  /** The j-th step inserts this event under this id, with this decision. */
  predicate InsertsAt(run: seq<World>, steps: seq<Step>, j: nat, e: Event, id: EventId, enqueue: bool)
    requires j < |steps| < |run|
  {
    match steps[j]
    case WebhookInsert(event, x, _, decision) => event == e && x == id && decision == enqueue
    case InsertNext(x, _, decision) =>
      && run[j].poll.Some? && run[j].poll.value.Inserting? && run[j].poll.value.done < |run[j].poll.value.events|
      && run[j].poll.value.events[run[j].poll.value.done] == e && x == id && decision == enqueue
    case _ => false
  }

  lemma StepAddsRows(s: World, step: Step, s': World, id: EventId)
    requires Next(s, step, s') && id in s'.db.events
    ensures id in s.db.events ==> s'.db.events[id] == s.db.events[id]
    ensures id !in s.db.events ==>
              && ((step.WebhookInsert? && step.event == s'.db.events[id]) || (step.InsertNext? && s.poll.value.events[s.poll.value.done] == s'.db.events[id]))
              && step.id == id && id in s'.decided && s'.decided[id] == step.enqueue
              && !HasRow(s.db, s'.db.events[id])
  {
    if id !in s.db.events && (step.WebhookInsert? || step.InsertNext?) {
      StoredMeansRow(s.db, if step.WebhookInsert? then step.event else s.poll.value.events[s.poll.value.done]);
    }
  }

  lemma {:induction false} RowWasInserted(run: seq<World>, steps: seq<Step>, i: nat, id: EventId) returns (j: nat, enqueue: bool)
    requires IsRun(run, steps) && i < |run| && id in run[i].db.events && id !in run[0].db.events
    ensures j < i && InsertsAt(run, steps, j, run[i].db.events[id], id, enqueue) && !HasRow(run[j].db, run[i].db.events[id])
    ensures id in run[i].decided && run[i].decided[id] == enqueue
    decreases i
  {
    StepAddsRows(run[i - 1], steps[i - 1], run[i], id);
    if id in run[i - 1].db.events {
      j, enqueue := RowWasInserted(run, steps, i - 1, id);
      DecisionsStand(run[i - 1], steps[i - 1], run[i]);
    } else {
      j, enqueue := i - 1, steps[i - 1].enqueue;
    }
  }

  /**
   Every row was put there, as it is, by one step that found no row with its columns, and it has an outbox job
   exactly when that step's decision asked for one.
   */
  lemma FirstInsertionDecides(run: seq<World>, steps: seq<Step>, i: nat, id: EventId) returns (j: nat, enqueue: bool)
    requires IsRun(run, steps) && i < |run| && id in run[i].db.events && id !in run[0].db.events
    ensures j < i && InsertsAt(run, steps, j, run[i].db.events[id], id, enqueue) && !HasRow(run[j].db, run[i].db.events[id])
    ensures HasJob(run[i].db, id) <==> enqueue
  {
    j, enqueue := RowWasInserted(run, steps, i, id);
    RunInv(run, steps, i);
  }

  /** The j-th step fetched the events of this batch's blocks. */
  predicate FetchesAt(run: seq<World>, steps: seq<Step>, j: nat, from: nat, events: seq<Event>)
    requires j < |steps| < |run|
  {
    steps[j] == Fetch(events) && run[j].poll.Some? && run[j].poll.value.Between? && run[j].poll.value.from == from
  }

  lemma {:induction false} InsertingWasFetched(run: seq<World>, steps: seq<Step>, i: nat) returns (j: nat)
    requires IsRun(run, steps) && i < |run| && run[i].poll.Some? && run[i].poll.value.Inserting?
    ensures j < i && FetchesAt(run, steps, j, run[i].poll.value.from, run[i].poll.value.events)
    decreases i
  {
    assert Next(run[i - 1], steps[i - 1], run[i]);
    if steps[i - 1].Fetch? {
      j := i - 1;
    } else {
      j := InsertingWasFetched(run, steps, i - 1);
    }
  }

  /** A batch the cursor has passed holds exactly the events an earlier step fetched for its blocks. */
  lemma {:induction false} BatchesWereFetched(run: seq<World>, steps: seq<Step>, i: nat, b: Batch) returns (j: nat)
    requires IsRun(run, steps) && i < |run| && b in run[i].batches
    ensures j < i && FetchesAt(run, steps, j, b.from, b.events)
    decreases i
  {
    assert Next(run[i - 1], steps[i - 1], run[i]);
    if b in run[i - 1].batches {
      j := BatchesWereFetched(run, steps, i - 1, b);
    } else {
      j := InsertingWasFetched(run, steps, i - 1);
    }
  }
}
