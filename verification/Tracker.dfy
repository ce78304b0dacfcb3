/** The block scanner: one poll walks the unscanned blocks in batches and advances the cursor batch by batch. */
module Tracker {
  import opened TransferLogs
  import opened WalletEvents
  import opened Wrappers

  // ---- The poll loop ----

  datatype Config = Config(startBlock: nat, confirmations: nat, batchSize: nat)

  /** The latest block number as the provider gives it to a poll, and to the fallback of its starting block. */
  datatype Latest = Latest(poll: nat, fallback: nat)

  /** `getStartingBlock`: the configured block, else the stored cursor, else the latest confirmed block. */
  function StartingBlock(config: Config, cursor: Option<nat>, fallback: nat): nat {
    if config.startBlock > 0 then config.startBlock
    else if cursor.Some? then cursor.value
    else if fallback < config.confirmations then 0 else fallback - config.confirmations
  }

  /**
   What the provider and the database answer during one batch: the logs of the filters and of the receipts, what
   each log decodes to (`None` is a thrown error), the events of native transfers, and the statements' outcomes.
   */
  datatype BatchScript = BatchScript(fetches: bool, groups: seq<seq<Log>>, receipts: seq<seq<Log>>, decode: Log -> Option<seq<Event>>,
                                     native: seq<Event>, answers: nat -> Answer, saves: bool)

  // ---- The events of one batch ----

  function Decoded(logs: seq<Log>, decode: Log -> Option<seq<Event>>): seq<Event> {
    if logs == [] then [] else Decoded(logs[..|logs| - 1], decode) + decode(logs[|logs| - 1]).GetOr([])
  }

  /** The events a batch inserts, in this order. */
  function EventsOf(s: BatchScript): seq<Event> {
    Decoded(AllLogs(s.groups, s.receipts), s.decode) + s.native
  }

  /** A log that cannot be decoded is reported and left out. */
  method NormalizeLogs(logs: seq<Log>, decode: Log -> Option<seq<Event>>) returns (events: seq<Event>)
    ensures events == Decoded(logs, decode)
  {
    events := [];
    for i := 0 to |logs|
      invariant events == Decoded(logs[..i], decode)
    {
      assert logs[..i + 1][..i] == logs[..i];
      var decoded := decode(logs[i]);
      if decoded.Some? {
        events := events + decoded.value;
      }
    }
    assert logs[..|logs|] == logs;
  }

  predicate DecodesTo(decode: Log -> Option<seq<Event>>, l: Log, e: Event) {
    decode(l).Some? && e in decode(l).value
  }

  ghost predicate SomeDecodesTo(decode: Log -> Option<seq<Event>>, logs: seq<Log>, e: Event) {
    exists l | l in logs :: DecodesTo(decode, l, e)
  }

  lemma {:induction false} DecodedAre(logs: seq<Log>, decode: Log -> Option<seq<Event>>, e: Event)
    ensures e in Decoded(logs, decode) <==> SomeDecodesTo(decode, logs, e)
  {
    if logs != [] {
      var init, last := logs[..|logs| - 1], logs[|logs| - 1];
      DecodedAre(init, decode, e);
      assert logs == init + [last];
      assert SomeDecodesTo(decode, logs, e) <==> SomeDecodesTo(decode, init, e) || DecodesTo(decode, last, e);
    }
  }

  /** Answers that name a log agree about it. */
  ghost predicate LogsAgree(s: BatchScript) {
    forall x, y | IsTransfer(s.groups, s.receipts, x) && IsTransfer(s.groups, s.receipts, y) && KeyOf(x) == KeyOf(y) :: x == y
  }

  /** A batch inserts exactly the events of its transfers: those of every log, wherever it was found, and the native ones. */
  lemma EventsExactly(s: BatchScript, e: Event)
    requires LogsAgree(s)
    ensures e in EventsOf(s) <==> e in s.native || exists l | IsTransfer(s.groups, s.receipts, l) :: DecodesTo(s.decode, l, e)
  {
    var logs := AllLogs(s.groups, s.receipts);
    AllLogsAre(s.groups, s.receipts);
    DecodedAre(logs, s.decode, e);
    forall l | IsTransfer(s.groups, s.receipts, l) ensures l in logs {
      assert KeyOf(l) in Keys(logs);
      var x :| x in logs && KeyOf(x) == KeyOf(l);
      assert IsTransfer(s.groups, s.receipts, x);
    }
  }

  /** One batch was tried: its events were inserted up to the first that failed. */
  ghost predicate TriedBatch(s: Snapshot, s': Snapshot, script: BatchScript) {
    if !script.fetches then s' == s
    else
      var first, events := s.(inserted := []), EventsOf(script);
      s' == AfterInserts(first, events, script.answers, Committing(s.db.wallets, events, script.answers, 0)).(inserted := [])
  }

  /** The tables before a poll's first batch and after each batch it tried. */
  ghost predicate IsTrail(trail: seq<Snapshot>, scripts: nat -> BatchScript) {
    trail != [] && forall i: nat | i + 1 < |trail| :: TriedAt(trail, scripts, i)
  }

  ghost predicate TriedAt(trail: seq<Snapshot>, scripts: nat -> BatchScript, i: nat)
    requires i + 1 < |trail|
  {
    TriedBatch(trail[i], trail[i + 1], scripts(i))
  }

  lemma TrailGrows(trail: seq<Snapshot>, scripts: nat -> BatchScript, s: Snapshot)
    requires IsTrail(trail, scripts) && TriedBatch(trail[|trail| - 1], s, scripts(|trail| - 1))
    ensures IsTrail(trail + [s], scripts)
  {
    forall i: nat | i + 1 < |trail + [s]| ensures TriedAt(trail + [s], scripts, i) {
      if i + 1 < |trail| { assert TriedAt(trail, scripts, i); }
    }
  }

  /** A range of blocks whose events were all inserted. */
  datatype Batch = Batch(from: nat, to: nat, events: seq<Event>)

  ghost predicate Scanned(db: Db, batches: seq<Batch>, block: nat) {
    exists b | b in batches :: b.from <= block <= b.to && AllStored(db, b.events)
  }

  ghost predicate ScannedBetween(db: Db, batches: seq<Batch>, from: nat, to: nat) {
    forall block: nat | from < block <= to :: Scanned(db, batches, block)
  }

  lemma ScannedGrows(db: Db, db': Db, batches: seq<Batch>, b: Batch, from: nat, at: nat)
    requires ScannedBetween(db, batches, from, at) && Extends(db, db') && AllStored(db', b.events)
    ensures forall to | at < to && b.from <= at + 1 && to <= b.to :: ScannedBetween(db', batches + [b], from, to)
    ensures ScannedBetween(db', batches + [b], from, at)
  {
    forall block: nat | from < block && (block <= at || b.from <= block <= b.to) ensures Scanned(db', batches + [b], block) {
      if block <= at {
        assert Scanned(db, batches, block);
        var x :| x in batches && x.from <= block <= x.to && AllStored(db, x.events);
        forall e | e in x.events ensures Stored(db', e) { StaysStored(db, db', e); }
        assert x in batches + [b];
      } else {
        assert b in batches + [b];
      }
    }
  }

  /** The last block of the `n`-th batch of a poll. */
  function EndOf(start: nat, safe: nat, batchSize: nat, n: nat): nat
    requires start <= safe
  {
    if n == 0 then start
    else
      var end := EndOf(start, safe, batchSize, n - 1) + batchSize;
      if end < safe then end else safe
  }

  lemma NextEnd(start: nat, safe: nat, batchSize: nat, n: nat)
    requires start <= safe
    ensures var end := EndOf(start, safe, batchSize, n) + batchSize;
            EndOf(start, safe, batchSize, n + 1) == if end < safe then end else safe
  {
  }

  /** A poll committed its first `n` batches, each without a failure; the cursor is at the end of the last. */
  ghost predicate CommittedBatches(n: nat, start: nat, safe: nat, batchSize: nat, before: Option<nat>, after: Option<nat>,
                                   scripts: nat -> BatchScript, wallets: set<WalletId>)
    requires start <= safe
  {
    && (forall i: nat | i < n :: Clean(scripts(i), wallets))
    && (n > 0 ==> EndOf(start, safe, batchSize, n - 1) < safe)
    && after == if n == 0 then before else Some(EndOf(start, safe, batchSize, n))
  }

  lemma CommitsBatch(n: nat, start: nat, safe: nat, batchSize: nat, before: Option<nat>, cursor: Option<nat>,
                     scripts: nat -> BatchScript, wallets: set<WalletId>)
    requires start <= safe && CommittedBatches(n, start, safe, batchSize, before, cursor, scripts, wallets)
    requires Clean(scripts(n), wallets) && EndOf(start, safe, batchSize, n) < safe
    ensures CommittedBatches(n + 1, start, safe, batchSize, before, Some(EndOf(start, safe, batchSize, n + 1)), scripts, wallets)
  {
  }

  /** A poll committed its first `n` batches, and these reached the safe block or the next one fails. */
  ghost predicate StoppedAfter(n: nat, start: nat, safe: nat, batchSize: nat, before: Option<nat>, after: Option<nat>,
                               scripts: nat -> BatchScript, wallets: set<WalletId>) {
    && start <= safe && CommittedBatches(n, start, safe, batchSize, before, after, scripts, wallets)
    && (EndOf(start, safe, batchSize, n) == safe || !Clean(scripts(n), wallets))
  }

  /** One poll's scan: its blocks, what it meets, and the tables and the cursor before it. */
  datatype Scan = Scan(start: nat, safe: nat, batchSize: nat, scripts: nat -> BatchScript, first: Snapshot, cursor: Option<nat>)

  /** After `n` committed batches: `trail` tells the tables before the first and after each. */
  ghost predicate Scanning(x: Scan, n: nat, now: Snapshot, cursor: Option<nat>, batches: seq<Batch>, trail: seq<Snapshot>) {
    && x.start < x.safe && Extends(x.first.db, now.db)
    && CommittedBatches(n, x.start, x.safe, x.batchSize, x.cursor, cursor, x.scripts, x.first.db.wallets)
    && IsTrail(trail, x.scripts) && |trail| == n + 1 && trail[0] == x.first && trail[n] == now
    && ScannedBetween(now.db, batches, x.start, EndOf(x.start, x.safe, x.batchSize, n))
  }

  /** After a whole scan, which ended at the safe block or with the batch after the `n`-th failing. */
  ghost predicate ScanEnds(x: Scan, n: nat, now: Snapshot, cursor: Option<nat>, batches: seq<Batch>, trail: seq<Snapshot>) {
    && Extends(x.first.db, now.db)
    && StoppedAfter(n, x.start, x.safe, x.batchSize, x.cursor, cursor, x.scripts, x.first.db.wallets)
    && IsTrail(trail, x.scripts) && trail[0] == x.first && trail[|trail| - 1] == now
    && |trail| == 1 + (if EndOf(x.start, x.safe, x.batchSize, n) == x.safe then n else n + 1)
    && ScannedBetween(now.db, batches, x.start, EndOf(x.start, x.safe, x.batchSize, n))
  }

  lemma ScanStarts(x: Scan)
    requires x.start < x.safe
    ensures Scanning(x, 0, x.first, x.cursor, [], [x.first])
  {
  }

  lemma ScanReachesSafe(x: Scan, n: nat, now: Snapshot, cursor: Option<nat>, batches: seq<Batch>, trail: seq<Snapshot>)
    requires Scanning(x, n, now, cursor, batches, trail) && EndOf(x.start, x.safe, x.batchSize, n) == x.safe
    ensures ScanEnds(x, n, now, cursor, batches, trail)
  {
  }

  /** The batch after `n` committed ones was tried: it joins them if it is clean, and otherwise ends the scan. */
  lemma BatchTried(x: Scan, n: nat, before: Snapshot, cursor: Option<nat>, batches: seq<Batch>, trail: seq<Snapshot>, now: Snapshot, b: Batch)
    requires x.batchSize > 0 && Scanning(x, n, before, cursor, batches, trail) && EndOf(x.start, x.safe, x.batchSize, n) < x.safe
    requires TriedBatch(before, now, x.scripts(n)) && Extends(before.db, now.db)
    requires Clean(x.scripts(n), x.first.db.wallets) ==> AllStored(now.db, b.events)
    requires b.from == EndOf(x.start, x.safe, x.batchSize, n) + 1 && b.to == EndOf(x.start, x.safe, x.batchSize, n + 1)
    ensures if Clean(x.scripts(n), x.first.db.wallets) then Scanning(x, n + 1, now, Some(b.to), batches + [b], trail + [now])
            else ScanEnds(x, n, now, cursor, batches, trail + [now])
  {
    EndsGrow(x.start, x.safe, x.batchSize, n);
    BatchGrows(x.first.db, before.db, now.db, batches, b, x.start);
    TrailGrows(trail, x.scripts, now);
    if Clean(x.scripts(n), x.first.db.wallets) {
      CommitsBatch(n, x.start, x.safe, x.batchSize, x.cursor, cursor, x.scripts, x.first.db.wallets);
    }
  }

  class EthereumTracker {
    const config: Config
    const store: EventStore
    var cursor: Option<nat>

    constructor (config: Config, store: EventStore)
      ensures this.config == config && this.store == store && cursor == None
    {
      this.config, this.store, cursor := config, store, None;
    }

    /** The `try` block of one batch: its events are inserted, then the cursor moves; a failure leaves the cursor. */
    method ScanBatch(to: nat, script: BatchScript) returns (ok: bool)
      requires store.Valid()
      modifies this`cursor, store
      ensures store.Valid() && Extends(old(store.State()), store.State())
      ensures TriedBatch(old(store.Now([])), store.Now([]), script)
      ensures ok <==> Clean(script, old(store.wallets))
      ensures cursor == if ok then Some(to) else old(cursor)
      ensures ok ==> AllStored(store.State(), EventsOf(script))
    {
      if !script.fetches {
        return false;
      }
      var logs := BatchLogs(script.groups, script.receipts);
      var normalized := NormalizeLogs(logs, script.decode);
      var inserted;
      ok, inserted := store.InsertWalletEvents(normalized + script.native, script.answers);
      if !ok || !script.saves {
        return false;
      }
      cursor := Some(to);
    }

    /** One turn of the loop over batches, from the block after the `n`-th batch. */
    method ScanNext(ghost x: Scan, n: nat, to: nat, scripts: nat -> BatchScript, ghost batches: seq<Batch>, ghost trail: seq<Snapshot>)
      returns (ok: bool, ghost batches': seq<Batch>, ghost trail': seq<Snapshot>)
      requires store.Valid() && x.batchSize > 0 && Scanning(x, n, store.Now([]), cursor, batches, trail)
      requires EndOf(x.start, x.safe, x.batchSize, n) < x.safe && scripts == x.scripts
      requires to == EndOf(x.start, x.safe, x.batchSize, n + 1)
      modifies this`cursor, store
      ensures store.Valid()
      ensures ok ==> Scanning(x, n + 1, store.Now([]), cursor, batches', trail')
      ensures !ok ==> ScanEnds(x, n, store.Now([]), cursor, batches', trail')
    {
      ghost var before, reached := store.Now([]), cursor;
      ghost var b := Batch(EndOf(x.start, x.safe, x.batchSize, n) + 1, to, EventsOf(scripts(n)));
      ok := ScanBatch(to, scripts(n));
      BatchTried(x, n, before, reached, batches, trail, store.Now([]), b);
      batches', trail' := if ok then batches + [b] else batches, trail + [store.Now([])];
    }

    /** The batches of a poll, from the block after `start` to the safe block or to the first batch that fails. */
    method ScanBatches(start: nat, safe: nat, scripts: nat -> BatchScript)
      returns (ghost batches: seq<Batch>, ghost done: nat, ghost trail: seq<Snapshot>)
      requires config.batchSize > 0 && store.Valid() && start < safe
      modifies this`cursor, store
      ensures store.Valid()
      ensures ScanEnds(Scan(start, safe, config.batchSize, scripts, old(store.Now([])), old(cursor)), done, store.Now([]), cursor, batches, trail)
    {
      ghost var scan := Scan(start, safe, config.batchSize, scripts, store.Now([]), cursor);
      batches, done, trail := [], 0, [store.Now([])];
      ScanStarts(scan);
      var from, i := start + 1, 0;
      while from <= safe
        invariant store.Valid() && done == i && start < from && from == EndOf(start, safe, config.batchSize, i) + 1
        invariant Scanning(scan, i, store.Now([]), cursor, batches, trail)
        decreases safe + 1 - from
      {
        var to := if from + config.batchSize - 1 < safe then from + config.batchSize - 1 else safe;
        NextEnd(start, safe, config.batchSize, i);
        var ok;
        ok, batches, trail := ScanNext(scan, i, to, scripts, batches, trail);
        if !ok {
          return;
        }
        from, i, done := to + 1, i + 1, i + 1;
      }
      ScanReachesSafe(scan, i, store.Now([]), cursor, batches, trail);
    }

    /**
     `pollOnce`; `tracked` are the active wallets it lists. The cursor only moves to blocks before which everything
     since the starting block was scanned: to the end of the last batch before the first that fails.
     */
    method PollOnce(tracked: set<WalletId>, latest: Latest, scripts: nat -> BatchScript)
      returns (ghost batches: seq<Batch>, ghost done: nat, ghost trail: seq<Snapshot>)
      requires config.batchSize > 0 && store.Valid()
      modifies this`cursor, store
      ensures store.Valid() && Extends(old(store.State()), store.State())
      ensures PollEnds(config, tracked, old(cursor), cursor, latest, done, scripts, old(store.wallets))
      ensures IsTrail(trail, scripts) && trail[0] == old(store.Now([])) && trail[|trail| - 1] == store.Now([])
      ensures Tries(config, tracked, old(cursor), latest, done, |trail| - 1)
      ensures done > 0 ==> cursor.Some? && ScannedBetween(store.State(), batches, StartingBlock(config, old(cursor), latest.fallback), cursor.value)
    {
      batches, done, trail := [], 0, [store.Now([])];
      if tracked == {} {
        return;
      }
      var start := StartingBlock(config, cursor, latest.fallback);
      if latest.poll < config.confirmations || latest.poll - config.confirmations <= start {
        return;
      }
      batches, done, trail := ScanBatches(start, latest.poll - config.confirmations, scripts);
    }
  }

  /** A poll tries the batch after those it committed, unless these reach the safe block or there is nothing to scan. */
  ghost predicate Tries(config: Config, tracked: set<WalletId>, before: Option<nat>, latest: Latest, done: nat, tried: nat) {
    var start, safe := StartingBlock(config, before, latest.fallback), latest.poll - config.confirmations;
    if tracked == {} || safe <= start then tried == 0
    else tried == if EndOf(start, safe, config.batchSize, done) == safe then done else done + 1
  }

  /** What a poll does to the cursor, for these wallets, replies and batches. */
  ghost predicate PollEnds(config: Config, tracked: set<WalletId>, before: Option<nat>, after: Option<nat>, latest: Latest, done: nat,
                           scripts: nat -> BatchScript, wallets: set<WalletId>) {
    var start, safe := StartingBlock(config, before, latest.fallback), latest.poll - config.confirmations;
    if tracked == {} || safe <= start then done == 0 && after == before
    else StoppedAfter(done, start, safe, config.batchSize, before, after, scripts, wallets)
  }

  /** A batch was tried: what was scanned stays scanned, and if its events are stored its blocks are scanned too. */
  lemma BatchGrows(before: Db, held: Db, now: Db, batches: seq<Batch>, b: Batch, from: nat)
    requires Extends(before, held) && Extends(held, now) && from < b.from <= b.to
    requires ScannedBetween(held, batches, from, b.from - 1)
    ensures Extends(before, now) && ScannedBetween(now, batches, from, b.from - 1)
    ensures AllStored(now, b.events) ==> ScannedBetween(now, batches + [b], from, b.to)
  {
    ExtendsTransitive(before, held, now);
    ScannedStays(held, now, batches, from, b.from - 1);
    if AllStored(now, b.events) {
      ScannedGrows(held, now, batches, b, from, b.from - 1);
    }
  }

  lemma {:induction false} EndsGrow(start: nat, safe: nat, batchSize: nat, n: nat)
    requires start < safe && batchSize > 0
    ensures start <= EndOf(start, safe, batchSize, n) <= safe && (n > 0 ==> start < EndOf(start, safe, batchSize, n))
    ensures n > 0 ==> EndOf(start, safe, batchSize, 1) <= EndOf(start, safe, batchSize, n)
  {
    if n > 0 { EndsGrow(start, safe, batchSize, n - 1); }
  }

  lemma PollMakesProgress(config: Config, tracked: set<WalletId>, before: Option<nat>, after: Option<nat>, latest: Latest, n: nat,
                          scripts: nat -> BatchScript, wallets: set<WalletId>)
    requires config.batchSize > 0 && PollEnds(config, tracked, before, after, latest, n, scripts, wallets)
    ensures var start, safe := StartingBlock(config, before, latest.fallback), latest.poll - config.confirmations;
            if n == 0 then after == before && (tracked == {} || safe <= start || !Clean(scripts(0), wallets))
            else tracked != {} && start < safe && Clean(scripts(0), wallets) && after == Some(EndOf(start, safe, config.batchSize, n)) && start < after.value <= safe
  {
    var start := StartingBlock(config, before, latest.fallback);
    if tracked != {} && start < latest.poll - config.confirmations {
      EndsGrow(start, latest.poll - config.confirmations, config.batchSize, n);
    }
  }

  /** Without a configured start block a poll moves the cursor forward or leaves it. */
  lemma PollMovesForward(config: Config, tracked: set<WalletId>, before: Option<nat>, after: Option<nat>, latest: Latest, n: nat,
                         scripts: nat -> BatchScript, wallets: set<WalletId>)
    requires config.batchSize > 0 && PollEnds(config, tracked, before, after, latest, n, scripts, wallets)
    requires config.startBlock == 0 && before.Some?
    ensures after.Some? && before.value <= after.value
    ensures after != before <==> tracked != {} && before.value < latest.poll - config.confirmations && Clean(scripts(0), wallets)
  {
    PollMakesProgress(config, tracked, before, after, latest, n, scripts, wallets);
  }

  /**
   Without a stored cursor and a configured start block, a poll stores one exactly when the second reply leaves a
   confirmed block of the first unscanned, which takes a second reply below the first, and the first batch is clean.
   */
  lemma FirstCursorExactlyWhen(config: Config, tracked: set<WalletId>, after: Option<nat>, latest: Latest, n: nat,
                               scripts: nat -> BatchScript, wallets: set<WalletId>)
    requires config.batchSize > 0 && PollEnds(config, tracked, None, after, latest, n, scripts, wallets) && config.startBlock == 0
    ensures after.Some? <==>
              && tracked != {} && Clean(scripts(0), wallets)
              && latest.fallback < latest.poll && config.confirmations < latest.poll
  {
    PollMakesProgress(config, tracked, None, after, latest, n, scripts, wallets);
  }

  /**
   With a configured start block, a poll whose first batch is clean starts over from that block: its first save is
   the end of the first batch. So some save of the poll is below the stored cursor exactly when that end is.
   */
  lemma PollLowersCursorExactlyWhen(config: Config, tracked: set<WalletId>, before: nat, after: Option<nat>, latest: Latest, n: nat,
                                    scripts: nat -> BatchScript, wallets: set<WalletId>)
    requires config.batchSize > 0 && PollEnds(config, tracked, Some(before), after, latest, n, scripts, wallets)
    requires config.startBlock > 0 && tracked != {} && config.startBlock < latest.poll - config.confirmations && Clean(scripts(0), wallets)
    ensures var safe := latest.poll - config.confirmations;
            var firstEnd := if config.startBlock + config.batchSize < safe then config.startBlock + config.batchSize else safe;
            (exists k: nat | 1 <= k <= n :: EndOf(config.startBlock, safe, config.batchSize, k) < before) <==> firstEnd < before
  {
    var start, safe := config.startBlock, latest.poll - config.confirmations;
    PollMakesProgress(config, tracked, Some(before), after, latest, n, scripts, wallets);
    assert n >= 1;
    FirstEnd(start, safe, config.batchSize);
    forall k: nat | 1 <= k <= n ensures EndOf(start, safe, config.batchSize, 1) <= EndOf(start, safe, config.batchSize, k) {
      EndsGrow(start, safe, config.batchSize, k);
    }
  }

  lemma FirstEnd(start: nat, safe: nat, batchSize: nat)
    requires start <= safe
    ensures EndOf(start, safe, batchSize, 1) == if start + batchSize < safe then start + batchSize else safe
  {
    assert EndOf(start, safe, batchSize, 0) == start;
  }

  lemma ScannedStays(db: Db, db': Db, batches: seq<Batch>, from: nat, to: nat)
    requires ScannedBetween(db, batches, from, to) && Extends(db, db')
    ensures ScannedBetween(db', batches, from, to)
  {
    forall block: nat | from < block <= to ensures Scanned(db', batches, block) {
      assert Scanned(db, batches, block);
      var x :| x in batches && x.from <= block <= x.to && AllStored(db, x.events);
      forall e | e in x.events ensures Stored(db', e) { StaysStored(db, db', e); }
    }
  }

  /** A batch during which nothing fails. */
  ghost predicate Clean(s: BatchScript, wallets: set<WalletId>) {
    s.fetches && s.saves && NoneFails(wallets, EventsOf(s), s.answers, |EventsOf(s)|)
  }
}
