/** The event table and its outbox: one transaction per event, idempotent on the event's identity. */
module WalletEvents {
  import opened Wrappers

  type WalletId = nat
  type EventId = nat
  type JobId = nat

  datatype Direction = Incoming | Outgoing

  /** `content` stands for the columns outside the identity. */
  datatype Event = Event(wallet: WalletId, tx: nat, kind: nat, logIndex: Option<nat>, tokenId: Option<string>,
                         direction: Option<Direction>, content: nat)

  /** The columns of the unique index `wallet_events_unique_identity`, nulls coalesced. */
  datatype Identity = Identity(wallet: WalletId, tx: nat, kind: nat, logIndex: int, tokenId: string, direction: Option<Direction>)

  function IdentityOf(e: Event): Identity {
    Identity(e.wallet, e.tx, e.kind, if e.logIndex.Some? then e.logIndex.value else -1, e.tokenId.GetOr(""), e.direction)
  }

  /** The columns that tell two events apart: an absent token id counts as an empty one, an absent log index as no other. */
  predicate SameEvent(x: Event, y: Event) {
    && x.wallet == y.wallet && x.tx == y.tx && x.kind == y.kind && x.direction == y.direction
    && (if x.logIndex.Some? then y.logIndex == Some(x.logIndex.value) else y.logIndex.None?)
    && (if x.tokenId.Some? then x.tokenId.value else "") == (if y.tokenId.Some? then y.tokenId.value else "")
  }

  /** The unique index tells apart exactly the events that differ in one of these columns. */
  lemma IndexIsByColumns(x: Event, y: Event)
    ensures IdentityOf(x) == IdentityOf(y) <==> SameEvent(x, y)
    ensures SameEvent(x, y) <==>
              && x.wallet == y.wallet && x.tx == y.tx && x.kind == y.kind && x.direction == y.direction && x.logIndex == y.logIndex
              && (x.tokenId == y.tokenId || (x.tokenId.GetOr("") == "" && y.tokenId.GetOr("") == ""))
  {
  }

  datatype Db = Db(wallets: set<WalletId>, events: map<EventId, Event>, jobs: map<JobId, EventId>)

  predicate Stored(db: Db, e: Event) {
    exists id | id in db.events :: IdentityOf(db.events[id]) == IdentityOf(e)
  }

  /** Some row is this event, column by column. */
  predicate HasRow(db: Db, e: Event) {
    exists id | id in db.events :: SameEvent(db.events[id], e)
  }

  lemma StoredMeansRow(db: Db, e: Event)
    ensures Stored(db, e) <==> HasRow(db, e)
  {
    forall id | id in db.events ensures IdentityOf(db.events[id]) == IdentityOf(e) <==> SameEvent(db.events[id], e) {
      IndexIsByColumns(db.events[id], e);
    }
  }

  lemma AllHaveRows(db: Db, list: seq<Event>)
    requires AllStored(db, list)
    ensures forall e | e in list :: HasRow(db, e)
    ensures forall e, f, x, y | e in list && f in list && !SameEvent(e, f) && x in db.events && y in db.events
                                && SameEvent(db.events[x], e) && SameEvent(db.events[y], f) :: x != y
  {
    forall e | e in list ensures HasRow(db, e) { StoredMeansRow(db, e); }
  }

  predicate HasJob(db: Db, id: EventId) {
    exists j | j in db.jobs :: db.jobs[j] == id
  }

  /** Each identity is stored once and each event has at most one job. */
  ghost predicate Distinct(db: Db) {
    && (forall x, y | x in db.events && y in db.events && IdentityOf(db.events[x]) == IdentityOf(db.events[y]) :: x == y)
    && (forall i, j | i in db.jobs && j in db.jobs && db.jobs[i] == db.jobs[j] :: i == j)
    && (forall j | j in db.jobs :: db.jobs[j] in db.events)
    && (forall id | id in db.events :: db.events[id].wallet in db.wallets)
  }

  /** One event's transaction, with the ids it would draw. */
  function Inserted(db: Db, e: Event, id: EventId, job: JobId, enqueue: bool): Db {
    if Stored(db, e) then db
    else db.(events := db.events[id := e], jobs := if enqueue && !HasJob(db, id) then db.jobs[job := id] else db.jobs)
  }

  /** Deleting a wallet cascades to its events and their jobs. */
  function WithoutWallet(db: Db, w: WalletId): Db {
    Db(db.wallets - {w},
       map id | id in db.events && db.events[id].wallet != w :: db.events[id],
       map j | j in db.jobs && db.jobs[j] in db.events && db.events[db.jobs[j]].wallet != w :: db.jobs[j])
  }

  /** Nothing stored is lost or changed. */
  ghost predicate Extends(db: Db, db': Db) {
    && db'.wallets == db.wallets
    && (forall id | id in db.events :: id in db'.events && db'.events[id] == db.events[id])
    && (forall id | id in db.events :: HasJob(db', id) <==> HasJob(db, id))
  }

  lemma StaysStored(db: Db, db': Db, e: Event)
    requires Extends(db, db') && Stored(db, e)
    ensures Stored(db', e)
  {
    var id :| id in db.events && IdentityOf(db.events[id]) == IdentityOf(e);
    assert id in db'.events;
  }

  /** What the first insertion of each event decided is what its job row says. */
  ghost predicate Decided(db: Db, decided: map<EventId, bool>) {
    decided.Keys == db.events.Keys && forall id | id in db.events :: (HasJob(db, id) <==> decided[id])
  }

  ghost predicate Below(db: Db, n: nat) {
    (forall id | id in db.events :: id < n) && forall j | j in db.jobs :: j < n
  }

  ghost function DecidedAfter(db: Db, decided: map<EventId, bool>, e: Event, id: EventId, enqueue: bool): map<EventId, bool> {
    if Stored(db, e) then decided else decided[id := enqueue]
  }

  lemma InsertedDistinct(db: Db, e: Event, id: EventId, job: JobId, enqueue: bool)
    requires Distinct(db) && id !in db.events && e.wallet in db.wallets
    ensures Distinct(Inserted(db, e, id, job, enqueue)) && Stored(Inserted(db, e, id, job, enqueue), e)
  {
    var db' := Inserted(db, e, id, job, enqueue);
    if !Stored(db, e) {
      assert id in db'.events && IdentityOf(db'.events[id]) == IdentityOf(e);
      forall x | x in db.events ensures IdentityOf(db.events[x]) != IdentityOf(e) {}
      forall j | j in db.jobs ensures db.jobs[j] != id {}
    }
  }

  lemma InsertedExtends(db: Db, e: Event, id: EventId, job: JobId, enqueue: bool)
    requires Distinct(db) && id !in db.events && job !in db.jobs
    ensures Extends(db, Inserted(db, e, id, job, enqueue))
  {
    var db' := Inserted(db, e, id, job, enqueue);
    forall x | x in db.events ensures HasJob(db', x) <==> HasJob(db, x) {
      if HasJob(db, x) {
        var j :| j in db.jobs && db.jobs[j] == x;
        assert j in db'.jobs && db'.jobs[j] == x;
      }
    }
  }

  lemma InsertedDecided(db: Db, decided: map<EventId, bool>, e: Event, id: EventId, job: JobId, enqueue: bool)
    requires Distinct(db) && Decided(db, decided) && id !in db.events && job !in db.jobs
    ensures Decided(Inserted(db, e, id, job, enqueue), DecidedAfter(db, decided, e, id, enqueue))
  {
    var db' := Inserted(db, e, id, job, enqueue);
    if !Stored(db, e) {
      InsertedExtends(db, e, id, job, enqueue);
      assert !HasJob(db, id);
      if enqueue { assert job in db'.jobs && db'.jobs[job] == id; }
    }
  }

  /** One event's part of an insert loop: a failing statement throws and rolls that event back. */
  datatype Answer = Commits(enqueue: bool) | Fails

  ghost predicate AllStored(db: Db, list: seq<Event>) {
    forall e | e in list :: Stored(db, e)
  }

  ghost predicate DecisionsKept(before: map<EventId, bool>, after: map<EventId, bool>) {
    forall id | id in before :: id in after && after[id] == before[id]
  }

  /** `inserted` are the rows added, each for an event of the list. */
  ghost predicate NewRows(db: Db, db': Db, list: seq<Event>, inserted: seq<EventId>) {
    && (forall id | id in inserted :: id !in db.events && id in db'.events && db'.events[id] in list)
    && (forall id | id in db'.events :: id in db.events || id in inserted)
  }

  lemma ExtendsTransitive(a: Db, b: Db, c: Db)
    requires Extends(a, b) && Extends(b, c)
    ensures Extends(a, c)
  {
    forall id | id in a.events ensures HasJob(c, id) <==> HasJob(a, id) {
      assert id in b.events;
    }
  }

  lemma AllStoredGrows(db: Db, db': Db, list: seq<Event>, i: nat)
    requires i < |list| && Extends(db, db') && AllStored(db, list[..i]) && Stored(db', list[i])
    ensures AllStored(db', list[..i + 1])
  {
    forall e | e in list[..i + 1] ensures Stored(db', e) {
      if e in list[..i] { StaysStored(db, db', e); }
    }
  }

  lemma NewRowsGrow(first: Db, db: Db, list: seq<Event>, inserted: seq<EventId>, i: nat, id: EventId, enqueue: bool)
    requires NewRows(first, db, list, inserted) && Extends(first, db) && i < |list| && id !in db.events
    ensures var db' := Inserted(db, list[i], id, id, enqueue);
            NewRows(first, db', list, if Stored(db, list[i]) then inserted else inserted + [id])
  {
    var db' := Inserted(db, list[i], id, id, enqueue);
    if !Stored(db, list[i]) {
      forall x | x in inserted + [id] ensures x !in first.events && x in db'.events && db'.events[x] in list {}
    }
  }

  /** No statement of the first `n` events throws. */
  ghost predicate NoneFails(wallets: set<WalletId>, list: seq<Event>, answers: nat -> Answer, n: nat)
    requires n <= |list|
  {
    forall i: nat | i < n :: Goes(wallets, list, answers, i)
  }

  /** The i-th event's transaction commits. */
  ghost predicate Goes(wallets: set<WalletId>, list: seq<Event>, answers: nat -> Answer, i: nat)
    requires i < |list|
  {
    answers(i).Commits? && list[i].wallet in wallets
  }

  ghost predicate ValidDb(db: Db, n: nat, decided: map<EventId, bool>) {
    Distinct(db) && Below(db, n) && Decided(db, decided)
  }

  /** One insertion with the next id keeps the tables valid. */
  lemma InsertedValid(db: Db, n: nat, decided: map<EventId, bool>, e: Event, enqueue: bool)
    requires ValidDb(db, n, decided) && e.wallet in db.wallets
    ensures var db' := Inserted(db, e, n, n, enqueue);
            && ValidDb(db', if Stored(db, e) then n else n + 1, DecidedAfter(db, decided, e, n, enqueue))
            && Extends(db, db') && Stored(db', e)
    ensures !HasJob(db, n)
  {
    NewIdIsFree(db, n);
    InsertedDistinct(db, e, n, n, enqueue);
    InsertedExtends(db, e, n, n, enqueue);
    InsertedDecided(db, decided, e, n, n, enqueue);
    InsertedBelow(db, e, n, enqueue);
  }

  lemma NewIdIsFree(db: Db, n: nat)
    requires Distinct(db) && Below(db, n)
    ensures n !in db.events && n !in db.jobs && !HasJob(db, n)
  {
  }

  lemma InsertedBelow(db: Db, e: Event, n: nat, enqueue: bool)
    requires Below(db, n)
    ensures Below(Inserted(db, e, n, n, enqueue), if Stored(db, e) then n else n + 1)
  {
  }

  lemma NoneFailsSnoc(wallets: set<WalletId>, list: seq<Event>, answers: nat -> Answer, i: nat)
    requires i < |list| && NoneFails(wallets, list, answers, i) && Goes(wallets, list, answers, i)
    ensures NoneFails(wallets, list, answers, i + 1)
  {
  }

  /** How many of the events commit before the first that throws. */
  ghost function Committing(wallets: set<WalletId>, list: seq<Event>, answers: nat -> Answer, i: nat): (n: nat)
    requires i <= |list|
    ensures i <= n <= |list| && (n == |list| <==> forall j: nat | i <= j < |list| :: Goes(wallets, list, answers, j))
    decreases |list| - i
  {
    if i == |list| || !Goes(wallets, list, answers, i) then i else Committing(wallets, list, answers, i + 1)
  }

  lemma {:induction false} CommittingIs(wallets: set<WalletId>, list: seq<Event>, answers: nat -> Answer, i: nat, n: nat)
    requires i <= n <= |list| && NoneFails(wallets, list, answers, n)
    requires n == |list| || !Goes(wallets, list, answers, n)
    ensures Committing(wallets, list, answers, i) == n
    decreases n - i
  {
    if i < n {
      assert Goes(wallets, list, answers, i);
      CommittingIs(wallets, list, answers, i + 1, n);
    }
  }

  /** The tables, the decisions taken and the ids inserted at one point of the loop. */
  datatype Snapshot = Snapshot(db: Db, nextId: nat, decided: map<EventId, bool>, inserted: seq<EventId>)

  ghost function AfterInsert(s: Snapshot, e: Event, enqueue: bool): Snapshot {
    var again := Stored(s.db, e);
    Snapshot(Inserted(s.db, e, s.nextId, s.nextId, enqueue), if again then s.nextId else s.nextId + 1,
             DecidedAfter(s.db, s.decided, e, s.nextId, enqueue), if again then s.inserted else s.inserted + [s.nextId])
  }

  /** The tables after the first `n` events were inserted one after the other. */
  ghost function AfterInserts(first: Snapshot, list: seq<Event>, answers: nat -> Answer, n: nat): Snapshot
    requires n <= |list|
  {
    if n == 0 then first
    else AfterInsert(AfterInserts(first, list, answers, n - 1), list[n - 1], answers(n - 1).Commits? && answers(n - 1).enqueue)
  }

  lemma OneInsertMore(first: Snapshot, list: seq<Event>, answers: nat -> Answer, i: nat)
    requires i < |list| && answers(i).Commits?
    ensures AfterInserts(first, list, answers, i + 1) == AfterInsert(AfterInserts(first, list, answers, i), list[i], answers(i).enqueue)
  {
  }

  /** The first `n` events were inserted one after the other, and none failed. */
  ghost predicate Reached(first: Snapshot, s: Snapshot, list: seq<Event>, answers: nat -> Answer, n: nat)
    requires n <= |list|
  {
    NoneFails(first.db.wallets, list, answers, n) && s == AfterInserts(first, list, answers, n)
  }

  lemma ReachedOneMore(first: Snapshot, s: Snapshot, list: seq<Event>, answers: nat -> Answer, i: nat)
    requires i < |list| && Reached(first, s, list, answers, i) && Goes(first.db.wallets, list, answers, i)
    ensures Reached(first, AfterInsert(s, list[i], answers(i).enqueue), list, answers, i + 1)
  {
    NoneFailsSnoc(first.db.wallets, list, answers, i);
    OneInsertMore(first, list, answers, i);
  }

  /** What inserting the first `i` events keeps and adds. */
  ghost predicate Inserting(first: Snapshot, s: Snapshot, list: seq<Event>, i: nat) {
    && i <= |list| && ValidDb(s.db, s.nextId, s.decided) && Extends(first.db, s.db) && DecisionsKept(first.decided, s.decided)
    && NewRows(first.db, s.db, list, s.inserted) && AllStored(s.db, list[..i])
  }

  lemma InsertingStep(first: Snapshot, s: Snapshot, list: seq<Event>, i: nat, enqueue: bool)
    requires Inserting(first, s, list, i) && i < |list| && list[i].wallet in s.db.wallets
    ensures Inserting(first, AfterInsert(s, list[i], enqueue), list, i + 1)
  {
    var e := list[i];
    InsertedValid(s.db, s.nextId, s.decided, e, enqueue);
    ExtendsTransitive(first.db, s.db, Inserted(s.db, e, s.nextId, s.nextId, enqueue));
    AllStoredGrows(s.db, Inserted(s.db, e, s.nextId, s.nextId, enqueue), list, i);
    NewRowsGrow(first.db, s.db, list, s.inserted, i, s.nextId, enqueue);
  }

  ghost predicate KeptAt(first: Snapshot, list: seq<Event>, answers: nat -> Answer, n: nat) {
    n <= |list| && forall s | s == AfterInserts(first, list, answers, n) :: Inserting(first, s, list, n)
  }

  lemma KeptNext(first: Snapshot, list: seq<Event>, answers: nat -> Answer, i: nat)
    requires i < |list| && KeptAt(first, list, answers, i) && Goes(first.db.wallets, list, answers, i)
    ensures KeptAt(first, list, answers, i + 1)
  {
    var s := AfterInserts(first, list, answers, i);
    assert Inserting(first, s, list, i);
    InsertingStep(first, s, list, i, answers(i).enqueue);
    OneInsertMore(first, list, answers, i);
  }

  lemma KeptStep(first: Snapshot, list: seq<Event>, answers: nat -> Answer, n: nat)
    requires 0 < n <= |list| && KeptAt(first, list, answers, n - 1) && NoneFails(first.db.wallets, list, answers, n)
    ensures KeptAt(first, list, answers, n)
  {
    NoneFailsInit(first.db.wallets, list, answers, n);
    KeptNext(first, list, answers, n - 1);
  }

  lemma KeptAtStart(first: Snapshot, list: seq<Event>, answers: nat -> Answer)
    requires ValidDb(first.db, first.nextId, first.decided) && first.inserted == []
    ensures KeptAt(first, list, answers, 0)
  {
    assert Inserting(first, first, list, 0);
  }

  lemma {:induction false} AfterInsertsKeeps(first: Snapshot, list: seq<Event>, answers: nat -> Answer, n: nat)
    requires n <= |list| && ValidDb(first.db, first.nextId, first.decided) && first.inserted == []
    requires NoneFails(first.db.wallets, list, answers, n)
    ensures KeptAt(first, list, answers, n)
    decreases n
  {
    if n == 0 {
      KeptAtStart(first, list, answers);
    } else {
      NoneFailsInit(first.db.wallets, list, answers, n);
      AfterInsertsKeeps(first, list, answers, n - 1);
      KeptStep(first, list, answers, n);
    }
  }

  lemma NoneFailsInit(wallets: set<WalletId>, list: seq<Event>, answers: nat -> Answer, n: nat)
    requires 0 < n <= |list| && NoneFails(wallets, list, answers, n)
    ensures NoneFails(wallets, list, answers, n - 1) && Goes(wallets, list, answers, n - 1)
  {
  }

  class EventStore {
    var wallets: set<WalletId>
    var events: map<EventId, Event>
    var jobs: map<JobId, EventId>
    var nextId: nat
    // What the first insertion of each event decided about its notification.
    ghost var decided: map<EventId, bool>

    function State(): Db
      reads this
    {
      Db(wallets, events, jobs)
    }

    ghost predicate Valid()
      reads this
    {
      ValidDb(State(), nextId, decided)
    }

    constructor ()
      ensures Valid() && State() == Db({}, map[], map[])
    {
      wallets, events, jobs, nextId, decided := {}, map[], map[], 0, map[];
    }

    ghost function Now(inserted: seq<EventId>): Snapshot
      reads this
    {
      Snapshot(State(), nextId, decided, inserted)
    }

    /** One event's transaction; `None` is a thrown error, after the rollback. A new id joins `inserted`. */
    method InsertOne(e: Event, answer: Answer, inserted: seq<EventId>) returns (result: Option<bool>, inserted': seq<EventId>)
      requires Valid()
      modifies this
      ensures Valid() && wallets == old(wallets)
      ensures result.None? <==> answer.Fails? || e.wallet !in wallets
      ensures result.Some? ==> result.value == !Stored(old(State()), e) == !HasRow(old(State()), e)
      // A new event is stored as it is, under the id reported, with a job exactly when the decision asks for one.
      ensures result == Some(true) ==>
                && var id := old(nextId);
                && inserted' == inserted + [id] && id !in old(events) && events == old(events)[id := e]
                && (HasJob(State(), id) <==> answer.enqueue) && jobs == if answer.enqueue then old(jobs)[id := id] else old(jobs)
      ensures result != Some(true) ==> State() == old(State()) && inserted' == inserted
      ensures Now(inserted') == if result.None? then old(Now(inserted)) else AfterInsert(old(Now(inserted)), e, answer.enqueue)
    {
      inserted' := inserted;
      if answer.Fails? || e.wallet !in wallets {
        return None, inserted;
      }
      InsertedValid(State(), nextId, decided, e, answer.enqueue);
      StoredMeansRow(State(), e);
      NewIdIsFree(State(), nextId);
      if Stored(State(), e) {
        return Some(false), inserted;
      }
      var id := StoreNew(e, answer.enqueue);
      return Some(true), inserted + [id];
    }

    /** The insert statements of a new identity: the row, and its job when the decision asks for one. */
    method StoreNew(e: Event, enqueue: bool) returns (id: EventId)
      requires !Stored(State(), e) && !HasJob(State(), nextId)
      modifies this
      ensures id == old(nextId) && nextId == old(nextId) + 1
      ensures State() == Inserted(old(State()), e, id, id, enqueue) && decided == old(decided)[id := enqueue]
    {
      id := nextId;
      nextId, events, decided := nextId + 1, events[id := e], decided[id := enqueue];
      jobs := if enqueue then jobs[id := id] else jobs;
    }

    /** The loop of `insertWalletEvents`: one transaction per event until one throws. */
    method InsertUntilFailure(list: seq<Event>, answers: nat -> Answer) returns (ghost n: nat, ok: bool, inserted: seq<EventId>)
      requires Valid()
      modifies this
      ensures Valid() && n <= |list| && NoneFails(old(wallets), list, answers, n)
      ensures if ok then n == |list| else n < |list| && !Goes(old(wallets), list, answers, n)
      ensures Now(inserted) == AfterInserts(old(Now([])), list, answers, n)
    {
      ghost var first := Now([]);
      inserted, n := [], 0;
      for i := 0 to |list|
        invariant Valid() && wallets == first.db.wallets && n == i
        invariant Reached(first, Now(inserted), list, answers, i)
      {
        var result;
        ghost var s := Now(inserted);
        result, inserted := InsertOne(list[i], answers(i), inserted);
        if result.None? {
          return i, false, inserted;
        }
        ReachedOneMore(first, s, list, answers, i);
        n := n + 1;
      }
      ok := true;
    }

    /** `insertWalletEvents`: stops at the first error, and what it inserted before stays. */
    method InsertWalletEvents(list: seq<Event>, answers: nat -> Answer) returns (ok: bool, inserted: seq<EventId>)
      requires Valid()
      modifies this
      // Exactly the events before the first failing one are inserted, in order.
      ensures Now(inserted) == AfterInserts(old(Now([])), list, answers, Committing(old(wallets), list, answers, 0))
      ensures Inserting(old(Now([])), Now(inserted), list, Committing(old(wallets), list, answers, 0))
      ensures ok <==> Committing(old(wallets), list, answers, 0) == |list|
      ensures Valid() && Extends(old(State()), State())
      // On success every event has a row with its columns, and events that differ in one of them have different rows.
      ensures ok ==> AllStored(State(), list) && forall e | e in list :: HasRow(State(), e)
      ensures ok ==> forall e, f, x, y | e in list && f in list && !SameEvent(e, f) && x in events && y in events
                                         && SameEvent(events[x], e) && SameEvent(events[y], f) :: x != y
    {
      ghost var first := Now([]);
      ghost var n;
      n, ok, inserted := InsertUntilFailure(list, answers);
      CommittingIs(first.db.wallets, list, answers, 0, n);
      AfterInsertsKeeps(first, list, answers, n);
      assert Inserting(first, Now(inserted), list, n);
      assert list[..|list|] == list;
      if ok { AllHaveRows(State(), list); }
    }
  }
}
