/**
 The notification outbox: jobs are claimed in batches, each pushes one event to the user's active devices,
 and each device's outcome is kept in a delivery row that no later attempt may turn back once delivered.

 A `Script` stands for what the push service and the database answer during one call.
 */
module Outbox {
  import opened Collections
  import opened Wrappers

  type JobId = nat
  type EventId = nat
  type UserId = nat
  type DeviceId = nat

  const MAX_ATTEMPTS: nat := 3
  const RETRY_BASE_MS := 30 * 1000

  datatype JobStatus = Pending | Processing | Sent | Failed

  datatype Job = Job(event: EventId, status: JobStatus, attempts: nat, nextAt: int, lockedAt: Option<int>, createdAt: int)

  datatype DeliveryStatus = Awaiting | Delivered(receipt: nat) | Refused

  datatype Delivery = Delivery(status: DeliveryStatus, retryable: bool)

  type DeliveryKey = (EventId, DeviceId)

  /** `version` is the row's `updated_at`. */
  datatype Device = Device(user: UserId, active: bool, token: nat, version: nat)

  /** How `sendPush` ended, with its error classified. */
  datatype Push = Accepted(receipt: nat) | Skipped | Unconfirmed | InvalidToken | Transient | Permanent

  /** One device's part of a script; a failing statement throws. */
  datatype DeviceScript = DeviceScript(reserves: bool, push: Push, records: bool)

  datatype Script = Script(loads: bool, device: DeviceId -> DeviceScript, marks: bool)

  datatype Counts = Counts(delivered: nat, failed: nat, skipped: nat)

  datatype JobResult = Done(status: JobStatus, counts: Counts) | Threw

  // ---- Delivery rows ----

  /** The upsert: a delivered row is left alone. */
  function Upserted(rows: map<DeliveryKey, Delivery>, k: DeliveryKey, d: Delivery): map<DeliveryKey, Delivery> {
    if IsDelivered(rows, k) then rows else rows[k := d]
  }

  predicate IsDelivered(rows: map<DeliveryKey, Delivery>, k: DeliveryKey) {
    k in rows && rows[k].status.Delivered?
  }

  /** The row that records how a push ended. */
  function Outcome(p: Push): Delivery {
    match p
    case Accepted(receipt) => Delivery(Delivered(receipt), false)
    case Skipped => Delivery(Refused, false)
    case Unconfirmed => Delivery(Refused, true)
    case InvalidToken => Delivery(Refused, false)
    case Transient => Delivery(Refused, true)
    case Permanent => Delivery(Refused, false)
  }

  /** A row says delivered exactly after an accepted push, and is to be tried again exactly after a failure that may pass. */
  lemma OutcomeMeans(p: Push)
    ensures Outcome(p).status == if p.Accepted? then Delivered(p.receipt) else Refused
    ensures Outcome(p).retryable <==> p.Transient? || p.Unconfirmed?
  {
  }

  function Flags(already: bool, p: Push): (bool, bool, bool) {
    (already || p.Accepted?, !already && p.Skipped?, !already && Outcome(p).retryable)
  }

  predicate Recorded(before: map<DeliveryKey, Delivery>, rows: map<DeliveryKey, Delivery>, k: DeliveryKey, p: Push, flags: (bool, bool, bool)) {
    if k in before && before[k].status.Delivered? then rows == before && flags == (true, false, false)
    else
      && k in rows && rows[k].status == (if p.Accepted? then Delivered(p.receipt) else Refused)
      && (rows[k].retryable <==> p.Transient? || p.Unconfirmed?)
      && flags == (p.Accepted?, p.Skipped?, p.Transient? || p.Unconfirmed?)
  }

  /** What an attempt leaves for one device it was not settled for. */
  function AfterAttempt(rows: map<DeliveryKey, Delivery>, k: DeliveryKey, p: Push): Delivery {
    if k in rows && (rows[k].status.Delivered? || Settled(rows, k)) then rows[k] else Outcome(p)
  }

  /** The devices counted as delivered, as skipped, and those that keep the job from being sent. */
  function DeliveredNow(rows: map<DeliveryKey, Delivery>, e: EventId, ds: set<DeviceId>, script: Script): set<DeviceId> {
    set d | d in ds && !Settled(rows, (e, d)) && script.device(d).push.Accepted?
  }

  function SkippedNow(rows: map<DeliveryKey, Delivery>, e: EventId, ds: set<DeviceId>, script: Script): set<DeviceId> {
    set d | d in ds && (Settled(rows, (e, d)) || script.device(d).push.Skipped?)
  }

  /** This device makes the attempt throw. */
  predicate Troubles(rows: map<DeliveryKey, Delivery>, k: DeliveryKey, s: DeviceScript) {
    !Settled(rows, k) && (!s.reserves || !s.records || s.push.Transient? || s.push.Unconfirmed?)
  }

  const RESERVATION := Delivery(Awaiting, true)

  /** No further push is owed to this device. */
  predicate Settled(rows: map<DeliveryKey, Delivery>, k: DeliveryKey) {
    k in rows && (rows[k].status.Delivered? || (rows[k].status.Refused? && !rows[k].retryable))
  }

  ghost predicate DeliveredKept(before: map<DeliveryKey, Delivery>, after: map<DeliveryKey, Delivery>) {
    forall k | IsDelivered(before, k) :: k in after && after[k] == before[k]
  }

  ghost predicate OnlyEvent(before: map<DeliveryKey, Delivery>, after: map<DeliveryKey, Delivery>, e: EventId) {
    before.Keys <= after.Keys && forall k | k in after && k.0 != e :: k in before && after[k] == before[k]
  }

  // ---- Jobs ----

  predicate Due(j: Job, now: int, staleBefore: int) {
    || (j.status.Pending? && j.nextAt <= now)
    || (j.status.Processing? && j.lockedAt.Some? && j.lockedAt.value <= staleBefore)
  }

  function Taken(j: Job, now: int): Job {
    j.(status := Processing, attempts := j.attempts + 1, lockedAt := Some(now))
  }

  predicate Terminal(j: Job) {
    j.status.Sent? || j.status.Failed?
  }

  /** Between batches that neither overlap nor crash: nothing is processing and no attempt is left over. */
  predicate Rested(j: Job, maxAttempts: nat) {
    Terminal(j) || (j.status.Pending? && j.attempts < maxAttempts)
  }

  predicate Sooner(jobs: map<JobId, Job>, x: JobId, y: JobId)
    requires x in jobs && y in jobs
  {
    jobs[x].nextAt < jobs[y].nextAt || (jobs[x].nextAt == jobs[y].nextAt && jobs[x].createdAt <= jobs[y].createdAt)
  }

  predicate Soonest(jobs: map<JobId, Job>, ids: set<JobId>, id: JobId)
    requires ids <= jobs.Keys
  {
    id in ids && forall x | x in ids :: Sooner(jobs, id, x)
  }

  lemma {:induction false} SoonestExists(jobs: map<JobId, Job>, ids: set<JobId>)
    requires ids != {} && ids <= jobs.Keys
    ensures exists id | id in ids :: Soonest(jobs, ids, id)
  {
    var x :| x in ids;
    if ids == {x} {
      assert Soonest(jobs, ids, x);
    } else {
      SoonestExists(jobs, ids - {x});
      var y :| y in ids - {x} && Soonest(jobs, ids - {x}, y);
      var best := if Sooner(jobs, x, y) then x else y;
      forall z | z in ids ensures Sooner(jobs, best, z) {
        assert z == x || z in ids - {x};
      }
      assert Soonest(jobs, ids, best);
    }
  }

  function ActiveDevices(devices: map<DeviceId, Device>, u: UserId): set<DeviceId> {
    set d | d in devices && devices[d].user == u && devices[d].active
  }

  function Candidates(jobs: map<JobId, Job>, now: int, staleBefore: int, only: Option<JobId>): set<JobId> {
    set id | id in jobs && Due(jobs[id], now, staleBefore) && (only == None || only == Some(id))
  }

  function TakenAll(jobs: map<JobId, Job>, claimed: seq<JobId>, now: int): map<JobId, Job> {
    map id | id in jobs :: if id in claimed then Taken(jobs[id], now) else jobs[id]
  }

  /** The claimed jobs are candidates, each once, and no candidate left over is sooner than one of them. */
  ghost predicate Picked(jobs: map<JobId, Job>, candidates: set<JobId>, claimed: seq<JobId>, rest: set<JobId>) {
    && candidates <= jobs.Keys && Distinct(claimed) && rest !! Elements(claimed) && rest + Elements(claimed) == candidates
    && forall c, id | c in claimed && id in rest :: Sooner(jobs, c, id)
  }

  lemma PickedGrows(jobs: map<JobId, Job>, candidates: set<JobId>, claimed: seq<JobId>, rest: set<JobId>, id: JobId, now: int)
    requires Picked(jobs, candidates, claimed, rest) && rest <= jobs.Keys && Soonest(TakenAll(jobs, claimed, now), rest, id)
    ensures Picked(jobs, candidates, claimed + [id], rest - {id})
    ensures TakenAll(jobs, claimed + [id], now) == TakenAll(jobs, claimed, now)[id := Taken(jobs[id], now)] && id !in claimed
  {
    assert Elements(claimed + [id]) == Elements(claimed) + {id};
    forall x | x in rest ensures x !in claimed && Sooner(jobs, id, x) {
      assert x !in Elements(claimed) && id !in Elements(claimed);
      assert Sooner(TakenAll(jobs, claimed, now), id, x);
    }
  }

  /** A batch after its first `i` jobs: those are done with, the rest of the claimed ones still processing. */
  ghost predicate Turned(before: map<JobId, Job>, jobs: map<JobId, Job>, claimed: seq<JobId>, i: nat, maxAttempts: nat, now: int) {
    && i <= |claimed| && jobs.Keys == before.Keys && (forall id | id in claimed :: id in jobs)
    && (forall j | i <= j < |claimed| :: jobs[claimed[j]] == Taken(before[claimed[j]], now))
    && (forall j | 0 <= j < i :: Rested(jobs[claimed[j]], maxAttempts) && jobs[claimed[j]].attempts == before[claimed[j]].attempts + 1)
    && (forall id | id in jobs && id !in claimed :: jobs[id] == before[id])
  }

  lemma TurnedStarts(before: map<JobId, Job>, claimed: seq<JobId>, maxAttempts: nat, now: int, staleBefore: int, only: Option<JobId>)
    requires Elements(claimed) <= Candidates(before, now, staleBefore, only)
    ensures Turned(before, TakenAll(before, claimed, now), claimed, 0, maxAttempts, now)
    ensures Elements(claimed[..0]) == {}
  {
    assert forall id | id in claimed :: id in Elements(claimed);
  }

  /** After the last job every claimed one is at rest, one attempt further. */
  lemma TurnedEnds(before: map<JobId, Job>, jobs: map<JobId, Job>, claimed: seq<JobId>, maxAttempts: nat, now: int, staleBefore: int,
                   only: Option<JobId>)
    requires Turned(before, jobs, claimed, |claimed|, maxAttempts, now) && Elements(claimed) <= Candidates(before, now, staleBefore, only)
    requires forall id | id in before :: before[id].attempts <= maxAttempts && Rested(before[id], maxAttempts)
    ensures forall id | id in jobs :: jobs[id].attempts <= maxAttempts && Rested(jobs[id], maxAttempts)
    ensures forall id | id in claimed :: id in jobs && jobs[id].attempts == before[id].attempts + 1 && !Terminal(before[id])
  {
    forall id | id in claimed
      ensures Rested(jobs[id], maxAttempts) && jobs[id].attempts == before[id].attempts + 1
      ensures !Terminal(before[id]) && before[id].attempts < maxAttempts
    {
      assert id in Elements(claimed);
      var j :| 0 <= j < |claimed| && claimed[j] == id;
    }
  }

  function WithStatus(jobs: map<JobId, Job>, ids: set<JobId>, status: JobStatus): set<JobId> {
    set id | id in ids && id in jobs && jobs[id].status == status
  }

  ghost predicate Tallied(jobs: map<JobId, Job>, ids: set<JobId>, sent: nat, retried: nat, failed: nat) {
    sent == |WithStatus(jobs, ids, Sent)| && retried == |WithStatus(jobs, ids, Pending)| && failed == |WithStatus(jobs, ids, Failed)|
  }

  lemma StatusGrows(held: map<JobId, Job>, jobs: map<JobId, Job>, ids: set<JobId>, id: JobId, status: JobStatus)
    requires id !in ids && id in jobs && jobs.Keys == held.Keys && forall x | x in jobs && x != id :: jobs[x] == held[x]
    ensures |WithStatus(jobs, ids + {id}, status)| == |WithStatus(held, ids, status)| + if jobs[id].status == status then 1 else 0
  {
    var before, after := WithStatus(held, ids, status), WithStatus(jobs, ids + {id}, status);
    forall x ensures x in after <==> x in before || (x == id && jobs[id].status == status) {}
    if jobs[id].status == status {
      assert after == before + {id};
    } else {
      assert after == before;
    }
  }

  lemma TalliedGrows(held: map<JobId, Job>, jobs: map<JobId, Job>, ids: set<JobId>, id: JobId, sent: nat, retried: nat, failed: nat)
    requires id !in ids && id in jobs && jobs.Keys == held.Keys && forall x | x in jobs && x != id :: jobs[x] == held[x]
    requires Tallied(held, ids, sent, retried, failed)
    ensures Tallied(jobs, ids + {id}, if jobs[id].status.Sent? then sent + 1 else sent,
                    if jobs[id].status.Pending? then retried + 1 else retried, if jobs[id].status.Failed? then failed + 1 else failed)
  {
    StatusGrows(held, jobs, ids, id, Sent);
    StatusGrows(held, jobs, ids, id, Pending);
    StatusGrows(held, jobs, ids, id, Failed);
  }

  lemma TurnedGrows(before: map<JobId, Job>, held: map<JobId, Job>, jobs: map<JobId, Job>, claimed: seq<JobId>, i: nat,
                    maxAttempts: nat, now: int)
    requires Distinct(claimed) && i < |claimed| && Turned(before, held, claimed, i, maxAttempts, now)
    requires jobs.Keys == held.Keys && forall x | x in jobs && x != claimed[i] :: jobs[x] == held[x]
    requires Rested(jobs[claimed[i]], maxAttempts) && jobs[claimed[i]].attempts == held[claimed[i]].attempts
    ensures Turned(before, jobs, claimed, i + 1, maxAttempts, now)
  {
  }

  function TurnFlags(rows: map<DeliveryKey, Delivery>, k: DeliveryKey, p: Push): (bool, bool, bool) {
    if Settled(rows, k) then (false, true, false) else Flags(false, p)
  }

  /** The job's rows, counters and retry count after its first `i` devices, in terms of the rows before. */
  ghost predicate Progress(before: map<DeliveryKey, Delivery>, rows: map<DeliveryKey, Delivery>, listed: seq<DeviceId>, i: nat,
                           e: EventId, script: Script, counts: Counts, retryables: nat) {
    && i <= |listed| && Distinct(listed)
    && rows == Attempted(before, listed[..i], e, script)
    && CountsSoFar(before, listed, i, e, script, counts)
    && RetriesSoFar(before, listed, i, e, script, retryables)
  }

  ghost predicate RetriesSoFar(before: map<DeliveryKey, Delivery>, listed: seq<DeviceId>, i: nat, e: EventId, script: Script, retryables: nat)
    requires i <= |listed|
  {
    retryables == 0 <==> forall d | d in listed[..i] :: !Troubles(before, (e, d), script.device(d))
  }

  ghost predicate CountsSoFar(before: map<DeliveryKey, Delivery>, listed: seq<DeviceId>, i: nat, e: EventId, script: Script, counts: Counts)
    requires i <= |listed|
  {
    && counts.delivered == |DeliveredNow(before, e, Elements(listed[..i]), script)|
    && counts.skipped == |SkippedNow(before, e, Elements(listed[..i]), script)|
    && counts.delivered + counts.failed + counts.skipped == i
  }

  lemma CountsStep(before: map<DeliveryKey, Delivery>, listed: seq<DeviceId>, i: nat, e: EventId, script: Script, counts: Counts)
    requires i < |listed| && Distinct(listed) && CountsSoFar(before, listed, i, e, script, counts)
    ensures CountsSoFar(before, listed, i + 1, e, script, Counted(counts, TurnFlags(before, (e, listed[i]), script.device(listed[i]).push)))
  {
    Later(listed, i);
    DeliveredGrows(before, e, Elements(listed[..i]), listed[i], script);
    SkippedGrows(before, e, Elements(listed[..i]), listed[i], script);
  }

  lemma RetriesStep(before: map<DeliveryKey, Delivery>, listed: seq<DeviceId>, i: nat, e: EventId, script: Script, retryables: nat)
    requires i < |listed| && RetriesSoFar(before, listed, i, e, script, retryables)
    requires var d := listed[i]; Settled(before, (e, d)) || (script.device(d).reserves && script.device(d).records)
    ensures var f := TurnFlags(before, (e, listed[i]), script.device(listed[i]).push);
            RetriesSoFar(before, listed, i + 1, e, script, if f.2 then retryables + 1 else retryables)
  {
    var d := listed[i];
    assert listed[..i + 1] == listed[..i] + [d];
    assert TurnFlags(before, (e, d), script.device(d).push).2 <==> Troubles(before, (e, d), script.device(d));
  }

  /** The rows after every device of `ds` had its attempt. */
  ghost function Attempted(before: map<DeliveryKey, Delivery>, ds: seq<DeviceId>, e: EventId, script: Script): map<DeliveryKey, Delivery> {
    map k | k in before.Keys + (set d | d in ds :: (e, d)) ::
      if k.0 == e && k.1 in ds then AfterAttempt(before, k, script.device(k.1).push) else before[k]
  }

  lemma AttemptedOne(before: map<DeliveryKey, Delivery>, ds: seq<DeviceId>, d: DeviceId, e: EventId, script: Script)
    requires d !in ds
    ensures var rows := Attempted(before, ds, e, script);
            && ((e, d) in before <==> (e, d) in rows) && ((e, d) in before ==> rows[(e, d)] == before[(e, d)])
            && Attempted(before, ds + [d], e, script) == rows[(e, d) := AfterAttempt(before, (e, d), script.device(d).push)]
  {
  }

  lemma ProgressStarts(before: map<DeliveryKey, Delivery>, listed: seq<DeviceId>, e: EventId, script: Script)
    requires Distinct(listed)
    ensures Progress(before, before, listed, 0, e, script, Counts(0, 0, 0), 0)
  {
    assert Attempted(before, [], e, script) == before;
    assert DeliveredNow(before, e, {}, script) == {} && SkippedNow(before, e, {}, script) == {};
    assert Elements(listed[..0]) == {} && listed[..0] == [];
  }

  lemma Later(listed: seq<DeviceId>, i: nat)
    requires Distinct(listed) && i < |listed|
    ensures listed[i] !in listed[..i] && listed[..i + 1] == listed[..i] + [listed[i]]
    ensures Elements(listed[..i + 1]) == Elements(listed[..i]) + {listed[i]}
  {
    assert listed[..i + 1] == listed[..i] + [listed[i]];
  }

  lemma NotYetTouched(before: map<DeliveryKey, Delivery>, rows: map<DeliveryKey, Delivery>, listed: seq<DeviceId>, i: nat,
                      e: EventId, script: Script, counts: Counts, retryables: nat)
    requires Progress(before, rows, listed, i, e, script, counts, retryables) && i < |listed|
    ensures var k := (e, listed[i]); (k in before <==> k in rows) && (k in before ==> rows[k] == before[k])
  {
    Later(listed, i);
    AttemptedOne(before, listed[..i], listed[i], e, script);
  }

  lemma DeliveredGrows(before: map<DeliveryKey, Delivery>, e: EventId, ds: set<DeviceId>, d: DeviceId, script: Script)
    requires d !in ds
    ensures |DeliveredNow(before, e, ds + {d}, script)|
            == |DeliveredNow(before, e, ds, script)| + if TurnFlags(before, (e, d), script.device(d).push).0 then 1 else 0
  {
    var f := TurnFlags(before, (e, d), script.device(d).push);
    assert DeliveredNow(before, e, ds + {d}, script) == DeliveredNow(before, e, ds, script) + if f.0 then {d} else {};
  }

  lemma SkippedGrows(before: map<DeliveryKey, Delivery>, e: EventId, ds: set<DeviceId>, d: DeviceId, script: Script)
    requires d !in ds
    ensures |SkippedNow(before, e, ds + {d}, script)|
            == |SkippedNow(before, e, ds, script)| + if TurnFlags(before, (e, d), script.device(d).push).1 then 1 else 0
  {
    var f := TurnFlags(before, (e, d), script.device(d).push);
    assert SkippedNow(before, e, ds + {d}, script) == SkippedNow(before, e, ds, script) + if f.1 then {d} else {};
  }

  /** The counters after a device that was delivered, skipped, or neither. */
  function Counted(c: Counts, f: (bool, bool, bool)): Counts {
    if f.0 then c.(delivered := c.delivered + 1) else if f.1 then c.(skipped := c.skipped + 1) else c.(failed := c.failed + 1)
  }

  lemma ProgressGrows(before: map<DeliveryKey, Delivery>, rows: map<DeliveryKey, Delivery>, listed: seq<DeviceId>, i: nat,
                      e: EventId, script: Script, counts: Counts, retryables: nat)
    requires Progress(before, rows, listed, i, e, script, counts, retryables) && i < |listed|
    requires var d := listed[i]; Settled(before, (e, d)) || (script.device(d).reserves && script.device(d).records)
    ensures var d := listed[i];
            var f := TurnFlags(before, (e, d), script.device(d).push);
            Progress(before, rows[(e, d) := AfterAttempt(before, (e, d), script.device(d).push)], listed, i + 1, e, script,
                     Counted(counts, f), if f.2 then retryables + 1 else retryables)
  {
    Later(listed, i);
    AttemptedOne(before, listed[..i], listed[i], e, script);
    CountsStep(before, listed, i, e, script, counts);
    RetriesStep(before, listed, i, e, script, retryables);
  }

  /** An attempt keeps delivered rows and touches no other event's. */
  lemma AttemptedKeeps(before: map<DeliveryKey, Delivery>, ds: seq<DeviceId>, e: EventId, script: Script)
    ensures DeliveredKept(before, Attempted(before, ds, e, script)) && OnlyEvent(before, Attempted(before, ds, e, script), e)
  {
  }

  lemma ProgressKeeps(before: map<DeliveryKey, Delivery>, held: map<DeliveryKey, Delivery>, rows: map<DeliveryKey, Delivery>,
                      listed: seq<DeviceId>, i: nat, e: EventId, script: Script, counts: Counts, retryables: nat)
    requires Progress(before, held, listed, i, e, script, counts, retryables) && i < |listed| && !Settled(before, (e, listed[i]))
    requires rows == held || rows == held[(e, listed[i]) := RESERVATION]
    ensures DeliveredKept(before, rows) && OnlyEvent(before, rows, e)
  {
    AttemptedKeeps(before, listed[..i], e, script);
    NotYetTouched(before, held, listed, i, e, script, counts, retryables);
  }

  /**
   An attempt that did not throw: every device is settled, with the row its push calls for unless it was settled
   before, and the counters are the numbers of devices delivered now, skipped, and refused for good.
   */
  ghost predicate AttemptDone(before: map<DeliveryKey, Delivery>, rows: map<DeliveryKey, Delivery>, e: EventId, ds: set<DeviceId>,
                              script: Script, counts: Counts) {
    && (forall d | d in ds :: DeviceDone(before, rows, (e, d), script.device(d).push))
    && counts.delivered == |NewlyDelivered(before, rows, e, ds)| && counts.skipped == |SkippedNow(before, e, ds, script)|
    && counts.delivered + counts.failed + counts.skipped == |ds|
  }

  /** One device after such an attempt: left as it was if nothing was owed to it, else its push ended for good and the row says how. */
  predicate DeviceDone(before: map<DeliveryKey, Delivery>, rows: map<DeliveryKey, Delivery>, k: DeliveryKey, p: Push) {
    && k in rows
    && if k in before && (before[k].status.Delivered? || (before[k].status.Refused? && !before[k].retryable)) then rows[k] == before[k]
       else !p.Transient? && !p.Unconfirmed? && rows[k] == Delivery(if p.Accepted? then Delivered(p.receipt) else Refused, false)
  }

  /** The devices whose rows turned to delivered. */
  function NewlyDelivered(before: map<DeliveryKey, Delivery>, rows: map<DeliveryKey, Delivery>, e: EventId, ds: set<DeviceId>): set<DeviceId> {
    set d | d in ds && IsDelivered(rows, (e, d)) && !IsDelivered(before, (e, d))
  }

  lemma DeliveredAreNew(before: map<DeliveryKey, Delivery>, rows: map<DeliveryKey, Delivery>, e: EventId, ds: set<DeviceId>, script: Script)
    requires forall d | d in ds :: DeviceDone(before, rows, (e, d), script.device(d).push)
    ensures NewlyDelivered(before, rows, e, ds) == DeliveredNow(before, e, ds, script)
  {
  }

  lemma ProgressEnds(before: map<DeliveryKey, Delivery>, rows: map<DeliveryKey, Delivery>, listed: seq<DeviceId>, e: EventId,
                     script: Script, counts: Counts, retryables: nat)
    requires Progress(before, rows, listed, |listed|, e, script, counts, retryables)
    ensures DeliveredKept(before, rows) && OnlyEvent(before, rows, e)
    ensures retryables == 0 <==> forall d | d in Elements(listed) :: !Troubles(before, (e, d), script.device(d))
    ensures retryables == 0 ==> AttemptDone(before, rows, e, Elements(listed), script, counts)
  {
    assert listed[..|listed|] == listed;
    AttemptedKeeps(before, listed, e, script);
    DistinctSize(listed);
    forall d | d in Elements(listed) && !Troubles(before, (e, d), script.device(d))
      ensures DeviceDone(before, rows, (e, d), script.device(d).push)
    {
      assert (e, d) in (set x | x in listed :: (e, x));
      OutcomeMeans(script.device(d).push);
    }
    if retryables == 0 { DeliveredAreNew(before, rows, e, Elements(listed), script); }
  }

  /** One call of `processNotificationOutboxBatch`. */
  datatype Batch = Batch(limit: nat, staleBefore: int, only: Option<JobId>, now: int, scripts: JobId -> Script)

  /** In how many batches a job was claimed. */
  function Times(id: JobId, claims: seq<seq<JobId>>): nat {
    if claims == [] then 0 else Times(id, claims[..|claims| - 1]) + if id in claims[|claims| - 1] then 1 else 0
  }

  /** Every claimed job was due, and is now processing, one attempt further; no other job changed, and a due one is left only by a full batch. */
  ghost predicate ClaimMeans(before: map<JobId, Job>, jobs: map<JobId, Job>, claimed: seq<JobId>, staleBefore: int, only: Option<JobId>, now: int) {
    && jobs.Keys == before.Keys
    && (forall id | id in claimed :: id in before && ClaimedJob(before[id], jobs[id], now))
    && (forall id | id in claimed :: MayClaim(before[id], staleBefore, now) && (only.Some? ==> id == only.value))
    && (forall id | id in before && id !in claimed :: jobs[id] == before[id])
  }

  predicate ClaimedJob(was: Job, j: Job, now: int) {
    && j.status.Processing? && j.attempts == was.attempts + 1 && j.lockedAt == Some(now)
    && j.event == was.event && j.nextAt == was.nextAt && j.createdAt == was.createdAt
  }

  predicate MayClaim(j: Job, staleBefore: int, now: int) {
    if j.status.Pending? then j.nextAt <= now else j.status.Processing? && j.lockedAt.Some? && j.lockedAt.value <= staleBefore
  }

  /** It was due earlier, or as early and was enqueued no later. */
  predicate ComesFirst(x: Job, y: Job) {
    x.nextAt <= y.nextAt && (x.nextAt == y.nextAt ==> x.createdAt <= y.createdAt)
  }

  lemma TakenMeans(before: map<JobId, Job>, claimed: seq<JobId>, staleBefore: int, only: Option<JobId>, now: int)
    requires Elements(claimed) <= Candidates(before, now, staleBefore, only)
    ensures ClaimMeans(before, TakenAll(before, claimed, now), claimed, staleBefore, only, now)
  {
    assert forall id | id in claimed :: id in Elements(claimed);
  }

  lemma ClaimEnds(before: map<JobId, Job>, claimed: seq<JobId>, rest: set<JobId>, limit: nat, staleBefore: int, only: Option<JobId>, now: int)
    requires Picked(before, Candidates(before, now, staleBefore, only), claimed, rest) && (|claimed| >= limit || rest == {})
    ensures ClaimMeans(before, TakenAll(before, claimed, now), claimed, staleBefore, only, now)
    ensures forall id | id in before && id !in claimed && MayClaim(before[id], staleBefore, now) && (only.Some? ==> id == only.value) ::
              |claimed| >= limit && forall c | c in claimed :: c in before && ComesFirst(before[c], before[id])
  {
    var candidates := Candidates(before, now, staleBefore, only);
    TakenMeans(before, claimed, staleBefore, only, now);
    forall id | id in before && id !in claimed && MayClaim(before[id], staleBefore, now) && (only.Some? ==> id == only.value)
      ensures |claimed| >= limit && forall c | c in claimed :: c in before && ComesFirst(before[c], before[id])
    {
      assert id in candidates && id !in Elements(claimed) && id in rest;
      forall c | c in claimed ensures c in before && ComesFirst(before[c], before[id]) {
        assert Sooner(before, c, id);
      }
    }
  }

  class OutboxTables {
    var jobs: map<JobId, Job>
    var deliveries: map<DeliveryKey, Delivery>
    var devices: map<DeviceId, Device>
    var owners: map<EventId, UserId>

    constructor ()
      ensures jobs == map[] && deliveries == map[] && devices == map[] && owners == map[]
    {
      jobs, deliveries, devices, owners := map[], map[], map[], map[];
    }

    /** `enqueueNotificationOutbox` with a generated id: one job per event. */
    method Enqueue(id: JobId, e: EventId, now: int) returns (inserted: bool)
      requires id !in jobs
      modifies this`jobs
      ensures inserted <==> forall j | j in old(jobs) :: old(jobs)[j].event != e
      ensures jobs == if inserted then old(jobs)[id := Job(e, Pending, 0, now, None, now)] else old(jobs)
    {
      inserted := forall j | j in jobs :: jobs[j].event != e;
      if inserted {
        jobs := jobs[id := Job(e, Pending, 0, now, None, now)];
      }
    }

    /** `claimNotificationOutboxJobs`: the soonest due jobs, at most `limit`. */
    method ClaimJobs(limit: nat, staleBefore: int, only: Option<JobId>, now: int) returns (claimed: seq<JobId>)
      modifies this`jobs
      ensures Distinct(claimed) && |claimed| <= limit
      ensures Elements(claimed) <= Candidates(old(jobs), now, staleBefore, only)
      ensures jobs == TakenAll(old(jobs), claimed, now) && ClaimMeans(old(jobs), jobs, claimed, staleBefore, only, now)
      // What is left over is not sooner than what was taken, and something is left over only when the batch is full.
      ensures Candidates(old(jobs), now, staleBefore, only) != Elements(claimed) ==> |claimed| == limit
      ensures forall c, id | c in claimed && id in Candidates(old(jobs), now, staleBefore, only) - Elements(claimed) ::
                c in old(jobs) && Sooner(old(jobs), c, id)
      ensures forall id | id in old(jobs) && id !in claimed && MayClaim(old(jobs)[id], staleBefore, now) && (only.Some? ==> id == only.value) ::
                |claimed| >= limit && forall c | c in claimed :: c in old(jobs) && ComesFirst(old(jobs)[c], old(jobs)[id])
    {
      claimed := [];
      ghost var before := jobs;
      var candidates := Candidates(jobs, now, staleBefore, only);
      var rest := candidates;
      while |claimed| < limit && rest != {}
        invariant |claimed| <= limit && rest <= jobs.Keys && Picked(before, candidates, claimed, rest)
        invariant jobs == TakenAll(before, claimed, now)
        decreases |rest|
      {
        SoonestExists(jobs, rest);
        var id :| id in rest && Soonest(jobs, rest, id);
        PickedGrows(before, candidates, claimed, rest, id, now);
        jobs := jobs[id := Taken(jobs[id], now)];
        claimed, rest := claimed + [id], rest - {id};
      }
      assert rest == candidates - Elements(claimed);
      ClaimEnds(before, claimed, rest, limit, staleBefore, only, now);
    }

    /** `upsertNotificationDelivery`; `written` is whether a row was inserted or updated. */
    method Upsert(k: DeliveryKey, d: Delivery) returns (written: bool)
      modifies this`deliveries
      ensures deliveries == Upserted(old(deliveries), k, d)
      ensures written <==> !(k in old(deliveries) && old(deliveries)[k].status.Delivered?)
      ensures deliveries == if written then old(deliveries)[k := d] else old(deliveries)
    {
      written := !(k in deliveries && deliveries[k].status.Delivered?);
      if written {
        deliveries := deliveries[k := d];
      }
    }

    /** `recordInvalidTokenDelivery`: the device is deactivated unless it changed since it was listed. */
    method RecordInvalidToken(k: DeliveryKey, listed: Device)
      modifies this`deliveries, this`devices
      ensures deliveries == Upserted(old(deliveries), k, Outcome(InvalidToken))
      ensures devices == if k.1 in old(devices) && listed.active && old(devices)[k.1] == listed
                         then old(devices)[k.1 := listed.(active := false, version := listed.version + 1)] else old(devices)
    {
      var written := Upsert(k, Delivery(Refused, false));
      if k.1 in devices && devices[k.1].user == listed.user && devices[k.1].token == listed.token
         && devices[k.1].version == listed.version && devices[k.1].active && listed.active {
        devices := devices[k.1 := devices[k.1].(active := false, version := listed.version + 1)];
      }
    }

    /** `deliverNotificationForDeviceToken`; `None` is a thrown database error. */
    method Deliver(e: EventId, device: DeviceId, listed: Device, script: DeviceScript)
      returns (result: Option<(bool, bool, bool)>)
      modifies this`deliveries, this`devices
      ensures DeliveredKept(old(deliveries), deliveries) && OnlyEvent(old(deliveries), deliveries, e)
      ensures forall k | k in old(deliveries) && k != (e, device) :: deliveries[k] == old(deliveries)[k]
      ensures devices.Keys == old(devices).Keys && forall d | d in devices && d != device :: devices[d] == old(devices)[d]
      ensures var k := (e, device);
              && (result.None? <==> !script.reserves || (!IsDelivered(old(deliveries), k) && !script.records))
              && (result.None? ==> deliveries == old(deliveries) || deliveries == old(deliveries)[k := RESERVATION])
              && (result.Some? ==> deliveries == Upserted(old(deliveries), k, Outcome(script.push)))
              // The flags tell delivered, skipped and retryable.
              && (result.Some? ==> result.value == Flags(IsDelivered(old(deliveries), k), script.push))
      // Unless it was delivered before, the row says how the push ended, and that it is owed again if the failure may pass.
      ensures result.Some? ==> Recorded(old(deliveries), deliveries, (e, device), script.push, result.value)
    {
      OutcomeMeans(script.push);
      var k := (e, device);
      if !script.reserves {
        return None;
      }
      var reserved := Upsert(k, RESERVATION);
      if !reserved {
        return Some((true, false, false));
      }
      if !script.records {
        return None;
      }
      match script.push {
        case Accepted(receipt) =>
          var written := Upsert(k, Delivery(Delivered(receipt), false));
          result := Some((true, false, false));
        case Skipped =>
          var written := Upsert(k, Delivery(Refused, false));
          result := Some((false, true, false));
        case Unconfirmed =>
          var written := Upsert(k, Delivery(Refused, true));
          result := Some((false, false, true));
        case InvalidToken =>
          RecordInvalidToken(k, listed);
          result := Some((false, false, false));
        case Transient =>
          var written := Upsert(k, Delivery(Refused, true));
          result := Some((false, false, true));
        case Permanent =>
          var written := Upsert(k, Delivery(Refused, false));
          result := Some((false, false, false));
      }
    }

    /** One turn of the device loop: a settled device is skipped, any other is attempted. */
    method HandleDevice(e: EventId, device: DeviceId, listed: Device, states: map<DeliveryKey, Delivery>, script: DeviceScript)
      returns (flags: Option<(bool, bool, bool)>)
      requires var k := (e, device); (k in states <==> k in deliveries) && (k in states ==> states[k] == deliveries[k])
      modifies this`deliveries, this`devices
      ensures devices.Keys == old(devices).Keys
      ensures var k := (e, device);
              && (flags.None? <==> !Settled(states, k) && (!script.reserves || !script.records))
              && (flags.None? ==> deliveries == old(deliveries) || deliveries == old(deliveries)[k := RESERVATION])
              && (flags.Some? ==> deliveries == old(deliveries)[k := AfterAttempt(states, k, script.push)])
              && (flags.Some? ==> flags.value == TurnFlags(states, k, script.push))
    {
      var k := (e, device);
      if k in states && (states[k].status.Delivered? || (states[k].status.Refused? && !states[k].retryable)) {
        return Some((false, true, false));
      }
      flags := Deliver(e, device, listed, script);
    }

    /** `listActiveDeviceTokensByUserId`, in some order. */
    method ListActive(u: UserId) returns (listed: seq<DeviceId>)
      ensures Distinct(listed) && Elements(listed) == ActiveDevices(devices, u)
    {
      listed := [];
      var rest := ActiveDevices(devices, u);
      while rest != {}
        invariant Distinct(listed) && rest !! Elements(listed) && rest + Elements(listed) == ActiveDevices(devices, u)
        decreases rest
      {
        var d :| d in rest;
        ghost var was := Elements(listed);
        listed, rest := listed + [d], rest - {d};
        assert Elements(listed) == was + {d};
      }
    }

    /** The device loop over the listed devices; `None` is the error thrown by a statement. */
    method AttemptListed(e: EventId, listed: seq<DeviceId>, rows: map<DeviceId, Device>, states: map<DeliveryKey, Delivery>, script: Script)
      returns (result: Option<(Counts, nat)>)
      requires Distinct(listed) && states == deliveries && Elements(listed) <= rows.Keys == devices.Keys
      modifies this`deliveries, this`devices
      ensures result.Some? ==> Progress(states, deliveries, listed, |listed|, e, script, result.value.0, result.value.1)
      ensures result.None? ==>
                && DeliveredKept(states, deliveries) && OnlyEvent(states, deliveries, e)
                && exists d | d in Elements(listed) :: Troubles(states, (e, d), script.device(d))
    {
      var counts, retryables := Counts(0, 0, 0), 0;
      ProgressStarts(deliveries, listed, e, script);
      for i := 0 to |listed|
        invariant devices.Keys == old(devices).Keys
        invariant Progress(states, deliveries, listed, i, e, script, counts, retryables)
      {
        var device := listed[i];
        assert device in Elements(listed);
        ghost var held := deliveries;
        NotYetTouched(states, deliveries, listed, i, e, script, counts, retryables);
        var delivery := HandleDevice(e, device, rows[device], states, script.device(device));
        if delivery.None? {
          assert Troubles(states, (e, device), script.device(device));
          ProgressKeeps(states, held, deliveries, listed, i, e, script, counts, retryables);
          return None;
        }
        ProgressGrows(states, held, listed, i, e, script, counts, retryables);
        counts := Counted(counts, delivery.value);
        retryables := if delivery.value.2 then retryables + 1 else retryables;
      }
      result := Some((counts, retryables));
    }

    /** The devices of a job; `None` is a thrown error, of a statement or for what should be retried. */
    method AttemptDevices(e: EventId, u: UserId, script: Script) returns (result: Option<Counts>)
      modifies this`deliveries, this`devices
      ensures DeliveredKept(old(deliveries), deliveries) && OnlyEvent(old(deliveries), deliveries, e)
      ensures result.None? <==> exists d | d in ActiveDevices(old(devices), u) :: Troubles(old(deliveries), (e, d), script.device(d))
      ensures result.Some? ==> AttemptDone(old(deliveries), deliveries, e, ActiveDevices(old(devices), u), script, result.value)
    {
      var listed := ListActive(u);
      var states := deliveries;
      var attempt := AttemptListed(e, listed, devices, states, script);
      if attempt.None? {
        return None;
      }
      var (counts, retryables) := attempt.value;
      ProgressEnds(states, deliveries, listed, e, script, counts, retryables);
      result := if retryables > 0 then None else Some(counts);
    }

    /** `processNotificationOutboxJob`; the job's status is the only column it writes. */
    method ProcessJob(id: JobId, script: Script) returns (result: JobResult)
      requires id in jobs
      modifies this`jobs, this`deliveries, this`devices
      ensures DeliveredKept(old(deliveries), deliveries) && OnlyEvent(old(deliveries), deliveries, old(jobs)[id].event)
      ensures result.Threw? ==> jobs == old(jobs)
      // An attempt throws exactly when a statement of its own fails or a device troubles it.
      ensures var e := old(jobs)[id].event;
              result.Threw? <==>
                || !script.loads || !script.marks
                || (e in owners && exists d | d in ActiveDevices(old(devices), owners[e]) :: Troubles(old(deliveries), (e, d), script.device(d)))
      ensures result.Done? ==>
                && (result.status.Sent? || result.status.Failed?)
                && jobs == old(jobs)[id := old(jobs)[id].(status := result.status, lockedAt := None)]
                && (result.status.Failed? <==> jobs[id].event !in owners)
      ensures result.Done? && result.status.Sent? ==>
                AttemptDone(old(deliveries), deliveries, jobs[id].event, ActiveDevices(old(devices), owners[jobs[id].event]), script, result.counts)
    {
      var e := jobs[id].event;
      if !script.loads {
        return Threw;
      }
      if e !in owners {
        if !script.marks {
          return Threw;
        }
        jobs := jobs[id := jobs[id].(status := Failed, lockedAt := None)];
        return Done(Failed, Counts(0, 0, 0));
      }
      var counts := AttemptDevices(e, owners[e], script);
      if counts.None? || !script.marks {
        return Threw;
      }
      jobs := jobs[id := jobs[id].(status := Sent, lockedAt := None)];
      result := Done(Sent, counts.value);
    }

    /** One turn of the batch loop; `ended` is the status the job is left with. */
    method RunJob(id: JobId, maxAttempts: nat, now: int, script: Script) returns (ended: JobStatus)
      requires id in jobs && jobs[id].status.Processing?
      modifies this`jobs, this`deliveries, this`devices
      ensures DeliveredKept(old(deliveries), deliveries)
      ensures jobs.Keys == old(jobs).Keys && forall x | x in jobs && x != id :: jobs[x] == old(jobs)[x]
      ensures jobs[id].status == ended && !ended.Processing? && jobs[id].attempts == old(jobs)[id].attempts
      ensures ended.Failed? ==> jobs[id].event !in owners || jobs[id].attempts >= maxAttempts
      ensures ended.Sent? ==>
                && jobs[id].event in owners
                && exists c :: AttemptDone(old(deliveries), deliveries, jobs[id].event, ActiveDevices(old(devices), owners[jobs[id].event]), script, c)
      // A job that threw is tried again after a delay that grows with its attempts.
      ensures ended.Pending? ==>
                && jobs[id].attempts < maxAttempts && jobs[id].lockedAt.None?
                && jobs[id].nextAt == now + 30 * 1000 * if jobs[id].attempts < 1 then 1 else jobs[id].attempts
    {
      var job := jobs[id];
      var result := ProcessJob(id, script);
      if result.Done? {
        ended := result.status;
      } else if job.attempts >= maxAttempts {
        jobs := jobs[id := job.(status := Failed, lockedAt := None)];
        ended := Failed;
      } else {
        jobs := jobs[id := job.(status := Pending, lockedAt := None, nextAt := now + RetryDelay(job.attempts))];
        ended := Pending;
      }
    }

    /**
     `processNotificationOutboxBatch` when no other batch overlaps and every status update succeeds:
     each claimed job ends terminal or pending with attempts to spare, so none is ever claimed more than `maxAttempts` times.
     */
    method ProcessBatch(limit: nat, maxAttempts: nat, staleBefore: int, only: Option<JobId>, now: int, scripts: JobId -> Script)
      returns (claimed: seq<JobId>, sent: nat, retried: nat, failed: nat)
      requires forall id | id in jobs :: jobs[id].attempts <= maxAttempts && Rested(jobs[id], maxAttempts)
      modifies this`jobs, this`deliveries, this`devices
      ensures jobs.Keys == old(jobs).Keys
      ensures forall id | id in jobs :: jobs[id].attempts <= maxAttempts && Rested(jobs[id], maxAttempts)
      ensures forall id | id in claimed :: id in jobs && jobs[id].attempts == old(jobs)[id].attempts + 1 && !Terminal(old(jobs)[id])
      ensures forall id | id in jobs && id !in claimed :: jobs[id] == old(jobs)[id]
      ensures Elements(claimed) <= Candidates(old(jobs), now, staleBefore, only) && |claimed| <= limit
      ensures Candidates(old(jobs), now, staleBefore, only) != Elements(claimed) ==> |claimed| == limit
      // The counters are the claimed jobs by the status they end with.
      ensures sent + retried + failed == |claimed| && Tallied(jobs, Elements(claimed), sent, retried, failed)
      ensures DeliveredKept(old(deliveries), deliveries)
    {
      ghost var before := jobs;
      claimed := ClaimJobs(limit, staleBefore, only, now);
      TurnedStarts(before, claimed, maxAttempts, now, staleBefore, only);
      sent, retried, failed := RunClaimed(before, claimed, maxAttempts, now, scripts);
      TurnedEnds(before, jobs, claimed, maxAttempts, now, staleBefore, only);
    }

    /**
     Batches one after the other, without overlap or crash: over all of them a job is claimed at most `maxAttempts`
     times, each claim is one attempt, and a job at rest in a terminal state stays as it is.
     */
    method RunBatches(batches: seq<Batch>, maxAttempts: nat) returns (ghost claims: seq<seq<JobId>>)
      requires forall id | id in jobs :: jobs[id].attempts <= maxAttempts && Rested(jobs[id], maxAttempts)
      modifies this`jobs, this`deliveries, this`devices
      ensures jobs.Keys == old(jobs).Keys
      ensures forall id | id in jobs :: jobs[id].attempts == old(jobs)[id].attempts + Times(id, claims) <= maxAttempts && Rested(jobs[id], maxAttempts)
      ensures forall id | id in jobs && Terminal(old(jobs)[id]) :: jobs[id] == old(jobs)[id] && Times(id, claims) == 0
      ensures DeliveredKept(old(deliveries), deliveries)
    {
      claims := [];
      for i := 0 to |batches|
        invariant jobs.Keys == old(jobs).Keys
        invariant forall id | id in jobs :: jobs[id].attempts == old(jobs)[id].attempts + Times(id, claims) <= maxAttempts && Rested(jobs[id], maxAttempts)
        invariant forall id | id in jobs && Terminal(old(jobs)[id]) :: jobs[id] == old(jobs)[id] && Times(id, claims) == 0
        invariant DeliveredKept(old(deliveries), deliveries)
      {
        ghost var kept := deliveries;
        var b := batches[i];
        var claimed, sent, retried, failed := ProcessBatch(b.limit, maxAttempts, b.staleBefore, b.only, b.now, b.scripts);
        KeptTransitive(old(deliveries), kept, deliveries);
        assert (claims + [claimed])[..|claims|] == claims;
        claims := claims + [claimed];
      }
    }

    /** The loop over the claimed jobs. */
    method RunClaimed(ghost before: map<JobId, Job>, claimed: seq<JobId>, maxAttempts: nat, now: int, scripts: JobId -> Script)
      returns (sent: nat, retried: nat, failed: nat)
      requires Distinct(claimed) && Turned(before, jobs, claimed, 0, maxAttempts, now)
      modifies this`jobs, this`deliveries, this`devices
      ensures Turned(before, jobs, claimed, |claimed|, maxAttempts, now)
      ensures sent + retried + failed == |claimed| && Tallied(jobs, Elements(claimed), sent, retried, failed)
      ensures DeliveredKept(old(deliveries), deliveries)
    {
      sent, retried, failed := 0, 0, 0;
      assert Elements(claimed[..0]) == {};
      for i := 0 to |claimed|
        invariant sent + retried + failed == i && Turned(before, jobs, claimed, i, maxAttempts, now)
        invariant Tallied(jobs, Elements(claimed[..i]), sent, retried, failed)
        invariant DeliveredKept(old(deliveries), deliveries)
      {
        var id := claimed[i];
        ghost var held, kept := jobs, deliveries;
        var ended := RunJob(id, maxAttempts, now, scripts(id));
        KeptTransitive(old(deliveries), kept, deliveries);
        TurnedGrows(before, held, jobs, claimed, i, maxAttempts, now);
        Later(claimed, i);
        TalliedGrows(held, jobs, Elements(claimed[..i]), id, sent, retried, failed);
        if ended.Sent? {
          sent := sent + 1;
        } else if ended.Failed? {
          failed := failed + 1;
        } else {
          retried := retried + 1;
        }
      }
      assert claimed[..|claimed|] == claimed;
    }
  }

  lemma KeptTransitive(a: map<DeliveryKey, Delivery>, b: map<DeliveryKey, Delivery>, c: map<DeliveryKey, Delivery>)
    requires DeliveredKept(a, b) && DeliveredKept(b, c)
    ensures DeliveredKept(a, c)
  {
  }

  /** `buildNotificationOutboxRetryDelayMs`. */
  function RetryDelay(attempts: nat): int {
    RETRY_BASE_MS * if attempts < 1 then 1 else attempts
  }

}
