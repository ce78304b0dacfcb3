/**
 Outbox workers in any interleaving: overlapping batches, stale jobs reclaimed while still being worked on,
 crashes at any point, and events or devices deleted under a worker. One step is one statement or one push.
 */
module OutboxProtocol {
  import opened Wrappers
  import opened Outbox

  /** `todo` are the devices not yet handled; its first one is in hand unless the stage is `Looping`. */
  datatype Stage =
    | Loading
    | Listed(todo: seq<(DeviceId, Device)>)
    | Looping(todo: seq<(DeviceId, Device)>, states: map<DeliveryKey, Delivery>, retryables: nat)
    | Reserved(todo: seq<(DeviceId, Device)>, states: map<DeliveryKey, Delivery>, retryables: nat)
    | Pushed(todo: seq<(DeviceId, Device)>, states: map<DeliveryKey, Delivery>, retryables: nat, push: Push)
    | Thrown

  datatype Worker = Worker(job: JobId, event: EventId, attempts: nat, stage: Stage)

  datatype World = World(now: int, jobs: map<JobId, Job>, deliveries: map<DeliveryKey, Delivery>, devices: map<DeviceId, Device>,
                         owners: map<EventId, UserId>, workers: map<nat, Worker>,
                         knownEvents: set<EventId>, knownDevices: set<DeviceId>)

  datatype EnvAct =
    | Tick(elapsed: nat)
    | AddEvent(event: EventId, owner: UserId, job: Option<JobId>)
    | RemoveEvent(event: EventId)
    | PutDevice(device: DeviceId, row: Device)
    | RemoveDevice(device: DeviceId)

  datatype JobAct =
    | Claim(job: JobId, staleBefore: int)
    | List(listed: seq<(DeviceId, Device)>)
    | ReadStates
    | Throw
    | MarkSent
    | MarkThrown(delayMs: nat)
    | Crash

  datatype DeviceAct =
    | Skip
    | Reserve
    | Send(push: Push)
    | Record

  datatype Step = Env(env: EnvAct) | OfJob(w: nat, job: JobAct) | OfDevice(w: nat, device: DeviceAct)

  /** The device a worker has in hand. */
  predicate AtDevice(s: World, w: nat) {
    w in s.workers && (s.workers[w].stage.Looping? || s.workers[w].stage.Reserved? || s.workers[w].stage.Pushed?)
    && s.workers[w].stage.todo != []
  }

  function KeyInHand(s: World, w: nat): DeliveryKey
    requires AtDevice(s, w)
  {
    (s.workers[w].event, s.workers[w].stage.todo[0].0)
  }

  /** The statement would not violate the foreign keys of a delivery row. */
  predicate Referable(s: World, k: DeliveryKey) {
    k.0 in s.owners && k.1 in s.devices
  }

  predicate Reserves(s: World, step: Step, w: nat, k: DeliveryKey) {
    && step == OfDevice(w, Reserve) && AtDevice(s, w) && KeyInHand(s, w) == k
    && Referable(s, k) && !IsDelivered(s.deliveries, k)
  }

  predicate Sends(s: World, step: Step, w: nat, k: DeliveryKey) {
    step.OfDevice? && step.device.Send? && step.w == w && AtDevice(s, w) && KeyInHand(s, w) == k
  }

  function Staged(s: World, w: nat, stage: Stage): World
    requires w in s.workers
  {
    s.(workers := s.workers[w := s.workers[w].(stage := stage)])
  }

  ghost predicate EnvNext(s: World, act: EnvAct, s': World) {
    match act
    case Tick(d) => s' == s.(now := s.now + d)
    case AddEvent(e, u, j) =>
      && e !in s.knownEvents && (j.Some? ==> j.value !in s.jobs)
      && s' == s.(owners := s.owners[e := u], knownEvents := s.knownEvents + {e},
                  jobs := if j.Some? then s.jobs[j.value := Job(e, Pending, 0, s.now, None, s.now)] else s.jobs)
    // Jobs and delivery rows cascade away with their event or device.
    case RemoveEvent(e) =>
      s' == s.(owners := s.owners - {e}, jobs := map j | j in s.jobs && s.jobs[j].event != e :: s.jobs[j],
               deliveries := map k | k in s.deliveries && k.0 != e :: s.deliveries[k])
    // A registration or a change of an existing device; the id of a deleted device is not drawn again.
    case PutDevice(d, row) =>
      && (d in s.knownDevices ==> d in s.devices)
      && s' == s.(devices := s.devices[d := row], knownDevices := s.knownDevices + {d})
    case RemoveDevice(d) =>
      s' == s.(devices := s.devices - {d}, deliveries := map k | k in s.deliveries && k.1 != d :: s.deliveries[k])
  }

  ghost predicate JobNext(s: World, w: nat, act: JobAct, s': World) {
    match act
    case Claim(id, staleBefore) =>
      && w !in s.workers && id in s.jobs && Due(s.jobs[id], s.now, staleBefore)
      && var j := Taken(s.jobs[id], s.now);
      && s' == s.(jobs := s.jobs[id := j], workers := s.workers[w := Worker(id, j.event, j.attempts, Loading)])
    case List(listed) =>
      && w in s.workers && s.workers[w].stage.Loading? && s.workers[w].event in s.owners
      && (forall x | x in listed :: x.0 in s.devices && s.devices[x.0] == x.1)
      && (set x | x in listed :: x.0) == ActiveDevices(s.devices, s.owners[s.workers[w].event])
      && s' == Staged(s, w, Listed(listed))
    case ReadStates =>
      && w in s.workers && s.workers[w].stage.Listed?
      && s' == Staged(s, w, Looping(s.workers[w].stage.todo, s.deliveries, 0))
    case Throw => w in s.workers && s' == Staged(s, w, Thrown)
    // Status updates match the job by its id alone.
    case MarkSent =>
      && w in s.workers && s.workers[w].stage.Looping? && s.workers[w].stage.todo == [] && s.workers[w].stage.retryables == 0
      && var id := s.workers[w].job;
      && s' == s.(workers := s.workers - {w},
                  jobs := if id in s.jobs then s.jobs[id := s.jobs[id].(status := Sent, lockedAt := None)] else s.jobs)
    case MarkThrown(delay) =>
      && w in s.workers
      && (s.workers[w].stage.Thrown? || (s.workers[w].stage.Looping? && s.workers[w].stage.todo == [] && s.workers[w].stage.retryables > 0)
          || (s.workers[w].stage.Loading? && s.workers[w].event !in s.owners))
      && var id := s.workers[w].job;
      && var gone := s.workers[w].stage.Loading?;
      && s' == s.(workers := s.workers - {w},
                  jobs := if id !in s.jobs then s.jobs
                          else if gone || s.workers[w].attempts >= MAX_ATTEMPTS then s.jobs[id := s.jobs[id].(status := Failed, lockedAt := None)]
                          else s.jobs[id := s.jobs[id].(status := Pending, lockedAt := None, nextAt := s.now + delay)])
    case Crash => s' == s.(workers := s.workers - {w})
  }

  ghost predicate DeviceNext(s: World, w: nat, act: DeviceAct, s': World) {
    match act
    case Skip =>
      && AtDevice(s, w) && s.workers[w].stage.Looping?
      && var t := s.workers[w].stage;
      && Settled(t.states, KeyInHand(s, w))
      && s' == Staged(s, w, Looping(t.todo[1..], t.states, t.retryables))
    case Reserve =>
      && AtDevice(s, w) && s.workers[w].stage.Looping?
      && var t, k := s.workers[w].stage, KeyInHand(s, w);
      && !Settled(t.states, k)
      && if !Referable(s, k) then s' == Staged(s, w, Thrown)
         else if IsDelivered(s.deliveries, k) then s' == Staged(s, w, Looping(t.todo[1..], t.states, t.retryables))
         else s' == Staged(s, w, Reserved(t.todo, t.states, t.retryables)).(deliveries := Upserted(s.deliveries, k, RESERVATION))
    case Send(push) =>
      && AtDevice(s, w) && s.workers[w].stage.Reserved?
      && var t := s.workers[w].stage;
      && s' == Staged(s, w, Pushed(t.todo, t.states, t.retryables, push))
    case Record =>
      && AtDevice(s, w) && s.workers[w].stage.Pushed?
      && var t, k := s.workers[w].stage, KeyInHand(s, w);
      && if !Referable(s, k) then s' == Staged(s, w, Thrown)
         else
           var d := Outcome(t.push);
           var deactivates := t.push.InvalidToken? && t.todo[0].1.active && s.devices[k.1] == t.todo[0].1;
           s' == Staged(s, w, Looping(t.todo[1..], t.states, t.retryables + if d.retryable then 1 else 0)).(
                   deliveries := Upserted(s.deliveries, k, d),
                   devices := if deactivates then s.devices[k.1 := s.devices[k.1].(active := false, version := s.devices[k.1].version + 1)]
                              else s.devices)
  }

  ghost predicate Next(s: World, step: Step, s': World) {
    match step
    case Env(act) => EnvNext(s, act, s')
    case OfJob(w, act) => JobNext(s, w, act, s')
    case OfDevice(w, act) => DeviceNext(s, w, act, s')
  }

  predicate Known(s: World) {
    s.owners.Keys <= s.knownEvents && s.devices.Keys <= s.knownDevices
  }

  /** The foreign keys of the delivery rows. */
  ghost predicate AllReferable(s: World) {
    forall k | k in s.deliveries :: Referable(s, k)
  }

  ghost predicate IsRun(run: seq<World>, steps: seq<Step>) {
    && |run| == |steps| + 1
    && run[0].workers == map[] && Known(run[0]) && AllReferable(run[0])
    && forall i | 0 <= i < |steps| :: StepAt(run, steps, i)
  }

  ghost predicate StepAt(run: seq<World>, steps: seq<Step>, i: nat)
    requires i < |steps| < |run|
  {
    Next(run[i], steps[i], run[i + 1])
  }

  /** Once delivered, a row stays as it is, or its event or device is gone for good. */
  ghost predicate StaysDelivered(s: World, k: DeliveryKey, d: Delivery) {
    && k.0 in s.knownEvents && k.1 in s.knownDevices
    && if k in s.deliveries then s.deliveries[k] == d else !Referable(s, k)
  }

  lemma StaysDeliveredEnv(s: World, act: EnvAct, s': World, k: DeliveryKey, d: Delivery)
    requires d.status.Delivered? && StaysDelivered(s, k, d) && EnvNext(s, act, s')
    ensures StaysDelivered(s', k, d)
  {
  }

  lemma StaysDeliveredJob(s: World, w: nat, act: JobAct, s': World, k: DeliveryKey, d: Delivery)
    requires StaysDelivered(s, k, d) && JobNext(s, w, act, s')
    ensures StaysDelivered(s', k, d)
  {
  }

  lemma StaysDeliveredDevice(s: World, w: nat, act: DeviceAct, s': World, k: DeliveryKey, d: Delivery)
    requires d.status.Delivered? && StaysDelivered(s, k, d) && DeviceNext(s, w, act, s')
    ensures StaysDelivered(s', k, d)
  {
  }

  lemma StaysDeliveredStep(s: World, step: Step, s': World, k: DeliveryKey, d: Delivery)
    requires d.status.Delivered? && StaysDelivered(s, k, d) && Next(s, step, s')
    ensures StaysDelivered(s', k, d)
  {
    match step
    case Env(act) => StaysDeliveredEnv(s, act, s', k, d);
    case OfJob(w, act) => StaysDeliveredJob(s, w, act, s', k, d);
    case OfDevice(w, act) => StaysDeliveredDevice(s, w, act, s', k, d);
  }

  lemma {:induction false} DeliveredStays(run: seq<World>, steps: seq<Step>, m: nat, i: nat, k: DeliveryKey, d: Delivery)
    requires IsRun(run, steps) && m <= i < |run| && d.status.Delivered? && StaysDelivered(run[m], k, d)
    ensures StaysDelivered(run[i], k, d)
  {
    if m < i {
      DeliveredStays(run, steps, m, i - 1, k, d);
      assert StepAt(run, steps, i - 1);
      StaysDeliveredStep(run[i - 1], steps[i - 1], run[i], k, d);
    }
  }

  lemma KnownEnv(s: World, act: EnvAct, s': World)
    requires EnvNext(s, act, s') && Known(s)
    ensures Known(s')
  {
  }

  lemma KnownStep(s: World, step: Step, s': World)
    requires Next(s, step, s') && Known(s)
    ensures Known(s')
  {
    match step
    case Env(act) => KnownEnv(s, act, s');
    case OfJob(w, act) => AccountsStand(s, w, act, s');
    case OfDevice(w, act) => IdsStand(s, w, act, s');
  }

  lemma AccountsStand(s: World, w: nat, act: JobAct, s': World)
    requires JobNext(s, w, act, s')
    ensures s'.owners == s.owners && s'.devices == s.devices && s'.knownEvents == s.knownEvents && s'.knownDevices == s.knownDevices
  {
  }

  lemma IdsStand(s: World, w: nat, act: DeviceAct, s': World)
    requires DeviceNext(s, w, act, s')
    ensures s'.owners == s.owners && s'.devices.Keys == s.devices.Keys && s'.knownEvents == s.knownEvents && s'.knownDevices == s.knownDevices
  {
  }

  lemma {:induction false} IdsKnown(run: seq<World>, steps: seq<Step>, i: nat)
    requires IsRun(run, steps) && i < |run|
    ensures Known(run[i])
  {
    if i > 0 {
      IdsKnown(run, steps, i - 1);
      assert StepAt(run, steps, i - 1);
      KnownStep(run[i - 1], steps[i - 1], run[i]);
    }
  }

  lemma ReferableEnv(s: World, act: EnvAct, s': World)
    requires EnvNext(s, act, s') && AllReferable(s)
    ensures AllReferable(s')
  {
  }

  lemma ReferableDevice(s: World, w: nat, act: DeviceAct, s': World)
    requires DeviceNext(s, w, act, s') && AllReferable(s)
    ensures AllReferable(s')
  {
    IdsStand(s, w, act, s');
  }

  lemma ReferableJob(s: World, w: nat, act: JobAct, s': World)
    requires JobNext(s, w, act, s') && AllReferable(s)
    ensures AllReferable(s')
  {
    AccountsStand(s, w, act, s');
  }

  /** A delivery row's event and device are there as long as the row is. */
  lemma {:induction false} RowsAreReferable(run: seq<World>, steps: seq<Step>, i: nat)
    requires IsRun(run, steps) && i < |run|
    ensures AllReferable(run[i])
  {
    if i > 0 {
      RowsAreReferable(run, steps, i - 1);
      assert StepAt(run, steps, i - 1);
      match steps[i - 1]
      case Env(act) => ReferableEnv(run[i - 1], act, run[i]);
      case OfJob(w, act) => ReferableJob(run[i - 1], w, act, run[i]);
      case OfDevice(w, act) => ReferableDevice(run[i - 1], w, act, run[i]);
    }
  }

  /** `delivered` is absorbing in every interleaving, and no reservation succeeds after it. */
  lemma DeliveredAbsorbs(run: seq<World>, steps: seq<Step>, m: nat, i: nat, k: DeliveryKey)
    requires IsRun(run, steps) && m <= i < |run| && IsDelivered(run[m].deliveries, k)
    ensures k in run[i].deliveries ==> run[i].deliveries[k] == run[m].deliveries[k]
    ensures i < |steps| ==> forall w :: !Reserves(run[i], steps[i], w, k)
  {
    IdsKnown(run, steps, m);
    RowsAreReferable(run, steps, m);
    DeliveredStays(run, steps, m, i, k, run[m].deliveries[k]);
  }

  /** A worker past its reservation made it, in an earlier step. */
  lemma {:induction false} ReservedEarlier(run: seq<World>, steps: seq<Step>, i: nat, w: nat) returns (j: nat)
    requires IsRun(run, steps) && i < |run| && AtDevice(run[i], w) && run[i].workers[w].stage.Reserved?
    ensures j < i && Reserves(run[j], steps[j], w, KeyInHand(run[i], w))
  {
    assert StepAt(run, steps, i - 1);
    if steps[i - 1] == OfDevice(w, Reserve) {
      j := i - 1;
    } else {
      HeldBefore(run[i - 1], steps[i - 1], run[i], w);
      j := ReservedEarlier(run, steps, i - 1, w);
    }
  }

  lemma HeldBeforeJob(s: World, v: nat, act: JobAct, s': World, w: nat)
    requires JobNext(s, v, act, s') && w in s'.workers && s'.workers[w].stage.Reserved?
    ensures w in s.workers && s.workers[w] == s'.workers[w]
  {
  }

  lemma HeldBeforeDevice(s: World, v: nat, act: DeviceAct, s': World, w: nat)
    requires DeviceNext(s, v, act, s') && !(v == w && act.Reserve?) && w in s'.workers && s'.workers[w].stage.Reserved?
    ensures w in s.workers && s.workers[w] == s'.workers[w]
  {
  }

  lemma HeldBefore(s: World, step: Step, s': World, w: nat)
    requires Next(s, step, s') && step != OfDevice(w, Reserve) && w in s'.workers && s'.workers[w].stage.Reserved?
    ensures w in s.workers && s.workers[w] == s'.workers[w]
  {
    match step
    case Env(_) =>
    case OfJob(v, act) => HeldBeforeJob(s, v, act, s', w);
    case OfDevice(v, act) => HeldBeforeDevice(s, v, act, s', w);
  }

  /** A push that starts after a delivery was recorded was reserved before it was. */
  lemma LatePushWasReservedEarlier(run: seq<World>, steps: seq<Step>, m: nat, i: nat, w: nat, k: DeliveryKey) returns (j: nat)
    requires IsRun(run, steps) && m <= i < |steps| && IsDelivered(run[m].deliveries, k)
    requires Sends(run[i], steps[i], w, k)
    ensures j < m && Reserves(run[j], steps[j], w, k)
  {
    assert StepAt(run, steps, i);
    j := ReservedEarlier(run, steps, i, w);
    if m <= j { DeliveredAbsorbs(run, steps, m, j, k); }
  }
}
