/** What a job marked as sent stands for, with any number of workers on it: nothing was owed to any of its devices any more. */
module OutboxTheorems {
  import opened Wrappers
  import opened Outbox
  import opened OutboxProtocol

  /** The device has its delivery, or a refusal that is final. */
  predicate NothingOwed(rows: map<DeliveryKey, Delivery>, k: DeliveryKey) {
    k in rows && (rows[k].status.Delivered? || (rows[k].status.Refused? && !rows[k].retryable))
  }

  predicate NothingOwedAt(run: seq<World>, j: nat, k: DeliveryKey) {
    j < |run| && NothingOwed(run[j].deliveries, k)
  }

  /** At some moment from `l` to `i` nothing was owed to the device. */
  predicate Handled(run: seq<World>, l: nat, i: nat, k: DeliveryKey) {
    exists j: nat | l < j <= i :: NothingOwedAt(run, j, k)
  }

  predicate Working(x: Stage) {
    x.Listed? || x.Looping? || x.Reserved? || x.Pushed?
  }

  function Retryables(x: Stage): nat
    requires Working(x)
  {
    if x.Listed? then 0 else x.retryables
  }

  predicate Lists(step: Step, w: nat) {
    step.OfJob? && step.w == w && step.job.List?
  }

  /** The worker listed its devices in the l-th step and is through with the first `n` of them. */
  ghost predicate Through(run: seq<World>, steps: seq<Step>, i: nat, w: nat, l: nat, n: nat)
    requires i < |run| == |steps| + 1
  {
    && w in run[i].workers && Working(run[i].workers[w].stage) && l < i && Lists(steps[l], w) && n <= |steps[l].job.listed|
    && var x := run[i].workers[w];
    && x.stage.todo == steps[l].job.listed[n..] && (x.stage.Listed? ==> n == 0)
    && w in run[l].workers && run[l].workers[w].event == x.event && run[l].workers[w].job == x.job
    && (!x.stage.Listed? ==> ReadBetween(run, l, i, x.stage.states))
    && (Retryables(x.stage) == 0 ==> FirstHandled(run, steps[l].job.listed, n, l, i, x.event))
  }

  predicate ReadBetween(run: seq<World>, l: nat, i: nat, states: map<DeliveryKey, Delivery>) {
    exists j: nat | l < j <= i && j < |run| :: run[j].deliveries == states
  }

  predicate FirstHandled(run: seq<World>, listed: seq<(DeviceId, Device)>, n: nat, l: nat, i: nat, e: EventId) {
    n <= |listed| && forall m | 0 <= m < n :: Handled(run, l, i, (e, listed[m].0))
  }

  lemma LaterStill(run: seq<World>, steps: seq<Step>, i: nat, w: nat, l: nat, n: nat)
    requires i + 1 < |run| == |steps| + 1 && Through(run, steps, i, w, l, n)
    requires w in run[i + 1].workers && run[i + 1].workers[w] == run[i].workers[w]
    ensures Through(run, steps, i + 1, w, l, n)
  {
    HandledLonger(run, steps[l].job.listed, n, l, i, run[i].workers[w].event);
  }

  lemma HandledLonger(run: seq<World>, listed: seq<(DeviceId, Device)>, n: nat, l: nat, i: nat, e: EventId)
    ensures FirstHandled(run, listed, n, l, i, e) ==> FirstHandled(run, listed, n, l, i + 1, e)
  {
    if FirstHandled(run, listed, n, l, i, e) {
      forall m | 0 <= m < n ensures Handled(run, l, i + 1, (e, listed[m].0)) {
        assert Handled(run, l, i, (e, listed[m].0));
        var j: nat :| l < j <= i && NothingOwedAt(run, j, (e, listed[m].0));
      }
    }
  }

  /** One more device is done with; `settled` is the moment nothing was owed to it, unless it is to be retried. */
  lemma OneMore(run: seq<World>, steps: seq<Step>, i: nat, w: nat, l: nat, n: nat, settled: nat)
    requires i + 1 < |run| == |steps| + 1 && Through(run, steps, i, w, l, n) && !run[i].workers[w].stage.Listed? && n < |steps[l].job.listed|
    requires w in run[i + 1].workers && run[i + 1].workers[w] == run[i].workers[w].(stage := run[i + 1].workers[w].stage)
    requires var x, y := run[i].workers[w].stage, run[i + 1].workers[w].stage;
             y.Looping? && y.todo == x.todo[1..] && y.states == x.states && y.retryables >= x.retryables
    requires run[i + 1].workers[w].stage.retryables == 0 ==>
               l < settled <= i + 1 && NothingOwed(run[settled].deliveries, (run[i].workers[w].event, steps[l].job.listed[n].0))
    ensures Through(run, steps, i + 1, w, l, n + 1)
  {
    var listed, e := steps[l].job.listed, run[i].workers[w].event;
    HandledLonger(run, listed, n, l, i, e);
    if run[i + 1].workers[w].stage.retryables == 0 {
      assert NothingOwedAt(run, settled, (e, listed[n].0));
      assert Handled(run, l, i + 1, (e, listed[n].0));
    }
  }

  lemma SkipsDevice(run: seq<World>, steps: seq<Step>, i: nat, w: nat, l: nat, n: nat)
    requires i < |steps| && |run| == |steps| + 1 && Through(run, steps, i, w, l, n)
    requires DeviceNext(run[i], w, Skip, run[i + 1])
    ensures Through(run, steps, i + 1, w, l, n + 1)
  {
    var states := run[i].workers[w].stage.states;
    var j: nat :| l < j <= i && j < |run| && run[j].deliveries == states;
    assert NothingOwed(states, KeyInHand(run[i], w));
    OneMore(run, steps, i, w, l, n, j);
  }

  lemma ReservesDevice(run: seq<World>, steps: seq<Step>, i: nat, w: nat, l: nat, n: nat) returns (n': nat)
    requires i < |steps| && |run| == |steps| + 1 && Through(run, steps, i, w, l, n)
    requires DeviceNext(run[i], w, Reserve, run[i + 1]) && Working(run[i + 1].workers[w].stage)
    ensures Through(run, steps, i + 1, w, l, n')
  {
    if IsDelivered(run[i].deliveries, KeyInHand(run[i], w)) {
      OneMore(run, steps, i, w, l, n, i);
      n' := n + 1;
    } else {
      HandledLonger(run, steps[l].job.listed, n, l, i, run[i].workers[w].event);
      n' := n;
    }
  }

  lemma SendsToDevice(run: seq<World>, steps: seq<Step>, i: nat, w: nat, l: nat, n: nat, push: Push)
    requires i < |steps| && |run| == |steps| + 1 && Through(run, steps, i, w, l, n)
    requires DeviceNext(run[i], w, Send(push), run[i + 1])
    ensures Through(run, steps, i + 1, w, l, n)
  {
    HandledLonger(run, steps[l].job.listed, n, l, i, run[i].workers[w].event);
  }

  lemma RecordsDevice(run: seq<World>, steps: seq<Step>, i: nat, w: nat, l: nat, n: nat)
    requires i < |steps| && |run| == |steps| + 1 && Through(run, steps, i, w, l, n)
    requires DeviceNext(run[i], w, Record, run[i + 1]) && Working(run[i + 1].workers[w].stage)
    ensures Through(run, steps, i + 1, w, l, n + 1)
  {
    RecordSettles(run[i], w, run[i + 1]);
    OneMore(run, steps, i, w, l, n, i + 1);
  }

  /** A push that is recorded and not to be retried leaves nothing owed. */
  lemma RecordSettles(s: World, w: nat, s': World)
    requires DeviceNext(s, w, Record, s') && Working(s'.workers[w].stage)
    ensures var x, y := s.workers[w].stage, s'.workers[w].stage;
            && y.Looping? && y.todo == x.todo[1..] && y.states == x.states && y.retryables >= x.retryables
            && (y.retryables == x.retryables ==> NothingOwed(s'.deliveries, KeyInHand(s, w)))
    ensures s.workers[w].stage.push.Transient? || s.workers[w].stage.push.Unconfirmed? ==>
              s'.workers[w].stage.retryables == s.workers[w].stage.retryables + 1
  {
    OutcomeMeans(s.workers[w].stage.push);
  }

  lemma DeviceStepThrough(run: seq<World>, steps: seq<Step>, i: nat, w: nat, l: nat, n: nat, act: DeviceAct) returns (n': nat)
    requires i < |steps| && |run| == |steps| + 1 && Through(run, steps, i, w, l, n)
    requires DeviceNext(run[i], w, act, run[i + 1]) && w in run[i + 1].workers && Working(run[i + 1].workers[w].stage)
    ensures Through(run, steps, i + 1, w, l, n')
  {
    n' := n;
    match act
    case Skip =>
      SkipsDevice(run, steps, i, w, l, n);
      n' := n + 1;
    case Reserve => n' := ReservesDevice(run, steps, i, w, l, n);
    case Send(push) => SendsToDevice(run, steps, i, w, l, n, push);
    case Record =>
      RecordsDevice(run, steps, i, w, l, n);
      n' := n + 1;
  }

  lemma ReadsStates(run: seq<World>, steps: seq<Step>, i: nat, w: nat, l: nat, n: nat)
    requires i < |steps| && |run| == |steps| + 1 && Through(run, steps, i, w, l, n)
    requires JobNext(run[i], w, ReadStates, run[i + 1])
    ensures Through(run, steps, i + 1, w, l, n)
  {
    assert run[i].deliveries == run[i + 1].workers[w].stage.states;
  }

  /** A worker's own record changes in its own steps only. */
  lemma OwnStepsOnly(s: World, step: Step, s': World, w: nat)
    requires Next(s, step, s') && w in s'.workers && Working(s'.workers[w].stage) && !Lists(step, w)
    ensures w in s.workers
    ensures s'.workers[w] == s.workers[w] || step == OfJob(w, ReadStates) || (step.OfDevice? && step.w == w)
  {
    match step
    case Env(_) =>
    case OfJob(v, act) => OwnJobSteps(s, v, act, s', w);
    case OfDevice(v, act) => OwnDeviceSteps(s, v, act, s', w);
  }

  lemma OwnJobSteps(s: World, v: nat, act: JobAct, s': World, w: nat)
    requires JobNext(s, v, act, s') && w in s'.workers && Working(s'.workers[w].stage) && !(v == w && act.List?)
    ensures w in s.workers && (s'.workers[w] == s.workers[w] || (v == w && act.ReadStates?))
  {
  }

  lemma OwnDeviceSteps(s: World, v: nat, act: DeviceAct, s': World, w: nat)
    requires DeviceNext(s, v, act, s') && w in s'.workers && Working(s'.workers[w].stage)
    ensures w in s.workers && (s'.workers[w] == s.workers[w] || v == w)
  {
  }

  lemma WasWorking(s: World, step: Step, s': World, w: nat)
    requires Next(s, step, s') && w in s.workers && w in s'.workers && Working(s'.workers[w].stage) && !Lists(step, w)
    requires s'.workers[w] == s.workers[w] || step == OfJob(w, ReadStates) || (step.OfDevice? && step.w == w)
    ensures Working(s.workers[w].stage)
  {
  }

  lemma ListStarts(run: seq<World>, steps: seq<Step>, i: nat, w: nat)
    requires i < |steps| && |run| == |steps| + 1 && Lists(steps[i], w) && Next(run[i], steps[i], run[i + 1])
    ensures Through(run, steps, i + 1, w, i, 0)
  {
  }

  lemma {:induction false} WorkersAreThrough(run: seq<World>, steps: seq<Step>, i: nat, w: nat) returns (l: nat, n: nat)
    requires IsRun(run, steps) && i < |run| && w in run[i].workers && Working(run[i].workers[w].stage)
    ensures Through(run, steps, i, w, l, n)
    decreases i
  {
    assert StepAt(run, steps, i - 1);
    var step := steps[i - 1];
    if Lists(step, w) {
      ListStarts(run, steps, i - 1, w);
      l, n := i - 1, 0;
    } else {
      OwnStepsOnly(run[i - 1], step, run[i], w);
      WasWorking(run[i - 1], step, run[i], w);
      l, n := WorkersAreThrough(run, steps, i - 1, w);
      if run[i].workers[w] == run[i - 1].workers[w] {
        LaterStill(run, steps, i - 1, w, l, n);
      } else if step == OfJob(w, ReadStates) {
        ReadsStates(run, steps, i - 1, w, l, n);
      } else {
        n := DeviceStepThrough(run, steps, i - 1, w, l, n, step.device);
      }
    }
  }

  /**
   A worker that marks its job sent listed the owner's active devices before, and since then there was a moment for
   each of them at which it had its delivery or a refusal that is final.
   */
  lemma SentMeansNothingOwed(run: seq<World>, steps: seq<Step>, i: nat, w: nat) returns (l: nat)
    requires IsRun(run, steps) && i < |steps| && steps[i] == OfJob(w, MarkSent)
    ensures l < i && Lists(steps[l], w) && w in run[i].workers && w in run[l].workers
    ensures run[l].workers[w].job == run[i].workers[w].job && run[l].workers[w].event in run[l].owners
    ensures var e := run[l].workers[w].event;
            forall d | d in ActiveDevices(run[l].devices, run[l].owners[e]) :: exists j: nat | l < j <= i :: NothingOwedAt(run, j, (e, d))
  {
    assert StepAt(run, steps, i);
    var n;
    l, n := WorkersAreThrough(run, steps, i, w);
    assert StepAt(run, steps, l);
    var listed, e := steps[l].job.listed, run[l].workers[w].event;
    assert FirstHandled(run, listed, n, l, i, e);
    forall d | d in ActiveDevices(run[l].devices, run[l].owners[e]) ensures exists j: nat | l < j <= i :: NothingOwedAt(run, j, (e, d)) {
      assert d in (set x | x in listed :: x.0);
      var m :| 0 <= m < |listed| && listed[m].0 == d;
      assert Handled(run, l, i, (e, listed[m].0));
    }
  }
}
