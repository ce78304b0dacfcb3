/** A run in which a full positions request is answered: the provider answers every chain with an empty, complete result. */
module PositionsFullRun {
  import opened Chains
  import opened WalletRecords
  import opened Wrappers
  import opened Positions

  /** The provider answers every chain of this record. */
  function AllGot(v: Wallet): seq<Reply> {
    var cs := SupportedChains(v);
    seq(|cs|, i requires 0 <= i < |cs| => Got(ChainPositions([], false, [], Origin(v.address, cs[i]))))
  }

  function ResultOf(v: Wallet): Result {
    FullResult(SupportedChains(v), AllGot(v))
  }

  function Empty(): World {
    World(0, map[], map[], map[], map[])
  }

  function Fetching(v: Wallet): World {
    Empty().(inFlight := map[KeyOf(v) := 0], jobs := map[0 := Job(KeyOf(v), v, Running)], requests := map[0 := Awaiting(v, 0)])
  }

  function Fetched(v: Wallet): World {
    var s := Fetching(v);
    s.(cache := Stored(s, KeyOf(v), ResultOf(v), false, None), jobs := map[0 := Job(KeyOf(v), v, Finished(ResultOf(v)))], inFlight := map[])
  }

  lemma {:induction false} GotParts(cs: seq<Chain>, replies: seq<Reply>)
    requires |cs| == |replies| && AnyGot(replies)
    ensures PartsOf(cs, replies) != []
  {
    var n := |cs| - 1;
    if !replies[n].Got? {
      assert replies == replies[..n] + [replies[n]];
      GotParts(cs[..n], replies[..n]);
    }
  }

  /** The answers are complete and about the address of this record. */
  lemma ResultIs(v: Wallet)
    requires SupportedChains(v) != []
    ensures AnyGot(AllGot(v)) && !ResultOf(v).partial && ResultOf(v).parts != [] && FetchedFor(v, ResultOf(v).parts)
    ensures forall i | 0 <= i < |ResultOf(v).parts| :: ResultOf(v).parts[i].positions == []
  {
    assert AllGot(v)[0] in AllGot(v);
    GotParts(SupportedChains(v), AllGot(v));
    FullPartsAre(SupportedChains(v), AllGot(v), v);
    UnqualifiedFullResult(SupportedChains(v), AllGot(v));
    NoPositions(SupportedChains(v), AllGot(v));
  }

  lemma {:induction false} NoPositions(cs: seq<Chain>, replies: seq<Reply>)
    requires |cs| == |replies| && forall r | r in replies && r.Got? :: r.answer.positions == []
    ensures forall i | 0 <= i < |PartsOf(cs, replies)| :: PartsOf(cs, replies)[i].positions == []
  {
    if cs != [] { NoPositions(cs[..|cs| - 1], replies[..|cs| - 1]); }
  }

  lemma OneStepMore(run: seq<World>, steps: seq<Step>, asked: set<Wallet>, step: Step, s': World)
    requires Possible(run, steps, asked) && Next(run[|steps|], step, s') && AsksWithin(step, asked)
    ensures Possible(run + [s'], steps + [step], asked)
  {
    forall i | 0 <= i < |steps| + 1 ensures StepAt(run + [s'], steps + [step], i) {
      if i < |steps| { assert StepAt(run, steps, i); }
    }
  }

  lemma Fetches(v: Wallet) returns (run: seq<World>, steps: seq<Step>)
    requires SupportedChains(v) != []
    ensures Possible(run, steps, {v}) && run[|steps|] == Fetching(v)
  {
    assert Possible([Empty()], [], {v});
    OneStepMore([Empty()], [], {v}, OfRequest(0, AskFull(v, 0)), Fetching(v));
    run, steps := [Empty()] + [Fetching(v)], [] + [OfRequest(0, AskFull(v, 0))];
  }

  lemma FinishesFetch(v: Wallet)
    requires SupportedChains(v) != []
    ensures Next(Fetching(v), OfJob(0, Finish(AllGot(v))), Fetched(v))
  {
    ResultIs(v);
    assert Fetching(v).inFlight - {KeyOf(v)} == map[];
  }

  lemma Delivers(v: Wallet)
    ensures Next(Fetched(v), OfRequest(0, Deliver), PutRequest(Fetched(v), 0, Served(true, v, ResultOf(v))))
    ensures Lookup(Fetched(v), KeyOf(v), false) == Some(ResultOf(v))
  {
  }

  lemma FetchesAll(v: Wallet) returns (run: seq<World>, steps: seq<Step>)
    requires SupportedChains(v) != []
    ensures Possible(run, steps, {v}) && run[|steps|] == Fetched(v)
  {
    run, steps := Fetches(v);
    FinishesFetch(v);
    OneStepMore(run, steps, {v}, OfJob(0, Finish(AllGot(v))), Fetched(v));
    run, steps := run + [Fetched(v)], steps + [OfJob(0, Finish(AllGot(v)))];
  }

  /** A full request is answered, and the cache holds the answer for the next one. */
  lemma FullAnswer(v: Wallet) returns (run: seq<World>, steps: seq<Step>)
    requires SupportedChains(v) != []
    ensures Possible(run, steps, {v}) && run[|steps|].requests == map[0 := Served(true, v, ResultOf(v))]
    ensures Lookup(run[|steps|], KeyOf(v), false) == Some(ResultOf(v))
  {
    run, steps := FetchesAll(v);
    Delivers(v);
    var s := PutRequest(Fetched(v), 0, Served(true, v, ResultOf(v)));
    OneStepMore(run, steps, {v}, OfRequest(0, Deliver), s);
    run, steps := run + [s], steps + [OfRequest(0, Deliver)];
  }

  lemma LargerAsked(run: seq<World>, steps: seq<Step>, few: set<Wallet>, many: set<Wallet>)
    requires Possible(run, steps, few) && few <= many
    ensures Possible(run, steps, many)
  {
    forall i | 0 <= i < |steps| ensures AsksWithin(steps[i], many) {
      assert AsksWithin(steps[i], few);
    }
  }
}
