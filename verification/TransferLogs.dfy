/** The transfer logs one batch decodes: those of its filters and those recovered from receipts, each once and in block order. */
module TransferLogs {
  import opened Collections
  import opened Wrappers

  /** `supported` is whether the first topic is one of the three transfer topics. */
  datatype Log = Log(tx: nat, index: nat, block: nat, supported: bool, data: nat)

  type LogKey = (nat, nat)

  function KeyOf(l: Log): LogKey {
    (l.tx, l.index)
  }

  predicate NotAfter(a: Log, b: Log) {
    a.block < b.block || (a.block == b.block && a.index <= b.index)
  }

  predicate Sorted(logs: seq<Log>) {
    forall i, j | 0 <= i < j < |logs| :: NotAfter(logs[i], logs[j])
  }

  predicate DistinctKeys(logs: seq<Log>) {
    forall i, j | 0 <= i < j < |logs| :: KeyOf(logs[i]) != KeyOf(logs[j])
  }

  function Keys(logs: seq<Log>): set<LogKey> {
    set l | l in logs :: KeyOf(l)
  }

  // ---- `Array.prototype.sort` with the comparison of blocks, then indices ----

  /** A log goes behind every log it is not before: the order of equals is kept. */
  function Placed(sorted: seq<Log>, l: Log): seq<Log> {
    if sorted == [] || NotAfter(sorted[|sorted| - 1], l) then sorted + [l]
    else Placed(sorted[..|sorted| - 1], l) + [sorted[|sorted| - 1]]
  }

  function SortedLogs(logs: seq<Log>): seq<Log> {
    if logs == [] then [] else Placed(SortedLogs(logs[..|logs| - 1]), logs[|logs| - 1])
  }

  method Place(sorted: seq<Log>, l: Log) returns (placed: seq<Log>)
    ensures placed == Placed(sorted, l)
  {
    var k := |sorted|;
    assert sorted[..k] == sorted;
    while k > 0 && !NotAfter(sorted[k - 1], l)
      invariant 0 <= k <= |sorted| && Placed(sorted, l) == Placed(sorted[..k], l) + sorted[k..]
    {
      PlaceBefore(sorted, l, k);
      k := k - 1;
    }
    placed := sorted[..k] + [l] + sorted[k..];
  }

  lemma PlaceBefore(sorted: seq<Log>, l: Log, k: nat)
    requires 0 < k <= |sorted| && !NotAfter(sorted[k - 1], l)
    ensures Placed(sorted[..k], l) + sorted[k..] == Placed(sorted[..k - 1], l) + sorted[k - 1..]
  {
    assert sorted[..k][..k - 1] == sorted[..k - 1];
    assert sorted[k - 1..] == [sorted[k - 1]] + sorted[k..];
  }

  method SortLogs(logs: seq<Log>) returns (sorted: seq<Log>)
    ensures sorted == SortedLogs(logs)
  {
    sorted := [];
    for i := 0 to |logs|
      invariant sorted == SortedLogs(logs[..i])
    {
      assert logs[..i + 1][..i] == logs[..i];
      sorted := Place(sorted, logs[i]);
    }
    assert logs[..|logs|] == logs;
  }

  lemma {:induction false} PlacedSorted(sorted: seq<Log>, l: Log)
    requires Sorted(sorted)
    ensures Sorted(Placed(sorted, l)) && multiset(Placed(sorted, l)) == multiset(sorted) + multiset{l}
  {
    if sorted != [] {
      var init, last := sorted[..|sorted| - 1], sorted[|sorted| - 1];
      assert sorted == init + [last];
      if NotAfter(last, l) {
        forall i | 0 <= i < |sorted| ensures NotAfter(sorted[i], l) {
          if i < |init| { assert NotAfter(sorted[i], last); }
        }
      } else {
        PlacedSorted(init, l);
        forall x | x in Placed(init, l) ensures NotAfter(x, last) {
          assert x in multiset(Placed(init, l));
          if x in init {
            var i :| 0 <= i < |init| && init[i] == x;
            assert NotAfter(sorted[i], last);
          }
        }
      }
    }
  }

  lemma {:induction false} SortedLogsAre(logs: seq<Log>)
    ensures Sorted(SortedLogs(logs)) && multiset(SortedLogs(logs)) == multiset(logs)
  {
    if logs != [] {
      var init, last := logs[..|logs| - 1], logs[|logs| - 1];
      SortedLogsAre(init);
      PlacedSorted(SortedLogs(init), last);
      assert logs == init + [last];
    }
  }

  lemma {:induction false} SameLogs(a: seq<Log>, b: seq<Log>)
    requires multiset(a) == multiset(b)
    ensures Keys(a) == Keys(b) && |a| == |b| && forall l :: l in a <==> l in b
  {
    assert |multiset(a)| == |a| && |multiset(b)| == |b|;
    forall l ensures l in a <==> l in b {
      assert l in a <==> l in multiset(a);
      assert l in b <==> l in multiset(b);
    }
  }

  /** Distinct keys survive a rearrangement. */
  lemma DistinctSorted(a: seq<Log>, b: seq<Log>)
    requires multiset(a) == multiset(b) && DistinctKeys(a)
    ensures DistinctKeys(b)
  {
    forall i, j | 0 <= i < j < |b| ensures KeyOf(b[i]) != KeyOf(b[j]) {
      if KeyOf(b[i]) == KeyOf(b[j]) {
        assert b[i] in multiset(b) && b[j] in multiset(b);
        assert b[i] in a && b[j] in a;
        var x, y :| 0 <= x < |a| && a[x] == b[i] && 0 <= y < |a| && a[y] == b[j];
        assert x == y;
        Twice(b, i, j);
        Once(a, x);
      }
    }
  }

  lemma Twice(b: seq<Log>, i: nat, j: nat)
    requires i < j < |b| && b[i] == b[j]
    ensures multiset(b)[b[i]] >= 2
  {
    assert b == b[..i] + [b[i]] + b[i + 1..j] + [b[j]] + b[j + 1..];
  }

  lemma Once(a: seq<Log>, x: nat)
    requires x < |a| && DistinctKeys(a)
    ensures multiset(a)[a[x]] == 1
  {
    assert a == a[..x] + [a[x]] + a[x + 1..];
    assert a[x] !in a[..x] && a[x] !in a[x + 1..];
  }

  function Flatten(groups: seq<seq<Log>>): seq<Log> {
    if groups == [] then [] else Flatten(groups[..|groups| - 1]) + groups[|groups| - 1]
  }

  /** The last of these logs with a key. */
  function LastWith(logs: seq<Log>, k: LogKey): (last: Option<Log>)
    ensures last.Some? ==> KeyOf(last.value) == k && last.value in logs
  {
    if logs == [] then None
    else if KeyOf(logs[|logs| - 1]) == k then Some(logs[|logs| - 1])
    else LastWith(logs[..|logs| - 1], k)
  }

  lemma LastWithSnoc(logs: seq<Log>, l: Log, k: LogKey)
    ensures LastWith(logs + [l], k) == if KeyOf(l) == k then Some(l) else LastWith(logs, k)
  {
    assert (logs + [l])[..|logs|] == logs;
  }

  /** It is in the list, and no log after it has its key. */
  lemma {:induction false} LastWithMeans(logs: seq<Log>, k: LogKey)
    ensures LastWith(logs, k).None? <==> forall i | 0 <= i < |logs| :: !(logs[i].tx == k.0 && logs[i].index == k.1)
    ensures LastWith(logs, k).Some? ==>
              exists i | 0 <= i < |logs| :: logs[i] == LastWith(logs, k).value && forall j | i < j < |logs| :: !(logs[j].tx == k.0 && logs[j].index == k.1)
    decreases |logs|
  {
    if logs != [] {
      var n := |logs| - 1;
      LastWithMeans(logs[..n], k);
      if KeyOf(logs[n]) != k && LastWith(logs[..n], k).Some? {
        var i :| 0 <= i < n && logs[..n][i] == LastWith(logs[..n], k).value
                 && forall j | i < j < n :: !(logs[..n][j].tx == k.0 && logs[..n][j].index == k.1);
        forall j | i < j < |logs| ensures !(logs[j].tx == k.0 && logs[j].index == k.1) {
          if j < n { assert logs[..n][j] == logs[j]; }
        }
      }
    }
  }

  lemma {:induction false} FlattenAdds(a: seq<seq<Log>>, b: seq<seq<Log>>)
    ensures Flatten(a + b) == Flatten(a) + Flatten(b)
    ensures |b| == 1 ==> Flatten(b) == b[0]
    decreases |b|
  {
    if b == [] {
      assert a + b == a;
    } else {
      FlattenAdds(a, b[..|b| - 1]);
      LastOfBoth(a, b);
      Associative(Flatten(a), Flatten(b[..|b| - 1]), b[|b| - 1]);
    }
  }

  /** The keys of these logs in the order of first appearance. */
  function FirstKeys(logs: seq<Log>): seq<LogKey> {
    if logs == [] then []
    else
      var ks, k := FirstKeys(logs[..|logs| - 1]), KeyOf(logs[|logs| - 1]);
      if k in ks then ks else ks + [k]
  }

  lemma {:induction false} FirstKeysAre(logs: seq<Log>)
    ensures forall i, j | 0 <= i < j < |FirstKeys(logs)| :: FirstKeys(logs)[i] != FirstKeys(logs)[j]
    ensures forall k :: k in FirstKeys(logs) <==> LastWith(logs, k).Some?
    ensures forall k :: k in FirstKeys(logs) <==> k in Keys(logs)
  {
    if logs != [] {
      var init, last := logs[..|logs| - 1], logs[|logs| - 1];
      FirstKeysAre(init);
      assert logs == init + [last];
      KeysSnoc(init, last);
    }
  }

  /** One log per key, the last one, in the order of first appearance. */
  function LastPerKey(logs: seq<Log>): seq<Log> {
    FirstKeysAre(logs);
    var ks := FirstKeys(logs);
    seq(|ks|, i requires 0 <= i < |ks| && LastWith(logs, ks[i]).Some? => LastWith(logs, ks[i]).value)
  }

  /** A JavaScript Map of these logs by key: the order is that of first insertion, the value that of the last. */
  ghost predicate MapOf(order: seq<LogKey>, values: map<LogKey, Log>, logs: seq<Log>) {
    && order == FirstKeys(logs)
    && (forall k :: k in order <==> k in values)
    && forall k | k in values :: LastWith(logs, k) == Some(values[k])
  }

  lemma SetOne(order: seq<LogKey>, values: map<LogKey, Log>, logs: seq<Log>, l: Log)
    requires MapOf(order, values, logs)
    ensures MapOf(if KeyOf(l) in values then order else order + [KeyOf(l)], values[KeyOf(l) := l], logs + [l])
  {
    assert (logs + [l])[..|logs|] == logs;
    forall k ensures LastWith(logs + [l], k) == if KeyOf(l) == k then Some(l) else LastWith(logs, k) {
      LastWithSnoc(logs, l, k);
    }
  }

  lemma OneLogMore(before: seq<Log>, group: seq<Log>, i: nat)
    requires i < |group|
    ensures before + group[..i + 1] == before + group[..i] + [group[i]]
  {
  }

  method SetAll(order: seq<LogKey>, values: map<LogKey, Log>, ghost before: seq<Log>, group: seq<Log>)
    returns (order': seq<LogKey>, values': map<LogKey, Log>)
    requires MapOf(order, values, before)
    ensures MapOf(order', values', before + group)
  {
    order', values' := order, values;
    assert before + group[..0] == before;
    for i := 0 to |group|
      invariant MapOf(order', values', before + group[..i])
    {
      var l := group[i];
      SetOne(order', values', before + group[..i], l);
      OneLogMore(before, group, i);
      if KeyOf(l) !in values' {
        order' := order' + [KeyOf(l)];
      }
      values' := values'[KeyOf(l) := l];
    }
    assert group[..|group|] == group;
  }

  /** `[...map.values()]`. */
  function Values(order: seq<LogKey>, values: map<LogKey, Log>): seq<Log>
    requires forall k | k in order :: k in values
  {
    seq(|order|, i requires 0 <= i < |order| => values[order[i]])
  }

  lemma LastPerKeyAre(logs: seq<Log>)
    ensures var vs := LastPerKey(logs);
            DistinctKeys(vs) && Keys(vs) == Keys(logs) && forall l | l in vs :: l in logs && LastWith(logs, KeyOf(l)) == Some(l)
  {
    FirstKeysAre(logs);
    var ks, vs := FirstKeys(logs), LastPerKey(logs);
    assert forall i | 0 <= i < |ks| :: LastWith(logs, ks[i]) == Some(vs[i]) && KeyOf(vs[i]) == ks[i];
    forall k | k in Keys(logs) ensures k in Keys(vs) {
      var i :| 0 <= i < |ks| && ks[i] == k;
      assert vs[i] in vs;
    }
  }

  function FetchedLogs(groups: seq<seq<Log>>): seq<Log> {
    SortedLogs(LastPerKey(Flatten(groups)))
  }

  lemma FetchedLogsAre(groups: seq<seq<Log>>)
    ensures var logs, all := FetchedLogs(groups), Flatten(groups);
            && Sorted(logs) && DistinctKeys(logs) && Keys(logs) == Keys(all)
            && forall l | l in logs :: l in all && LastWith(all, KeyOf(l)) == Some(l)
  {
    var deduped := LastPerKey(Flatten(groups));
    LastPerKeyAre(Flatten(groups));
    SortedLogsAre(deduped);
    SameLogs(deduped, FetchedLogs(groups));
    DistinctSorted(deduped, FetchedLogs(groups));
  }

  /** `fetchTransferLogs` on the answers to its filters: one log per key, in block order. */
  method FetchTransferLogs(groups: seq<seq<Log>>) returns (logs: seq<Log>)
    ensures logs == FetchedLogs(groups)
    ensures Sorted(logs) && DistinctKeys(logs) && Keys(logs) == Keys(Flatten(groups))
    ensures forall l | l in logs :: l in Flatten(groups) && LastWith(Flatten(groups), KeyOf(l)) == Some(l)
  {
    var order: seq<LogKey>, values: map<LogKey, Log> := [], map[];
    for g := 0 to |groups|
      invariant MapOf(order, values, Flatten(groups[..g]))
    {
      assert groups[..g + 1][..g] == groups[..g];
      order, values := SetAll(order, values, Flatten(groups[..g]), groups[g]);
    }
    assert groups[..|groups|] == groups;
    FirstKeysAre(Flatten(groups));
    assert Values(order, values) == LastPerKey(Flatten(groups));
    logs := SortLogs(Values(order, values));
    FetchedLogsAre(groups);
  }

  lemma KeysSnoc(logs: seq<Log>, l: Log)
    ensures Keys(logs + [l]) == Keys(logs) + {KeyOf(l)}
  {
    assert forall k :: k in Keys(logs) ==> k in Keys(logs + [l]);
    assert l in logs + [l];
  }

  /** The supported logs whose key is neither known nor seen before. */
  function Recovered(logs: seq<Log>, known: set<LogKey>): seq<Log> {
    if logs == [] then []
    else
      var r, l := Recovered(logs[..|logs| - 1], known), logs[|logs| - 1];
      if l.supported && KeyOf(l) !in known + Keys(r) then r + [l] else r
  }

  lemma {:induction false} RecoveredAre(logs: seq<Log>, known: set<LogKey>)
    ensures var r := Recovered(logs, known);
            && DistinctKeys(r) && Keys(r) !! known
            && (forall l | l in r :: l in logs && l.supported)
            && (forall l | l in logs && l.supported :: KeyOf(l) in known + Keys(r))
  {
    if logs != [] {
      var init, last := logs[..|logs| - 1], logs[|logs| - 1];
      RecoveredAre(init, known);
      assert logs == init + [last];
      var r := Recovered(init, known);
      KeysSnoc(r, last);
      assert forall x | x in r :: KeyOf(x) in Keys(r);
    }
  }

  function RecoveredTo(before: seq<Log>, receipt: seq<Log>, i: nat, known: set<LogKey>): seq<Log>
    requires i <= |receipt|
  {
    Recovered(before + receipt[..i], known)
  }

  lemma RecoveredNext(before: seq<Log>, receipt: seq<Log>, i: nat, known: set<LogKey>)
    requires i < |receipt|
    ensures var r, l := RecoveredTo(before, receipt, i, known), receipt[i];
            && Keys(r + [l]) == Keys(r) + {KeyOf(l)}
            && RecoveredTo(before, receipt, i + 1, known) == if l.supported && KeyOf(l) !in known + Keys(r) then r + [l] else r
  {
    OneLogMore(before, receipt, i);
    assert (before + receipt[..i] + [receipt[i]])[..|before + receipt[..i]|] == before + receipt[..i];
    KeysSnoc(RecoveredTo(before, receipt, i, known), receipt[i]);
  }

  lemma RecoveredEnds(before: seq<Log>, receipt: seq<Log>, known: set<LogKey>)
    ensures RecoveredTo(before, receipt, 0, known) == Recovered(before, known)
    ensures RecoveredTo(before, receipt, |receipt|, known) == Recovered(before + receipt, known)
  {
    assert before + receipt[..0] == before && receipt[..|receipt|] == receipt;
  }

  /** The log loop of `fetchReceiptBackfillLogsForBlockRange`, over the receipts of the candidate transactions. */
  method BackfillLogs(receipts: seq<seq<Log>>, known: set<LogKey>) returns (recovered: seq<Log>)
    ensures recovered == Recovered(Flatten(receipts), known)
    ensures DistinctKeys(recovered) && Keys(recovered) !! known
    ensures forall l | l in recovered :: l in Flatten(receipts) && l.supported
    ensures forall l | l in Flatten(receipts) && l.supported :: KeyOf(l) in known + Keys(recovered)
  {
    recovered := [];
    var seen := known;
    for r := 0 to |receipts|
      invariant recovered == Recovered(Flatten(receipts[..r]), known) && seen == known + Keys(recovered)
    {
      assert receipts[..r + 1][..r] == receipts[..r];
      recovered, seen := BackfillReceipt(Flatten(receipts[..r]), receipts[r], known, recovered, seen);
    }
    assert receipts[..|receipts|] == receipts;
    RecoveredAre(Flatten(receipts), known);
  }

  method BackfillReceipt(ghost before: seq<Log>, receipt: seq<Log>, ghost known: set<LogKey>, recovered: seq<Log>, seen: set<LogKey>)
    returns (recovered': seq<Log>, seen': set<LogKey>)
    requires recovered == Recovered(before, known) && seen == known + Keys(recovered)
    ensures recovered' == Recovered(before + receipt, known) && seen' == known + Keys(recovered')
  {
    recovered', seen' := recovered, seen;
    RecoveredEnds(before, receipt, known);
    for i := 0 to |receipt|
      invariant recovered' == RecoveredTo(before, receipt, i, known) && seen' == known + Keys(recovered')
    {
      RecoveredNext(before, receipt, i, known);
      var l := receipt[i];
      if l.supported && KeyOf(l) !in seen' {
        recovered', seen' := recovered' + [l], seen' + {KeyOf(l)};
      }
    }
  }

  /** What a batch has to decode, and where it comes from. */
  function AllLogs(groups: seq<seq<Log>>, receipts: seq<seq<Log>>): seq<Log> {
    SortedLogs(FetchedLogs(groups) + Recovered(Flatten(receipts), Keys(FetchedLogs(groups))))
  }

  predicate IsTransfer(groups: seq<seq<Log>>, receipts: seq<seq<Log>>, l: Log) {
    l in Flatten(groups) || (l in Flatten(receipts) && l.supported)
  }

  lemma AllLogsAre(groups: seq<seq<Log>>, receipts: seq<seq<Log>>)
    ensures var logs := AllLogs(groups, receipts);
            && Sorted(logs) && DistinctKeys(logs)
            && (forall l | IsTransfer(groups, receipts, l) :: KeyOf(l) in Keys(logs))
            && (forall l | l in logs :: IsTransfer(groups, receipts, l))
  {
    var fetched := FetchedLogs(groups);
    var recovered := Recovered(Flatten(receipts), Keys(fetched));
    FetchedLogsAre(groups);
    RecoveredAre(Flatten(receipts), Keys(fetched));
    KeysConcat(fetched, recovered);
    SortedLogsAre(fetched + recovered);
    SameLogs(fetched + recovered, AllLogs(groups, receipts));
    DistinctSorted(fetched + recovered, AllLogs(groups, receipts));
    forall l | l in Flatten(groups) ensures KeyOf(l) in Keys(fetched) {
      assert KeyOf(l) in Keys(Flatten(groups));
    }
  }

  lemma KeysConcat(a: seq<Log>, b: seq<Log>)
    ensures Keys(a + b) == Keys(a) + Keys(b)
    ensures DistinctKeys(a) && DistinctKeys(b) && Keys(a) !! Keys(b) ==> DistinctKeys(a + b)
  {
    assert forall l :: l in a + b <==> l in a || l in b;
    assert forall i | 0 <= i < |a| :: KeyOf(a[i]) in Keys(a);
    assert forall i | 0 <= i < |b| :: KeyOf(b[i]) in Keys(b);
  }

  /** The logs one batch decodes: every log of the filters and every supported log of the receipts, once each. */
  method BatchLogs(groups: seq<seq<Log>>, receipts: seq<seq<Log>>) returns (logs: seq<Log>)
    ensures logs == AllLogs(groups, receipts)
    ensures Sorted(logs) && DistinctKeys(logs)
    ensures forall i, j | 0 <= i < j < |logs| :: logs[i].block < logs[j].block || (logs[i].block == logs[j].block && logs[i].index <= logs[j].index)
    ensures forall i, j | 0 <= i < j < |logs| :: logs[i].tx != logs[j].tx || logs[i].index != logs[j].index
    ensures forall l | IsTransfer(groups, receipts, l) :: KeyOf(l) in Keys(logs)
    ensures forall l | l in logs :: IsTransfer(groups, receipts, l)
  {
    var fetched := FetchTransferLogs(groups);
    var recovered := BackfillLogs(receipts, set l | l in fetched :: KeyOf(l));
    logs := SortLogs(fetched + recovered);
    AllLogsAre(groups, receipts);
  }
}
