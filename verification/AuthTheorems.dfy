/** Limits and single use, over every run of the email-code and session machine. */
module AuthTheorems {
  import opened Collections
  import opened Wrappers
  import opened Auth
  import opened AuthProtocol

  // ---- Wrong guesses ----

  const MAX_WRONG_GUESSES_PER_HOUR := 30

  predicate InWindow(at: int, t: int) {
    t <= at < t + HOUR_MS
  }

  /** The codes against which the first `n` steps evaluated wrong guesses in the hour from `t`, with repetition. */
  function Misjudged(run: seq<World>, steps: seq<Step>, n: nat, u: UserId, p: Purpose, t: int): multiset<CodeId>
    requires n <= |steps| < |run|
  {
    if n == 0 then multiset{}
    else Misjudged(run, steps, n - 1, u, p, t) + Miss(run[n - 1], steps[n - 1], u, p, t)
  }

  function Miss(s: World, step: Step, u: UserId, p: Purpose, t: int): multiset<CodeId> {
    if Misses(step, u, p) && InWindow(s.now, t) then multiset{step.code.id} else multiset{}
  }

  function IssuedInside(db: Db, u: UserId, p: Purpose, t: int): set<CodeId> {
    set id | id in db.codes && Of(db, id, u, p) && InWindow(db.codes[id].createdAt, t)
  }

  /** Every misjudged code has counted its wrong guesses. */
  ghost predicate Counted(db: Db, e: multiset<CodeId>, u: UserId, p: Purpose, t: int) {
    forall id | id in e :: Of(db, id, u, p) && e[id] <= db.codes[id].attempts && db.codes[id].createdAt < t + HOUR_MS
  }

  predicate Older(db: Db, id: CodeId, u: UserId, p: Purpose, t: int) {
    Of(db, id, u, p) && db.codes[id].createdAt < t
  }

  /** At most one misjudged code was issued before the window, and no other such code is still open. */
  ghost predicate OneOlder(db: Db, e: multiset<CodeId>, u: UserId, p: Purpose, t: int) {
    forall x, y | x in e && Older(db, x, u, p, t) && Older(db, y, u, p, t) && (y in e || Open(db, y, u, p)) :: x == y
  }

  /** What the rows say about the codes `e` misjudged in the window so far. */
  ghost predicate Accounted(db: Db, e: multiset<CodeId>, u: UserId, p: Purpose, t: int) {
    Counted(db, e, u, p, t) && OneOlder(db, e, u, p, t) && |IssuedInside(db, u, p, t)| <= MAX_CODES_PER_HOUR
  }

  ghost predicate WindowInv(s: World, e: multiset<CodeId>, u: UserId, p: Purpose, t: int) {
    && (e != multiset{} ==> t <= s.now)
    && (u !in s.past.users ==> e == multiset{})
    && if u in s.db.users then Accounted(s.db, e, u, p, t) else |e| <= MAX_WRONG_GUESSES_PER_HOUR
  }

  /** Each misjudged code was misjudged at most five times. */
  lemma {:induction false} FivePerCode(e: multiset<CodeId>, ids: set<CodeId>)
    requires forall id | id in e :: id in ids && e[id] <= MAX_ATTEMPTS
    ensures |e| <= MAX_ATTEMPTS * |ids|
  {
    if ids == {} {
      assert e == multiset{};
    } else {
      var id :| id in ids;
      var rest := e[id := 0];
      FivePerCode(rest, ids - {id});
      assert |ids - {id}| == |ids| - 1;
    }
  }

  lemma AccountedBound(db: Db, e: multiset<CodeId>, u: UserId, p: Purpose, t: int)
    requires Accounted(db, e, u, p, t) && forall id | id in db.codes :: db.codes[id].attempts <= MAX_ATTEMPTS
    ensures |e| <= MAX_WRONG_GUESSES_PER_HOUR
  {
    var inside := IssuedInside(db, u, p, t);
    if x :| x in e && db.codes[x].createdAt < t {
      FivePerCode(e, inside + {x});
    } else {
      FivePerCode(e, inside);
    }
  }

  lemma IssueInside(db: Db, id: CodeId, u: UserId, p: Purpose, now: int, t: int)
    requires |IssuedInside(db, u, p, t)| <= MAX_CODES_PER_HOUR && id !in db.codes
    ensures |IssuedInside(IssueCode(db, id, u, p, now), u, p, t)| <= MAX_CODES_PER_HOUR
  {
    var db' := IssueCode(db, id, u, p, now);
    if MayIssue(db, u, p, now) {
      IssueAdds(db, id, u, p, now, t);
      if InWindow(now, t) {
        SubsetSize(IssuedInside(db, u, p, t), Recent(db, u, p, now));
      }
    }
  }

  lemma IssueAdds(db: Db, id: CodeId, u: UserId, p: Purpose, now: int, t: int)
    requires id !in db.codes && MayIssue(db, u, p, now)
    ensures IssuedInside(IssueCode(db, id, u, p, now), u, p, t) == IssuedInside(db, u, p, t) + if InWindow(now, t) then {id} else {}
  {
  }

  lemma IssueAccounted(db: Db, id: CodeId, u: UserId, p: Purpose, now: int, e: multiset<CodeId>, t: int)
    requires Accounted(db, e, u, p, t) && id !in db.codes && (e != multiset{} ==> t <= now)
    ensures Accounted(IssueCode(db, id, u, p, now), e, u, p, t)
  {
    var db' := IssueCode(db, id, u, p, now);
    IssueInside(db, id, u, p, now, t);
    forall x | x in e ensures x != id && x in db'.codes && CodeMoves(db.codes[x], db'.codes[x]) {}
    forall y | Older(db', y, u, p, t) && e != multiset{} ensures Older(db, y, u, p, t) && (Open(db', y, u, p) ==> Open(db, y, u, p)) {}
  }

  /** Rows that only move on keep the account, whoever they belong to. */
  lemma MovedAccounted(db: Db, db': Db, e: multiset<CodeId>, u: UserId, p: Purpose, t: int)
    requires Accounted(db, e, u, p, t)
    requires forall x | x in db'.codes && Of(db', x, u, p) :: x in db.codes && CodeMoves(db.codes[x], db'.codes[x])
    requires forall x | Of(db, x, u, p) :: x in db'.codes && CodeMoves(db.codes[x], db'.codes[x])
    ensures Accounted(db', e, u, p, t)
  {
    assert IssuedInside(db', u, p, t) == IssuedInside(db, u, p, t);
    forall x | x in e ensures Of(db, x, u, p) && CodeMoves(db.codes[x], db'.codes[x]) {}
    forall y | Older(db', y, u, p, t) ensures Older(db, y, u, p, t) && (Open(db', y, u, p) ==> Open(db, y, u, p)) {}
  }

  lemma MissAccounted(db: Db, db': Db, id: CodeId, u: UserId, p: Purpose, now: int, e: multiset<CodeId>, t: int)
    requires Accounted(db, e, u, p, t) && OneOpen(db) && Open(db, id, u, p)
    requires db'.codes == db.codes[id := db.codes[id].(attempts := db.codes[id].attempts + 1)]
    requires InWindow(now, t) && db.codes[id].createdAt <= now
    ensures Accounted(db', e + multiset{id}, u, p, t)
  {
    assert IssuedInside(db', u, p, t) == IssuedInside(db, u, p, t);
    MissCounted(db, db', id, u, p, e, t);
    MissOneOlder(db, db', id, u, p, e, t);
  }

  lemma MissCounted(db: Db, db': Db, id: CodeId, u: UserId, p: Purpose, e: multiset<CodeId>, t: int)
    requires Counted(db, e, u, p, t) && Of(db, id, u, p) && db.codes[id].createdAt < t + HOUR_MS
    requires db'.codes == db.codes[id := db.codes[id].(attempts := db.codes[id].attempts + 1)]
    ensures Counted(db', e + multiset{id}, u, p, t)
  {
    forall x | x in e + multiset{id}
      ensures Of(db', x, u, p) && (e + multiset{id})[x] <= db'.codes[x].attempts && db'.codes[x].createdAt < t + HOUR_MS
    {
      if x != id { assert x in e; }
    }
  }

  lemma MissOneOlder(db: Db, db': Db, id: CodeId, u: UserId, p: Purpose, e: multiset<CodeId>, t: int)
    requires OneOlder(db, e, u, p, t) && OneOpen(db) && Open(db, id, u, p)
    requires db'.codes == db.codes[id := db.codes[id].(attempts := db.codes[id].attempts + 1)]
    ensures OneOlder(db', e + multiset{id}, u, p, t)
  {
    forall y | Open(db', y, u, p) ensures y == id {
      assert Open(db, y, u, p);
    }
    forall y | Older(db', y, u, p, t) ensures Older(db, y, u, p, t) {}
  }

  lemma WindowStep(s: World, step: Step, s': World, e: multiset<CodeId>, u: UserId, p: Purpose, t: int)
    requires Inv(s) && Next(s, step, s') && WindowInv(s, e, u, p, t)
    ensures WindowInv(s', e + Miss(s, step, u, p, t), u, p, t)
  {
    TimeAndUsers(s, step, s', u, p, t);
    if u !in s'.db.users {
      assert e + Miss(s, step, u, p, t) == e;
      if u in s.db.users { AccountedBound(s.db, e, u, p, t); }
    } else if u in s.db.users {
      AccountedStep(s, step, s', e, u, p, t);
    } else {
      NoCodesYet(s, step, s', u);
      assert e + Miss(s, step, u, p, t) == multiset{};
      NothingMisjudged(s'.db, u, p, t);
    }
  }

  /** A code is misjudged inside the window, and only while its user stays. */
  lemma TimeAndUsers(s: World, step: Step, s': World, u: UserId, p: Purpose, t: int)
    requires Next(s, step, s') && s.db.users.Keys <= s.past.users
    ensures s.now <= s'.now && s.past.users <= s'.past.users
    ensures Miss(s, step, u, p, t) != multiset{} ==> t <= s.now && u in s.db.users && u in s'.db.users
  {
    match step
    case Env(_) =>
    case OfCode(act) => if act.Guess? { GuessKeepsUsers(s.db, act.id, act.right, act.newHash, s.now); }
    case OfSession(_) =>
  }

  lemma GuessKeepsUsers(db: Db, id: CodeId, right: bool, newHash: Hash, now: int)
    requires id in db.codes && db.codes[id].user in db.users
    ensures GuessCode(db, id, right, newHash, now).users.Keys == db.users.Keys
  {
  }

  lemma NothingMisjudged(db: Db, u: UserId, p: Purpose, t: int)
    requires forall id | id in db.codes :: db.codes[id].user != u
    ensures Accounted(db, multiset{}, u, p, t)
  {
    assert IssuedInside(db, u, p, t) == {};
  }

  lemma NoCodesYet(s: World, step: Step, s': World, u: UserId)
    requires Inv(s) && Next(s, step, s') && u !in s.db.users && u in s'.db.users
    ensures u !in s.past.users && forall id | id in s'.db.codes :: s'.db.codes[id].user != u
  {
    match step
    case Env(_) =>
    case OfCode(_) =>
    case OfSession(act) => CodesUntouched(s, act, s');
  }

  lemma AccountedStep(s: World, step: Step, s': World, e: multiset<CodeId>, u: UserId, p: Purpose, t: int)
    requires Inv(s) && Next(s, step, s') && WindowInv(s, e, u, p, t) && u in s.db.users && u in s'.db.users
    ensures Accounted(s'.db, e + Miss(s, step, u, p, t), u, p, t)
  {
    if step.OfCode? && step.code.Request? && step.code.user == u && step.code.purpose == p {
      RequestStepAccounted(s, step.code, s', e, u, p, t);
      assert e + multiset{} == e;
    } else if Misses(step, u, p) && InWindow(s.now, t) {
      MissStepAccounted(s, step.code, s', e, u, p, t);
    } else {
      OthersMove(s, step, s', u, p);
      MovedAccounted(s.db, s'.db, e, u, p, t);
      assert e + multiset{} == e;
    }
  }

  lemma RequestStepAccounted(s: World, act: CodeAct, s': World, e: multiset<CodeId>, u: UserId, p: Purpose, t: int)
    requires CodeNext(s, act, s') && act.Request? && act.user == u && act.purpose == p && s.db.codes.Keys <= s.past.codes
    requires Accounted(s.db, e, u, p, t) && (e != multiset{} ==> t <= s.now)
    ensures Accounted(s'.db, e, u, p, t)
  {
    IssueAccounted(s.db, act.id, u, p, s.now, e, t);
  }

  lemma MissStepAccounted(s: World, act: CodeAct, s': World, e: multiset<CodeId>, u: UserId, p: Purpose, t: int)
    requires CodeNext(s, act, s') && act.Guess? && !act.right && act.user == u && act.purpose == p && InWindow(s.now, t)
    requires Accounted(s.db, e, u, p, t) && CodesOk(s)
    ensures Accounted(s'.db, e + multiset{act.id}, u, p, t)
  {
    MissAccounted(s.db, s'.db, act.id, u, p, s.now, e, t);
  }

  lemma OthersMove(s: World, step: Step, s': World, u: UserId, p: Purpose)
    requires Inv(s) && Next(s, step, s') && u in s'.db.users
    requires !(step.OfCode? && step.code.Request? && step.code.user == u && step.code.purpose == p)
    ensures forall x | x in s'.db.codes && Of(s'.db, x, u, p) :: x in s.db.codes && CodeMoves(s.db.codes[x], s'.db.codes[x])
    ensures forall x | Of(s.db, x, u, p) :: x in s'.db.codes && CodeMoves(s.db.codes[x], s'.db.codes[x])
  {
    match step
    case Env(_) =>
    case OfCode(act) => OtherCodesMove(s, act, s', u, p);
    case OfSession(act) => CodesUntouched(s, act, s');
  }

  lemma OtherCodesMove(s: World, act: CodeAct, s': World, u: UserId, p: Purpose)
    requires CodeNext(s, act, s') && s.db.codes.Keys <= s.past.codes && !(act.Request? && act.user == u && act.purpose == p)
    ensures forall x | x in s'.db.codes && Of(s'.db, x, u, p) :: x in s.db.codes && CodeMoves(s.db.codes[x], s'.db.codes[x])
    ensures forall x | Of(s.db, x, u, p) :: x in s'.db.codes && CodeMoves(s.db.codes[x], s'.db.codes[x])
  {
  }

  lemma {:induction false} WindowRun(run: seq<World>, steps: seq<Step>, n: nat, u: UserId, p: Purpose, t: int)
    requires IsRun(run, steps) && n <= |steps|
    ensures WindowInv(run[n], Misjudged(run, steps, n, u, p, t), u, p, t)
  {
    if n == 0 {
      NothingMisjudged(run[0].db, u, p, t);
    } else {
      var e := Misjudged(run, steps, n - 1, u, p, t);
      WindowRun(run, steps, n - 1, u, p, t);
      assert StepAt(run, steps, n - 1);
      RunInv(run, steps, n - 1);
      WindowStep(run[n - 1], steps[n - 1], run[n], e, u, p, t);
      assert Misjudged(run, steps, n, u, p, t) == e + Miss(run[n - 1], steps[n - 1], u, p, t);
    }
  }

  /** In any half-open hour at most 30 wrong codes are evaluated per user and purpose. */
  lemma GuessBound(run: seq<World>, steps: seq<Step>, n: nat, u: UserId, p: Purpose, t: int)
    requires IsRun(run, steps) && n <= |steps|
    ensures |Misjudged(run, steps, n, u, p, t)| <= MAX_WRONG_GUESSES_PER_HOUR
  {
    WindowRun(run, steps, n, u, p, t);
    RunInv(run, steps, n);
    if u in run[n].db.users { AccountedBound(run[n].db, Misjudged(run, steps, n, u, p, t), u, p, t); }
  }

  // ---- Refresh tokens ----

  lemma {:induction false} AcceptedStays(run: seq<World>, steps: seq<Step>, i: nat, j: nat, d: Digest)
    requires IsRun(run, steps) && i <= j < |run| && d in run[i].past.accepted
    ensures d in run[j].past.accepted
  {
    if i < j {
      AcceptedStays(run, steps, i, j - 1, d);
      assert StepAt(run, steps, j - 1);
    }
  }

  /** Over any run each refresh token is accepted at most once. */
  lemma RefreshAcceptedOnce(run: seq<World>, steps: seq<Step>, i: nat, j: nat, d: Digest)
    requires IsRun(run, steps) && i <= j < |steps| && AcceptsRefresh(steps[i], d) && AcceptsRefresh(steps[j], d)
    ensures i == j
  {
    RunInv(run, steps, j);
    assert StepAt(run, steps, i) && StepAt(run, steps, j);
    assert HasDigest(run[j].db.sessions[steps[j].session.sid], d);
    if i < j { AcceptedStays(run, steps, i + 1, j, d); }
  }

  /** At any moment a session accepts at most one refresh token, and a token opens at most one session. */
  lemma OneAcceptableToken(run: seq<World>, steps: seq<Step>, i: nat, x: SessionId, y: SessionId, d: Digest, e: Digest)
    requires IsRun(run, steps) && i < |run| && x in run[i].db.sessions && y in run[i].db.sessions
    requires Accepts(run[i].db.sessions[x], d, run[i].now) && Accepts(run[i].db.sessions[y], e, run[i].now)
    ensures x == y <==> d == e
  {
    RunInv(run, steps, i);
    assert HasDigest(run[i].db.sessions[x], d) && HasDigest(run[i].db.sessions[y], e);
  }

  // ---- Revocation ----

  lemma RevokedStep(s: World, step: Step, s': World, sid: SessionId)
    requires Inv(s) && Next(s, step, s') && sid in s.past.sessions
    requires sid in s.db.sessions ==> s.db.sessions[sid].revoked
    ensures sid in s'.past.sessions && (sid in s'.db.sessions ==> s'.db.sessions[sid].revoked)
  {
    match step
    case Env(_) =>
    case OfCode(act) => RevokedCode(s, act, s', sid);
    case OfSession(act) => RevokedSession(s, act, s', sid);
  }

  lemma RevokedSession(s: World, act: SessionAct, s': World, sid: SessionId)
    requires SessionNext(s, act, s') && sid in s.past.sessions && (sid in s.db.sessions ==> s.db.sessions[sid].revoked)
    ensures sid in s'.db.sessions ==> s'.db.sessions[sid].revoked
  {
  }

  lemma RevokedCode(s: World, act: CodeAct, s': World, sid: SessionId)
    requires CodeNext(s, act, s') && (sid in s.db.sessions ==> s.db.sessions[sid].revoked)
    ensures sid in s'.db.sessions ==> s'.db.sessions[sid].revoked
  {
  }

  lemma {:induction false} RevokedStays(run: seq<World>, steps: seq<Step>, i: nat, j: nat, sid: SessionId)
    requires IsRun(run, steps) && i <= j < |run| && sid in run[i].past.sessions
    requires sid in run[i].db.sessions ==> run[i].db.sessions[sid].revoked
    ensures sid in run[j].past.sessions && (sid in run[j].db.sessions ==> run[j].db.sessions[sid].revoked)
  {
    if i < j {
      RevokedStays(run, steps, i, j - 1, sid);
      RunInv(run, steps, j - 1);
      assert StepAt(run, steps, j - 1);
      RevokedStep(run[j - 1], steps[j - 1], run[j], sid);
    }
  }

  /** A revoked session never becomes usable again: neither its access tokens nor any refresh token. */
  lemma RevokedForever(run: seq<World>, steps: seq<Step>, i: nat, j: nat, sid: SessionId)
    requires IsRun(run, steps) && i <= j < |run| && sid in run[i].db.sessions && run[i].db.sessions[sid].revoked
    ensures sid in run[j].db.sessions ==> run[j].db.sessions[sid].revoked && forall d, now :: !Accepts(run[j].db.sessions[sid], d, now)
  {
    RunInv(run, steps, i);
    RevokedStays(run, steps, i, j, sid);
  }

  /** The step opens this session for a user who gave a password with this hash. */
  predicate OpensWithPassword(s: World, step: Step, s': World, sid: SessionId, u: UserId, h: Hash) {
    && step.OfSession? && sid in s'.db.sessions
    && match step.session
       case SignUp(user, hash, x, _) => user == u && hash == h && x == sid
       case CreateSession(r, x, _) => x == sid && r in s.logins && s.logins[r].user == u && s.logins[r].expected == h
       case _ => false
  }

  /** What is remembered of a session opened with a password. */
  ghost predicate Remembered(s: World, sid: SessionId, u: UserId, h: Hash) {
    && sid in s.past.sessions && sid in s.past.proved && s.past.proved[sid] == h
    && (sid in s.db.sessions ==> s.db.sessions[sid].user == u)
  }

  lemma RememberedStep(s: World, step: Step, s': World, sid: SessionId, u: UserId, h: Hash)
    requires Next(s, step, s') && CodesOk(s) && Remembered(s, sid, u, h)
    ensures Remembered(s', sid, u, h)
  {
    match step
    case Env(_) =>
    case OfCode(act) => RememberedCode(s, act, s', sid, u, h);
    case OfSession(act) => RememberedSession(s, act, s', sid, u, h);
  }

  lemma RememberedCode(s: World, act: CodeAct, s': World, sid: SessionId, u: UserId, h: Hash)
    requires CodeNext(s, act, s') && s'.past == Recorded(s, OfCode(act)) && Remembered(s, sid, u, h)
    ensures Remembered(s', sid, u, h)
  {
  }

  lemma RememberedSession(s: World, act: SessionAct, s': World, sid: SessionId, u: UserId, h: Hash)
    requires SessionNext(s, act, s') && s'.past == Recorded(s, OfSession(act)) && Remembered(s, sid, u, h)
    ensures Remembered(s', sid, u, h)
  {
  }

  lemma OpenedIsRemembered(s: World, step: Step, s': World, sid: SessionId, u: UserId, h: Hash)
    requires Known(s) && Next(s, step, s') && OpensWithPassword(s, step, s', sid, u, h)
    ensures Remembered(s', sid, u, h)
  {
  }

  lemma {:induction false} StaysRemembered(run: seq<World>, steps: seq<Step>, j: nat, i: nat, sid: SessionId, u: UserId, h: Hash)
    requires IsRun(run, steps) && j <= i < |run| && Remembered(run[j], sid, u, h)
    ensures Remembered(run[i], sid, u, h)
    decreases i
  {
    if j < i {
      StaysRemembered(run, steps, j, i - 1, sid, u, h);
      RunInv(run, steps, i - 1);
      assert StepAt(run, steps, i - 1);
      RememberedStep(run[i - 1], steps[i - 1], run[i], sid, u, h);
    }
  }

  /** A session opened with a password lives only as long as that password's hash is its user's, however logins race resets. */
  lemma LivePasswordSessionsAreCurrent(run: seq<World>, steps: seq<Step>, j: nat, i: nat, sid: SessionId, u: UserId, h: Hash)
    requires IsRun(run, steps) && j < i < |run| && OpensWithPassword(run[j], steps[j], run[j + 1], sid, u, h)
    requires sid in run[i].db.sessions && !run[i].db.sessions[sid].revoked
    ensures run[i].db.sessions[sid].user == u && u in run[i].db.users && run[i].db.users[u].hash == Some(h)
  {
    RunInv(run, steps, j);
    assert StepAt(run, steps, j);
    OpenedIsRemembered(run[j], steps[j], run[j + 1], sid, u, h);
    StaysRemembered(run, steps, j + 1, i, sid, u, h);
    RunInv(run, steps, i);
  }

  /** The k-th step read this hash for the login, and the m-th found the password given right. */
  predicate ReadsHash(run: seq<World>, steps: seq<Step>, k: nat, r: nat, u: UserId, h: Hash)
    requires k < |steps| < |run|
  {
    steps[k] == OfSession(ReadHash(r, u)) && u in run[k].db.users && run[k].db.users[u].hash == Some(h)
  }

  lemma {:induction false} LoginSteps(run: seq<World>, steps: seq<Step>, n: nat, r: nat) returns (k: nat, m: nat)
    requires IsRun(run, steps) && n < |run| && r in run[n].logins
    ensures k < n && ReadsHash(run, steps, k, r, run[n].logins[r].user, run[n].logins[r].expected)
    ensures run[n].logins[r].checked ==> k < m < n && steps[m] == OfSession(Check(r, true))
    decreases n
  {
    assert StepAt(run, steps, n - 1);
    m := n - 1;
    if steps[n - 1].OfSession? && steps[n - 1].session.ReadHash? && steps[n - 1].session.r == r {
      k := n - 1;
    } else {
      var m';
      k, m' := LoginSteps(run, steps, n - 1, r);
      if steps[n - 1] != OfSession(Check(r, true)) { m := m'; }
    }
  }

  /** A password login opens a session only after the password was found right against the hash it read before. */
  lemma LoginsAreProved(run: seq<World>, steps: seq<Step>, j: nat, sid: SessionId, u: UserId, h: Hash) returns (k: nat, m: nat)
    requires IsRun(run, steps) && j < |steps| && OpensWithPassword(run[j], steps[j], run[j + 1], sid, u, h) && steps[j].session.CreateSession?
    ensures k < m < j && ReadsHash(run, steps, k, steps[j].session.r, u, h) && steps[m] == OfSession(Check(steps[j].session.r, true))
  {
    assert StepAt(run, steps, j);
    k, m := LoginSteps(run, steps, j, steps[j].session.r);
  }

  // ---- Tokens without a session ----

  lemma LegacyRejectedStep(s: World, step: Step, s': World, u: UserId, issuedAt: int)
    requires Inv(s) && Next(s, step, s') && u in s.past.users && (u in s.db.users ==> LegacyRejected(s.db, u, issuedAt))
    ensures u in s'.past.users && (u in s'.db.users ==> LegacyRejected(s'.db, u, issuedAt))
  {
    if u in s.db.users { SecondsMonotone(s.db.users[u].legacyRevokedAt.value, s.now); }
    match step
    case Env(_) =>
    case OfCode(act) => LegacyRejectedCode(s, act, s', u, issuedAt);
    case OfSession(act) => LegacyRejectedSession(s, act, s', u, issuedAt);
  }

  lemma LegacyRejectedCode(s: World, act: CodeAct, s': World, u: UserId, issuedAt: int)
    requires CodesOk(s) && CodeNext(s, act, s') && s'.past.users == s.past.users && u in s.past.users
    requires u in s.db.users ==> LegacyRejected(s.db, u, issuedAt) && issuedAt <= Seconds(s.now)
    ensures u in s'.db.users ==> LegacyRejected(s'.db, u, issuedAt)
  {
  }

  lemma LegacyRejectedSession(s: World, act: SessionAct, s': World, u: UserId, issuedAt: int)
    requires SessionNext(s, act, s') && u in s.past.users
    requires u in s.db.users ==> LegacyRejected(s.db, u, issuedAt) && issuedAt <= Seconds(s.now)
    ensures u in s'.db.users ==> LegacyRejected(s'.db, u, issuedAt)
  {
  }

  lemma SecondsMonotone(a: int, b: int)
    requires a <= b
    ensures Seconds(a) <= Seconds(b)
  {
  }

  lemma {:induction false} LegacyRejectedStays(run: seq<World>, steps: seq<Step>, i: nat, j: nat, u: UserId, issuedAt: int)
    requires IsRun(run, steps) && i <= j < |run| && u in run[i].past.users
    requires u in run[i].db.users ==> LegacyRejected(run[i].db, u, issuedAt)
    ensures u in run[j].past.users && (u in run[j].db.users ==> LegacyRejected(run[j].db, u, issuedAt))
  {
    if i < j {
      LegacyRejectedStays(run, steps, i, j - 1, u, issuedAt);
      RunInv(run, steps, j - 1);
      assert StepAt(run, steps, j - 1);
      LegacyRejectedStep(run[j - 1], steps[j - 1], run[j], u, issuedAt);
    }
  }

  ghost predicate LegacyRejectedFrom(run: seq<World>, i: nat, u: UserId, issuedAt: int) {
    forall j | i <= j < |run| && u in run[j].db.users :: LegacyRejected(run[j].db, u, issuedAt)
  }

  /** A token without a session that was logged out is rejected ever after exactly when it is not stamped after that second. */
  lemma LegacyLogoutExactlyWhen(run: seq<World>, steps: seq<Step>, i: nat)
    requires IsRun(run, steps) && i < |steps| && steps[i].OfSession? && steps[i].session.LegacyLogout?
    requires steps[i].session.user in run[i].db.users
    ensures var act := steps[i].session;
            LegacyRejectedFrom(run, i + 1, act.user, act.issuedAt) <==> act.issuedAt * 1000 <= run[i].now
  {
    SecondsMean(steps[i].session.issuedAt, run[i].now);
    var act := steps[i].session;
    RunInv(run, steps, i);
    assert StepAt(run, steps, i);
    LoggedOut(run[i], act, run[i + 1]);
    if act.issuedAt <= Seconds(run[i].now) {
      forall j | i + 1 <= j < |run| && act.user in run[j].db.users ensures LegacyRejected(run[j].db, act.user, act.issuedAt) {
        LegacyRejectedStays(run, steps, i + 1, j, act.user, act.issuedAt);
      }
    }
  }

  /** What one logout does: an earlier revocation lies in the past, so it covers no more than this one does. */
  lemma LoggedOut(s: World, act: SessionAct, s': World)
    requires Inv(s) && act.LegacyLogout? && SessionNext(s, act, s') && act.user in s.db.users
    ensures act.user in s'.db.users && act.user in s.past.users
    ensures LegacyRejected(s'.db, act.user, act.issuedAt) <==> act.issuedAt <= Seconds(s.now)
  {
    var revoked := s.db.users[act.user].legacyRevokedAt;
    if revoked.Some? { SecondsMonotone(revoked.value, s.now); }
  }

  /** A token stamped by a clock ahead of the database's outlives its logout. */
  lemma LogoutOfAheadTokenIsLost(u: UserId, row: User, now: int, ahead: nat) returns (run: seq<World>, steps: seq<Step>)
    requires row.legacyRevokedAt.None? && ahead > 0
    ensures IsRun(run, steps) && |steps| == 1 && run[0].now == now
    ensures steps[0] == OfSession(LegacyLogout(u, Seconds(now) + ahead))
    ensures u in run[1].db.users && !LegacyRejected(run[1].db, u, Seconds(now) + ahead)
  {
    var db := Db(map[u := row], map[], map[]);
    var s := World(now, db, map[], History({u}, {}, {}, {}, {}, map[]));
    run := [s, s.(db := RevokeLegacy(db, u, Seconds(now) + ahead, now))];
    steps := [OfSession(LegacyLogout(u, Seconds(now) + ahead))];
  }

  /** A password reset ends every session and every older sessionless token of its user for good. */
  lemma ResetRevokesEverything(run: seq<World>, steps: seq<Step>, i: nat, j: nat, u: UserId, sid: SessionId, issuedAt: int)
    requires IsRun(run, steps) && i < j < |run| && ResetsPassword(steps[i], u)
    requires sid in run[i].db.sessions && run[i].db.sessions[sid].user == u && issuedAt * 1000 <= run[i].now
    ensures ResetMeans(run[i].db, run[i + 1].db, u, steps[i].code.newHash, run[i].now)
    ensures sid in run[j].db.sessions ==> run[j].db.sessions[sid].revoked
    ensures u in run[j].db.users ==> LegacyRejected(run[j].db, u, issuedAt)
  {
    RunInv(run, steps, i);
    RunInv(run, steps, i + 1);
    assert StepAt(run, steps, i);
    GuessIsMeant(run[i].db, steps[i].code.id, true, steps[i].code.newHash, run[i].now);
    RevokedStays(run, steps, i + 1, j, sid);
    LegacyRejectedStays(run, steps, i + 1, j, u, issuedAt);
  }
}
