/**
 * `reconcileOutstanding`: every run takes the oldest candidates, at most `limit` of them, and gives each one pass.
 * Which attempts do its runs reach, which never, and which do they look at without ever settling them?
 */
module ReconciliationJob {
  import opened Basics
  import opened Records
  import opened PaymentAttempts
  import opened StripePayments
  import opened Protocol
  import opened ProtocolSafety
  import opened ProtocolSteps
  import opened ProtocolRuns
  import opened Evolution
  import opened Isolation
  import opened CaptureSafety
  import opened Reconciliation

  // ----- The page -----

  /** ORDER BY updatedAt, id */
  predicate Before(db: Db, a: AttemptId, b: AttemptId) {
    && a < |db.attempts| && b < |db.attempts|
    && var s, t := db.attempts[a].updatedAt, db.attempts[b].updatedAt;
       s < t || (s == t && a < b)
  }

  predicate AreAttempts(db: Db, ids: seq<AttemptId>) {
    forall k :: 0 <= k < |ids| ==> ids[k] < |db.attempts|
  }

  function InsertOldestFirst(db: Db, a: AttemptId, ids: seq<AttemptId>): (r: seq<AttemptId>)
    requires a < |db.attempts| && AreAttempts(db, ids)
    ensures AreAttempts(db, r)
  {
    if ids == [] || Before(db, a, ids[0]) then [a] + ids else [ids[0]] + InsertOldestFirst(db, a, ids[1..])
  }

  /** The candidates among the first `n` attempts, oldest first. */
  function OldestFirst(db: Db, n: nat, now: Time): (r: seq<AttemptId>)
    requires n <= |db.attempts|
    ensures AreAttempts(db, r)
  {
    if n == 0 then []
    else
      var rest := OldestFirst(db, n - 1, now);
      if IsCandidate(db, n - 1, now) then InsertOldestFirst(db, n - 1, rest) else rest
  }

  function Page(db: Db, limit: nat, now: Time): seq<AttemptId> {
    var all := OldestFirst(db, |db.attempts|, now);
    if |all| <= limit then all else all[..limit]
  }

  /** The candidates the job prefers to `a`. */
  ghost function Ahead(db: Db, a: AttemptId, now: Time): set<AttemptId> {
    set b: nat | b < |db.attempts| && IsCandidate(db, b, now) && Before(db, b, a)
  }

  ghost predicate SortedIds(db: Db, ids: seq<AttemptId>)
    requires AreAttempts(db, ids)
  {
    forall j, k :: 0 <= j < k < |ids| ==> Before(db, ids[j], ids[k])
  }

  lemma {:induction false} InsertedIds(db: Db, a: AttemptId, ids: seq<AttemptId>, x: AttemptId)
    requires a < |db.attempts| && AreAttempts(db, ids)
    ensures x in InsertOldestFirst(db, a, ids) <==> x == a || x in ids
  {
    if ids != [] && !Before(db, a, ids[0]) {
      InsertedIds(db, a, ids[1..], x);
      assert ids == [ids[0]] + ids[1..];
    }
  }

  lemma {:induction false} InsertedSorted(db: Db, a: AttemptId, ids: seq<AttemptId>)
    requires a < |db.attempts| && AreAttempts(db, ids) && SortedIds(db, ids) && a !in ids
    ensures SortedIds(db, InsertOldestFirst(db, a, ids))
  {
    if ids != [] && !Before(db, a, ids[0]) {
      InsertedSorted(db, a, ids[1..]);
      var r := InsertOldestFirst(db, a, ids[1..]);
      forall k | 0 <= k < |r| ensures Before(db, ids[0], r[k]) { InsertedIds(db, a, ids[1..], r[k]); }
    }
  }

  lemma {:induction false} OldestFirstIsSorted(db: Db, n: nat, now: Time)
    requires n <= |db.attempts|
    ensures SortedIds(db, OldestFirst(db, n, now))
    ensures forall a: nat :: a in OldestFirst(db, n, now) <==> a < n && IsCandidate(db, a, now)
  {
    hide IsCandidate, SortedIds, InsertOldestFirst;
    if n == 0 {
      assert SortedIds(db, []) by { NothingIsSorted(db); }
    } else {
      OldestFirstIsSorted(db, n - 1, now);
      var rest := OldestFirst(db, n - 1, now);
      if IsCandidate(db, n - 1, now) {
        var longer := InsertOldestFirst(db, n - 1, rest);
        assert OldestFirst(db, n, now) == longer;
        InsertedSorted(db, n - 1, rest);
        forall a: nat ensures a in longer <==> a < n && IsCandidate(db, a, now) { InsertedIds(db, n - 1, rest, a); }
      }
    }
  }

  lemma NothingIsSorted(db: Db)
    ensures SortedIds(db, [])
  {
  }

  lemma {:induction false} SizeOfDistinct(db: Db, ids: seq<AttemptId>, s: set<AttemptId>)
    requires AreAttempts(db, ids) && SortedIds(db, ids) && forall x: nat :: x in s <==> x in ids
    ensures |s| == |ids|
  {
    if ids == [] {
      assert s == {};
    } else {
      var rest := s - {ids[0]};
      forall x: nat ensures x in rest <==> x in ids[1..] {
        if x in ids[1..] {
          var k :| 0 <= k < |ids[1..]| && ids[1..][k] == x;
          assert Before(db, ids[0], ids[k + 1]);
        }
      }
      SizeOfDistinct(db, ids[1..], rest);
      assert s == rest + {ids[0]};
    }
  }

  lemma BeforeMeansEarlier(db: Db, ids: seq<AttemptId>, j: nat, k: nat)
    requires AreAttempts(db, ids) && SortedIds(db, ids) && j < |ids| && k < |ids| && Before(db, ids[j], ids[k])
    ensures j < k
  {
  }

  lemma AheadIsPrefix(db: Db, now: Time, ids: seq<AttemptId>, k: nat)
    requires ids == OldestFirst(db, |db.attempts|, now) && k < |ids|
    ensures |Ahead(db, ids[k], now)| == k
  {
    hide IsCandidate;
    OldestFirstIsSorted(db, |db.attempts|, now);
    var ahead := Ahead(db, ids[k], now);
    forall x: nat ensures x in ahead <==> x in ids[..k] {
      if x in ahead {
        var j :| 0 <= j < |ids| && ids[j] == x;
        BeforeMeansEarlier(db, ids, j, k);
        assert ids[..k][j] == x;
      }
      if x in ids[..k] {
        var j :| 0 <= j < |ids[..k]| && ids[..k][j] == x;
        assert ids[j] == x && Before(db, ids[j], ids[k]);
      }
    }
    SizeOfDistinct(db, ids[..k], ahead);
  }

  /** A row is on the page exactly if it matches the query and fewer than `limit` matching rows are older. */
  lemma PageTakesTheOldest(db: Db, limit: nat, now: Time, a: AttemptId)
    ensures a in Page(db, limit, now) <==>
      a < |db.attempts| && IsCandidate(db, a, now) && |Ahead(db, a, now)| < limit
  {
    hide IsCandidate, Ahead;
    var all := OldestFirst(db, |db.attempts|, now);
    OldestFirstIsSorted(db, |db.attempts|, now);
    if a in all {
      var k :| 0 <= k < |all| && all[k] == a;
      AheadIsPrefix(db, now, all, k);
      if a in Page(db, limit, now) && |all| > limit {
        var j :| 0 <= j < limit && all[..limit][j] == a;
        AheadIsPrefix(db, now, all, j);
      }
      if k < limit < |all| { assert all[..limit][k] == a; }
    }
  }

  // ----- A pass over any attempt -----

  /** Neither a reference nor a session: nothing to ask the provider about. */
  predicate Mute(db: Db, a: AttemptId) {
    a < |db.attempts| && db.attempts[a].reference.None? && db.attempts[a].sessionId.None?
  }

  predicate Undecided(db: Db, a: AttemptId) {
    a < |db.attempts| && IsActive(db.attempts[a].status)
  }

  /** The handler around a pass: whatever throws, the attempt is marked. */
  function CatchSteps(w: World, a: AttemptId, now: Time): seq<Step> {
    if AppliedInPass(w, a, now).Rejected? then [MarkUnresolved(a, now)] else []
  }

  /** What the job does with one row, while the provider answers every call: `reconcileAttempt` and the handler. */
  function PassSteps(w: World, a: AttemptId, now: Time): seq<Step> {
    if a >= |w.db.attempts| || Mute(w.db, a) then []
    else if Retrievable(w, a) then ReconcileSteps(w, a, now) + CatchSteps(w, a, now)
    else if a in w.provider.sessions then
      if w.provider.sessions[a].status == SessionExpired then [ReleaseExpired(a, now)]
      else if w.provider.sessions[a].expiresAt <= now then [MarkUnresolved(a, now)]
      else []
    else [MarkUnresolved(a, now)]
  }

  /** One run of the job over the page it has read. */
  function Passes(w: World, page: seq<AttemptId>, now: Time): World
    decreases |page|
  {
    if page == [] then w else Passes(Run(w, PassSteps(w, page[0], now)), page[1..], now)
  }

  function JobRun(w: World, limit: nat, now: Time): World { Passes(w, Page(w.db, limit, now), now) }

  /** A run of the job, and whatever else happens before the next one. */
  datatype Turn = Turn(now: Time, between: seq<Step>)

  function AfterTurn(w: World, limit: nat, turn: Turn): World { Run(JobRun(w, limit, turn.now), turn.between) }

  function Job(w: World, limit: nat, turns: seq<Turn>): World
    decreases |turns|
  {
    if turns == [] then w else Job(AfterTurn(w, limit, turns[0]), limit, turns[1..])
  }

  // ----- A pass leaves all other attempts alone -----

  predicate IsPassStep(step: Step, b: AttemptId) {
    match step
    case RecordIntent(id, _) => id == b
    case ApplyStateStep(id, _, _) => id == b
    case RequestCaptureStep(id, _) => id == b
    case MarkUnresolved(id, _) => id == b
    case ReleaseExpired(id, _) => id == b
    case CaptureIntent(id) => id == b
    case CancelIntent(id) => id == b
    case _ => false
  }

  ghost predicate OwnStep(w: World, w': World, b: AttemptId) {
    && OthersKept(w.db, w'.db, b) && w'.provider.sessions == w.provider.sessions
    && SameOff(w.provider.intents, w'.provider.intents, b)
  }

  lemma PassStepIsOwn(w: World, step: Step, b: AttemptId)
    requires IsPassStep(step, b)
    ensures OwnStep(w, Next(w, step), b)
  {
    hide OthersKept, MarkPending, ApplyIntentState, RequestCapture, MarkAttemptReconciliation, ReleaseDefinitiveOutcome;
    hide HeldSnapshot, Prepare, MarkProviderSessionCreated, ProcessWebhook;
    SameOthers(w.db, b);
    if IsCardStep(step) { CardStepLeavesOthers(w, step); }
  }

  predicate ArePassSteps(steps: seq<Step>, b: AttemptId) {
    forall i :: 0 <= i < |steps| ==> IsPassStep(steps[i], b)
  }

  lemma {:induction false} PassStepsAreOwn(w: World, steps: seq<Step>, b: AttemptId)
    requires ArePassSteps(steps, b)
    ensures OwnStep(w, Run(w, steps), b)
    decreases |steps|
  {
    hide OthersKept, Next, IsPassStep;
    if steps == [] {
      SameOthers(w.db, b);
    } else {
      PassStepIsOwn(w, steps[0], b);
      PassStepsAreOwn(Next(w, steps[0]), steps[1..], b);
      OthersKeptOn(w.db, Next(w, steps[0]).db, Run(w, steps).db, b);
    }
  }

  lemma PassIsOwn(w: World, b: AttemptId, now: Time)
    ensures OwnStep(w, Run(w, PassSteps(w, b, now)), b)
  {
    hide OwnStep, Run, ApplyIntentState, HeldSnapshot;
    PassStepsAreOwn(w, PassSteps(w, b, now), b);
  }

  /** A pass over an attempt with nothing to ask about writes nothing at all: the row keeps its place in the order. */
  lemma NothingToAskStays(w: World, a: AttemptId, now: Time)
    requires Mute(w.db, a)
    ensures Run(w, PassSteps(w, a, now)) == w
  {
    hide ReconcileSteps, Next;
  }

  // ----- What the runs of the job do to rows that are not on the page -----

  /** Marked for reconciliation with nothing to ask about: a candidate at every time, and a pass leaves it one. */
  predicate Stuck(db: Db, a: AttemptId) {
    Mute(db, a) && db.attempts[a].status == ReconciliationRequired
  }

  ghost function StuckAhead(db: Db, a: AttemptId): set<AttemptId> {
    set b: nat | b < |db.attempts| && Stuck(db, b) && Before(db, b, a)
  }

  lemma StuckIsAhead(db: Db, a: AttemptId, now: Time)
    requires a < |db.attempts|
    ensures StuckAhead(db, a) <= Ahead(db, a, now)
  {
  }

  ghost predicate RowStays(x: Db, y: Db, a: AttemptId) {
    a < |x.attempts| && a < |y.attempts| && SameRow(x, y, a)
  }

  /** Rows off the page, and stuck rows on it, are the same after the run. */
  lemma {:induction false} PassesLeave(w: World, page: seq<AttemptId>, now: Time, a: AttemptId)
    requires a < |w.db.attempts| && (a !in page || Stuck(w.db, a))
    ensures RowStays(w.db, Passes(w, page, now).db, a)
    decreases |page|
  {
    hide PassSteps, Run, OthersKept;
    if page != [] {
      var w1 := Run(w, PassSteps(w, page[0], now));
      PassIsOwn(w, page[0], now);
      if page[0] == a { NothingToAskStays(w, a, now); } else { OtherRowStays(w.db, w1.db, page[0], a); }
      PassesLeave(w1, page[1..], now, a);
    }
  }

  lemma OtherRowStays(x: Db, y: Db, b: AttemptId, a: AttemptId)
    requires OthersKept(x, y, b) && a < |x.attempts| && a != b
    ensures RowStays(x, y, a)
  {
    assert SameRow(x, y, a);
  }

  lemma {:induction false} PassesKeepSizes(w: World, page: seq<AttemptId>, now: Time)
    ensures |Passes(w, page, now).db.attempts| == |w.db.attempts|
    ensures Passes(w, page, now).provider.sessions == w.provider.sessions
    decreases |page|
  {
    hide PassSteps, Run;
    if page != [] {
      PassIsOwn(w, page[0], now);
      PassesKeepSizes(Run(w, PassSteps(w, page[0], now)), page[1..], now);
    }
  }

  // ----- One row -----

  predicate SessionOver(db: Db, a: AttemptId, now: Time) {
    && a < |db.attempts|
    && (db.attempts[a].sessionExpiresAt.Some? ==> db.attempts[a].sessionExpiresAt.value <= now)
  }

  /** Behind everything last written before `now`, or no candidate any more. */
  ghost predicate Moved(db: Db, b: AttemptId, now: Time) {
    && b < |db.attempts|
    && (db.attempts[b].updatedAt == now || forall t: Time :: !IsCandidate(db, b, t))
  }

  /** All of this is said by the row and its allocation. */
  lemma RowDecides(x: Db, y: Db, b: AttemptId, t: Time, now: Time)
    requires RowStays(x, y, b)
    ensures IsCandidate(y, b, t) == IsCandidate(x, b, t)
    ensures Moved(x, b, now) ==> Moved(y, b, now)
    ensures Stuck(y, b) == Stuck(x, b) && SessionOver(y, b, now) == SessionOver(x, b, now)
  {
    forall u: Time ensures IsCandidate(y, b, u) == IsCandidate(x, b, u) {}
  }

  // ----- Other steps between two runs -----

  /** Whatever else happens leaves `a` alone, and every row that is or was ahead of it. */
  ghost predicate QueueKept(x: Db, y: Db, a: AttemptId) {
    && RowStays(x, y, a)
    && (forall c: nat :: c < |x.attempts| && Before(x, c, a) ==> RowStays(x, y, c))
    && (forall c: nat :: c < |y.attempts| && Before(y, c, a) ==> RowStays(x, y, c))
  }

  /** So it is between any two of the runs. */
  ghost predicate Undisturbed(w: World, limit: nat, turns: seq<Turn>, a: AttemptId)
    decreases |turns|
  {
    turns != [] ==>
      && QueueKept(JobRun(w, limit, turns[0].now).db, AfterTurn(w, limit, turns[0]).db, a)
      && Undisturbed(AfterTurn(w, limit, turns[0]), limit, turns[1..], a)
  }

  lemma KeptQueue(x: Db, y: Db, a: AttemptId, now: Time)
    requires a < |x.attempts| && QueueKept(x, y, a)
    ensures a < |y.attempts| && StuckAhead(y, a) == StuckAhead(x, a) && Ahead(y, a, now) == Ahead(x, a, now)
    ensures forall c: nat :: c < |y.attempts| && Before(y, c, a) ==>
      c < |x.attempts| && Before(x, c, a) && SameRow(x, y, c)
  {
  }

  // ----- Starvation: enough stuck attempts keep every younger one out for ever -----

  lemma StarvedNow(db: Db, a: AttemptId, limit: nat, now: Time)
    requires a < |db.attempts| && |StuckAhead(db, a)| >= limit
    ensures a !in Page(db, limit, now)
  {
    hide IsCandidate, StuckAhead, Ahead, Page;
    StuckIsAhead(db, a, now);
    SmallerSet(StuckAhead(db, a), Ahead(db, a, now));
    PageTakesTheOldest(db, limit, now, a);
  }

  lemma SmallerSet(x: set<nat>, y: set<nat>)
    requires x <= y
    ensures |x| <= |y|
  {
    assert y == x + (y - x);
  }

  lemma StillStuck(w: World, page: seq<AttemptId>, now: Time, a: AttemptId)
    requires a < |w.db.attempts| && a !in page
    ensures var db' := Passes(w, page, now).db;
            a < |db'.attempts| && StuckAhead(w.db, a) <= StuckAhead(db', a)
  {
    hide Passes, Stuck, IsCandidate, Moved;
    var db' := Passes(w, page, now).db;
    PassesLeave(w, page, now, a);
    forall b | b in StuckAhead(w.db, a) ensures b in StuckAhead(db', a) {
      PassesLeave(w, page, now, b);
      RowDecides(w.db, db', b, now, now);
    }
  }

  /**
   * With `limit` stuck attempts ahead of it, no run of the job, however many and whenever, ever takes `a`, unless
   * something else meddles with the rows ahead of it.
   */
  lemma {:induction false} JobNeverReaches(w: World, limit: nat, turns: seq<Turn>, a: AttemptId, later: Time)
    requires a < |w.db.attempts| && |StuckAhead(w.db, a)| >= limit && Undisturbed(w, limit, turns, a)
    ensures a !in Page(Job(w, limit, turns).db, limit, later)
    decreases |turns|
  {
    hide Page, Passes, StuckAhead, QueueKept, Run;
    if turns == [] {
      StarvedNow(w.db, a, limit, later);
    } else {
      var now := turns[0].now;
      StarvedNow(w.db, a, limit, now);
      var w1, w2 := JobRun(w, limit, now), AfterTurn(w, limit, turns[0]);
      StillStuck(w, Page(w.db, limit, now), now, a);
      SmallerSet(StuckAhead(w.db, a), StuckAhead(w1.db, a));
      KeptQueue(w1.db, w2.db, a, now);
      JobNeverReaches(w2, limit, turns[1..], a, later);
    }
  }

  // ----- Progress: what a pass does to a candidate that is not stuck -----

  predicate WrittenBefore(db: Db, a: AttemptId, now: Time) {
    a < |db.attempts| && db.attempts[a].updatedAt < now
  }

  /** No row ahead of `a` that the query selects, or ever can, waits for its session any more. */
  ghost predicate QueueSettled(db: Db, a: AttemptId, from: Time) {
    forall b: nat, t: Time :: b < |db.attempts| && Before(db, b, a) && IsCandidate(db, b, t) ==>
      SessionOver(db, b, from)
  }

  lemma CandidateFacts(w: World, b: AttemptId, now: Time)
    requires Inv(w) && b < |w.db.attempts| && IsCandidate(w.db, b, now) && !Stuck(w.db, b)
    ensures CanAttach(w.db.attempts[b]) && b in w.provider.sessions
    ensures b !in w.provider.intents ==>
      && IsActive(w.db.attempts[b].status) && b !in w.db.allocations && w.db.attempts[b].reference.None?
      && w.db.attempts[b].sessionExpiresAt == Some(w.provider.sessions[b].expiresAt)
    ensures b in w.provider.intents && w.provider.intents[b].status == Open ==> IsActive(w.db.attempts[b].status)
  {
    hide DraftsOk, CartsOk, CatalogueOk, OrdersOk, AttemptsOwned, OrderIndexOk;
    assert CaseHolds(w, b);
    CaseCandidate(CaseOf(w, b));
  }

  lemma CaseCandidate(c: Case)
    requires CaseInv(c)
    requires c.attempt.status == ReconciliationRequired ==> c.attempt.reference.Some? || c.attempt.sessionId.Some?
    requires c.attempt.status == Pending || c.attempt.status == ReconciliationRequired
          || (c.allocation.Some? && IsLive(c.allocation.value.status))
    ensures CanAttach(c.attempt) && c.session.Some?
    ensures c.intent.None? ==>
      && IsActive(c.attempt.status) && c.allocation.None? && c.attempt.reference.None?
      && c.attempt.sessionExpiresAt == Some(c.session.value.expiresAt)
    ensures c.intent.Some? && c.intent.value.status == Open ==> IsActive(c.attempt.status)
  {
    hide OrderMirrors, OrderFollows, ClaimOk, LinesOk;
  }

  lemma AgreeingIsNoCandidate(w: World, b: AttemptId, t: Time)
    requires Agrees(w, b)
    ensures b < |w.db.attempts| && !IsCandidate(w.db, b, t)
  {
  }

  lemma MarkedIsMoved(db: Db, b: AttemptId, now: Time)
    requires b < |db.attempts| && IsActive(db.attempts[b].status)
    ensures Moved(MarkReconciliation(db, b, now), b, now)
  {
    var marked := db.attempts[b].(status := ReconciliationRequired, updatedAt := now);
    assert MarkReconciliation(db, b, now).attempts == db.attempts[b := marked];
  }

  lemma OpenIsMarked(w: World, b: AttemptId, now: Time)
    requires Inv(w) && Retrievable(w, b) && IntentIs(w, b, Open) && HasReference(w.db, b) && Undecided(w.db, b)
    ensures Run(w, ReconcileSteps(w, b, now)).db == MarkReconciliation(w.db, b, now)
  {
    hide Inv, Next, MarkReconciliation, IntentMatchesAttempt, HeldSnapshot;
    HeldMatches(w, b, Open);
    CurrentStatusCanShow(w, b);
    AppliedStep(w, b, Open, now);
    assert Run(w, []) == w;
    OpenIsApplied(w, b, now);
    assert ReconcileSteps(w, b, now) == [ApplyStateStep(b, Open, now)];
    OneStep(w, ApplyStateStep(b, Open, now));
  }

  lemma OpenIsApplied(w: World, b: AttemptId, now: Time)
    requires Retrievable(w, b) && IntentMatchesAttempt(HeldSnapshot(w.provider, b, Open), w.db.attempts[b], b)
    ensures ApplyIntentState(w.db, HeldSnapshot(w.provider, b, Open), b, now)
         == Ok(WithAction(MarkReconciliation(w.db, b, now), None))
  {
    hide MarkReconciliation, IntentMatchesAttempt;
  }

  lemma OpenPassMoves(w: World, b: AttemptId, now: Time)
    requires Inv(w) && Retrievable(w, b) && IntentIs(w, b, Open) && Undecided(w.db, b) && !Mute(w.db, b)
    ensures Moved(Run(w, ReconcileSteps(w, b, now)).db, b, now)
  {
    hide Inv, Next, Moved, ActionSteps, ApplyIntentState, MarkReconciliation, ReconcileSteps;
    if w.db.attempts[b].reference.Some? {
      OpenIsMarked(w, b, now);
      MarkedIsMoved(w.db, b, now);
    } else {
      var attach := RecordIntent(b, now);
      AttachSucceeds(w, b, now);
      var w1 := Next(w, attach);
      AttachedIsPending(w, b, now);
      OneStep(w, attach);
      OpenIsMarked(w1, b, now);
      MarkedIsMoved(w1.db, b, now);
      AttachThenPass(w, b, now);
      RunAppend(w, [attach], ReconcileSteps(w1, b, now));
    }
  }

  lemma AttachedIsPending(w: World, b: AttemptId, now: Time)
    requires Retrievable(w, b) && !HasReference(w.db, b) && !Mute(w.db, b) && Undecided(w.db, b)
    ensures AttemptIs(Next(w, RecordIntent(b, now)), b, Pending)
  {
  }

  lemma AttachThenPass(w: World, b: AttemptId, now: Time)
    requires Retrievable(w, b) && !HasReference(w.db, b)
    requires var w1 := Next(w, RecordIntent(b, now)); w1.provider == w.provider && HasReference(w1.db, b)
    ensures ReconcileSteps(w, b, now)
         == [RecordIntent(b, now)] + ReconcileSteps(Next(w, RecordIntent(b, now)), b, now)
  {
    hide Next, ApplyIntentState, ActionSteps;
    var w1 := Next(w, RecordIntent(b, now));
    OneStep(w, RecordIntent(b, now));
    assert Run(w1, []) == w1;
  }

  lemma UnopenedPassMoves(w: World, b: AttemptId, now: Time)
    requires b < |w.db.attempts| && b in w.provider.sessions && b !in w.provider.intents
    requires IsActive(w.db.attempts[b].status) && b !in w.db.allocations
    requires w.db.attempts[b].reference.None? && w.db.attempts[b].sessionId.Some?
    requires w.provider.sessions[b].expiresAt <= now
    ensures Moved(Run(w, PassSteps(w, b, now)).db, b, now)
  {
    hide Moved, Next, ReconcileSteps, MarkAttemptReconciliation, ReleaseDefinitiveOutcome;
    if w.provider.sessions[b].status == SessionExpired {
      OneStep(w, ReleaseExpired(b, now));
      ReleasedIsMoved(w, b, now);
    } else {
      OneStep(w, MarkUnresolved(b, now));
      UnresolvedIsMoved(w, b, now);
    }
  }

  lemma ReleasedIsMoved(w: World, b: AttemptId, now: Time)
    requires b < |w.db.attempts| && b in w.provider.sessions && w.provider.sessions[b].status == SessionExpired
    requires IsActive(w.db.attempts[b].status)
    ensures Moved(Next(w, ReleaseExpired(b, now)).db, b, now)
  {
    hide ReleaseClaim;
    var cancelled := w.db.attempts[b].(status := Cancelled, updatedAt := now);
    assert ReleaseDefinitiveOutcome(w.db, b, CancelledUnpaid, now).value.attempts == w.db.attempts[b := cancelled];
  }

  lemma UnresolvedIsMoved(w: World, b: AttemptId, now: Time)
    requires Undecided(w.db, b) && b !in w.db.allocations
    ensures Moved(Next(w, MarkUnresolved(b, now)).db, b, now)
  {
    hide Moved, MarkReconciliation;
    MarkedIsMoved(w.db, b, now);
  }

  // ----- The handler around a pass -----

  lemma CaughtPass(w: World, b: AttemptId, now: Time)
    requires Retrievable(w, b) && !Mute(w.db, b)
    ensures Run(w, PassSteps(w, b, now)) == Run(Run(w, ReconcileSteps(w, b, now)), CatchSteps(w, b, now))
  {
    hide Run, ReconcileSteps, CatchSteps;
    RunAppend(w, ReconcileSteps(w, b, now), CatchSteps(w, b, now));
  }

  lemma MarkingWrites(db: Db, b: AttemptId, now: Time)
    requires b < |db.attempts|
    ensures var y := MarkReconciliation(db, b, now);
            && |y.attempts| == |db.attempts| && y.allocations == db.allocations
            && (if IsActive(db.attempts[b].status)
                then y.attempts[b].updatedAt == now else y.attempts[b] == db.attempts[b])
  {
  }

  lemma UnresolvedWrites(db: Db, b: AttemptId, now: Time)
    requires b < |db.attempts|
    ensures var y := MarkAttemptReconciliation(db, b, now);
            && y.attempts == MarkReconciliation(db, b, now).attempts
            && ((b in y.allocations && IsLive(y.allocations[b].status))
                  <==> (b in db.allocations && IsLive(db.allocations[b].status)))
  {
    hide OrElse, MarkReconciliation;
    MarkingWrites(db, b, now);
  }

  /** Marking puts an undecided attempt last, and changes nothing about a finished one that the query looks at. */
  lemma MarkedLast(w: World, b: AttemptId, now: Time)
    requires Undecided(w.db, b) || Moved(w.db, b, now)
    ensures Moved(Next(w, MarkUnresolved(b, now)).db, b, now)
  {
    MarkingWrites(w.db, b, now);
    UnresolvedWrites(w.db, b, now);
    var db' := Next(w, MarkUnresolved(b, now)).db;
    assert db' == MarkAttemptReconciliation(w.db, b, now);
    hide Next, MarkAttemptReconciliation, MarkReconciliation;
    if !IsActive(w.db.attempts[b].status) {
      forall t: Time ensures IsCandidate(db', b, t) == IsCandidate(w.db, b, t) {}
    }
  }

  /** The pass itself moves the row, or it throws and leaves an undecided one. */
  lemma ReconcileMoves(w: World, b: AttemptId, now: Time)
    requires Reachable(w) && Workable(w, b) && (IntentIs(w, b, Open) ==> Undecided(w.db, b))
    ensures var db' := Run(w, ReconcileSteps(w, b, now)).db;
            Moved(db', b, now) || (Undecided(db', b) && AppliedInPass(w, b, now).Rejected?)
  {
    hide Inv, Reachable, Next, Run, ReconcileSteps, Agrees, CartBlocks, AppliedInPass;
    ReachableHolds(w);
    var w' := Run(w, ReconcileSteps(w, b, now));
    if w.provider.intents[b].status == Open {
      OpenPassMoves(w, b, now);
    } else {
      ReconcilePassConverges(w, b, now, now);
      if CanSettle(w, b, now) {
        AgreeingIsNoCandidate(w', b, now);
        forall t: Time ensures !IsCandidate(w'.db, b, t) { AgreeingIsNoCandidate(w', b, t); }
      } else {
        BlockedPass(w, b, now);
        ReachableHolds(w');
        AuthorizedHasAttempt(w', b);
        AuthorizedIsUndecided(w', b);
      }
    }
  }

  lemma AuthorizedHasAttempt(w: World, a: AttemptId)
    requires Inv(w) && a in w.provider.intents
    ensures a < |w.db.attempts|
  {
    hide CasesOk, DraftsOk, CartsOk, CatalogueOk, OrdersOk, AttemptsOwned, OrderIndexOk;
  }

  /** A pass over a candidate with something to ask about settles it or puts it behind everything older than `now`. */
  lemma PassMoves(w: World, b: AttemptId, now: Time)
    requires Reachable(w) && b < |w.db.attempts| && SessionOver(w.db, b, now)
    requires IsCandidate(w.db, b, now) && !Stuck(w.db, b)
    ensures Moved(Run(w, PassSteps(w, b, now)).db, b, now)
  {
    hide Inv, Reachable, IsCandidate, Run, Next, ReconcileSteps, AppliedInPass, Stuck, Moved;
    ReachableHolds(w);
    CandidateFacts(w, b, now);
    if b !in w.provider.intents {
      UnopenedPassMoves(w, b, now);
    } else {
      ReconcileMoves(w, b, now);
      CaughtPass(w, b, now);
      var w1 := Run(w, ReconcileSteps(w, b, now));
      if AppliedInPass(w, b, now).Rejected? {
        MarkedLast(w1, b, now);
        OneStep(w1, MarkUnresolved(b, now));
      } else {
        NoStep(w1);
      }
    }
  }

  lemma NoStep(w: World)
    ensures Run(w, []) == w
  {
  }

  lemma PassKeepsAttempts(w: World, b: AttemptId, now: Time)
    ensures |Run(w, PassSteps(w, b, now)).db.attempts| == |w.db.attempts|
  {
    hide Run, PassSteps;
    PassIsOwn(w, b, now);
  }

  ghost predicate Distinct(page: seq<AttemptId>) {
    forall j, k :: 0 <= j < k < |page| ==> page[j] != page[k]
  }

  lemma {:induction false} PassesReach(w: World, page: seq<AttemptId>, now: Time)
    requires Reachable(w)
    ensures Reachable(Passes(w, page, now))
    decreases |page|
  {
    hide Reachable, Run, PassSteps;
    if page != [] {
      ReachableOn(w, PassSteps(w, page[0], now));
      PassesReach(Run(w, PassSteps(w, page[0], now)), page[1..], now);
    }
  }

  /** A run moves every candidate on its page that is not stuck. */
  lemma {:induction false} PassesMove(w: World, page: seq<AttemptId>, now: Time, b: AttemptId)
    requires Reachable(w) && Distinct(page) && b in page
    requires b < |w.db.attempts| && IsCandidate(w.db, b, now) && !Stuck(w.db, b)
    requires SessionOver(w.db, b, now)
    ensures Moved(Passes(w, page, now).db, b, now)
    decreases |page|
  {
    hide Reachable, Run, PassSteps, IsCandidate, Stuck, Moved, OthersKept, SessionOver;
    var w1 := Run(w, PassSteps(w, page[0], now));
    if page[0] == b {
      PassMoves(w, b, now);
      assert b < |w1.db.attempts| by { PassKeepsAttempts(w, b, now); }
      assert b !in page[1..];
      PassesLeave(w1, page[1..], now, b);
      RowDecides(w1.db, Passes(w1, page[1..], now).db, b, now, now);
    } else {
      assert b in page[1..] by { assert page == [page[0]] + page[1..]; }
      ReachableOn(w, PassSteps(w, page[0], now));
      PassIsOwn(w, page[0], now);
      OtherRowStays(w.db, w1.db, page[0], b);
      RowDecides(w.db, w1.db, b, now, now);
      PassesMove(w1, page[1..], now, b);
    }
  }

  /** Once its session is over, being a candidate is no question of time. */
  lemma CandidateAtAnyTime(db: Db, b: AttemptId, s: Time, t: Time)
    requires b < |db.attempts| && s <= t
    ensures IsCandidate(db, b, s) ==> IsCandidate(db, b, t)
    ensures SessionOver(db, b, s) ==> IsCandidate(db, b, t) == IsCandidate(db, b, s)
  {
  }

  // ----- One run of the job brings `a` nearer -----

  lemma PageIsDistinct(db: Db, limit: nat, now: Time)
    ensures Distinct(Page(db, limit, now))
  {
    hide IsCandidate;
    OldestFirstIsSorted(db, |db.attempts|, now);
    var all := OldestFirst(db, |db.attempts|, now);
    forall j, k | 0 <= j < k < |all| ensures all[j] != all[k] { assert Before(db, all[j], all[k]); }
  }

  /** If the page leaves a candidate out, it is full, and everything on it is ahead of that candidate. */
  lemma FullPageIsAhead(db: Db, limit: nat, now: Time, a: AttemptId)
    requires a < |db.attempts| && IsCandidate(db, a, now) && a !in Page(db, limit, now)
    ensures |Page(db, limit, now)| == limit
    ensures forall b :: b in Page(db, limit, now) ==> b in Ahead(db, a, now)
  {
    hide IsCandidate;
    var all := OldestFirst(db, |db.attempts|, now);
    OldestFirstIsSorted(db, |db.attempts|, now);
    var k :| 0 <= k < |all| && all[k] == a;
    assert |all| > limit && Page(db, limit, now) == all[..limit];
    AheadIsPrefix(db, now, all, k);
    PageTakesTheOldest(db, limit, now, a);
    forall b | b in all[..limit] ensures b in Ahead(db, a, now) {
      var j :| 0 <= j < limit && all[..limit][j] == b;
      assert all[j] == b && Before(db, all[j], all[k]);
    }
  }

  lemma SomeOnPageIsNotStuck(db: Db, limit: nat, now: Time, a: AttemptId) returns (b: AttemptId)
    requires a < |db.attempts| && IsCandidate(db, a, now) && a !in Page(db, limit, now)
    requires |StuckAhead(db, a)| < limit
    ensures b in Page(db, limit, now) && b in Ahead(db, a, now) && !Stuck(db, b)
  {
    hide IsCandidate, Stuck;
    FullPageIsAhead(db, limit, now, a);
    var page := Page(db, limit, now);
    if forall x :: x in page ==> x in StuckAhead(db, a) {
      var all := OldestFirst(db, |db.attempts|, now);
      OldestFirstIsSorted(db, |db.attempts|, now);
      var members := set x | x in page;
      SizeOfDistinct(db, page, members);
      SmallerSet(members, StuckAhead(db, a));
      assert false;
    }
    b :| b in page && b !in StuckAhead(db, a);
  }

  /** A row that is ahead of `a` after a run that left `a` out, and can be selected, is the row it was before. */
  lemma AheadWasAhead(w: World, limit: nat, now: Time, a: AttemptId, c: AttemptId, t: Time)
    requires Reachable(w) && a < |w.db.attempts| && IsCandidate(w.db, a, now) && QueueSettled(w.db, a, now)
    requires a !in Page(w.db, limit, now) && WrittenBefore(w.db, a, now)
    requires RowStays(w.db, JobRun(w, limit, now).db, a)
    requires c < |JobRun(w, limit, now).db.attempts| && Before(JobRun(w, limit, now).db, c, a)
    requires IsCandidate(JobRun(w, limit, now).db, c, t)
    ensures RowStays(w.db, JobRun(w, limit, now).db, c) && Before(w.db, c, a) && IsCandidate(w.db, c, t)
    ensures c !in Page(w.db, limit, now) || Stuck(w.db, c)
  {
    hide Reachable, Page, Passes, IsCandidate, Stuck, Moved, Inv, SessionOver;
    var page, w1 := Page(w.db, limit, now), JobRun(w, limit, now);
    PassesKeepSizes(w, page, now);
    FullPageIsAhead(w.db, limit, now, a);
    if c in page && !Stuck(w.db, c) {
      PageIsDistinct(w.db, limit, now);
      PassesMove(w, page, now, c);
      MovedIsNotBefore(w1.db, a, c, now, t);
      assert false;
    } else {
      PassesLeave(w, page, now, c);
      RowDecides(w.db, w1.db, c, t, now);
    }
  }

  lemma MovedIsNotBefore(db: Db, a: AttemptId, c: AttemptId, now: Time, t: Time)
    requires a < |db.attempts| && Moved(db, c, now) && WrittenBefore(db, a, now)
    ensures !(Before(db, c, a) && IsCandidate(db, c, t))
  {
  }

  lemma RunBringsNearer(w: World, limit: nat, now: Time, later: Time, a: AttemptId)
    requires Reachable(w) && a < |w.db.attempts| && QueueSettled(w.db, a, now) && now <= later
    requires IsCandidate(w.db, a, now) && WrittenBefore(w.db, a, now)
    requires a !in Page(w.db, limit, now) && |StuckAhead(w.db, a)| < limit
    ensures RowStays(w.db, JobRun(w, limit, now).db, a)
    ensures |Ahead(JobRun(w, limit, now).db, a, later)| < |Ahead(w.db, a, now)|
    ensures StuckAhead(JobRun(w, limit, now).db, a) <= StuckAhead(w.db, a)
    ensures QueueSettled(JobRun(w, limit, now).db, a, later)
  {
    hide Reachable, Page, Passes, IsCandidate, Stuck, Moved;
    var page, w1 := Page(w.db, limit, now), JobRun(w, limit, now);
    PassesLeave(w, page, now, a);
    forall c: nat, t: Time | c < |w1.db.attempts| && Before(w1.db, c, a) && IsCandidate(w1.db, c, t)
      ensures SessionOver(w1.db, c, later)
    {
      AheadWasAhead(w, limit, now, a, c, t);
    }
    var x, y := Ahead(w.db, a, now), Ahead(w1.db, a, later);
    forall c | c in y ensures c in x && (c !in page || Stuck(w.db, c)) {
      AheadWasAhead(w, limit, now, a, c, later);
      CandidateAtAnyTime(w.db, c, now, later);
    }
    var b := SomeOnPageIsNotStuck(w.db, limit, now, a);
    SmallerSet(y, x - {b});
    forall c | c in StuckAhead(w1.db, a) ensures c in StuckAhead(w.db, a) {
      StuckIsAhead(w1.db, a, later);
      AheadWasAhead(w, limit, now, a, c, later);
      RowDecides(w.db, w1.db, c, later, now);
    }
  }

  // ----- Over many runs -----

  ghost predicate InOrder(turns: seq<Turn>) {
    forall i, j :: 0 <= i < j < |turns| ==> turns[i].now <= turns[j].now
  }

  lemma JobStep(w: World, limit: nat, turns: seq<Turn>, i: nat)
    requires turns != [] && i < |turns[1..]|
    ensures Job(w, limit, turns[..i + 1]) == Job(AfterTurn(w, limit, turns[0]), limit, turns[1..][..i])
  {
    assert turns[..i + 1][1..] == turns[1..][..i];
  }

  /** The same a whole turn later: what happens in between leaves the queue alone. */
  lemma TurnBringsNearer(w: World, limit: nat, turn: Turn, later: Time, a: AttemptId)
    requires Reachable(w) && a < |w.db.attempts| && QueueSettled(w.db, a, turn.now) && turn.now <= later
    requires IsCandidate(w.db, a, turn.now) && WrittenBefore(w.db, a, turn.now)
    requires a !in Page(w.db, limit, turn.now) && |StuckAhead(w.db, a)| < limit
    requires QueueKept(JobRun(w, limit, turn.now).db, AfterTurn(w, limit, turn).db, a)
    ensures var w2 := AfterTurn(w, limit, turn);
            && Reachable(w2) && a < |w2.db.attempts| && QueueSettled(w2.db, a, later)
            && IsCandidate(w2.db, a, later) && WrittenBefore(w2.db, a, turn.now)
            && |Ahead(w2.db, a, later)| < |Ahead(w.db, a, turn.now)| && |StuckAhead(w2.db, a)| < limit
  {
    hide Reachable, Page, Passes, IsCandidate, Run, StuckAhead, Ahead;
    var w1, w2 := JobRun(w, limit, turn.now), AfterTurn(w, limit, turn);
    RunBringsNearer(w, limit, turn.now, later, a);
    SmallerSet(StuckAhead(w1.db, a), StuckAhead(w.db, a));
    PassesReach(w, Page(w.db, limit, turn.now), turn.now);
    ReachableOn(w1, turn.between);
    KeptQueue(w1.db, w2.db, a, later);
    CandidateAtAnyTime(w.db, a, turn.now, later);
    RowDecides(w.db, w1.db, a, later, later);
    RowDecides(w1.db, w2.db, a, later, later);
    forall c: nat, t: Time | c < |w2.db.attempts| && Before(w2.db, c, a) && IsCandidate(w2.db, c, t)
      ensures SessionOver(w2.db, c, later)
    {
      RowDecides(w1.db, w2.db, c, t, later);
    }
  }

  /**
   * With room on the page beside the stuck attempts ahead of it, `a` is taken by one of as many runs as it has rows
   * ahead, whatever happens in between that leaves `a` and those rows alone.
   */
  lemma {:induction false} JobReaches(w: World, limit: nat, turns: seq<Turn>, a: AttemptId) returns (i: nat)
    requires turns != [] && InOrder(turns) && Reachable(w) && a < |w.db.attempts| && Undisturbed(w, limit, turns, a)
    requires QueueSettled(w.db, a, turns[0].now)
    requires IsCandidate(w.db, a, turns[0].now) && WrittenBefore(w.db, a, turns[0].now)
    requires |Ahead(w.db, a, turns[0].now)| < |turns| && |StuckAhead(w.db, a)| < limit
    ensures i < |turns| && a in Page(Job(w, limit, turns[..i]).db, limit, turns[i].now)
    decreases |turns|
  {
    hide Reachable, Page, JobRun, AfterTurn, IsCandidate, StuckAhead, Ahead, QueueSettled, QueueKept;
    var now := turns[0].now;
    if a in Page(w.db, limit, now) {
      assert turns[..0] == [];
      i := 0;
    } else if |turns| == 1 {
      PageTakesTheOldest(w.db, limit, now, a);
      assert false;
    } else {
      TurnBringsNearer(w, limit, turns[0], turns[1].now, a);
      assert InOrder(turns[1..]);
      var j := JobReaches(AfterTurn(w, limit, turns[0]), limit, turns[1..], a);
      JobStep(w, limit, turns, j);
      i := j + 1;
    }
  }

  lemma {:induction false} UndisturbedPrefix(w: World, limit: nat, turns: seq<Turn>, i: nat, a: AttemptId)
    requires Undisturbed(w, limit, turns, a) && i <= |turns|
    ensures Undisturbed(w, limit, turns[..i], a)
    decreases i
  {
    hide AfterTurn, JobRun, QueueKept;
    if i > 0 {
      UndisturbedPrefix(AfterTurn(w, limit, turns[0]), limit, turns[1..], i - 1, a);
      assert turns[..i][1..] == turns[1..][..i - 1];
    }
  }

  /**
   * Which candidates the job reaches: once no row ahead of it waits for a session, and while nothing else touches those
   * rows, it takes a candidate in one of enough later runs exactly if fewer than `limit` stuck attempts are ahead of
   * it; otherwise it never does.
   */
  lemma JobReachesUnlessStarved(w: World, limit: nat, turns: seq<Turn>, a: AttemptId)
    requires turns != [] && InOrder(turns) && Reachable(w) && a < |w.db.attempts| && Undisturbed(w, limit, turns, a)
    requires QueueSettled(w.db, a, turns[0].now)
    requires IsCandidate(w.db, a, turns[0].now) && WrittenBefore(w.db, a, turns[0].now)
    requires |Ahead(w.db, a, turns[0].now)| < |turns|
    ensures (exists i :: 0 <= i < |turns| && a in Page(Job(w, limit, turns[..i]).db, limit, turns[i].now))
       <==> |StuckAhead(w.db, a)| < limit
  {
    hide Reachable, Page, Job, IsCandidate, StuckAhead, Ahead, QueueSettled, Undisturbed;
    if |StuckAhead(w.db, a)| < limit {
      var i := JobReaches(w, limit, turns, a);
    } else {
      forall i | 0 <= i < |turns| ensures a !in Page(Job(w, limit, turns[..i]).db, limit, turns[i].now) {
        UndisturbedPrefix(w, limit, turns, i, a);
        JobNeverReaches(w, limit, turns[..i], a, turns[i].now);
      }
    }
  }

  // ----- Authorised money whose cart another order has -----

  /** The money is authorised and waits for stock. */
  ghost predicate Waiting(w: World, a: AttemptId) {
    Workable(w, a) && IntentIs(w, a, RequiresCapture) && a !in w.db.allocations
  }

  /** Every pass over `a` finds another order on its cart. */
  ghost predicate BlockedAtPasses(w: World, page: seq<AttemptId>, now: Time, a: AttemptId)
    decreases |page|
  {
    page != [] ==>
      && (page[0] == a ==> a < |w.db.attempts| && CartBlocks(w.db, a, now))
      && BlockedAtPasses(Run(w, PassSteps(w, page[0], now)), page[1..], now, a)
  }

  /** So does every pass of every run, and nothing else decides about `a` in between. */
  ghost predicate BlockedThroughout(w: World, limit: nat, turns: seq<Turn>, a: AttemptId)
    decreases |turns|
  {
    turns != [] ==>
      && BlockedAtPasses(w, Page(w.db, limit, turns[0].now), turns[0].now, a)
      && RowStays(JobRun(w, limit, turns[0].now).db, AfterTurn(w, limit, turns[0]).db, a)
      && Lookup(AfterTurn(w, limit, turns[0]).provider.intents, a)
           == Lookup(JobRun(w, limit, turns[0].now).provider.intents, a)
      && BlockedThroughout(AfterTurn(w, limit, turns[0]), limit, turns[1..], a)
  }

  ghost predicate SameSale(x: Db, y: Db, a: AttemptId) {
    && a < |x.attempts| && a < |y.attempts|
    && y.attempts[a].draftId == x.attempts[a].draftId && y.attempts[a].items == x.attempts[a].items
  }

  /** A blocked pass marks the attempt, and writes nothing else but its reference. */
  lemma BlockedPassMarks(w: World, a: AttemptId, now: Time)
    requires Reachable(w) && Waiting(w, a) && CartBlocks(w.db, a, now)
    ensures var w' := Run(w, PassSteps(w, a, now));
            Waiting(w', a) && w' == w.(db := w.db.(attempts := w'.db.attempts)) && SameSale(w.db, w'.db, a)
  {
    hide Inv, Reachable, Run, Next, ReconcileSteps, AttachSteps, AppliedInPass, CartBlocks;
    ReachableHolds(w);
    BlockedPass(w, a, now);
    CaughtPass(w, a, now);
    var w1 := Run(w, ReconcileSteps(w, a, now));
    AttachWrites(w, a, now);
    OneStep(w1, MarkUnresolved(a, now));
    ReachableOn(w, AttachSteps(w, a, now));
    ReachableHolds(w1);
    AuthorizedIsUndecided(w1, a);
    MarkedWrites(w1, a, now);
  }

  lemma PendingWrites(db: Db, a: AttemptId, reference: PaymentReference, now: Time)
    requires a < |db.attempts| && CanAttach(db.attempts[a]) && db.attempts[a].reference.None?
    ensures var r := MarkPending(db, a, reference, now);
            && r.Ok? && r.value == db.(attempts := r.value.attempts)
            && HasReference(r.value, a) && SameSale(db, r.value, a)
  {
  }

  lemma AttachWrites(w: World, a: AttemptId, now: Time)
    requires Inv(w) && Workable(w, a)
    ensures var w' := Run(w, AttachSteps(w, a, now));
            w' == w.(db := w.db.(attempts := w'.db.attempts)) && HasReference(w'.db, a) && SameSale(w.db, w'.db, a)
  {
    hide Inv, MarkPending;
    NoStep(w);
    if !HasReference(w.db, a) {
      PendingWrites(w.db, a, w.provider.intents[a].reference, now);
      OneStep(w, RecordIntent(a, now));
    }
  }

  lemma MarkedWrites(w: World, a: AttemptId, now: Time)
    requires a < |w.db.attempts| && IsActive(w.db.attempts[a].status) && a !in w.db.allocations
    ensures Next(w, MarkUnresolved(a, now))
         == w.(db := SetAttempt(w.db, a, w.db.attempts[a].(status := ReconciliationRequired, updatedAt := now)))
  {
    hide SetAttempt;
  }

  lemma OtherPassKeepsWaiting(w: World, b: AttemptId, now: Time, a: AttemptId)
    requires Waiting(w, a) && a != b
    ensures Waiting(Run(w, PassSteps(w, b, now)), a)
  {
    hide Run, PassSteps, OthersKept;
    PassIsOwn(w, b, now);
    OtherRowStays(w.db, Run(w, PassSteps(w, b, now)).db, b, a);
  }

  lemma {:induction false} PassesKeepWaiting(w: World, page: seq<AttemptId>, now: Time, a: AttemptId)
    requires Reachable(w) && Waiting(w, a) && BlockedAtPasses(w, page, now, a)
    ensures Waiting(Passes(w, page, now), a)
    decreases |page|
  {
    hide Reachable, Run, PassSteps, Waiting, CartBlocks;
    if page != [] {
      ReachableOn(w, PassSteps(w, page[0], now));
      if page[0] == a { BlockedPassMarks(w, a, now); } else { OtherPassKeepsWaiting(w, page[0], now, a); }
      PassesKeepWaiting(Run(w, PassSteps(w, page[0], now)), page[1..], now, a);
    }
  }

  lemma UntouchedWaits(w: World, w': World, a: AttemptId)
    requires Waiting(w, a) && Inv(w') && RowStays(w.db, w'.db, a)
    requires Lookup(w'.provider.intents, a) == Lookup(w.provider.intents, a)
    ensures Waiting(w', a)
  {
    hide Inv;
    CurrentStatusCanShow(w', a);
  }

  /** While another order has the cart whenever its turn comes, no number of runs settles the payment either way. */
  lemma {:induction false} JobNeverSettles(w: World, limit: nat, turns: seq<Turn>, a: AttemptId)
    requires Reachable(w) && Waiting(w, a) && BlockedThroughout(w, limit, turns, a)
    ensures Waiting(Job(w, limit, turns), a)
    decreases |turns|
  {
    hide Reachable, Run, Page, Passes, Waiting, BlockedAtPasses, Inv;
    if turns != [] {
      var page, now := Page(w.db, limit, turns[0].now), turns[0].now;
      var w1, w2 := JobRun(w, limit, now), AfterTurn(w, limit, turns[0]);
      PassesKeepWaiting(w, page, now, a);
      PassesReach(w, page, now);
      ReachableOn(w1, turns[0].between);
      ReachableHolds(w2);
      UntouchedWaits(w1, w2, a);
      JobNeverSettles(w2, limit, turns[1..], a);
    }
  }

  /** No other row is ever selected, and its cart is taken and its stock is there at every time. */
  ghost predicate AloneAndBlocked(db: Db, a: AttemptId) {
    && a < |db.attempts|
    && (forall t: Time :: CartBlocks(db, a, t))
    && (forall b: nat, t: Time :: b < |db.attempts| && b != a ==> !IsCandidate(db, b, t))
  }

  /** Then every pass of a run is blocked, and leaves things so. */
  lemma {:induction false} AlonePasses(w: World, page: seq<AttemptId>, now: Time, a: AttemptId)
    requires Reachable(w) && Waiting(w, a) && AloneAndBlocked(w.db, a)
    requires forall b: AttemptId :: b in page ==> b == a
    ensures BlockedAtPasses(w, page, now, a)
    ensures Waiting(Passes(w, page, now), a) && AloneAndBlocked(Passes(w, page, now).db, a)
    decreases |page|
  {
    hide Reachable, Run, PassSteps, Waiting, CartBlocks, IsCandidate;
    if page != [] {
      BlockedPassMarks(w, a, now);
      StaysAlone(w, a, now);
      ReachableOn(w, PassSteps(w, a, now));
      assert page[0] in page;
      forall b: AttemptId | b in page[1..] ensures b == a { assert b in page; }
      AlonePasses(Run(w, PassSteps(w, a, now)), page[1..], now, a);
    }
  }

  ghost predicate LeftAlone(turns: seq<Turn>) {
    forall i :: 0 <= i < |turns| ==> turns[i].between == []
  }

  /** So the job left to itself stays blocked for ever. */
  lemma {:induction false} AloneStaysBlocked(w: World, limit: nat, turns: seq<Turn>, a: AttemptId)
    requires Reachable(w) && Waiting(w, a) && AloneAndBlocked(w.db, a)
    requires LeftAlone(turns)
    ensures BlockedThroughout(w, limit, turns, a)
    decreases |turns|
  {
    hide Reachable, Run, Page, Passes, BlockedAtPasses, Waiting, IsCandidate;
    if turns != [] {
      var now := turns[0].now;
      var page := Page(w.db, limit, now);
      forall b: AttemptId | b in page ensures b == a { PageTakesTheOldest(w.db, limit, now, b); }
      AlonePasses(w, page, now, a);
      PassesReach(w, page, now);
      NoStep(JobRun(w, limit, now));
      AloneStaysBlocked(JobRun(w, limit, now), limit, turns[1..], a);
    }
  }

  lemma StaysAlone(w: World, a: AttemptId, now: Time)
    requires Reachable(w) && Waiting(w, a) && AloneAndBlocked(w.db, a)
    ensures AloneAndBlocked(Run(w, PassSteps(w, a, now)).db, a)
  {
    hide Reachable, Run, PassSteps, IsCandidate, OthersKept, AllAvailable, LinesByProduct, CartTaken, Waiting;
    var w' := Run(w, PassSteps(w, a, now));
    BlockedPassMarks(w, a, now);
    PassIsOwn(w, a, now);
    assert a < |w'.db.attempts| by { PassKeepsAttempts(w, a, now); }
    forall t: Time ensures CartBlocks(w'.db, a, t) { assert CartBlocks(w.db, a, t); }
    forall b: nat, t: Time | b < |w'.db.attempts| && b != a ensures !IsCandidate(w'.db, b, t) {
      PassKeepsAttempts(w, a, now);
      OtherRowStays(w.db, w'.db, a, b);
      RowDecides(w.db, w'.db, b, t, now);
    }
  }

  /** The worker's loop: the page is read once, then every candidate on it gets its pass. */
  class Worker {
    var world: World

    constructor (world: World)
      ensures this.world == world
    {
      this.world := world;
    }

    method ReconcileOutstanding(limit: nat, now: Time)
      modifies this
      ensures world == JobRun(old(world), limit, now)
    {
      hide Page, PassSteps, Run;
      var candidates := Page(world.db, limit, now);
      var i := 0;
      assert candidates[0..] == candidates;
      while i < |candidates|
        invariant 0 <= i <= |candidates|
        invariant Passes(world, candidates[i..], now) == JobRun(old(world), limit, now)
      {
        world := Run(world, PassSteps(world, candidates[i], now));
        i := i + 1;
      }
      assert candidates[i..] == [];
    }
  }
}
