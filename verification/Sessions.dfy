/**
 * apps/api/src/auth/session/session.service.ts: issuing, using, touching and revoking sessions, as functions of the
 * tables, and what holds of them over runs. The service that updates the tables is in SessionService.
 */
module Sessions {
  import opened Basics

  type UserId = nat
  type Token = nat
  type Role = nat
  type Time = int      // milliseconds

  const DEFAULT_ABSOLUTE_LIFETIME_MS: int := 7 * 24 * 60 * 60 * 1_000
  const REMEMBERED_ABSOLUTE_LIFETIME_MS: int := 30 * 24 * 60 * 60 * 1_000
  const IDLE_LIFETIME_MS: int := 24 * 60 * 60 * 1_000
  const TOUCH_INTERVAL_MS: int := 15 * 60 * 1_000
  const MAX_ACTIVE_SESSIONS: int := 5

  datatype User = User(isActive: bool, role: Role, credentialChangedAt: Option<Time>)

  /** A row of the session table; `id` is its random primary key, which only breaks ties of `issuedAt`. */
  datatype Session = Session(
    id: nat, userId: UserId, token: Token, issuedAt: Time, lastSeenAt: Time, expiresAt: Time, revokedAt: Option<Time>,
    roleAtIssue: Role, credentialAtIssue: Time)

  type Rows = seq<Session>

  predicate IsLive(s: Session, now: Time) {
    s.revokedAt.None? && s.expiresAt > now && s.lastSeenAt > now - IDLE_LIFETIME_MS
  }

  predicate IsLiveOf(s: Session, userId: UserId, now: Time) {
    s.userId == userId && IsLive(s, now)
  }

  // ----- Revoking -----

  function RevokeAllOf(rows: Rows, userId: UserId, now: Time): (r: Rows)
    ensures |r| == |rows|
    ensures forall i :: 0 <= i < |rows| ==>
      r[i] == if rows[i].userId == userId && rows[i].revokedAt.None? then rows[i].(revokedAt := Some(now)) else rows[i]
  {
    if rows == [] then []
    else
      var s := rows[0];
      [if s.userId == userId && s.revokedAt.None? then s.(revokedAt := Some(now)) else s]
      + RevokeAllOf(rows[1..], userId, now)
  }

  function RevokePresented(rows: Rows, userId: UserId, token: Option<Token>, now: Time): (r: Rows)
    ensures |r| == |rows|
    ensures forall i :: 0 <= i < |rows| ==>
      r[i] == if token == Some(rows[i].token) && IsLiveOf(rows[i], userId, now)
              then rows[i].(revokedAt := Some(now)) else rows[i]
  {
    if rows == [] then []
    else
      var s := rows[0];
      [if token == Some(s.token) && IsLiveOf(s, userId, now) then s.(revokedAt := Some(now)) else s]
      + RevokePresented(rows[1..], userId, token, now)
  }

  predicate Older(a: Session, b: Session) {
    a.issuedAt < b.issuedAt || (a.issuedAt == b.issuedAt && a.id <= b.id)
  }

  function InsertByAge(rows: Rows, i: nat, active: seq<nat>): seq<nat>
    requires i < |rows| && forall k :: 0 <= k < |active| ==> active[k] < |rows|
  {
    if active == [] || Older(rows[i], rows[active[0]]) then [i] + active
    else [active[0]] + InsertByAge(rows, i, active[1..])
  }

  /** The positions of the user's live sessions among the first `n` rows, oldest first. */
  function ActiveByAge(rows: Rows, n: nat, userId: UserId, now: Time): (r: seq<nat>)
    requires n <= |rows|
    ensures forall k :: 0 <= k < |r| ==> r[k] < n
  {
    if n == 0 then []
    else
      var rest := ActiveByAge(rows, n - 1, userId, now);
      if IsLiveOf(rows[n - 1], userId, now) then
        InsertKeepsBounds(rows, n - 1, rest, n);
        InsertByAge(rows, n - 1, rest)
      else rest
  }

  lemma {:induction false} InsertKeepsBounds(rows: Rows, i: nat, active: seq<nat>, n: nat)
    requires i < n <= |rows| && forall k :: 0 <= k < |active| ==> active[k] < n
    ensures forall k :: 0 <= k < |InsertByAge(rows, i, active)| ==> InsertByAge(rows, i, active)[k] < n
  {
    if active != [] && !Older(rows[i], rows[active[0]]) { InsertKeepsBounds(rows, i, active[1..], n); }
  }

  function RevokeAt(rows: Rows, positions: seq<nat>, now: Time): (r: Rows)
    requires forall k :: 0 <= k < |positions| ==> positions[k] < |rows|
    ensures |r| == |rows|
    decreases |positions|
  {
    if positions == [] then rows
    else RevokeAt(rows[positions[0] := rows[positions[0]].(revokedAt := Some(now))], positions[1..], now)
  }

  function Overflow(active: seq<nat>): nat {
    if |active| > MAX_ACTIVE_SESSIONS - 1 then |active| - (MAX_ACTIVE_SESSIONS - 1) else 0
  }

  /** Make room for one more session by revoking the oldest ones. */
  function MakeRoom(rows: Rows, userId: UserId, now: Time): (r: Rows)
    ensures |r| == |rows|
  {
    var active := ActiveByAge(rows, |rows|, userId, now);
    RevokeAt(rows, active[..Overflow(active)], now)
  }

  datatype IssueRequest = IssueRequest(
    userId: UserId, presented: Option<Token>, rememberMe: bool, freshId: nat, freshToken: Token)

  predicate MayIssue(users: map<UserId, User>, userId: UserId) {
    userId in users && users[userId].isActive && users[userId].credentialChangedAt.Some?
  }

  function NewSession(users: map<UserId, User>, request: IssueRequest, now: Time): Session
    requires MayIssue(users, request.userId)
  {
    var user := users[request.userId];
    Session(request.freshId, request.userId, request.freshToken, now, now,
            now + (if request.rememberMe then REMEMBERED_ABSOLUTE_LIFETIME_MS else DEFAULT_ABSOLUTE_LIFETIME_MS),
            None, user.role, user.credentialChangedAt.value)
  }

  function Issue(users: map<UserId, User>, rows: Rows, request: IssueRequest, now: Time): Rows {
    if !MayIssue(users, request.userId) then rows
    else
      MakeRoom(RevokePresented(rows, request.userId, request.presented, now), request.userId, now)
      + [NewSession(users, request, now)]
  }

  // ----- Using a session -----

  predicate CredentialsUnchanged(users: map<UserId, User>, s: Session) {
    && s.userId in users && users[s.userId].isActive
    && users[s.userId].role == s.roleAtIssue
    && users[s.userId].credentialChangedAt == Some(s.credentialAtIssue)
  }

  predicate Accepts(users: map<UserId, User>, s: Session, now: Time) {
    IsLive(s, now) && CredentialsUnchanged(users, s)
  }

  predicate NeedsTouch(s: Session, now: Time) {
    s.lastSeenAt <= now - TOUCH_INTERVAL_MS
  }

  /** The guarded update: it matches only a live session that has not been seen for a while. */
  function Touch(rows: Rows, i: nat, now: Time): (r: Rows)
    ensures |r| == |rows|
  {
    if i < |rows| && IsLive(rows[i], now) && NeedsTouch(rows[i], now)
    then rows[i := rows[i].(lastSeenAt := now)] else rows
  }

  function FindToken(rows: Rows, token: Token): (r: Option<nat>)
    ensures r.Some? ==> r.value < |rows| && rows[r.value].token == token
    ensures r.None? ==> forall i :: 0 <= i < |rows| ==> rows[i].token != token
  {
    if rows == [] then None
    else if rows[|rows| - 1].token == token then Some(|rows| - 1)
    else FindToken(rows[..|rows| - 1], token)
  }

  // ----- Steps: each is one transaction or one statement -----

  datatype Step =
    | IssueStep(request: IssueRequest)
    | TouchStep(position: nat)
    | RevokeCurrentStep(token: Token)
    | RevokeAllStep(userId: UserId)
    | ChangeUser(userId: UserId, user: User)

  datatype Tables = Tables(users: map<UserId, User>, rows: Rows)

  function RevokeCurrent(rows: Rows, token: Token, now: Time): (r: Rows)
    ensures |r| == |rows|
  {
    match FindToken(rows, token)
    case None => rows
    case Some(i) => if rows[i].revokedAt.None? then rows[i := rows[i].(revokedAt := Some(now))] else rows
  }

  function Next(t: Tables, step: Step, now: Time): Tables {
    match step
    case IssueStep(request) => t.(rows := Issue(t.users, t.rows, request, now))
    case TouchStep(i) => t.(rows := Touch(t.rows, i, now))
    case RevokeCurrentStep(token) => t.(rows := RevokeCurrent(t.rows, token, now))
    case RevokeAllStep(userId) => t.(rows := RevokeAllOf(t.rows, userId, now))
    case ChangeUser(userId, user) => t.(users := t.users[userId := user])
  }

  datatype Timed = Timed(step: Step, at: Time)

  function Run(t: Tables, steps: seq<Timed>): Tables
    decreases |steps|
  {
    if steps == [] then t else Run(Next(t, steps[0].step, steps[0].at), steps[1..])
  }

  ghost predicate Ordered(steps: seq<Timed>, from: Time) {
    && (forall i :: 0 <= i < |steps| ==> from <= steps[i].at)
    && (forall i, j :: 0 <= i < j < |steps| ==> steps[i].at <= steps[j].at)
  }

  // ----- At most five live sessions -----

  ghost function LiveOf(rows: Rows, userId: UserId, now: Time): set<nat> {
    set i: nat | i < |rows| && IsLiveOf(rows[i], userId, now)
  }

  ghost predicate CapHolds(rows: Rows, now: Time) {
    forall u: UserId :: |LiveOf(rows, u, now)| <= MAX_ACTIVE_SESSIONS
  }

  ghost predicate NoneAgain(x: Rows, y: Rows, before: Time, after: Time) {
    && |x| <= |y|
    && forall i :: 0 <= i < |x| ==>
         y[i].userId == x[i].userId && (IsLive(y[i], after) ==> IsLive(x[i], before))
  }

  lemma SubsetSize(a: set<nat>, b: set<nat>)
    requires a <= b
    ensures |a| <= |b|
  {
    assert b == a + (b - a);
  }

  lemma NoneAgainKeepsCap(x: Rows, y: Rows, before: Time, after: Time)
    requires CapHolds(x, before) && NoneAgain(x, y, before, after) && |x| == |y|
    ensures CapHolds(y, after)
  {
    forall u: UserId ensures |LiveOf(y, u, after)| <= MAX_ACTIVE_SESSIONS {
      SubsetSize(LiveOf(y, u, after), LiveOf(x, u, before));
      assert |LiveOf(x, u, before)| <= MAX_ACTIVE_SESSIONS;
    }
  }

  lemma {:induction false} InsertAddsOne(rows: Rows, i: nat, active: seq<nat>, x: nat)
    requires i < |rows| && forall k :: 0 <= k < |active| ==> active[k] < |rows|
    ensures x in InsertByAge(rows, i, active) <==> x == i || x in active
  {
    if active != [] && !Older(rows[i], rows[active[0]]) {
      InsertAddsOne(rows, i, active[1..], x);
      assert active == [active[0]] + active[1..];
    }
  }

  ghost predicate SortedByAge(rows: Rows, active: seq<nat>) {
    && (forall k :: 0 <= k < |active| ==> active[k] < |rows|)
    && forall j, k :: 0 <= j < k < |active| ==> Older(rows[active[j]], rows[active[k]])
  }

  lemma {:induction false} InsertStaysSorted(rows: Rows, i: nat, active: seq<nat>)
    requires i < |rows| && SortedByAge(rows, active)
    ensures SortedByAge(rows, InsertByAge(rows, i, active))
  {
    if active != [] && !Older(rows[i], rows[active[0]]) {
      InsertStaysSorted(rows, i, active[1..]);
      var r := InsertByAge(rows, i, active[1..]);
      InsertKeepsBounds(rows, i, active[1..], |rows|);
      forall k | 0 <= k < |r| ensures Older(rows[active[0]], rows[r[k]]) {
        InsertAddsOne(rows, i, active[1..], r[k]);
      }
    }
  }

  /** The list holds the live sessions of the user, oldest first. */
  lemma {:induction false} ActiveIsTheLiveSet(rows: Rows, n: nat, userId: UserId, now: Time)
    requires n <= |rows|
    ensures SortedByAge(rows, ActiveByAge(rows, n, userId, now))
    ensures forall i: nat :: i in ActiveByAge(rows, n, userId, now) <==> i < n && IsLiveOf(rows[i], userId, now)
  {
    hide IsLiveOf, SortedByAge, InsertByAge;
    if n == 0 {
      assert SortedByAge(rows, []) by { NothingIsSorted(rows); }
    } else {
      ActiveIsTheLiveSet(rows, n - 1, userId, now);
      var rest := ActiveByAge(rows, n - 1, userId, now);
      if IsLiveOf(rows[n - 1], userId, now) {
        var longer := InsertByAge(rows, n - 1, rest);
        assert ActiveByAge(rows, n, userId, now) == longer;
        assert SortedByAge(rows, longer) by { InsertStaysSorted(rows, n - 1, rest); }
        forall i: nat ensures i in longer <==> i < n && IsLiveOf(rows[i], userId, now) {
          InsertAddsOne(rows, n - 1, rest, i);
        }
      } else {
        assert ActiveByAge(rows, n, userId, now) == rest;
      }
    }
  }

  lemma NothingIsSorted(rows: Rows)
    ensures SortedByAge(rows, [])
  {
  }

  lemma {:induction false} RevokedAt(rows: Rows, positions: seq<nat>, now: Time, i: nat)
    requires i < |rows| && forall k :: 0 <= k < |positions| ==> positions[k] < |rows|
    ensures RevokeAt(rows, positions, now)[i]
         == if i in positions then rows[i].(revokedAt := Some(now)) else rows[i]
    decreases |positions|
  {
    if positions != [] {
      var p := positions[0];
      RevokedAt(rows[p := rows[p].(revokedAt := Some(now))], positions[1..], now, i);
      assert positions == [p] + positions[1..];
    }
  }

  lemma {:induction false} DistinctSize(xs: seq<nat>, s: set<nat>)
    requires forall i: nat :: i in s ==> i in xs
    ensures |s| <= |xs|
  {
    if xs == [] {
      assert s == {};
    } else {
      var rest := s - {xs[0]};
      assert forall i: nat :: i in rest ==> i in xs[1..];
      DistinctSize(xs[1..], rest);
      assert s <= rest + {xs[0]};
      SubsetSize(s, rest + {xs[0]});
    }
  }

  /** Which positions are revoked to make room, and which live ones stay. */
  lemma RoomSplits(rows: Rows, userId: UserId, now: Time) returns (out: seq<nat>, kept: seq<nat>)
    ensures |kept| <= MAX_ACTIVE_SESSIONS - 1
    ensures forall i: nat :: i < |rows| ==>
      && MakeRoom(rows, userId, now)[i] == (if i in out then rows[i].(revokedAt := Some(now)) else rows[i])
      && (IsLiveOf(rows[i], userId, now) <==> i in out || i in kept)
    ensures forall i: nat, j: nat :: i in out && j in kept ==> i < |rows| && j < |rows| && Older(rows[i], rows[j])
  {
    hide IsLiveOf;
    var active := ActiveByAge(rows, |rows|, userId, now);
    ActiveIsTheLiveSet(rows, |rows|, userId, now);
    out, kept := active[..Overflow(active)], active[Overflow(active)..];
    assert active == out + kept;
    forall i: nat | i < |rows|
      ensures MakeRoom(rows, userId, now)[i] == (if i in out then rows[i].(revokedAt := Some(now)) else rows[i])
    {
      RevokedAt(rows, out, now, i);
    }
    forall i: nat, j: nat | i in out && j in kept ensures i < |rows| && j < |rows| && Older(rows[i], rows[j]) {
      var a :| 0 <= a < |out| && out[a] == i;
      var b :| 0 <= b < |kept| && kept[b] == j;
      assert active[a] == i && active[Overflow(active) + b] == j;
    }
  }

  /** After making room, at most four sessions are live; those revoked for it are older than those kept. */
  lemma RoomIsMade(rows: Rows, userId: UserId, now: Time)
    ensures |LiveOf(MakeRoom(rows, userId, now), userId, now)| <= MAX_ACTIVE_SESSIONS - 1
    ensures NoneAgain(rows, MakeRoom(rows, userId, now), now, now)
    ensures forall i: nat, j: nat ::
      (&& i < |rows| && j < |rows|
       && IsLiveOf(rows[i], userId, now) && !IsLive(MakeRoom(rows, userId, now)[i], now)
       && IsLiveOf(MakeRoom(rows, userId, now)[j], userId, now)) ==> Older(rows[i], rows[j])
  {
    hide MakeRoom, Older;
    var out, kept := RoomSplits(rows, userId, now);
    var after := MakeRoom(rows, userId, now);
    forall i: nat | i in LiveOf(after, userId, now) ensures i in kept {}
    DistinctSize(kept, LiveOf(after, userId, now));
  }

  // ----- Over every run with a clock that does not go back -----

  lemma TimePasses(rows: Rows, before: Time, after: Time)
    requires before <= after
    ensures NoneAgain(rows, rows, before, after)
  {
  }

  lemma NoneAgainOn(x: Rows, y: Rows, z: Rows, a: Time, b: Time, c: Time)
    requires NoneAgain(x, y, a, b) && NoneAgain(y, z, b, c)
    ensures NoneAgain(x, z, a, c)
  {
  }

  lemma IssueNeverRevives(users: map<UserId, User>, rows: Rows, request: IssueRequest, now: Time)
    ensures NoneAgain(rows, Issue(users, rows, request, now), now, now)
  {
    hide MakeRoom, RevokePresented;
    if MayIssue(users, request.userId) {
      var cleared := RevokePresented(rows, request.userId, request.presented, now);
      RoomIsMade(cleared, request.userId, now);
      NoneAgainOn(rows, cleared, MakeRoom(cleared, request.userId, now), now, now, now);
    }
  }

  /** One more session fits where its user has room for it. */
  lemma NewSessionFits(roomy: Rows, session: Session, now: Time)
    requires CapHolds(roomy, now) && |LiveOf(roomy, session.userId, now)| < MAX_ACTIVE_SESSIONS
    ensures CapHolds(roomy + [session], now)
  {
    var issued := roomy + [session];
    forall u: UserId ensures |LiveOf(issued, u, now)| <= MAX_ACTIVE_SESSIONS {
      if u == session.userId {
        SubsetSize(LiveOf(issued, u, now), LiveOf(roomy, u, now) + {|roomy|});
      } else {
        SubsetSize(LiveOf(issued, u, now), LiveOf(roomy, u, now));
        assert |LiveOf(roomy, u, now)| <= MAX_ACTIVE_SESSIONS;
      }
    }
  }

  lemma IssueKeepsCap(users: map<UserId, User>, rows: Rows, request: IssueRequest, now: Time)
    requires CapHolds(rows, now)
    ensures CapHolds(Issue(users, rows, request, now), now)
  {
    hide MakeRoom, RevokePresented, CapHolds, LiveOf;
    if MayIssue(users, request.userId) {
      var cleared := RevokePresented(rows, request.userId, request.presented, now);
      var roomy := MakeRoom(cleared, request.userId, now);
      assert NoneAgain(rows, roomy, now, now) && |LiveOf(roomy, request.userId, now)| < MAX_ACTIVE_SESSIONS by {
        RoomIsMade(cleared, request.userId, now);
        NoneAgainOn(rows, cleared, roomy, now, now, now);
      }
      NoneAgainKeepsCap(rows, roomy, now, now);
      NewSessionFits(roomy, NewSession(users, request, now), now);
    }
  }

  lemma StepNeverRevives(t: Tables, step: Step, now: Time)
    ensures NoneAgain(t.rows, Next(t, step, now).rows, now, now)
  {
    hide Issue;
    match step {
      case IssueStep(request) => IssueNeverRevives(t.users, t.rows, request, now);
      case _ =>
    }
  }

  lemma StepKeepsCap(t: Tables, step: Step, now: Time)
    requires CapHolds(t.rows, now)
    ensures CapHolds(Next(t, step, now).rows, now)
  {
    hide Issue, CapHolds;
    match step {
      case IssueStep(request) => IssueKeepsCap(t.users, t.rows, request, now);
      case _ =>
        StepNeverRevives(t, step, now);
        NoneAgainKeepsCap(t.rows, Next(t, step, now).rows, now, now);
    }
  }

  lemma OrderedRest(steps: seq<Timed>, from: Time)
    requires Ordered(steps, from) && steps != []
    ensures from <= steps[0].at && Ordered(steps[1..], steps[0].at)
  {
  }

  ghost function EndOf(steps: seq<Timed>, from: Time): Time {
    if steps == [] then from else steps[|steps| - 1].at
  }

  lemma EndOfRest(steps: seq<Timed>, from: Time)
    requires steps != [] && Ordered(steps, from)
    ensures EndOf(steps[1..], steps[0].at) == EndOf(steps, from) && from <= EndOf(steps, from)
  {
  }

  /** At every time a user has at most five live sessions: the cap holds after every run, at its end and later. */
  lemma {:induction false} AtMostFiveLive(t: Tables, steps: seq<Timed>, from: Time, later: Time)
    requires CapHolds(t.rows, from) && Ordered(steps, from) && EndOf(steps, from) <= later
    ensures CapHolds(Run(t, steps).rows, later)
    decreases |steps|
  {
    hide CapHolds, Next, Ordered;
    if steps == [] {
      TimePasses(t.rows, from, later);
      NoneAgainKeepsCap(t.rows, t.rows, from, later);
    } else {
      OrderedRest(steps, from);
      EndOfRest(steps, from);
      TimePasses(t.rows, from, steps[0].at);
      NoneAgainKeepsCap(t.rows, t.rows, from, steps[0].at);
      StepKeepsCap(t, steps[0].step, steps[0].at);
      AtMostFiveLive(Next(t, steps[0].step, steps[0].at), steps[1..], steps[0].at, later);
    }
  }

  lemma NoSessionsAtFirst(from: Time)
    ensures CapHolds([], from)
  {
    forall u: UserId ensures |LiveOf([], u, from)| <= MAX_ACTIVE_SESSIONS { assert LiveOf([], u, from) == {}; }
  }

  /** From an empty session table on, no run ever leaves a user with more than five live sessions. */
  lemma NeverMoreThanFive(users: map<UserId, User>, steps: seq<Timed>, from: Time, later: Time, userId: UserId)
    requires Ordered(steps, from) && EndOf(steps, from) <= later
    ensures |LiveOf(Run(Tables(users, []), steps).rows, userId, later)| <= MAX_ACTIVE_SESSIONS
  {
    hide Run, LiveOf, Ordered;
    NoSessionsAtFirst(from);
    AtMostFiveLive(Tables(users, []), steps, from, later);
    assert CapHolds(Run(Tables(users, []), steps).rows, later);
  }

  /** A session that is not live never becomes live again, and never changes owner. */
  lemma {:induction false} DeadStaysDead(t: Tables, steps: seq<Timed>, from: Time, later: Time)
    requires Ordered(steps, from) && EndOf(steps, from) <= later
    ensures NoneAgain(t.rows, Run(t, steps).rows, from, later)
    decreases |steps|
  {
    hide NoneAgain, Next, Ordered;
    if steps == [] {
      TimePasses(t.rows, from, later);
    } else {
      OrderedRest(steps, from);
      EndOfRest(steps, from);
      var t1 := Next(t, steps[0].step, steps[0].at);
      TimePasses(t.rows, from, steps[0].at);
      StepNeverRevives(t, steps[0].step, steps[0].at);
      NoneAgainOn(t.rows, t.rows, t1.rows, from, steps[0].at, steps[0].at);
      DeadStaysDead(t1, steps[1..], steps[0].at, later);
      NoneAgainOn(t.rows, t1.rows, Run(t, steps).rows, from, steps[0].at, later);
    }
  }

  // ----- How long one use keeps a session alive -----

  /** Authentication as a whole: the row is read, and touched if it has not been seen for a while. */
  function Use(t: Tables, i: nat, now: Time): Tables { Next(t, TouchStep(i), now) }

  /**
   * A session used at time t is accepted for the next 23 hours and 45 minutes, as long as it is neither revoked nor
   * expired and its user's credentials are unchanged.
   */
  lemma UsedSessionStaysAccepted(t: Tables, i: nat, now: Time, later: Time, rows: Rows)
    requires i < |t.rows| && Accepts(t.users, t.rows[i], now)
    requires now <= later <= now + IDLE_LIFETIME_MS - TOUCH_INTERVAL_MS
    requires |rows| == |t.rows| && rows[i] == Use(t, i, now).rows[i] && later < rows[i].expiresAt
    ensures Accepts(t.users, rows[i], later)
  {
  }

  ghost predicate SeenBy(rows: Rows, now: Time) {
    forall i :: 0 <= i < |rows| ==> rows[i].lastSeenAt <= now
  }

  lemma StepSeenBy(t: Tables, step: Step, now: Time)
    requires SeenBy(t.rows, now)
    ensures SeenBy(Next(t, step, now).rows, now)
  {
    hide MakeRoom;
    match step {
      case IssueStep(request) =>
        if MayIssue(t.users, request.userId) {
          var cleared := RevokePresented(t.rows, request.userId, request.presented, now);
          RoomKeepsSeen(cleared, request.userId, now);
        }
      case _ =>
    }
  }

  lemma RoomKeepsSeen(rows: Rows, userId: UserId, now: Time)
    requires SeenBy(rows, now)
    ensures SeenBy(MakeRoom(rows, userId, now), now)
  {
    var out, kept := RoomSplits(rows, userId, now);
    hide MakeRoom;
  }

  /** No row is seen in the future: what `IdleAccuracy` asks of its start holds after every ordered run. */
  lemma {:induction false} RunSeenBy(t: Tables, steps: seq<Timed>, from: Time)
    requires SeenBy(t.rows, from) && Ordered(steps, from)
    ensures SeenBy(Run(t, steps).rows, EndOf(steps, from))
    decreases |steps|
  {
    hide Next, Ordered;
    if steps != [] {
      OrderedRest(steps, from);
      EndOfRest(steps, from);
      assert SeenBy(t.rows, steps[0].at);
      StepSeenBy(t, steps[0].step, steps[0].at);
      RunSeenBy(Next(t, steps[0].step, steps[0].at), steps[1..], steps[0].at);
    }
  }

  /** A session nobody used after time t is rejected from t plus 24 hours on. */
  lemma UnusedSessionIsRejected(users: map<UserId, User>, s: Session, lastUse: Time, later: Time)
    requires s.lastSeenAt <= lastUse && lastUse + IDLE_LIFETIME_MS <= later
    ensures !Accepts(users, s, later)
  {
  }

  /** A row is seen later only by touches of its own, and never earlier. */
  lemma {:induction false} SeenBetween(t: Tables, steps: seq<Timed>, i: nat, lastUse: Time)
    requires i < |t.rows| && t.rows[i].lastSeenAt <= lastUse
    requires forall k :: 0 <= k < |steps| && steps[k].step == TouchStep(i) ==> steps[k].at <= lastUse
    ensures i < |Run(t, steps).rows| && t.rows[i].lastSeenAt <= Run(t, steps).rows[i].lastSeenAt <= lastUse
    decreases |steps|
  {
    hide Next;
    if steps != [] {
      if steps[0].step == TouchStep(i) {
        assert steps[0].at <= lastUse;
        TouchSees(t, steps[0].at, i);
      } else {
        StepNotSeen(t, steps[0].step, steps[0].at, i);
      }
      SeenBetween(Next(t, steps[0].step, steps[0].at), steps[1..], i, lastUse);
    }
  }

  lemma TouchSees(t: Tables, now: Time, i: nat)
    requires i < |t.rows|
    ensures var rows := Next(t, TouchStep(i), now).rows;
            && i < |rows| && t.rows[i].lastSeenAt <= rows[i].lastSeenAt
            && (rows[i].lastSeenAt == t.rows[i].lastSeenAt || rows[i].lastSeenAt == now)
  {
  }

  lemma StepNotSeen(t: Tables, step: Step, now: Time, i: nat)
    requires i < |t.rows| && step != TouchStep(i)
    ensures i < |Next(t, step, now).rows| && Next(t, step, now).rows[i].lastSeenAt == t.rows[i].lastSeenAt
  {
    hide MakeRoom;
    match step {
      case IssueStep(request) =>
        if MayIssue(t.users, request.userId) {
          var cleared := RevokePresented(t.rows, request.userId, request.presented, now);
          var out, kept := RoomSplits(cleared, request.userId, now);
        }
      case _ =>
    }
  }

  /**
   * Idle accuracy over runs in which the session may be used again and again: accepted at `now`, it stays accepted for
   * 23 hours and 45 minutes unless something in the run revoked it, its absolute lifetime ended or its user changed;
   * and 24 hours after `lastUse`, the time of its last touch or later, it is rejected.
   */
  lemma IdleAccuracy(t: Tables, i: nat, now: Time, steps: seq<Timed>, lastUse: Time, later: Time)
    requires i < |t.rows| && t.rows[i].lastSeenAt <= now <= lastUse && Accepts(t.users, t.rows[i], now) && now <= later
    requires forall k :: 0 <= k < |steps| && steps[k].step == TouchStep(i) ==> steps[k].at <= lastUse
    ensures var after := Run(Use(t, i, now), steps);
            && i < |after.rows|
            && (lastUse + IDLE_LIFETIME_MS <= later ==> !Accepts(after.users, after.rows[i], later))
            && (&& later <= now + IDLE_LIFETIME_MS - TOUCH_INTERVAL_MS
                && after.rows[i].revokedAt.None? && later < after.rows[i].expiresAt
                && CredentialsUnchanged(after.users, after.rows[i])
                ==> Accepts(after.users, after.rows[i], later))
  {
    hide Run, CredentialsUnchanged;
    SeenBetween(Use(t, i, now), steps, i, lastUse);
  }

  // ----- One authentication among other transactions -----

  /** What `authenticate` reports and leaves behind. */
  datatype Authenticated = Authenticated(tables: Tables, session: Option<Session>)

  /**
   * One attempt of `authenticateInternal`: the row is read; if it needs a touch, other transactions may run before the
   * guarded update, which then matches the row or not. Only in the second case is there an attempt to `retry`.
   */
  datatype Try = Done(result: Authenticated) | Retry(tables: Tables)

  function TryOnce(t: Tables, token: Token, now: Time, others: seq<Timed>): Try {
    match FindToken(t.rows, token)
    case None => Done(Authenticated(t, None))
    case Some(i) =>
      if !Accepts(t.users, t.rows[i], now) then Done(Authenticated(t, None))
      else if !NeedsTouch(t.rows[i], now) then Done(Authenticated(t, Some(t.rows[i])))
      else
        var later := Run(t, others);
        if i < |later.rows| && IsLive(later.rows[i], now) && NeedsTouch(later.rows[i], now)
        then Done(Authenticated(
          later.(rows := Touch(later.rows, i, now)), Some(t.rows[i].(lastSeenAt := now))))
        else Retry(later)
  }

  function AuthenticateAmong(t: Tables, token: Token, now: Time, others: seq<Timed>, more: seq<Timed>): Authenticated {
    match TryOnce(t, token, now, others)
    case Done(result) => result
    case Retry(later) =>
      match TryOnce(later, token, now, more)
      case Done(result) => result
      case Retry(last) => Authenticated(last, None)
  }

  /** Nothing but uses of sessions, whichever sessions they are. */
  predicate TouchesOnly(steps: seq<Timed>) {
    forall k :: 0 <= k < |steps| ==> steps[k].step.TouchStep?
  }

  lemma {:induction false} TouchesKeep(t: Tables, steps: seq<Timed>, token: Token, i: nat, now: Time)
    requires TouchesOnly(steps) && i < |t.rows| && FindToken(t.rows, token) == Some(i)
    requires Accepts(t.users, t.rows[i], now)
    ensures var later := Run(t, steps);
            && FindToken(later.rows, token) == Some(i) && i < |later.rows|
            && later.users == t.users && Accepts(later.users, later.rows[i], now)
            && t.rows[i].lastSeenAt <= later.rows[i].lastSeenAt
    decreases |steps|
  {
    hide FindToken;
    if steps != [] {
      var t1 := Next(t, steps[0].step, steps[0].at);
      TouchKeepsTokens(t.rows, steps[0].step.position, steps[0].at, token);
      TouchesKeep(t1, steps[1..], token, i, now);
    }
  }

  lemma {:induction false} SameTokens(x: Rows, y: Rows, token: Token)
    requires |x| == |y| && forall k :: 0 <= k < |x| ==> x[k].token == y[k].token
    ensures FindToken(x, token) == FindToken(y, token)
    decreases |x|
  {
    if x != [] && x[|x| - 1].token != token { SameTokens(x[..|x| - 1], y[..|y| - 1], token); }
  }

  lemma TouchKeepsTokens(rows: Rows, p: nat, at: Time, token: Token)
    ensures FindToken(Touch(rows, p, at), token) == FindToken(rows, token)
  {
    SameTokens(Touch(rows, p, at), rows, token);
  }

  /**
   * Concurrent uses of a session never turn each other away: whatever other requests touch between the read and the
   * update, also the second time, authentication accepts exactly the sessions it would accept alone.
   */
  lemma UsesDoNotDisturb(t: Tables, token: Token, now: Time, others: seq<Timed>, more: seq<Timed>)
    requires TouchesOnly(others)
    ensures AuthenticateAmong(t, token, now, others, more).session.Some? <==>
      FindToken(t.rows, token).Some? && Accepts(t.users, t.rows[FindToken(t.rows, token).value], now)
  {
    hide FindToken, Run;
    var found := FindToken(t.rows, token);
    if found.Some? && Accepts(t.users, t.rows[found.value], now) { TouchesKeep(t, others, token, found.value, now); }
  }

  /** In general a session is only turned away if it is not acceptable at the first read, at the second, or no more. */
  lemma TurnedAwayForAReason(t: Tables, token: Token, now: Time, others: seq<Timed>, more: seq<Timed>)
    requires AuthenticateAmong(t, token, now, others, more).session.None?
    ensures var found := FindToken(t.rows, token);
            || found.None? || !Accepts(t.users, t.rows[found.value], now)
            || var later := Run(t, others); var again := FindToken(later.rows, token);
               || again.None? || !Accepts(later.users, later.rows[again.value], now)
               || var last := Run(later, more);
                  again.value >= |last.rows| || !IsLive(last.rows[again.value], now)
                  || !NeedsTouch(last.rows[again.value], now)
  {
    hide Run;
  }
}
