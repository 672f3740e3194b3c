/** The session service as an object: its methods overwrite the session table row by row. */
module SessionService {
  import opened Basics
  import opened Sessions

  /** How many sessions of the user are not revoked among the first `n`. */
  function Unrevoked(rows: Rows, n: nat, userId: UserId): nat
    requires n <= |rows|
  {
    if n == 0 then 0
    else Unrevoked(rows, n - 1, userId) + if rows[n - 1].userId == userId && rows[n - 1].revokedAt.None? then 1 else 0
  }

  class Service {
    var users: map<UserId, User>
    var rows: Rows

    constructor (users: map<UserId, User>)
      ensures this.users == users && rows == []
    {
      this.users := users;
      rows := [];
    }

    /** Revoke a live session of the user that carries the presented token. */
    method RevokeReplaced(userId: UserId, presented: Option<Token>, now: Time)
      modifies this`rows
      ensures rows == RevokePresented(old(rows), userId, presented, now)
    {
      var i := 0;
      while i < |rows|
        invariant 0 <= i <= |rows| == |old(rows)|
        invariant forall k :: 0 <= k < |rows| ==>
          rows[k] == if k < i && presented == Some(old(rows)[k].token) && IsLiveOf(old(rows)[k], userId, now)
                     then old(rows)[k].(revokedAt := Some(now)) else old(rows)[k]
      {
        if presented == Some(rows[i].token) && IsLiveOf(rows[i], userId, now) {
          rows := rows[i := rows[i].(revokedAt := Some(now))];
        }
        i := i + 1;
      }
    }

    method RevokePositions(positions: seq<nat>, now: Time)
      requires forall k :: 0 <= k < |positions| ==> positions[k] < |rows|
      modifies this`rows
      ensures rows == RevokeAt(old(rows), positions, now)
    {
      var i := 0;
      while i < |rows|
        invariant 0 <= i <= |rows| == |old(rows)|
        invariant forall k :: 0 <= k < |rows| ==>
          rows[k] == if k < i && k in positions then old(rows)[k].(revokedAt := Some(now)) else old(rows)[k]
      {
        if i in positions { rows := rows[i := rows[i].(revokedAt := Some(now))]; }
        i := i + 1;
      }
      forall k | 0 <= k < |rows| ensures rows[k] == RevokeAt(old(rows), positions, now)[k] {
        RevokedAt(old(rows), positions, now, k);
      }
    }

    /** `issue`: replace the presented session, revoke the oldest ones beyond four, and add a new one. */
    method Issue(request: IssueRequest, now: Time) returns (issued: Option<Session>)
      modifies this`rows
      ensures rows == Sessions.Issue(users, old(rows), request, now)
      ensures issued.Some? <==> MayIssue(users, request.userId)
      ensures issued.Some? ==>
        |rows| == |old(rows)| + 1 && issued.value == rows[|old(rows)|] && IsLive(issued.value, now)
      ensures CapHolds(old(rows), now) ==> CapHolds(rows, now)
    {
      ghost var capped := CapHolds(rows, now);
      if capped { IssueKeepsCap(users, rows, request, now); }
      hide CapHolds;
      if !MayIssue(users, request.userId) { return None; }
      RevokeReplaced(request.userId, request.presented, now);
      var active: seq<nat> := [];
      var n := 0;
      while n < |rows|
        invariant 0 <= n <= |rows|
        invariant active == ActiveByAge(rows, n, request.userId, now)
      {
        if IsLiveOf(rows[n], request.userId, now) { active := InsertByAge(rows, n, active); }
        n := n + 1;
      }
      var overflow := |active| - (MAX_ACTIVE_SESSIONS - 1);
      if overflow > 0 { RevokePositions(active[..overflow], now); } else { assert active[..0] == []; }
      var created := NewSession(users, request, now);
      rows := rows + [created];
      issued := Some(created);
    }

    function View(): Tables
      reads this
    {
      Tables(users, rows)
    }

    /** Other transactions run: what they do is the environment's choice. */
    method LetOthersRun(others: seq<Timed>)
      modifies this
      ensures View() == Run(old(View()), others)
    {
      var after := Run(View(), others);
      users, rows := after.users, after.rows;
    }

    /**
     * `authenticateInternal` up to its retry: read the row by its token, check it, and touch it when it has not been
     * seen for a while. Between the read and the guarded update others may run.
     */
    method TryOnce(token: Token, now: Time, others: seq<Timed>) returns (done: bool, accepted: Option<Session>)
      modifies this
      ensures Sessions.TryOnce(old(View()), token, now, others)
           == if done then Done(Authenticated(View(), accepted)) else Retry(View())
    {
      hide Run;
      var found := FindToken(rows, token);
      if found.None? { return true, None; }
      var i := found.value;
      var session := rows[i];
      if !Accepts(users, session, now) { return true, None; }
      if !NeedsTouch(session, now) { return true, Some(session); }
      LetOthersRun(others);
      if i >= |rows| || !IsLive(rows[i], now) || !NeedsTouch(rows[i], now) { return false, None; }
      rows := rows[i := rows[i].(lastSeenAt := now)];
      return true, Some(session.(lastSeenAt := now));
    }

    /** `authenticate`: a second attempt after a lost touch, and no third. */
    method Authenticate(token: Token, now: Time, others: seq<Timed>, more: seq<Timed>)
      returns (accepted: Option<Session>)
      modifies this
      ensures Authenticated(View(), accepted) == AuthenticateAmong(old(View()), token, now, others, more)
      ensures TouchesOnly(others) ==>
        (accepted.Some? <==>
           var found := FindToken(old(rows), token);
           found.Some? && Accepts(old(users), old(rows)[found.value], now))
    {
      if TouchesOnly(others) { UsesDoNotDisturb(View(), token, now, others, more); }
      hide Sessions.TryOnce, FindToken, TouchesOnly;
      var done;
      done, accepted := TryOnce(token, now, others);
      if !done {
        done, accepted := TryOnce(token, now, more);
        if !done { accepted := None; }
      }
    }

    method RevokeCurrent(token: Token, now: Time) returns (revoked: bool)
      modifies this`rows
      ensures rows == Sessions.RevokeCurrent(old(rows), token, now)
      ensures revoked <==>
        FindToken(old(rows), token).Some? && old(rows)[FindToken(old(rows), token).value].revokedAt.None?
    {
      var found := FindToken(rows, token);
      if found.None? || rows[found.value].revokedAt.Some? { return false; }
      rows := rows[found.value := rows[found.value].(revokedAt := Some(now))];
      revoked := true;
    }

    method RevokeAll(userId: UserId, now: Time) returns (count: nat)
      modifies this`rows
      ensures rows == RevokeAllOf(old(rows), userId, now)
      ensures count == Unrevoked(old(rows), |old(rows)|, userId)
      ensures LiveOf(rows, userId, now) == {}
    {
      var i := 0;
      count := 0;
      while i < |rows|
        invariant 0 <= i <= |rows| == |old(rows)|
        invariant count == Unrevoked(old(rows), i, userId)
        invariant forall k :: 0 <= k < |rows| ==>
          rows[k] == if k < i && old(rows)[k].userId == userId && old(rows)[k].revokedAt.None?
                     then old(rows)[k].(revokedAt := Some(now)) else old(rows)[k]
      {
        if rows[i].userId == userId && rows[i].revokedAt.None? {
          rows := rows[i := rows[i].(revokedAt := Some(now))];
          count := count + 1;
        }
        i := i + 1;
      }
    }
  }
}
