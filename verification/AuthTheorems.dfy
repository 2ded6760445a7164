/** What the authentication protocol guarantees over every run. */
module AuthTheorems {
  import opened Options
  import opened AuthTables
  import opened AuthProtocol
  import opened AuthInvariant
  import opened Fresh

  // The state after an arbitrary interleaving, from an empty database.
  ghost function After(cfg: Config, history: seq<Event>): State {
    Run(Init(cfg), history)
  }

  lemma AfterInv(cfg: Config, history: seq<Event>)
    ensures Inv(After(cfg, history))
  {
    InitInv(cfg);
    RunInv(Init(cfg), history);
  }

  /******* Rotations *******/

  datatype Scope = OfPair(sid: SessionId, uid: UserId) | OfSession(sid: SessionId) | OfUser(uid: UserId) {
    predicate Covers(c: Claim) {
      match this
      case OfPair(sid, uid) => c.sessionId == sid && c.userId == uid
      case OfSession(sid) => c.sessionId == sid
      case OfUser(uid) => c.userId == uid
    }
  }

  // No rotation between `s` and `t` falls within the scope.
  ghost predicate NoneRotated(s: State, t: State, scope: Scope) {
    && |s.rotations| <= |t.rotations|
    && forall i | |s.rotations| <= i < |t.rotations| :: !scope.Covers(t.rotations[i])
  }

  lemma NoneRotatedTrans(s: State, m: State, t: State, scope: Scope)
    requires NoneRotated(s, m, scope) && NoneRotated(m, t, scope)
    requires m.rotations <= t.rotations
    ensures NoneRotated(s, t, scope)
  {
  }

  // A rotation event succeeds only for the current generation of a session
  // that is live for its owner, inside a refresh that found the user active.
  lemma RotationNeeds(s: State, e: Event)
    requires Inv(s)
    ensures var t := Step(s, e);
      || t.rotations == s.rotations
      || exists req <- s.requests ::
           && s.requests[req].Refresh? && s.requests[req].stage == UserOk
           && var c := s.requests[req].claim;
              && t.rotations == s.rotations + [c]
              && !Dead(s, c.sessionId, c.userId)
              && c.userId in s.db.users && s.db.users[c.userId].active
              && c in s.issued
  {
    StepChange(s, e);
    if ChangeOf(s, e).Rotate? {
      var req := e.req;
      var c := s.requests[req].claim;
      assert s.requests[req].stage == UserOk;
      assert s.issued[c] == if WasIssued(s.archive, c) then 1 else 0;
    }
  }

  lemma DeadStep(s: State, e: Event, sid: SessionId, uid: UserId)
    requires Inv(s) && Dead(s, sid, uid)
    ensures Dead(Step(s, e), sid, uid)
    ensures NoneRotated(s, Step(s, e), OfPair(sid, uid)) && s.rotations <= Step(s, e).rotations
  {
    RotationNeeds(s, e);
    StepInv(s, e);
  }

  lemma {:induction false} DeadForever(s: State, future: seq<Event>, sid: SessionId, uid: UserId)
    requires Inv(s) && Dead(s, sid, uid)
    ensures Dead(Run(s, future), sid, uid)
    ensures NoneRotated(s, Run(s, future), OfPair(sid, uid))
  {
    if future == [] {
    } else {
      var front := future[..|future| - 1];
      DeadForever(s, front, sid, uid);
      RunInv(s, front);
      DeadStep(Run(s, front), future[|future| - 1], sid, uid);
      NoneRotatedTrans(s, Run(s, front), Run(s, future), OfPair(sid, uid));
    }
  }

  // A refresh refused with InvalidRefreshTokenError is refused for good: the
  // pair never rotates again, whichever exit refused it and whatever the other
  // requests did in between.
  lemma RefusalIsFinal(cfg: Config, history: seq<Event>, req: RequestId, future: seq<Event>)
    requires var s := After(cfg, history);
      req in s.requests && s.requests[req].Refresh? && s.requests[req].stage == Refreshed(BadRefresh)
    ensures var s := After(cfg, history);
      var claim := s.requests[req].claim;
      NoneRotated(s, Run(s, future), OfPair(claim.sessionId, claim.userId))
  {
    AfterInv(cfg, history);
    var s := After(cfg, history);
    DeadForever(s, future, s.requests[req].claim.sessionId, s.requests[req].claim.userId);
  }

  // Reuse detection never revokes a session for its current token: at the
  // revoke step the presented generation is behind the stored one, and either
  // by more than one or for longer than the grace period.
  lemma ReuseIsNeverCurrent(cfg: Config, history: seq<Event>, req: RequestId)
    requires var s := After(cfg, history);
      req in s.requests && s.requests[req].Refresh? && s.requests[req].stage.Revoking?
    ensures var s := After(cfg, history);
      var claim := s.requests[req].claim;
      claim.sessionId in s.db.sessions ==>
        var row := s.db.sessions[claim.sessionId];
        && row.userId == claim.userId
        && claim.generation < row.generation
        && row.rotatedAt.Some?
        && (claim.generation + 1 < row.generation || s.now - row.rotatedAt.value > cfg.reuseGrace)
  {
    AfterInv(cfg, history);
    ConfigKept(cfg, history);
  }

  lemma ConfigKept(cfg: Config, history: seq<Event>)
    ensures After(cfg, history).cfg == cfg
  {
    InitInv(cfg);
    RunInv(Init(cfg), history);
  }

  // Rotation is linear: a session with stored generation g has had a token for
  // each of the generations 0..g issued exactly once and no other, and each of
  // 0..g-1 rotated exactly once.
  lemma RotationIsLinear(cfg: Config, history: seq<Event>, sid: SessionId, uid: UserId, generation: nat)
    requires sid in After(cfg, history).db.sessions
    ensures var s := After(cfg, history);
      var row := s.db.sessions[sid];
      && s.issued[Claim(uid, sid, generation)] == (if uid == row.userId && generation <= row.generation then 1 else 0)
      && multiset(s.rotations)[Claim(uid, sid, generation)] ==
           (if uid == row.userId && generation < row.generation then 1 else 0)
      && (row.rotatedAt.None? <==> row.generation == 0)
  {
    AfterInv(cfg, history);
    var s, c := After(cfg, history), Claim(uid, sid, generation);
    assert s.issued[c] == if WasIssued(s.archive, c) then 1 else 0;
    assert multiset(s.rotations)[c] == if WasRotated(s.archive, c) then 1 else 0;
  }

  // Over any run a stored session keeps its owner and expiry, its generation
  // only grows, once revoked it is frozen whole, and it is unrotated exactly at
  // generation 0.
  lemma SessionsOnlyEvolve(cfg: Config, history: seq<Event>, future: seq<Event>, sid: SessionId)
    requires var s := After(cfg, history); sid in s.db.sessions && sid in Run(s, future).db.sessions
    ensures var s := After(cfg, history);
      var before, after := s.db.sessions[sid], Run(s, future).db.sessions[sid];
      RowEvolves(before, after) && (after.rotatedAt.None? <==> after.generation == 0)
  {
    AfterInv(cfg, history);
    RunInv(After(cfg, history), future);
  }

  /******* Closing, resetting, logging out *******/

  lemma {:induction false} ClosedForever(s: State, future: seq<Event>, uid: UserId)
    requires Inv(s) && uid in s.db.users && !s.db.users[uid].active
    ensures var t := Run(s, future); uid in t.db.users && !t.db.users[uid].active
    ensures NoneRotated(s, Run(s, future), OfUser(uid))
  {
    if future == [] {
    } else {
      var front, e := future[..|future| - 1], future[|future| - 1];
      ClosedForever(s, front, uid);
      RunInv(s, front);
      UsersChange(Run(s, front), e, uid);
      RotationNeedsOpenAccount(Run(s, front), e, uid);
      NoneRotatedTrans(s, Run(s, front), Run(s, future), OfUser(uid));
    }
  }

  lemma RotationNeedsOpenAccount(s: State, e: Event, uid: UserId)
    requires Inv(s) && uid in s.db.users && !s.db.users[uid].active
    ensures var t := Step(s, e);
      NoneRotated(s, t, OfUser(uid)) && s.rotations <= t.rotations
  {
    RotationNeeds(s, e);
    var t := Step(s, e);
    if t.rotations != s.rotations {
      var req :| req in s.requests && s.requests[req].Refresh? && t.rotations == s.rotations + [s.requests[req].claim]
        && s.requests[req].claim.userId in s.db.users && s.db.users[s.requests[req].claim.userId].active;
      assert s.requests[req].claim.userId != uid;
    }
  }

  // Once `close_account` commits, nothing ever rotates for that user: not a
  // refresh that had already read the user as active, and not a session a
  // racing login creates afterwards.
  lemma ClosureStopsRefresh(cfg: Config, history: seq<Event>, uid: UserId, tokens: seq<TokenRef>, future: seq<Event>)
    requires uid in After(cfg, history).db.users && Genuine(cfg, tokens)
    ensures var s := After(cfg, history + [CloseCommit(uid, tokens)]);
      NoneRotated(s, Run(s, future), OfUser(uid))
  {
    AfterInv(cfg, history);
    AfterInv(cfg, history + [CloseCommit(uid, tokens)]);
    ConfigKept(cfg, history);
    RunSnoc(Init(cfg), history, CloseCommit(uid, tokens));
    ClosedForever(After(cfg, history + [CloseCommit(uid, tokens)]), future, uid);
  }

  ghost predicate AboutToReset(s: State, req: RequestId, uid: UserId) {
    && req in s.requests && s.requests[req].Follow?
    && s.requests[req].at == UserRead
    && s.requests[req].jti in s.links
    && var link := s.links[s.requests[req].jti];
       link.kind == ResetPassword && link.userId == uid && CanConsume(s.db, uid, s.requests[req].jti)
  }

  // When `reset_password` commits, every session the user then has is finished.
  lemma ResetEndsSessions(cfg: Config, history: seq<Event>, req: RequestId, uid: UserId, sid: SessionId,
                          future: seq<Event>)
    requires AboutToReset(After(cfg, history), req, uid)
    requires var s := After(cfg, history); sid in s.db.sessions && s.db.sessions[sid].userId == uid
    ensures var s := After(cfg, history + [FollowStep(req)]);
      NoneRotated(s, Run(s, future), OfSession(sid))
  {
    var s, e := After(cfg, history), FollowStep(req);
    AfterInv(cfg, history);
    AfterInv(cfg, history + [e]);
    RunSnoc(Init(cfg), history, e);
    ResetKills(s, req, uid, sid);
    OwnerlessForever(After(cfg, history + [e]), future, sid);
  }

  lemma ResetKills(s: State, req: RequestId, uid: UserId, sid: SessionId)
    requires Inv(s) && AboutToReset(s, req, uid) && sid in s.db.sessions && s.db.sessions[sid].userId == uid
    ensures var t := Step(s, FollowStep(req)); sid in t.archive && Dead(t, sid, t.archive[sid].userId)
  {
    StepInv(s, FollowStep(req));
    StepChange(s, FollowStep(req));
  }

  // A session dead for its owner is dead for everyone.
  lemma OwnerlessForever(s: State, future: seq<Event>, sid: SessionId)
    requires Inv(s) && sid in s.archive && Dead(s, sid, s.archive[sid].userId)
    ensures NoneRotated(s, Run(s, future), OfSession(sid))
  {
    var t := Run(s, future);
    RunInv(s, future);
    DeadForever(s, future, sid, s.archive[sid].userId);
    forall i | |s.rotations| <= i < |t.rotations|
      ensures t.rotations[i].sessionId != sid
    {
      DeadForever(s, future, sid, t.rotations[i].userId);
    }
  }

  lemma LogoutRow(s: State, uid: UserId, tokens: seq<TokenRef>, sid: SessionId)
    requires Inv(s) && Genuine(s.cfg, tokens) && sid in s.db.sessions
    ensures var t := Step(s, LogoutCommit(uid, tokens, Some(sid)));
      && t.db.users == s.db.users && t.now == s.now
      && sid in t.db.sessions
      && t.db.sessions[sid] ==
         if s.db.sessions[sid].userId == uid then RevokedRow(s.db.sessions[sid], s.now) else s.db.sessions[sid]
  {
  }

  // Logging out of a live session of an account in good standing ends it for
  // good exactly when the session belongs to the caller: `stage_revoke` matches
  // the owner too, so a foreign session named in the cookie lives on.
  lemma LogoutEndsOwnSessionOnly(cfg: Config, history: seq<Event>, uid: UserId, tokens: seq<TokenRef>, sid: SessionId)
    requires Genuine(cfg, tokens)
    requires var s := After(cfg, history);
      && sid in s.db.sessions
      && Live(s.db.sessions[sid], s.db.sessions[sid].userId, s.now)
      && MayRefresh(s.db.users, s.db.sessions[sid].userId)
    ensures var s := After(cfg, history);
      var t := After(cfg, history + [LogoutCommit(uid, tokens, Some(sid))]);
      (forall future: seq<Event> :: NoneRotated(t, Run(t, future), OfSession(sid)))
        <==> s.db.sessions[sid].userId == uid
  {
    var s, e := After(cfg, history), LogoutCommit(uid, tokens, Some(sid));
    var t := After(cfg, history + [e]);
    AfterInv(cfg, history);
    AfterInv(cfg, history + [e]);
    ConfigKept(cfg, history);
    RunSnoc(Init(cfg), history, e);
    LogoutRow(s, uid, tokens, sid);
    if s.db.sessions[sid].userId == uid {
      forall future: seq<Event> {
        OwnerlessForever(t, future, sid);
      }
    } else {
      var future := LiveSessionRotates(t, sid);
      assert OfSession(sid).Covers(Run(t, future).rotations[|t.rotations|]);
    }
  }

  // A refresh with an issued token of a user in good standing gets as far as
  // its rotation.
  lemma RefreshReachesRotation(s: State, req: RequestId, claim: Claim)
    requires req !in s.requests && claim in s.issued && MayRefresh(s.db.users, claim.userId)
    ensures Run(s, [BeginRefresh(req, claim), RefreshStep(req)])
         == At(At(s, req, Refresh(claim, Begun)), req, Refresh(claim, UserOk))
  {
    RunTwo(s, BeginRefresh(req, claim), RefreshStep(req));
    RefreshBegins(s, req, claim);
    UserCheckPasses(At(s, req, Refresh(claim, Begun)), req, claim);
  }

  lemma RefreshBegins(s: State, req: RequestId, claim: Claim)
    requires req !in s.requests && claim in s.issued
    ensures Step(s, BeginRefresh(req, claim)) == At(s, req, Refresh(claim, Begun))
  {
  }

  lemma UserCheckPasses(s: State, req: RequestId, claim: Claim)
    requires req in s.requests && s.requests[req] == Refresh(claim, Begun) && MayRefresh(s.db.users, claim.userId)
    ensures Step(s, RefreshStep(req)) == At(s, req, Refresh(claim, UserOk))
  {
  }

  lemma RunTwo(s: State, e1: Event, e2: Event)
    ensures Run(s, [e1, e2]) == Step(Step(s, e1), e2)
  {
    assert [] + [e1] == [e1] && [e1] + [e2] == [e1, e2];
    RunSnoc(s, [], e1);
    RunSnoc(s, [e1], e2);
  }

  // A live session of a user in good standing can always rotate next.
  lemma LiveSessionRotates(s: State, sid: SessionId) returns (future: seq<Event>)
    requires Inv(s) && sid in s.db.sessions
    requires var row := s.db.sessions[sid]; Live(row, row.userId, s.now) && MayRefresh(s.db.users, row.userId)
    ensures var row := s.db.sessions[sid];
      Run(s, future).rotations == s.rotations + [Claim(row.userId, sid, row.generation)]
  {
    var row := s.db.sessions[sid];
    var claim := Claim(row.userId, sid, row.generation);
    assert s.issued[claim] == if WasIssued(s.archive, claim) then 1 else 0;
    var req := UpperBound(s.requests.Keys);
    RefreshReachesRotation(s, req, claim);
    future := [BeginRefresh(req, claim), RefreshStep(req)] + [RefreshStep(req)];
    RunSnoc(s, [BeginRefresh(req, claim), RefreshStep(req)], RefreshStep(req));
    RotationPasses(At(At(s, req, Refresh(claim, Begun)), req, Refresh(claim, UserOk)), req, claim);
  }

  lemma RotationPasses(s: State, req: RequestId, claim: Claim)
    requires req in s.requests && s.requests[req] == Refresh(claim, UserOk)
    requires CanRotate(s.db.sessions, claim.sessionId, claim.userId, claim.generation, s.now)
    ensures Step(s, RefreshStep(req)).rotations == s.rotations + [claim]
  {
  }
}
