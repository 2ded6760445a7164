/**
  The authentication service's multi-step calls, with everyone else's steps in
  between.  Each call is shown to be one request of the transition system, so
  every theorem about runs is a theorem about these methods.
 */
module AuthService {
  import opened Options
  import opened AuthTables
  import opened AuthProtocol
  import opened AuthInvariant
  import opened AuthRepositories
  import opened Interleaving

  /******* A request among other requests *******/

  // The events of request `req`.
  predicate Mine(e: Event, req: RequestId) {
    match e
    case LoginAccepted(r, _) => r == req
    case LoginCreate(r, _) => r == req
    case BeginRefresh(r, _) => r == req
    case RefreshStep(r) => r == req
    case BeginFollow(r, _, _, _) => r == req
    case FollowStep(r) => r == req
    case _ => false
  }

  ghost predicate NotMine(pauses: Pauses<Event>, req: RequestId) {
    forall i: nat, e | e in pauses(i) :: !Mine(e, req)
  }

  lemma InterleaveNext(s: State, pauses: Pauses<Event>, own: seq<Event>, e: Event)
    ensures Run(s, Interleave(pauses, own + [e])) == Step(Run(Run(s, Interleave(pauses, own)), pauses(|own|)), e)
  {
    InterleaveSnoc(pauses, own, e);
    RunConcat(s, Interleave(pauses, own), pauses(|own|) + [e]);
    RunSnoc(Run(s, Interleave(pauses, own)), pauses(|own|), e);
  }

  ghost predicate SameStanding(s: State, t: State, req: RequestId) {
    && (req in t.requests <==> req in s.requests) && (req in s.requests ==> t.requests[req] == s.requests[req])
    && forall jti <- s.links :: jti in t.links && t.links[jti] == s.links[jti]
  }

  lemma OtherLeaves(s: State, e: Event, req: RequestId)
    requires !Mine(e, req)
    ensures SameStanding(s, Step(s, e), req)
  {
    OtherKeepsLinks(s, e);
    OtherKeepsRequest(s, e, req);
  }

  lemma OtherKeepsLinks(s: State, e: Event)
    ensures var t := Step(s, e); forall jti <- s.links :: jti in t.links && t.links[jti] == s.links[jti]
  {
    forall jti: Jti {
      LinksGrow(s, e, jti);
    }
  }

  lemma OtherKeepsRequest(s: State, e: Event, req: RequestId)
    requires !Mine(e, req)
    ensures var t := Step(s, e);
      (req in t.requests <==> req in s.requests) && (req in s.requests ==> t.requests[req] == s.requests[req])
  {
    match e
    case RefreshStep(r) =>
      if r in s.requests && s.requests[r].Refresh? {
        RefreshFrame(s, r, s.requests[r].claim, s.requests[r].stage);
      }
    case FollowStep(r) =>
      if r in s.requests && s.requests[r].Follow? && s.requests[r].jti in s.links {
        FollowFrame(s, r, s.requests[r].jti, s.requests[r].hash, s.requests[r].at);
      }
    case _ =>
  }

  // Events about other requests neither begin nor move this one.
  lemma {:induction false} OthersLeave(s: State, others: seq<Event>, req: RequestId)
    requires forall e <- others :: !Mine(e, req)
    ensures SameStanding(s, Run(s, others), req)
  {
    if others != [] {
      OthersLeave(s, others[..|others| - 1], req);
      OtherLeaves(Run(s, others[..|others| - 1]), others[|others| - 1], req);
    }
  }

  /******* The service *******/

  class AuthServer {
    const db: Database
    const account: AccountRepository
    const cfg: Config
    var now: Time
    var requests: map<RequestId, Request>
    var issued: multiset<Claim>
    var links: map<Jti, Link>
    var archive: Sessions
    var rotations: seq<Claim>
    var consumed: multiset<Jti>
    var purged: multiset<Jti>

    constructor (cfg: Config)
      ensures Valid() && Current() == Init(cfg)
    {
      this.cfg := cfg;
      var session := new Database(Init(cfg).db);
      db := session;
      account := new AccountRepository(session);
      now, requests, issued, links := 0, map[], multiset{}, map[];
      archive, rotations, consumed, purged := map[], [], multiset{}, multiset{};
    }

    ghost predicate Valid()
      reads this, db
    {
      account.Valid() && account.db == db && db.Clean()
    }

    ghost function Current(): State
      reads this, db
    {
      State(cfg, now, db.committed, requests, issued, links, archive, rotations, consumed, purged)
    }

    // Everyone else takes a step.
    method Other(e: Event)
      requires Valid()
      modifies this, db
      ensures Valid() && Current() == Step(old(Current()), e)
    {
      var t := Step(State(cfg, now, db.committed, requests, issued, links, archive, rotations, consumed, purged), e);
      StepKeepsConfig(Current(), e);
      db.committed, db.working := t.db, t.db;
      now, requests, issued, links := t.now, t.requests, t.issued, t.links;
      archive, rotations, consumed, purged := t.archive, t.rotations, t.consumed, t.purged;
    }

    method Others(events: seq<Event>)
      requires Valid()
      modifies this, db
      ensures Valid() && Current() == Run(old(Current()), events)
    {
      ghost var s := Current();
      for i := 0 to |events|
        invariant Valid() && Current() == Run(s, events[..i])
      {
        Other(events[i]);
        assert events[..i + 1][..i] == events[..i];
      }
      assert events[..|events|] == events;
    }

    // The request has taken the steps `own`, each after its pause.
    ghost predicate Progress(s0: State, pauses: Pauses<Event>, own: seq<Event>)
      reads this, db
    {
      Valid() && Current() == Run(s0, Interleave(pauses, own))
    }

    // The others move before the i-th step of the request.
    method Pause(req: RequestId, pauses: Pauses<Event>, ghost own: seq<Event>, ghost s0: State, i: nat)
      requires Progress(s0, pauses, own) && i == |own| && NotMine(pauses, req)
      modifies this, db
      ensures Valid() && SameStanding(old(Current()), Current(), req)
      ensures Current() == Run(Run(s0, Interleave(pauses, own)), pauses(i))
    {
      OthersLeave(Current(), pauses(i), req);
      Others(pauses(i));
    }

    // Note where the request stands.
    method Record(req: RequestId, claim: Claim, stage: RefreshStage)
      modifies this`requests
      ensures requests == old(requests)[req := Request.Refresh(claim, stage)]
    {
      requests := requests[req := Request.Refresh(claim, stage)];
    }

    ghost predicate Stands(req: RequestId, claim: Claim, stage: RefreshStage)
      reads this
    {
      req in requests && requests[req] == Request.Refresh(claim, stage)
    }

    // `authenticate` on the user it finds; the password's hash is compared elsewhere.
    method Authenticate(req: RequestId, uid: UserId, passwordOk: bool) returns (accepted: bool)
      requires Valid() && req !in requests
      modifies this, db
      ensures Valid() && accepted == (passwordOk && MayRefresh(db.committed.users, uid))
      ensures Current() == if accepted then Step(old(Current()), LoginAccepted(req, uid)) else old(Current())
    {
      var user := account.users.GetConsistent(uid);
      accepted := user.Some? && passwordOk && user.value.active && user.value.verified;
      if accepted {
        requests := requests[req := Request.Login(uid)];
      }
    }

    method CreateSession(req: RequestId, uid: UserId, sid: SessionId) returns (row: Session)
      requires Valid() && req in requests && requests[req] == Request.Login(uid) && sid !in archive
      modifies this, db
      ensures Valid() && Current() == Step(old(Current()), LoginCreate(req, sid))
      ensures row == Session(uid, 0, now + cfg.sessionTtl, None, None)
    {
      row := account.sessions.Create(sid, uid, now + cfg.sessionTtl);
      archive := archive + db.committed.sessions;
      issued := issued + multiset{Claim(uid, sid, 0)};
      requests := requests[req := LoggedIn(sid)];
    }

    // `AuthService.login`; `sid` is an id nobody has used when the session is created.
    method Login(req: RequestId, uid: UserId, passwordOk: bool, sid: SessionId, pauses: Pauses<Event>)
      returns (session: Option<Session>)
      requires Valid() && req !in requests && NotMine(pauses, req)
      requires sid !in Run(Run(Current(), Interleave(pauses, [LoginAccepted(req, uid)])), pauses(1)).archive
      modifies this, db
      ensures session.Some? <==> passwordOk && MayRefresh(Run(old(Current()), pauses(0)).db.users, uid)
      ensures session.None? ==> Valid() && Current() == Run(old(Current()), pauses(0))
      ensures session.Some? ==>
        Progress(old(Current()), pauses, [LoginAccepted(req, uid), LoginCreate(req, sid)])
      ensures session.Some? ==> session.value.userId == uid && session.value.generation == 0
    {
      ghost var s0 := Current();
      ghost var accept := LoginAccepted(req, uid);
      assert [] + [accept] == [accept] && [accept] + [LoginCreate(req, sid)] == [accept, LoginCreate(req, sid)];
      InterleaveNext(s0, pauses, [], accept);
      InterleaveNext(s0, pauses, [accept], LoginCreate(req, sid));
      Pause(req, pauses, [], s0, 0);
      var accepted := Authenticate(req, uid, passwordOk);
      if !accepted {
        return None;
      }
      Pause(req, pauses, [accept], s0, 1);
      var row := CreateSession(req, uid, sid);
      return Some(row);
    }

    method CheckUser(req: RequestId, claim: Claim) returns (ok: bool)
      requires Valid() && Stands(req, claim, Begun)
      modifies this, db
      ensures Valid() && Current() == AdvanceRefresh(old(Current()), req, claim, Begun)
      ensures Stands(req, claim, if ok then UserOk else Refreshed(BadCredentials))
    {
      var user := account.users.GetConsistent(claim.userId);
      ok := user.Some? && user.value.active && user.value.verified;
      Record(req, claim, if ok then UserOk else Refreshed(BadCredentials));
    }

    method TryRotate(req: RequestId, claim: Claim) returns (rotated: Option<Session>)
      requires Valid() && Stands(req, claim, UserOk)
      modifies this, db
      ensures Valid() && Current() == AdvanceRefresh(old(Current()), req, claim, UserOk)
      ensures Stands(req, claim, if rotated.Some? then Refreshed(RotatedTo(rotated.value)) else Missed)
    {
      rotated := account.sessions.Rotate(claim.sessionId, claim.userId, claim.generation, now);
      if rotated.Some? {
        archive := archive + db.committed.sessions;
        issued := issued + multiset{claim.(generation := rotated.value.generation)};
        rotations := rotations + [claim];
        Record(req, claim, Refreshed(RotatedTo(rotated.value)));
      } else {
        Record(req, claim, Missed);
      }
    }

    method Fetch(req: RequestId, claim: Claim) returns (current: Option<Session>)
      requires Valid() && Stands(req, claim, Missed)
      modifies this, db
      ensures Valid() && Current() == AdvanceRefresh(old(Current()), req, claim, Missed)
      ensures Stands(req, claim, Fetched(current))
    {
      current := account.sessions.Get(claim.sessionId);
      Record(req, claim, Fetched(current));
    }

    method JudgeLive(req: RequestId, claim: Claim, found: Option<Session>) returns (live: bool)
      requires Valid() && Stands(req, claim, Fetched(found))
      modifies this, db
      ensures Valid() && Current() == AdvanceRefresh(old(Current()), req, claim, Fetched(found))
      ensures live ==> found.Some?
      ensures Stands(req, claim, if live then JudgedLive(found.value) else Refreshed(BadRefresh))
    {
      live := found.Some? && Live(found.value, claim.userId, now);
      Record(req, claim, if live then JudgedLive(found.value) else Refreshed(BadRefresh));
    }

    method JudgeGrace(req: RequestId, claim: Claim, row: Session) returns (justRotated: bool)
      requires Valid() && Stands(req, claim, JudgedLive(row))
      modifies this, db
      ensures Valid() && Current() == AdvanceRefresh(old(Current()), req, claim, JudgedLive(row))
      ensures Stands(req, claim, if justRotated then Refreshed(RetryLater) else Revoking(row))
    {
      justRotated := JustRotatedFrom(row, claim.generation, now, cfg.reuseGrace);
      Record(req, claim, if justRotated then Refreshed(RetryLater) else Revoking(row));
    }

    method Revoke(req: RequestId, claim: Claim, row: Session)
      requires Valid() && Stands(req, claim, Revoking(row))
      modifies this, db
      ensures Valid() && Current() == AdvanceRefresh(old(Current()), req, claim, Revoking(row))
      ensures Stands(req, claim, Refreshed(BadRefresh))
    {
      account.sessions.Revoke(claim.sessionId, now);
      archive := archive + db.committed.sessions;
      Record(req, claim, Refreshed(BadRefresh));
    }

    // `AuthService.refresh`.
    method Refresh(req: RequestId, claim: Claim, pauses: Pauses<Event>)
      returns (outcome: RefreshOutcome, ghost steps: nat)
      requires Valid() && NotMine(pauses, req)
      requires Stands(req, claim, Begun)
      modifies this, db
      ensures steps <= 6 && Progress(old(Current()), pauses, Repeated(RefreshStep(req), steps))
      ensures Stands(req, claim, Refreshed(outcome))
    {
      ghost var s0 := Current();
      Pause(req, pauses, Repeated(RefreshStep(req), 0), s0, 0);
      TookStep(s0, req, claim, Begun, pauses, 0, Current());
      var ok := CheckUser(req, claim);
      if !ok {
        return BadCredentials, 1;
      }

      outcome, steps := RotateOrDiagnose(req, claim, pauses, 1, s0);
    }

    // The user is in good standing: the rotation decides.
    method RotateOrDiagnose(req: RequestId, claim: Claim, pauses: Pauses<Event>, k: nat, ghost s0: State)
      returns (outcome: RefreshOutcome, ghost steps: nat)
      requires Progress(s0, pauses, Repeated(RefreshStep(req), k)) && NotMine(pauses, req)
      requires Stands(req, claim, UserOk)
      modifies this, db
      ensures k <= steps <= k + 5 && Progress(s0, pauses, Repeated(RefreshStep(req), steps))
      ensures Stands(req, claim, Refreshed(outcome))
    {
      Pause(req, pauses, Repeated(RefreshStep(req), k), s0, k);
      TookStep(s0, req, claim, UserOk, pauses, k, Current());
      var rotated := TryRotate(req, claim);
      if rotated.Some? {
        return RotatedTo(rotated.value), k + 1;
      }
      outcome, steps := Diagnose(req, claim, pauses, k + 1, s0);
    }

    // The exits of a refresh whose rotation missed.
    method Diagnose(req: RequestId, claim: Claim, pauses: Pauses<Event>, k: nat, ghost s0: State)
      returns (outcome: RefreshOutcome, ghost steps: nat)
      requires Progress(s0, pauses, Repeated(RefreshStep(req), k)) && NotMine(pauses, req)
      requires Stands(req, claim, Missed)
      modifies this, db
      ensures k <= steps <= k + 4 && Progress(s0, pauses, Repeated(RefreshStep(req), steps))
      ensures Stands(req, claim, Refreshed(outcome))
    {
      Pause(req, pauses, Repeated(RefreshStep(req), k), s0, k);
      TookStep(s0, req, claim, Missed, pauses, k, Current());
      var current := Fetch(req, claim);

      Pause(req, pauses, Repeated(RefreshStep(req), k + 1), s0, k + 1);
      TookStep(s0, req, claim, Fetched(current), pauses, k + 1, Current());
      var live := JudgeLive(req, claim, current);
      if !live {
        return BadRefresh, k + 2;
      }
      outcome, steps := SettleMiss(req, claim, current.value, pauses, k + 2, s0);
    }

    // The session is live, so the presented generation is behind it.
    method SettleMiss(req: RequestId, claim: Claim, row: Session, pauses: Pauses<Event>, k: nat, ghost s0: State)
      returns (outcome: RefreshOutcome, ghost steps: nat)
      requires Progress(s0, pauses, Repeated(RefreshStep(req), k)) && NotMine(pauses, req)
      requires Stands(req, claim, JudgedLive(row))
      modifies this, db
      ensures k <= steps <= k + 2 && Progress(s0, pauses, Repeated(RefreshStep(req), steps))
      ensures Stands(req, claim, Refreshed(outcome))
    {
      Pause(req, pauses, Repeated(RefreshStep(req), k), s0, k);
      TookStep(s0, req, claim, JudgedLive(row), pauses, k, Current());
      var justRotated := JudgeGrace(req, claim, row);
      if justRotated {
        return RetryLater, k + 1;
      }

      Pause(req, pauses, Repeated(RefreshStep(req), k + 1), s0, k + 1);
      TookStep(s0, req, claim, Revoking(row), pauses, k + 1, Current());
      Revoke(req, claim, row);
      return BadRefresh, k + 2;
    }

    /******* One-time links *******/

    ghost predicate Follows(req: RequestId, jti: Jti, hash: int, at: LinkStage)
      reads this
    {
      req in requests && requests[req] == Follow(jti, hash, at) && jti in links
    }

    method CheckUnused(req: RequestId, jti: Jti, hash: int, pauses: Pauses<Event>, i: nat, ghost s0: State)
      returns (unused: bool)
      requires Progress(s0, pauses, Repeated(FollowStep(req), i)) && NotMine(pauses, req)
      requires Follows(req, jti, hash, Decoded)
      modifies this, db
      ensures Progress(s0, pauses, Repeated(FollowStep(req), i + 1))
      ensures Follows(req, jti, hash, if unused then Unused else Followed(InvalidLink))
    {
      Pause(req, pauses, Repeated(FollowStep(req), i), s0, i);
      TookTurn(s0, req, jti, hash, Decoded, pauses, i, Current());
      var used := account.tokens.Contains(jti, now);
      unused := !used;
      requests := requests[req := Follow(jti, hash, if unused then Unused else Followed(InvalidLink))];
    }

    // `_user_for_token` and the tests on the user that follow it.
    method CheckPending(req: RequestId, jti: Jti, hash: int, pauses: Pauses<Event>, i: nat, ghost s0: State)
      returns (refused: Option<LinkOutcome>)
      requires Progress(s0, pauses, Repeated(FollowStep(req), i)) && NotMine(pauses, req)
      requires Follows(req, jti, hash, Unused)
      modifies this, db
      ensures Progress(s0, pauses, Repeated(FollowStep(req), i + 1))
      ensures Follows(req, jti, hash, if refused.Some? then Followed(refused.value) else UserRead)
      ensures refused != Some(Consumed)
    {
      Pause(req, pauses, Repeated(FollowStep(req), i), s0, i);
      TookTurn(s0, req, jti, hash, Unused, pauses, i, Current());
      var link := links[jti];
      var user := account.users.GetConsistent(link.userId);
      if user.None? || (link.kind.ResetPassword? && !user.value.active) {
        refused := Some(NoSuchUser);
      } else if Pending(user.value, link.kind) != Some(jti) {
        refused := Some(InvalidLink);
      } else {
        refused := None;
      }
      requests := requests[req := Follow(jti, hash, if refused.Some? then Followed(refused.value) else UserRead)];
    }

    // The request stands before its commit, with everything as the others left it.
    ghost predicate Halted(s0: State, req: RequestId, jti: Jti, hash: int, pauses: Pauses<Event>, k: nat)
      reads this, db
    {
      && Valid() && Follows(req, jti, hash, UserRead)
      && Current() == Run(Run(s0, Interleave(pauses, Repeated(FollowStep(req), k))), pauses(k))
    }

    // The request has ended after `steps` steps, or it has raised before its commit.
    ghost predicate LinkEnds(s0: State, req: RequestId, jti: Jti, hash: int, commitFails: bool,
                             pauses: Pauses<Event>, r: Result<LinkOutcome, DbError>, steps: nat)
      reads this, db
    {
      && (commitFails ==> r != Ok(Consumed))
      && match r
         case Ok(outcome) =>
           Progress(s0, pauses, Repeated(FollowStep(req), steps)) && Follows(req, jti, hash, Followed(outcome))
         case Err(error) => commitFails && error == CommitFailed && Halted(s0, req, jti, hash, pauses, steps)
    }

    method CommitLink(req: RequestId, jti: Jti, hash: int, commitFails: bool, pauses: Pauses<Event>, i: nat,
                      ghost s0: State)
      returns (r: Result<LinkOutcome, DbError>, ghost steps: nat)
      requires Progress(s0, pauses, Repeated(FollowStep(req), i)) && NotMine(pauses, req)
      requires Follows(req, jti, hash, UserRead)
      modifies this, db
      ensures LinkEnds(s0, req, jti, hash, commitFails, pauses, r, steps) && steps == if r.Ok? then i + 1 else i
    {
      Pause(req, pauses, Repeated(FollowStep(req), i), s0, i);
      TookTurn(s0, req, jti, hash, UserRead, pauses, i, Current());
      r := CommitNow(req, jti, hash, commitFails);
      steps := if r.Ok? then i + 1 else i;
    }

    // A conflict is an invalid link; a commit that fails raises and changes nothing.
    method CommitNow(req: RequestId, jti: Jti, hash: int, commitFails: bool) returns (r: Result<LinkOutcome, DbError>)
      requires Valid() && Follows(req, jti, hash, UserRead)
      modifies this, db
      ensures Valid()
      ensures r.Err? <==> commitFails && CanConsume(old(db.committed), old(links)[jti].userId, jti)
      ensures r.Err? ==> r.error == CommitFailed && Current() == old(Current())
      ensures r.Ok? ==> Current() == AdvanceFollow(old(Current()), req, jti, hash, UserRead)
      ensures r.Ok? ==> Follows(req, jti, hash, Followed(r.value))
      ensures r == Ok(Consumed) ==> CanConsume(old(db.committed), old(links)[jti].userId, jti)
    {
      var link := links[jti];
      var done := account.ConsumeLink(link.kind, link.userId, hash, TokenRef(jti, link.expiresAt), now, commitFails);
      match done {
        case Ok(_) =>
          r := Ok(Consumed);
          archive := archive + db.committed.sessions;
          consumed := consumed + multiset{jti};
        case Err(EntityNotFound) => r := Ok(NoSuchUser);
        case Err(Conflict) => r := Ok(InvalidLink);
        case Err(CommitFailed) => return Err(CommitFailed);
      }
      requests := requests[req := Follow(jti, hash, Followed(r.value))];
    }

    // `verify_email` and `reset_password`, after the token was decoded.
    method FollowLink(req: RequestId, jti: Jti, hash: int, commitFails: bool, pauses: Pauses<Event>)
      returns (r: Result<LinkOutcome, DbError>, ghost steps: nat)
      requires Valid() && NotMine(pauses, req)
      requires Follows(req, jti, hash, Decoded)
      modifies this, db
      ensures LinkEnds(old(Current()), req, jti, hash, commitFails, pauses, r, steps) && steps <= 3
    {
      ghost var s0 := Current();
      var unused := CheckUnused(req, jti, hash, pauses, 0, s0);
      if unused {
        r, steps := FollowUnused(req, jti, hash, commitFails, pauses, 1, s0);
      } else {
        r, steps := Ok(InvalidLink), 1;
      }
    }

    // The rest of a link request whose token was not used yet.
    method FollowUnused(req: RequestId, jti: Jti, hash: int, commitFails: bool, pauses: Pauses<Event>, k: nat,
                        ghost s0: State)
      returns (r: Result<LinkOutcome, DbError>, ghost steps: nat)
      requires Progress(s0, pauses, Repeated(FollowStep(req), k)) && NotMine(pauses, req)
      requires Follows(req, jti, hash, Unused)
      modifies this, db
      ensures LinkEnds(s0, req, jti, hash, commitFails, pauses, r, steps) && k <= steps <= k + 2
    {
      var refused := CheckPending(req, jti, hash, pauses, k, s0);
      if refused.None? {
        r, steps := CommitLink(req, jti, hash, commitFails, pauses, k + 1, s0);
      } else {
        r, steps := Ok(refused.value), k + 1;
      }
    }
  }

  lemma StepKeepsConfig(s: State, e: Event)
    ensures Step(s, e).cfg == s.cfg
  {
    StepEffect(s, e);
  }

  lemma AdvancesRefresh(s: State, req: RequestId, claim: Claim, stage: RefreshStage)
    requires req in s.requests && s.requests[req] == Request.Refresh(claim, stage)
    ensures Step(s, RefreshStep(req)) == AdvanceRefresh(s, req, claim, stage)
  {
  }

  lemma AdvancesLink(s: State, req: RequestId, jti: Jti, hash: int, at: LinkStage)
    requires req in s.requests && s.requests[req] == Follow(jti, hash, at) && jti in s.links
    ensures Step(s, FollowStep(req)) == AdvanceFollow(s, req, jti, hash, at)
  {
  }

  // One own step of a refresh after a pause.
  lemma TookStep(s0: State, req: RequestId, claim: Claim, stage: RefreshStage, pauses: Pauses<Event>, i: nat, s: State)
    requires s == Run(Run(s0, Interleave(pauses, Repeated(RefreshStep(req), i))), pauses(i))
    requires req in s.requests && s.requests[req] == Request.Refresh(claim, stage)
    ensures Run(s0, Interleave(pauses, Repeated(RefreshStep(req), i + 1))) == AdvanceRefresh(s, req, claim, stage)
  {
    InterleaveNext(s0, pauses, Repeated(RefreshStep(req), i), RefreshStep(req));
    AdvancesRefresh(s, req, claim, stage);
  }

  // One own step of a link request after a pause.
  lemma TookTurn(s0: State, req: RequestId, jti: Jti, hash: int, at: LinkStage, pauses: Pauses<Event>, i: nat, s: State)
    requires s == Run(Run(s0, Interleave(pauses, Repeated(FollowStep(req), i))), pauses(i))
    requires req in s.requests && s.requests[req] == Follow(jti, hash, at) && jti in s.links
    ensures Run(s0, Interleave(pauses, Repeated(FollowStep(req), i + 1))) == AdvanceFollow(s, req, jti, hash, at)
  {
    InterleaveNext(s0, pauses, Repeated(FollowStep(req), i), FollowStep(req));
    AdvancesLink(s, req, jti, hash, at);
  }
}
