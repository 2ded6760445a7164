/**
  The authentication service as a transition system.  A request is a program
  counter; one event advances one request by one repository call (or clock
  reading), so a sequence of events is an interleaving of any number of
  concurrent logins, refreshes, logouts, closures, one-time links and purges.
  A request that is never advanced again has crashed.
 */
module AuthProtocol {
  import opened Options
  import opened AuthTables

  type RequestId = nat

  // The claims of a refresh token: `sub`, `sid` and `gen`.
  datatype Claim = Claim(userId: UserId, sessionId: SessionId, generation: nat)

  datatype RefreshOutcome =
    | RotatedTo(row: Session)   // a new token is issued
    | BadCredentials            // InvalidCredentialsError
    | BadRefresh                // InvalidRefreshTokenError
    | RetryLater                // ConflictError

  datatype RefreshStage =
    | Begun
    | UserOk
    | Missed
    | Fetched(found: Option<Session>)
    | JudgedLive(row: Session)
    | Revoking(row: Session)
    | Refreshed(outcome: RefreshOutcome)

  datatype LinkOutcome = Consumed | InvalidLink | NoSuchUser

  datatype LinkStage = Decoded | Unused | UserRead | Followed(outcome: LinkOutcome)

  datatype Request =
    | Login(uid: UserId)
    | LoggedIn(sid: SessionId)
    | Refresh(claim: Claim, stage: RefreshStage)
    | Follow(jti: Jti, hash: int, at: LinkStage)

  // What an issued one-time token says.
  datatype Link = Link(kind: LinkKind, userId: UserId, expiresAt: Time)

  // `expiryOf` gives the `exp` claim each session token was minted with.
  datatype Config = Config(sessionTtl: int, reuseGrace: int, expiryOf: nat -> Time)

  datatype State = State(
    cfg: Config,
    now: Time,
    db: Tables,
    requests: map<RequestId, Request>,
    issued: multiset<Claim>,           // refresh tokens handed out so far
    links: map<Jti, Link>,             // one-time tokens handed out so far
    // history
    archive: Sessions,                 // every session ever created, as last stored
    rotations: seq<Claim>,             // successful rotations, by the claim presented
    consumed: multiset<Jti>,           // committed uses of one-time links
    purged: multiset<Jti>)             // rows deleted from revoked_tokens

  datatype Event =
    | Tick(dt: nat)
    | SignUp(uid: UserId, hash: int, n: nat)
    | ChangePassword(uid: UserId, hash: int)
    | LoginAccepted(req: RequestId, uid: UserId)
    | LoginCreate(req: RequestId, sid: SessionId)
    | BeginRefresh(req: RequestId, claim: Claim)
    | RefreshStep(req: RequestId)
    | LogoutCommit(uid: UserId, tokens: seq<TokenRef>, session: Option<SessionId>)
    | CloseCommit(uid: UserId, tokens: seq<TokenRef>)
    | SendLink(kind: LinkKind, uid: UserId, n: nat)
    | BeginFollow(req: RequestId, expected: LinkKind, jti: Jti, hash: int)
    | FollowStep(req: RequestId)
    | PurgeSessionRows
    | PurgeTokenRows

  function Init(cfg: Config): State {
    State(cfg, 0, Tables(map[], map[], map[], []), map[], multiset{}, map[], map[], [], multiset{}, multiset{})
  }

  /******* Steps *******/

  // Install a new sessions table; the archive remembers the rows it holds.
  function WithSessions(s: State, sessions: Sessions): State {
    s.(db := s.db.(sessions := sessions), archive := s.archive + sessions)
  }

  function WithDb(s: State, db: Tables): State {
    s.(db := db, archive := s.archive + db.sessions)
  }

  function At(s: State, req: RequestId, r: Request): State {
    s.(requests := s.requests[req := r])
  }

  predicate MayRefresh(users: map<UserId, User>, uid: UserId) {
    uid in users && users[uid].active && users[uid].verified
  }

  function Lookup(sessions: Sessions, sid: SessionId): Option<Session> {
    if sid in sessions then Some(sessions[sid]) else None
  }

  // `AuthService.refresh`, one repository call or clock reading at a time.
  function AdvanceRefresh(s: State, req: RequestId, claim: Claim, stage: RefreshStage): State {
    var sid := claim.sessionId;
    match stage
    case Begun =>
      At(s, req, Refresh(claim, if MayRefresh(s.db.users, claim.userId) then UserOk else Refreshed(BadCredentials)))
    case UserOk =>
      if CanRotate(s.db.sessions, sid, claim.userId, claim.generation, s.now) then
        var row := Rotated(s.db.sessions[sid], s.now);
        At(WithSessions(s, s.db.sessions[sid := row]).(
             issued := s.issued + multiset{claim.(generation := claim.generation + 1)},
             rotations := s.rotations + [claim]),
           req, Refresh(claim, Refreshed(RotatedTo(row))))
      else
        At(s, req, Refresh(claim, Missed))
    case Missed =>
      At(s, req, Refresh(claim, Fetched(Lookup(s.db.sessions, sid))))
    case Fetched(found) =>
      At(s, req, Refresh(claim,
        if found.Some? && Live(found.value, claim.userId, s.now) then JudgedLive(found.value)
        else Refreshed(BadRefresh)))
    case JudgedLive(row) =>
      At(s, req, Refresh(claim,
        if JustRotatedFrom(row, claim.generation, s.now, s.cfg.reuseGrace) then Refreshed(RetryLater)
        else Revoking(row)))
    case Revoking(row) =>
      At(WithSessions(s, RevokeWhere(s.db.sessions, ById(sid), s.now)), req, Refresh(claim, Refreshed(BadRefresh)))
    case Refreshed(_) => s
  }

  // `_decode` (after the signature and `exp` were checked), `_user_for_token`,
  // and the committing transaction.
  function AdvanceFollow(s: State, req: RequestId, jti: Jti, hash: int, stage: LinkStage): State
    requires jti in s.links
  {
    var link := s.links[jti];
    match stage
    case Decoded =>
      At(s, req, Follow(jti, hash, if Exists(s.db.revoked, jti, s.now) then Followed(InvalidLink) else Unused))
    case Unused =>
      At(s, req, Follow(jti, hash,
        if link.userId !in s.db.users then Followed(NoSuchUser)
        else if link.kind.ResetPassword? && !s.db.users[link.userId].active then Followed(NoSuchUser)
        else if Pending(s.db.users[link.userId], link.kind) != Some(jti) then Followed(InvalidLink)
        else UserRead))
    case UserRead =>
      if CanConsume(s.db, link.userId, jti) then
        At(WithDb(s, Consume(s.db, link.kind, link.userId, hash, TokenRef(jti, link.expiresAt), s.now))
             .(consumed := s.consumed + multiset{jti}),
           req, Follow(jti, hash, Followed(Consumed)))
      else
        At(s, req, Follow(jti, hash, Followed(if link.userId in s.db.users then InvalidLink else NoSuchUser)))
    case Followed(_) => s
  }

  // A JWT carries whole seconds.
  function LinkExpiry(kind: LinkKind, now: Time): Time {
    var lifetime := match kind case VerifyEmail => 24 * 60 * 60 case ResetPassword => 15 * 60;
    (now + lifetime * 1_000_000) / 1_000_000 * 1_000_000
  }

  // Only tokens whose signature verified reach a logout or a closure, so each
  // carries its own expiry.
  predicate Genuine(cfg: Config, tokens: seq<TokenRef>) {
    forall t <- tokens :: t.jti.SessionToken? && t.expiresAt == cfg.expiryOf(t.jti.n)
  }

  // An event that is not enabled changes nothing.
  function Step(s: State, e: Event): State {
    match e
    case Tick(dt) => s.(now := s.now + dt)
    case SignUp(uid, hash, n) =>
      if uid in s.db.users || LinkToken(n) in s.links then s
      else s.(db := Register(s.db, uid, hash, LinkToken(n)),
              links := s.links[LinkToken(n) := Link(VerifyEmail, uid, LinkExpiry(VerifyEmail, s.now))])
    case ChangePassword(uid, hash) =>
      if uid !in s.db.users then s
      else s.(db := s.db.(users := s.db.users[uid := s.db.users[uid].(passwordHash := hash)]))
    case LoginAccepted(req, uid) =>
      if req in s.requests || !MayRefresh(s.db.users, uid) then s else At(s, req, Login(uid))
    case LoginCreate(req, sid) =>
      if req !in s.requests || !s.requests[req].Login? || sid in s.archive then s
      else
        var uid := s.requests[req].uid;
        var row := Session(uid, 0, s.now + s.cfg.sessionTtl, None, None);
        At(WithSessions(s, s.db.sessions[sid := row]).(issued := s.issued + multiset{Claim(uid, sid, 0)}),
           req, LoggedIn(sid))
    case BeginRefresh(req, claim) =>
      if req in s.requests || claim !in s.issued then s else At(s, req, Refresh(claim, Begun))
    case RefreshStep(req) =>
      if req !in s.requests || !s.requests[req].Refresh? then s
      else AdvanceRefresh(s, req, s.requests[req].claim, s.requests[req].stage)
    case LogoutCommit(uid, tokens, session) =>
      if !Genuine(s.cfg, tokens) then s else WithDb(s, LogOut(s.db, uid, tokens, session, s.now))
    case CloseCommit(uid, tokens) =>
      if !Genuine(s.cfg, tokens) then s else WithDb(s, CloseAccount(s.db, uid, tokens, s.now))
    case SendLink(kind, uid, n) =>
      if LinkToken(n) in s.links || uid !in s.db.users then s
      else s.(db := StartLink(s.db, kind, uid, LinkToken(n)),
              links := s.links[LinkToken(n) := Link(kind, uid, LinkExpiry(kind, s.now))])
    case BeginFollow(req, expected, jti, hash) =>
      if req in s.requests || jti !in s.links then s
      else if s.links[jti].expiresAt <= s.now || s.links[jti].kind != expected then
        At(s, req, Follow(jti, hash, Followed(InvalidLink)))
      else At(s, req, Follow(jti, hash, Decoded))
    case FollowStep(req) =>
      if req !in s.requests || !s.requests[req].Follow? || s.requests[req].jti !in s.links then s
      else AdvanceFollow(s, req, s.requests[req].jti, s.requests[req].hash, s.requests[req].at)
    case PurgeSessionRows => WithSessions(s, PurgeSessions(s.db.sessions, s.now))
    case PurgeTokenRows =>
      s.(db := s.db.(revoked := PurgeRevoked(s.db.revoked, s.now)),
         purged := s.purged + multiset(ExpiredTokens(s.db.revoked, s.now)))
  }

  function Run(s: State, events: seq<Event>): State {
    if events == [] then s else Step(Run(s, events[..|events| - 1]), events[|events| - 1])
  }

  lemma RunSnoc(s: State, events: seq<Event>, e: Event)
    ensures Run(s, events + [e]) == Step(Run(s, events), e)
  {
    assert (events + [e])[..|events|] == events;
  }

  lemma {:induction false} RunConcat(s: State, first: seq<Event>, second: seq<Event>)
    ensures Run(s, first + second) == Run(Run(s, first), second)
  {
    if second == [] {
      assert first + second == first;
    } else {
      var front := second[..|second| - 1];
      assert (first + second)[..|first + second| - 1] == first + front;
      RunConcat(s, first, front);
    }
  }
}
