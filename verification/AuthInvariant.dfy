/** What every step of the authentication protocol keeps. */
module AuthInvariant {
  import opened Options
  import opened AuthTables
  import opened AuthProtocol

  /******* One session row over time *******/

  ghost predicate RowOk(row: Session, now: Time) {
    && (row.rotatedAt.None? <==> row.generation == 0)
    && (row.rotatedAt.Some? ==> row.rotatedAt.value <= now)
    && (row.revokedAt.Some? ==> row.revokedAt.value <= now)
  }

  // Owner and expiry never change, revocation is written once and freezes the
  // row, and only a new generation moves `rotated_at`.
  ghost predicate RowEvolves(before: Session, after: Session) {
    && after.userId == before.userId
    && after.expiresAt == before.expiresAt
    && before.generation <= after.generation
    && (before.generation == after.generation ==> after.rotatedAt == before.rotatedAt)
    && (before.revokedAt.Some? ==> after == before)
  }

  ghost predicate Evolves(s: State, t: State) {
    && t.cfg == s.cfg
    && s.now <= t.now
    && (forall sid <- s.archive :: sid in t.archive && RowEvolves(s.archive[sid], t.archive[sid]))
    && s.rotations <= t.rotations
  }

  // The stored rows are the archived ones; only expired rows are ever missing.
  ghost predicate ArchiveOk(s: State) {
    && (forall sid <- s.db.sessions :: sid in s.archive && s.archive[sid] == s.db.sessions[sid])
    && (forall sid <- s.archive :: RowOk(s.archive[sid], s.now))
    && (forall sid <- s.archive :: sid !in s.db.sessions ==> s.archive[sid].expiresAt <= s.now)
  }

  // The pair can never rotate again: foreign, revoked and expired are permanent.
  ghost predicate Dead(s: State, sid: SessionId, uid: UserId) {
    sid in s.archive && !Live(s.archive[sid], uid, s.now)
  }

  /******* Issued tokens *******/

  ghost predicate WasIssued(archive: Sessions, c: Claim) {
    && c.sessionId in archive
    && archive[c.sessionId].userId == c.userId
    && c.generation <= archive[c.sessionId].generation
  }

  // A session has had exactly the generations 0..g issued, once each.
  ghost predicate IssuedOk(s: State) {
    forall c: Claim {:trigger s.issued[c]} :: s.issued[c] == if WasIssued(s.archive, c) then 1 else 0
  }

  // The generation a claim names was rotated away once, if it is not the last.
  ghost predicate WasRotated(archive: Sessions, c: Claim) {
    WasIssued(archive, c) && c.generation < archive[c.sessionId].generation
  }

  ghost predicate RotationsOk(s: State) {
    forall c: Claim {:trigger multiset(s.rotations)[c]} ::
      multiset(s.rotations)[c] == if WasRotated(s.archive, c) then 1 else 0
  }

  /******* Refreshes in flight *******/

  // `row` is what the archived row looked like at some earlier moment.
  ghost predicate Snapshot(row: Session, archived: Session, now: Time) {
    RowOk(row, now) && RowEvolves(row, archived)
  }

  ghost predicate StageOk(s: State, claim: Claim, stage: RefreshStage)
    requires WasIssued(s.archive, claim)
  {
    var stored := s.archive[claim.sessionId];
    match stage
    case Begun => true
    case UserOk => true
    case Missed =>
      !Live(stored, claim.userId, s.now) || claim.generation < stored.generation
    case Fetched(found) =>
      if found.None? then !Live(stored, claim.userId, s.now)
      else
        && Snapshot(found.value, stored, s.now)
        && (!Live(found.value, claim.userId, s.now) || claim.generation < found.value.generation)
    case JudgedLive(row) =>
      Snapshot(row, stored, s.now) && claim.generation < row.generation
    case Revoking(row) =>
      && Snapshot(row, stored, s.now)
      && claim.generation < row.generation
      && !JustRotatedFrom(row, claim.generation, s.now, s.cfg.reuseGrace)
    case Refreshed(outcome) =>
      outcome.BadRefresh? ==> !Live(stored, claim.userId, s.now)
  }

  ghost predicate RefreshesOk(s: State) {
    forall req <- s.requests | s.requests[req].Refresh? ::
      WasIssued(s.archive, s.requests[req].claim) && StageOk(s, s.requests[req].claim, s.requests[req].stage)
  }

  ghost predicate PastUserCheck(stage: RefreshStage) {
    !stage.Begun? && stage != Refreshed(BadCredentials)
  }

  // A refresh that already read its user can no longer rotate once the account is closed.
  ghost predicate ClosedOk(s: State) {
    forall req <- s.requests | s.requests[req].Refresh? && PastUserCheck(s.requests[req].stage) ::
      var claim := s.requests[req].claim;
      && claim.userId in s.db.users
      && (!s.db.users[claim.userId].active ==> Dead(s, claim.sessionId, claim.userId))
  }

  /******* One-time links *******/

  // Every pending one-time token was staged for delivery in the same commit.
  ghost predicate MailOk(db: Tables) {
    forall uid <- db.users, kind: LinkKind {:trigger Pending(db.users[uid], kind)} ::
      Pending(db.users[uid], kind).Some? ==> Mail(uid, Pending(db.users[uid], kind).value) in db.outbox
  }

  // A one-time token was consumed once for each time its row was purged, and
  // once more if its row is there now.
  ghost predicate LinksOk(s: State) {
    && (forall jti <- s.links :: jti.LinkToken?)
    && (forall jti <- s.db.revoked | jti.LinkToken? :: jti in s.links && s.db.revoked[jti] == s.links[jti].expiresAt)
    && (forall jti: Jti {:trigger s.consumed[jti]} | jti.LinkToken? ::
          s.consumed[jti] == s.purged[jti] + if jti in s.db.revoked then 1 else 0)
    && (forall req <- s.requests | s.requests[req].Follow? :: s.requests[req].jti in s.links)
  }

  ghost predicate Inv(s: State) {
    ArchiveOk(s) && IssuedOk(s) && RotationsOk(s) && RefreshesOk(s) && ClosedOk(s) && MailOk(s.db) && LinksOk(s)
  }

  /******* What one event does to the session rows *******/

  datatype Change =
    | Keep
    | Create(sid: SessionId, row: Session)
    | Rotate(sid: SessionId)
    | Revoke(filter: RevokeFilter)
    | Purge

  ghost function RefreshChange(s: State, claim: Claim, stage: RefreshStage): Change {
    if stage.UserOk? && CanRotate(s.db.sessions, claim.sessionId, claim.userId, claim.generation, s.now) then
      Rotate(claim.sessionId)
    else if stage.Revoking? then Revoke(ById(claim.sessionId))
    else Keep
  }

  ghost function FollowChange(s: State, jti: Jti, stage: LinkStage): Change
    requires jti in s.links
  {
    if stage.UserRead? && s.links[jti].kind.ResetPassword? && CanConsume(s.db, s.links[jti].userId, jti) then
      Revoke(ByUser(s.links[jti].userId))
    else Keep
  }

  ghost function ChangeOf(s: State, e: Event): Change {
    match e
    case LoginCreate(req, sid) =>
      if req !in s.requests || !s.requests[req].Login? || sid in s.archive then Keep
      else Create(sid, Session(s.requests[req].uid, 0, s.now + s.cfg.sessionTtl, None, None))
    case RefreshStep(req) =>
      if req !in s.requests || !s.requests[req].Refresh? then Keep
      else RefreshChange(s, s.requests[req].claim, s.requests[req].stage)
    case LogoutCommit(uid, tokens, session) =>
      if !Genuine(s.cfg, tokens) || session.None? then Keep else Revoke(ByIdAndUser(session.value, uid))
    case CloseCommit(uid, tokens) =>
      if !Genuine(s.cfg, tokens) || uid !in s.db.users then Keep else Revoke(ByUser(uid))
    case FollowStep(req) =>
      if req !in s.requests || !s.requests[req].Follow? || s.requests[req].jti !in s.links then Keep
      else FollowChange(s, s.requests[req].jti, s.requests[req].at)
    case PurgeSessionRows => Purge
    case _ => Keep
  }

  ghost predicate Enabled(s: State, c: Change) {
    match c
    case Create(sid, row) => sid !in s.archive && row.generation == 0 && row.rotatedAt.None? && row.revokedAt.None?
    case Rotate(sid) => sid in s.db.sessions && Live(s.db.sessions[sid], s.db.sessions[sid].userId, s.now)
    case _ => true
  }

  ghost function Changed(sessions: Sessions, c: Change, now: Time): Sessions {
    match c
    case Keep => sessions
    case Create(sid, row) => sessions[sid := row]
    case Rotate(sid) => if sid in sessions then sessions[sid := Rotated(sessions[sid], now)] else sessions
    case Revoke(filter) => RevokeWhere(sessions, filter, now)
    case Purge => PurgeSessions(sessions, now)
  }

  ghost function NewlyIssued(sessions: Sessions, c: Change): multiset<Claim> {
    match c
    case Create(sid, row) => multiset{Claim(row.userId, sid, 0)}
    case Rotate(sid) =>
      if sid in sessions then multiset{Claim(sessions[sid].userId, sid, sessions[sid].generation + 1)} else multiset{}
    case _ => multiset{}
  }

  // The claims whose rotation the change completes.
  ghost function Presented(sessions: Sessions, c: Change): seq<Claim> {
    if c.Rotate? && c.sid in sessions then [Claim(sessions[c.sid].userId, c.sid, sessions[c.sid].generation)] else []
  }

  // The session-related part of the state after one event.
  ghost predicate Shift(s: State, c: Change, t: State) {
    && Enabled(s, c)
    && t.cfg == s.cfg
    && s.now <= t.now
    && t.db.sessions == Changed(s.db.sessions, c, s.now)
    && t.archive == s.archive + t.db.sessions
    && t.issued == s.issued + NewlyIssued(s.db.sessions, c)
    && t.rotations == s.rotations + Presented(s.db.sessions, c)
  }

  lemma SameState(s: State)
    requires ArchiveOk(s)
    ensures Shift(s, Keep, s)
  {
    assert s.archive + s.db.sessions == s.archive;
    assert s.issued + multiset{} == s.issued && s.rotations + [] == s.rotations;
  }

  lemma RotationChange(s: State, req: RequestId, claim: Claim)
    requires ArchiveOk(s)
    requires CanRotate(s.db.sessions, claim.sessionId, claim.userId, claim.generation, s.now)
    ensures Shift(s, Rotate(claim.sessionId), AdvanceRefresh(s, req, claim, UserOk))
  {
  }

  lemma RefreshStepChange(s: State, req: RequestId, claim: Claim, stage: RefreshStage)
    requires ArchiveOk(s)
    ensures Shift(s, RefreshChange(s, claim, stage), AdvanceRefresh(s, req, claim, stage))
  {
    if RefreshChange(s, claim, stage).Rotate? {
      RotationChange(s, req, claim);
    } else {
      assert s.archive + s.db.sessions == s.archive;
      assert s.issued + multiset{} == s.issued && s.rotations + [] == s.rotations;
    }
  }

  lemma FollowStepChange(s: State, req: RequestId, jti: Jti, hash: int, stage: LinkStage)
    requires ArchiveOk(s) && jti in s.links
    ensures Shift(s, FollowChange(s, jti, stage), AdvanceFollow(s, req, jti, hash, stage))
  {
    assert s.archive + s.db.sessions == s.archive;
    assert s.issued + multiset{} == s.issued && s.rotations + [] == s.rotations;
  }

  lemma LoginChange(s: State, req: RequestId, sid: SessionId)
    requires ArchiveOk(s)
    ensures Shift(s, ChangeOf(s, LoginCreate(req, sid)), Step(s, LoginCreate(req, sid)))
  {
    assert s.archive + s.db.sessions == s.archive;
    assert s.issued + multiset{} == s.issued && s.rotations + [] == s.rotations;
  }

  lemma LogoutChange(s: State, uid: UserId, tokens: seq<TokenRef>, session: Option<SessionId>)
    requires ArchiveOk(s)
    ensures Shift(s, ChangeOf(s, LogoutCommit(uid, tokens, session)), Step(s, LogoutCommit(uid, tokens, session)))
  {
    SameState(s);
    assert s.issued + multiset{} == s.issued && s.rotations + [] == s.rotations;
  }

  lemma CloseChange(s: State, uid: UserId, tokens: seq<TokenRef>)
    requires ArchiveOk(s)
    ensures Shift(s, ChangeOf(s, CloseCommit(uid, tokens)), Step(s, CloseCommit(uid, tokens)))
  {
    SameState(s);
    assert s.issued + multiset{} == s.issued && s.rotations + [] == s.rotations;
  }

  // Every other event leaves the session rows alone.
  ghost predicate Quiet(e: Event) {
    || e.Tick? || e.SignUp? || e.ChangePassword? || e.LoginAccepted?
    || e.BeginRefresh? || e.SendLink? || e.BeginFollow? || e.PurgeTokenRows?
  }

  lemma SameHistory(s: State)
    requires ArchiveOk(s)
    ensures s.archive + s.db.sessions == s.archive
    ensures s.issued + multiset{} == s.issued && s.rotations + [] == s.rotations
  {
  }

  lemma QuietRequestChange(s: State, e: Event)
    requires ArchiveOk(s) && (e.LoginAccepted? || e.BeginRefresh? || e.BeginFollow?)
    ensures Shift(s, Keep, Step(s, e))
  {
    SameHistory(s);
  }

  lemma QuietUserChange(s: State, e: Event)
    requires ArchiveOk(s) && (e.SignUp? || e.ChangePassword? || e.SendLink?)
    ensures Shift(s, Keep, Step(s, e))
  {
    SameHistory(s);
  }

  lemma QuietChange(s: State, e: Event)
    requires ArchiveOk(s) && Quiet(e)
    ensures Shift(s, Keep, Step(s, e))
  {
    if e.LoginAccepted? || e.BeginRefresh? || e.BeginFollow? {
      QuietRequestChange(s, e);
    } else if e.SignUp? || e.ChangePassword? || e.SendLink? {
      QuietUserChange(s, e);
    } else {
      SameHistory(s);
    }
  }

  lemma StepChange(s: State, e: Event)
    requires ArchiveOk(s)
    ensures Shift(s, ChangeOf(s, e), Step(s, e))
  {
    if Quiet(e) {
      QuietChange(s, e);
    } else {
      match e
      case RefreshStep(req) =>
        if req in s.requests && s.requests[req].Refresh? {
          RefreshStepChange(s, req, s.requests[req].claim, s.requests[req].stage);
        } else {
          SameState(s);
        }
      case FollowStep(req) =>
        if req in s.requests && s.requests[req].Follow? && s.requests[req].jti in s.links {
          FollowStepChange(s, req, s.requests[req].jti, s.requests[req].hash, s.requests[req].at);
        } else {
          SameState(s);
        }
      case LoginCreate(req, sid) => LoginChange(s, req, sid);
      case LogoutCommit(uid, tokens, session) => LogoutChange(s, uid, tokens, session);
      case CloseCommit(uid, tokens) => CloseChange(s, uid, tokens);
      case PurgeSessionRows =>
        assert s.issued + multiset{} == s.issued && s.rotations + [] == s.rotations;
    }
  }

  /******* Users, links and revoked tokens *******/

  datatype Effect =
    | NoEffect
    | SignsUp(uid: UserId, hash: int, jti: Jti)
    | Repasswords(uid: UserId, hash: int)
    | Closes(uid: UserId, tokens: seq<TokenRef>)
    | LogsOut(tokens: seq<TokenRef>)
    | Sends(kind: LinkKind, uid: UserId, jti: Jti)
    | Consumes(jti: Jti, hash: int)
    | DropsTokens

  ghost function EffectOf(s: State, e: Event): Effect {
    match e
    case SignUp(uid, hash, n) =>
      if uid in s.db.users || LinkToken(n) in s.links then NoEffect else SignsUp(uid, hash, LinkToken(n))
    case ChangePassword(uid, hash) => if uid in s.db.users then Repasswords(uid, hash) else NoEffect
    case LogoutCommit(uid, tokens, session) => if Genuine(s.cfg, tokens) then LogsOut(tokens) else NoEffect
    case CloseCommit(uid, tokens) =>
      if Genuine(s.cfg, tokens) && uid in s.db.users then Closes(uid, tokens) else NoEffect
    case SendLink(kind, uid, n) =>
      if LinkToken(n) in s.links || uid !in s.db.users then NoEffect else Sends(kind, uid, LinkToken(n))
    case FollowStep(req) =>
      if req in s.requests && s.requests[req].Follow? && s.requests[req].at.UserRead? && s.requests[req].jti in s.links
         && CanConsume(s.db, s.links[s.requests[req].jti].userId, s.requests[req].jti)
      then Consumes(s.requests[req].jti, s.requests[req].hash) else NoEffect
    case PurgeTokenRows => DropsTokens
    case _ => NoEffect
  }

  ghost function UsersAfter(users: map<UserId, User>, links: map<Jti, Link>, f: Effect): map<UserId, User> {
    match f
    case SignsUp(uid, hash, jti) => users[uid := NewUser(hash, jti)]
    case Repasswords(uid, hash) => if uid in users then users[uid := users[uid].(passwordHash := hash)] else users
    case Closes(uid, _) => if uid in users then users[uid := users[uid].(active := false)] else users
    case Sends(kind, uid, jti) => if uid in users then users[uid := WithPending(users[uid], kind, jti)] else users
    case Consumes(jti, hash) =>
      if jti in links && links[jti].userId in users then
        users[links[jti].userId := Applied(users[links[jti].userId], links[jti].kind, hash)]
      else users
    case _ => users
  }

  ghost function RevokedAfter(revoked: Revoked, links: map<Jti, Link>, now: Time, f: Effect): Revoked {
    match f
    case Closes(_, tokens) => AddAllIfAbsent(revoked, tokens)
    case LogsOut(tokens) => AddAllIfAbsent(revoked, tokens)
    case Consumes(jti, _) => if jti in links then revoked[jti := links[jti].expiresAt] else revoked
    case DropsTokens => PurgeRevoked(revoked, now)
    case _ => revoked
  }

  ghost predicate Effected(s: State, f: Effect, t: State) {
    && t.cfg == s.cfg
    && t.db.users == UsersAfter(s.db.users, s.links, f)
    && t.db.outbox == s.db.outbox
         + (match f
            case SignsUp(uid, _, jti) => [Mail(uid, jti)]
            case Sends(_, uid, jti) => [Mail(uid, jti)]
            case _ => [])
    && t.db.revoked == RevokedAfter(s.db.revoked, s.links, s.now, f)
    && t.links == (match f
                   case SignsUp(uid, _, jti) => s.links[jti := Link(VerifyEmail, uid, LinkExpiry(VerifyEmail, s.now))]
                   case Sends(kind, uid, jti) => s.links[jti := Link(kind, uid, LinkExpiry(kind, s.now))]
                   case _ => s.links)
    && t.consumed == s.consumed + (if f.Consumes? then multiset{f.jti} else multiset{})
    && t.purged == s.purged + (if f.DropsTokens? then multiset(ExpiredTokens(s.db.revoked, s.now)) else multiset{})
  }

  // Advancing a refresh touches that request and the session rows only.
  lemma RefreshFrame(s: State, req: RequestId, claim: Claim, stage: RefreshStage)
    requires req in s.requests && s.requests[req] == Refresh(claim, stage)
    ensures var t := AdvanceRefresh(s, req, claim, stage);
      && t.requests == s.requests[req := t.requests[req]]
      && t.requests[req].Refresh? && t.requests[req].claim == claim
      && t.db.(sessions := s.db.sessions) == s.db
      && t.links == s.links && t.consumed == s.consumed && t.purged == s.purged
  {
  }

  // Advancing a one-time link touches that request, and the tables only when it commits.
  lemma FollowFrame(s: State, req: RequestId, jti: Jti, hash: int, stage: LinkStage)
    requires req in s.requests && s.requests[req] == Follow(jti, hash, stage) && jti in s.links
    ensures var t := AdvanceFollow(s, req, jti, hash, stage);
      && t.requests == s.requests[req := t.requests[req]]
      && t.requests[req].Follow? && t.requests[req].jti == jti && t.requests[req].hash == hash
      && t.links == s.links && t.purged == s.purged
      && var link := s.links[jti];
         if stage.UserRead? && CanConsume(s.db, link.userId, jti) then
           && t.db == Consume(s.db, link.kind, link.userId, hash, TokenRef(jti, link.expiresAt), s.now)
           && t.consumed == s.consumed + multiset{jti}
           && t.requests[req].at == Followed(Consumed)
         else
           && t.db == s.db && t.consumed == s.consumed
           && (t.requests[req].at == Followed(Consumed) ==> stage == Followed(Consumed))
  {
  }

  lemma AdvanceKeepsClock(s: State, req: RequestId, claim: Claim, stage: RefreshStage)
    ensures AdvanceRefresh(s, req, claim, stage).now == s.now
    ensures AdvanceRefresh(s, req, claim, stage).cfg == s.cfg
  {
  }

  lemma FollowKeepsClock(s: State, req: RequestId, jti: Jti, hash: int, stage: LinkStage)
    requires jti in s.links
    ensures AdvanceFollow(s, req, jti, hash, stage).now == s.now
    ensures AdvanceFollow(s, req, jti, hash, stage).cfg == s.cfg
  {
  }

  // Nothing but users, links and tokens have changed by an effect.
  lemma NoEffects(s: State)
    ensures s.consumed + multiset{} == s.consumed && s.purged + multiset{} == s.purged
    ensures s.db.outbox + [] == s.db.outbox
  {
  }

  lemma UserEffect(s: State, e: Event)
    requires e.SignUp? || e.ChangePassword? || e.SendLink?
    ensures Effected(s, EffectOf(s, e), Step(s, e))
  {
    NoEffects(s);
  }

  lemma LogoutEffect(s: State, e: Event)
    requires e.LogoutCommit?
    ensures Effected(s, EffectOf(s, e), Step(s, e))
  {
    NoEffects(s);
  }

  lemma ClosureEffect(s: State, e: Event)
    requires e.CloseCommit?
    ensures Effected(s, EffectOf(s, e), Step(s, e))
  {
    NoEffects(s);
  }

  lemma AccountEffect(s: State, e: Event)
    requires e.LogoutCommit? || e.CloseCommit? || e.PurgeTokenRows?
    ensures Effected(s, EffectOf(s, e), Step(s, e))
  {
    match e
    case LogoutCommit(_, _, _) => LogoutEffect(s, e);
    case CloseCommit(_, _) => ClosureEffect(s, e);
    case PurgeTokenRows => NoEffects(s);
  }

  lemma RequestOnlyEffect(s: State, e: Event)
    requires e.LoginAccepted? || e.BeginRefresh? || e.BeginFollow?
    ensures Step(s, e) == s.(requests := Step(s, e).requests) && EffectOf(s, e) == NoEffect
  {
  }

  lemma QuietEffect(s: State, e: Event)
    requires e.Tick? || e.LoginAccepted? || e.BeginRefresh? || e.BeginFollow?
    ensures Effected(s, EffectOf(s, e), Step(s, e))
  {
    NoEffects(s);
    if !e.Tick? { RequestOnlyEffect(s, e); }
  }

  lemma SessionEffect(s: State, e: Event)
    requires e.LoginCreate? || e.PurgeSessionRows?
    ensures Effected(s, EffectOf(s, e), Step(s, e))
  {
    NoEffects(s);
  }

  lemma StepEffect(s: State, e: Event)
    ensures Effected(s, EffectOf(s, e), Step(s, e))
  {
    if e.FollowStep? || e.RefreshStep? {
      RequestEffect(s, e);
    } else if e.SignUp? || e.ChangePassword? || e.SendLink? {
      UserEffect(s, e);
    } else if e.LogoutCommit? || e.CloseCommit? || e.PurgeTokenRows? {
      AccountEffect(s, e);
    } else if e.LoginCreate? || e.PurgeSessionRows? {
      SessionEffect(s, e);
    } else {
      QuietEffect(s, e);
    }
  }

  lemma RequestEffect(s: State, e: Event)
    requires e.FollowStep? || e.RefreshStep?
    ensures Effected(s, EffectOf(s, e), Step(s, e))
  {
    var r := e.req;
    NoEffects(s);
    if e.RefreshStep? && r in s.requests && s.requests[r].Refresh? {
      RefreshFrame(s, r, s.requests[r].claim, s.requests[r].stage);
      AdvanceKeepsClock(s, r, s.requests[r].claim, s.requests[r].stage);
    } else if e.FollowStep? && r in s.requests && s.requests[r].Follow? && s.requests[r].jti in s.links {
      FollowFrame(s, r, s.requests[r].jti, s.requests[r].hash, s.requests[r].at);
      FollowKeepsClock(s, r, s.requests[r].jti, s.requests[r].hash, s.requests[r].at);
    }
  }

  /******* Preservation *******/

  // Row by row: a change rewrites a row lawfully, drops it only when expired,
  // and adds only the created one.
  lemma ChangedRows(s: State, c: Change, sid: SessionId)
    requires ArchiveOk(s) && Enabled(s, c)
    ensures var after := Changed(s.db.sessions, c, s.now);
      if sid in s.db.sessions then
        if sid in after then RowEvolves(s.db.sessions[sid], after[sid]) && RowOk(after[sid], s.now)
        else s.db.sessions[sid].expiresAt <= s.now
      else
        sid in after ==> c == Create(sid, after[sid]) && RowOk(after[sid], s.now)
  {
  }

  lemma ChangeKeepsArchive(s: State, c: Change, t: State)
    requires ArchiveOk(s) && Shift(s, c, t)
    ensures Evolves(s, t) && ArchiveOk(t)
  {
    forall sid: SessionId {
      ChangedRows(s, c, sid);
    }
  }

  lemma ChangeKeepsIssued(s: State, c: Change, t: State)
    requires ArchiveOk(s) && IssuedOk(s) && Shift(s, c, t)
    ensures IssuedOk(t)
  {
    forall claim: Claim
      ensures t.issued[claim] == if WasIssued(t.archive, claim) then 1 else 0
    {
      var sid := claim.sessionId;
      ChangedRows(s, c, sid);
      assert s.issued[claim] == if WasIssued(s.archive, claim) then 1 else 0;
    }
  }

  lemma ChangeKeepsRotations(s: State, c: Change, t: State)
    requires ArchiveOk(s) && RotationsOk(s) && Shift(s, c, t)
    ensures RotationsOk(t)
  {
    forall claim: Claim
      ensures multiset(t.rotations)[claim] == if WasRotated(t.archive, claim) then 1 else 0
    {
      var sid := claim.sessionId;
      ChangedRows(s, c, sid);
      assert multiset(s.rotations)[claim] == if WasRotated(s.archive, claim) then 1 else 0;
      assert multiset(t.rotations) == multiset(s.rotations) + multiset(Presented(s.db.sessions, c));
    }
  }

  lemma StageEvolves(s: State, t: State, claim: Claim, stage: RefreshStage)
    requires Evolves(s, t) && WasIssued(s.archive, claim) && StageOk(s, claim, stage)
    requires ArchiveOk(t)
    ensures WasIssued(t.archive, claim) && StageOk(t, claim, stage)
  {
  }

  // One event touches one request: it begins a refresh, advances one, or leaves
  // every refresh where it was.
  lemma OneRequestMoves(s: State, e: Event, req: RequestId)
    requires req in Step(s, e).requests && Step(s, e).requests[req].Refresh?
    ensures var r := Step(s, e).requests[req];
      || (req in s.requests && s.requests[req] == r)
      || (e == BeginRefresh(req, r.claim) && r.claim in s.issued && r.stage == Begun)
      || (e == RefreshStep(req) && req in s.requests && s.requests[req].Refresh? && s.requests[req].claim == r.claim)
  {
    match e
    case RefreshStep(r) =>
      if r in s.requests && s.requests[r].Refresh? {
        RefreshFrame(s, r, s.requests[r].claim, s.requests[r].stage);
      }
    case FollowStep(r) =>
      if r in s.requests && s.requests[r].Follow? && s.requests[r].jti in s.links {
        FollowFrame(s, r, s.requests[r].jti, s.requests[r].hash, s.requests[r].at);
      }
    case _ =>
  }

  lemma AdvanceKeepsStage(s: State, req: RequestId, claim: Claim, stage: RefreshStage)
    requires ArchiveOk(s) && WasIssued(s.archive, claim) && StageOk(s, claim, stage)
    ensures var t := AdvanceRefresh(s, req, claim, stage);
      req in s.requests && s.requests[req] == Refresh(claim, stage) ==>
        req in t.requests && t.requests[req].Refresh? && t.requests[req].claim == claim
        && WasIssued(t.archive, claim) && StageOk(t, claim, t.requests[req].stage)
  {
    RefreshStepChange(s, req, claim, stage);
    ChangeKeepsArchive(s, RefreshChange(s, claim, stage), AdvanceRefresh(s, req, claim, stage));
  }

  lemma StepRefreshes(s: State, e: Event)
    requires ArchiveOk(s) && IssuedOk(s) && RefreshesOk(s)
    ensures RefreshesOk(Step(s, e))
  {
    StepChange(s, e);
    var t := Step(s, e);
    ChangeKeepsArchive(s, ChangeOf(s, e), t);
    forall req | req in t.requests && t.requests[req].Refresh?
      ensures WasIssued(t.archive, t.requests[req].claim) && StageOk(t, t.requests[req].claim, t.requests[req].stage)
    {
      OneRequestMoves(s, e, req);
      var r := t.requests[req];
      if req in s.requests && s.requests[req] == r {
        StageEvolves(s, t, r.claim, r.stage);
      } else if e == RefreshStep(req) {
        AdvanceKeepsStage(s, req, r.claim, s.requests[req].stage);
      } else {
        assert s.issued[r.claim] > 0;
        StageEvolves(s, t, r.claim, Begun);
      }
    }
  }

  // Accounts are only ever closed, and closing one revokes its sessions.
  lemma UsersChange(s: State, e: Event, uid: UserId)
    requires uid in s.db.users
    ensures uid in Step(s, e).db.users
    ensures Step(s, e).db.users[uid].active == (s.db.users[uid].active && !ClosesAccount(s.cfg, e, uid))
  {
    StepEffect(s, e);
  }

  ghost predicate ClosesAccount(cfg: Config, e: Event, uid: UserId) {
    e.CloseCommit? && e.uid == uid && Genuine(cfg, e.tokens)
  }

  lemma StepClosed(s: State, e: Event)
    requires ArchiveOk(s) && IssuedOk(s) && RefreshesOk(s) && ClosedOk(s)
    ensures ClosedOk(Step(s, e))
  {
    var t := Step(s, e);
    forall req | req in t.requests && t.requests[req].Refresh? && PastUserCheck(t.requests[req].stage)
      ensures var claim := t.requests[req].claim;
        && claim.userId in t.db.users
        && (!t.db.users[claim.userId].active ==> Dead(t, claim.sessionId, claim.userId))
    {
      UserStillKnown(s, e, req);
      OwnerClosed(s, e, req);
    }
  }

  // A refresh past its user check stays tied to an open account or a dead session.
  lemma OwnerClosed(s: State, e: Event, req: RequestId)
    requires ArchiveOk(s) && IssuedOk(s) && RefreshesOk(s) && ClosedOk(s)
    requires var t := Step(s, e); req in t.requests && t.requests[req].Refresh? && PastUserCheck(t.requests[req].stage)
    requires var claim := Step(s, e).requests[req].claim;
      claim.userId in s.db.users && (s.db.users[claim.userId].active || Dead(s, claim.sessionId, claim.userId))
    ensures var t := Step(s, e); var claim := t.requests[req].claim;
      && claim.userId in t.db.users
      && (!t.db.users[claim.userId].active ==> Dead(t, claim.sessionId, claim.userId))
  {
    var claim := Step(s, e).requests[req].claim;
    OneRequestMoves(s, e, req);
    UsersChange(s, e, claim.userId);
    if Dead(s, claim.sessionId, claim.userId) {
      DeadStays(s, e, claim.sessionId, claim.userId);
    } else if ClosesAccount(s.cfg, e, claim.userId) {
      ClosingKills(s, e, claim.sessionId, claim.userId);
    }
  }

  lemma DeadStays(s: State, e: Event, sid: SessionId, uid: UserId)
    requires ArchiveOk(s) && Dead(s, sid, uid)
    ensures Dead(Step(s, e), sid, uid)
  {
    StepChange(s, e);
    ChangedRows(s, ChangeOf(s, e), sid);
  }

  // A closure revokes the user's sessions.
  lemma ClosingKills(s: State, e: Event, sid: SessionId, uid: UserId)
    requires ArchiveOk(s) && ClosesAccount(s.cfg, e, uid) && uid in s.db.users && sid in s.archive
    ensures Dead(Step(s, e), sid, uid)
  {
    StepChange(s, e);
    ChangedRows(s, ChangeOf(s, e), sid);
  }

  lemma UserStillKnown(s: State, e: Event, req: RequestId)
    requires ClosedOk(s)
    requires var t := Step(s, e); req in t.requests && t.requests[req].Refresh? && PastUserCheck(t.requests[req].stage)
    ensures var claim := Step(s, e).requests[req].claim;
      && claim.userId in s.db.users
      && (s.db.users[claim.userId].active || Dead(s, claim.sessionId, claim.userId))
  {
    OneRequestMoves(s, e, req);
  }

  lemma StepMail(s: State, e: Event)
    requires MailOk(s.db)
    ensures MailOk(Step(s, e).db)
  {
    var t := Step(s, e);
    forall uid, kind: LinkKind | uid in t.db.users && Pending(t.db.users[uid], kind).Some?
      ensures Mail(uid, Pending(t.db.users[uid], kind).value) in t.db.outbox
    {
      PendingChange(s, e, uid, kind);
    }
  }

  lemma PendingChange(s: State, e: Event, uid: UserId, kind: LinkKind)
    requires MailOk(s.db)
    requires var t := Step(s, e); uid in t.db.users && Pending(t.db.users[uid], kind).Some?
    ensures Mail(uid, Pending(Step(s, e).db.users[uid], kind).value) in Step(s, e).db.outbox
  {
    StepEffect(s, e);
    assert uid in s.db.users && Pending(s.db.users[uid], kind).Some? ==>
      Mail(uid, Pending(s.db.users[uid], kind).value) in s.db.outbox;
  }

  lemma LogoutKeepsLinkRows(revoked: Revoked, tokens: seq<TokenRef>, jti: Jti)
    requires jti.LinkToken? && (forall t <- tokens :: t.jti.SessionToken?)
    ensures jti in AddAllIfAbsent(revoked, tokens) <==> jti in revoked
    ensures jti in revoked ==> AddAllIfAbsent(revoked, tokens)[jti] == revoked[jti]
  {
    AddAllIfAbsentMeaning(revoked, tokens);
  }

  // Over one event a link's row and its counts move together.
  lemma LinkCountChange(s: State, f: Effect, t: State, jti: Jti)
    requires LinksOk(s) && Effected(s, f, t) && jti.LinkToken?
    requires f.Closes? || f.LogsOut? ==> forall ref <- f.tokens :: ref.jti.SessionToken?
    requires f.Consumes? ==> f.jti in s.links && f.jti !in s.db.revoked
    requires f.SignsUp? || f.Sends? ==> f.jti !in s.links
    ensures t.consumed[jti] == t.purged[jti] + (if jti in t.db.revoked then 1 else 0)
    ensures jti in t.db.revoked ==> jti in t.links && t.db.revoked[jti] == t.links[jti].expiresAt
  {
    assert s.consumed[jti] == s.purged[jti] + if jti in s.db.revoked then 1 else 0;
    if f.Closes? || f.LogsOut? {
      LogoutKeepsLinkRows(s.db.revoked, f.tokens, jti);
    }
  }

  lemma StepLinks(s: State, e: Event)
    requires LinksOk(s)
    ensures LinksOk(Step(s, e))
  {
    var t := Step(s, e);
    StepEffect(s, e);
    forall jti: Jti | jti.LinkToken? {
      LinkCountChange(s, EffectOf(s, e), t, jti);
    }
    forall jti: Jti {
      LinksGrow(s, e, jti);
    }
    forall req | req in t.requests && t.requests[req].Follow?
      ensures t.requests[req].jti in t.links
    {
      OneFollowerMoves(s, e, req);
    }
  }

  // Issued links are never forgotten or changed.
  lemma LinksGrow(s: State, e: Event, jti: Jti)
    ensures jti in s.links ==> jti in Step(s, e).links && Step(s, e).links[jti] == s.links[jti]
    ensures jti in Step(s, e).links && jti !in s.links ==> jti.LinkToken?
  {
    StepEffect(s, e);
  }

  // One event moves one link request: it begins it or advances it.
  lemma OneFollowerMoves(s: State, e: Event, req: RequestId)
    requires req in Step(s, e).requests && Step(s, e).requests[req].Follow?
    ensures var r := Step(s, e).requests[req];
      || (req in s.requests && s.requests[req] == r)
      || (e.BeginFollow? && e.req == req && e.jti == r.jti && r.jti in s.links
          && (r.at == Followed(InvalidLink) || (r.at == Decoded && s.now < s.links[r.jti].expiresAt)))
      || (e == FollowStep(req) && req in s.requests && s.requests[req].Follow? && s.requests[req].jti == r.jti
          && r.jti in s.links
          && r == AdvanceFollow(s, req, r.jti, s.requests[req].hash, s.requests[req].at).requests[req])
  {
    match e
    case RefreshStep(r) =>
      if r in s.requests && s.requests[r].Refresh? {
        RefreshFrame(s, r, s.requests[r].claim, s.requests[r].stage);
      }
    case FollowStep(r) =>
      if r in s.requests && s.requests[r].Follow? && s.requests[r].jti in s.links {
        FollowFrame(s, r, s.requests[r].jti, s.requests[r].hash, s.requests[r].at);
      }
    case _ =>
  }

  lemma InitInv(cfg: Config)
    ensures Inv(Init(cfg))
  {
  }

  lemma StepInv(s: State, e: Event)
    requires Inv(s)
    ensures Inv(Step(s, e)) && Evolves(s, Step(s, e))
  {
    StepChange(s, e);
    ChangeKeepsArchive(s, ChangeOf(s, e), Step(s, e));
    ChangeKeepsIssued(s, ChangeOf(s, e), Step(s, e));
    ChangeKeepsRotations(s, ChangeOf(s, e), Step(s, e));
    StepRefreshes(s, e);
    StepClosed(s, e);
    StepMail(s, e);
    StepLinks(s, e);
  }

  lemma {:induction false} RunInv(s: State, events: seq<Event>)
    requires Inv(s)
    ensures Inv(Run(s, events)) && Evolves(s, Run(s, events))
  {
    if events == [] {
    } else {
      RunInv(s, events[..|events| - 1]);
      StepInv(Run(s, events[..|events| - 1]), events[|events| - 1]);
    }
  }
}
