/**
  The rows the authentication code keeps in Postgres, and what one committed
  transaction does to them.  Times are whole microseconds.
 */
module AuthTables {
  import opened Options

  type Time = int
  type UserId = nat
  type SessionId = nat

  // A `uuid4` never repeats, so the ids of session tokens and of one-time links
  // never meet in the shared `revoked_tokens` table.
  datatype Jti = SessionToken(n: nat) | LinkToken(n: nat)

  datatype TokenRef = TokenRef(jti: Jti, expiresAt: Time)

  datatype User = User(
    active: bool,
    verified: bool,
    passwordHash: int,
    pendingVerification: Option<Jti>,
    pendingReset: Option<Jti>)

  datatype Session = Session(
    userId: UserId,
    generation: nat,
    expiresAt: Time,
    rotatedAt: Option<Time>,
    revokedAt: Option<Time>)

  // An outbox event: the e-mail that carries a one-time link to its user.
  datatype Mail = Mail(userId: UserId, jti: Jti)

  type Sessions = map<SessionId, Session>
  type Revoked = map<Jti, Time>

  datatype Tables = Tables(
    users: map<UserId, User>,
    sessions: Sessions,
    revoked: Revoked,
    outbox: seq<Mail>)

  /******* Refresh sessions *******/

  predicate Live(row: Session, uid: UserId, now: Time) {
    && row.userId == uid
    && row.revokedAt.None?
    && row.expiresAt > now
  }

  predicate JustRotatedFrom(row: Session, generation: nat, now: Time, grace: int) {
    && row.generation == generation + 1
    && row.rotatedAt.Some?
    && now - row.rotatedAt.value <= grace
  }

  predicate CanRotate(sessions: Sessions, sid: SessionId, uid: UserId, generation: nat, now: Time) {
    && sid in sessions
    && sessions[sid].generation == generation
    && Live(sessions[sid], uid, now)
  }

  function Rotated(row: Session, now: Time): Session {
    row.(generation := row.generation + 1, rotatedAt := Some(now))
  }

  // The conditions `_revoke_where` is called with.
  datatype RevokeFilter =
    | ById(sid: SessionId)
    | ByIdAndUser(sid: SessionId, uid: UserId)
    | ByUser(uid: UserId)
  {
    predicate Matches(id: SessionId, row: Session) {
      match this
      case ById(sid) => id == sid
      case ByIdAndUser(sid, uid) => id == sid && row.userId == uid
      case ByUser(uid) => row.userId == uid
    }
  }

  function RevokedRow(row: Session, now: Time): Session {
    if row.revokedAt.None? then row.(revokedAt := Some(now)) else row
  }

  function RevokeWhere(sessions: Sessions, filter: RevokeFilter, now: Time): Sessions {
    map sid | sid in sessions ::
      if filter.Matches(sid, sessions[sid]) then RevokedRow(sessions[sid], now) else sessions[sid]
  }

  function PurgeSessions(sessions: Sessions, now: Time): Sessions {
    map sid | sid in sessions && sessions[sid].expiresAt > now :: sessions[sid]
  }

  function ExpiredSessions(sessions: Sessions, now: Time): set<SessionId> {
    set sid | sid in sessions && sessions[sid].expiresAt <= now
  }

  /******* Revoked tokens *******/

  predicate Exists(revoked: Revoked, jti: Jti, now: Time) {
    jti in revoked && revoked[jti] > now
  }

  function ListActive(revoked: Revoked, now: Time): set<TokenRef> {
    set jti | jti in revoked && revoked[jti] > now :: TokenRef(jti, revoked[jti])
  }

  function AddIfAbsent(revoked: Revoked, token: TokenRef): Revoked {
    if token.jti in revoked then revoked else revoked[token.jti := token.expiresAt]
  }

  function AddAllIfAbsent(revoked: Revoked, tokens: seq<TokenRef>): Revoked {
    if tokens == [] then revoked
    else AddIfAbsent(AddAllIfAbsent(revoked, tokens[..|tokens| - 1]), tokens[|tokens| - 1])
  }

  // Where an id first occurs among some tokens.
  predicate First(tokens: seq<TokenRef>, jti: Jti, i: nat) {
    i < |tokens| && tokens[i].jti == jti && forall k | 0 <= k < i :: tokens[k].jti != jti
  }

  // Batch insert-if-absent keeps every old row, adds every token with the first expiry
  // given for it, and adds nothing that was not asked for.
  lemma {:induction false} AddAllIfAbsentMeaning(revoked: Revoked, tokens: seq<TokenRef>)
    ensures var after := AddAllIfAbsent(revoked, tokens);
      && (forall jti <- revoked :: jti in after && after[jti] == revoked[jti])
      && (forall t <- tokens :: t.jti in after)
      && (forall jti <- after :: jti in revoked || TokenRef(jti, after[jti]) in tokens)
      && (forall jti <- after | jti !in revoked ::
            exists i: nat :: First(tokens, jti, i) && after[jti] == tokens[i].expiresAt)
  {
    if tokens != [] {
      var front, last := tokens[..|tokens| - 1], tokens[|tokens| - 1];
      var before, after := AddAllIfAbsent(revoked, front), AddAllIfAbsent(revoked, tokens);
      AddAllIfAbsentMeaning(revoked, front);
      assert tokens == front + [last];
      forall jti | jti in after && jti !in revoked
        ensures exists i: nat :: First(tokens, jti, i) && after[jti] == tokens[i].expiresAt
      {
        if jti in before {
          var i: nat :| First(front, jti, i) && before[jti] == front[i].expiresAt;
          assert First(tokens, jti, i);
        } else {
          assert forall k | 0 <= k < |front| :: front[k] in front;
          assert First(tokens, jti, |front|);
        }
      }
    }
  }

  function ExpiredTokens(revoked: Revoked, now: Time): set<Jti> {
    set jti | jti in revoked && revoked[jti] <= now
  }

  function PurgeRevoked(revoked: Revoked, now: Time): Revoked {
    map jti | jti in revoked && revoked[jti] > now :: revoked[jti]
  }

  /******* Whole transactions *******/

  datatype LinkKind = VerifyEmail | ResetPassword

  function Applied(user: User, kind: LinkKind, hash: int): User {
    match kind
    case VerifyEmail => user.(verified := true)
    case ResetPassword => user.(passwordHash := hash)
  }

  // A one-time link commits only for a known user and an id not yet consumed.
  predicate CanConsume(db: Tables, uid: UserId, jti: Jti) {
    uid in db.users && jti !in db.revoked
  }

  function Consume(db: Tables, kind: LinkKind, uid: UserId, hash: int, token: TokenRef, now: Time): Tables
    requires CanConsume(db, uid, token.jti)
  {
    db.(users := db.users[uid := Applied(db.users[uid], kind, hash)],
        revoked := db.revoked[token.jti := token.expiresAt],
        sessions := if kind.ResetPassword? then RevokeWhere(db.sessions, ByUser(uid), now) else db.sessions)
  }

  function Pending(user: User, kind: LinkKind): Option<Jti> {
    match kind
    case VerifyEmail => user.pendingVerification
    case ResetPassword => user.pendingReset
  }

  function WithPending(user: User, kind: LinkKind, jti: Jti): User {
    match kind
    case VerifyEmail => user.(pendingVerification := Some(jti))
    case ResetPassword => user.(pendingReset := Some(jti))
  }

  function StartLink(db: Tables, kind: LinkKind, uid: UserId, jti: Jti): Tables {
    if uid !in db.users then db
    else db.(users := db.users[uid := WithPending(db.users[uid], kind, jti)],
             outbox := db.outbox + [Mail(uid, jti)])
  }

  function LogOut(db: Tables, uid: UserId, tokens: seq<TokenRef>, sid: Option<SessionId>, now: Time): Tables {
    db.(revoked := AddAllIfAbsent(db.revoked, tokens),
        sessions := if sid.Some? then RevokeWhere(db.sessions, ByIdAndUser(sid.value, uid), now) else db.sessions)
  }

  function CloseAccount(db: Tables, uid: UserId, tokens: seq<TokenRef>, now: Time): Tables {
    if uid !in db.users then db
    else db.(users := db.users[uid := db.users[uid].(active := false)],
             revoked := AddAllIfAbsent(db.revoked, tokens),
             sessions := RevokeWhere(db.sessions, ByUser(uid), now))
  }

  function NewUser(hash: int, jti: Jti): User {
    User(true, false, hash, Some(jti), None)
  }

  function Register(db: Tables, uid: UserId, hash: int, jti: Jti): Tables {
    db.(users := db.users[uid := NewUser(hash, jti)], outbox := db.outbox + [Mail(uid, jti)])
  }
}
