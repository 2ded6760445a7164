/**
  The authentication repositories over one database session.  `working` is the
  open transaction's view of the tables; `Commit` publishes it and `Rollback`
  forgets it.  Clock readings and fresh ids are parameters.
 */
module AuthRepositories {
  import opened Options
  import opened AuthTables

  datatype DbError = EntityNotFound | Conflict | CommitFailed

  class Database {
    var committed: Tables
    var working: Tables
    var forcePrimary: bool   // the context variable that pins reads to the primary

    constructor (tables: Tables)
      ensures committed == working == tables && !forcePrimary
    {
      committed, working, forcePrimary := tables, tables, false;
    }

    // No transaction is open.
    ghost predicate Clean()
      reads this
    {
      working == committed
    }

    method Commit()
      modifies this`committed
      ensures committed == working
    {
      committed := working;
    }

    method Rollback()
      modifies this`working
      ensures working == committed
    {
      working := committed;
    }

    // `transaction`: commit, unless the body raised; what raises, the body or the
    // commit, is raised again after a rollback.
    method EndTransaction(raised: bool, commitFails: bool) returns (reraised: bool)
      modifies this`committed, this`working
      ensures reraised <==> raised || commitFails
      ensures Clean() && committed == if reraised then old(committed) else old(working)
    {
      if raised || commitFails {
        Rollback();
        return true;
      }
      Commit();
      return false;
    }
  }

  class RefreshSessionRepository {
    const db: Database

    constructor (db: Database)
      ensures this.db == db
    {
      this.db := db;
    }

    method Create(sid: SessionId, uid: UserId, expiresAt: Time) returns (row: Session)
      requires db.Clean()
      modifies db
      ensures db.Clean() && db.forcePrimary
      ensures row == Session(uid, 0, expiresAt, None, None)
      ensures db.committed == old(db.committed).(sessions := old(db.committed.sessions)[sid := row])
    {
      db.forcePrimary := true;
      row := Session(uid, 0, expiresAt, None, None);
      db.working := db.working.(sessions := db.working.sessions[sid := row]);
      db.Commit();
    }

    // The compare-and-swap on `generation`.
    method Rotate(sid: SessionId, uid: UserId, generation: nat, now: Time) returns (row: Option<Session>)
      requires db.Clean()
      modifies db
      ensures db.Clean() && db.forcePrimary
      ensures row.Some? <==> CanRotate(old(db.committed.sessions), sid, uid, generation, now)
      ensures row.Some? ==> row.value.generation == generation + 1 && row.value.rotatedAt == Some(now)
      ensures row.Some? ==> row.value == Rotated(old(db.committed.sessions)[sid], now)
      ensures db.committed == if row.None? then old(db.committed)
                              else old(db.committed).(sessions := old(db.committed.sessions)[sid := row.value])
    {
      db.forcePrimary := true;
      row := None;
      if sid in db.working.sessions {
        var current := db.working.sessions[sid];
        if current.userId == uid && current.generation == generation && current.revokedAt == None
          && current.expiresAt > now {
          row := Some(current.(generation := current.generation + 1, rotatedAt := Some(now)));
          db.working := db.working.(sessions := db.working.sessions[sid := row.value]);
        }
      }
      db.Commit();
    }

    // The pin is scoped: it is what it was once the read is done.
    method Get(sid: SessionId) returns (row: Option<Session>)
      requires db.Clean()
      modifies db`forcePrimary
      ensures db.forcePrimary == old(db.forcePrimary)
      ensures row == if sid in db.committed.sessions then Some(db.committed.sessions[sid]) else None
    {
      var token := db.forcePrimary;
      db.forcePrimary := true;
      row := if sid in db.working.sessions then Some(db.working.sessions[sid]) else None;
      db.forcePrimary := token;
    }

    method RevokeMatching(filter: RevokeFilter, now: Time)
      modifies db`working, db`forcePrimary
      ensures db.forcePrimary
      ensures db.working == old(db.working).(sessions := RevokeWhere(old(db.working.sessions), filter, now))
    {
      db.forcePrimary := true;
      var rows := db.working.sessions;
      db.working := db.working.(sessions := map sid | sid in rows ::
        if filter.Matches(sid, rows[sid]) && rows[sid].revokedAt == None
        then rows[sid].(revokedAt := Some(now)) else rows[sid]);
    }

    method Revoke(sid: SessionId, now: Time)
      requires db.Clean()
      modifies db
      ensures db.Clean() && db.forcePrimary
      ensures db.committed == old(db.committed).(sessions := RevokeWhere(old(db.committed.sessions), ById(sid), now))
    {
      RevokeMatching(ById(sid), now);
      db.Commit();
    }

    method PurgeExpired(now: Time) returns (deleted: nat)
      requires db.Clean()
      modifies db
      ensures db.Clean() && db.forcePrimary
      ensures db.committed == old(db.committed).(sessions := PurgeSessions(old(db.committed.sessions), now))
      ensures deleted == |ExpiredSessions(old(db.committed.sessions), now)|
    {
      db.forcePrimary := true;
      var rows := db.working.sessions;
      var expired := ExpiredSessions(rows, now);
      db.working := db.working.(sessions := rows - expired);
      deleted := |expired|;
      db.Commit();
    }
  }

  class RevokedTokenRepository {
    const db: Database

    constructor (db: Database)
      ensures this.db == db
    {
      this.db := db;
    }

    method Contains(jti: Jti, now: Time) returns (found: bool)
      requires db.Clean()
      modifies db`forcePrimary
      ensures db.forcePrimary == old(db.forcePrimary)
      ensures found <==> Exists(db.committed.revoked, jti, now)
    {
      var token := db.forcePrimary;
      db.forcePrimary := true;
      found := jti in db.working.revoked && db.working.revoked[jti] > now;
      db.forcePrimary := token;
    }

    method ActiveTokens(now: Time) returns (tokens: set<TokenRef>)
      requires db.Clean()
      modifies db`forcePrimary
      ensures db.forcePrimary == old(db.forcePrimary)
      ensures forall ref: TokenRef :: ref in tokens <==>
        Exists(db.committed.revoked, ref.jti, now) && db.committed.revoked[ref.jti] == ref.expiresAt
    {
      var pin := db.forcePrimary;
      db.forcePrimary := true;
      tokens := ListActive(db.working.revoked, now);
      db.forcePrimary := pin;
    }

    // The unique index on `jti` turns a second insert into a conflict; the flush that
    // raises has rolled back what the transaction staged.
    method StageAdd(jti: Jti, expiresAt: Time) returns (r: Result<(), DbError>)
      modifies db`working, db`forcePrimary
      ensures db.forcePrimary
      ensures r.Err? <==> jti in old(db.working.revoked)
      ensures r.Err? ==> r.error == Conflict && db.Clean()
      ensures r.Ok? ==> db.working == old(db.working).(revoked := old(db.working.revoked)[jti := expiresAt])
    {
      db.forcePrimary := true;
      if jti in db.working.revoked {
        db.Rollback();
        return Err(Conflict);
      }
      db.working := db.working.(revoked := db.working.revoked[jti := expiresAt]);
      return Ok(());
    }

    method StageAddIfAbsent(token: TokenRef)
      modifies db`working, db`forcePrimary
      ensures db.forcePrimary
      ensures db.working == old(db.working).(revoked := AddIfAbsent(old(db.working.revoked), token))
    {
      db.forcePrimary := true;
      if token.jti !in db.working.revoked {
        db.working := db.working.(revoked := db.working.revoked[token.jti := token.expiresAt]);
      }
    }

    method PurgeExpired(now: Time) returns (deleted: nat)
      requires db.Clean()
      modifies db
      ensures db.Clean() && db.forcePrimary
      ensures db.committed == old(db.committed).(revoked := PurgeRevoked(old(db.committed.revoked), now))
      ensures deleted == |ExpiredTokens(old(db.committed.revoked), now)|
    {
      db.forcePrimary := true;
      var rows := db.working.revoked;
      var expired := ExpiredTokens(rows, now);
      db.working := db.working.(revoked := rows - expired);
      assert db.working.revoked == PurgeRevoked(rows, now);
      deleted := |expired|;
      db.Commit();
    }
  }

  class UserRepository {
    const db: Database

    constructor (db: Database)
      ensures this.db == db
    {
      this.db := db;
    }

    // `get(..., consistent=True)`.
    method GetConsistent(uid: UserId) returns (user: Option<User>)
      requires db.Clean()
      modifies db`forcePrimary
      ensures db.forcePrimary
      ensures user == if uid in db.committed.users then Some(db.committed.users[uid]) else None
    {
      db.forcePrimary := true;
      user := if uid in db.working.users then Some(db.working.users[uid]) else None;
    }

    method StageUpdate(uid: UserId, change: User -> User) returns (user: Option<User>)
      modifies db`working, db`forcePrimary
      ensures db.forcePrimary
      ensures user.Some? <==> uid in old(db.working.users)
      ensures user.Some? ==> user.value == change(old(db.working.users)[uid])
      ensures db.working == if user.None? then old(db.working)
                            else old(db.working).(users := old(db.working.users)[uid := user.value])
    {
      db.forcePrimary := true;
      if uid !in db.working.users {
        return None;
      }
      user := Some(change(db.working.users[uid]));
      db.working := db.working.(users := db.working.users[uid := user.value]);
    }
  }

  class AccountRepository {
    const db: Database
    const users: UserRepository
    const tokens: RevokedTokenRepository
    const sessions: RefreshSessionRepository

    constructor (db: Database)
      ensures this.db == db && Valid()
    {
      this.db := db;
      users := new UserRepository(db);
      tokens := new RevokedTokenRepository(db);
      sessions := new RefreshSessionRepository(db);
    }

    ghost predicate Valid() {
      users.db == db && tokens.db == db && sessions.db == db
    }

    // An unknown user comes first, then a used token, then the commit itself.
    ghost function WhyNotConsumed(db: Tables, uid: UserId, jti: Jti): DbError {
      if uid !in db.users then EntityNotFound else if jti in db.revoked then Conflict else CommitFailed
    }

    // `verify_email` and `reset_password`: the user's row, the consumed id and
    // (for a reset) the sessions change in one commit or not at all.
    method ConsumeLink(kind: LinkKind, uid: UserId, hash: int, token: TokenRef, now: Time, commitFails: bool)
      returns (r: Result<User, DbError>)
      requires Valid() && db.Clean()
      modifies db
      ensures db.Clean()
      ensures r.Ok? <==> CanConsume(old(db.committed), uid, token.jti) && !commitFails
      ensures r.Ok? ==> db.committed == Consume(old(db.committed), kind, uid, hash, token, now)
      ensures r.Err? ==> db.committed == old(db.committed)
      ensures r.Err? ==> r.error == WhyNotConsumed(old(db.committed), uid, token.jti)
    {
      var user := users.StageUpdate(uid, (u: User) => Applied(u, kind, hash));
      r := if user.None? then Err(EntityNotFound) else Ok(user.value);
      if r.Ok? {
        var added := tokens.StageAdd(token.jti, token.expiresAt);
        if added.Err? {
          r := Err(added.error);
        } else if kind.ResetPassword? {
          sessions.RevokeMatching(ByUser(uid), now);
        }
      }
      var reraised := db.EndTransaction(r.Err?, commitFails);
      if r.Ok? && reraised {
        r := Err(CommitFailed);
      }
    }

    // `start_email_verification` and `start_password_reset`: the pending id and
    // the e-mail that carries it commit together.
    method Start(kind: LinkKind, uid: UserId, jti: Jti, commitFails: bool) returns (r: Result<(), DbError>)
      requires Valid() && db.Clean()
      modifies db
      ensures db.Clean()
      ensures db.committed == if r.Ok? then StartLink(old(db.committed), kind, uid, jti) else old(db.committed)
      ensures r.Ok? <==> uid in old(db.committed.users) && !commitFails
      ensures r.Err? ==> r.error == if uid !in old(db.committed.users) then EntityNotFound else CommitFailed
    {
      var user := users.StageUpdate(uid, (u: User) => WithPending(u, kind, jti));
      r := Err(EntityNotFound);
      if user.Some? {
        db.working := db.working.(outbox := db.working.outbox + [Mail(uid, jti)]);
        r := Ok(());
      }
      var reraised := db.EndTransaction(r.Err?, commitFails);
      if r.Ok? && reraised {
        r := Err(CommitFailed);
      }
    }

    method StageAll(refs: seq<TokenRef>)
      requires Valid()
      modifies db`working, db`forcePrimary
      ensures db.working == old(db.working).(revoked := AddAllIfAbsent(old(db.working.revoked), refs))
    {
      for i := 0 to |refs|
        invariant db.working == old(db.working).(revoked := AddAllIfAbsent(old(db.working.revoked), refs[..i]))
      {
        assert refs[..i + 1][..i] == refs[..i];
        tokens.StageAddIfAbsent(refs[i]);
      }
      assert refs[..|refs|] == refs;
    }

    method Logout(uid: UserId, refs: seq<TokenRef>, session: Option<SessionId>, now: Time, commitFails: bool)
      returns (r: Result<(), DbError>)
      requires Valid() && db.Clean()
      modifies db
      ensures r == if commitFails then Err(CommitFailed) else Ok(())
      ensures db.Clean()
      ensures db.committed == if r.Ok? then LogOut(old(db.committed), uid, refs, session, now) else old(db.committed)
    {
      StageAll(refs);
      if session.Some? {
        sessions.RevokeMatching(ByIdAndUser(session.value, uid), now);
      }
      var reraised := db.EndTransaction(false, commitFails);
      r := if reraised then Err(CommitFailed) else Ok(());
    }

    method Close(uid: UserId, refs: seq<TokenRef>, now: Time, commitFails: bool)
      returns (r: Result<Option<User>, DbError>)
      requires Valid() && db.Clean()
      modifies db
      ensures r.Err? <==> commitFails
      ensures r.Err? ==> r.error == CommitFailed
      ensures db.Clean()
      ensures db.committed == if r.Ok? then CloseAccount(old(db.committed), uid, refs, now) else old(db.committed)
      ensures r.Ok? ==> (r.value.Some? <==> uid in old(db.committed.users))
      ensures r.Ok? && r.value.Some? ==> r.value.value == db.committed.users[uid] && !r.value.value.active
    {
      var user := users.StageUpdate(uid, (u: User) => u.(active := false));
      if user.Some? {
        StageAll(refs);
        sessions.RevokeMatching(ByUser(uid), now);
      }
      var reraised := db.EndTransaction(false, commitFails);
      r := if reraised then Err(CommitFailed) else Ok(user);
    }
  }
}
