/**
  The Redis accelerator in front of `revoked_tokens`: logouts write Redis and
  then the table, token checks read Redis and fall back to the table, and a
  check that finds no READY marker may copy the table into Redis.
 */
module Blocklist {
  import opened Options
  import opened AuthTables

  type RequestId = nat

  const MILLISECOND: Time := 1000
  const SEEDING_LOCK: Time := 60 * 1_000_000

  // A key is there while its deadline lies ahead.
  datatype Redis = Redis(keys: map<Jti, Time>, ready: bool, seedingUntil: Time)

  const EMPTY_REDIS := Redis(map[], false, 0)

  // `int((expires_at - now).total_seconds() * 1000)`, for a token not yet expired.
  function TtlMs(expiresAt: Time, readAt: Time): int {
    if expiresAt <= readAt then 0 else (expiresAt - readAt) / MILLISECOND
  }

  // One queued SET of `revoke`, for a clock read at `readAt`, reaching Redis at `now`.
  function Written(redis: Redis, token: TokenRef, readAt: Time, now: Time): Redis {
    var ttl := TtlMs(token.expiresAt, readAt);
    if ttl > 0 then redis.(keys := redis.keys[token.jti := now + ttl * MILLISECOND]) else redis
  }

  predicate HasKey(redis: Redis, jti: Jti, now: Time) {
    jti in redis.keys && redis.keys[jti] > now
  }

  function Lookup(redis: Redis, jti: Jti, now: Time): Option<bool> {
    if redis.ready then Some(HasKey(redis, jti, now)) else None
  }

  /******* Requests *******/

  datatype Stage =
    // a logout or a closure
    | Revoking(tokens: seq<TokenRef>, done: nat, readAt: Time)
    | Ended
    // a token check, with its answer once it has one
    | Asked(jti: Jti)
    | FellBack(jti: Jti)
    | Known(jti: Jti, answer: bool)
    | Claimed(jti: Jti, answer: bool)
    | Holding(jti: Jti, answer: bool, rows: seq<TokenRef>)
    | Seeding(jti: Jti, answer: bool, rows: seq<TokenRef>, done: nat, readAt: Time)
    | Answered(jti: Jti, answer: bool)

  datatype State = State(
    expiryOf: Jti -> Time,         // the `exp` claim of each token id
    now: Time,
    revoked: Revoked,              // the committed table
    redis: Redis,
    requests: map<RequestId, Stage>,
    named: set<Jti>)               // ids some logout named or some link consumed

  datatype Event =
    | Tick(dt: nat)
    | BeginRevoke(req: RequestId, tokens: seq<TokenRef>)
    | RevokeWrite(req: RequestId)
    | RevokeCommit(req: RequestId)
    | ConsumeLink(jti: Jti)        // a one-time link's row, which bypasses Redis
    | PurgeRows
    | BeginCheck(req: RequestId, jti: Jti)
    | LookUp(req: RequestId)
    | ReadTable(req: RequestId)
    | ClaimSeeding(req: RequestId)
    | ListRows(req: RequestId, rows: seq<TokenRef>)
    | BeginSeed(req: RequestId)
    | SeedWrite(req: RequestId)
    | MarkReady(req: RequestId)
    | Fail(req: RequestId)         // a Redis or database error, or a crash
    | Flush                        // Redis loses everything

  function Init(expiryOf: Jti -> Time): State {
    State(expiryOf, 0, map[], EMPTY_REDIS, map[], {})
  }

  function At(s: State, req: RequestId, stage: Stage): State {
    s.(requests := s.requests[req := stage])
  }

  function Ids(tokens: seq<TokenRef>): set<Jti> {
    set t | t in tokens :: t.jti
  }

  function Rows(rows: seq<TokenRef>): set<TokenRef> {
    set r | r in rows
  }

  predicate GenuineTokens(s: State, tokens: seq<TokenRef>) {
    forall t <- tokens :: t.expiresAt == s.expiryOf(t.jti)
  }

  function Advance(s: State, e: Event, req: RequestId, stage: Stage): State {
    match (e, stage)
    case (RevokeWrite(_), Revoking(tokens, done, readAt)) =>
      if done < |tokens| then
        At(s, req, Revoking(tokens, done + 1, readAt)).(redis := Written(s.redis, tokens[done], readAt, s.now))
      else s
    case (RevokeCommit(_), Revoking(tokens, done, readAt)) =>
      if done == |tokens| then At(s, req, Ended).(revoked := AddAllIfAbsent(s.revoked, tokens)) else s
    case (LookUp(_), Asked(jti)) =>
      At(s, req, match Lookup(s.redis, jti, s.now) case Some(hit) => Answered(jti, hit) case None => FellBack(jti))
    case (ReadTable(_), FellBack(jti)) => At(s, req, Known(jti, Exists(s.revoked, jti, s.now)))
    case (ClaimSeeding(_), Known(jti, answer)) =>
      if s.redis.seedingUntil > s.now then At(s, req, Answered(jti, answer))
      else At(s, req, Claimed(jti, answer)).(redis := s.redis.(seedingUntil := s.now + SEEDING_LOCK))
    case (ListRows(_, rows), Claimed(jti, answer)) =>
      if Rows(rows) == ListActive(s.revoked, s.now) then At(s, req, Holding(jti, answer, rows)) else s
    case (BeginSeed(_), Holding(jti, answer, rows)) => At(s, req, Seeding(jti, answer, rows, 0, s.now))
    case (SeedWrite(_), Seeding(jti, answer, rows, done, readAt)) =>
      if done < |rows| then
        At(s, req, Seeding(jti, answer, rows, done + 1, readAt)).(redis := Written(s.redis, rows[done], readAt, s.now))
      else s
    case (MarkReady(_), Seeding(jti, answer, rows, done, readAt)) =>
      if done == |rows| then At(s, req, Answered(jti, answer)).(redis := s.redis.(ready := true)) else s
    case (Fail(_), _) => At(s, req, AfterFailure(stage))
    case _ => s
  }

  // A failed lookup falls back, a failed seeding is swallowed, and a failed
  // logout raises before it reaches the table.
  function AfterFailure(stage: Stage): Stage {
    match stage
    case Revoking(_, _, _) => Ended
    case Asked(jti) => FellBack(jti)
    case Known(jti, answer) => Answered(jti, answer)
    case Claimed(jti, answer) => Answered(jti, answer)
    case Holding(jti, answer, _) => Answered(jti, answer)
    case Seeding(jti, answer, _, _, _) => Answered(jti, answer)
    case other => other
  }

  function Step(s: State, e: Event): State {
    match e
    case Tick(dt) => s.(now := s.now + dt)
    case BeginRevoke(req, tokens) =>
      if req in s.requests || !GenuineTokens(s, tokens) then s
      else At(s, req, Revoking(tokens, 0, s.now)).(named := s.named + Ids(tokens))
    case ConsumeLink(jti) =>
      if !jti.LinkToken? || jti in s.revoked then s
      else s.(revoked := s.revoked[jti := s.expiryOf(jti)], named := s.named + {jti})
    case PurgeRows => s.(revoked := PurgeRevoked(s.revoked, s.now))
    case BeginCheck(req, jti) => if req in s.requests then s else At(s, req, Asked(jti))
    case Flush => s.(redis := EMPTY_REDIS)
    case _ => if e.req in s.requests then Advance(s, e, e.req, s.requests[e.req]) else s
  }

  function Run(s: State, events: seq<Event>): State {
    if events == [] then s else Step(Run(s, events[..|events| - 1]), events[|events| - 1])
  }

  lemma RunSnoc(s: State, events: seq<Event>, e: Event)
    ensures Run(s, events + [e]) == Step(Run(s, events), e)
  {
    assert (events + [e])[..|events|] == events;
  }

  /******* Invariant *******/

  // The token's key is there to within the last millisecond of its life.
  ghost predicate Covered(s: State, jti: Jti) {
    || s.expiryOf(jti) < s.now + MILLISECOND
    || (jti in s.redis.keys && s.redis.keys[jti] > s.expiryOf(jti) - MILLISECOND)
  }

  // A key a logout has written is there, or need not be: the row is committed
  // already, or the logout has yet to write the same id again.
  ghost predicate Pledged(s: State, tokens: seq<TokenRef>, done: nat, i: nat)
    requires i < |tokens|
  {
    var jti := tokens[i].jti;
    jti.LinkToken? || Covered(s, jti) || jti in s.revoked || Again(tokens, done, jti)
  }

  predicate Again(tokens: seq<TokenRef>, from: nat, jti: Jti) {
    exists k | from <= k < |tokens| :: tokens[k].jti == jti
  }

  // Every live session-token row is covered, or is among the rows still to copy.
  ghost predicate AllCoveredBut(s: State, rows: seq<TokenRef>) {
    forall jti <- s.revoked | jti.SessionToken? && s.revoked[jti] > s.now ::
      Covered(s, jti) || TokenRef(jti, s.revoked[jti]) in rows
  }

  ghost predicate StageOk(s: State, stage: Stage) {
    match stage
    case Revoking(tokens, done, readAt) =>
      && GenuineTokens(s, tokens) && readAt <= s.now && done <= |tokens|
      && forall i: nat | i < done :: Pledged(s, tokens, done, i)
    case Holding(_, _, rows) => GenuineTokens(s, rows) && AllCoveredBut(s, rows)
    case Seeding(_, _, rows, done, readAt) =>
      && GenuineTokens(s, rows) && readAt <= s.now && done <= |rows|
      && AllCoveredBut(s, rows[done..])
    case _ => true
  }

  ghost predicate RequestsOk(s: State) {
    forall req <- s.requests :: StageOk(s, s.requests[req])
  }

  ghost predicate TablesOk(s: State) {
    && (forall jti <- s.revoked :: s.revoked[jti] == s.expiryOf(jti))
    && (forall jti <- s.redis.keys :: s.redis.keys[jti] > s.expiryOf(jti) - MILLISECOND)
    && (s.redis.ready ==> AllCoveredBut(s, []))
  }

  ghost predicate Inv(s: State) {
    RequestsOk(s) && TablesOk(s)
  }

  // A token with a millisecond or more to live.
  predicate Lasting(s: State, jti: Jti) {
    jti.SessionToken? && s.expiryOf(jti) >= s.now + MILLISECOND
  }

  ghost predicate HoldsAllRows(s: State, rows: seq<TokenRef>) {
    forall jti <- s.revoked | Lasting(s, jti) :: TokenRef(jti, s.expiryOf(jti)) in rows
  }

  // What each request would have to make good if Redis lost everything now: a
  // logout, the keys it has written and neither committed nor yet to write again;
  // a seeder, the rows not among those it has still to write.
  ghost predicate StageSafe(s: State, stage: Stage) {
    match stage
    case Revoking(tokens, done, _) =>
      forall i | 0 <= i < done && i < |tokens| && Lasting(s, tokens[i].jti) ::
        tokens[i].jti in s.revoked || Again(tokens, done, tokens[i].jti)
    case Holding(_, _, rows) => HoldsAllRows(s, rows)
    case Seeding(_, _, rows, done, _) => done <= |rows| ==> HoldsAllRows(s, rows[done..])
    case _ => true
  }

  // The moments at which losing Redis is harmless.
  ghost predicate FlushSafe(s: State) {
    forall req <- s.requests :: StageSafe(s, s.requests[req])
  }

  ghost predicate Guarded(s: State, e: Event) {
    e.Flush? ==> FlushSafe(s)
  }

  // What time and other writes leave of coverage.
  ghost predicate Later(s: State, t: State) {
    && t.expiryOf == s.expiryOf && s.now <= t.now
    && (forall jti: Jti {:trigger Covered(t, jti)} :: Covered(s, jti) ==> Covered(t, jti))
    && (forall jti <- s.revoked :: jti in t.revoked || Covered(t, jti))
    && (forall jti <- t.revoked | jti.SessionToken? && t.revoked[jti] > t.now ::
          Covered(t, jti) || (jti in s.revoked && s.revoked[jti] == t.revoked[jti]))
  }

  // A logout that has written all its tokens.
  ghost predicate Committing(s: State, e: Event) {
    && e.RevokeCommit? && e.req in s.requests && s.requests[e.req].Revoking?
    && s.requests[e.req].done == |s.requests[e.req].tokens|
  }

  lemma CommitRows(s: State, req: RequestId)
    requires Inv(s) && Committing(s, RevokeCommit(req))
    ensures var t := Step(s, RevokeCommit(req));
      && (forall jti <- t.revoked :: t.revoked[jti] == s.expiryOf(jti))
      && (forall jti <- t.revoked | jti.SessionToken? :: jti in s.revoked || Covered(s, jti))
      && (forall jti <- s.revoked :: jti in t.revoked)
  {
    var tokens := s.requests[req].tokens;
    assert StageOk(s, s.requests[req]);
    AddAllIfAbsentMeaning(s.revoked, tokens);
    var rows := AddAllIfAbsent(s.revoked, tokens);
    forall jti | jti in rows && jti !in s.revoked
      ensures rows[jti] == s.expiryOf(jti) && (jti.SessionToken? ==> Covered(s, jti))
    {
      var i :| 0 <= i < |tokens| && tokens[i] == TokenRef(jti, rows[jti]);
      assert Pledged(s, tokens, |tokens|, i);
    }
  }

  // A write leaves its token covered, however late it reaches Redis.
  lemma WriteCovers(s: State, token: TokenRef, readAt: Time)
    requires readAt <= s.now && token.expiresAt == s.expiryOf(token.jti)
    ensures Covered(s.(redis := Written(s.redis, token, readAt, s.now)), token.jti)
  {
  }

  lemma CommitLater(s: State, e: Event)
    requires Inv(s) && Committing(s, e)
    ensures Later(s, Step(s, e))
  {
    CommitRows(s, e.req);
  }

  lemma WriteLater(s: State, e: Event)
    requires Inv(s) && (e.RevokeWrite? || e.SeedWrite?)
    ensures Later(s, Step(s, e))
  {
    if e.req in s.requests { assert StageOk(s, s.requests[e.req]); }
  }

  lemma PurgeLater(s: State)
    requires Inv(s)
    ensures Later(s, Step(s, PurgeRows))
  {
  }

  lemma StepLater(s: State, e: Event)
    requires Inv(s) && !e.Flush?
    ensures Later(s, Step(s, e))
  {
    if Committing(s, e) {
      CommitLater(s, e);
    } else if e.RevokeWrite? || e.SeedWrite? {
      WriteLater(s, e);
    } else if e.PurgeRows? {
      PurgeLater(s);
    }
  }

  lemma StepTables(s: State, e: Event)
    requires Inv(s) && !e.Flush?
    ensures TablesOk(Step(s, e))
  {
    StepLater(s, e);
    if Committing(s, e) {
      CommitRows(s, e.req);
    } else if e.RevokeWrite? || e.SeedWrite? || e.MarkReady? {
      if e.req in s.requests { assert StageOk(s, s.requests[e.req]); }
    }
  }

  lemma StageLater(s: State, t: State, stage: Stage)
    requires Later(s, t) && StageOk(s, stage)
    ensures StageOk(t, stage)
  {
    match stage
    case Revoking(tokens, done, _) =>
      forall i: nat | i < done ensures Pledged(t, tokens, done, i) {
        assert Pledged(s, tokens, done, i);
      }
    case _ =>
  }

  lemma ListedRows(s: State, rows: seq<TokenRef>)
    requires TablesOk(s) && Rows(rows) == ListActive(s.revoked, s.now)
    ensures GenuineTokens(s, rows) && AllCoveredBut(s, rows)
  {
    forall r | r in rows ensures r.jti in s.revoked && r.expiresAt == s.revoked[r.jti] {
      assert r in Rows(rows) && r in ListActive(s.revoked, s.now);
    }
    forall jti | jti in s.revoked && s.revoked[jti] > s.now ensures TokenRef(jti, s.revoked[jti]) in rows {
      assert TokenRef(jti, s.revoked[jti]) in ListActive(s.revoked, s.now);
    }
  }

  // One more token of a logout is written.
  lemma RevokingMoves(s: State, t: State, tokens: seq<TokenRef>, done: nat, readAt: Time)
    requires Later(s, t) && StageOk(s, Revoking(tokens, done, readAt))
    requires done < |tokens| && Covered(t, tokens[done].jti)
    ensures StageOk(t, Revoking(tokens, done + 1, readAt))
  {
    var next := done + 1;
    forall i: nat | i < next ensures Pledged(t, tokens, next, i) {
      if i < done {
        assert Pledged(s, tokens, done, i);
        if Again(tokens, done, tokens[i].jti) {
          var k :| done <= k < |tokens| && tokens[k].jti == tokens[i].jti;
          assert k > done ==> Again(tokens, next, tokens[i].jti);
        }
      }
    }
  }

  // One more row of a copy is written.
  lemma SeedingMoves(s: State, t: State, rows: seq<TokenRef>, done: nat)
    requires Later(s, t) && GenuineTokens(s, rows) && done < |rows| && AllCoveredBut(s, rows[done..])
    requires Covered(t, rows[done].jti)
    ensures AllCoveredBut(t, rows[done + 1..])
  {
    assert rows[done..] == [rows[done]] + rows[done + 1..];
  }

  lemma OwnStage(s: State, e: Event, req: RequestId)
    requires Inv(s) && req in s.requests && Later(s, Advance(s, e, req, s.requests[req]))
    requires Advance(s, e, req, s.requests[req]).requests[req] != s.requests[req]
    ensures var t := Advance(s, e, req, s.requests[req]);
      req in t.requests && StageOk(t, t.requests[req])
  {
    var stage := s.requests[req];
    var t := Advance(s, e, req, stage);
    assert StageOk(s, stage);
    match e
    case ListRows(_, rows) =>
      if Rows(rows) == ListActive(s.revoked, s.now) { ListedRows(s, rows); }
    case RevokeWrite(_) =>
      WriteCovers(s, stage.tokens[stage.done], stage.readAt);
      RevokingMoves(s, t, stage.tokens, stage.done, stage.readAt);
    case BeginSeed(_) => assert stage.rows[0..] == stage.rows;
    case SeedWrite(_) =>
      WriteCovers(s, stage.rows[stage.done], stage.readAt);
      SeedingMoves(s, t, stage.rows, stage.done);
    case _ =>
  }

  lemma StepRequests(s: State, e: Event)
    requires Inv(s) && !e.Flush?
    ensures RequestsOk(Step(s, e))
  {
    StepLater(s, e);
    var t := Step(s, e);
    forall req | req in t.requests
      ensures StageOk(t, t.requests[req])
    {
      if req in s.requests && t.requests[req] == s.requests[req] {
        StageLater(s, t, s.requests[req]);
      } else if req in s.requests {
        OwnStage(s, e, req);
      }
    }
  }

  lemma InitInv(expiryOf: Jti -> Time)
    ensures Inv(Init(expiryOf))
  {
  }

  // Losing Redis at a safe moment keeps the invariant.
  lemma FlushInv(s: State)
    requires Inv(s) && FlushSafe(s)
    ensures Inv(Step(s, Flush))
  {
    forall req | req in s.requests
      ensures StageOk(Step(s, Flush), s.requests[req])
    {
      assert StageOk(s, s.requests[req]) && StageSafe(s, s.requests[req]);
    }
  }

  lemma StepInv(s: State, e: Event)
    requires Inv(s) && Guarded(s, e)
    ensures Inv(Step(s, e))
  {
    if e.Flush? {
      FlushInv(s);
    } else {
      StepTables(s, e);
      StepRequests(s, e);
    }
  }

  /******* Runs *******/

  ghost predicate GuardedRun(s: State, events: seq<Event>) {
    forall i {:trigger events[i]} | 0 <= i < |events| :: Guarded(Run(s, events[..i]), events[i])
  }

  lemma GuardedFront(s: State, events: seq<Event>)
    requires events != [] && GuardedRun(s, events)
    ensures GuardedRun(s, events[..|events| - 1]) && Guarded(Run(s, events[..|events| - 1]), events[|events| - 1])
  {
    var front := events[..|events| - 1];
    assert events[..|front|] == front && Guarded(Run(s, events[..|front|]), events[|front|]);
    forall i | 0 <= i < |front| ensures Guarded(Run(s, front[..i]), front[i]) {
      assert front[..i] == events[..i] && Guarded(Run(s, events[..i]), events[i]);
    }
  }

  lemma {:induction false} RunInv(s: State, events: seq<Event>)
    requires Inv(s) && GuardedRun(s, events)
    ensures Inv(Run(s, events))
  {
    if events == [] {
    } else {
      GuardedFront(s, events);
      RunInv(s, events[..|events| - 1]);
      StepInv(Run(s, events[..|events| - 1]), events[|events| - 1]);
    }
  }

  /******* The blocklist agrees with the table *******/

  // Whenever READY is set, each committed session token with at least a
  // millisecond left has a live key, good to within a millisecond of its expiry.
  lemma BlocklistAgrees(expiryOf: Jti -> Time, history: seq<Event>, jti: Jti)
    requires GuardedRun(Init(expiryOf), history) && jti.SessionToken?
    requires var s := Run(Init(expiryOf), history);
      s.redis.ready && jti in s.revoked && s.revoked[jti] >= s.now + MILLISECOND
    ensures var s := Run(Init(expiryOf), history);
      && HasKey(s.redis, jti, s.now)
      && s.redis.keys[jti] > s.revoked[jti] - MILLISECOND
      && Lookup(s.redis, jti, s.now) == Some(true)
  {
    InitInv(expiryOf);
    RunInv(Init(expiryOf), history);
  }

  /******* is_token_revoked *******/

  // From the moment the row is committed, a check begun later may only end in
  // `false` within the token's last millisecond.
  ghost predicate Watched(s: State, req: RequestId, jti: Jti) {
    && (jti in s.revoked || s.expiryOf(jti) <= s.now)
    && req in s.requests
    && var stage := s.requests[req];
       && (stage.Asked? || stage.FellBack? || stage.Known? || stage.Claimed? || stage.Holding? || stage.Seeding?
            || stage.Answered?)
       && stage.jti == jti
       && (stage.Known? || stage.Claimed? || stage.Holding? || stage.Seeding? || stage.Answered? ==>
             stage.answer || s.expiryOf(jti) < s.now + MILLISECOND)
  }

  predicate Moves(e: Event, req: RequestId) {
    && (e.LookUp? || e.ReadTable? || e.ClaimSeeding? || e.ListRows? || e.BeginSeed? || e.SeedWrite? || e.MarkReady?
         || e.Fail?)
    && e.req == req
  }

  // The check moves itself.
  lemma WatchedMoves(s: State, e: Event, req: RequestId, jti: Jti)
    requires TablesOk(s) && jti.SessionToken? && Watched(s, req, jti) && Moves(e, req)
    ensures Watched(Step(s, e), req, jti)
  {
    if e.LookUp? && s.redis.ready && jti in s.revoked && s.expiryOf(jti) > s.now {
      assert s.revoked[jti] == s.expiryOf(jti) && Covered(s, jti);
    }
  }

  lemma StandsStill(s: State, e: Event, req: RequestId)
    requires req in s.requests && !s.requests[req].Revoking? && !Moves(e, req)
    ensures req in Step(s, e).requests && Step(s, e).requests[req] == s.requests[req]
  {
  }

  lemma StepWatched(s: State, e: Event, req: RequestId, jti: Jti)
    requires TablesOk(s) && jti.SessionToken? && Watched(s, req, jti)
    ensures Watched(Step(s, e), req, jti)
  {
    if Moves(e, req) {
      WatchedMoves(s, e, req, jti);
    } else {
      RowStays(s, e, jti);
      StandsStill(s, e, req);
    }
  }

  lemma RowStays(s: State, e: Event, jti: Jti)
    requires jti in s.revoked ==> s.revoked[jti] == s.expiryOf(jti)
    requires jti in s.revoked || s.expiryOf(jti) <= s.now
    ensures var t := Step(s, e);
      t.expiryOf == s.expiryOf && s.now <= t.now && (jti in t.revoked || t.expiryOf(jti) <= t.now)
  {
    if e.RevokeCommit? && e.req in s.requests && s.requests[e.req].Revoking? {
      AddAllIfAbsentMeaning(s.revoked, s.requests[e.req].tokens);
    }
  }

  lemma {:induction false} RunWatched(s: State, future: seq<Event>, req: RequestId, jti: Jti)
    requires Inv(s) && jti.SessionToken? && Watched(s, req, jti) && GuardedRun(s, future)
    ensures Watched(Run(s, future), req, jti)
  {
    if future == [] {
    } else {
      var front := future[..|future| - 1];
      GuardedFront(s, future);
      RunWatched(s, front, req, jti);
      RunInv(s, front);
      StepWatched(Run(s, front), future[|future| - 1], req, jti);
    }
  }

  // A check that begins after a session token's row is committed answers `true`
  // unless the token is in its last millisecond when it answers.
  lemma CheckNeverMisses(expiryOf: Jti -> Time, history: seq<Event>, req: RequestId, jti: Jti, future: seq<Event>)
    requires GuardedRun(Init(expiryOf), history) && jti.SessionToken?
    requires var s := Run(Init(expiryOf), history); jti in s.revoked && req !in s.requests
    requires GuardedRun(Step(Run(Init(expiryOf), history), BeginCheck(req, jti)), future)
    ensures var t := Run(Step(Run(Init(expiryOf), history), BeginCheck(req, jti)), future);
      && req in t.requests
      && (t.requests[req] == Answered(jti, false) ==> expiryOf(jti) < t.now + MILLISECOND)
  {
    InitInv(expiryOf);
    RunInv(Init(expiryOf), history);
    var s := Run(Init(expiryOf), history);
    StepInv(s, BeginCheck(req, jti));
    RunWatched(Step(s, BeginCheck(req, jti)), future, req, jti);
    ExpiryKept(Init(expiryOf), history);
    ExpiryKept(Step(s, BeginCheck(req, jti)), future);
  }

  lemma {:induction false} ExpiryKept(s: State, events: seq<Event>)
    ensures Run(s, events).expiryOf == s.expiryOf
  {
    if events == [] {
    } else {
      ExpiryKept(s, events[..|events| - 1]);
    }
  }

  /******* No false alarms *******/

  // Every id in a row, a key, a request's tokens or a `true` answer was named by
  // a logout or consumed by a link.
  ghost predicate NamesOk(s: State) {
    && s.revoked.Keys <= s.named && s.redis.keys.Keys <= s.named
    && forall req <- s.requests :: StageNamed(s, s.requests[req])
  }

  ghost predicate StageNamed(s: State, stage: Stage) {
    match stage
    case Revoking(tokens, _, _) => Ids(tokens) <= s.named
    case Known(jti, answer) => answer ==> jti in s.named
    case Claimed(jti, answer) => answer ==> jti in s.named
    case Holding(jti, answer, rows) => (answer ==> jti in s.named) && Ids(rows) <= s.named
    case Seeding(jti, answer, rows, _, _) => (answer ==> jti in s.named) && Ids(rows) <= s.named
    case Answered(jti, answer) => answer ==> jti in s.named
    case _ => true
  }

  lemma AdvanceNames(s: State, e: Event, req: RequestId)
    requires NamesOk(s) && req in s.requests
    ensures NamesOk(Advance(s, e, req, s.requests[req]))
  {
    var stage := s.requests[req];
    assert StageNamed(s, stage);
    if e.RevokeCommit? && stage.Revoking? && stage.done == |stage.tokens| {
      AddAllIfAbsentMeaning(s.revoked, stage.tokens);
      forall jti | jti in AddAllIfAbsent(s.revoked, stage.tokens) && jti !in s.revoked
        ensures jti in Ids(stage.tokens)
      {
        assert TokenRef(jti, AddAllIfAbsent(s.revoked, stage.tokens)[jti]) in stage.tokens;
      }
    } else if e.ListRows? && Rows(e.rows) == ListActive(s.revoked, s.now) {
      forall r | r in e.rows ensures r.jti in s.revoked {
        assert r in Rows(e.rows) && r in ListActive(s.revoked, s.now);
      }
    } else if e.RevokeWrite? && stage.Revoking? && stage.done < |stage.tokens| {
      assert stage.tokens[stage.done].jti in Ids(stage.tokens);
    } else if e.SeedWrite? && stage.Seeding? && stage.done < |stage.rows| {
      assert stage.rows[stage.done].jti in Ids(stage.rows);
    }
  }

  lemma {:induction false} RunNames(s: State, events: seq<Event>)
    requires NamesOk(s)
    ensures NamesOk(Run(s, events))
  {
    if events == [] {
    } else {
      var front, e := events[..|events| - 1], events[|events| - 1];
      RunNames(s, front);
      StepNames(Run(s, front), e);
    }
  }

  lemma StepNames(s: State, e: Event)
    requires NamesOk(s)
    ensures NamesOk(Step(s, e))
  {
    match e
    case Tick(_) =>
    case BeginRevoke(_, _) =>
    case ConsumeLink(_) =>
    case PurgeRows =>
    case BeginCheck(_, _) =>
    case Flush =>
    case _ => if e.req in s.requests { AdvanceNames(s, e, e.req); }
  }

  // No check answers `true` about a token no logout named and no link consumed,
  // flushes or not.
  lemma NoFalseAlarm(expiryOf: Jti -> Time, history: seq<Event>, req: RequestId)
    requires var s := Run(Init(expiryOf), history);
      req in s.requests && s.requests[req].Answered? && s.requests[req].answer
    ensures var s := Run(Init(expiryOf), history); s.requests[req].jti in s.named
  {
    RunNames(Init(expiryOf), history);
  }

  /******* Single steps *******/

  lemma FallsBack(s: State, req: RequestId, jti: Jti)
    requires req in s.requests && s.requests[req] == Asked(jti) && !s.redis.ready
    ensures Step(s, LookUp(req)) == At(s, req, FellBack(jti))
  {
  }

  lemma ReadsTable(s: State, req: RequestId, jti: Jti)
    requires req in s.requests && s.requests[req] == FellBack(jti)
    ensures Step(s, ReadTable(req)) == At(s, req, Known(jti, Exists(s.revoked, jti, s.now)))
  {
  }

  lemma MarksReady(s: State, req: RequestId)
    requires req in s.requests && s.requests[req].Seeding? && s.requests[req].done == |s.requests[req].rows|
    ensures var g := s.requests[req];
      Step(s, MarkReady(req)) == At(s, req, Answered(g.jti, g.answer)).(redis := s.redis.(ready := true))
  {
  }

  lemma LooksUp(s: State, req: RequestId, jti: Jti)
    requires req in s.requests && s.requests[req] == Asked(jti)
    ensures var cached := Lookup(s.redis, jti, s.now);
      Step(s, LookUp(req)) == At(s, req, if cached.Some? then Answered(jti, cached.value) else FellBack(jti))
  {
  }

  lemma Claims(s: State, req: RequestId, jti: Jti, answer: bool)
    requires req in s.requests && s.requests[req] == Known(jti, answer)
    ensures Step(s, ClaimSeeding(req)) ==
      if s.redis.seedingUntil > s.now then At(s, req, Answered(jti, answer))
      else At(s, req, Claimed(jti, answer)).(redis := s.redis.(seedingUntil := s.now + SEEDING_LOCK))
  {
  }

  lemma ListsRows(s: State, req: RequestId, jti: Jti, answer: bool, rows: seq<TokenRef>)
    requires req in s.requests && s.requests[req] == Claimed(jti, answer) && Rows(rows) == ListActive(s.revoked, s.now)
    ensures Step(s, ListRows(req, rows)) == At(s, req, Holding(jti, answer, rows))
  {
  }

  lemma Fails(s: State, req: RequestId)
    requires req in s.requests
    ensures Step(s, Fail(req)) == At(s, req, AfterFailure(s.requests[req]))
  {
  }

  /******* Short runs *******/

  lemma RunTwo(s: State, a: Event, b: Event)
    ensures Run(s, [a, b]) == Step(Step(s, a), b)
  {
    RunSnoc(s, [], a);
    RunSnoc(s, [a], b);
    assert [] + [a] == [a] && [a] + [b] == [a, b];
  }

  lemma RunThree(s: State, es: seq<Event>)
    requires |es| == 3
    ensures Run(s, es) == Step(Step(Step(s, es[0]), es[1]), es[2])
  {
    assert es[..2][..1] == es[..1] && es[..1][..0] == [];
    assert Run(s, es[..1]) == Step(s, es[0]);
    assert Run(s, es[..2]) == Step(Run(s, es[..1]), es[1]);
  }

  lemma {:induction false} RunConcat(s: State, first: seq<Event>, second: seq<Event>)
    ensures Run(s, first + second) == Run(Run(s, first), second)
  {
    if second == [] {
      assert first + second == first;
    } else {
      var front := second[..|second| - 1];
      assert (first + second)[..|first + second| - 1] == first + front;
      RunConcat(s, first, front);
    }
  }
}
