/**
  `TokenBlocklist` over a Redis server, the token check that uses it, and the
  logout and closure that write it before the table.  Others may move before each
  step, each single SET included; every call is shown to be a run of the protocol.
  Clock readings and failures are parameters.
 */
module BlocklistService {
  import opened Options
  import opened AuthTables
  import opened AuthRepositories
  import opened Blocklist
  import opened Interleaving

  datatype RedisError = Unavailable

  // Why a logout or a closure raises.
  datatype EndError = RedisFailed | TablesFailed

  /******* A request among other requests *******/

  // The events of request `req`.
  predicate Mine(e: Event, req: RequestId) {
    match e
    case Tick(_) => false
    case ConsumeLink(_) => false
    case PurgeRows => false
    case Flush => false
    case _ => e.req == req
  }

  ghost predicate NotMine(pauses: Pauses<Event>, req: RequestId) {
    forall i: nat, e | e in pauses(i) :: !Mine(e, req)
  }

  lemma InterleaveNext(s: State, pauses: Pauses<Event>, own: seq<Event>, e: Event)
    ensures Run(s, Interleave(pauses, own + [e])) == Step(Run(Run(s, Interleave(pauses, own)), pauses(|own|)), e)
  {
    InterleaveSnoc(pauses, own, e);
    RunConcat(s, Interleave(pauses, own), pauses(|own|) + [e]);
    RunSnoc(Run(s, Interleave(pauses, own)), pauses(|own|), e);
  }

  ghost predicate SameStanding(s: State, t: State, req: RequestId) {
    && t.expiryOf == s.expiryOf && s.now <= t.now
    && (req in t.requests <==> req in s.requests) && (req in s.requests ==> t.requests[req] == s.requests[req])
  }

  lemma {:induction false} OthersLeave(s: State, others: seq<Event>, req: RequestId)
    requires forall e <- others :: !Mine(e, req)
    ensures SameStanding(s, Run(s, others), req)
  {
    if others != [] {
      OthersLeave(s, others[..|others| - 1], req);
      OtherLeaves(Run(s, others[..|others| - 1]), others[|others| - 1], req);
    }
  }

  lemma OtherLeaves(s: State, e: Event, req: RequestId)
    requires !Mine(e, req)
    ensures SameStanding(s, Step(s, e), req)
  {
  }

  /******* The world *******/

  class RedisServer {
    var keys: map<Jti, Time>
    var ready: bool
    var seedingUntil: Time

    constructor ()
      ensures Contents() == EMPTY_REDIS
    {
      keys, ready, seedingUntil := map[], false, 0;
    }

    ghost function Contents(): Redis
      reads this
    {
      Redis(keys, ready, seedingUntil)
    }
  }

  class World {
    const expiryOf: Jti -> Time
    const client: RedisServer
    const account: AccountRepository
    const db: Database
    var now: Time
    var requests: map<RequestId, Stage>
    var named: set<Jti>

    constructor (expiryOf: Jti -> Time, tables: Tables)
      requires tables.revoked == map[]
      ensures Valid() && Current() == Init(expiryOf) && fresh(client) && fresh(db)
    {
      this.expiryOf := expiryOf;
      client := new RedisServer();
      var session := new Database(tables);
      db := session;
      account := new AccountRepository(session);
      now, requests, named := 0, map[], {};
    }

    ghost predicate Valid()
      reads this, db
    {
      account.Valid() && account.db == db && db.Clean()
    }

    ghost function Current(): State
      reads this, client, db
    {
      State(expiryOf, now, db.committed.revoked, client.Contents(), requests, named)
    }

    // Everyone else takes a step; the rows of users and sessions are not in the protocol.
    method Other(e: Event)
      requires Valid()
      modifies this, client, db
      ensures Valid() && Current() == Step(old(Current()), e)
      ensures db.committed == old(db.committed).(revoked := db.committed.revoked)
    {
      var redis := Redis(client.keys, client.ready, client.seedingUntil);
      var s := State(expiryOf, now, db.committed.revoked, redis, requests, named);
      var t := Step(s, e);
      ExpiryKept(s, [e]);
      RunSnoc(s, [], e);
      assert [] + [e] == [e];
      db.committed := db.committed.(revoked := t.revoked);
      db.working := db.committed;
      client.keys, client.ready, client.seedingUntil := t.redis.keys, t.redis.ready, t.redis.seedingUntil;
      now, requests, named := t.now, t.requests, t.named;
    }

    method Others(events: seq<Event>)
      requires Valid()
      modifies this, client, db
      ensures Valid() && Current() == Run(old(Current()), events)
      ensures db.committed == old(db.committed).(revoked := db.committed.revoked)
    {
      ghost var s := Current();
      for i := 0 to |events|
        invariant Valid() && Current() == Run(s, events[..i])
        invariant db.committed == old(db.committed).(revoked := db.committed.revoked)
      {
        Other(events[i]);
        assert events[..i + 1][..i] == events[..i];
      }
      assert events[..|events|] == events;
    }

    // The request has taken the steps `own`, each after its pause.
    ghost predicate Progress(s0: State, pauses: Pauses<Event>, own: seq<Event>)
      reads this, client, db
    {
      Valid() && Current() == Run(s0, Interleave(pauses, own))
    }

    // The others move before the i-th step of the request.
    method Pause(req: RequestId, pauses: Pauses<Event>, ghost own: seq<Event>, ghost s0: State, i: nat)
      requires Progress(s0, pauses, own) && i == |own| && NotMine(pauses, req)
      modifies this, client, db
      ensures Valid() && SameStanding(old(Current()), Current(), req)
      ensures Current() == Run(Run(s0, Interleave(pauses, own)), pauses(i))
      ensures db.committed == old(db.committed).(revoked := db.committed.revoked)
    {
      OthersLeave(Current(), pauses(i), req);
      Others(pauses(i));
    }

    ghost predicate Stands(req: RequestId, stage: Stage)
      reads this
    {
      req in requests && requests[req] == stage
    }

    method Note(req: RequestId, stage: Stage)
      modifies this`requests
      ensures requests == old(requests)[req := stage]
    {
      requests := requests[req := stage];
    }
  }

  /******* TokenBlocklist *******/

  // Whom a pipeline of SETs is for, and so which of the protocol's stages it is in.
  datatype Phase = ForLogout | ForSeed(jti: Jti, answer: bool)

  function Writing(phase: Phase, tokens: seq<TokenRef>, done: nat, readAt: Time): Stage {
    match phase
    case ForLogout => Revoking(tokens, done, readAt)
    case ForSeed(jti, answer) => Seeding(jti, answer, tokens, done, readAt)
  }

  function WriteBy(phase: Phase, req: RequestId): Event {
    if phase.ForLogout? then RevokeWrite(req) else SeedWrite(req)
  }

  // `done` is `own` and more of one event.
  ghost predicate Extends(own: seq<Event>, done: seq<Event>, e: Event) {
    own <= done && forall i | |own| <= i < |done| :: done[i] == e
  }

  lemma ExtendsOne(own: seq<Event>, done: seq<Event>, e: Event)
    requires Extends(own, done, e)
    ensures Extends(own, done + [e], e)
  {
  }

  // How a seeding ends: with READY if Redis was up throughout, and never if it was
  // down for READY itself.
  ghost predicate SeedEnds(req: RequestId, rows: seq<TokenRef>, failAt: nat, up: bool, last: Event) {
    && (last == MarkReady(req) || last == Fail(req))
    && (up && failAt >= |rows| ==> last == MarkReady(req))
    && (!up ==> last == Fail(req))
  }

  class TokenBlocklist {
    const world: World

    constructor (world: World)
      ensures this.world == world
    {
      this.world := world;
    }

    // One SET, when the token has any life left by the clock read before.
    method Write(req: RequestId, phase: Phase, tokens: seq<TokenRef>, i: nat, readAt: Time, ttlMs: int)
      requires world.Valid() && i < |tokens| && world.Stands(req, Writing(phase, tokens, i, readAt))
      requires ttlMs == TtlMs(tokens[i].expiresAt, readAt)
      modifies world, world.client
      ensures world.Valid() && world.Stands(req, Writing(phase, tokens, i + 1, readAt))
      ensures world.Current() == Step(old(world.Current()), WriteBy(phase, req))
    {
      if ttlMs > 0 {
        world.client.keys := world.client.keys[tokens[i].jti := world.now + ttlMs * MILLISECOND];
      }
      world.Note(req, Writing(phase, tokens, i + 1, readAt));
    }

    method PausedWrite(req: RequestId, phase: Phase, tokens: seq<TokenRef>, i: nat, readAt: Time, ttlMs: int,
                       pauses: Pauses<Event>, k: nat, ghost s0: State, ghost own: seq<Event>)
      requires world.Progress(s0, pauses, own) && k == |own| && NotMine(pauses, req)
      requires i < |tokens| && world.Stands(req, Writing(phase, tokens, i, readAt))
      requires ttlMs == TtlMs(tokens[i].expiresAt, readAt)
      modifies world, world.client, world.db
      ensures world.Progress(s0, pauses, own + [WriteBy(phase, req)])
      ensures world.Stands(req, Writing(phase, tokens, i + 1, readAt))
      ensures world.db.committed == old(world.db.committed).(revoked := world.db.committed.revoked)
    {
      InterleaveNext(s0, pauses, own, WriteBy(phase, req));
      world.Pause(req, pauses, own, s0, k);
      Write(req, phase, tokens, i, readAt, ttlMs);
    }

    method Lifetimes(tokens: seq<TokenRef>, readAt: Time) returns (ttls: seq<int>)
      ensures |ttls| == |tokens| && forall j | 0 <= j < |tokens| :: ttls[j] == TtlMs(tokens[j].expiresAt, readAt)
    {
      ttls := [];
      for i := 0 to |tokens|
        invariant |ttls| == i && forall j | 0 <= j < i :: ttls[j] == TtlMs(tokens[j].expiresAt, readAt)
      {
        ttls := ttls + [TtlMs(tokens[i].expiresAt, readAt)];
      }
    }

    // `revoke`: the lifetimes are worked out first, then each SET goes out, until one
    // fails.  A token past its life is not sent, so it cannot fail.
    method Revoke(req: RequestId, phase: Phase, tokens: seq<TokenRef>, readAt: Time, failAt: nat, pauses: Pauses<Event>,
                  k: nat, ghost s0: State, ghost own: seq<Event>)
      returns (r: Result<(), RedisError>, next: nat, ghost done: seq<Event>)
      requires world.Progress(s0, pauses, own) && k == |own| && NotMine(pauses, req)
      requires world.Stands(req, Writing(phase, tokens, 0, readAt))
      modifies world, world.client, world.db
      ensures world.Progress(s0, pauses, done) && next == |done| && Extends(own, done, WriteBy(phase, req))
      ensures r.Err? <==> failAt < |tokens| && TtlMs(tokens[failAt].expiresAt, readAt) > 0
      ensures world.Stands(req, Writing(phase, tokens, if r.Ok? then |tokens| else failAt, readAt))
      ensures world.db.committed == old(world.db.committed).(revoked := world.db.committed.revoked)
    {
      var ttls := Lifetimes(tokens, readAt);
      var fails := failAt < |tokens| && ttls[failAt] > 0;
      var upTo := if fails then failAt else |tokens|;
      next, done := WriteUpTo(req, phase, tokens, readAt, ttls, upTo, pauses, k, s0, own);
      r := if fails then Err(Unavailable) else Ok(());
    }

    method WriteUpTo(req: RequestId, phase: Phase, tokens: seq<TokenRef>, readAt: Time, ttls: seq<int>, upTo: nat,
                     pauses: Pauses<Event>, k: nat, ghost s0: State, ghost own: seq<Event>)
      returns (next: nat, ghost done: seq<Event>)
      requires world.Progress(s0, pauses, own) && k == |own| && NotMine(pauses, req)
      requires world.Stands(req, Writing(phase, tokens, 0, readAt)) && upTo <= |tokens| == |ttls|
      requires forall j | 0 <= j < |tokens| :: ttls[j] == TtlMs(tokens[j].expiresAt, readAt)
      modifies world, world.client, world.db
      ensures world.Progress(s0, pauses, done) && next == |done| && Extends(own, done, WriteBy(phase, req))
      ensures world.Stands(req, Writing(phase, tokens, upTo, readAt))
      ensures world.db.committed == old(world.db.committed).(revoked := world.db.committed.revoked)
    {
      done, next := own, k;
      for i := 0 to upTo
        invariant world.Progress(s0, pauses, done) && next == |done| && Extends(own, done, WriteBy(phase, req))
        invariant world.Stands(req, Writing(phase, tokens, i, readAt))
        invariant world.db.committed == old(world.db.committed).(revoked := world.db.committed.revoked)
      {
        PausedWrite(req, phase, tokens, i, readAt, ttls[i], pauses, next, s0, done);
        ExtendsOne(own, done, WriteBy(phase, req));
        done, next := done + [WriteBy(phase, req)], next + 1;
      }
    }

    // One MGET of the token's key and the READY marker.
    method LookupKey(jti: Jti, up: bool) returns (cached: Option<bool>)
      ensures cached == if up then Blocklist.Lookup(world.client.Contents(), jti, world.now) else None
    {
      if !up || !world.client.ready {
        return None;
      }
      return Some(jti in world.client.keys && world.client.keys[jti] > world.now);
    }

    // SET NX EX: at most one winner while the lock lasts.
    method TryClaim(up: bool) returns (won: bool)
      modifies world.client`seedingUntil
      ensures won <==> up && old(world.client.seedingUntil) <= world.now
      ensures world.client.seedingUntil == if won then world.now + SEEDING_LOCK else old(world.client.seedingUntil)
    {
      won := up && world.client.seedingUntil <= world.now;
      if won {
        world.client.seedingUntil := world.now + SEEDING_LOCK;
      }
    }

    // `seed`: READY after every SET, and any failure swallowed.
    method Seed(req: RequestId, jti: Jti, answer: bool, rows: seq<TokenRef>, failAt: nat, up: bool,
                pauses: Pauses<Event>, k: nat, ghost s0: State, ghost own: seq<Event>)
      returns (ghost done: seq<Event>)
      requires world.Progress(s0, pauses, own) && k == |own| && NotMine(pauses, req)
      requires world.Stands(req, Holding(jti, answer, rows))
      modifies world, world.client, world.db
      ensures world.Progress(s0, pauses, done) && world.Stands(req, Answered(jti, answer))
      ensures own <= done && |own| < |done| && SeedEnds(req, rows, failAt, up, done[|done| - 1])
    {
      var readAt := BeginSeeding(req, jti, answer, rows, pauses, k, s0, own);
      done := Fill(req, jti, answer, rows, readAt, failAt, up, pauses, k + 1, s0, own + [BeginSeed(req)]);
    }

    method Fill(req: RequestId, jti: Jti, answer: bool, rows: seq<TokenRef>, readAt: Time, failAt: nat, up: bool,
                pauses: Pauses<Event>, k: nat, ghost s0: State, ghost own: seq<Event>)
      returns (ghost done: seq<Event>)
      requires world.Progress(s0, pauses, own) && k == |own| && NotMine(pauses, req)
      requires world.Stands(req, Seeding(jti, answer, rows, 0, readAt))
      modifies world, world.client, world.db
      ensures world.Progress(s0, pauses, done) && world.Stands(req, Answered(jti, answer))
      ensures own <= done && |own| < |done| && SeedEnds(req, rows, failAt, up, done[|done| - 1])
    {
      var r, next, writes := Revoke(req, ForSeed(jti, answer), rows, readAt, failAt, pauses, k, s0, own);
      var i := if r.Ok? then |rows| else failAt;
      var last := EndSeeding(req, jti, answer, rows, i, readAt, r.Ok? && up, pauses, next, s0, writes);
      done := writes + [last];
    }

    method BeginSeeding(req: RequestId, jti: Jti, answer: bool, rows: seq<TokenRef>, pauses: Pauses<Event>, k: nat,
                        ghost s0: State, ghost own: seq<Event>)
      returns (readAt: Time)
      requires world.Progress(s0, pauses, own) && k == |own| && NotMine(pauses, req)
      requires world.Stands(req, Holding(jti, answer, rows))
      modifies world, world.client, world.db
      ensures world.Progress(s0, pauses, own + [BeginSeed(req)])
      ensures world.Stands(req, Seeding(jti, answer, rows, 0, readAt))
    {
      InterleaveNext(s0, pauses, own, BeginSeed(req));
      world.Pause(req, pauses, own, s0, k);
      readAt := world.now;
      world.Note(req, Seeding(jti, answer, rows, 0, readAt));
    }

    method EndSeeding(req: RequestId, jti: Jti, answer: bool, rows: seq<TokenRef>, i: nat, readAt: Time, ok: bool,
                      pauses: Pauses<Event>, k: nat, ghost s0: State, ghost own: seq<Event>)
      returns (ghost last: Event)
      requires world.Progress(s0, pauses, own) && k == |own| && NotMine(pauses, req)
      requires world.Stands(req, Seeding(jti, answer, rows, i, readAt)) && (ok ==> i == |rows|)
      modifies world, world.client, world.db
      ensures world.Progress(s0, pauses, own + [last]) && world.Stands(req, Answered(jti, answer))
      ensures last == if ok then MarkReady(req) else Fail(req)
    {
      InterleaveNext(s0, pauses, own, if ok then MarkReady(req) else Fail(req));
      world.Pause(req, pauses, own, s0, k);
      if ok {
        MarksReady(world.Current(), req);
        last := MarkReady(req);
        world.client.ready := true;
      } else {
        Fails(world.Current(), req);
        last := Fail(req);
      }
      world.Note(req, Answered(jti, answer));
    }
  }

  /******* is_token_revoked *******/

  // What the outside world does during one token check.
  datatype Weather = Weather(lookupUp: bool, claimUp: bool, failAt: nat, readyUp: bool)

  // Which steps a check takes: one fails only if Redis was down for it.
  ghost predicate AsWeather(req: RequestId, jti: Jti, w: Weather, own: seq<Event>) {
    && |own| > 1 && own[0] == BeginCheck(req, jti) && own[1] == (if w.lookupUp then LookUp(req) else Fail(req))
    && (|own| > 2 ==>
          |own| > 3 && own[2] == ReadTable(req) && own[3] == if w.claimUp then ClaimSeeding(req) else Fail(req))
    && (|own| > 4 ==> own[4].ListRows? && SeedEnds(req, own[4].rows, w.failAt, w.readyUp, own[|own| - 1]))
  }

  class TokenGate {
    const world: World
    const blocklist: TokenBlocklist
    const tokens: RevokedTokenRepository

    constructor (world: World)
      ensures Valid() && this.world == world
    {
      this.world := world;
      blocklist := new TokenBlocklist(world);
      tokens := world.account.tokens;
    }

    ghost predicate Valid() {
      blocklist.world == world && tokens == world.account.tokens
    }

    method Begin(req: RequestId, jti: Jti, pauses: Pauses<Event>, ghost s0: State)
      requires world.Progress(s0, pauses, []) && NotMine(pauses, req) && req !in world.requests
      modifies world, world.client, world.db
      ensures world.Progress(s0, pauses, [BeginCheck(req, jti)]) && world.Stands(req, Asked(jti))
    {
      InterleaveNext(s0, pauses, [], BeginCheck(req, jti));
      assert [] + [BeginCheck(req, jti)] == [BeginCheck(req, jti)];
      world.Pause(req, pauses, [], s0, 0);
      world.Note(req, Asked(jti));
    }

    method AskRedis(req: RequestId, jti: Jti, up: bool, pauses: Pauses<Event>, k: nat, ghost s0: State,
                    ghost own: seq<Event>)
      returns (cached: Option<bool>, ghost e: Event)
      requires Valid() && world.Progress(s0, pauses, own) && k == |own| && NotMine(pauses, req)
      requires world.Stands(req, Asked(jti))
      modifies world, world.client, world.db
      ensures world.Progress(s0, pauses, own + [e]) && e == if up then LookUp(req) else Fail(req)
      ensures world.Stands(req, if cached.Some? then Answered(jti, cached.value) else FellBack(jti))
    {
      InterleaveNext(s0, pauses, own, if up then LookUp(req) else Fail(req));
      world.Pause(req, pauses, own, s0, k);
      e := if up then LookUp(req) else Fail(req);
      LooksUp(world.Current(), req, jti);
      Fails(world.Current(), req);
      cached := blocklist.LookupKey(jti, up);
      world.Note(req, if cached.Some? then Answered(jti, cached.value) else FellBack(jti));
    }

    method AskTable(req: RequestId, jti: Jti, pauses: Pauses<Event>, k: nat, ghost s0: State, ghost own: seq<Event>)
      returns (revoked: bool)
      requires Valid() && world.Progress(s0, pauses, own) && k == |own| && NotMine(pauses, req)
      requires world.Stands(req, FellBack(jti))
      modifies world, world.client, world.db
      ensures world.Progress(s0, pauses, own + [ReadTable(req)]) && world.Stands(req, Known(jti, revoked))
    {
      InterleaveNext(s0, pauses, own, ReadTable(req));
      world.Pause(req, pauses, own, s0, k);
      ReadsTable(world.Current(), req, jti);
      revoked := tokens.Contains(jti, world.now);
      world.Note(req, Known(jti, revoked));
    }

    method Claim(req: RequestId, jti: Jti, revoked: bool, up: bool, pauses: Pauses<Event>, k: nat, ghost s0: State,
                 ghost own: seq<Event>)
      returns (won: bool, ghost e: Event)
      requires Valid() && world.Progress(s0, pauses, own) && k == |own| && NotMine(pauses, req)
      requires world.Stands(req, Known(jti, revoked))
      modifies world, world.client, world.db
      ensures world.Progress(s0, pauses, own + [e]) && e == if up then ClaimSeeding(req) else Fail(req)
      ensures world.Stands(req, if won then Claimed(jti, revoked) else Answered(jti, revoked))
    {
      InterleaveNext(s0, pauses, own, if up then ClaimSeeding(req) else Fail(req));
      world.Pause(req, pauses, own, s0, k);
      e := if up then ClaimSeeding(req) else Fail(req);
      Claims(world.Current(), req, jti, revoked);
      Fails(world.Current(), req);
      won := blocklist.TryClaim(up);
      world.Note(req, if won then Claimed(jti, revoked) else Answered(jti, revoked));
    }

    method ListTable(req: RequestId, jti: Jti, revoked: bool, pauses: Pauses<Event>, k: nat, ghost s0: State,
                     ghost own: seq<Event>)
      returns (rows: seq<TokenRef>)
      requires Valid() && world.Progress(s0, pauses, own) && k == |own| && NotMine(pauses, req)
      requires world.Stands(req, Claimed(jti, revoked))
      modifies world, world.client, world.db
      ensures world.Progress(s0, pauses, own + [ListRows(req, rows)]) && world.Stands(req, Holding(jti, revoked, rows))
    {
      world.Pause(req, pauses, own, s0, k);
      var active := tokens.ActiveTokens(world.now);
      rows := Listed(active);
      InterleaveNext(s0, pauses, own, ListRows(req, rows));
      ListsRows(world.Current(), req, jti, revoked, rows);
      assert Rows(rows) == ListActive(world.db.committed.revoked, world.now);
      world.Note(req, Holding(jti, revoked, rows));
    }

    // The part after a lookup that gave no answer.
    method FallBack(req: RequestId, jti: Jti, w: Weather, pauses: Pauses<Event>, k: nat, ghost s0: State,
                    ghost own: seq<Event>)
      returns (revoked: bool, ghost done: seq<Event>)
      requires Valid() && world.Progress(s0, pauses, own) && k == |own| && NotMine(pauses, req)
      requires world.Stands(req, FellBack(jti)) && |own| == 2 && AsWeather(req, jti, w, own)
      modifies world, world.client, world.db
      ensures world.Progress(s0, pauses, done) && world.Stands(req, Answered(jti, revoked))
      ensures AsWeather(req, jti, w, done)
    {
      revoked := AskTable(req, jti, pauses, k, s0, own);
      done := SeedAfter(req, jti, revoked, w, pauses, k + 1, s0, own + [ReadTable(req)]);
    }

    // The part after the table's answer: a seeding, if this check wins the claim.
    method SeedAfter(req: RequestId, jti: Jti, revoked: bool, w: Weather, pauses: Pauses<Event>, k: nat,
                     ghost s0: State, ghost own: seq<Event>)
      returns (ghost done: seq<Event>)
      requires Valid() && world.Progress(s0, pauses, own) && k == |own| && NotMine(pauses, req)
      requires world.Stands(req, Known(jti, revoked)) 
      requires |own| == 3 && AsWeather(req, jti, w, own[..2]) && own[2] == ReadTable(req)
      modifies world, world.client, world.db
      ensures world.Progress(s0, pauses, done) && world.Stands(req, Answered(jti, revoked))
      ensures AsWeather(req, jti, w, done)
    {
      var won, claim := Claim(req, jti, revoked, w.claimUp, pauses, k, s0, own);
      done := own + [claim];
      if won {
        done := Copy(req, jti, revoked, w, pauses, k + 1, s0, done);
      }
    }

    // List the table and seed Redis with it.
    method Copy(req: RequestId, jti: Jti, revoked: bool, w: Weather, pauses: Pauses<Event>, k: nat,
                ghost s0: State, ghost own: seq<Event>)
      returns (ghost done: seq<Event>)
      requires Valid() && world.Progress(s0, pauses, own) && k == |own| && NotMine(pauses, req)
      requires world.Stands(req, Claimed(jti, revoked))
      modifies world, world.client, world.db
      ensures world.Progress(s0, pauses, done) && world.Stands(req, Answered(jti, revoked))
      ensures own <= done && |own| < |done| && done[|own|].ListRows?
      ensures SeedEnds(req, done[|own|].rows, w.failAt, w.readyUp, done[|done| - 1])
    {
      var rows := ListTable(req, jti, revoked, pauses, k, s0, own);
      ghost var listed := own + [ListRows(req, rows)];
      done := blocklist.Seed(req, jti, revoked, rows, w.failAt, w.readyUp, pauses, k + 1, s0, listed);
    }

    // `is_token_revoked`: for any moves of the others, a run of the protocol's check.
    // A token without an id counts as revoked and touches nothing.
    method IsTokenRevoked(req: RequestId, id: Option<Jti>, w: Weather, pauses: Pauses<Event>)
      returns (revoked: bool, ghost own: seq<Event>)
      requires Valid() && world.Valid() && NotMine(pauses, req) && req !in world.requests
      modifies world, world.client, world.db
      ensures world.Progress(old(world.Current()), pauses, own)
      ensures id.None? ==> revoked && own == []
      ensures id.Some? ==> world.Stands(req, Answered(id.value, revoked))
      ensures id.Some? ==> AsWeather(req, id.value, w, own)
    {
      own := [];
      if id.None? {
        return true, own;
      }
      revoked, own := Check(req, id.value, w, pauses);
    }

    method Check(req: RequestId, jti: Jti, w: Weather, pauses: Pauses<Event>)
      returns (revoked: bool, ghost own: seq<Event>)
      requires Valid() && world.Valid() && NotMine(pauses, req) && req !in world.requests
      modifies world, world.client, world.db
      ensures world.Progress(old(world.Current()), pauses, own) && world.Stands(req, Answered(jti, revoked))
      ensures AsWeather(req, jti, w, own)
    {
      ghost var s0 := world.Current();
      Begin(req, jti, pauses, s0);
      var cached, e := AskRedis(req, jti, w.lookupUp, pauses, 1, s0, [BeginCheck(req, jti)]);
      own := [BeginCheck(req, jti)] + [e];
      if cached.Some? {
        return cached.value, own;
      }
      revoked, own := FallBack(req, jti, w, pauses, 2, s0, own);
    }
  }

  // The rows of a query, in some order.
  method Listed(rows: set<TokenRef>) returns (list: seq<TokenRef>)
    ensures forall r :: r in list <==> r in rows
  {
    list := [];
    var rest := rows;
    while rest != {}
      invariant rest <= rows
      invariant forall r :: r in list <==> r in rows && r !in rest
      decreases rest
    {
      var r :| r in rest;
      list := list + [r];
      rest := rest - {r};
    }
  }

  /******* Logout and closure *******/

  class SessionEnder {
    const world: World
    const blocklist: TokenBlocklist

    constructor (world: World)
      ensures Valid() && this.world == world
    {
      this.world := world;
      blocklist := new TokenBlocklist(world);
    }

    ghost predicate Valid() {
      blocklist.world == world
    }

    // Only users and sessions count here: others may add and purge token rows.
    ghost predicate RowsKept(before: Tables, after: Tables) {
      after == before.(revoked := after.revoked)
    }

    // The failing SET is one that is sent: the token was not past its life when the
    // call read the clock.
    ghost predicate RedisFails(refs: seq<TokenRef>, failAt: nat, readAt: Time) {
      failAt < |refs| && TtlMs(refs[failAt].expiresAt, readAt) > 0
    }

    method Begin(req: RequestId, refs: seq<TokenRef>, pauses: Pauses<Event>, ghost s0: State) returns (readAt: Time)
      requires world.Progress(s0, pauses, []) && NotMine(pauses, req) && req !in world.requests
      requires GenuineTokens(s0, refs) && s0.expiryOf == world.expiryOf
      modifies world, world.client, world.db
      ensures world.Progress(s0, pauses, [BeginRevoke(req, refs)])
      ensures world.Stands(req, Revoking(refs, 0, readAt)) && readAt == Run(s0, pauses(0)).now
      ensures RowsKept(old(world.db.committed), world.db.committed)
    {
      InterleaveNext(s0, pauses, [], BeginRevoke(req, refs));
      assert [] + [BeginRevoke(req, refs)] == [BeginRevoke(req, refs)];
      world.Pause(req, pauses, [], s0, 0);
      readAt := world.now;
      world.named := world.named + Ids(refs);
      world.Note(req, Revoking(refs, 0, readAt));
    }

    // The Redis half: every SET, or the call has failed.
    method WriteRedis(req: RequestId, refs: seq<TokenRef>, failAt: nat, pauses: Pauses<Event>, ghost s0: State)
      returns (r: Result<(), RedisError>, k: nat, ghost own: seq<Event>)
      requires Valid() && world.Progress(s0, pauses, []) && NotMine(pauses, req) && req !in world.requests
      requires GenuineTokens(s0, refs) && s0.expiryOf == world.expiryOf
      modifies world, world.client, world.db
      ensures world.Progress(s0, pauses, own) && k == |own| && RowsKept(old(world.db.committed), world.db.committed)
      ensures [BeginRevoke(req, refs)] <= own && RevokeCommit(req) !in own
      ensures r.Ok? ==> exists readAt :: world.Stands(req, Revoking(refs, |refs|, readAt))
      ensures r.Err? ==> world.Stands(req, Ended) && own[|own| - 1] == Fail(req)
      ensures r.Err? <==> RedisFails(refs, failAt, Run(s0, pauses(0)).now)
    {
      var readAt := Begin(req, refs, pauses, s0);
      r, k, own := blocklist.Revoke(req, ForLogout, refs, readAt, failAt, pauses, 1, s0, [BeginRevoke(req, refs)]);
      if r.Err? {
        GiveUp(req, pauses, k, s0, own);
        own, k := own + [Fail(req)], k + 1;
      }
    }

    method GiveUp(req: RequestId, pauses: Pauses<Event>, k: nat, ghost s0: State, ghost own: seq<Event>)
      requires world.Progress(s0, pauses, own) && k == |own| && NotMine(pauses, req)
      requires req in world.requests && world.requests[req].Revoking?
      modifies world, world.client, world.db
      ensures world.Progress(s0, pauses, own + [Fail(req)]) && world.Stands(req, Ended)
      ensures RowsKept(old(world.db.committed), world.db.committed)
    {
      InterleaveNext(s0, pauses, own, Fail(req));
      world.Pause(req, pauses, own, s0, k);
      Fails(world.Current(), req);
      world.Note(req, Ended);
    }

    // Which of the two writes raises, if any.
    ghost function Failure(refs: seq<TokenRef>, failAt: nat, commitFails: bool, readAt: Time): Option<EndError> {
      if RedisFails(refs, failAt, readAt) then Some(RedisFailed) else if commitFails then Some(TablesFailed) else None
    }

    // `AuthService.logout`: Redis first, then the tables, with others before each
    // write.  If either fails the call commits nothing; otherwise its commit is the
    // whole logout on the tables as they then stand.
    method Logout(req: RequestId, uid: UserId, refs: seq<TokenRef>, session: Option<SessionId>, failAt: nat,
                  commitFails: bool, pauses: Pauses<Event>)
      returns (r: Result<(), EndError>, ghost own: seq<Event>, ghost before: Tables)
      requires Valid() && world.Valid() && NotMine(pauses, req) && req !in world.requests
      requires GenuineTokens(world.Current(), refs)
      modifies world, world.client, world.db
      ensures world.Progress(old(world.Current()), pauses, own) && world.Stands(req, Ended)
      ensures var failure := Failure(refs, failAt, commitFails, Run(old(world.Current()), pauses(0)).now);
        r == if failure.Some? then Err(failure.value) else Ok(())
      ensures own != [] && own[|own| - 1] == if r.Ok? then RevokeCommit(req) else Fail(req)
      ensures RowsKept(old(world.db.committed), before)
      ensures world.db.committed == if r.Ok? then LogOut(before, uid, refs, session, world.now) else before
    {
      ghost var s0 := world.Current();
      var written, k;
      written, k, own := WriteRedis(req, refs, failAt, pauses, s0);
      before := world.db.committed;
      if written.Err? {
        return Err(RedisFailed), own, before;
      }
      ghost var last;
      r, last, before := CommitLogout(req, uid, refs, session, commitFails, pauses, k, s0, own);
      own := own + [last];
    }

    method CommitLogout(req: RequestId, uid: UserId, refs: seq<TokenRef>, session: Option<SessionId>,
                        commitFails: bool, pauses: Pauses<Event>, k: nat, ghost s0: State, ghost own: seq<Event>)
      returns (r: Result<(), EndError>, ghost last: Event, ghost before: Tables)
      requires Valid() && world.Progress(s0, pauses, own) && k == |own| && NotMine(pauses, req)
      requires exists readAt :: world.Stands(req, Revoking(refs, |refs|, readAt))
      modifies world, world.client, world.db
      ensures world.Progress(s0, pauses, own + [last]) && world.Stands(req, Ended)
      ensures r == if commitFails then Err(TablesFailed) else Ok(())
      ensures last == if r.Ok? then RevokeCommit(req) else Fail(req)
      ensures RowsKept(old(world.db.committed), before)
      ensures world.db.committed == if r.Ok? then LogOut(before, uid, refs, session, world.now) else before
    {
      last := if commitFails then Fail(req) else RevokeCommit(req);
      InterleaveNext(s0, pauses, own, last);
      world.Pause(req, pauses, own, s0, k);
      before := world.db.committed;
      CommitsAll(world.Current(), req, refs);
      Fails(world.Current(), req);
      var committed := world.account.Logout(uid, refs, session, world.now, commitFails);
      r := if committed.Ok? then Ok(()) else Err(TablesFailed);
      world.Note(req, Ended);
    }

    // `AuthService.close_account`; an unknown user is reported and commits nothing.
    method CloseAccount(req: RequestId, uid: UserId, refs: seq<TokenRef>, failAt: nat, commitFails: bool,
                        pauses: Pauses<Event>)
      returns (r: Result<Option<User>, EndError>, ghost own: seq<Event>, ghost before: Tables)
      requires Valid() && world.Valid() && NotMine(pauses, req) && req !in world.requests
      requires GenuineTokens(world.Current(), refs)
      modifies world, world.client, world.db
      ensures world.Progress(old(world.Current()), pauses, own) && world.Stands(req, Ended)
      ensures var failure := Failure(refs, failAt, commitFails, Run(old(world.Current()), pauses(0)).now);
        if failure.Some? then r == Err(failure.value) else r.Ok?
      ensures own != [] && own[|own| - 1] == if r.Ok? && r.value.Some? then RevokeCommit(req) else Fail(req)
      ensures RowsKept(old(world.db.committed), before)
      ensures r.Ok? ==> (r.value.Some? <==> uid in before.users)
      ensures world.db.committed == if r.Ok? then AuthTables.CloseAccount(before, uid, refs, world.now) else before
    {
      ghost var s0 := world.Current();
      var written, k;
      written, k, own := WriteRedis(req, refs, failAt, pauses, s0);
      before := world.db.committed;
      if written.Err? {
        return Err(RedisFailed), own, before;
      }
      ghost var last;
      r, last, before := CommitClosure(req, uid, refs, commitFails, pauses, k, s0, own);
      own := own + [last];
    }

    method CommitClosure(req: RequestId, uid: UserId, refs: seq<TokenRef>, commitFails: bool, pauses: Pauses<Event>,
                         k: nat, ghost s0: State, ghost own: seq<Event>)
      returns (r: Result<Option<User>, EndError>, ghost last: Event, ghost before: Tables)
      requires Valid() && world.Progress(s0, pauses, own) && k == |own| && NotMine(pauses, req)
      requires exists readAt :: world.Stands(req, Revoking(refs, |refs|, readAt))
      modifies world, world.client, world.db
      ensures world.Progress(s0, pauses, own + [last]) && world.Stands(req, Ended)
      ensures if commitFails then r == Err(TablesFailed) else r.Ok? && (r.value.Some? <==> uid in before.users)
      ensures last == if r.Ok? && r.value.Some? then RevokeCommit(req) else Fail(req)
      ensures RowsKept(old(world.db.committed), before)
      ensures world.db.committed == if r.Ok? then AuthTables.CloseAccount(before, uid, refs, world.now) else before
    {
      InterleaveNext(s0, pauses, own, RevokeCommit(req));
      InterleaveNext(s0, pauses, own, Fail(req));
      world.Pause(req, pauses, own, s0, k);
      before := world.db.committed;
      CommitsAll(world.Current(), req, refs);
      Fails(world.Current(), req);
      var closed := world.account.Close(uid, refs, world.now, commitFails);
      r := if closed.Ok? then Ok(closed.value) else Err(TablesFailed);
      last := if r.Ok? && r.value.Some? then RevokeCommit(req) else Fail(req);
      world.Note(req, Ended);
    }
  }

  lemma CommitsAll(s: State, req: RequestId, refs: seq<TokenRef>)
    requires req in s.requests && s.requests[req].Revoking? && s.requests[req].tokens == refs
    requires s.requests[req].done == |refs|
    ensures Step(s, RevokeCommit(req)) == At(s, req, Ended).(revoked := AddAllIfAbsent(s.revoked, refs))
  {
  }
}
