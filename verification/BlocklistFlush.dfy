/**
  When Redis may lose everything: exactly which moments are harmless, and what
  goes wrong at the others.
 */
module BlocklistFlush {
  import opened Options
  import opened AuthTables
  import opened Blocklist
  import opened Fresh
  import opened Interleaving

  // READY promises a key for every committed session token that lasts.
  ghost predicate Agrees(s: State) {
    s.redis.ready ==> forall jti <- s.revoked | jti.SessionToken? && s.revoked[jti] >= s.now + MILLISECOND ::
      HasKey(s.redis, jti, s.now)
  }

  lemma FlushFreeIsGuarded(s: State, future: seq<Event>)
    requires Flush !in future
    ensures GuardedRun(s, future)
  {
  }

  // A write of one id gives no other id a key.
  lemma SeedWriteSkips(s: State, req: RequestId, jti: Jti)
    requires req in s.requests && s.requests[req].Seeding? && jti !in s.redis.keys
    requires s.requests[req].done < |s.requests[req].rows| && s.requests[req].rows[s.requests[req].done].jti != jti
    ensures var t := Step(s, SeedWrite(req)); var g := s.requests[req];
      && t == At(s, req, Seeding(g.jti, g.answer, g.rows, g.done + 1, g.readAt)).(redis := t.redis)
      && jti !in t.redis.keys
  {
  }

  lemma RevokeWriteSkips(s: State, req: RequestId, jti: Jti)
    requires req in s.requests && s.requests[req].Revoking? && jti !in s.redis.keys
    requires s.requests[req].done < |s.requests[req].tokens| && s.requests[req].tokens[s.requests[req].done].jti != jti
    ensures var t := Step(s, RevokeWrite(req)); var g := s.requests[req];
      && t == At(s, req, Revoking(g.tokens, g.done + 1, g.readAt)).(redis := t.redis)
      && jti !in t.redis.keys && t.redis.ready == s.redis.ready
  {
  }

  // A seeder `n` writes on, the id still without a key.
  ghost predicate SeededOn(s: State, t: State, req: RequestId, n: nat, jti: Jti)
    requires req in s.requests && s.requests[req].Seeding?
  {
    var g := s.requests[req];
    && t == At(s, req, Seeding(g.jti, g.answer, g.rows, g.done + n, g.readAt)).(redis := t.redis)
    && jti !in t.redis.keys
  }

  ghost predicate RevokedOn(s: State, t: State, req: RequestId, n: nat, jti: Jti)
    requires req in s.requests && s.requests[req].Revoking?
  {
    var g := s.requests[req];
    && t == At(s, req, Revoking(g.tokens, g.done + n, g.readAt)).(redis := t.redis)
    && jti !in t.redis.keys && t.redis.ready == s.redis.ready
  }

  lemma SeededOnce(s: State, t: State, req: RequestId, n: nat, jti: Jti)
    requires req in s.requests && s.requests[req].Seeding? && SeededOn(s, t, req, n, jti)
    requires s.requests[req].done + n < |s.requests[req].rows|
    requires s.requests[req].rows[s.requests[req].done + n].jti != jti
    ensures SeededOn(s, Step(t, SeedWrite(req)), req, n + 1, jti)
  {
    SeedWriteSkips(t, req, jti);
  }

  lemma RevokedOnce(s: State, t: State, req: RequestId, n: nat, jti: Jti)
    requires req in s.requests && s.requests[req].Revoking? && RevokedOn(s, t, req, n, jti)
    requires s.requests[req].done + n < |s.requests[req].tokens|
    requires s.requests[req].tokens[s.requests[req].done + n].jti != jti
    ensures RevokedOn(s, Step(t, RevokeWrite(req)), req, n + 1, jti)
  {
    RevokeWriteSkips(t, req, jti);
  }

  // An id that is not among the rows still to write stays without a key.
  lemma {:induction false} SeedingSkips(s: State, req: RequestId, n: nat, jti: Jti)
    requires req in s.requests && s.requests[req].Seeding? && jti !in s.redis.keys
    requires s.requests[req].done + n <= |s.requests[req].rows|
    requires !Again(s.requests[req].rows, s.requests[req].done, jti)
    ensures SeededOn(s, Run(s, Repeated(SeedWrite(req), n)), req, n, jti)
  {
    if n == 0 {
      assert At(s, req, s.requests[req]) == s;
    } else {
      SeedingSkips(s, req, n - 1, jti);
      RunSnoc(s, Repeated(SeedWrite(req), n - 1), SeedWrite(req));
      SeededOnce(s, Run(s, Repeated(SeedWrite(req), n - 1)), req, n - 1, jti);
    }
  }

  lemma {:induction false} RevokingSkips(s: State, req: RequestId, n: nat, jti: Jti)
    requires req in s.requests && s.requests[req].Revoking? && jti !in s.redis.keys
    requires s.requests[req].done + n <= |s.requests[req].tokens|
    requires !Again(s.requests[req].tokens, s.requests[req].done, jti)
    ensures RevokedOn(s, Run(s, Repeated(RevokeWrite(req), n)), req, n, jti)
  {
    if n == 0 {
      assert At(s, req, s.requests[req]) == s;
    } else {
      RevokingSkips(s, req, n - 1, jti);
      RunSnoc(s, Repeated(RevokeWrite(req), n - 1), RevokeWrite(req));
      RevokedOnce(s, Run(s, Repeated(RevokeWrite(req), n - 1)), req, n - 1, jti);
    }
  }

  function SeedOut(req: RequestId, n: nat): seq<Event> {
    Repeated(SeedWrite(req), n) + [MarkReady(req)]
  }

  // A seeder without the id in what it has still to write sets READY without it.
  lemma SeedingMisses(s: State, req: RequestId, jti: Jti)
    requires req in s.requests && s.requests[req].Seeding? && jti !in s.redis.keys
    requires s.requests[req].done <= |s.requests[req].rows|
    requires !Again(s.requests[req].rows, s.requests[req].done, jti)
    ensures var t := Run(s, SeedOut(req, |s.requests[req].rows| - s.requests[req].done)); var g := s.requests[req];
      && t == s.(redis := t.redis, requests := s.requests[req := Answered(g.jti, g.answer)])
      && t.redis.ready && jti !in t.redis.keys
  {
    var g := s.requests[req];
    var n := |g.rows| - g.done;
    SeedingSkips(s, req, n, jti);
    RunSnoc(s, Repeated(SeedWrite(req), n), MarkReady(req));
    MarksReady(Run(s, Repeated(SeedWrite(req), n)), req);
  }

  lemma HoldingMisses(s: State, req: RequestId, jti: Jti)
    requires req in s.requests && s.requests[req].Holding?
    requires jti !in s.redis.keys && !Again(s.requests[req].rows, 0, jti)
    ensures var t := Run(s, [BeginSeed(req)] + SeedOut(req, |s.requests[req].rows|)); var g := s.requests[req];
      && t == s.(redis := t.redis, requests := s.requests[req := Answered(g.jti, g.answer)])
      && t.redis.ready && jti !in t.redis.keys
  {
    var g := s.requests[req];
    var m := Step(s, BeginSeed(req));
    assert m == At(s, req, Seeding(g.jti, g.answer, g.rows, 0, s.now));
    RunConcat(s, [BeginSeed(req)], SeedOut(req, |g.rows|));
    RunSnoc(s, [], BeginSeed(req));
    assert [] + [BeginSeed(req)] == [BeginSeed(req)];
    SeedingMisses(m, req, jti);
  }

  lemma {:induction false} Listing(rows: set<TokenRef>) returns (list: seq<TokenRef>)
    ensures Rows(list) == rows
    decreases |rows|
  {
    if rows == {} {
      list := [];
    } else {
      var r :| r in rows;
      var rest := Listing(rows - {r});
      list := [r] + rest;
      assert Rows(list) == Rows(rest) + {r};
    }
  }

  lemma Asks(s: State, req: RequestId, jti: Jti)
    requires req !in s.requests
    ensures Step(s, BeginCheck(req, jti)) == At(s, req, Asked(jti))
  {
  }

  lemma AtTwice(s: State, req: RequestId, first: Stage, second: Stage)
    ensures At(At(s, req, first), req, second) == At(s, req, second)
  {
    assert s.requests[req := first][req := second] == s.requests[req := second];
  }

  lemma TableRead(s: State, req: RequestId, jti: Jti)
    requires !s.redis.ready && req !in s.requests
    ensures Run(s, [BeginCheck(req, jti), LookUp(req), ReadTable(req)])
      == At(s, req, Known(jti, Exists(s.revoked, jti, s.now)))
  {
    RunThree(s, [BeginCheck(req, jti), LookUp(req), ReadTable(req)]);
    Asks(s, req, jti);
    var asked, fell := At(s, req, Asked(jti)), At(s, req, FellBack(jti));
    FallsBack(asked, req, jti);
    AtTwice(s, req, Asked(jti), FellBack(jti));
    ReadsTable(fell, req, jti);
    AtTwice(s, req, FellBack(jti), Known(jti, Exists(s.revoked, jti, s.now)));
  }

  lemma TableListed(s: State, req: RequestId, rows: seq<TokenRef>)
    requires req in s.requests && s.requests[req].Known? && s.redis.seedingUntil <= s.now
    requires Rows(rows) == ListActive(s.revoked, s.now)
    ensures var t := Run(s, [ClaimSeeding(req), ListRows(req, rows)]); var k := s.requests[req];
      && t == s.(redis := t.redis, requests := s.requests[req := Holding(k.jti, k.answer, rows)])
      && t.redis.keys == s.redis.keys
  {
    var k := s.requests[req];
    RunTwo(s, ClaimSeeding(req), ListRows(req, rows));
    var claimed := Step(s, ClaimSeeding(req));
    assert claimed == At(s, req, Claimed(k.jti, k.answer)).(redis := claimed.redis);
    assert Step(claimed, ListRows(req, rows)) == At(claimed, req, Holding(k.jti, k.answer, rows));
  }

  // A new check on an empty Redis copies the table as it is.
  lemma NewSeederHolds(s: State, req: RequestId, jti: Jti) returns (events: seq<Event>, rows: seq<TokenRef>)
    requires s.redis == EMPTY_REDIS && s.now >= 0 && req !in s.requests
    ensures Flush !in events && Rows(rows) == ListActive(s.revoked, s.now)
    ensures var t := Run(s, events); var answer := Exists(s.revoked, jti, s.now);
      t == s.(redis := t.redis, requests := s.requests[req := Holding(jti, answer, rows)]) && t.redis.keys == map[]
  {
    rows := Listing(ListActive(s.revoked, s.now));
    var first, second := [BeginCheck(req, jti), LookUp(req), ReadTable(req)], [ClaimSeeding(req), ListRows(req, rows)];
    TableRead(s, req, jti);
    TableListed(Run(s, first), req, rows);
    events := first + second;
    RunConcat(s, first, second);
  }

  // A written key that neither a row nor a later write makes good.
  ghost predicate Lost(s: State, tokens: seq<TokenRef>, done: nat, i: nat)
    requires i < |tokens|
  {
    Lasting(s, tokens[i].jti) && tokens[i].jti !in s.revoked && !Again(tokens, done, tokens[i].jti)
  }

  // A logout whose key is lost: a copy of the table before its row, then the row.
  lemma LogoutMisses(s: State, req: RequestId, i: nat) returns (future: seq<Event>)
    requires s.redis == EMPTY_REDIS && s.now >= 0 && req in s.requests && s.requests[req].Revoking?
    requires GenuineTokens(s, s.requests[req].tokens) && i < s.requests[req].done <= |s.requests[req].tokens|
    requires Lost(s, s.requests[req].tokens, s.requests[req].done, i)
    ensures Flush !in future && !Agrees(Run(s, future))
  {
    var jti := s.requests[req].tokens[i].jti;
    var seeder := UpperBound(s.requests.Keys);
    var copy, rows := NewSeederHolds(s, seeder, jti);
    var held := Run(s, copy);
    NotListed(s, rows, jti);
    HoldingMisses(held, seeder, jti);
    var seed := [BeginSeed(seeder)] + SeedOut(seeder, |rows|);
    RepeatedHasNoFlush(SeedWrite(seeder), |rows|);
    var rest := LogoutFinishes(Run(held, seed), req, i);
    future := copy + (seed + rest);
    RunConcat(held, seed, rest);
    RunConcat(s, copy, seed + rest);
  }

  // With READY set and the key missing, the logout's own commit disagrees.
  lemma LogoutFinishes(s: State, req: RequestId, i: nat) returns (future: seq<Event>)
    requires s.redis.ready && req in s.requests && s.requests[req].Revoking?
    requires GenuineTokens(s, s.requests[req].tokens) && i < s.requests[req].done <= |s.requests[req].tokens|
    requires Lost(s, s.requests[req].tokens, s.requests[req].done, i)
    requires s.requests[req].tokens[i].jti !in s.redis.keys
    ensures Flush !in future && !Agrees(Run(s, future))
  {
    var g := s.requests[req];
    var writes := Repeated(RevokeWrite(req), |g.tokens| - g.done);
    RevokingSkips(s, req, |g.tokens| - g.done, g.tokens[i].jti);
    RunSnoc(s, writes, RevokeCommit(req));
    CommitUncovered(Run(s, writes), req, i);
    RepeatedHasNoFlush(RevokeWrite(req), |g.tokens| - g.done);
    future := writes + [RevokeCommit(req)];
  }

  lemma NotListed(s: State, rows: seq<TokenRef>, jti: Jti)
    requires Rows(rows) == ListActive(s.revoked, s.now) && jti !in s.revoked
    ensures !Again(rows, 0, jti)
  {
    forall k | 0 <= k < |rows| ensures rows[k].jti != jti {
      assert rows[k] in Rows(rows) && rows[k] in ListActive(s.revoked, s.now);
    }
  }

  lemma RepeatedHasNoFlush(e: Event, n: nat)
    requires !e.Flush?
    ensures Flush !in Repeated(e, n)
  {
  }

  lemma CommitUncovered(s: State, req: RequestId, i: nat)
    requires Committing(s, RevokeCommit(req)) && i < |s.requests[req].tokens|
    requires GenuineTokens(s, s.requests[req].tokens)
    requires var jti := s.requests[req].tokens[i].jti; Lasting(s, jti) && jti !in s.revoked && jti !in s.redis.keys
    requires s.redis.ready
    ensures !Agrees(Step(s, RevokeCommit(req)))
  {
    var tokens := s.requests[req].tokens;
    var jti := tokens[i].jti;
    AddAllIfAbsentMeaning(s.revoked, tokens);
    var t := Step(s, RevokeCommit(req));
    assert t.revoked == AddAllIfAbsent(s.revoked, tokens);
    assert tokens[i] in tokens && jti in t.revoked;
    assert TokenRef(jti, t.revoked[jti]) in tokens;
  }

  // A seeder that lacks a lasting row.
  lemma SeederLacks(s: State, req: RequestId) returns (jti: Jti)
    requires Inv(s) && req in s.requests && !StageSafe(s, s.requests[req])
    requires s.requests[req].Holding? || s.requests[req].Seeding?
    ensures jti in s.revoked && Lasting(s, jti)
    ensures !Again(s.requests[req].rows, if s.requests[req].Seeding? then s.requests[req].done else 0, jti)
  {
    var stage := s.requests[req];
    assert StageOk(s, stage);
    var from := if stage.Seeding? then stage.done else 0;
    assert stage.rows[0..] == stage.rows;
    jti :| jti in s.revoked && Lasting(s, jti) && TokenRef(jti, s.expiryOf(jti)) !in stage.rows[from..];
    forall k | from <= k < |stage.rows| ensures stage.rows[k].jti != jti {
      assert stage.rows[k] == stage.rows[from..][k - from];
    }
  }

  lemma SeederDisagrees(s: State, req: RequestId, jti: Jti) returns (future: seq<Event>)
    requires s.redis == EMPTY_REDIS && req in s.requests && (s.requests[req].Holding? || s.requests[req].Seeding?)
    requires s.requests[req].Seeding? ==> s.requests[req].done <= |s.requests[req].rows|
    requires !Again(s.requests[req].rows, if s.requests[req].Seeding? then s.requests[req].done else 0, jti)
    requires jti.SessionToken? && jti in s.revoked && s.revoked[jti] >= s.now + MILLISECOND
    ensures Flush !in future && !Agrees(Run(s, future))
  {
    var stage := s.requests[req];
    if stage.Holding? {
      HoldingMisses(s, req, jti);
      future := [BeginSeed(req)] + SeedOut(req, |stage.rows|);
      RepeatedHasNoFlush(SeedWrite(req), |stage.rows|);
    } else {
      SeedingMisses(s, req, jti);
      future := SeedOut(req, |stage.rows| - stage.done);
      RepeatedHasNoFlush(SeedWrite(req), |stage.rows| - stage.done);
    }
  }

  // From an unsafe moment some future without another flush disagrees.
  lemma UnsafeFlushDisagrees(s: State) returns (future: seq<Event>)
    requires Inv(s) && s.now >= 0 && !FlushSafe(s)
    ensures Flush !in future && !Agrees(Run(Step(s, Flush), future))
  {
    var req :| req in s.requests && !StageSafe(s, s.requests[req]);
    var stage := s.requests[req];
    assert StageOk(s, stage);
    if stage.Revoking? {
      var i :| 0 <= i < stage.done && i < |stage.tokens| && Lasting(s, stage.tokens[i].jti)
        && stage.tokens[i].jti !in s.revoked && !Again(stage.tokens, stage.done, stage.tokens[i].jti);
      future := LogoutMisses(Step(s, Flush), req, i);
    } else {
      var jti := SeederLacks(s, req);
      future := SeederDisagrees(Step(s, Flush), req, jti);
    }
  }

  // A flush is harmless, whatever follows it, exactly at the safe moments.
  lemma FlushIsHarmlessExactly(expiryOf: Jti -> Time, history: seq<Event>)
    requires GuardedRun(Init(expiryOf), history)
    ensures var s := Run(Init(expiryOf), history);
      (forall future: seq<Event> | Flush !in future :: Agrees(Run(Step(s, Flush), future))) <==> FlushSafe(s)
  {
    var s := Run(Init(expiryOf), history);
    InitInv(expiryOf);
    RunInv(Init(expiryOf), history);
    ClockIsPositive(Init(expiryOf), history);
    if FlushSafe(s) {
      forall future: seq<Event> | Flush !in future ensures Agrees(Run(Step(s, Flush), future)) {
        FlushInv(s);
        FlushFreeIsGuarded(Step(s, Flush), future);
        RunInv(Step(s, Flush), future);
      }
    } else {
      var future := UnsafeFlushDisagrees(s);
    }
  }

  lemma {:induction false} ClockIsPositive(s: State, events: seq<Event>)
    requires s.now >= 0
    ensures Run(s, events).now >= 0
  {
    if events != [] {
      ClockIsPositive(s, events[..|events| - 1]);
    }
  }

  // A logout between its two writes is an unsafe moment,
  lemma FlushDuringLogoutDisagrees(expiryOf: Jti -> Time, jti: Jti) returns (history: seq<Event>, future: seq<Event>)
    requires jti.SessionToken? && expiryOf(jti) >= MILLISECOND
    ensures GuardedRun(Init(expiryOf), history) && Flush !in future
    ensures !Agrees(Run(Step(Run(Init(expiryOf), history), Flush), future))
  {
    var token := TokenRef(jti, expiryOf(jti));
    history := [BeginRevoke(0, [token]), RevokeWrite(0)];
    FlushFreeIsGuarded(Init(expiryOf), history);
    InitInv(expiryOf);
    RunInv(Init(expiryOf), history);
    RunTwo(Init(expiryOf), BeginRevoke(0, [token]), RevokeWrite(0));
    var s := Run(Init(expiryOf), history);
    assert s.requests[0] == Revoking([token], 1, 0);
    assert !StageSafe(s, s.requests[0]);
    future := UnsafeFlushDisagrees(s);
  }

  // and so is a seeder whose list is older than a committed row.
  lemma FlushDuringSeedingDisagrees(expiryOf: Jti -> Time, jti: Jti) returns (history: seq<Event>, future: seq<Event>)
    requires jti.SessionToken? && expiryOf(jti) >= MILLISECOND
    ensures GuardedRun(Init(expiryOf), history) && Flush !in future
    ensures !Agrees(Run(Step(Run(Init(expiryOf), history), Flush), future))
  {
    var token := TokenRef(jti, expiryOf(jti));
    var copy, rows := NewSeederHolds(Init(expiryOf), 1, jti);
    var held := Run(Init(expiryOf), copy);
    var logout := [BeginRevoke(0, [token]), RevokeWrite(0), RevokeCommit(0)];
    LogoutCommits(held, 0, token);
    history := copy + logout;
    RunConcat(Init(expiryOf), copy, logout);
    FlushFreeIsGuarded(Init(expiryOf), history);
    InitInv(expiryOf);
    RunInv(Init(expiryOf), history);
    var s := Run(Init(expiryOf), history);
    NotListed(Init(expiryOf), rows, jti);
    assert TokenRef(jti, expiryOf(jti)) !in rows;
    assert s.requests[1] == Holding(jti, false, rows) && !StageSafe(s, s.requests[1]);
    future := UnsafeFlushDisagrees(s);
  }

  lemma LogoutCommits(s: State, req: RequestId, token: TokenRef)
    requires req !in s.requests && s.revoked == map[] && token.expiresAt == s.expiryOf(token.jti)
    ensures var t := Run(s, [BeginRevoke(req, [token]), RevokeWrite(req), RevokeCommit(req)]);
      && t.revoked == map[token.jti := token.expiresAt] && t.requests == s.requests[req := Ended]
      && t.now == s.now && t.expiryOf == s.expiryOf
  {
    RunThree(s, [BeginRevoke(req, [token]), RevokeWrite(req), RevokeCommit(req)]);
    var begun := Step(s, BeginRevoke(req, [token]));
    var written := Step(begun, RevokeWrite(req));
    assert begun.requests == s.requests[req := Revoking([token], 0, s.now)];
    assert written.requests == s.requests[req := Revoking([token], 1, s.now)] && written.revoked == map[];
    OneRow(token);
  }

  lemma OneRow(token: TokenRef)
    ensures AddAllIfAbsent(map[], [token]) == map[token.jti := token.expiresAt]
  {
    assert [token][..0] == [];
  }
}
