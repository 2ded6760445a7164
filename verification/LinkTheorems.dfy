/** One-time verification and reset links: consumed at most once, and atomically. */
module LinkTheorems {
  import opened Options
  import opened AuthTables
  import opened AuthProtocol
  import opened AuthInvariant
  import opened AuthTheorems

  // Every committed use of a link is accounted for: by its row in
  // `revoked_tokens`, or by a purge that deleted such a row.
  lemma LinkUsesAreAccounted(cfg: Config, history: seq<Event>, jti: Jti)
    requires jti.LinkToken?
    ensures var s := After(cfg, history);
      s.consumed[jti] == s.purged[jti] + if jti in s.db.revoked then 1 else 0
  {
    AfterInv(cfg, history);
  }

  /******* Requests that can still commit *******/

  predicate InFlight(r: Request) {
    r.Follow? && !r.at.Followed?
  }

  // The link's user still waits for it.
  ghost predicate Awaited(s: State, jti: Jti) {
    && jti in s.links
    && var link := s.links[jti];
       && link.userId in s.db.users
       && Pending(s.db.users[link.userId], link.kind) == Some(jti)
       && (link.kind.ResetPassword? ==> s.db.users[link.userId].active)
  }

  // Request `req` would commit the link if only it were not consumed yet.
  ghost predicate CanStill(s: State, req: RequestId, jti: Jti) {
    && req in s.requests && InFlight(s.requests[req]) && s.requests[req].jti == jti
    && (s.requests[req].at.UserRead? || Awaited(s, jti))
  }

  // An expired link that no request under way can commit.
  ghost predicate Spent(s: State, jti: Jti) {
    && jti in s.links && s.links[jti].expiresAt <= s.now
    && forall req <- s.requests :: !CanStill(s, req, jti)
  }

  // A link is awaited only if it was before: a new one has a new id, and no
  // account is opened again.
  lemma AwaitedBefore(s: State, e: Event, jti: Jti)
    requires jti in s.links && Awaited(Step(s, e), jti)
    ensures Awaited(s, jti)
  {
    StepEffect(s, e);
    LinksGrow(s, e, jti);
  }

  lemma StillBefore(s: State, e: Event, req: RequestId, jti: Jti)
    requires jti in s.links && CanStill(Step(s, e), req, jti)
    ensures CanStill(s, req, jti) || (e.BeginFollow? && s.now < s.links[jti].expiresAt)
  {
    OneFollowerMoves(s, e, req);
    if Awaited(Step(s, e), jti) { AwaitedBefore(s, e, jti); }
  }

  // Only a request that has read its user commits.
  lemma CommitComesFromUserRead(s: State, e: Event, jti: Jti)
    requires Step(s, e).consumed[jti] != s.consumed[jti]
    ensures e.FollowStep? && CanStill(s, e.req, jti) && jti in s.links
  {
    StepEffect(s, e);
  }

  lemma SpentStays(s: State, e: Event, jti: Jti)
    requires Inv(s) && Spent(s, jti)
    ensures Spent(Step(s, e), jti) && Step(s, e).consumed[jti] == s.consumed[jti]
  {
    StepInv(s, e);
    LinksGrow(s, e, jti);
    forall req | req in Step(s, e).requests ensures !CanStill(Step(s, e), req, jti) {
      if CanStill(Step(s, e), req, jti) { StillBefore(s, e, req, jti); }
    }
    if Step(s, e).consumed[jti] != s.consumed[jti] { CommitComesFromUserRead(s, e, jti); }
  }

  lemma {:induction false} SpentForever(s: State, future: seq<Event>, jti: Jti)
    requires Inv(s) && Spent(s, jti)
    ensures Spent(Run(s, future), jti) && Run(s, future).consumed[jti] == s.consumed[jti]
  {
    if future != [] {
      SpentForever(s, future[..|future| - 1], jti);
      RunInv(s, future[..|future| - 1]);
      SpentStays(Run(s, future[..|future| - 1]), future[|future| - 1], jti);
    }
  }

  // The owner of every link is a user.
  ghost predicate OwnersKnown(s: State) {
    forall jti <- s.links :: s.links[jti].userId in s.db.users
  }

  lemma OwnersStep(s: State, e: Event)
    requires OwnersKnown(s)
    ensures OwnersKnown(Step(s, e))
  {
    StepEffect(s, e);
  }

  lemma {:induction false} OwnersAlways(cfg: Config, history: seq<Event>)
    ensures OwnersKnown(After(cfg, history))
  {
    if history != [] {
      OwnersAlways(cfg, history[..|history| - 1]);
      OwnersStep(After(cfg, history[..|history| - 1]), history[|history| - 1]);
    }
  }

  /******* Exactly when a link can be used again *******/

  lemma PassesUseCheck(s: State, req: RequestId, jti: Jti, hash: int)
    requires req in s.requests && s.requests[req] == Follow(jti, hash, Decoded)
    requires jti in s.links && jti !in s.db.revoked
    ensures Step(s, FollowStep(req)) == At(s, req, Follow(jti, hash, Unused))
  {
  }

  lemma PassesUserCheck(s: State, req: RequestId, jti: Jti, hash: int)
    requires req in s.requests && s.requests[req] == Follow(jti, hash, Unused) && Awaited(s, jti)
    ensures Step(s, FollowStep(req)) == At(s, req, Follow(jti, hash, UserRead))
  {
  }

  lemma Commits(s: State, req: RequestId, jti: Jti, hash: int)
    requires req in s.requests && s.requests[req] == Follow(jti, hash, UserRead)
    requires jti in s.links && CanConsume(s.db, s.links[jti].userId, jti)
    ensures Step(s, FollowStep(req)).consumed == s.consumed + multiset{jti}
  {
    FollowFrame(s, req, jti, hash, UserRead);
  }

  // A request that can still commit does so when its link is not marked as used.
  lemma StillCommits(s: State, req: RequestId, jti: Jti) returns (future: seq<Event>)
    requires CanStill(s, req, jti) && jti in s.links && jti !in s.db.revoked && s.links[jti].userId in s.db.users
    ensures Run(s, future).consumed == s.consumed + multiset{jti}
    decreases match s.requests[req].at case Decoded => 2 case Unused => 1 case _ => 0
  {
    var r := s.requests[req];
    var rest: seq<Event> := [];
    if r.at.UserRead? {
      Commits(s, req, jti, r.hash);
    } else {
      if r.at.Decoded? {
        PassesUseCheck(s, req, jti, r.hash);
      } else {
        PassesUserCheck(s, req, jti, r.hash);
      }
      rest := StillCommits(Step(s, FollowStep(req)), req, jti);
    }
    future := [FollowStep(req)] + rest;
    RunConcat(s, [FollowStep(req)], rest);
    RunSnoc(s, [], FollowStep(req));
    assert [] + [FollowStep(req)] == [FollowStep(req)];
  }

  // The purge of a consumed link's row lets it be consumed again exactly when some
  // request under way has read its user, or has decoded the token and its user
  // still waits for it.
  lemma SecondUseExactly(cfg: Config, history: seq<Event>, jti: Jti)
    requires jti.LinkToken?
    requires var s := After(cfg, history); jti in s.db.revoked && s.db.revoked[jti] <= s.now
    ensures var s := After(cfg, history);
      (exists future: seq<Event> :: Run(Step(s, PurgeTokenRows), future).consumed[jti] > s.consumed[jti])
        <==> (exists req <- s.requests :: CanStill(s, req, jti))
  {
    var s := After(cfg, history);
    var t := Step(s, PurgeTokenRows);
    AfterInv(cfg, history);
    OwnersAlways(cfg, history);
    if req :| req in s.requests && CanStill(s, req, jti) {
      assert CanStill(t, req, jti);
      var future := StillCommits(t, req, jti);
    } else {
      StepInv(s, PurgeTokenRows);
      assert Spent(t, jti);
      forall future: seq<Event> ensures Run(t, future).consumed[jti] == s.consumed[jti] {
        SpentForever(t, future, jti);
      }
    }
  }

  /******* At most once *******/

  // A purge that takes a link's row while no request can still commit the link.
  ghost predicate CalmPurge(s: State, e: Event, jti: Jti) {
    e.PurgeTokenRows? && jti in ExpiredTokens(s.db.revoked, s.now) ==>
      forall req <- s.requests :: !CanStill(s, req, jti)
  }

  ghost predicate CalmRun(s: State, events: seq<Event>, jti: Jti) {
    forall i {:trigger events[i]} | 0 <= i < |events| :: CalmPurge(Run(s, events[..i]), events[i], jti)
  }

  lemma CalmFront(s: State, events: seq<Event>, jti: Jti)
    requires events != [] && CalmRun(s, events, jti)
    ensures CalmRun(s, events[..|events| - 1], jti)
    ensures CalmPurge(Run(s, events[..|events| - 1]), events[|events| - 1], jti)
  {
    var front := events[..|events| - 1];
    assert events[..|front|] == front && CalmPurge(Run(s, events[..|front|]), events[|front|], jti);
    forall i | 0 <= i < |front| ensures CalmPurge(Run(s, front[..i]), front[i], jti) {
      assert front[..i] == events[..i] && CalmPurge(Run(s, events[..i]), events[i], jti);
    }
  }

  // A link whose row was purged was purged once and is spent.
  ghost predicate PurgedOk(s: State, jti: Jti) {
    s.purged[jti] > 0 ==> s.purged[jti] == 1 && jti !in s.db.revoked && Spent(s, jti)
  }

  lemma PurgedCount(s: State, e: Event, jti: Jti)
    ensures Step(s, e).purged[jti] == s.purged[jti] +
      if e.PurgeTokenRows? && jti in ExpiredTokens(s.db.revoked, s.now) then 1 else 0
  {
    StepEffect(s, e);
  }

  lemma PurgedStep(s: State, e: Event, jti: Jti)
    requires Inv(s) && jti.LinkToken? && PurgedOk(s, jti) && CalmPurge(s, e, jti)
    ensures PurgedOk(Step(s, e), jti)
  {
    StepInv(s, e);
    PurgedCount(s, e, jti);
    assert s.consumed[jti] == s.purged[jti] + if jti in s.db.revoked then 1 else 0;
    assert Step(s, e).consumed[jti] == Step(s, e).purged[jti] + if jti in Step(s, e).db.revoked then 1 else 0;
    if s.purged[jti] > 0 { SpentStays(s, e, jti); }
  }

  lemma {:induction false} RunPurged(s: State, events: seq<Event>, jti: Jti)
    requires Inv(s) && jti.LinkToken? && PurgedOk(s, jti) && CalmRun(s, events, jti)
    ensures PurgedOk(Run(s, events), jti)
  {
    if events != [] {
      CalmFront(s, events, jti);
      RunPurged(s, events[..|events| - 1], jti);
      RunInv(s, events[..|events| - 1]);
      PurgedStep(Run(s, events[..|events| - 1]), events[|events| - 1], jti);
    }
  }

  // However many requests race on one link, it is consumed at most once, as long as
  // no purge takes its row from under a request that can still commit it.
  lemma LinkConsumedAtMostOnce(cfg: Config, history: seq<Event>, jti: Jti)
    requires CalmRun(Init(cfg), history, jti) && jti.LinkToken?
    ensures After(cfg, history).consumed[jti] <= 1
  {
    InitInv(cfg);
    RunPurged(Init(cfg), history, jti);
    LinkUsesAreAccounted(cfg, history, jti);
  }

  /******* All or nothing *******/

  lemma OutcomeStays(s: State, e: Event, req: RequestId)
    requires req in s.requests && s.requests[req].Follow? && s.requests[req].at.Followed?
    ensures req in Step(s, e).requests && Step(s, e).requests[req] == s.requests[req]
  {
    match e
    case RefreshStep(r) =>
      if r in s.requests && s.requests[r].Refresh? {
        RefreshFrame(s, r, s.requests[r].claim, s.requests[r].stage);
      }
    case FollowStep(r) =>
      if r in s.requests && s.requests[r].Follow? && s.requests[r].jti in s.links {
        FollowFrame(s, r, s.requests[r].jti, s.requests[r].hash, s.requests[r].at);
      }
    case _ =>
  }

  lemma {:induction false} OutcomeStaysForever(s: State, future: seq<Event>, req: RequestId)
    requires req in s.requests && s.requests[req].Follow? && s.requests[req].at.Followed?
    ensures req in Run(s, future).requests && Run(s, future).requests[req] == s.requests[req]
  {
    if future == [] {
    } else {
      OutcomeStaysForever(s, future[..|future| - 1], req);
      OutcomeStays(Run(s, future[..|future| - 1]), future[|future| - 1], req);
    }
  }

  // A link request that does not end in `Consumed` changed no table in any of
  // its steps, even if it had passed the `exists` check; one that does changed
  // them by everything the link stands for, and no later step of its own changes
  // anything.
  lemma LinksAreAllOrNothing(cfg: Config, history: seq<Event>, req: RequestId, future: seq<Event>)
    requires var s := After(cfg, history);
      req in s.requests && s.requests[req].Follow?
    ensures var s := After(cfg, history);
      var t := Step(s, FollowStep(req));
      var end := Run(t, future);
      var r := s.requests[req];
      && req in t.requests
      && r.jti in s.links
      && (t.db != s.db ==>
            && req in end.requests && end.requests[req] == Follow(r.jti, r.hash, Followed(Consumed))
            && var link := s.links[r.jti];
               && CanConsume(s.db, link.userId, r.jti)
               && t.db == Consume(s.db, link.kind, link.userId, r.hash, TokenRef(r.jti, link.expiresAt), s.now))
      && (t.requests[req].at == Followed(Consumed) && r.at != Followed(Consumed) ==>
           t.consumed == s.consumed + multiset{r.jti})
      && (t.requests[req].at.Followed? ==> Step(end, FollowStep(req)) == end)
  {
    AfterInv(cfg, history);
    var s := After(cfg, history);
    var r := s.requests[req];
    FollowFrame(s, req, r.jti, r.hash, r.at);
    var t := Step(s, FollowStep(req));
    if t.requests[req].at.Followed? {
      OutcomeStaysForever(t, future, req);
    }
  }

  /******* Why the purge must be calm *******/

  ghost predicate Racing(s: State, first: RequestId, second: RequestId, jti: Jti) {
    && first != second && first in s.requests && second in s.requests
    && s.requests[first] == Follow(jti, 0, UserRead) && s.requests[second] == Follow(jti, 0, UserRead)
    && jti in s.links && s.links[jti].kind == VerifyEmail && s.links[jti].userId in s.db.users
    && jti !in s.db.revoked
  }

  lemma FollowConsumes(s: State, req: RequestId, jti: Jti)
    requires req in s.requests && s.requests[req] == Follow(jti, 0, UserRead)
    requires jti in s.links && s.links[jti].kind == VerifyEmail && CanConsume(s.db, s.links[jti].userId, jti)
    ensures var t := Step(s, FollowStep(req));
      && t.consumed == s.consumed + multiset{jti}
      && t.requests == s.requests[req := Follow(jti, 0, Followed(Consumed))]
      && t.links == s.links && t.now == s.now
      && t.db.users.Keys == s.db.users.Keys
      && t.db.revoked == s.db.revoked[jti := s.links[jti].expiresAt]
  {
  }

  // Two racing requests both commit when the token expires and its row is
  // purged between their commits.
  lemma RacersBothConsume(s: State, first: RequestId, second: RequestId, jti: Jti) returns (events: seq<Event>)
    requires Racing(s, first, second, jti)
    ensures Run(s, events).consumed[jti] == s.consumed[jti] + 2
  {
    var wait: nat := if s.links[jti].expiresAt > s.now then s.links[jti].expiresAt - s.now else 0;
    var s1 := Step(s, FollowStep(first));
    FollowConsumes(s, first, jti);
    var s2 := Step(s1, Tick(wait));
    var s3 := Step(s2, PurgeTokenRows);
    assert jti !in s3.db.revoked;
    FollowConsumes(s3, second, jti);
    events := [FollowStep(first), Tick(wait)] + [PurgeTokenRows, FollowStep(second)];
    RunTwo(s, FollowStep(first), Tick(wait));
    RunTwo(s2, PurgeTokenRows, FollowStep(second));
    RunConcat(s, [FollowStep(first), Tick(wait)], [PurgeTokenRows, FollowStep(second)]);
  }

  // Any link its user still has pending can be raced by two requests.
  lemma PendingLinkCanBeRaced(s: State, first: RequestId, second: RequestId, jti: Jti) returns (events: seq<Event>)
    requires first != second && first !in s.requests && second !in s.requests
    requires jti in s.links && s.links[jti].kind == VerifyEmail && s.now < s.links[jti].expiresAt
    requires s.links[jti].userId in s.db.users && s.db.users[s.links[jti].userId].pendingVerification == Some(jti)
    requires jti !in s.db.revoked
    ensures Racing(Run(s, events), first, second, jti)
    ensures Run(s, events).consumed == s.consumed
  {
    ReachesCommit(s, first, jti);
    var m := Run(s, Approach(first, jti));
    ReachesCommit(m, second, jti);
    RunConcat(s, Approach(first, jti), Approach(second, jti));
    events := Approach(first, jti) + Approach(second, jti);
  }

  function Approach(req: RequestId, jti: Jti): seq<Event> {
    [BeginFollow(req, VerifyEmail, jti, 0), FollowStep(req)] + [FollowStep(req)]
  }

  lemma ReachesCommit(s: State, req: RequestId, jti: Jti)
    requires req !in s.requests
    requires jti in s.links && s.links[jti].kind == VerifyEmail && s.now < s.links[jti].expiresAt
    requires s.links[jti].userId in s.db.users && s.db.users[s.links[jti].userId].pendingVerification == Some(jti)
    requires jti !in s.db.revoked
    ensures Run(s, Approach(req, jti)) == s.(requests := s.requests[req := Follow(jti, 0, UserRead)])
  {
    var s1 := Step(s, BeginFollow(req, VerifyEmail, jti, 0));
    assert s1 == At(s, req, Follow(jti, 0, Decoded));
    RunTwo(s, BeginFollow(req, VerifyEmail, jti, 0), FollowStep(req));
    PassesUseCheck(s1, req, jti, 0);
    PassesUserCheck(At(s1, req, Follow(jti, 0, Unused)), req, jti, 0);
    RunSnoc(s, [BeginFollow(req, VerifyEmail, jti, 0), FollowStep(req)], FollowStep(req));
  }

  // So the calm is necessary: an uncalm purge lets one link verify twice.
  lemma UncalmPurgeAllowsTwoUses(cfg: Config) returns (history: seq<Event>)
    ensures After(cfg, history).consumed[LinkToken(0)] == 2
    ensures !CalmRun(Init(cfg), history, LinkToken(0))
  {
    var up := [SignUp(0, 0, 0)];
    RunSnoc(Init(cfg), [], SignUp(0, 0, 0));
    assert [] + [SignUp(0, 0, 0)] == up;
    var s := Run(Init(cfg), up);
    var race := PendingLinkCanBeRaced(s, 1, 2, LinkToken(0));
    var double := RacersBothConsume(Run(s, race), 1, 2, LinkToken(0));
    history := up + (race + double);
    RunConcat(s, race, double);
    RunConcat(Init(cfg), up, race + double);
    if CalmRun(Init(cfg), history, LinkToken(0)) {
      LinkConsumedAtMostOnce(cfg, history, LinkToken(0));
    }
  }
}
