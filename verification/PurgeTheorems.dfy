/**
  Purges are invisible: by simulation, deleting expired rows at any moments
  changes no request's outcome and no answer about revoked tokens.
 */
module PurgeTheorems {
  import opened Options
  import opened AuthTables
  import opened AuthProtocol
  import opened AuthInvariant
  import opened AuthTheorems
  import opened LinkTheorems

  // Which nightly jobs the other run goes without.
  datatype Erasure = SessionPurges | AllPurges

  predicate Erases(what: Erasure, e: Event) {
    e.PurgeSessionRows? || (what.AllPurges? && e.PurgeTokenRows?)
  }

  function Erase(what: Erasure, events: seq<Event>): seq<Event> {
    if events == [] then []
    else
      var front := Erase(what, events[..|events| - 1]);
      if Erases(what, events[|events| - 1]) then front else front + [events[|events| - 1]]
  }

  /******* The simulation relation *******/

  // The purging run `s` misses only rows that are expired.
  ghost predicate RowsAlike(s: Sessions, t: Sessions, now: Time) {
    && (forall sid <- s :: sid in t && t[sid] == s[sid])
    && (forall sid <- t :: sid !in s ==> t[sid].expiresAt <= now)
  }

  // The one visible difference: a refresh may have fetched nothing where the
  // other run fetched an expired row.
  ghost predicate RequestAlike(a: Request, b: Request, now: Time) {
    || a == b
    || (&& a.Refresh? && b.Refresh? && a.claim == b.claim
        && a.stage == Fetched(None)
        && b.stage.Fetched? && b.stage.found.Some? && b.stage.found.value.expiresAt <= now)
  }

  ghost predicate RequestsAlike(s: State, t: State) {
    && s.requests.Keys == t.requests.Keys
    && forall req <- s.requests :: RequestAlike(s.requests[req], t.requests[req], s.now)
  }

  ghost predicate GenuineRows(s: State) {
    forall jti <- s.db.revoked | jti.SessionToken? :: s.db.revoked[jti] == s.cfg.expiryOf(jti.n)
  }

  // The token tables answer alike.
  ghost predicate AnswersAlike(s: Revoked, t: Revoked, now: Time) {
    && (forall jti <- s | s[jti] > now :: jti in t && t[jti] == s[jti])
    && (forall jti <- t | t[jti] > now :: jti in s && s[jti] == t[jti])
  }

  ghost predicate TokensAlike(what: Erasure, s: State, t: State) {
    if what.SessionPurges? then s.db.revoked == t.db.revoked
    else
      && AnswersAlike(s.db.revoked, t.db.revoked, s.now)
      && GenuineRows(s) && GenuineRows(t)
      && forall req, jti | CanStill(s, req, jti) :: jti in s.db.revoked <==> jti in t.db.revoked
  }

  ghost predicate SameCore(s: State, t: State) {
    && s.cfg == t.cfg && s.now == t.now
    && s.db.users == t.db.users && s.db.outbox == t.db.outbox
    && s.issued == t.issued && s.links == t.links
    && s.rotations == t.rotations && s.consumed == t.consumed
    && s.archive.Keys == t.archive.Keys
  }

  ghost predicate Alike(what: Erasure, s: State, t: State) {
    && SameCore(s, t)
    && RowsAlike(s.db.sessions, t.db.sessions, s.now)
    && RequestsAlike(s, t)
    && TokensAlike(what, s, t)
  }

  /******* One step *******/

  lemma SameRefreshChange(s: State, t: State, req: RequestId)
    requires SameCore(s, t) && RowsAlike(s.db.sessions, t.db.sessions, s.now) && RequestsAlike(s, t)
    ensures ChangeOf(s, RefreshStep(req)) == ChangeOf(t, RefreshStep(req))
  {
    if req in s.requests { assert RequestAlike(s.requests[req], t.requests[req], s.now); }
  }

  lemma SameFollowChange(what: Erasure, s: State, t: State, req: RequestId)
    requires Alike(what, s, t)
    ensures ChangeOf(s, FollowStep(req)) == ChangeOf(t, FollowStep(req))
  {
    if req in s.requests {
      assert RequestAlike(s.requests[req], t.requests[req], s.now);
      if s.requests[req].Follow? && s.requests[req].jti in s.links {
        LinkAnswersAlike(what, s, t, req, s.requests[req]);
      }
    }
  }

  lemma SameOtherChange(s: State, t: State, e: Event)
    requires SameCore(s, t) && RequestsAlike(s, t) && !e.RefreshStep? && !e.FollowStep?
    ensures ChangeOf(s, e) == ChangeOf(t, e)
  {
    if e.LoginCreate? && e.req in s.requests { assert RequestAlike(s.requests[e.req], t.requests[e.req], s.now); }
  }

  lemma SameChange(what: Erasure, s: State, t: State, e: Event)
    requires Alike(what, s, t)
    ensures ChangeOf(s, e) == ChangeOf(t, e)
  {
    match e
    case RefreshStep(req) => SameRefreshChange(s, t, req);
    case FollowStep(req) => SameFollowChange(what, s, t, req);
    case _ => SameOtherChange(s, t, e);
  }

  lemma ChangedAlike(s: Sessions, t: Sessions, c: Change, now: Time)
    requires RowsAlike(s, t, now)
    requires c.Create? ==> c.sid !in t
    requires c.Rotate? ==> c.sid in s
    ensures RowsAlike(Changed(s, c, now), Changed(t, c, now), now)
    ensures NewlyIssued(s, c) == NewlyIssued(t, c) && Presented(s, c) == Presented(t, c)
  {
  }

  lemma ArchiveGrows(s: State, c: Change, t: State)
    requires ArchiveOk(s) && Shift(s, c, t)
    ensures t.archive.Keys == s.archive.Keys + if c.Create? then {c.sid} else {}
  {
  }

  lemma RowsStep(what: Erasure, s: State, t: State, e: Event)
    requires Inv(s) && Inv(t) && Alike(what, s, t)
    ensures var s', t' := Step(s, e), Step(t, e);
      && RowsAlike(s'.db.sessions, t'.db.sessions, s.now)
      && s'.issued == t'.issued && s'.rotations == t'.rotations
      && s'.archive.Keys == t'.archive.Keys
  {
    SameChange(what, s, t, e);
    StepChange(s, e);
    StepChange(t, e);
    ChangedAlike(s.db.sessions, t.db.sessions, ChangeOf(s, e), s.now);
    ArchiveGrows(s, ChangeOf(s, e), Step(s, e));
    ArchiveGrows(t, ChangeOf(s, e), Step(t, e));
  }

  lemma OneRequestAlike(s: State, t: State, req: RequestId, s': State, t': State)
    requires s.now == t.now && RequestsAlike(s, t) && req in s.requests
    requires req in s'.requests && s'.requests == s.requests[req := s'.requests[req]]
    requires req in t'.requests && t'.requests == t.requests[req := t'.requests[req]]
    requires RequestAlike(s'.requests[req], t'.requests[req], s.now) && s'.now == s.now
    ensures RequestsAlike(s', t')
  {
  }

  // Advancing alike refreshes keeps them alike.
  lemma RefreshAlike(s: State, t: State, req: RequestId, claim: Claim, a: RefreshStage, b: RefreshStage)
    requires s.cfg == t.cfg && s.now == t.now && s.db.users == t.db.users
    requires RowsAlike(s.db.sessions, t.db.sessions, s.now)
    requires RequestAlike(Refresh(claim, a), Refresh(claim, b), s.now)
    requires req in s.requests && req in t.requests
    requires s.requests[req] == Refresh(claim, a) && t.requests[req] == Refresh(claim, b)
    ensures RequestAlike(AdvanceRefresh(s, req, claim, a).requests[req],
        AdvanceRefresh(t, req, claim, b).requests[req], s.now)
  {
  }

  lemma RefreshesAlike(s: State, t: State, req: RequestId)
    requires SameCore(s, t) && RowsAlike(s.db.sessions, t.db.sessions, s.now) && RequestsAlike(s, t)
    requires req in s.requests && s.requests[req].Refresh?
    ensures t.requests[req].Refresh?
    ensures RequestsAlike(AdvanceRefresh(s, req, s.requests[req].claim, s.requests[req].stage),
                          AdvanceRefresh(t, req, t.requests[req].claim, t.requests[req].stage))
  {
    assert RequestAlike(s.requests[req], t.requests[req], s.now);
    var claim, a, b := s.requests[req].claim, s.requests[req].stage, t.requests[req].stage;
    RefreshAlike(s, t, req, claim, a, b);
    RefreshFrame(s, req, claim, a);
    RefreshFrame(t, req, claim, b);
    AdvanceKeepsClock(s, req, claim, a);
    OneRequestAlike(s, t, req, AdvanceRefresh(s, req, claim, a), AdvanceRefresh(t, req, claim, b));
  }

  // A link request sees the same answers in both runs.
  lemma LinkAnswersAlike(what: Erasure, s: State, t: State, req: RequestId, r: Request)
    requires Alike(what, s, t)
    requires req in s.requests && s.requests[req] == r && r.Follow? && r.jti in s.links
    ensures t.requests[req] == r
    ensures Exists(s.db.revoked, r.jti, s.now) <==> Exists(t.db.revoked, r.jti, s.now)
    ensures r.at.UserRead? ==>
      (CanConsume(s.db, s.links[r.jti].userId, r.jti) <==> CanConsume(t.db, s.links[r.jti].userId, r.jti))
  {
    assert RequestAlike(s.requests[req], t.requests[req], s.now);
    if r.at.UserRead? { assert CanStill(s, req, r.jti); }
  }

  lemma FollowAlike(s: State, t: State, req: RequestId, jti: Jti, hash: int, at: LinkStage)
    requires jti in s.links && s.links == t.links && s.now == t.now && s.db.users == t.db.users
    requires req in s.requests && req in t.requests && s.requests[req] == t.requests[req] == Follow(jti, hash, at)
    requires Exists(s.db.revoked, jti, s.now) <==> Exists(t.db.revoked, jti, s.now)
    requires at.UserRead? ==>
      (CanConsume(s.db, s.links[jti].userId, jti) <==> CanConsume(t.db, s.links[jti].userId, jti))
    ensures AdvanceFollow(s, req, jti, hash, at).requests[req] == AdvanceFollow(t, req, jti, hash, at).requests[req]
  {
  }

  lemma FollowersAlike(what: Erasure, s: State, t: State, req: RequestId, r: Request)
    requires Alike(what, s, t)
    requires req in s.requests && s.requests[req] == r && r.Follow? && r.jti in s.links
    ensures var s', t' := AdvanceFollow(s, req, r.jti, r.hash, r.at), AdvanceFollow(t, req, r.jti, r.hash, r.at);
      RequestsAlike(s', t')
  {
    LinkAnswersAlike(what, s, t, req, r);
    FollowAlike(s, t, req, r.jti, r.hash, r.at);
    FollowFrame(s, req, r.jti, r.hash, r.at);
    FollowFrame(t, req, r.jti, r.hash, r.at);
    FollowKeepsClock(s, req, r.jti, r.hash, r.at);
    OneRequestAlike(s, t, req, AdvanceFollow(s, req, r.jti, r.hash, r.at), AdvanceFollow(t, req, r.jti, r.hash, r.at));
  }

  // The same event keeps the requests alike.
  lemma RequestsStep(what: Erasure, s: State, t: State, e: Event)
    requires Alike(what, s, t)
    ensures RequestsAlike(Step(s, e), Step(t, e))
  {
    match e
    case RefreshStep(req) =>
      if req in s.requests {
        assert RequestAlike(s.requests[req], t.requests[req], s.now);
        if s.requests[req].Refresh? { RefreshesAlike(s, t, req); }
      }
    case FollowStep(req) =>
      if req in s.requests {
        assert RequestAlike(s.requests[req], t.requests[req], s.now);
        if s.requests[req].Follow? && s.requests[req].jti in s.links {
          FollowersAlike(what, s, t, req, s.requests[req]);
        }
      }
    case _ => OtherRequestsStep(what, s, t, e);
  }

  // The request an event begins, or finishes in one go.
  ghost function Begun(s: State, e: Event): Option<Request> {
    match e
    case LoginAccepted(req, uid) =>
      if req in s.requests || !MayRefresh(s.db.users, uid) then None else Some(Login(uid))
    case LoginCreate(req, sid) =>
      if req !in s.requests || !s.requests[req].Login? || sid in s.archive then None else Some(LoggedIn(sid))
    case BeginRefresh(req, claim) =>
      if req in s.requests || claim !in s.issued then None else Some(Refresh(claim, RefreshStage.Begun))
    case BeginFollow(req, expected, jti, hash) =>
      if req in s.requests || jti !in s.links then None
      else if s.links[jti].expiresAt <= s.now || s.links[jti].kind != expected then
        Some(Follow(jti, hash, Followed(InvalidLink)))
      else Some(Follow(jti, hash, Decoded))
    case _ => None
  }

  lemma BeginsOne(s: State, e: Event)
    requires e.LoginAccepted? || e.LoginCreate? || e.BeginRefresh? || e.BeginFollow?
    ensures Step(s, e).requests == (if Begun(s, e).Some? then s.requests[e.req := Begun(s, e).value] else s.requests)
  {
  }

  lemma OnlyBegins(s: State, e: Event)
    requires !e.RefreshStep? && !e.FollowStep?
    ensures Step(s, e).requests == (if Begun(s, e).Some? then s.requests[e.req := Begun(s, e).value] else s.requests)
    ensures s.now <= Step(s, e).now
  {
    ClockStep(s, e);
    if e.LoginAccepted? || e.LoginCreate? || e.BeginRefresh? || e.BeginFollow? { BeginsOne(s, e); }
  }

  lemma OtherRequestsStep(what: Erasure, s: State, t: State, e: Event)
    requires Alike(what, s, t)
    requires !e.RefreshStep? && !e.FollowStep?
    ensures RequestsAlike(Step(s, e), Step(t, e))
  {
    OnlyBegins(s, e);
    OnlyBegins(t, e);
    SameBeginning(what, s, t, e);
    BegunAlike(s, t, e, Step(s, e), Step(t, e), Begun(s, e));
  }

  lemma SameBeginning(what: Erasure, s: State, t: State, e: Event)
    requires Alike(what, s, t)
    ensures Begun(s, e) == Begun(t, e)
  {
    if e.LoginCreate? && e.req in s.requests {
      assert RequestAlike(s.requests[e.req], t.requests[e.req], s.now);
    }
  }

  lemma BegunAlike(s: State, t: State, e: Event, s': State, t': State, begun: Option<Request>)
    requires RequestsAlike(s, t) && s.now <= s'.now
    requires begun.Some? ==> e.LoginAccepted? || e.LoginCreate? || e.BeginRefresh? || e.BeginFollow?
    requires s'.requests == if begun.Some? then s.requests[e.req := begun.value] else s.requests
    requires t'.requests == if begun.Some? then t.requests[e.req := begun.value] else t.requests
    ensures RequestsAlike(s', t')
  {
  }

  lemma SameEffect(what: Erasure, s: State, t: State, e: Event)
    requires Alike(what, s, t)
    ensures EffectOf(s, e) == EffectOf(t, e)
  {
    if e.FollowStep? && e.req in s.requests {
      assert RequestAlike(s.requests[e.req], t.requests[e.req], s.now);
      if s.requests[e.req].Follow? && s.requests[e.req].at.UserRead? {
        assert CanStill(s, e.req, s.requests[e.req].jti);
      }
    }
  }

  // Batch inserts of genuine tokens keep the answers alike: a row one run has
  // purged and inserts again is as expired as the one the other run still holds.
  lemma InsertsAlike(s: State, t: State, tokens: seq<TokenRef>)
    requires s.cfg == t.cfg && s.now == t.now && Genuine(s.cfg, tokens) && GenuineRows(s) && GenuineRows(t)
    requires AnswersAlike(s.db.revoked, t.db.revoked, s.now)
    ensures AnswersAlike(AddAllIfAbsent(s.db.revoked, tokens), AddAllIfAbsent(t.db.revoked, tokens), s.now)
    ensures forall jti <- AddAllIfAbsent(s.db.revoked, tokens) | jti.SessionToken? ::
              AddAllIfAbsent(s.db.revoked, tokens)[jti] == s.cfg.expiryOf(jti.n)
    ensures forall jti <- AddAllIfAbsent(t.db.revoked, tokens) | jti.SessionToken? ::
              AddAllIfAbsent(t.db.revoked, tokens)[jti] == s.cfg.expiryOf(jti.n)
  {
    AddAllIfAbsentMeaning(s.db.revoked, tokens);
    AddAllIfAbsentMeaning(t.db.revoked, tokens);
  }

  ghost predicate GenuineEffect(s: State, f: Effect) {
    && (f.Closes? || f.LogsOut? ==> Genuine(s.cfg, f.tokens))
    && (f.Consumes? ==> f.jti.LinkToken?)
  }

  lemma EffectGenuine(s: State, e: Event)
    requires Inv(s)
    ensures GenuineEffect(s, EffectOf(s, e))
  {
  }

  lemma EffectAlike(s: State, t: State, f: Effect)
    requires s.cfg == t.cfg && s.now == t.now && s.links == t.links && GenuineEffect(s, f)
    requires GenuineRows(s) && GenuineRows(t) && AnswersAlike(s.db.revoked, t.db.revoked, s.now)
    ensures var a, b := RevokedAfter(s.db.revoked, s.links, s.now, f), RevokedAfter(t.db.revoked, t.links, t.now, f);
      && AnswersAlike(a, b, s.now)
      && (forall jti <- a | jti.SessionToken? :: a[jti] == s.cfg.expiryOf(jti.n))
      && (forall jti <- b | jti.SessionToken? :: b[jti] == s.cfg.expiryOf(jti.n))
  {
    if f.Closes? || f.LogsOut? {
      InsertsAlike(s, t, f.tokens);
    }
  }

  lemma CoreStep(what: Erasure, s: State, t: State, e: Event)
    requires Inv(s) && Inv(t) && Alike(what, s, t)
    ensures SameCore(Step(s, e), Step(t, e))
  {
    RowsStep(what, s, t, e);
    SameEffect(what, s, t, e);
    StepEffect(s, e);
    StepEffect(t, e);
    ClockStep(s, e);
    ClockStep(t, e);
  }

  lemma ClockStep(s: State, e: Event)
    ensures Step(s, e).now == s.now + if e.Tick? then e.dt else 0
  {
    if e.RefreshStep? && e.req in s.requests && s.requests[e.req].Refresh? {
      AdvanceKeepsClock(s, e.req, s.requests[e.req].claim, s.requests[e.req].stage);
    } else if e.FollowStep? && e.req in s.requests && s.requests[e.req].Follow? && s.requests[e.req].jti in s.links {
      FollowKeepsClock(s, e.req, s.requests[e.req].jti, s.requests[e.req].hash, s.requests[e.req].at);
    }
  }

  // Effects alike leave a link's rows alike where they were.
  lemma LinkRowsAlike(s: State, t: State, f: Effect, jti: Jti)
    requires s.cfg == t.cfg && s.now == t.now && s.links == t.links && GenuineEffect(s, f) && !f.DropsTokens?
    requires jti.LinkToken? && (jti in s.db.revoked <==> jti in t.db.revoked)
    ensures jti in RevokedAfter(s.db.revoked, s.links, s.now, f) <==>
      jti in RevokedAfter(t.db.revoked, t.links, t.now, f)
  {
    if f.Closes? || f.LogsOut? {
      LogoutKeepsLinkRows(s.db.revoked, f.tokens, jti);
      LogoutKeepsLinkRows(t.db.revoked, f.tokens, jti);
    }
  }

  // A link that can still be committed is marked as used in both runs or in neither.
  lemma FlightsAlike(s: State, t: State, e: Event, req: RequestId, jti: Jti)
    requires Inv(s) && Inv(t) && Alike(AllPurges, s, t) && CanStill(Step(s, e), req, jti)
    ensures jti.LinkToken? && (jti in s.db.revoked <==> jti in t.db.revoked)
  {
    OneFollowerMoves(s, e, req);
    assert jti in s.links;
    StillBefore(s, e, req, jti);
  }

  lemma AllTokensStep(s: State, t: State, e: Event)
    requires Inv(s) && Inv(t) && Alike(AllPurges, s, t) && !e.PurgeTokenRows? && EffectOf(s, e) == EffectOf(t, e)
    ensures TokensAlike(AllPurges, Step(s, e), Step(t, e))
  {
    RowsAnswerAlike(s, t, e);
    StepEffect(s, e);
    StepEffect(t, e);
    EffectGenuine(s, e);
    forall req, jti | CanStill(Step(s, e), req, jti)
      ensures jti in Step(s, e).db.revoked <==> jti in Step(t, e).db.revoked
    {
      FlightsAlike(s, t, e, req, jti);
      LinkRowsAlike(s, t, EffectOf(s, e), jti);
    }
  }

  lemma RowsAnswerAlike(s: State, t: State, e: Event)
    requires Inv(s) && SameCore(s, t) && EffectOf(s, e) == EffectOf(t, e)
    requires GenuineRows(s) && GenuineRows(t) && AnswersAlike(s.db.revoked, t.db.revoked, s.now)
    ensures AnswersAlike(Step(s, e).db.revoked, Step(t, e).db.revoked, Step(s, e).now)
    ensures GenuineRows(Step(s, e)) && GenuineRows(Step(t, e))
  {
    StepEffect(s, e);
    StepEffect(t, e);
    EffectGenuine(s, e);
    EffectAlike(s, t, EffectOf(s, e));
    ClockStep(s, e);
  }

  lemma TokensStep(what: Erasure, s: State, t: State, e: Event)
    requires Inv(s) && Inv(t) && Alike(what, s, t) && !Erases(what, e)
    ensures TokensAlike(what, Step(s, e), Step(t, e))
  {
    SameEffect(what, s, t, e);
    if what.AllPurges? {
      AllTokensStep(s, t, e);
    } else {
      StepEffect(s, e);
      StepEffect(t, e);
    }
  }

  lemma RowsAgeAlike(s: Sessions, t: Sessions, now: Time, later: Time)
    requires RowsAlike(s, t, now) && now <= later
    ensures RowsAlike(s, t, later)
  {
  }

  // An event both runs share.
  lemma SharedStep(what: Erasure, s: State, t: State, e: Event)
    requires Inv(s) && Inv(t) && Alike(what, s, t) && !Erases(what, e)
    ensures Alike(what, Step(s, e), Step(t, e))
  {
    CoreStep(what, s, t, e);
    RowsStep(what, s, t, e);
    ClockStep(s, e);
    RowsAgeAlike(Step(s, e).db.sessions, Step(t, e).db.sessions, s.now, Step(s, e).now);
    RequestsStep(what, s, t, e);
    TokensStep(what, s, t, e);
  }

  // No purge of the token table takes a link's row from under a request that can
  // still commit the link.
  ghost predicate AllCalm(s: State, events: seq<Event>) {
    forall jti: Jti | jti.LinkToken? :: CalmRun(s, events, jti)
  }

  lemma PurgeLeavesStill(s: State)
    ensures forall req, jti :: CanStill(Step(s, PurgeSessionRows), req, jti) <==> CanStill(s, req, jti)
  {
  }

  lemma ErasedSessionPurge(what: Erasure, s: State, t: State)
    requires ArchiveOk(s) && Alike(what, s, t)
    ensures Alike(what, Step(s, PurgeSessionRows), t)
  {
    assert (s.archive + PurgeSessions(s.db.sessions, s.now)).Keys == s.archive.Keys;
    PurgeLeavesStill(s);
  }

  lemma ErasedTokenPurge(s: State, t: State)
    requires Inv(s) && Alike(AllPurges, s, t)
    requires forall jti: Jti | jti.LinkToken? :: CalmPurge(s, PurgeTokenRows, jti)
    ensures TokensAlike(AllPurges, Step(s, PurgeTokenRows), t)
  {
    forall req, jti | CanStill(Step(s, PurgeTokenRows), req, jti)
      ensures jti in PurgeRevoked(s.db.revoked, s.now) <==> jti in t.db.revoked
    {
      assert CanStill(s, req, jti) && jti.LinkToken?;
      assert CalmPurge(s, PurgeTokenRows, jti);
    }
  }

  // A purge only the first run makes.
  lemma ErasedStep(what: Erasure, s: State, t: State, e: Event)
    requires Inv(s) && Alike(what, s, t) && Erases(what, e)
    requires what.AllPurges? ==> forall jti: Jti | jti.LinkToken? :: CalmPurge(s, e, jti)
    ensures Alike(what, Step(s, e), t)
  {
    if e.PurgeSessionRows? {
      ErasedSessionPurge(what, s, t);
    } else {
      ErasedTokenPurge(s, t);
    }
  }

  lemma {:induction false} ErasureSimulates(what: Erasure, s: State, events: seq<Event>)
    requires Inv(s) && Alike(what, s, s)
    requires what.AllPurges? ==> AllCalm(s, events)
    ensures Alike(what, Run(s, events), Run(s, Erase(what, events)))
  {
    if events != [] {
      var front, e := events[..|events| - 1], events[|events| - 1];
      if what.AllPurges? {
        forall jti: Jti | jti.LinkToken? ensures CalmRun(s, front, jti) && CalmPurge(Run(s, front), e, jti) {
          CalmFront(s, events, jti);
        }
      }
      ErasureSimulates(what, s, front);
      RunInv(s, front);
      RunInv(s, Erase(what, front));
      if Erases(what, e) {
        ErasedStep(what, Run(s, front), Run(s, Erase(what, front)), e);
      } else {
        SharedStep(what, Run(s, front), Run(s, Erase(what, front)), e);
        RunSnoc(s, Erase(what, front), e);
      }
    }
  }

  /******* The theorem *******/

  // A run and the same run without its session purges; or without any purge, when no
  // token purge takes a row from under a request that can still commit.  Every
  // request has the same outcome (or has fetched an expired row that the purge had
  // taken), the same tokens are issued, the users are the same, and `exists` and
  // `list_active` answer alike.
  lemma PurgesAreInvisible(cfg: Config, what: Erasure, events: seq<Event>, jti: Jti)
    requires what.AllPurges? ==> AllCalm(Init(cfg), events)
    ensures var s, t := After(cfg, events), After(cfg, Erase(what, events));
      && RequestsAlike(s, t)
      && s.now == t.now && s.db.users == t.db.users
      && s.issued == t.issued && s.rotations == t.rotations && s.consumed == t.consumed
      && (Exists(s.db.revoked, jti, s.now) <==> Exists(t.db.revoked, jti, t.now))
      && ListActive(s.db.revoked, s.now) == ListActive(t.db.revoked, t.now)
  {
    InitInv(cfg);
    ErasureSimulates(what, Init(cfg), events);
    var s, t := After(cfg, events), After(cfg, Erase(what, events));
    forall ref: TokenRef
      ensures ref in ListActive(s.db.revoked, s.now) <==> ref in ListActive(t.db.revoked, t.now)
    {
      assert ref in ListActive(s.db.revoked, s.now) <==>
        ref.jti in s.db.revoked && s.db.revoked[ref.jti] == ref.expiresAt > s.now;
      assert ref in ListActive(t.db.revoked, t.now) <==>
        ref.jti in t.db.revoked && t.db.revoked[ref.jti] == ref.expiresAt > t.now;
    }
  }

  /******* Token purges that show *******/

  lemma ErasureHasNoTokenPurge(events: seq<Event>, i: nat)
    requires i < |Erase(AllPurges, events)|
    ensures !Erase(AllPurges, events)[i].PurgeTokenRows?
  {
    var front, e := events[..|events| - 1], events[|events| - 1];
    if i < |Erase(AllPurges, front)| {
      ErasureHasNoTokenPurge(front, i);
    }
  }

  // Without token purges no link is consumed twice.
  lemma ErasureConsumesOnce(cfg: Config, events: seq<Event>, jti: Jti)
    requires jti.LinkToken?
    ensures After(cfg, Erase(AllPurges, events)).consumed[jti] <= 1
  {
    var kept := Erase(AllPurges, events);
    forall i | 0 <= i < |kept| ensures CalmPurge(Run(Init(cfg), kept[..i]), kept[i], jti) {
      ErasureHasNoTokenPurge(events, i);
    }
    LinkConsumedAtMostOnce(cfg, kept, jti);
  }

  // From any moment at which a token purge takes a link's row from under a request
  // that can still commit it, some future shows the purge: the link is consumed once
  // more often than in the same run without purges.
  lemma UncalmPurgeShows(cfg: Config, history: seq<Event>, req: RequestId, jti: Jti) returns (events: seq<Event>)
    requires jti.LinkToken?
    requires var s := After(cfg, history); jti in s.db.revoked && s.db.revoked[jti] <= s.now && CanStill(s, req, jti)
    ensures history <= events && !AllCalm(Init(cfg), events)
    ensures After(cfg, events).consumed[jti] > After(cfg, Erase(AllPurges, events)).consumed[jti]
  {
    var s := After(cfg, history);
    AfterInv(cfg, history);
    OwnersAlways(cfg, history);
    assert CanStill(Step(s, PurgeTokenRows), req, jti);
    var future := StillCommits(Step(s, PurgeTokenRows), req, jti);
    events := history + [PurgeTokenRows] + future;
    RunSnoc(Init(cfg), history, PurgeTokenRows);
    RunConcat(Init(cfg), history + [PurgeTokenRows], future);
    ErasureConsumesOnce(cfg, events, jti);
    LinkUsesAreAccounted(cfg, history, jti);
    if AllCalm(Init(cfg), events) {
      LinkConsumedAtMostOnce(cfg, events, jti);
    }
  }

  // There is such a moment.
  lemma TokenPurgesCanShow(cfg: Config) returns (events: seq<Event>)
    ensures After(cfg, events).consumed[LinkToken(0)] == 2
    ensures After(cfg, Erase(AllPurges, events)).consumed[LinkToken(0)] <= 1
  {
    events := UncalmPurgeAllowsTwoUses(cfg);
    ErasureConsumesOnce(cfg, events, LinkToken(0));
  }
}
