/**
  How long a row can wait.  One relay, every batch committing, and whatever the
  rest of the system does meanwhile: a potential that each round spends bounds
  the rounds before a row is first attempted, and the rounds until none is left.
 */
module OutboxFairness {
  import opened Options
  import opened Outbox
  import opened OutboxTheorems

  // The one relay always locks up to `limit` rows and never loses a batch.
  predicate Sole(e: Event, relay: RelayId, limit: nat) {
    (e.Lock? ==> e.relay == relay && e.limit == limit) && !e.AbortBatch?
  }

  ghost predicate Completes(s: State, e: Event) {
    e.CommitBatch? && e.relay in s.batches && s.batches[e.relay].done == |s.batches[e.relay].ids|
  }

  // Rounds committed.
  ghost function Rounds(s: State, events: seq<Event>): nat {
    if events == [] then 0
    else
      var front := events[..|events| - 1];
      Rounds(s, front) + One(Completes(Run(s, front), events[|events| - 1]))
  }

  /******* The potential *******/

  // How many times a row can still be handled.
  ghost function Budget(s: State, id: RowId): nat {
    if id !in s.born then s.cfg.maxAttempts
    else if id in s.rows && Pending(s.rows[id]) && s.rows[id].attempts <= s.cfg.maxAttempts
    then s.cfg.maxAttempts - s.rows[id].attempts
    else 0
  }

  ghost function Potential(s: State, ids: seq<RowId>): nat {
    if ids == [] then 0 else Potential(s, ids[..|ids| - 1]) + Budget(s, ids[|ids| - 1])
  }

  ghost function CountIn(ids: seq<RowId>, chosen: set<RowId>): nat {
    if ids == [] then 0 else CountIn(ids[..|ids| - 1], chosen) + One(ids[|ids| - 1] in chosen)
  }

  lemma {:induction false} CountCovers(ids: seq<RowId>, chosen: set<RowId>)
    requires forall id <- chosen :: id in ids
    ensures CountIn(ids, chosen) >= |chosen|
  {
    if ids == [] {
      assert chosen == {};
    } else {
      var front, last := ids[..|ids| - 1], ids[|ids| - 1];
      CountCovers(front, chosen - {last});
      CountGrows(front, chosen - {last}, chosen);
    }
  }

  lemma {:induction false} CountGrows(ids: seq<RowId>, a: set<RowId>, b: set<RowId>)
    requires a <= b
    ensures CountIn(ids, a) <= CountIn(ids, b)
  {
    if ids != [] { CountGrows(ids[..|ids| - 1], a, b); }
  }

  ghost function Members(ids: seq<RowId>): set<RowId> {
    set id | id in ids
  }

  lemma {:induction false} DistinctCard(ids: seq<RowId>)
    requires forall i, j | 0 <= i < j < |ids| :: ids[i] != ids[j]
    ensures |Members(ids)| == |ids|
  {
    if ids != [] {
      var front, last := ids[..|ids| - 1], ids[|ids| - 1];
      DistinctCard(front);
      assert last !in front && ids == front + [last];
      assert Members(ids) == Members(front) + {last};
    }
  }

  lemma DistinctCount(ids: seq<RowId>, chosen: seq<RowId>)
    requires forall i, j | 0 <= i < j < |chosen| :: chosen[i] != chosen[j]
    requires forall id <- chosen :: id in ids
    ensures CountIn(ids, Members(chosen)) >= |chosen|
  {
    DistinctCard(chosen);
    CountCovers(ids, Members(chosen));
  }

  lemma {:induction false} PotentialIsBounded(s: State, ids: seq<RowId>)
    ensures Potential(s, ids) <= |ids| * s.cfg.maxAttempts
  {
    if ids != [] {
      PotentialIsBounded(s, ids[..|ids| - 1]);
      assert (|ids| - 1) * s.cfg.maxAttempts + s.cfg.maxAttempts == |ids| * s.cfg.maxAttempts;
    }
  }

  /******* One step *******/

  // The rows a step spends budget on.
  ghost function Spent(s: State, e: Event): set<RowId> {
    if Completes(s, e) then Members(s.batches[e.relay].ids) else {}
  }

  lemma CompletingSpends(s: State, e: Event, id: RowId)
    requires RowsOk(s) && BatchesOk(s) && s.cfg.maxAttempts >= 1 && Completes(s, e)
    ensures Budget(Step(s, e), id) + One(id in Spent(s, e)) <= Budget(s, id)
  {
    var b := s.batches[e.relay];
    assert BatchOk(s, b) && Step(s, e) == AfterCommit(s, e.relay);
    if id in b.ids {
      CommittedView(s, e.relay, id);
      assert RowOk(s.cfg, s.rows[id]) && RowOk(s.cfg, b.working[id]);
    }
  }

  lemma BirthSpendsNothing(s: State, e: Event, id: RowId)
    requires RowsOk(s) && TxsOk(s) && (e.CommitTx? || e.RetryJob?)
    ensures Budget(Step(s, e), id) <= Budget(s, id)
  {
    if id in s.born {
      RowsKept(s, e, id);
      BornGrows(s, e, id);
    }
  }

  lemma SameRowsSameBudget(s: State, t: State, id: RowId)
    requires SameRows(s, t) && t.cfg == s.cfg
    ensures Budget(t, id) == Budget(s, id)
  {
  }

  lemma CleanupSpendsNothing(s: State, id: RowId)
    ensures Budget(Step(s, Cleanup), id) <= Budget(s, id)
  {
  }

  lemma UnspentStep(s: State, e: Event, id: RowId)
    requires RowsOk(s) && TxsOk(s) && !Completes(s, e)
    ensures Budget(Step(s, e), id) <= Budget(s, id)
  {
    ConfigStays(s, e);
    if KeepsRows(e) {
      PlainStep(s, e);
      SameRowsSameBudget(s, Step(s, e), id);
    } else if e.Enqueue? || e.AbortBatch? {
      RelayingStep(s, e);
      SameRowsSameBudget(s, Step(s, e), id);
    } else if e.CommitTx? || e.RetryJob? {
      BirthSpendsNothing(s, e, id);
    } else if e.Cleanup? {
      CleanupSpendsNothing(s, id);
    } else {
      assert Step(s, e) == s;
    }
  }

  lemma BudgetStep(s: State, e: Event, id: RowId)
    requires Inv(s) && s.cfg.maxAttempts >= 1
    ensures Budget(Step(s, e), id) + One(id in Spent(s, e)) <= Budget(s, id)
  {
    if Completes(s, e) {
      CompletingSpends(s, e, id);
    } else {
      UnspentStep(s, e, id);
    }
  }

  lemma {:induction false} PotentialStep(s: State, e: Event, ids: seq<RowId>)
    requires Inv(s) && s.cfg.maxAttempts >= 1
    ensures Potential(Step(s, e), ids) + CountIn(ids, Spent(s, e)) <= Potential(s, ids)
  {
    if ids != [] {
      PotentialStep(s, e, ids[..|ids| - 1]);
      BudgetStep(s, e, ids[|ids| - 1]);
    }
  }

  // A round that commits a batch covered by `ids` spends its whole length.
  lemma RoundSpends(s: State, e: Event, ids: seq<RowId>)
    requires Inv(s) && s.cfg.maxAttempts >= 1 && Completes(s, e)
    requires forall id <- s.batches[e.relay].ids :: id in ids
    ensures Potential(Step(s, e), ids) + |s.batches[e.relay].ids| <= Potential(s, ids)
  {
    PotentialStep(s, e, ids);
    SpentCount(s, e, ids);
  }

  lemma SpentCount(s: State, e: Event, ids: seq<RowId>)
    requires BatchesOk(s) && Completes(s, e)
    requires forall id <- s.batches[e.relay].ids :: id in ids
    ensures CountIn(ids, Spent(s, e)) >= |s.batches[e.relay].ids|
  {
    assert BatchOk(s, s.batches[e.relay]);
    DistinctCount(ids, s.batches[e.relay].ids);
  }

  /******* Waiting *******/

  // Row `x` waits while the relay's batch, if any, is full of rows no younger.
  ghost predicate Overtaken(s: State, relay: RelayId, limit: nat, x: RowId) {
    && x in s.rows && Pending(s.rows[x])
    && s.batches.Keys <= {relay}
    && (relay in s.batches ==>
          && |s.batches[relay].ids| == limit && x !in s.batches[relay].ids
          && forall id <- s.batches[relay].ids :: id in s.rows && s.rows[id].createdAt <= s.rows[x].createdAt)
  }

  lemma LockOvertakes(s: State, relay: RelayId, ids: seq<RowId>, limit: nat, x: RowId)
    requires Overtaken(s, relay, limit, x) && relay !in s.batches && x !in ids
    requires Selects(s.rows, Locked(s.batches), ids, limit)
    ensures Overtaken(AfterLock(s, relay, ids), relay, limit, x)
  {
    assert Locked(s.batches) == {};
  }

  lemma HandlingOvertakes(s: State, relay: RelayId, limit: nat, x: RowId, reply: Reply)
    requires Overtaken(s, relay, limit, x) && relay in s.batches
    requires var b := s.batches[relay]; b.done < |b.ids| && b.ids[b.done] in b.working
    ensures Overtaken(HandleNext(s, relay, s.batches[relay], reply), relay, limit, x)
  {
  }

  // Rows that neither change nor go, and batches that stay.
  ghost predicate Untouched(s: State, t: State) {
    && t.batches == s.batches
    && forall id <- s.rows | Pending(s.rows[id]) :: id in t.rows && t.rows[id] == s.rows[id]
  }

  lemma QuietUntouched(s: State, e: Event)
    requires e.Tick? || e.BeginTx? || e.StageAdd? || e.RollbackTx? || e.Record? || e.DeleteJob? || e.PurgeJobs?
    ensures Step(s, e).batches == s.batches
  {
    if e.StageAdd? && e.tx in s.txs && e.id !in s.seenIds {
      assert Step(s, e) == AfterStage(s, e.tx, e.id, NewRow(e.task, e.payload, s.now));
    }
  }

  lemma PublishUntouched(s: State, rows: Rows, origin: Origin)
    requires RowsOk(s) && Fresh(s, rows)
    ensures Untouched(s, Publish(s, rows, origin))
  {
  }

  lemma CommitUntouched(s: State, tx: TxId)
    requires RowsOk(s) && TxsOk(s)
    ensures Untouched(s, Step(s, CommitTx(tx)))
  {
    if tx in s.txs {
      PublishUntouched(s, s.txs[tx], Business(tx));
      assert Step(s, CommitTx(tx)) == AfterBusiness(s, tx);
    } else {
      assert Step(s, CommitTx(tx)) == s;
    }
  }

  lemma RetryUntouched(s: State, e: Event)
    requires RowsOk(s) && e.RetryJob?
    ensures Untouched(s, Step(s, e))
  {
    if Retries(s, e, e.job) {
      assert Step(s, e) == AfterRetry(s, e.job, e.id);
    } else {
      assert Step(s, e) == s;
    }
  }

  lemma UntouchedStep(s: State, e: Event)
    requires Inv(s) && !e.Lock? && !e.Enqueue? && !e.AbortBatch? && !e.CommitBatch?
    ensures Untouched(s, Step(s, e))
  {
    if e.CommitTx? {
      CommitUntouched(s, e.tx);
    } else if e.RetryJob? {
      RetryUntouched(s, e);
    } else if !e.Cleanup? {
      QuietUntouched(s, e);
      PlainStep(s, e);
    }
  }

  lemma CommitOvertakes(s: State, relay: RelayId, limit: nat, x: RowId)
    requires Overtaken(s, relay, limit, x) && relay in s.batches && BatchOk(s, s.batches[relay])
    ensures Overtaken(AfterCommit(s, relay), relay, limit, x)
  {
  }

  lemma LockingOvertakes(s: State, e: Event, relay: RelayId, limit: nat, x: RowId)
    requires Overtaken(s, relay, limit, x) && e.Lock? && e.relay == relay && e.limit == limit && x !in e.ids
    ensures Overtaken(Step(s, e), relay, limit, x)
  {
    if relay !in s.batches && Selects(s.rows, Locked(s.batches), e.ids, limit) {
      LockOvertakes(s, relay, e.ids, limit, x);
      assert Step(s, e) == AfterLock(s, relay, e.ids);
    } else {
      assert Step(s, e) == s;
    }
  }

  lemma CommittingOvertakes(s: State, e: Event, relay: RelayId, limit: nat, x: RowId)
    requires BatchesOk(s) && Overtaken(s, relay, limit, x) && e.CommitBatch?
    ensures Overtaken(Step(s, e), relay, limit, x)
  {
    if Completes(s, e) {
      assert BatchOk(s, s.batches[relay]);
      CommitOvertakes(s, relay, limit, x);
    } else {
      assert Step(s, e) == s;
    }
  }

  lemma OvertakenStep(s: State, e: Event, relay: RelayId, limit: nat, x: RowId)
    requires Inv(s) && Sole(e, relay, limit) && Overtaken(s, relay, limit, x) && (e.Lock? ==> x !in e.ids)
    ensures Overtaken(Step(s, e), relay, limit, x)
  {
    if e.Lock? {
      LockingOvertakes(s, e, relay, limit, x);
    } else if e.Enqueue? {
      EnqueueOvertakes(s, e, relay, limit, x);
    } else if e.CommitBatch? {
      CommittingOvertakes(s, e, relay, limit, x);
    } else {
      UntouchedStep(s, e);
      UntouchedOvertakes(s, Step(s, e), relay, limit, x);
    }
  }

  lemma EnqueueOvertakes(s: State, e: Event, relay: RelayId, limit: nat, x: RowId)
    requires Overtaken(s, relay, limit, x) && e.Enqueue?
    ensures Overtaken(Step(s, e), relay, limit, x)
  {
    if e.relay in s.batches {
      var b := s.batches[relay];
      if b.done < |b.ids| && b.ids[b.done] in b.working { HandlingOvertakes(s, relay, limit, x, e.reply); }
    }
  }

  lemma UntouchedOvertakes(s: State, t: State, relay: RelayId, limit: nat, x: RowId)
    requires BatchesOk(s) && Overtaken(s, relay, limit, x) && Untouched(s, t)
    ensures Overtaken(t, relay, limit, x)
  {
    BatchRowsPending(s);
  }

  lemma BatchRowsPending(s: State)
    requires BatchesOk(s)
    ensures forall r <- s.batches :: forall id <- s.batches[r].ids :: id in s.rows && Pending(s.rows[id])
  {
    forall r | r in s.batches ensures forall id <- s.batches[r].ids :: id in s.rows && Pending(s.rows[id]) {
      assert BatchOk(s, s.batches[r]);
    }
  }

  // Every row but `x` ever committed with a creation time no later than `x`'s.
  ghost predicate CoversElders(s: State, x: RowId, elders: seq<RowId>) {
    x in s.born && forall id <- s.born | id != x && s.born[id].createdAt <= s.born[x].createdAt :: id in elders
  }

  lemma CoversBefore(s: State, e: Event, x: RowId, elders: seq<RowId>)
    requires RowsOk(s) && TxsOk(s) && x in s.born && CoversElders(Step(s, e), x, elders)
    ensures CoversElders(s, x, elders)
  {
    BornGrows(s, e, x);
    forall id | id in s.born && id != x && s.born[id].createdAt <= s.born[x].createdAt ensures id in elders {
      BornGrows(s, e, id);
    }
  }

  lemma BatchOfElders(s: State, relay: RelayId, limit: nat, x: RowId, elders: seq<RowId>)
    requires RowsOk(s) && Overtaken(s, relay, limit, x) && CoversElders(s, x, elders) && relay in s.batches
    ensures forall id <- s.batches[relay].ids :: id in elders
  {
    assert SameContent(s.born[x], s.rows[x]);
    forall id | id in s.batches[relay].ids ensures id in elders {
      assert SameContent(s.born[id], s.rows[id]);
    }
  }

  lemma {:induction false} RunFromInv(s: State, events: seq<Event>)
    requires Inv(s)
    ensures Inv(Run(s, events)) && Run(s, events).cfg == s.cfg
  {
    if events != [] {
      RunFromInv(s, events[..|events| - 1]);
      StepInv(Run(s, events[..|events| - 1]), events[|events| - 1]);
      ConfigStays(Run(s, events[..|events| - 1]), events[|events| - 1]);
    }
  }

  lemma {:induction false} StillOvertaken(s: State, events: seq<Event>, relay: RelayId, limit: nat, x: RowId)
    requires Inv(s) && Overtaken(s, relay, limit, x)
    requires forall e <- events :: Sole(e, relay, limit) && (e.Lock? ==> x !in e.ids)
    ensures Overtaken(Run(s, events), relay, limit, x)
  {
    if events != [] {
      StillOvertaken(s, events[..|events| - 1], relay, limit, x);
      RunFromInv(s, events[..|events| - 1]);
      OvertakenStep(Run(s, events[..|events| - 1]), events[|events| - 1], relay, limit, x);
    }
  }

  lemma WaitingStep(s: State, e: Event, relay: RelayId, limit: nat, x: RowId, elders: seq<RowId>)
    requires Inv(s) && s.cfg.maxAttempts >= 1 && Overtaken(s, relay, limit, x) && CoversElders(s, x, elders)
    ensures Potential(Step(s, e), elders) + (if Completes(s, e) then limit else 0) <= Potential(s, elders)
  {
    if Completes(s, e) {
      BatchOfElders(s, relay, limit, x, elders);
      RoundSpends(s, e, elders);
    } else {
      PotentialStep(s, e, elders);
    }
  }

  lemma {:induction false} RoundsSpend(s: State, events: seq<Event>, relay: RelayId, limit: nat, x: RowId,
                                       elders: seq<RowId>)
    requires Inv(s) && s.cfg.maxAttempts >= 1 && Overtaken(s, relay, limit, x)
    requires forall e <- events :: Sole(e, relay, limit) && (e.Lock? ==> x !in e.ids)
    requires CoversElders(Run(s, events), x, elders)
    ensures Potential(Run(s, events), elders) + Slots(s, events, limit) <= Potential(s, elders)
  {
    if events != [] {
      var front, e := events[..|events| - 1], events[|events| - 1];
      var m := Run(s, front);
      RunFromInv(s, front);
      StillOvertaken(s, front, relay, limit, x);
      CoversBefore(m, e, x, elders);
      RoundsSpend(s, front, relay, limit, x, elders);
      WaitingStep(m, e, relay, limit, x, elders);
    }
  }

  // The places in the rounds committed.
  ghost function Slots(s: State, events: seq<Event>, limit: nat): nat {
    if events == [] then 0
    else
      var front := events[..|events| - 1];
      Slots(s, front, limit) + if Completes(Run(s, front), events[|events| - 1]) then limit else 0
  }

  lemma {:induction false} SlotsOfRounds(s: State, events: seq<Event>, limit: nat)
    ensures Slots(s, events, limit) == Rounds(s, events) * limit
  {
    if events != [] {
      var front := events[..|events| - 1];
      SlotsOfRounds(s, front, limit);
      if Completes(Run(s, front), events[|events| - 1]) {
        assert (Rounds(s, front) + 1) * limit == Rounds(s, front) * limit + limit;
      }
    }
  }

  // A pending row with `|elders|` others ever ordered at or before it is passed over
  // in at most |elders| * maxAttempts / limit rounds before its first attempt.
  lemma WaitIsBounded(s: State, events: seq<Event>, relay: RelayId, limit: nat, x: RowId, elders: seq<RowId>)
    requires Inv(s) && s.batches == map[] && x in s.rows && Pending(s.rows[x])
    requires limit >= 1 && s.cfg.maxAttempts >= 1
    requires forall e <- events :: Sole(e, relay, limit) && (e.Lock? ==> x !in e.ids)
    requires CoversElders(Run(s, events), x, elders)
    ensures Rounds(s, events) <= |elders| * s.cfg.maxAttempts / limit
  {
    RoundsSpend(s, events, relay, limit, x, elders);
    SlotsOfRounds(s, events, limit);
    PotentialIsBounded(s, elders);
    var bound := |elders| * s.cfg.maxAttempts;
    assert Rounds(s, events) * limit <= bound;
    DivideBound(Rounds(s, events), limit, bound);
  }

  lemma DivideBound(n: nat, limit: nat, bound: nat)
    requires limit >= 1 && n * limit <= bound
    ensures n <= bound / limit
  {
    var quotient := bound / limit;
    assert bound < (quotient + 1) * limit;
    if n >= quotient + 1 {
      MulMono(quotient + 1, n, limit);
    }
  }

  lemma MulMono(a: nat, b: nat, limit: nat)
    requires a <= b
    ensures a * limit <= b * limit
  {
  }

  /******* Draining *******/

  predicate NoBirth(e: Event) {
    !e.CommitTx? && !e.RetryJob?
  }

  ghost predicate NonePending(s: State) {
    forall id <- s.rows :: !Pending(s.rows[id])
  }

  // All that is pending is among `ids`, and an empty batch means nothing is.
  ghost predicate Draining(s: State, relay: RelayId, ids: seq<RowId>) {
    && s.batches.Keys <= {relay}
    && (forall id <- s.rows | Pending(s.rows[id]) :: id in ids)
    && (relay in s.batches && s.batches[relay].ids == [] ==> NonePending(s))
  }

  // Rows only settle.
  ghost predicate OnlySettles(s: State, t: State) {
    forall id <- t.rows | Pending(t.rows[id]) :: id in s.rows && Pending(s.rows[id])
  }

  lemma CompletingSettles(s: State, e: Event)
    requires BatchesOk(s) && Completes(s, e)
    ensures OnlySettles(s, Step(s, e)) && Step(s, e).batches == s.batches - {e.relay}
  {
    assert BatchOk(s, s.batches[e.relay]) && Step(s, e) == AfterCommit(s, e.relay);
  }

  lemma SettlingStep(s: State, e: Event)
    requires Inv(s) && NoBirth(e)
    ensures OnlySettles(s, Step(s, e))
  {
    if KeepsRows(e) {
      PlainStep(s, e);
    } else if e.Enqueue? || e.AbortBatch? {
      RelayingStep(s, e);
    } else if Completes(s, e) {
      CompletingSettles(s, e);
    }
  }

  lemma LockDrains(s: State, relay: RelayId, ids: seq<RowId>, limit: nat, all: seq<RowId>)
    requires Draining(s, relay, all) && relay !in s.batches && limit >= 1
    requires Selects(s.rows, Locked(s.batches), ids, limit)
    ensures Draining(AfterLock(s, relay, ids), relay, all)
  {
    assert Locked(s.batches) == {};
  }

  lemma EnqueueDrains(s: State, e: Event, relay: RelayId, ids: seq<RowId>)
    requires Draining(s, relay, ids) && e.Enqueue? && e.relay in s.batches
    requires var b := s.batches[relay]; b.done < |b.ids| && b.ids[b.done] in b.working
    ensures Draining(HandleNext(s, relay, s.batches[relay], e.reply), relay, ids)
  {
  }

  lemma DrainingStep(s: State, e: Event, relay: RelayId, limit: nat, ids: seq<RowId>)
    requires Inv(s) && NoBirth(e) && Sole(e, relay, limit) && limit >= 1 && Draining(s, relay, ids)
    ensures Draining(Step(s, e), relay, ids)
  {
    if e.Lock? {
      if Step(s, e) != s { LockDrains(s, relay, e.ids, limit, ids); }
    } else if e.Enqueue? {
      if Step(s, e) != s { EnqueueDrains(s, e, relay, ids); }
    } else if e.CommitBatch? {
      if Completes(s, e) { CompletingSettles(s, e); }
    } else {
      SettlingStep(s, e);
      UntouchedStep(s, e);
    }
  }

  lemma {:induction false} StillDraining(s: State, events: seq<Event>, relay: RelayId, limit: nat, ids: seq<RowId>)
    requires Inv(s) && limit >= 1 && Draining(s, relay, ids)
    requires forall e <- events :: Sole(e, relay, limit) && NoBirth(e)
    ensures Draining(Run(s, events), relay, ids)
  {
    if events != [] {
      StillDraining(s, events[..|events| - 1], relay, limit, ids);
      RunFromInv(s, events[..|events| - 1]);
      DrainingStep(Run(s, events[..|events| - 1]), events[|events| - 1], relay, limit, ids);
    }
  }

  // Each round spends from the budget until nothing is pending.
  lemma DrainStep(s: State, e: Event, relay: RelayId, ids: seq<RowId>)
    requires Inv(s) && s.cfg.maxAttempts >= 1 && Draining(s, relay, ids) && !NonePending(s)
    ensures Potential(Step(s, e), ids) + One(Completes(s, e)) <= Potential(s, ids)
  {
    if Completes(s, e) {
      BatchRowsPending(s);
      RoundSpends(s, e, ids);
    } else {
      PotentialStep(s, e, ids);
    }
  }

  lemma {:induction false} RoundsDrain(s: State, events: seq<Event>, relay: RelayId, limit: nat, ids: seq<RowId>)
    requires Inv(s) && limit >= 1 && s.cfg.maxAttempts >= 1 && Draining(s, relay, ids)
    requires forall e <- events :: Sole(e, relay, limit) && NoBirth(e)
    ensures NonePending(Run(s, events)) || Potential(Run(s, events), ids) + Rounds(s, events) <= Potential(s, ids)
  {
    if events != [] {
      var front, e := events[..|events| - 1], events[|events| - 1];
      var m := Run(s, front);
      RunFromInv(s, front);
      StillDraining(s, front, relay, limit, ids);
      RoundsDrain(s, front, relay, limit, ids);
      SettlingStep(m, e);
      if !NonePending(m) { DrainStep(m, e, relay, ids); }
    }
  }

  // With no new rows, the pending set is empty after as many rounds as there are
  // attempts left in it.
  lemma PendingDrains(s: State, events: seq<Event>, relay: RelayId, limit: nat, ids: seq<RowId>)
    requires Inv(s) && limit >= 1 && s.cfg.maxAttempts >= 1 && s.batches == map[]
    requires forall id <- s.rows | Pending(s.rows[id]) :: id in ids
    requires forall e <- events :: Sole(e, relay, limit) && NoBirth(e)
    requires Rounds(s, events) >= Potential(s, ids)
    ensures NonePending(Run(s, events))
  {
    RoundsDrain(s, events, relay, limit, ids);
    RunFromInv(s, events);
    StillDraining(s, events, relay, limit, ids);
    var t := Run(s, events);
    if !NonePending(t) {
      var id :| id in t.rows && Pending(t.rows[id]);
      assert RowOk(t.cfg, t.rows[id]) && Budget(t, id) >= 1;
      BudgetInPotential(t, ids, id);
    }
  }

  lemma {:induction false} BudgetInPotential(s: State, ids: seq<RowId>, id: RowId)
    requires id in ids
    ensures Budget(s, id) <= Potential(s, ids)
  {
    var front, last := ids[..|ids| - 1], ids[|ids| - 1];
    if id != last {
      assert ids == front + [last];
      BudgetInPotential(s, front, id);
    }
  }
}
