/**
  What the outbox promises over every run: how often a row reaches the queue,
  that no row is lost or dispatched twice, that nothing leaves before its
  transaction commits, and that a dead letter is staged at most once.
 */
module OutboxTheorems {
  import opened Options
  import opened Outbox

  /******* Counting events *******/

  // The queue takes row `id` at this event.
  ghost predicate Takes(s: State, e: Event, id: RowId) {
    && e.Enqueue? && Delivers(e.reply) && e.relay in s.batches
    && var b := s.batches[e.relay]; b.done < |b.ids| && b.ids[b.done] == id
  }

  // The queue takes row `id` although the call raises.
  ghost predicate TakesInDoubt(s: State, e: Event, id: RowId) {
    Takes(s, e, id) && e.reply.TookButRaised?
  }

  // A batch that had enqueued row `id` goes away without committing.
  ghost predicate Abandons(s: State, e: Event, id: RowId) {
    e.AbortBatch? && e.relay in s.batches && id in EnqueuedIn(s.batches[e.relay])
  }

  // A retry of `job` claims it and stages its row.
  ghost predicate Retries(s: State, e: Event, job: JobId) {
    e.RetryJob? && e.job == job && job in s.dead && s.dead[job].retriedAt.None? && e.staging && e.id !in s.seenIds
  }

  // Row `id` is committed at this event, by its transaction or by a retry.
  ghost predicate Commits(s: State, e: Event, id: RowId) {
    || (e.CommitTx? && e.tx in s.txs && id in s.txs[e.tx])
    || (e.RetryJob? && e.id == id && Retries(s, e, e.job))
  }

  // A batch commits that failed to enqueue row `id`.
  ghost predicate Fails(s: State, e: Event, id: RowId) {
    && e.CommitBatch? && e.relay in s.batches && s.batches[e.relay].done == |s.batches[e.relay].ids|
    && id in s.batches[e.relay].working && s.batches[e.relay].working[id].dispatchedAt.None?
  }

  datatype Kind = Taking | Doubting | Abandoning | Lapsing

  ghost predicate Happens(kind: Kind, s: State, e: Event, id: RowId) {
    match kind
    case Taking => Takes(s, e, id)
    case Doubting => TakesInDoubt(s, e, id)
    case Abandoning => Abandons(s, e, id)
    case Lapsing => Fails(s, e, id)
  }

  ghost function Times(kind: Kind, cfg: Config, events: seq<Event>, id: RowId): nat {
    if events == [] then 0
    else
      var front := events[..|events| - 1];
      Times(kind, cfg, front, id) + One(Happens(kind, Run(Init(cfg), front), events[|events| - 1], id))
  }

  ghost function TimesRetried(cfg: Config, events: seq<Event>, job: JobId): nat {
    if events == [] then 0
    else
      var front := events[..|events| - 1];
      TimesRetried(cfg, front, job) + One(Retries(Run(Init(cfg), front), events[|events| - 1], job))
  }

  ghost function InQueue(s: State, id: RowId): nat {
    if id in s.born then s.queue[JobOf(id, s.born[id])] else 0
  }

  /******* One step *******/

  lemma ConfigStays(s: State, e: Event)
    ensures Step(s, e).cfg == s.cfg
  {
  }

  predicate Changing(e: Event) {
    e.CommitBatch? || e.CommitTx? || e.RetryJob? || e.Cleanup?
  }

  // Rows and their history stay as they are.
  ghost predicate SameRows(s: State, t: State) {
    && t.rows == s.rows && t.cleaned == s.cleaned && t.born == s.born && t.origin == s.origin && t.staged == s.staged
  }

  ghost predicate SameQueue(s: State, t: State) {
    t.queue == s.queue && t.abandoned == s.abandoned && t.doubtful == s.doubtful
  }

  lemma LockStep(s: State, e: Event)
    requires e.Lock?
    ensures SameRows(s, Step(s, e)) && SameQueue(s, Step(s, e))
  {
    if e.relay in s.batches || !Selects(s.rows, Locked(s.batches), e.ids, e.limit) {
      assert Step(s, e) == s;
    } else {
      assert Step(s, e) == AfterLock(s, e.relay, e.ids);
    }
  }

  lemma HandlingKeepsRows(s: State, relay: RelayId, b: Batch, reply: Reply)
    requires b.done < |b.ids| && b.ids[b.done] in b.working
    ensures SameRows(s, HandleNext(s, relay, b, reply))
  {
  }

  lemma EnqueueKeepsRows(s: State, relay: RelayId, reply: Reply)
    requires relay in s.batches
    ensures SameRows(s, RelayStep(s, relay, Enqueue(relay, reply)))
  {
    var b := s.batches[relay];
    if b.done < |b.ids| && b.ids[b.done] in b.working { HandlingKeepsRows(s, relay, b, reply); }
  }

  lemma RelayingStep(s: State, e: Event)
    requires e.Enqueue? || e.AbortBatch?
    ensures SameRows(s, Step(s, e))
  {
    if e.relay !in s.batches {
      assert Step(s, e) == s;
    } else if e.Enqueue? {
      EnqueueKeepsRows(s, e.relay, e.reply);
    }
  }

  lemma StagingKeepsRows(s: State, tx: TxId, id: RowId, row: Row)
    requires tx in s.txs
    ensures SameRows(s, AfterStage(s, tx, id, row)) && SameQueue(s, AfterStage(s, tx, id, row))
  {
  }

  lemma StageStep(s: State, e: Event)
    requires e.StageAdd?
    ensures SameRows(s, Step(s, e)) && SameQueue(s, Step(s, e))
  {
    if e.tx in s.txs && e.id !in s.seenIds { StagingKeepsRows(s, e.tx, e.id, NewRow(e.task, e.payload, s.now)); }
  }

  lemma RecordFrame(s: State, e: Event)
    requires e.Record?
    ensures SameRows(s, LetterStep(s, e)) && SameQueue(s, LetterStep(s, e))
  {
  }

  lemma DropFrame(s: State, e: Event)
    requires e.DeleteJob? || e.PurgeJobs?
    ensures SameRows(s, LetterStep(s, e)) && SameQueue(s, LetterStep(s, e))
  {
  }

  lemma OpenFrame(s: State, e: Event)
    requires e.BeginTx?
    ensures SameRows(s, Step(s, e)) && SameQueue(s, Step(s, e))
  {
  }

  lemma CloseFrame(s: State, e: Event)
    requires e.RollbackTx?
    ensures SameRows(s, Step(s, e)) && SameQueue(s, Step(s, e))
  {
  }

  // The events that leave rows and queue alone.
  predicate KeepsRows(e: Event) {
    e.Tick? || e.Lock? || e.BeginTx? || e.StageAdd? || e.RollbackTx? || e.Record? || e.DeleteJob? || e.PurgeJobs?
  }

  lemma PlainStep(s: State, e: Event)
    requires KeepsRows(e)
    ensures SameRows(s, Step(s, e)) && SameQueue(s, Step(s, e))
  {
    match e
    case Lock(_, _, _) => LockStep(s, e);
    case StageAdd(_, _, _, _) => StageStep(s, e);
    case Record(_, _, _) => RecordFrame(s, e);
    case DeleteJob(_) => DropFrame(s, e);
    case PurgeJobs(_, _) => DropFrame(s, e);
    case Tick(_) => {}
    case BeginTx(_) => OpenFrame(s, e);
    case RollbackTx(_) => CloseFrame(s, e);
  }

  lemma ChangingStep(s: State, e: Event)
    requires Changing(e)
    ensures SameQueue(s, Step(s, e))
  {
  }

  lemma CommittingGrows(s: State, e: Event, id: RowId)
    requires RowsOk(s) && TxsOk(s) && (e.CommitTx? || e.RetryJob?)
    ensures id in s.born ==> id in Step(s, e).born && Step(s, e).born[id] == s.born[id]
    ensures id in Step(s, e).born && id !in s.born ==> Commits(s, e, id)
  {
  }

  lemma NothingBorn(s: State, e: Event)
    requires e.CommitBatch? || e.Cleanup?
    ensures Step(s, e).born == s.born
  {
  }

  lemma BornGrows(s: State, e: Event, id: RowId)
    requires RowsOk(s) && TxsOk(s)
    ensures id in s.born ==> id in Step(s, e).born && Step(s, e).born[id] == s.born[id]
    ensures id in Step(s, e).born && id !in s.born ==> Commits(s, e, id)
  {
    if KeepsRows(e) {
      PlainStep(s, e);
    } else if e.Enqueue? || e.AbortBatch? {
      RelayingStep(s, e);
    } else if e.CommitTx? || e.RetryJob? {
      CommittingGrows(s, e, id);
    } else {
      NothingBorn(s, e);
    }
  }

  lemma UnbornIsNotQueued(s: State, id: RowId, row: Row)
    requires CountsOk(s) && id !in s.born
    ensures s.queue[JobOf(id, row)] == 0
  {
    assert JobOf(id, row).key == id;
  }

  lemma HandlingCounts(s: State, relay: RelayId, next: RowId, reply: Reply, id: RowId)
    requires Next(s, relay, next) && next in s.born && SameContent(s.born[next], s.rows[next])
    ensures var t := AfterHandling(s, relay, next, reply);
      && InQueue(t, id) == InQueue(s, id) + One(id == next && Delivers(reply))
      && t.doubtful[id] == s.doubtful[id] + One(id == next && reply.TookButRaised?)
      && t.abandoned == s.abandoned
  {
    assert JobOf(next, s.rows[next]) == JobOf(next, s.born[next]);
  }

  lemma EnqueueStep(s: State, e: Event, id: RowId)
    requires RowsOk(s) && BatchesOk(s) && e.Enqueue?
    ensures InQueue(Step(s, e), id) == InQueue(s, id) + One(Takes(s, e, id))
    ensures Step(s, e).doubtful[id] == s.doubtful[id] + One(TakesInDoubt(s, e, id))
    ensures Step(s, e).abandoned == s.abandoned
  {
    if e.relay in s.batches && s.batches[e.relay].done < |s.batches[e.relay].ids| {
      NextRow(s, e.relay);
      HandlingCounts(s, e.relay, s.batches[e.relay].ids[s.batches[e.relay].done], e.reply, id);
    }
  }

  lemma OtherCounts(s: State, e: Event, id: RowId)
    requires RowsOk(s) && TxsOk(s) && CountsOk(s) && !e.Enqueue? && !e.AbortBatch?
    ensures InQueue(Step(s, e), id) == InQueue(s, id) && SameQueue(s, Step(s, e))
  {
    if Changing(e) {
      ChangingStep(s, e);
    } else {
      PlainStep(s, e);
    }
    BornGrows(s, e, id);
    if id !in s.born && id in Step(s, e).born { UnbornIsNotQueued(s, id, Step(s, e).born[id]); }
  }

  lemma AbortCountsOnce(s: State, e: Event, id: RowId)
    requires e.AbortBatch?
    ensures InQueue(Step(s, e), id) == InQueue(s, id) && Step(s, e).doubtful == s.doubtful
    ensures Step(s, e).abandoned[id] == s.abandoned[id] + One(Abandons(s, e, id))
  {
    if e.relay in s.batches {
      assert Step(s, e) == AfterAbort(s, e.relay);
    } else {
      assert Step(s, e) == s;
    }
  }

  lemma CountingStep(s: State, e: Event, id: RowId)
    requires RowsOk(s) && TxsOk(s) && BatchesOk(s) && CountsOk(s)
    ensures InQueue(Step(s, e), id) == InQueue(s, id) + One(Takes(s, e, id))
    ensures Step(s, e).doubtful[id] == s.doubtful[id] + One(TakesInDoubt(s, e, id))
    ensures Step(s, e).abandoned[id] == s.abandoned[id] + One(Abandons(s, e, id))
  {
    if e.Enqueue? {
      EnqueueStep(s, e, id);
    } else if e.AbortBatch? {
      AbortCountsOnce(s, e, id);
    } else {
      OtherCounts(s, e, id);
    }
  }

  lemma {:induction false} CountsAreEvents(cfg: Config, events: seq<Event>, id: RowId)
    ensures var s := Run(Init(cfg), events);
      && InQueue(s, id) == Times(Taking, cfg, events, id)
      && s.doubtful[id] == Times(Doubting, cfg, events, id)
      && s.abandoned[id] == Times(Abandoning, cfg, events, id)
  {
    if events != [] {
      var front := events[..|events| - 1];
      CountsAreEvents(cfg, front, id);
      RunInv(cfg, front);
      CountingStep(Run(Init(cfg), front), events[|events| - 1], id);
    }
  }

  /******* Duplicates *******/

  // The queue takes a row once for each batch that enqueued it and did not commit,
  // once for each call that raised after the job was taken, once if its dispatch is
  // committed, and once if it is enqueued in the batch that now holds it.
  lemma ExactDuplicateCount(cfg: Config, events: seq<Event>, id: RowId)
    ensures var s := Run(Init(cfg), events);
      Times(Taking, cfg, events, id) ==
        Times(Abandoning, cfg, events, id) + Times(Doubting, cfg, events, id)
        + One(DispatchedRow(s, id)) + One(InOpenBatch(s, id))
  {
    var s := Run(Init(cfg), events);
    RunInv(cfg, events);
    CountsAreEvents(cfg, events, id);
    if id in s.born {
      assert CountOk(s, id);
    } else if InOpenBatch(s, id) {
      LockedIsBorn(s, id);
    }
  }

  // At most one open batch holds a row, and only while it is pending.
  lemma OneHolder(cfg: Config, events: seq<Event>, r: RelayId, q: RelayId, id: RowId)
    ensures var s := Run(Init(cfg), events);
      r in s.batches && id in s.batches[r].ids ==>
        && id in s.rows && Pending(s.rows[id])
        && (q in s.batches && id in s.batches[q].ids ==> q == r)
  {
    var s := Run(Init(cfg), events);
    RunInv(cfg, events);
    if r in s.batches && id in s.batches[r].ids {
      assert BatchOk(s, s.batches[r]);
    }
  }

  /******* Conservation *******/

  datatype Place = Waiting | Sent | Parked | SweptAfterSending

  ghost predicate At(s: State, id: RowId, place: Place) {
    match place
    case Waiting =>
      id in s.rows && Pending(s.rows[id]) && (s.rows[id].attempts == 0 || s.rows[id].attempts < s.cfg.maxAttempts)
    case Sent => id in s.rows && s.rows[id].dispatchedAt.Some? && s.rows[id].failedAt.None?
    case Parked =>
      && id in s.rows && s.rows[id].failedAt.Some? && s.rows[id].dispatchedAt.None?
      && s.rows[id].attempts >= s.cfg.maxAttempts
    case SweptAfterSending => id !in s.rows && id in s.cleaned
  }

  lemma {:induction false} BornStays(cfg: Config, events: seq<Event>, n: nat, id: RowId)
    requires n <= |events| && id in Run(Init(cfg), events[..n]).born
    ensures var s := Run(Init(cfg), events); id in s.born && s.born[id] == Run(Init(cfg), events[..n]).born[id]
    decreases |events|
  {
    if n < |events| {
      var front := events[..|events| - 1];
      assert front[..n] == events[..n];
      BornStays(cfg, front, n, id);
      RunInv(cfg, front);
      BornGrows(Run(Init(cfg), front), events[|events| - 1], id);
    } else {
      assert events[..n] == events;
    }
  }

  // A row committed at any moment is, at every later moment, in exactly one place,
  // and in the two places that say it was sent the queue has taken it.
  lemma NoRowIsLost(cfg: Config, events: seq<Event>, n: nat, id: RowId)
    requires n <= |events| && id in Run(Init(cfg), events[..n]).rows
    ensures var s := Run(Init(cfg), events);
      exists place ::
        && At(s, id, place) && (forall other | At(s, id, other) :: other == place)
        && (place.Sent? || place.SweptAfterSending? ==> Times(Taking, cfg, events, id) >= 1)
  {
    RunInv(cfg, events[..n]);
    BornStays(cfg, events, n, id);
    PlacedOnce(cfg, events, id);
  }

  lemma PlacedOnce(cfg: Config, events: seq<Event>, id: RowId)
    requires id in Run(Init(cfg), events).born
    ensures var s := Run(Init(cfg), events);
      exists place ::
        && At(s, id, place) && (forall other | At(s, id, other) :: other == place)
        && (place.Sent? || place.SweptAfterSending? ==> Times(Taking, cfg, events, id) >= 1)
  {
    RunInv(cfg, events);
    ExactDuplicateCount(cfg, events, id);
    var place := PlaceOf(Run(Init(cfg), events), id);
  }

  // A committed row is in one place only.
  lemma PlaceOf(s: State, id: RowId) returns (place: Place)
    requires RowsOk(s) && id in s.born
    ensures At(s, id, place) && (forall other | At(s, id, other) :: other == place)
    ensures place.Sent? || place.SweptAfterSending? ==> DispatchedRow(s, id)
  {
    place :=
      if id !in s.rows then SweptAfterSending
      else if s.rows[id].dispatchedAt.Some? then Sent
      else if s.rows[id].failedAt.Some? then Parked
      else Waiting;
    assert id in s.rows ==> RowOk(s.cfg, s.rows[id]);
  }

  // When a row was committed.
  lemma {:induction false} BornWasCommitted(cfg: Config, events: seq<Event>, id: RowId) returns (k: nat)
    requires id in Run(Init(cfg), events).born
    ensures k < |events| && Commits(Run(Init(cfg), events[..k]), events[k], id)
  {
    var front := events[..|events| - 1];
    if id in Run(Init(cfg), front).born {
      k := BornWasCommitted(cfg, front, id);
      assert events[..k] == front[..k];
    } else {
      k := |front|;
      RunInv(cfg, front);
      CommitsNow(Run(Init(cfg), front), events[k], id);
    }
  }

  lemma CommitsNow(s: State, e: Event, id: RowId)
    requires RowsOk(s) && TxsOk(s) && id !in s.born && id in Step(s, e).born
    ensures Commits(s, e, id)
  {
    BornGrows(s, e, id);
  }

  // Whatever the queue holds carries the content of a row that was committed before.
  lemma NothingLeavesUncommitted(cfg: Config, events: seq<Event>, job: Job)
    requires job in Run(Init(cfg), events).queue
    ensures exists k | 0 <= k < |events| :: Commits(Run(Init(cfg), events[..k]), events[k], job.key)
    ensures var s := Run(Init(cfg), events); job.key in s.born && job == JobOf(job.key, s.born[job.key])
  {
    RunInv(cfg, events);
    var k := BornWasCommitted(cfg, events, job.key);
  }

  /******* Attempts *******/

  lemma FailsOnlyHeld(s: State, e: Event, id: RowId)
    requires RowsOk(s) && BatchesOk(s) && Fails(s, e, id)
    ensures id in s.born
  {
    assert BatchOk(s, s.batches[e.relay]);
    CommittedView(s, e.relay, id);
  }

  lemma CommitAttempts(s: State, e: Event, id: RowId)
    requires RowsOk(s) && BatchesOk(s) && e.CommitBatch? && id in Step(s, e).rows
    ensures id in s.rows && Step(s, e).rows[id].attempts == s.rows[id].attempts + One(Fails(s, e, id))
  {
    if e.relay in s.batches && s.batches[e.relay].done == |s.batches[e.relay].ids| {
      assert BatchOk(s, s.batches[e.relay]) && Step(s, e) == AfterCommit(s, e.relay);
      if id in s.batches[e.relay].working { CommittedView(s, e.relay, id); }
    } else {
      assert Step(s, e) == s;
    }
  }

  lemma BirthAttempts(s: State, e: Event, id: RowId)
    requires RowsOk(s) && TxsOk(s) && (e.CommitTx? || e.RetryJob?) && id in Step(s, e).rows
    ensures id in s.born ==> id in s.rows && Step(s, e).rows[id] == s.rows[id]
    ensures id !in s.born ==> Step(s, e).rows[id].attempts == 0
  {
    if id in s.born { RowsKept(s, e, id); }
  }

  lemma AttemptsStep(s: State, e: Event, id: RowId)
    requires Inv(s) && id in Step(s, e).rows
    ensures id in s.born ==> id in s.rows
    ensures id in s.born ==> Step(s, e).rows[id].attempts == s.rows[id].attempts + One(Fails(s, e, id))
    ensures id !in s.born ==> Step(s, e).rows[id].attempts == 0
  {
    if e.CommitBatch? {
      CommitAttempts(s, e, id);
    } else if KeepsRows(e) {
      PlainStep(s, e);
    } else if e.Enqueue? || e.AbortBatch? {
      RelayingStep(s, e);
    } else if !e.Cleanup? {
      BirthAttempts(s, e, id);
    }
  }

  lemma {:induction false} AttemptsAreFailures(cfg: Config, events: seq<Event>, id: RowId)
    ensures var s := Run(Init(cfg), events);
      && (id in s.rows ==> s.rows[id].attempts == Times(Lapsing, cfg, events, id))
      && (id !in s.born ==> Times(Lapsing, cfg, events, id) == 0)
  {
    if events != [] {
      var front, e := events[..|events| - 1], events[|events| - 1];
      var s := Run(Init(cfg), front);
      AttemptsAreFailures(cfg, front, id);
      RunInv(cfg, front);
      AttemptsLaw(s, e, id, Times(Lapsing, cfg, front, id));
    }
  }

  ghost predicate AttemptsAre(s: State, id: RowId, failures: nat) {
    (id in s.rows ==> s.rows[id].attempts == failures) && (id !in s.born ==> failures == 0)
  }

  lemma AttemptsLaw(s: State, e: Event, id: RowId, failures: nat)
    requires Inv(s) && AttemptsAre(s, id, failures)
    ensures AttemptsAre(Step(s, e), id, failures + One(Fails(s, e, id)))
  {
    if Fails(s, e, id) { FailsOnlyHeld(s, e, id); }
    if id in Step(s, e).rows { AttemptsStep(s, e, id); }
    BornGrows(s, e, id);
  }

  // A row's attempts are the committed batches that failed to enqueue it, and it is
  // parked exactly when they reach the limit.
  lemma ParkedExactlyAtTheLimit(cfg: Config, events: seq<Event>, id: RowId)
    requires cfg.maxAttempts >= 1 && id in Run(Init(cfg), events).rows
    ensures var row := Run(Init(cfg), events).rows[id];
      && row.attempts == Times(Lapsing, cfg, events, id) <= cfg.maxAttempts
      && (row.failedAt.Some? <==> Times(Lapsing, cfg, events, id) == cfg.maxAttempts)
  {
    AttemptsAreFailures(cfg, events, id);
    RunInv(cfg, events);
    ConfigKept(cfg, events);
    assert RowOk(cfg, Run(Init(cfg), events).rows[id]);
  }

  lemma {:induction false} ConfigKept(cfg: Config, events: seq<Event>)
    ensures Run(Init(cfg), events).cfg == cfg
  {
    if events != [] {
      ConfigKept(cfg, events[..|events| - 1]);
      ConfigStays(Run(Init(cfg), events[..|events| - 1]), events[|events| - 1]);
    }
  }

  /******* Settled rows *******/

  // Dispatched, parked or swept.
  ghost predicate Settled(s: State, id: RowId) {
    id in s.cleaned || (id in s.rows && !Pending(s.rows[id]))
  }

  lemma SettledIsNotHeld(s: State, r: RelayId, id: RowId)
    requires RowsOk(s) && BatchesOk(s) && r in s.batches && Settled(s, id)
    ensures id !in s.batches[r].ids && id !in s.batches[r].working
  {
    assert BatchOk(s, s.batches[r]);
  }

  // Rows change when a batch commits and go when they are cleaned up.
  lemma RowsKept(s: State, e: Event, id: RowId)
    requires RowsOk(s) && TxsOk(s) && (e.CommitTx? || e.RetryJob?) && id in s.born
    ensures var t := Step(s, e);
      && (id in t.rows <==> id in s.rows) && (id in s.rows ==> t.rows[id] == s.rows[id]) && t.cleaned == s.cleaned
  {
  }

  lemma CommittingKeeps(s: State, e: Event, id: RowId)
    requires RowsOk(s) && BatchesOk(s) && e.CommitBatch? && Settled(s, id)
    ensures var t := Step(s, e);
      && (id in t.rows <==> id in s.rows) && (id in s.rows ==> t.rows[id] == s.rows[id]) && t.cleaned == s.cleaned
  {
    if e.relay in s.batches { SettledIsNotHeld(s, e.relay, id); }
  }

  lemma SettledStep(s: State, e: Event, id: RowId)
    requires Inv(s) && Settled(s, id)
    ensures Settled(Step(s, e), id) && !Takes(s, e, id)
    ensures id in Step(s, e).rows ==> id in s.rows && Step(s, e).rows[id] == s.rows[id]
  {
    if e.CommitBatch? {
      CommittingKeeps(s, e, id);
    } else if e.Enqueue? || e.AbortBatch? {
      if e.relay in s.batches { SettledIsNotHeld(s, e.relay, id); }
      RelayingStep(s, e);
    } else if KeepsRows(e) {
      PlainStep(s, e);
    } else if !e.Cleanup? {
      RowsKept(s, e, id);
    }
  }

  // A row that was dispatched or parked never changes again, is never enqueued
  // again, and goes only by cleanup after dispatch.
  lemma {:induction false} SettledForGood(cfg: Config, events: seq<Event>, n: nat, id: RowId)
    requires n <= |events| && Settled(Run(Init(cfg), events[..n]), id)
    ensures var s, t := Run(Init(cfg), events[..n]), Run(Init(cfg), events);
      && Settled(t, id) && (id in t.rows ==> id in s.rows && t.rows[id] == s.rows[id])
      && Times(Taking, cfg, events, id) == Times(Taking, cfg, events[..n], id)
    decreases |events|
  {
    if n < |events| {
      var front := events[..|events| - 1];
      assert front[..n] == events[..n];
      SettledForGood(cfg, front, n, id);
      RunInv(cfg, front);
      SettledStep(Run(Init(cfg), front), events[|events| - 1], id);
    } else {
      assert events[..n] == events;
    }
  }

  /******* Dead letters *******/

  ghost function StagedFor(s: State, job: JobId): set<RowId> {
    set id | id in s.born && id in s.origin && s.origin[id] == Retry(job)
  }

  // Which rows a retry adds to those staged for a job.
  lemma StagedForAt(s: State, job: JobId, id: RowId, j: JobId, k: RowId)
    requires RowsOk(s) && job in s.dead && id !in s.seenIds
    ensures k in StagedFor(AfterRetry(s, job, id), j) <==> k in StagedFor(s, j) || (j == job && k == id)
  {
    var t := AfterRetry(s, job, id);
    if k == id {
      assert id !in s.born && t.origin[id] == Retry(job);
    } else {
      assert k in t.born <==> k in s.born;
    }
  }

  lemma RetryStages(s: State, job: JobId, id: RowId, j: JobId)
    requires RowsOk(s) && job in s.dead && id !in s.seenIds
    ensures var t := AfterRetry(s, job, id);
      && t.staged == s.staged + multiset{job}
      && StagedFor(t, j) == StagedFor(s, j) + (if j == job then {id} else {})
      && id !in StagedFor(s, j)
  {
    forall k: RowId {
      StagedForAt(s, job, id, j, k);
    }
  }

  ghost predicate Stages(s: State, e: Event, job: JobId, t: State) {
    && t.staged[job] == s.staged[job] + One(Retries(s, e, job))
    && StagedFor(t, job) == StagedFor(s, job) + (if Retries(s, e, job) then {e.id} else {})
    && (Retries(s, e, job) ==> e.id !in StagedFor(s, job))
  }

  lemma RetryingStages(s: State, e: Event, job: JobId)
    requires RowsOk(s) && e.RetryJob?
    ensures Stages(s, e, job, Step(s, e))
  {
    if Retries(s, e, e.job) {
      RetryStages(s, e.job, e.id, job);
      assert Step(s, e) == AfterRetry(s, e.job, e.id);
    } else {
      assert Step(s, e) == s;
    }
  }

  lemma BusinessStagesNothing(s: State, tx: TxId, job: JobId)
    requires RowsOk(s) && TxsOk(s) && tx in s.txs
    ensures var t := AfterBusiness(s, tx); t.staged == s.staged && StagedFor(t, job) == StagedFor(s, job)
  {
  }

  lemma CommittingStagesNothing(s: State, e: Event, job: JobId)
    requires RowsOk(s) && TxsOk(s) && (e.CommitTx? || e.CommitBatch? || e.Cleanup?)
    ensures Stages(s, e, job, Step(s, e))
  {
    if e.CommitTx? {
      if e.tx in s.txs {
        BusinessStagesNothing(s, e.tx, job);
        assert Step(s, e) == AfterBusiness(s, e.tx);
      } else {
        assert Step(s, e) == s;
      }
    }
  }

  lemma StagingStep(s: State, e: Event, job: JobId)
    requires RowsOk(s) && TxsOk(s)
    ensures Stages(s, e, job, Step(s, e))
  {
    if e.RetryJob? {
      RetryingStages(s, e, job);
    } else if e.CommitTx? || e.CommitBatch? || e.Cleanup? {
      CommittingStagesNothing(s, e, job);
    } else if KeepsRows(e) {
      PlainStep(s, e);
    } else {
      RelayingStep(s, e);
    }
  }

  lemma {:induction false} StagedIsRetried(cfg: Config, events: seq<Event>, job: JobId)
    ensures var s := Run(Init(cfg), events);
      s.staged[job] == TimesRetried(cfg, events, job) && |StagedFor(s, job)| == TimesRetried(cfg, events, job)
  {
    if events != [] {
      var front := events[..|events| - 1];
      StagedIsRetried(cfg, front, job);
      RunInv(cfg, front);
      StagingStep(Run(Init(cfg), front), events[|events| - 1], job);
    } else {
      assert StagedFor(Init(cfg), job) == {};
    }
  }

  // The rows ever staged for a job number one if a retry committed, else none;
  // a job still there is marked exactly when its retry committed.
  lemma RetryStagesExactlyOnce(cfg: Config, events: seq<Event>, job: JobId)
    ensures var s := Run(Init(cfg), events);
      && |StagedFor(s, job)| == TimesRetried(cfg, events, job) <= 1
      && (job in s.dead ==> (s.dead[job].retriedAt.Some? <==> TimesRetried(cfg, events, job) == 1))
  {
    RunInv(cfg, events);
    StagedIsRetried(cfg, events, job);
    assert StagedOk(Run(Init(cfg), events), job);
    assert job in Run(Init(cfg), events).dead ==> LetterOk(Run(Init(cfg), events), job);
  }

  // A retried job's call is waiting, or was taken by the queue, or is parked.
  lemma RetriedJobIsNeverLost(cfg: Config, events: seq<Event>, job: JobId)
    requires TimesRetried(cfg, events, job) >= 1
    ensures var s := Run(Init(cfg), events);
      && job in s.letters
      && exists id: RowId ::
        var call: Outbox.Job := Job(id, s.letters[job].function_, Wrapped(s.letters[job].kwargs));
        && StagedFor(s, job) == {id} && JobOf(id, s.born[id]) == call
        && (At(s, id, Waiting) || At(s, id, Parked) || call in s.queue)
  {
    var s := Run(Init(cfg), events);
    RunInv(cfg, events);
    RetryStagesExactlyOnce(cfg, events, job);
    StagedIsRetried(cfg, events, job);
    var id := RetriedRow(s, job);
    PlacedOnce(cfg, events, id);
    CountsAreEvents(cfg, events, id);
  }

  lemma RetriedRow(s: State, job: JobId) returns (id: RowId)
    requires LettersOk(s) && s.staged[job] == 1 && |StagedFor(s, job)| == 1
    ensures RetryRow(s, job, id) && StagedFor(s, job) == {id}
  {
    assert StagedOk(s, job);
    id :| id in s.born && RetryRow(s, job, id);
    SingletonIs(StagedFor(s, job), id);
  }

  lemma SingletonIs(ids: set<RowId>, id: RowId)
    requires |ids| == 1 && id in ids
    ensures ids == {id}
  {
    assert |ids - {id}| == 0;
  }

  lemma LettersStep(s: State, e: Event, job: JobId)
    ensures job in s.letters ==> job in Step(s, e).letters && Step(s, e).letters[job] == s.letters[job]
    ensures job in Step(s, e).letters && job !in s.letters ==>
      e == Record(job, Step(s, e).letters[job].function_, Step(s, e).letters[job].kwargs)
  {
  }

  // The function and arguments kept for a job are those recorded first.
  lemma {:induction false} LettersAreRecorded(cfg: Config, events: seq<Event>, job: JobId)
    requires job in Run(Init(cfg), events).letters
    ensures var letter := Run(Init(cfg), events).letters[job];
      exists k | 0 <= k < |events| ::
        events[k] == Record(job, letter.function_, letter.kwargs) && job !in Run(Init(cfg), events[..k]).letters
  {
    if events != [] {
      var front := events[..|events| - 1];
      LettersStep(Run(Init(cfg), front), events[|events| - 1], job);
      if job in Run(Init(cfg), front).letters {
        LettersAreRecorded(cfg, front, job);
        var letter := Run(Init(cfg), front).letters[job];
        var k :| 0 <= k < |front| && front[k] == Record(job, letter.function_, letter.kwargs)
            && job !in Run(Init(cfg), front[..k]).letters;
        assert events[..k] == front[..k] && events[k] == front[k];
      }
    }
  }
}
