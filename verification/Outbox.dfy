/**
  The transactional outbox, its relays and the dead-letter retry that feeds it,
  as one transition system.  Business transactions stage rows; any number of
  relays lock batches, hand rows to the queue outside the database, and commit
  or crash; cleanup deletes old dispatched rows; a dead-letter retry claims a
  job and stages a row in one commit.
 */
module Outbox {
  import opened Options

  type Time = int
  type RowId = nat
  type TxId = nat
  type RelayId = nat
  type JobId = nat

  // A retry wraps the job's arguments: `{"kwargs": ...}`.
  datatype Payload = Plain(args: string) | Wrapped(kwargs: string)

  datatype Row = Row(
    task: string,
    payload: Payload,
    createdAt: Time,
    dispatchedAt: Option<Time>,
    failedAt: Option<Time>,
    attempts: nat)

  type Rows = map<RowId, Row>

  function NewRow(task: string, payload: Payload, now: Time): Row {
    Row(task, payload, now, None, None, 0)
  }

  predicate Pending(row: Row) {
    row.dispatchedAt.None? && row.failedAt.None?
  }

  // What `enqueue_task` did: the queue took the job; it refused; or it took the
  // job but the call still raised.
  datatype Reply = Accepted | Refused | TookButRaised

  // One turn of the relay's loop on one row.
  function Handled(row: Row, reply: Reply, now: Time, maxAttempts: nat): Row {
    if reply.Accepted? then row.(dispatchedAt := Some(now))
    else row.(attempts := row.attempts + 1,
              failedAt := if row.attempts + 1 >= maxAttempts then Some(now) else row.failedAt)
  }

  // A job handed to the queue; its key is `outbox:<row id>`.
  datatype Job = Job(key: RowId, task: string, payload: Payload)

  function JobOf(id: RowId, row: Row): Job {
    Job(id, row.task, row.payload)
  }

  predicate Delivers(reply: Reply) {
    !reply.Refused?
  }

  // A relay's open transaction: the locked rows, in order, and its view of them.
  datatype Batch = Batch(ids: seq<RowId>, done: nat, working: Rows)

  datatype DeadLetter = DeadLetter(function_: string, kwargs: string, failedAt: Time, retriedAt: Option<Time>)

  datatype Origin = Business(tx: TxId) | Retry(job: JobId)

  datatype Config = Config(maxAttempts: nat, retention: nat)

  datatype State = State(
    cfg: Config,
    now: Time,
    rows: Rows,                        // committed outbox rows
    txs: map<TxId, Rows>,              // open business transactions and what they staged
    batches: map<RelayId, Batch>,      // open relay transactions
    queue: multiset<Job>,              // every job the queue has taken
    dead: map<JobId, DeadLetter>,
    // history
    born: Rows,                        // each row as it was committed first
    origin: map<RowId, Origin>,
    committedTxs: set<TxId>,
    seenIds: set<RowId>,
    seenTxs: set<TxId>,
    cleaned: set<RowId>,               // rows deleted by cleanup
    abandoned: multiset<RowId>,        // accepted by the queue in a batch that then aborted
    doubtful: multiset<RowId>,         // taken by the queue though the call raised
    letters: map<JobId, DeadLetter>,   // every job ever recorded
    staged: multiset<JobId>)           // rows staged by retries, by job

  datatype Event =
    | Tick(dt: nat)
    | BeginTx(tx: TxId)
    | StageAdd(tx: TxId, id: RowId, task: string, payload: Payload)
    | CommitTx(tx: TxId)
    | RollbackTx(tx: TxId)
    | Lock(relay: RelayId, ids: seq<RowId>, limit: nat)
    | Enqueue(relay: RelayId, reply: Reply)
    | CommitBatch(relay: RelayId)
    | AbortBatch(relay: RelayId)       // an error, or the relay died
    | Cleanup
    | Record(job: JobId, function_: string, kwargs: string)
    | RetryJob(job: JobId, id: RowId, staging: bool)   // `staging`: the outbox insert works
    | DeleteJob(job: JobId)
    | PurgeJobs(before: Option<Time>, onlyRetried: bool)

  function Init(cfg: Config): State {
    State(cfg, 0, map[], map[], map[], multiset{}, map[],
          map[], map[], {}, {}, {}, {}, multiset{}, multiset{}, map[], multiset{})
  }

  function Locked(batches: map<RelayId, Batch>): set<RowId> {
    set r, id | r in batches && id in batches[r].ids :: id
  }

  // `SELECT ... WHERE pending ORDER BY created_at LIMIT n FOR UPDATE SKIP LOCKED`.
  predicate Selects(rows: Rows, locked: set<RowId>, ids: seq<RowId>, limit: nat) {
    && |ids| <= limit
    && (forall i, j | 0 <= i < j < |ids| :: ids[i] != ids[j])
    && (forall id <- ids :: id in rows && Pending(rows[id]) && id !in locked)
    && (forall i, j | 0 <= i < j < |ids| :: rows[ids[i]].createdAt <= rows[ids[j]].createdAt)
    && (forall id <- rows | Pending(rows[id]) && id !in locked && id !in ids ::
          |ids| == limit && forall k <- ids :: rows[k].createdAt <= rows[id].createdAt)
  }

  function Restrict(rows: Rows, ids: seq<RowId>): Rows {
    map id | id in ids && id in rows :: rows[id]
  }

  // The rows a batch has been told are in the queue.
  function EnqueuedIn(b: Batch): set<RowId> {
    set id | id in b.working && b.working[id].dispatchedAt.Some?
  }

  function HandleNext(s: State, relay: RelayId, b: Batch, reply: Reply): State
    requires b.done < |b.ids| && b.ids[b.done] in b.working
  {
    var id := b.ids[b.done];
    var row := b.working[id];
    s.(batches := s.batches[relay := b.(done := b.done + 1,
                                        working := b.working[id := Handled(row, reply, s.now, s.cfg.maxAttempts)])],
       queue := if Delivers(reply) then s.queue + multiset{JobOf(id, row)} else s.queue,
       doubtful := if reply.TookButRaised? then s.doubtful + multiset{id} else s.doubtful)
  }

  function AfterCommit(s: State, relay: RelayId): State
    requires relay in s.batches
  {
    s.(rows := s.rows + s.batches[relay].working, batches := s.batches - {relay})
  }

  function AfterAbort(s: State, relay: RelayId): State
    requires relay in s.batches
  {
    s.(batches := s.batches - {relay}, abandoned := s.abandoned + multiset(EnqueuedIn(s.batches[relay])))
  }

  function RelayStep(s: State, relay: RelayId, e: Event): State
    requires relay in s.batches
  {
    var b := s.batches[relay];
    match e
    case Enqueue(_, reply) =>
      if b.done < |b.ids| && b.ids[b.done] in b.working then HandleNext(s, relay, b, reply) else s
    case CommitBatch(_) =>
      if b.done == |b.ids| then AfterCommit(s, relay) else s
    case AbortBatch(_) => AfterAbort(s, relay)
    case _ => s
  }

  function Publish(s: State, rows: Rows, origin: Origin): State {
    s.(rows := s.rows + rows, born := s.born + rows, origin := s.origin + map id | id in rows :: origin)
  }

  function AfterBusiness(s: State, tx: TxId): State
    requires tx in s.txs
  {
    Publish(s, s.txs[tx], Business(tx)).(txs := s.txs - {tx}, committedTxs := s.committedTxs + {tx})
  }

  function AfterStage(s: State, tx: TxId, id: RowId, row: Row): State
    requires tx in s.txs
  {
    var mine: Rows := s.txs[tx][id := row];
    s.(txs := s.txs[tx := mine], seenIds := s.seenIds + {id})
  }

  function TxStep(s: State, tx: TxId, e: Event): State
    requires tx in s.txs
  {
    match e
    case StageAdd(_, id, task, payload) =>
      if id in s.seenIds then s else AfterStage(s, tx, id, NewRow(task, payload, s.now))
    case CommitTx(_) => AfterBusiness(s, tx)
    case RollbackTx(_) => s.(txs := s.txs - {tx})
    case _ => s
  }

  predicate PurgeMatches(letter: DeadLetter, before: Option<Time>, onlyRetried: bool) {
    && (before.Some? ==> letter.failedAt < before.value)
    && (onlyRetried ==> letter.retriedAt.Some?)
  }

  function AfterRetry(s: State, job: JobId, id: RowId): State
    requires job in s.dead
  {
    var letter := s.dead[job];
    Publish(s, map[id := NewRow(letter.function_, Wrapped(letter.kwargs), s.now)], Retry(job))
      .(dead := s.dead[job := letter.(retriedAt := Some(s.now))],
        seenIds := s.seenIds + {id},
        staged := s.staged + multiset{job})
  }

  function LetterStep(s: State, e: Event): State {
    match e
    case Record(job, function_, kwargs) =>
      if job in s.letters then s
      else
        var letter := DeadLetter(function_, kwargs, s.now, None);
        s.(dead := s.dead[job := letter], letters := s.letters[job := letter])
    case RetryJob(job, id, staging) =>
      if job !in s.dead || s.dead[job].retriedAt.Some? || id in s.seenIds || !staging then s
      else AfterRetry(s, job, id)
    case DeleteJob(job) => s.(dead := s.dead - {job})
    case PurgeJobs(before, onlyRetried) =>
      // the service refuses an unbounded purge
      if before.None? && !onlyRetried then s
      else s.(dead := map job | job in s.dead && !PurgeMatches(s.dead[job], before, onlyRetried) :: s.dead[job])
    case _ => s
  }

  function AfterLock(s: State, relay: RelayId, ids: seq<RowId>): State {
    s.(batches := s.batches[relay := Batch(ids, 0, Restrict(s.rows, ids))])
  }

  function AfterCleanup(s: State, gone: set<RowId>): State {
    s.(rows := s.rows - gone, cleaned := s.cleaned + gone)
  }

  function Expired(rows: Rows, cutoff: Time): set<RowId> {
    set id | id in rows && rows[id].dispatchedAt.Some? && rows[id].dispatchedAt.value < cutoff
  }

  // The dispatched rows past retention go.
  function AfterSweep(s: State): State {
    AfterCleanup(s, Expired(s.rows, s.now - s.cfg.retention))
  }

  function Step(s: State, e: Event): State {
    match e
    case Tick(dt) => s.(now := s.now + dt)
    case BeginTx(tx) => if tx in s.seenTxs then s else s.(txs := s.txs[tx := map[]], seenTxs := s.seenTxs + {tx})
    case StageAdd(tx, _, _, _) => if tx in s.txs then TxStep(s, tx, e) else s
    case CommitTx(tx) => if tx in s.txs then TxStep(s, tx, e) else s
    case RollbackTx(tx) => if tx in s.txs then TxStep(s, tx, e) else s
    case Lock(relay, ids, limit) =>
      if relay in s.batches || !Selects(s.rows, Locked(s.batches), ids, limit) then s
      else AfterLock(s, relay, ids)
    case Enqueue(relay, _) => if relay in s.batches then RelayStep(s, relay, e) else s
    case CommitBatch(relay) => if relay in s.batches then RelayStep(s, relay, e) else s
    case AbortBatch(relay) => if relay in s.batches then RelayStep(s, relay, e) else s
    case Cleanup => AfterSweep(s)
    case _ => LetterStep(s, e)
  }

  function Run(s: State, events: seq<Event>): State {
    if events == [] then s else Step(Run(s, events[..|events| - 1]), events[|events| - 1])
  }

  /******* Invariant *******/

  ghost predicate SameContent(a: Row, b: Row) {
    a.task == b.task && a.payload == b.payload && a.createdAt == b.createdAt
  }

  // A committed row is pending or dispatched below the limit, or parked at the limit.
  ghost predicate RowOk(cfg: Config, row: Row) {
    && (row.dispatchedAt.Some? ==> row.failedAt.None?)
    && (row.failedAt.Some? ==> row.attempts >= cfg.maxAttempts)
    && (row.failedAt.Some? && cfg.maxAttempts >= 1 ==> row.attempts == cfg.maxAttempts)
    && (row.failedAt.None? ==> row.attempts == 0 || row.attempts < cfg.maxAttempts)
  }

  // What a batch's view of a locked row can be.
  ghost predicate ViewOk(cfg: Config, committed: Row, view: Row, handled: bool) {
    && SameContent(committed, view)
    && RowOk(cfg, view)
    && (!handled ==> view == committed)
    && (handled ==> view.attempts == committed.attempts + One(view.dispatchedAt.None?))
  }

  ghost predicate BatchOk(s: State, b: Batch) {
    && b.done <= |b.ids|
    && (forall i, j | 0 <= i < j < |b.ids| :: b.ids[i] != b.ids[j])
    && (forall id :: id in b.working <==> id in b.ids)
    && (forall i | 0 <= i < |b.ids| ::
          && b.ids[i] in s.rows && Pending(s.rows[b.ids[i]])
          && ViewOk(s.cfg, s.rows[b.ids[i]], b.working[b.ids[i]], i < b.done))
  }

  ghost predicate BatchesOk(s: State) {
    && (forall r <- s.batches :: BatchOk(s, s.batches[r]))
    && (forall r <- s.batches, q <- s.batches | r != q :: forall id <- s.batches[r].ids :: id !in s.batches[q].ids)
  }

  ghost predicate RowsOk(s: State) {
    && (forall id <- s.rows :: id in s.born && SameContent(s.born[id], s.rows[id]) && RowOk(s.cfg, s.rows[id]))
    && (forall id <- s.born :: id in s.rows || id in s.cleaned)
    && (forall id <- s.cleaned :: id in s.born && id !in s.rows)
    && (forall id <- s.born :: id in s.seenIds && id in s.origin)
  }

  ghost predicate TxsOk(s: State) {
    && (forall tx <- s.txs :: tx in s.seenTxs)
    && (forall tx <- s.txs, id <- s.txs[tx] ::
          id in s.seenIds && id !in s.born && s.txs[tx][id].attempts == 0 && Pending(s.txs[tx][id]))
    && (forall tx <- s.txs, other <- s.txs | tx != other :: s.txs[tx].Keys !! s.txs[other].Keys)
    && (forall id <- s.born :: id in s.origin && (s.origin[id].Business? ==> s.origin[id].tx in s.committedTxs))
  }

  // A letter keeps its job's function and arguments, and says whether a row was staged.
  ghost predicate LetterOk(s: State, job: JobId)
    requires job in s.dead
  {
    && job in s.letters
    && s.dead[job].function_ == s.letters[job].function_ && s.dead[job].kwargs == s.letters[job].kwargs
    && s.staged[job] == if s.dead[job].retriedAt.Some? then 1 else 0
  }

  // The one row a retry of `job` staged.
  ghost predicate RetryRow(s: State, job: JobId, id: RowId) {
    && id in s.born && id in s.origin && s.origin[id] == Retry(job)
    && job in s.letters && IsRetryOf(s.born[id], s.letters[job])
  }

  // A job has had at most one row staged.
  ghost predicate StagedOk(s: State, job: JobId) {
    s.staged[job] == 0 || (s.staged[job] == 1 && exists id <- s.born :: RetryRow(s, job, id))
  }

  ghost predicate LettersOk(s: State) {
    && (forall job <- s.dead :: LetterOk(s, job))
    && (forall job: JobId :: StagedOk(s, job))
    && (forall id <- s.born | id in s.origin && s.origin[id].Retry? :: s.staged[s.origin[id].job] == 1)
  }

  ghost predicate IsRetryOf(row: Row, letter: DeadLetter) {
    row.task == letter.function_ && row.payload == Wrapped(letter.kwargs)
  }

  /******* Counting *******/

  ghost predicate DispatchedRow(s: State, id: RowId) {
    id in s.cleaned || (id in s.rows && s.rows[id].dispatchedAt.Some?)
  }

  ghost predicate InOpenBatch(s: State, id: RowId) {
    exists r <- s.batches :: id in EnqueuedIn(s.batches[r])
  }

  function One(b: bool): nat {
    if b then 1 else 0
  }

  // How often the queue took a row, and why.
  ghost predicate CountOk(s: State, id: RowId)
    requires id in s.born
  {
    s.queue[JobOf(id, s.born[id])]
      == s.abandoned[id] + s.doubtful[id] + One(DispatchedRow(s, id)) + One(InOpenBatch(s, id))
  }

  ghost predicate CountsOk(s: State) {
    && (forall id <- s.born :: CountOk(s, id))
    && (forall id: RowId {:trigger s.abandoned[id]} | id !in s.born :: s.abandoned[id] == 0)
    && (forall id: RowId {:trigger s.doubtful[id]} | id !in s.born :: s.doubtful[id] == 0)
    && (forall j <- s.queue :: j.key in s.born && j == JobOf(j.key, s.born[j.key]))
  }

  ghost predicate Inv(s: State) {
    RowsOk(s) && TxsOk(s) && BatchesOk(s) && LettersOk(s) && CountsOk(s)
  }

  /******* Relay steps *******/

  lemma LockedMeans(batches: map<RelayId, Batch>, r: RelayId, id: RowId)
    requires r in batches && id in batches[r].ids
    ensures id in Locked(batches)
  {
  }

  // Everything but the open batches, the queue and its two counters.
  ghost predicate SameElsewhere(s: State, t: State) {
    && t.cfg == s.cfg && t.txs == s.txs && t.dead == s.dead && t.born == s.born && t.origin == s.origin
    && t.committedTxs == s.committedTxs && t.seenIds == s.seenIds && t.seenTxs == s.seenTxs
    && t.cleaned == s.cleaned && t.letters == s.letters && t.staged == s.staged
  }

  lemma FrameTxs(s: State, t: State)
    requires TxsOk(s) && t.txs == s.txs && t.seenTxs == s.seenTxs && t.seenIds == s.seenIds
    requires t.born == s.born && t.origin == s.origin && t.committedTxs == s.committedTxs
    ensures TxsOk(t)
  {
  }

  // Staged counts survive when rows are only added.
  lemma StillStaged(s: State, t: State, job: JobId)
    requires StagedOk(s, job) && t.staged[job] == s.staged[job]
    requires forall id <- s.born :: id in t.born && t.born[id] == s.born[id]
    requires forall id <- s.born :: id in s.origin ==> id in t.origin && t.origin[id] == s.origin[id]
    requires forall j <- s.letters :: j in t.letters && t.letters[j] == s.letters[j]
    ensures StagedOk(t, job)
  {
    if s.staged[job] == 1 {
      var id :| id in s.born && RetryRow(s, job, id);
      assert RetryRow(t, job, id);
    }
  }

  // Letters that stay unchanged or go.
  lemma FrameLetters(s: State, t: State)
    requires LettersOk(s) && t.born == s.born && t.origin == s.origin && t.letters == s.letters && t.staged == s.staged
    requires t.dead.Keys <= s.dead.Keys && forall job <- t.dead :: t.dead[job] == s.dead[job]
    ensures LettersOk(t)
  {
    forall job | job in t.dead ensures LetterOk(t, job) {
      assert LetterOk(s, job);
    }
    forall job: JobId ensures StagedOk(t, job) {
      StillStaged(s, t, job);
    }
  }

  lemma FrameTxsLetters(s: State, t: State)
    requires TxsOk(s) && LettersOk(s) && SameElsewhere(s, t)
    ensures TxsOk(t) && LettersOk(t)
  {
    FrameTxs(s, t);
    FrameLetters(s, t);
  }

  // Only `relay`'s batch changes.
  ghost predicate OneBatch(s: State, t: State, relay: RelayId) {
    && t.batches.Keys - {relay} == s.batches.Keys - {relay}
    && forall r <- s.batches | r != relay :: r in t.batches && t.batches[r] == s.batches[r]
  }

  ghost predicate InOtherBatch(s: State, relay: RelayId, id: RowId) {
    exists r <- s.batches :: r != relay && id in EnqueuedIn(s.batches[r])
  }

  // Whether a row is enqueued in an open batch, when one batch changes.
  lemma OpenBatchesAfter(s: State, t: State, relay: RelayId, id: RowId)
    requires OneBatch(s, t, relay)
    ensures InOpenBatch(s, id) <==>
      (relay in s.batches && id in EnqueuedIn(s.batches[relay])) || InOtherBatch(s, relay, id)
    ensures InOpenBatch(t, id) <==>
      (relay in t.batches && id in EnqueuedIn(t.batches[relay])) || InOtherBatch(s, relay, id)
  {
    if InOpenBatch(t, id) {
      var r :| r in t.batches && id in EnqueuedIn(t.batches[r]);
      if r != relay { assert r in s.batches.Keys - {relay}; }
    }
    if InOtherBatch(s, relay, id) {
      var r :| r in s.batches && r != relay && id in EnqueuedIn(s.batches[r]);
      assert r in t.batches && t.batches[r] == s.batches[r];
    }
  }

  // A row locked by one relay is enqueued by no other.
  lemma LockedAlone(s: State, relay: RelayId, id: RowId)
    requires BatchesOk(s) && relay in s.batches && id in s.batches[relay].ids
    ensures !InOtherBatch(s, relay, id)
  {
    forall r | r in s.batches && r != relay ensures id !in EnqueuedIn(s.batches[r]) {
      assert BatchOk(s, s.batches[r]);
    }
  }

  lemma LockedIsBorn(s: State, id: RowId)
    requires RowsOk(s) && BatchesOk(s) && InOpenBatch(s, id)
    ensures id in s.born
  {
    var r :| r in s.batches && id in EnqueuedIn(s.batches[r]);
    assert BatchOk(s, s.batches[r]) && id in s.batches[r].ids;
  }

  lemma BatchesAfter(s: State, t: State, relay: RelayId)
    requires BatchesOk(s) && OneBatch(s, t, relay) && t.cfg == s.cfg
    requires forall id <- s.rows | relay !in s.batches || id !in s.batches[relay].ids ::
      id in t.rows && t.rows[id] == s.rows[id]
    requires relay in t.batches ==> BatchOk(t, t.batches[relay])
    requires relay in t.batches ==>
      forall r <- s.batches | r != relay :: forall id <- s.batches[r].ids :: id !in t.batches[relay].ids
    ensures BatchesOk(t)
  {
    forall r | r in t.batches ensures BatchOk(t, t.batches[r]) {
      if r != relay {
        assert r in s.batches.Keys - {relay} && BatchOk(s, s.batches[r]);
        assert forall id <- s.batches[r].ids :: relay !in s.batches || id !in s.batches[relay].ids;
      }
    }
    forall r, q | r in t.batches && q in t.batches && r != q
      ensures forall id <- t.batches[r].ids :: id !in t.batches[q].ids
    {
      if r != relay { assert r in s.batches.Keys - {relay}; }
      if q != relay { assert q in s.batches.Keys - {relay}; }
    }
  }

  // A step that only changes open batches and the queue's counts keeps the rows.
  lemma FrameRows(s: State, t: State)
    requires RowsOk(s) && SameElsewhere(s, t) && t.rows == s.rows
    ensures RowsOk(t)
  {
  }

  ghost predicate SameCounts(s: State, t: State) {
    t.born == s.born && t.queue == s.queue && t.abandoned == s.abandoned && t.doubtful == s.doubtful
  }

  lemma FrameCounts(s: State, t: State)
    requires CountsOk(s) && SameCounts(s, t)
    requires forall id <- s.born ::
      DispatchedRow(t, id) == DispatchedRow(s, id) && InOpenBatch(t, id) == InOpenBatch(s, id)
    ensures CountsOk(t)
  {
    forall id | id in t.born ensures CountOk(t, id) {
      assert CountOk(s, id);
    }
  }

  lemma LockBatch(s: State, relay: RelayId, ids: seq<RowId>, limit: nat)
    requires RowsOk(s) && Selects(s.rows, Locked(s.batches), ids, limit)
    ensures BatchOk(AfterLock(s, relay, ids), Batch(ids, 0, Restrict(s.rows, ids)))
  {
    forall i | 0 <= i < |ids| ensures ids[i] in s.rows && Pending(s.rows[ids[i]]) && RowOk(s.cfg, s.rows[ids[i]]) {
      assert ids[i] in ids;
    }
  }

  lemma LockBatches(s: State, relay: RelayId, ids: seq<RowId>, limit: nat)
    requires RowsOk(s) && BatchesOk(s) && relay !in s.batches && Selects(s.rows, Locked(s.batches), ids, limit)
    ensures BatchesOk(AfterLock(s, relay, ids))
  {
    LockBatch(s, relay, ids, limit);
    forall r, id | r in s.batches && id in s.batches[r].ids ensures id !in ids {
      LockedMeans(s.batches, r, id);
    }
    BatchesAfter(s, AfterLock(s, relay, ids), relay);
  }

  lemma LockCounts(s: State, relay: RelayId, ids: seq<RowId>, limit: nat)
    requires CountsOk(s) && relay !in s.batches && Selects(s.rows, Locked(s.batches), ids, limit)
    ensures CountsOk(AfterLock(s, relay, ids))
  {
    var t := AfterLock(s, relay, ids);
    assert EnqueuedIn(t.batches[relay]) == {};
    forall id | id in s.born ensures InOpenBatch(t, id) == InOpenBatch(s, id) {
      OpenBatchesAfter(s, t, relay, id);
    }
    FrameCounts(s, t);
  }

  lemma LockInv(s: State, relay: RelayId, ids: seq<RowId>, limit: nat)
    requires Inv(s) && relay !in s.batches && Selects(s.rows, Locked(s.batches), ids, limit)
    ensures Inv(AfterLock(s, relay, ids))
  {
    var t := AfterLock(s, relay, ids);
    FrameTxsLetters(s, t);
    FrameRows(s, t);
    LockBatches(s, relay, ids, limit);
    LockCounts(s, relay, ids, limit);
  }

  // The row a batch turns to next, still as it was committed.
  ghost predicate Next(s: State, relay: RelayId, id: RowId) {
    && relay in s.batches && BatchOk(s, s.batches[relay])
    && s.batches[relay].done < |s.batches[relay].ids| && id == s.batches[relay].ids[s.batches[relay].done]
    && id in s.batches[relay].ids && id in s.batches[relay].working && id in s.rows && Pending(s.rows[id])
    && s.batches[relay].working[id] == s.rows[id]
  }

  lemma NextRow(s: State, relay: RelayId)
    requires BatchesOk(s) && relay in s.batches && s.batches[relay].done < |s.batches[relay].ids|
    ensures Next(s, relay, s.batches[relay].ids[s.batches[relay].done])
  {
    var b := s.batches[relay];
    assert BatchOk(s, b) && b.ids[b.done] in b.ids;
    assert ViewOk(s.cfg, s.rows[b.ids[b.done]], b.working[b.ids[b.done]], false);
  }

  function AfterHandling(s: State, relay: RelayId, id: RowId, reply: Reply): State
    requires relay in s.batches && s.batches[relay].done < |s.batches[relay].ids|
    requires id == s.batches[relay].ids[s.batches[relay].done] && id in s.batches[relay].working
  {
    HandleNext(s, relay, s.batches[relay], reply)
  }

  lemma HandledView(cfg: Config, row: Row, reply: Reply, now: Time)
    requires Pending(row) && RowOk(cfg, row)
    ensures ViewOk(cfg, row, Handled(row, reply, now, cfg.maxAttempts), true)
  {
  }

  lemma EnqueueBatch(s: State, relay: RelayId, id: RowId, reply: Reply)
    requires Next(s, relay, id) && RowOk(s.cfg, s.rows[id])
    ensures var t := AfterHandling(s, relay, id, reply); BatchOk(t, t.batches[relay])
  {
    var b := s.batches[relay];
    var c := AfterHandling(s, relay, id, reply).batches[relay];
    HandledView(s.cfg, s.rows[id], reply, s.now);
    forall i | 0 <= i < |b.ids|
      ensures b.ids[i] in s.rows && Pending(s.rows[b.ids[i]])
      ensures ViewOk(s.cfg, s.rows[b.ids[i]], c.working[b.ids[i]], i < c.done)
    {
      if i == b.done {
        assert c.working[b.ids[i]] == Handled(s.rows[id], reply, s.now, s.cfg.maxAttempts);
      } else {
        assert b.ids[i] != id;
      }
    }
  }

  lemma EnqueueBatches(s: State, relay: RelayId, id: RowId, reply: Reply)
    requires BatchesOk(s) && Next(s, relay, id) && RowOk(s.cfg, s.rows[id])
    ensures BatchesOk(AfterHandling(s, relay, id, reply))
  {
    EnqueueBatch(s, relay, id, reply);
    var t := AfterHandling(s, relay, id, reply);
    assert t.rows == s.rows && t.batches[relay].ids == s.batches[relay].ids;
    BatchesAfter(s, t, relay);
  }

  // The batch's view changes for the row handled only.
  lemma EnqueuedAfter(s: State, relay: RelayId, id: RowId, reply: Reply, k: RowId)
    requires Next(s, relay, id)
    ensures var t := AfterHandling(s, relay, id, reply);
      k in EnqueuedIn(t.batches[relay]) <==> if k == id then reply.Accepted? else k in EnqueuedIn(s.batches[relay])
    ensures id !in EnqueuedIn(s.batches[relay])
  {
  }

  lemma EnqueueCount(s: State, relay: RelayId, id: RowId, reply: Reply, k: RowId)
    requires BatchesOk(s) && Next(s, relay, id) && k in s.born && id in s.born && SameContent(s.born[id], s.rows[id])
    requires CountOk(s, k)
    ensures CountOk(AfterHandling(s, relay, id, reply), k)
  {
    var t := AfterHandling(s, relay, id, reply);
    OpenBatchesAfter(s, t, relay, k);
    EnqueuedAfter(s, relay, id, reply, k);
    assert JobOf(id, s.rows[id]) == JobOf(id, s.born[id]);
    if k == id {
      LockedAlone(s, relay, id);
    }
  }

  lemma EnqueueCounts(s: State, relay: RelayId, id: RowId, reply: Reply)
    requires BatchesOk(s) && Next(s, relay, id) && id in s.born && SameContent(s.born[id], s.rows[id]) && CountsOk(s)
    ensures CountsOk(AfterHandling(s, relay, id, reply))
  {
    var t := AfterHandling(s, relay, id, reply);
    forall k | k in s.born ensures CountOk(t, k) {
      EnqueueCount(s, relay, id, reply, k);
    }
  }

  lemma EnqueueInv(s: State, relay: RelayId, reply: Reply)
    requires Inv(s) && relay in s.batches && s.batches[relay].done < |s.batches[relay].ids|
    ensures var b := s.batches[relay]; b.ids[b.done] in b.working && Inv(HandleNext(s, relay, b, reply))
  {
    var id := s.batches[relay].ids[s.batches[relay].done];
    NextRow(s, relay);
    var t := AfterHandling(s, relay, id, reply);
    FrameTxsLetters(s, t);
    FrameRows(s, t);
    EnqueueBatches(s, relay, id, reply);
    EnqueueCounts(s, relay, id, reply);
  }

  lemma CommittedView(s: State, relay: RelayId, id: RowId)
    requires relay in s.batches && BatchOk(s, s.batches[relay]) && s.batches[relay].done == |s.batches[relay].ids|
    requires id in s.batches[relay].working
    ensures id in s.rows && Pending(s.rows[id]) && ViewOk(s.cfg, s.rows[id], s.batches[relay].working[id], true)
  {
    var b := s.batches[relay];
    assert id in b.ids;
    var i :| 0 <= i < |b.ids| && b.ids[i] == id;
    assert ViewOk(s.cfg, s.rows[b.ids[i]], b.working[b.ids[i]], i < b.done);
  }

  lemma CommitRows(s: State, relay: RelayId)
    requires RowsOk(s) && relay in s.batches && BatchOk(s, s.batches[relay])
    requires s.batches[relay].done == |s.batches[relay].ids|
    ensures RowsOk(AfterCommit(s, relay))
  {
    var t := AfterCommit(s, relay);
    forall id | id in t.rows
      ensures id in s.rows && id in s.born && SameContent(s.born[id], t.rows[id]) && RowOk(s.cfg, t.rows[id])
    {
      if id in s.batches[relay].working { CommittedView(s, relay, id); }
    }
    assert t.rows.Keys == s.rows.Keys;
  }

  lemma CommitCount(s: State, relay: RelayId, id: RowId)
    requires BatchesOk(s) && relay in s.batches && s.batches[relay].done == |s.batches[relay].ids|
    requires RowsOk(s) && id in s.born && CountOk(s, id)
    ensures CountOk(AfterCommit(s, relay), id)
  {
    assert BatchOk(s, s.batches[relay]);
    OpenBatchesAfter(s, AfterCommit(s, relay), relay, id);
    if id in s.batches[relay].working {
      LockedAlone(s, relay, id);
      CommittedView(s, relay, id);
    }
  }

  lemma CommitCounts(s: State, relay: RelayId)
    requires BatchesOk(s) && relay in s.batches && s.batches[relay].done == |s.batches[relay].ids|
    requires RowsOk(s) && CountsOk(s)
    ensures CountsOk(AfterCommit(s, relay))
  {
    forall id | id in s.born ensures CountOk(AfterCommit(s, relay), id) {
      CommitCount(s, relay, id);
    }
  }

  lemma CommitInv(s: State, relay: RelayId)
    requires Inv(s) && relay in s.batches && s.batches[relay].done == |s.batches[relay].ids|
    ensures Inv(AfterCommit(s, relay))
  {
    var t := AfterCommit(s, relay);
    assert BatchOk(s, s.batches[relay]);
    FrameTxsLetters(s, t);
    CommitRows(s, relay);
    BatchesAfter(s, t, relay);
    CommitCounts(s, relay);
  }

  lemma AbortCount(s: State, relay: RelayId, id: RowId)
    requires BatchesOk(s) && relay in s.batches && id in s.born && CountOk(s, id)
    ensures CountOk(AfterAbort(s, relay), id)
  {
    assert BatchOk(s, s.batches[relay]);
    OpenBatchesAfter(s, AfterAbort(s, relay), relay, id);
    if id in EnqueuedIn(s.batches[relay]) {
      LockedAlone(s, relay, id);
    }
  }

  lemma AbortCounts(s: State, relay: RelayId)
    requires BatchesOk(s) && relay in s.batches && RowsOk(s) && CountsOk(s)
    ensures CountsOk(AfterAbort(s, relay))
  {
    forall id | id in s.born ensures CountOk(AfterAbort(s, relay), id) {
      AbortCount(s, relay, id);
    }
    forall id | id in EnqueuedIn(s.batches[relay]) ensures id in s.born {
      assert InOpenBatch(s, id);
      LockedIsBorn(s, id);
    }
  }

  lemma AbortInv(s: State, relay: RelayId)
    requires Inv(s) && relay in s.batches
    ensures Inv(AfterAbort(s, relay))
  {
    var t := AfterAbort(s, relay);
    FrameTxsLetters(s, t);
    FrameRows(s, t);
    BatchesAfter(s, t, relay);
    AbortCounts(s, relay);
  }

  /******* Business transactions, cleanup and dead letters *******/

  // Rows about to be committed for the first time.
  ghost predicate Fresh(s: State, rows: Rows) {
    forall id <- rows :: id !in s.born && id in s.seenIds && rows[id].attempts == 0 && Pending(rows[id])
  }

  lemma PublishRows(s: State, rows: Rows, origin: Origin)
    requires RowsOk(s) && Fresh(s, rows)
    ensures RowsOk(Publish(s, rows, origin))
  {
  }

  lemma PublishBatches(s: State, rows: Rows, origin: Origin)
    requires RowsOk(s) && BatchesOk(s) && Fresh(s, rows)
    ensures BatchesOk(Publish(s, rows, origin))
  {
    var t := Publish(s, rows, origin);
    forall r | r in s.batches ensures BatchOk(t, s.batches[r]) {
      assert BatchOk(s, s.batches[r]);
    }
  }

  lemma PublishCounts(s: State, rows: Rows, origin: Origin)
    requires RowsOk(s) && BatchesOk(s) && CountsOk(s) && Fresh(s, rows)
    ensures CountsOk(Publish(s, rows, origin))
  {
    var t := Publish(s, rows, origin);
    forall id | id in t.born ensures CountOk(t, id) {
      assert InOpenBatch(t, id) == InOpenBatch(s, id);
      if id in rows {
        if InOpenBatch(s, id) { LockedIsBorn(s, id); }
        assert JobOf(id, t.born[id]).key == id;
      } else {
        assert CountOk(s, id);
      }
    }
  }

  lemma BusinessLetters(s: State, tx: TxId)
    requires LettersOk(s) && tx in s.txs && Fresh(s, s.txs[tx])
    ensures LettersOk(AfterBusiness(s, tx))
  {
    var t := AfterBusiness(s, tx);
    forall job: JobId ensures StagedOk(t, job) {
      StillStaged(s, t, job);
    }
    forall job | job in t.dead ensures LetterOk(t, job) {
      assert LetterOk(s, job);
    }
  }

  lemma BusinessTxs(s: State, tx: TxId)
    requires TxsOk(s) && tx in s.txs
    ensures TxsOk(AfterBusiness(s, tx)) && Fresh(s, s.txs[tx])
  {
  }

  lemma BusinessInv(s: State, tx: TxId)
    requires Inv(s) && tx in s.txs
    ensures Inv(AfterBusiness(s, tx))
  {
    var t := AfterBusiness(s, tx);
    BusinessTxs(s, tx);
    BusinessLetters(s, tx);
    var p := Publish(s, s.txs[tx], Business(tx));
    PublishRows(s, s.txs[tx], Business(tx));
    PublishBatches(s, s.txs[tx], Business(tx));
    PublishCounts(s, s.txs[tx], Business(tx));
    FrameHistory(p, t);
  }

  // Changes to the open transactions, the letters and the seen ids alone.
  ghost predicate SameRelaying(s: State, t: State) {
    && t.cfg == s.cfg && t.rows == s.rows && t.batches == s.batches && t.queue == s.queue && t.born == s.born
    && t.origin == s.origin && t.cleaned == s.cleaned && t.abandoned == s.abandoned && t.doubtful == s.doubtful
    && s.seenIds <= t.seenIds
  }

  lemma FrameHistory(s: State, t: State)
    requires RowsOk(s) && BatchesOk(s) && CountsOk(s) && SameRelaying(s, t)
    ensures RowsOk(t) && BatchesOk(t) && CountsOk(t)
  {
    forall r | r in t.batches ensures BatchOk(t, t.batches[r]) {
      assert BatchOk(s, s.batches[r]);
    }
    FrameCounts(s, t);
  }

  lemma StageInv(s: State, tx: TxId, id: RowId, row: Row)
    requires Inv(s) && tx in s.txs && id !in s.seenIds && row.attempts == 0 && Pending(row)
    ensures Inv(AfterStage(s, tx, id, row))
  {
    var t := AfterStage(s, tx, id, row);
    FrameHistory(s, t);
    FrameLetters(s, t);
    StageTxs(s, tx, id, row);
  }

  lemma StageTxs(s: State, tx: TxId, id: RowId, row: Row)
    requires RowsOk(s) && TxsOk(s) && tx in s.txs && id !in s.seenIds && row.attempts == 0 && Pending(row)
    ensures TxsOk(AfterStage(s, tx, id, row))
  {
    var t := AfterStage(s, tx, id, row);
    forall other | other in s.txs && other != tx ensures s.txs[other].Keys !! t.txs[tx].Keys {
      assert s.txs[other].Keys !! s.txs[tx].Keys;
    }
  }

  lemma OpenInv(s: State, tx: TxId, t: State)
    requires Inv(s)
    requires (tx !in s.seenTxs && t == s.(txs := s.txs[tx := map[]], seenTxs := s.seenTxs + {tx}))
          || (tx in s.txs && t == s.(txs := s.txs - {tx}))
    ensures Inv(t)
  {
    FrameHistory(s, t);
    FrameLetters(s, t);
    OpenTxs(s, tx, t);
  }

  lemma OpenTxs(s: State, tx: TxId, t: State)
    requires TxsOk(s)
    requires (tx !in s.seenTxs && t == s.(txs := s.txs[tx := map[]], seenTxs := s.seenTxs + {tx}))
          || (tx in s.txs && t == s.(txs := s.txs - {tx}))
    ensures TxsOk(t)
  {
  }

  lemma CleanupInv(s: State, gone: set<RowId>)
    requires Inv(s) && forall id <- gone :: id in s.rows && s.rows[id].dispatchedAt.Some?
    ensures Inv(AfterCleanup(s, gone))
  {
    var t := AfterCleanup(s, gone);
    FrameTxs(s, t);
    FrameLetters(s, t);
    CleanupRelaying(s, gone);
  }

  lemma CleanupRelaying(s: State, gone: set<RowId>)
    requires RowsOk(s) && BatchesOk(s) && CountsOk(s)
    requires forall id <- gone :: id in s.rows && s.rows[id].dispatchedAt.Some?
    ensures RowsOk(AfterCleanup(s, gone)) && BatchesOk(AfterCleanup(s, gone)) && CountsOk(AfterCleanup(s, gone))
  {
    var t := AfterCleanup(s, gone);
    CleanupBatches(s, gone);
    FrameCounts(s, t);
  }

  lemma CleanupBatches(s: State, gone: set<RowId>)
    requires BatchesOk(s) && forall id <- gone :: id in s.rows && s.rows[id].dispatchedAt.Some?
    ensures BatchesOk(AfterCleanup(s, gone))
  {
    var t := AfterCleanup(s, gone);
    forall r | r in t.batches ensures BatchOk(t, t.batches[r]) {
      assert BatchOk(s, s.batches[r]);
    }
  }

  lemma RetryStagedOk(s: State, job: JobId, id: RowId, j: JobId)
    requires StagedOk(s, j) && job in s.dead && LetterOk(s, job) && s.dead[job].retriedAt.None? && id !in s.born
    ensures StagedOk(AfterRetry(s, job, id), j)
  {
    var t := AfterRetry(s, job, id);
    if j == job {
      assert RetryRow(t, job, id);
    } else {
      StillStaged(s, t, j);
    }
  }

  lemma RetryLetterOk(s: State, job: JobId, id: RowId, j: JobId)
    requires job in s.dead && j in s.dead && LetterOk(s, job) && LetterOk(s, j) && s.dead[job].retriedAt.None?
    ensures LetterOk(AfterRetry(s, job, id), j)
  {
  }

  lemma RetryLetters(s: State, job: JobId, id: RowId)
    requires LettersOk(s) && id !in s.born && job in s.dead && s.dead[job].retriedAt.None?
    ensures LettersOk(AfterRetry(s, job, id))
  {
    var t := AfterRetry(s, job, id);
    assert LetterOk(s, job);
    forall j: JobId ensures StagedOk(t, j) {
      assert StagedOk(s, j);
      RetryStagedOk(s, job, id, j);
    }
    forall j | j in t.dead ensures LetterOk(t, j) {
      assert LetterOk(s, j);
      RetryLetterOk(s, job, id, j);
    }
    forall k | k in t.born && k in t.origin && t.origin[k].Retry? ensures t.staged[t.origin[k].job] == 1 {
      if k == id {
        assert StagedOk(t, job);
      } else {
        assert t.origin[k] == s.origin[k] && s.staged[s.origin[k].job] == 1;
      }
    }
  }

  lemma RetryInv(s: State, job: JobId, id: RowId)
    requires Inv(s) && job in s.dead && s.dead[job].retriedAt.None? && id !in s.seenIds
    ensures Inv(AfterRetry(s, job, id))
  {
    var t := AfterRetry(s, job, id);
    var rows := map[id := NewRow(s.dead[job].function_, Wrapped(s.dead[job].kwargs), s.now)];
    var p := s.(seenIds := s.seenIds + {id});
    FrameHistory(s, p);
    assert Fresh(p, rows);
    PublishRows(p, rows, Retry(job));
    PublishBatches(p, rows, Retry(job));
    PublishCounts(p, rows, Retry(job));
    FrameHistory(Publish(p, rows, Retry(job)), t);
    RetryLetters(s, job, id);
    RetryTxs(s, job, id);
  }

  lemma RetryTxs(s: State, job: JobId, id: RowId)
    requires TxsOk(s) && job in s.dead && id !in s.seenIds
    ensures TxsOk(AfterRetry(s, job, id))
  {
  }

  lemma LetterAdded(s: State, job: JobId, letter: DeadLetter)
    requires LettersOk(s) && job !in s.letters && letter.retriedAt.None?
    ensures LettersOk(s.(dead := s.dead[job := letter], letters := s.letters[job := letter]))
  {
    var t := s.(dead := s.dead[job := letter], letters := s.letters[job := letter]);
    forall j: JobId ensures StagedOk(t, j) {
      StillStaged(s, t, j);
    }
    assert StagedOk(s, job);
    forall j | j in t.dead ensures LetterOk(t, j) {
      if j != job { assert LetterOk(s, j); }
    }
  }

  lemma RecordInv(s: State, job: JobId, letter: DeadLetter)
    requires Inv(s) && job !in s.letters && letter.retriedAt.None?
    ensures Inv(s.(dead := s.dead[job := letter], letters := s.letters[job := letter]))
  {
    var t := s.(dead := s.dead[job := letter], letters := s.letters[job := letter]);
    FrameHistory(s, t);
    LetterAdded(s, job, letter);
  }

  lemma DropInv(s: State, dead: map<JobId, DeadLetter>)
    requires Inv(s) && dead.Keys <= s.dead.Keys && forall job <- dead :: dead[job] == s.dead[job]
    ensures Inv(s.(dead := dead))
  {
    FrameHistory(s, s.(dead := dead));
    FrameLetters(s, s.(dead := dead));
  }

  lemma RecordStepInv(s: State, e: Event)
    requires Inv(s) && e.Record?
    ensures Inv(LetterStep(s, e))
  {
    if e.job !in s.letters { RecordInv(s, e.job, DeadLetter(e.function_, e.kwargs, s.now, None)); }
  }

  lemma RetryStepInv(s: State, e: Event)
    requires Inv(s) && e.RetryJob?
    ensures Inv(LetterStep(s, e))
  {
    if !(e.job !in s.dead || s.dead[e.job].retriedAt.Some? || e.id in s.seenIds || !e.staging) {
      RetryInv(s, e.job, e.id);
    }
  }

  lemma DropStepInv(s: State, e: Event)
    requires Inv(s) && (e.DeleteJob? || e.PurgeJobs?)
    ensures Inv(LetterStep(s, e))
  {
    DropInv(s, LetterStep(s, e).dead);
  }

  lemma LetterInv(s: State, e: Event)
    requires Inv(s) && (e.Record? || e.RetryJob? || e.DeleteJob? || e.PurgeJobs?)
    ensures Inv(LetterStep(s, e))
  {
    match e
    case Record(_, _, _) => RecordStepInv(s, e);
    case RetryJob(_, _, _) => RetryStepInv(s, e);
    case DeleteJob(_) => DropStepInv(s, e);
    case PurgeJobs(_, _) => DropStepInv(s, e);
  }

  lemma TimeInv(s: State, dt: nat)
    requires Inv(s)
    ensures Inv(s.(now := s.now + dt))
  {
    var t := s.(now := s.now + dt);
    FrameHistory(s, t);
    FrameLetters(s, t);
  }

  lemma TxInv(s: State, tx: TxId, e: Event)
    requires Inv(s) && tx in s.txs && (e.StageAdd? || e.CommitTx? || e.RollbackTx?)
    ensures Inv(TxStep(s, tx, e))
  {
    match e
    case StageAdd(_, id, task, payload) => if id !in s.seenIds { StageInv(s, tx, id, NewRow(task, payload, s.now)); }
    case CommitTx(_) => BusinessInv(s, tx);
    case RollbackTx(_) => OpenInv(s, tx, TxStep(s, tx, e));
  }

  lemma EnqueueStepInv(s: State, relay: RelayId, reply: Reply)
    requires Inv(s) && relay in s.batches && s.batches[relay].done < |s.batches[relay].ids|
    ensures Inv(RelayStep(s, relay, Enqueue(relay, reply)))
  {
    EnqueueInv(s, relay, reply);
  }

  lemma RelayInv(s: State, relay: RelayId, e: Event)
    requires Inv(s) && relay in s.batches && (e.CommitBatch? || e.AbortBatch?)
    ensures Inv(RelayStep(s, relay, e))
  {
    if e.AbortBatch? {
      AbortInv(s, relay);
    } else if s.batches[relay].done == |s.batches[relay].ids| {
      CommitInv(s, relay);
    }
  }

  lemma LockStepInv(s: State, e: Event)
    requires Inv(s) && e.Lock?
    ensures Inv(Step(s, e))
  {
    if e.relay !in s.batches && Selects(s.rows, Locked(s.batches), e.ids, e.limit) {
      LockInv(s, e.relay, e.ids, e.limit);
      assert Step(s, e) == AfterLock(s, e.relay, e.ids);
    } else {
      assert Step(s, e) == s;
    }
  }

  lemma RelaysInv(s: State, e: Event)
    requires Inv(s) && (e.Enqueue? || e.CommitBatch? || e.AbortBatch?)
    ensures Inv(Step(s, e))
  {
    if e.relay !in s.batches {
      assert Step(s, e) == s;
    } else if e.Enqueue? {
      if s.batches[e.relay].done < |s.batches[e.relay].ids| { EnqueueStepInv(s, e.relay, e.reply); }
    } else {
      RelayInv(s, e.relay, e);
    }
  }

  lemma BusinessesInv(s: State, e: Event)
    requires Inv(s) && (e.BeginTx? || e.StageAdd? || e.CommitTx? || e.RollbackTx?)
    ensures Inv(Step(s, e))
  {
    match e
    case BeginTx(tx) => if tx !in s.seenTxs { OpenInv(s, tx, Step(s, e)); }
    case StageAdd(tx, _, _, _) => if tx in s.txs { TxInv(s, tx, e); }
    case CommitTx(tx) => if tx in s.txs { TxInv(s, tx, e); }
    case RollbackTx(tx) => if tx in s.txs { TxInv(s, tx, e); }
  }

  lemma LettersInv(s: State, e: Event)
    requires Inv(s) && (e.Record? || e.RetryJob? || e.DeleteJob? || e.PurgeJobs?)
    ensures Inv(Step(s, e))
  {
    LetterInv(s, e);
  }

  lemma SweepInv(s: State)
    requires Inv(s)
    ensures Inv(AfterSweep(s))
  {
    CleanupInv(s, Expired(s.rows, s.now - s.cfg.retention));
  }

  lemma TickInv(s: State, dt: nat)
    requires Inv(s)
    ensures Inv(Step(s, Tick(dt)))
  {
    TimeInv(s, dt);
    assert Step(s, Tick(dt)) == s.(now := s.now + dt);
  }

  lemma CleanupStepInv(s: State)
    requires Inv(s)
    ensures Inv(Step(s, Cleanup))
  {
    SweepInv(s);
  }

  lemma StepInv(s: State, e: Event)
    requires Inv(s)
    ensures Inv(Step(s, e))
  {
    if e.Tick? {
      TickInv(s, e.dt);
    } else if e.Cleanup? {
      CleanupStepInv(s);
    } else if e.Lock? {
      LockStepInv(s, e);
    } else if e.Enqueue? || e.CommitBatch? || e.AbortBatch? {
      RelaysInv(s, e);
    } else if e.BeginTx? || e.StageAdd? || e.CommitTx? || e.RollbackTx? {
      BusinessesInv(s, e);
    } else {
      LettersInv(s, e);
    }
  }

  lemma {:induction false} RunInv(cfg: Config, events: seq<Event>)
    ensures Inv(Run(Init(cfg), events))
  {
    if events != [] {
      RunInv(cfg, events[..|events| - 1]);
      StepInv(Run(Init(cfg), events[..|events| - 1]), events[|events| - 1]);
    }
  }
}
