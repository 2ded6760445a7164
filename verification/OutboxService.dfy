/**
  The methods around the outbox: the relay's dispatch with everyone else at
  work between its turns, the cleanup, the dead-letter repository and service,
  and the registration that commits a user and an event together.  Each is shown
  to be a run of the transition system.  The rows the database picks, the queue's
  answers and the failures are parameters.
 */
module OutboxService {
  import opened Options
  import opened Outbox
  import opened OutboxTheorems
  import opened Interleaving

  class Store {
    var state: State

    constructor (cfg: Config)
      ensures state == Init(cfg)
    {
      state := Init(cfg);
    }

    method Do(e: Event)
      modifies this
      ensures state == Step(old(state), e)
    {
      state := Step(state, e);
    }

    // A caller has taken the steps `own`, each after its pause.
    ghost predicate Progress(s0: State, pauses: Pauses<Event>, own: seq<Event>)
      reads this
    {
      state == Run(s0, Interleave(pauses, own))
    }

    // The others move before the i-th step of a caller.
    method Pause(who: Caller, pauses: Pauses<Event>, ghost own: seq<Event>, ghost s0: State, i: nat)
      requires Progress(s0, pauses, own) && i == |own| && NotMine(pauses, who)
      modifies this
      ensures SameStanding(old(state), state, who)
      ensures state == Run(Run(s0, Interleave(pauses, own)), pauses(i))
    {
      OthersLeave(state, pauses(i), who);
      Others(pauses(i));
    }

    // Everyone else moves.
    method Others(events: seq<Event>)
      modifies this
      ensures state == Run(old(state), events)
    {
      ghost var s := state;
      for i := 0 to |events|
        invariant state == Run(s, events[..i])
      {
        state := Step(state, events[i]);
        assert events[..i + 1][..i] == events[..i];
      }
      assert events[..|events|] == events;
    }
  }

  // A row as the session holds it.
  class OutboxEvent {
    const id: RowId
    const task: string
    const payload: Payload
    const createdAt: Time
    var dispatchedAt: Option<Time>
    var failedAt: Option<Time>
    var attempts: nat

    constructor (id: RowId, row: Row)
      ensures this.id == id && Fields() == row
    {
      this.id, task, payload, createdAt := id, row.task, row.payload, row.createdAt;
      dispatchedAt, failedAt, attempts := row.dispatchedAt, row.failedAt, row.attempts;
    }

    function Fields(): Row
      reads this
    {
      Row(task, payload, createdAt, dispatchedAt, failedAt, attempts)
    }

    // The end of one turn of the loop.
    method Settle(accepted: bool, now: Time, maxAttempts: nat)
      modifies this
      ensures accepted ==> Fields() == Handled(old(Fields()), Accepted, now, maxAttempts)
      ensures !accepted ==> Fields() == Handled(old(Fields()), Refused, now, maxAttempts)
    {
      if accepted {
        dispatchedAt := Some(now);
      } else {
        attempts := attempts + 1;
        if attempts >= maxAttempts {
          failedAt := Some(now);
        }
      }
    }
  }

  /******* A caller among others *******/

  // A relay with its batch, or a business transaction that stages row `id`.
  datatype Caller = Dispatcher(relay: RelayId) | Writer(tx: TxId, id: RowId)

  // The events of a caller, or that would take its row id.
  predicate Mine(e: Event, who: Caller) {
    match who
    case Dispatcher(relay) => (e.Lock? || e.Enqueue? || e.CommitBatch? || e.AbortBatch?) && e.relay == relay
    case Writer(tx, id) =>
      || ((e.BeginTx? || e.StageAdd? || e.CommitTx? || e.RollbackTx?) && e.tx == tx)
      || ((e.StageAdd? || e.RetryJob?) && e.id == id)
  }

  ghost predicate NotMine(pauses: Pauses<Event>, who: Caller) {
    forall i: nat, e | e in pauses(i) :: !Mine(e, who)
  }

  lemma InterleaveNext(s: State, pauses: Pauses<Event>, own: seq<Event>, e: Event)
    ensures Run(s, Interleave(pauses, own + [e])) == Step(Run(Run(s, Interleave(pauses, own)), pauses(|own|)), e)
  {
    InterleaveSnoc(pauses, own, e);
    RunConcat(s, Interleave(pauses, own), pauses(|own|) + [e]);
    RunSnoc(Run(s, Interleave(pauses, own)), pauses(|own|), e);
  }

  ghost predicate SameStanding(s: State, t: State, who: Caller) {
    match who
    case Dispatcher(relay) =>
      && t.cfg == s.cfg && (relay in t.batches <==> relay in s.batches)
      && (relay in s.batches ==> t.batches[relay] == s.batches[relay])
    case Writer(tx, id) =>
      && (tx in t.seenTxs <==> tx in s.seenTxs) && (id in t.seenIds <==> id in s.seenIds)
      && (tx in t.txs <==> tx in s.txs) && (tx in s.txs ==> t.txs[tx] == s.txs[tx])
  }

  lemma {:induction false} OthersLeave(s: State, others: seq<Event>, who: Caller)
    requires forall e <- others :: !Mine(e, who)
    ensures SameStanding(s, Run(s, others), who)
  {
    if others != [] {
      OthersLeave(s, others[..|others| - 1], who);
      OtherLeaves(Run(s, others[..|others| - 1]), others[|others| - 1], who);
    }
  }

  lemma OtherLeaves(s: State, e: Event, who: Caller)
    requires !Mine(e, who)
    ensures SameStanding(s, Step(s, e), who)
  {
    match who
    case Dispatcher(relay) => OtherLeavesBatch(s, e, relay);
    case Writer(tx, id) => OtherLeavesTx(s, e, tx, id);
  }

  lemma OtherLeavesBatch(s: State, e: Event, relay: RelayId)
    requires !Mine(e, Dispatcher(relay))
    ensures SameStanding(s, Step(s, e), Dispatcher(relay))
  {
    ConfigStays(s, e);
    match e
    case Enqueue(r, reply) => OtherEnqueues(s, r, reply, relay);
    case Lock(_, _, _) => OtherBatch(s, e, relay);
    case CommitBatch(_) => OtherBatch(s, e, relay);
    case AbortBatch(_) => OtherBatch(s, e, relay);
    case _ =>
  }

  ghost predicate SameBatch(s: State, t: State, relay: RelayId) {
    (relay in t.batches <==> relay in s.batches) && (relay in s.batches ==> t.batches[relay] == s.batches[relay])
  }

  lemma OtherBatch(s: State, e: Event, relay: RelayId)
    requires (e.Lock? || e.CommitBatch? || e.AbortBatch?) && e.relay != relay
    ensures SameBatch(s, Step(s, e), relay)
  {
  }

  lemma OtherEnqueues(s: State, r: RelayId, reply: Reply, relay: RelayId)
    requires r != relay
    ensures SameBatch(s, Step(s, Enqueue(r, reply)), relay)
  {
    if r in s.batches {
      var b := s.batches[r];
      if b.done < |b.ids| && b.ids[b.done] in b.working {
        assert Step(s, Enqueue(r, reply)) == HandleNext(s, r, b, reply);
      } else {
        assert Step(s, Enqueue(r, reply)) == s;
      }
    }
  }

  lemma BatchLeavesTx(s: State, e: Event, tx: TxId, id: RowId)
    requires e.Lock? || e.CommitBatch? || e.AbortBatch?
    ensures SameStanding(s, Step(s, e), Writer(tx, id))
  {
    BatchLeavesTxs(s, e);
  }

  lemma BatchLeavesTxs(s: State, e: Event)
    requires e.Lock? || e.CommitBatch? || e.AbortBatch?
    ensures Step(s, e).txs == s.txs && Step(s, e).seenTxs == s.seenTxs && Step(s, e).seenIds == s.seenIds
  {
  }

  lemma BusinessLeavesTx(s: State, other: TxId, tx: TxId, id: RowId)
    requires other in s.txs && other != tx
    ensures SameStanding(s, AfterBusiness(s, other), Writer(tx, id))
  {
  }

  lemma StagingLeavesTx(s: State, e: Event, tx: TxId, id: RowId)
    requires e.StageAdd? && e.tx != tx && e.id != id
    ensures SameStanding(s, Step(s, e), Writer(tx, id))
  {
    if e.tx in s.txs && e.id !in s.seenIds {
      assert Step(s, e) == AfterStage(s, e.tx, e.id, NewRow(e.task, e.payload, s.now));
    } else {
      assert Step(s, e) == s;
    }
  }

  lemma LetterLeavesTx(s: State, e: Event, tx: TxId, id: RowId)
    requires e.Record? || (e.RetryJob? && e.id != id) || e.DeleteJob? || e.PurgeJobs?
    ensures SameStanding(s, LetterStep(s, e), Writer(tx, id))
  {
    if e.RetryJob? {
      RetryLeavesTx(s, e.job, e.id, e.staging, tx, id);
    } else {
      LetterKeepsTxs(s, e);
    }
  }

  lemma RetryLeavesTx(s: State, job: JobId, other: RowId, staging: bool, tx: TxId, id: RowId)
    requires other != id
    ensures SameStanding(s, LetterStep(s, RetryJob(job, other, staging)), Writer(tx, id))
  {
  }

  lemma LetterKeepsTxs(s: State, e: Event)
    requires e.Record? || e.DeleteJob? || e.PurgeJobs?
    ensures var t := LetterStep(s, e); t.txs == s.txs && t.seenTxs == s.seenTxs && t.seenIds == s.seenIds
  {
  }

  lemma BeginLeavesTx(s: State, other: TxId, tx: TxId, id: RowId)
    requires other != tx
    ensures SameStanding(s, Step(s, BeginTx(other)), Writer(tx, id))
  {
    if other in s.seenTxs {
      assert Step(s, BeginTx(other)) == s;
    } else {
      assert Step(s, BeginTx(other)) == s.(txs := s.txs[other := map[]], seenTxs := s.seenTxs + {other});
    }
  }

  lemma RollbackLeavesTx(s: State, other: TxId, tx: TxId, id: RowId)
    requires other != tx
    ensures SameStanding(s, Step(s, RollbackTx(other)), Writer(tx, id))
  {
  }

  lemma CommitLeavesTx(s: State, other: TxId, tx: TxId, id: RowId)
    requires other != tx
    ensures SameStanding(s, Step(s, CommitTx(other)), Writer(tx, id))
  {
    if other in s.txs {
      BusinessLeavesTx(s, other, tx, id);
      assert Step(s, CommitTx(other)) == AfterBusiness(s, other);
    }
  }

  lemma OtherLeavesTx(s: State, e: Event, tx: TxId, id: RowId)
    requires !Mine(e, Writer(tx, id))
    ensures SameStanding(s, Step(s, e), Writer(tx, id))
  {
    match e
    case Tick(_) =>
    case Cleanup =>
    case Lock(_, _, _) => BatchLeavesTx(s, e, tx, id);
    case CommitBatch(_) => BatchLeavesTx(s, e, tx, id);
    case AbortBatch(_) => BatchLeavesTx(s, e, tx, id);
    case Enqueue(_, _) => EnqueueLeavesTxs(s, e);
    case BeginTx(other) => BeginLeavesTx(s, other, tx, id);
    case CommitTx(other) => CommitLeavesTx(s, other, tx, id);
    case RollbackTx(other) => RollbackLeavesTx(s, other, tx, id);
    case StageAdd(_, _, _, _) => StagingLeavesTx(s, e, tx, id);
    case _ => LetterLeavesTx(s, e, tx, id);
  }

  lemma EnqueueLeavesTxs(s: State, e: Event)
    requires e.Enqueue?
    ensures Step(s, e).txs == s.txs && Step(s, e).seenTxs == s.seenTxs && Step(s, e).seenIds == s.seenIds
  {
    if e.relay in s.batches {
      var b := s.batches[e.relay];
      if b.done < |b.ids| && b.ids[b.done] in b.working {
        EnqueueIsHandling(s, e.relay, e.reply);
      } else {
        assert Step(s, e) == s;
      }
    }
  }

  /******* A relay's batch *******/

  // What a relay does to the rows it has locked, up to some row.
  function Handovers(relay: RelayId, replies: seq<Reply>): (events: seq<Event>)
    ensures |events| == |replies|
  {
    if replies == [] then []
    else Handovers(relay, replies[..|replies| - 1]) + [Enqueue(relay, replies[|replies| - 1])]
  }

  function Dispatched(relay: RelayId, ids: seq<RowId>, limit: nat, replies: seq<Reply>): seq<Event> {
    [Lock(relay, ids, limit)] + Handovers(relay, replies)
  }

  lemma DispatchedNext(relay: RelayId, ids: seq<RowId>, limit: nat, replies: seq<Reply>, k: nat)
    requires k < |replies|
    ensures Dispatched(relay, ids, limit, replies[..k + 1])
      == Dispatched(relay, ids, limit, replies[..k]) + [Enqueue(relay, replies[k])]
  {
    assert replies[..k + 1][..k] == replies[..k];
  }

  // The end of a relay's transaction.
  function End(relay: RelayId, commits: bool): Event {
    if commits then CommitBatch(relay) else AbortBatch(relay)
  }

  lemma {:induction false} RunConcat(s: State, a: seq<Event>, b: seq<Event>)
    ensures Run(s, a + b) == Run(Run(s, a), b)
  {
    if b == [] {
      assert a + b == a;
    } else {
      var n := |b| - 1;
      RunConcat(s, a, b[..n]);
      assert (a + b)[..|a + b| - 1] == a + b[..n];
    }
  }

  lemma RunSnoc(s: State, a: seq<Event>, e: Event)
    ensures Run(s, a + [e]) == Step(Run(s, a), e)
  {
    assert (a + [e])[..|a|] == a;
  }

  lemma RunOne(s: State, e: Event)
    ensures Run(s, [e]) == Step(s, e)
  {
    RunSnoc(s, [], e);
    assert [] + [e] == [e];
  }

  function CountAccepted(replies: seq<Reply>): (count: nat)
    ensures count <= |replies|
  {
    if replies == [] then 0
    else CountAccepted(replies[..|replies| - 1]) + One(replies[|replies| - 1].Accepted?)
  }

  datatype RelayError = BatchLost

  // Some rows' fields are a batch's view of them, `done` of them handled.
  ghost predicate Matches(ids: seq<RowId>, done: nat, views: seq<Row>, b: Batch) {
    && b.ids == ids && b.done == done && |views| == |ids|
    && (forall id :: id in b.working <==> id in ids)
    && (forall i, j | 0 <= i < j < |ids| :: ids[i] != ids[j])
    && (forall i | 0 <= i < |ids| :: views[i] == b.working[ids[i]])
  }

  lemma MatchesNext(ids: seq<RowId>, k: nat, views: seq<Row>, b: Batch, view: Row)
    requires Matches(ids, k, views, b) && k < |ids|
    ensures Matches(ids, k + 1, views[k := view], b.(done := k + 1, working := b.working[ids[k] := view]))
  {
  }

  class Relay {
    const store: Store
    const me: RelayId
    var rows: seq<OutboxEvent>

    constructor (store: Store, me: RelayId)
      ensures this.store == store && this.me == me && rows == []
    {
      this.store, this.me, rows := store, me, [];
    }

    // The objects' fields, in order.
    ghost function Views(): (views: seq<Row>)
      reads this, rows
      ensures |views| == |rows| && forall i | 0 <= i < |rows| :: views[i] == rows[i].Fields()
    {
      seq(|rows|, i reads this, rows requires 0 <= i < |rows| => rows[i].Fields())
    }

    // The session's objects are the rows of its batch, one object a row.
    ghost predicate Holds(ids: seq<RowId>, done: nat)
      reads this, store, rows
    {
      && me in store.state.batches && |rows| == |ids|
      && (forall i, j | 0 <= i < j < |rows| :: rows[i] != rows[j])
      && (forall i | 0 <= i < |rows| :: rows[i].id == ids[i])
      && Matches(ids, done, Views(), store.state.batches[me])
    }

    // `SELECT ... FOR UPDATE SKIP LOCKED`: the database picked `ids`.
    method Select(ids: seq<RowId>, limit: nat)
      requires me !in store.state.batches && Selects(store.state.rows, Locked(store.state.batches), ids, limit)
      modifies this, store
      ensures fresh(rows) && store.state == AfterLock(old(store.state), me, ids)
      ensures Holds(ids, 0)
    {
      var s := store.state;
      var found: seq<OutboxEvent> := [];
      for i := 0 to |ids|
        invariant store.state == s && rows == old(rows)
        invariant |found| == i && fresh(found) && forall id <- ids :: id in s.rows
        invariant forall k | 0 <= k < i :: found[k].id == ids[k] && found[k].Fields() == s.rows[ids[k]]
        invariant forall j, k | 0 <= j < k < i :: found[j] != found[k]
      {
        assert ids[i] in ids;
        var event := new OutboxEvent(ids[i], s.rows[ids[i]]);
        found := found + [event];
      }
      rows := found;
      store.state := s.(batches := s.batches[me := Batch(ids, 0, Restrict(s.rows, ids))]);
    }

    method Pause(ids: seq<RowId>, done: nat, pauses: Pauses<Event>, ghost own: seq<Event>, ghost s0: State, i: nat)
      requires Holds(ids, done) && store.Progress(s0, pauses, own) && i == |own| && NotMine(pauses, Dispatcher(me))
      modifies store
      ensures Holds(ids, done) && store.state == Run(Run(s0, Interleave(pauses, own)), pauses(i))
    {
      store.Pause(Dispatcher(me), pauses, own, s0, i);
    }

    // One turn of the loop: enqueue outside the database, then note what came of it.
    method Turn(ids: seq<RowId>, k: nat, reply: Reply) returns (accepted: bool)
      requires Holds(ids, k) && k < |ids|
      modifies store, rows
      ensures Holds(ids, k + 1) && accepted == reply.Accepted?
      ensures store.state == Step(old(store.state), Enqueue(me, reply))
    {
      EnqueueIsHandling(store.state, me, reply);
      accepted := Deliver(ids, k, reply);
      assert rows == old(rows);
    }

    method Deliver(ids: seq<RowId>, k: nat, reply: Reply) returns (accepted: bool)
      requires Holds(ids, k) && k < |ids|
      modifies store, rows
      ensures me in store.state.batches && Matches(ids, k + 1, Views(), store.state.batches[me])
      ensures accepted == reply.Accepted?
      ensures store.state == HandleNext(old(store.state), me, old(store.state).batches[me], reply)
    {
      ghost var b := store.state.batches[me];
      ghost var views := Views();
      var job, view;
      job, view, accepted := SettleRow(ids, k, reply);
      MatchesNext(ids, k, views, b, view);
      Note(k, reply, job, view);
    }

    // The k-th object settles; the others and the store stay.
    method SettleRow(ids: seq<RowId>, k: nat, reply: Reply) returns (job: Job, view: Row, accepted: bool)
      requires Holds(ids, k) && k < |ids|
      modifies rows
      ensures accepted == reply.Accepted?
      ensures var b := store.state.batches[me];
        && view == Handled(b.working[ids[k]], reply, store.state.now, store.state.cfg.maxAttempts)
        && job == JobOf(ids[k], b.working[ids[k]])
      ensures Views() == old(Views())[k := view]
    {
      var s := store.state;
      var row := rows[k];
      job := Job(row.id, row.task, row.payload);
      accepted := reply.Accepted?;
      HandledAlike(row.Fields(), reply, s.now, s.cfg.maxAttempts);
      row.Settle(accepted, s.now, s.cfg.maxAttempts);
      view := row.Fields();
    }

    // What one turn leaves in the queue and in the open transaction.
    method Note(k: nat, reply: Reply, job: Job, row: Row)
      requires me in store.state.batches && k < |store.state.batches[me].ids|
      modifies store
      ensures var s, b := old(store.state), old(store.state).batches[me];
        store.state == s.(
          batches := s.batches[me := b.(done := k + 1, working := b.working[b.ids[k] := row])],
          queue := if Delivers(reply) then s.queue + multiset{job} else s.queue,
          doubtful := if reply.TookButRaised? then s.doubtful + multiset{b.ids[k]} else s.doubtful)
    {
      var s := store.state;
      var b := s.batches[me];
      var queue, doubtful := s.queue, s.doubtful;
      if Delivers(reply) {
        queue := queue + multiset{job};
      }
      if reply.TookButRaised? {
        doubtful := doubtful + multiset{b.ids[k]};
      }
      store.state := s.(
        batches := s.batches[me := b.(done := k + 1, working := b.working[b.ids[k] := row])],
        queue := queue,
        doubtful := doubtful);
    }

    // Every object's changes reach its row.
    method Flush(ids: seq<RowId>, committed: Rows, ghost working: Rows) returns (table: Rows)
      requires |rows| == |ids| && forall i | 0 <= i < |ids| ::
        ids[i] in working && rows[i].id == ids[i] && rows[i].Fields() == working[ids[i]]
      requires forall id :: id in working <==> id in ids
      ensures table == committed + working
    {
      table := committed;
      for i := 0 to |rows|
        invariant Flushed(committed, working, ids[..i], table)
      {
        FlushedNext(committed, working, ids, i, table);
        table := table[rows[i].id := rows[i].Fields()];
      }
      assert ids[..|ids|] == ids;
      FlushedAll(committed, working, ids, table);
    }

    method Commit(ids: seq<RowId>)
      requires Holds(ids, |ids|)
      modifies this, store
      ensures rows == [] && store.state == Step(old(store.state), CommitBatch(me))
    {
      var s := store.state;
      var table := Flush(ids, s.rows, s.batches[me].working);
      rows := [];
      store.state := s.(rows := table, batches := s.batches - {me});
    }

    // The session is closed, or the relay dies, before it commits.
    method Abandon(ids: seq<RowId>, done: nat)
      requires Holds(ids, done)
      modifies this, store
      ensures rows == [] && store.state == Step(old(store.state), AbortBatch(me))
    {
      var s := store.state;
      rows := [];
      store.state := s.(batches := s.batches - {me}, abandoned := s.abandoned + multiset(EnqueuedIn(s.batches[me])));
    }

    // The k-th turn after its pause.
    method PausedTurn(ids: seq<RowId>, limit: nat, k: nat, replies: seq<Reply>, pauses: Pauses<Event>,
                      ghost s0: State)
      returns (accepted: bool)
      requires k < |replies| <= |ids| && NotMine(pauses, Dispatcher(me)) && Holds(ids, k)
      requires store.Progress(s0, pauses, Dispatched(me, ids, limit, replies[..k]))
      modifies store, rows
      ensures Holds(ids, k + 1) && store.Progress(s0, pauses, Dispatched(me, ids, limit, replies[..k + 1]))
      ensures accepted == replies[k].Accepted?
    {
      ghost var own := Dispatched(me, ids, limit, replies[..k]);
      Pause(ids, k, pauses, own, s0, k + 1);
      DispatchedNext(me, ids, limit, replies, k);
      InterleaveNext(s0, pauses, own, Enqueue(me, replies[k]));
      accepted := Turn(ids, k, replies[k]);
    }

    method Finish(ids: seq<RowId>, done: nat, commits: bool)
      requires Holds(ids, done) && (commits ==> done == |ids|)
      modifies this, store
      ensures rows == [] && store.state == Step(old(store.state), End(me, commits))
    {
      if commits {
        Commit(ids);
      } else {
        Abandon(ids, done);
      }
    }

    method Loop(ids: seq<RowId>, limit: nat, replies: seq<Reply>, pauses: Pauses<Event>, ghost s0: State)
      returns (dispatched: nat, failed: nat)
      requires |replies| <= |ids| && NotMine(pauses, Dispatcher(me)) && Holds(ids, 0)
      requires store.Progress(s0, pauses, Dispatched(me, ids, limit, []))
      modifies store, rows
      ensures Holds(ids, |replies|) && store.Progress(s0, pauses, Dispatched(me, ids, limit, replies))
      ensures dispatched == CountAccepted(replies) && failed == |replies| - dispatched
    {
      dispatched, failed := 0, 0;
      for k := 0 to |replies|
        invariant Holds(ids, k) && store.Progress(s0, pauses, Dispatched(me, ids, limit, replies[..k]))
        invariant dispatched == CountAccepted(replies[..k]) && failed == k - dispatched
      {
        var accepted := PausedTurn(ids, limit, k, replies, pauses, s0);
        CountNext(replies, k);
        if accepted {
          dispatched := dispatched + 1;
        } else {
          failed := failed + 1;
        }
      }
      assert replies[..|replies|] == replies;
    }

    method PausedSelect(ids: seq<RowId>, limit: nat, pauses: Pauses<Event>)
      requires me !in store.state.batches && NotMine(pauses, Dispatcher(me))
      requires Picks(store.state, pauses, ids, limit)
      modifies this, store
      ensures fresh(rows) && Holds(ids, 0)
      ensures store.Progress(old(store.state), pauses, Dispatched(me, ids, limit, []))
    {
      ghost var s0 := store.state;
      store.Pause(Dispatcher(me), pauses, [], s0, 0);
      InterleaveNext(s0, pauses, [], Lock(me, ids, limit));
      assert [] + [Lock(me, ids, limit)] == Dispatched(me, ids, limit, []);
      assert Step(store.state, Lock(me, ids, limit)) == AfterLock(store.state, me, ids);
      Select(ids, limit);
    }

    method PausedFinish(ids: seq<RowId>, limit: nat, replies: seq<Reply>, commits: bool, pauses: Pauses<Event>,
                        ghost s0: State)
      requires |replies| <= |ids| && (commits ==> |replies| == |ids|) && Holds(ids, |replies|)
      requires store.Progress(s0, pauses, Dispatched(me, ids, limit, replies)) && NotMine(pauses, Dispatcher(me))
      modifies this, store
      ensures store.Progress(s0, pauses, Dispatched(me, ids, limit, replies) + [End(me, commits)])
    {
      ghost var own := Dispatched(me, ids, limit, replies);
      Pause(ids, |replies|, pauses, own, s0, |replies| + 1);
      InterleaveNext(s0, pauses, own, End(me, commits));
      Finish(ids, |replies|, commits);
    }

    // The loop and the end of the transaction.
    method Handle(ids: seq<RowId>, limit: nat, replies: seq<Reply>, commits: bool, pauses: Pauses<Event>,
                  ghost s0: State)
      returns (dispatched: nat, failed: nat)
      requires |replies| <= |ids| && (commits ==> |replies| == |ids|) && Holds(ids, 0)
      requires store.Progress(s0, pauses, Dispatched(me, ids, limit, [])) && NotMine(pauses, Dispatcher(me))
      modifies this, store, rows
      ensures store.Progress(s0, pauses, Dispatched(me, ids, limit, replies) + [End(me, commits)])
      ensures dispatched == CountAccepted(replies) && failed == |replies| - dispatched
    {
      dispatched, failed := Loop(ids, limit, replies, pauses, s0);
      PausedFinish(ids, limit, replies, commits, pauses, s0);
    }

    // `dispatch_pending`, with what the others do before the lock, before each turn and
    // before the commit.  A relay that dies does so after `|replies|` turns; its batch
    // is lost.
    method DispatchPending(limit: nat, ids: seq<RowId>, replies: seq<Reply>, commits: bool, pauses: Pauses<Event>)
      returns (r: Result<(nat, nat), RelayError>)
      requires me !in store.state.batches && Picks(store.state, pauses, ids, limit)
      requires |replies| <= |ids| && (commits ==> |replies| == |ids|) && NotMine(pauses, Dispatcher(me))
      modifies this, store
      ensures store.Progress(old(store.state), pauses, Dispatched(me, ids, limit, replies) + [End(me, commits)])
      ensures r == Counted(replies, commits)
    {
      ghost var s0 := store.state;
      PausedSelect(ids, limit, pauses);
      var dispatched, failed := Handle(ids, limit, replies, commits, pauses, s0);
      r := Report(replies, commits, dispatched, failed);
    }
  }

  lemma CountNext(replies: seq<Reply>, k: nat)
    requires k < |replies|
    ensures CountAccepted(replies[..k + 1]) == CountAccepted(replies[..k]) + One(replies[k].Accepted?)
  {
    assert replies[..k + 1][..k] == replies[..k];
  }

  // The counts, or the error of a batch that was lost.
  method Report(ghost replies: seq<Reply>, commits: bool, dispatched: nat, failed: nat)
    returns (r: Result<(nat, nat), RelayError>)
    requires dispatched == CountAccepted(replies) && failed == |replies| - dispatched
    ensures r == Counted(replies, commits)
  {
    r := if commits then Ok((dispatched, failed)) else Err(BatchLost);
  }

  // How many replies accepted a row and how many did not, if the batch committed.
  function Counted(replies: seq<Reply>, commits: bool): Result<(nat, nat), RelayError> {
    if commits then Ok((CountAccepted(replies), |replies| - CountAccepted(replies))) else Err(BatchLost)
  }

  // The database's choice of rows, once the others have moved.
  ghost predicate Picks(s0: State, pauses: Pauses<Event>, ids: seq<RowId>, limit: nat) {
    var s := Run(s0, pauses(0));
    Selects(s.rows, Locked(s.batches), ids, limit)
  }

  // `table` has the rows of `ids` as the session left them, the others as committed.
  ghost predicate Flushed(committed: Rows, working: Rows, ids: seq<RowId>, table: Rows) {
    && (forall id :: id in table <==> id in committed || id in ids)
    && (forall id <- table | id in ids :: id in working && table[id] == working[id])
    && (forall id <- table | id !in ids :: table[id] == committed[id])
  }

  lemma FlushedNext(committed: Rows, working: Rows, ids: seq<RowId>, i: nat, table: Rows)
    requires i < |ids| && ids[i] in working && Flushed(committed, working, ids[..i], table)
    ensures Flushed(committed, working, ids[..i + 1], table[ids[i] := working[ids[i]]])
  {
    assert ids[..i + 1] == ids[..i] + [ids[i]];
  }

  lemma FlushedAll(committed: Rows, working: Rows, ids: seq<RowId>, table: Rows)
    requires Flushed(committed, working, ids, table) && forall id :: id in working <==> id in ids
    ensures table == committed + working
  {
    forall id ensures id in table <==> id in committed + working {
    }
  }

  lemma EnqueueIsHandling(s: State, me: RelayId, reply: Reply)
    requires me in s.batches && s.batches[me].done < |s.batches[me].ids|
    requires s.batches[me].ids[s.batches[me].done] in s.batches[me].working
    ensures Step(s, Enqueue(me, reply)) == HandleNext(s, me, s.batches[me], reply)
  {
  }

  lemma HandledAlike(row: Row, reply: Reply, now: Time, maxAttempts: nat)
    ensures Handled(row, reply, now, maxAttempts)
      == if reply.Accepted? then Handled(row, Accepted, now, maxAttempts) else Handled(row, Refused, now, maxAttempts)
  {
  }

  // `cleanup_dispatched`.
  method CleanupDispatched(store: Store) returns (deleted: nat)
    modifies store
    ensures store.state == Step(old(store.state), Cleanup)
    ensures deleted == |Swept(old(store.state), store.state)|
    ensures forall id <- Swept(old(store.state), store.state) :: old(store.state).rows[id].dispatchedAt.Some?
  {
    var s := store.state;
    SweptIsExpired(s);
    var gone := Expired(s.rows, s.now - s.cfg.retention);
    store.state := s.(rows := s.rows - gone, cleaned := s.cleaned + gone);
    assert store.state == Step(s, Cleanup);
    deleted := |gone|;
  }

  lemma SweptIsExpired(s: State)
    ensures Swept(s, Step(s, Cleanup)) == Expired(s.rows, s.now - s.cfg.retention)
    ensures forall id <- Swept(s, Step(s, Cleanup)) :: s.rows[id].dispatchedAt.Some?
  {
    assert Step(s, Cleanup).rows == s.rows - Expired(s.rows, s.now - s.cfg.retention);
  }

  ghost function Swept(s: State, t: State): set<RowId> {
    set id | id in s.rows && id !in t.rows
  }

  /******* The relay's loop *******/

  datatype LogEntry = Quiet | Failing(inARow: nat, traceback: bool) | Recovered(after: nat)

  // The `n` iterations just before the i-th failed, and the one before those did not.
  ghost predicate FailedBefore(outcomes: seq<bool>, i: nat, n: nat)
    requires i <= |outcomes|
  {
    && n <= i
    && (forall k | i - n <= k < i :: !outcomes[k])
    && (n < i ==> outcomes[i - n - 1])
  }

  // The first failure of a streak is logged with its traceback, the later ones with
  // their number, and the first success after a streak with the streak's length.
  ghost predicate LogsIteration(outcomes: seq<bool>, i: nat, entry: LogEntry)
    requires i < |outcomes|
  {
    exists n: nat | FailedBefore(outcomes, i, n) ::
      entry == if !outcomes[i] then Failing(n + 1, n == 0) else if n > 0 then Recovered(n) else Quiet
  }

  // `relay_loop` over the iterations it has made; `true` is one that did not raise.
  method RelayLoop(outcomes: seq<bool>) returns (failuresInARow: nat, log: seq<LogEntry>)
    ensures FailedBefore(outcomes, |outcomes|, failuresInARow)
    ensures |log| == |outcomes| && forall i | 0 <= i < |outcomes| :: LogsIteration(outcomes, i, log[i])
  {
    failuresInARow, log := 0, [];
    for i := 0 to |outcomes|
      invariant FailedBefore(outcomes, i, failuresInARow)
      invariant |log| == i && forall k | 0 <= k < i :: LogsIteration(outcomes, k, log[k])
    {
      ghost var n := failuresInARow;
      var entry := Quiet;
      if !outcomes[i] {
        failuresInARow := failuresInARow + 1;
        entry := Failing(failuresInARow, failuresInARow == 1);
      } else if failuresInARow > 0 {
        entry := Recovered(failuresInARow);
        failuresInARow := 0;
      }
      assert FailedBefore(outcomes, i, n);
      log := log + [entry];
    }
  }

  /******* Dead letters *******/

  datatype RetryError = StagingFailed | NotFound | AlreadyRetried

  ghost predicate Unclaimed(s: State, job: JobId) {
    job in s.dead && s.dead[job].retriedAt.None?
  }

  class DeadLetterRepository {
    const store: Store

    constructor (store: Store)
      ensures this.store == store
    {
      this.store := store;
    }

    // The claim and the staged row are one transaction: if staging raises, neither stays.
    method Retry(job: JobId, id: RowId, staging: bool) returns (r: Result<Option<DeadLetter>, RetryError>)
      requires id !in store.state.seenIds
      modifies store
      ensures store.state == Step(old(store.state), RetryJob(job, id, staging))
      ensures r.Err? <==> Unclaimed(old(store.state), job) && !staging
      ensures r.Err? ==> store.state == old(store.state) && r.error == StagingFailed
      ensures r.Ok? && r.value.None? <==> !Unclaimed(old(store.state), job)
      ensures r.Ok? && r.value.Some? ==>
        && job in store.state.dead && r.value.value == store.state.dead[job]
        && id in store.state.rows && Pending(store.state.rows[id]) && IsRetryOf(store.state.rows[id], r.value.value)
    {
      var s := store.state;
      if job !in s.dead || s.dead[job].retriedAt.Some? {
        return Ok(None);
      }
      var claimed := s.dead[job].(retriedAt := Some(s.now));
      store.state := s.(dead := s.dead[job := claimed]);
      if !staging {
        store.state := s;
        return Err(StagingFailed);
      }
      var row := NewRow(claimed.function_, Wrapped(claimed.kwargs), s.now);
      store.state := Publish(store.state, map[id := row], Origin.Retry(job))
        .(seenIds := s.seenIds + {id}, staged := s.staged + multiset{job});
      return Ok(Some(claimed));
    }

    method Get(job: JobId) returns (letter: Option<DeadLetter>)
      ensures letter == if job in store.state.dead then Some(store.state.dead[job]) else None
    {
      letter := if job in store.state.dead then Some(store.state.dead[job]) else None;
    }

    method Delete(job: JobId) returns (found: bool)
      modifies store
      ensures store.state == Step(old(store.state), DeleteJob(job))
      ensures found <==> job in old(store.state).dead
    {
      var s := store.state;
      found := job in s.dead;
      if found {
        store.state := s.(dead := s.dead - {job});
      } else {
        assert s.dead - {job} == s.dead;
      }
    }

    // The delete with its two optional conditions.
    method Purge(before: Option<Time>, onlyRetried: bool) returns (count: nat)
      modifies store
      ensures store.state == old(store.state).(dead := store.state.dead)
      ensures forall job :: job in store.state.dead <==>
        job in old(store.state).dead && !PurgeMatches(old(store.state).dead[job], before, onlyRetried)
      ensures forall job <- store.state.dead :: store.state.dead[job] == old(store.state).dead[job]
      ensures onlyRetried ==> forall job | Unclaimed(old(store.state), job) :: Unclaimed(store.state, job)
      ensures count == |old(store.state).dead| - |store.state.dead|
    {
      var s := store.state;
      var kept := map job | job in s.dead && !PurgeMatches(s.dead[job], before, onlyRetried) :: s.dead[job];
      store.state := s.(dead := kept);
      assert kept.Keys <= s.dead.Keys;
      CardLe(kept.Keys, s.dead.Keys);
      count := |s.dead| - |kept|;
    }
  }

  lemma {:induction false} CardLe(a: set<JobId>, b: set<JobId>)
    requires a <= b
    ensures |a| <= |b|
  {
    assert b == a + (b - a);
  }

  datatype PurgeError = Unbounded

  class DeadLetterService {
    const repo: DeadLetterRepository

    constructor (repo: DeadLetterRepository)
      ensures this.repo == repo
    {
      this.repo := repo;
    }

    // The others may move before the claim, and between a failed claim and the read
    // that explains it.
    method RetryJob(job: JobId, id: RowId, staging: bool, pauses: Pauses<Event>)
      returns (r: Result<DeadLetter, RetryError>)
      requires id !in Run(repo.store.state, pauses(0)).seenIds
      modifies repo.store
      ensures r.Ok? <==> Unclaimed(Run(old(repo.store.state), pauses(0)), job) && staging
      ensures r.Ok? || r.error.StagingFailed? ==>
        repo.store.Progress(old(repo.store.state), pauses, [Event.RetryJob(job, id, staging)])
      ensures r.Err? && !r.error.StagingFailed? ==>
        && !Unclaimed(Run(old(repo.store.state), pauses(0)), job)
        && repo.store.state == Run(Run(old(repo.store.state), pauses(0)), pauses(1))
        && (r.error.NotFound? <==> job !in repo.store.state.dead)
    {
      ghost var s0, claim := repo.store.state, Event.RetryJob(job, id, staging);
      InterleaveNext(s0, pauses, [], claim);
      assert [] + [claim] == [claim];
      repo.store.Others(pauses(0));
      var retried := repo.Retry(job, id, staging);
      if retried.Err? {
        return Err(retried.error);
      }
      if retried.value.Some? {
        return Ok(retried.value.value);
      }
      repo.store.Others(pauses(1));
      var letter := repo.Get(job);
      r := Err(if letter.None? then NotFound else AlreadyRetried);
    }

    method Purge(before: Option<Time>, onlyRetried: bool) returns (r: Result<nat, PurgeError>)
      modifies repo.store
      ensures repo.store.state == Step(old(repo.store.state), PurgeJobs(before, onlyRetried))
      ensures r.Err? <==> before.None? && !onlyRetried
    {
      if before.None? && !onlyRetried {
        return Err(Unbounded);
      }
      var count := repo.Purge(before, onlyRetried);
      return Ok(count);
    }
  }

  // Once a job is claimed it is never offered again, so a conflict stays a conflict.
  lemma {:induction false} ClaimedForGood(cfg: Config, events: seq<Event>, n: nat, job: JobId)
    requires n <= |events| && job in Run(Init(cfg), events[..n]).letters && !Unclaimed(Run(Init(cfg), events[..n]), job)
    ensures !Unclaimed(Run(Init(cfg), events), job)
    ensures job in Run(Init(cfg), events).letters
    decreases |events|
  {
    if n < |events| {
      var front := events[..|events| - 1];
      assert front[..n] == events[..n];
      ClaimedForGood(cfg, front, n, job);
      RunInv(cfg, front);
      ClaimStays(Run(Init(cfg), front), events[|events| - 1], job);
    } else {
      assert events[..n] == events;
    }
  }

  lemma ClaimStays(s: State, e: Event, job: JobId)
    requires job in s.letters && !Unclaimed(s, job)
    ensures job in Step(s, e).letters && !Unclaimed(Step(s, e), job)
  {
    LettersStep(s, e, job);
  }

  /******* Registration *******/

  type UserId = nat

  datatype NewUser = NewUser(email: string, passwordHash: string, pendingJti: string)

  lemma RunTwo(s: State, a: Event, b: Event)
    ensures Run(s, [a, b]) == Step(Step(s, a), b)
  {
    RunOne(s, a);
    RunSnoc(s, [a], b);
    assert [a] + [b] == [a, b];
  }

  lemma RunThree(s: State, a: Event, b: Event, c: Event)
    ensures Run(s, [a, b, c]) == Step(Step(Step(s, a), b), c)
  {
    RunTwo(s, a, b);
    RunSnoc(s, [a, b], c);
    assert [a, b] + [c] == [a, b, c];
  }

  lemma AddOne<V>(m: map<RowId, V>, id: RowId, value: V)
    ensures m + map[id := value] == m[id := value]
  {
  }

  lemma OriginOf(rows: Rows, id: RowId, origin: Origin)
    requires rows.Keys == {id}
    ensures (map k | k in rows :: origin) == map[id := origin]
  {
  }

  lemma PublishOne(s: State, rows: Rows, id: RowId, origin: Origin)
    requires rows.Keys == {id}
    ensures var t := Publish(s, rows, origin);
      && t.rows == s.rows[id := rows[id]] && t.born == s.born[id := rows[id]] && t.origin == s.origin[id := origin]
  {
    OriginOf(rows, id, origin);
    AddOne(s.rows, id, rows[id]);
    AddOne(s.born, id, rows[id]);
    AddOne(s.origin, id, origin);
  }

  // One row committed by its own transaction.
  ghost predicate Committed(s: State, tx: TxId, id: RowId, row: Row, t: State) {
    && t.rows == s.rows[id := row] && t.born == s.born[id := row]
    && t.origin == s.origin[id := Business(tx)] && tx in t.committedTxs
  }

  lemma OneStaged(s: State, tx: TxId, id: RowId, row: Row)
    requires tx in s.txs && s.txs[tx] == map[]
    ensures Committed(s, tx, id, row, AfterBusiness(AfterStage(s, tx, id, row), tx))
  {
    var staged := AfterStage(s, tx, id, row);
    var mine: Rows := map[id := row];
    assert staged.txs[tx] == mine;
    PublishOne(staged, mine, id, Business(tx));
  }

  function Mailing(tx: TxId, id: RowId, payload: Payload): seq<Event> {
    [BeginTx(tx), StageAdd(tx, id, "send_email_task", payload), CommitTx(tx)]
  }

  // What a transaction that stages one mail leaves: its event, waiting.
  lemma RegisteredEventWaits(s: State, tx: TxId, id: RowId, payload: Payload)
    requires tx !in s.seenTxs && id !in s.seenIds
    ensures Committed(s, tx, id, NewRow("send_email_task", payload, s.now), Run(s, Mailing(tx, id, payload)))
  {
    RunThree(s, BeginTx(tx), StageAdd(tx, id, "send_email_task", payload), CommitTx(tx));
    BeginStageCommit(s, tx, id, "send_email_task", payload);
  }

  lemma BeginStageCommit(s: State, tx: TxId, id: RowId, task: string, payload: Payload)
    requires tx !in s.seenTxs && id !in s.seenIds
    ensures Committed(s, tx, id, NewRow(task, payload, s.now),
                      Step(Step(Step(s, BeginTx(tx)), StageAdd(tx, id, task, payload)), CommitTx(tx)))
  {
    var begun := Step(s, BeginTx(tx));
    assert begun == s.(txs := s.txs[tx := map[]], seenTxs := s.seenTxs + {tx});
    var row := NewRow(task, payload, s.now);
    var staged := AfterStage(begun, tx, id, row);
    assert Step(begun, StageAdd(tx, id, task, payload)) == staged;
    assert Step(staged, CommitTx(tx)) == AfterBusiness(staged, tx);
    OneStaged(begun, tx, id, row);
  }

  /******* Registration *******/

  lemma StagingLeaves(s: State, tx: TxId, id: RowId, payload: Payload)
    requires tx in s.txs && s.txs[tx] == map[] && id !in s.seenIds
    ensures var t := Step(s, StageAdd(tx, id, "send_email_task", payload));
      tx in t.txs && t.txs[tx] == map[id := NewRow("send_email_task", payload, s.now)]
  {
    var row := NewRow("send_email_task", payload, s.now);
    var mine: Rows := map[][id := row];
    assert Step(s, StageAdd(tx, id, "send_email_task", payload)) == AfterStage(s, tx, id, row);
    assert mine == map[id := row];
  }

  lemma CommitPublishes(s: State, tx: TxId, id: RowId, row: Row)
    requires tx in s.txs && s.txs[tx] == map[id := row]
    ensures Committed(s, tx, id, row, Step(s, CommitTx(tx)))
  {
    PublishOne(s, s.txs[tx], id, Business(tx));
    assert Step(s, CommitTx(tx)) == AfterBusiness(s, tx);
  }

  datatype RegisterError = EmailInUse | DuplicateId | OutboxFailed

  type Users = map<UserId, NewUser>

  predicate EmailsDiffer(users: Users) {
    forall a <- users, b <- users | a != b :: users[a].email != users[b].email
  }

  // The unique indexes refuse a row that clashes with one there.
  predicate Clashes(users: Users, uid: UserId, email: string) {
    uid in users || exists other <- users :: users[other].email == email
  }

  // The others' registrations that the indexes let in.
  function Joined(users: Users, others: seq<(UserId, NewUser)>): (r: Users)
    ensures forall uid <- users :: uid in r && r[uid] == users[uid]
    ensures EmailsDiffer(users) ==> EmailsDiffer(r)
  {
    if others == [] then users
    else
      var (uid, user) := others[|others| - 1];
      var before := Joined(users, others[..|others| - 1]);
      if Clashes(before, uid, user.email) then before else before[uid := user]
  }

  // Why a registration is refused: a taken id or address first, then the outbox.
  function Refusal(users: Users, uid: UserId, user: NewUser, staging: bool): Option<RegisterError> {
    if uid in users then Some(DuplicateId)
    else if Clashes(users, uid, user.email) then Some(EmailInUse)
    else if staging then None else Some(OutboxFailed)
  }

  lemma JoinOne(users: Users, uid: UserId, user: NewUser)
    requires EmailsDiffer(users) && !Clashes(users, uid, user.email)
    ensures EmailsDiffer(users[uid := user])
  {
  }

  // What the others register before a registration's insert, and between it and the commit.
  datatype Crowd = Crowd(first: seq<(UserId, NewUser)>, second: seq<(UserId, NewUser)>)

  class UserRepository {
    const store: Store
    var users: Users

    constructor (store: Store)
      ensures this.store == store && users == map[]
    {
      this.store, users := store, map[];
    }

    // One step of the transaction after its pause.
    method Take(pauses: Pauses<Event>, e: Event, tx: TxId, id: RowId, k: nat, ghost s0: State, ghost own: seq<Event>)
      returns (ghost paused: State)
      requires store.Progress(s0, pauses, own) && k == |own| && NotMine(pauses, Writer(tx, id))
      modifies store
      ensures store.Progress(s0, pauses, own + [e]) && SameStanding(old(store.state), paused, Writer(tx, id))
      ensures store.state == Step(paused, e)
    {
      store.Pause(Writer(tx, id), pauses, own, s0, k);
      InterleaveNext(s0, pauses, own, e);
      paused := store.state;
      store.Do(e);
    }

    method Begin(pauses: Pauses<Event>, tx: TxId, id: RowId)
      requires tx !in store.state.seenTxs && id !in store.state.seenIds && NotMine(pauses, Writer(tx, id))
      modifies store
      ensures store.Progress(old(store.state), pauses, [BeginTx(tx)])
      ensures tx in store.state.txs && store.state.txs[tx] == map[] && id !in store.state.seenIds
    {
      assert [] + [BeginTx(tx)] == [BeginTx(tx)];
      var paused := Take(pauses, BeginTx(tx), tx, id, 0, store.state, []);
    }

    // The insert found a clash or the outbox failed: the whole transaction goes.
    method Abandon(pauses: Pauses<Event>, tx: TxId, id: RowId, ghost s0: State)
      requires store.Progress(s0, pauses, [BeginTx(tx)]) && id !in store.state.seenIds
      requires NotMine(pauses, Writer(tx, id))
      modifies store
      ensures store.Progress(s0, pauses, [BeginTx(tx), RollbackTx(tx)]) && id !in store.state.seenIds
    {
      var paused := Take(pauses, RollbackTx(tx), tx, id, 1, s0, [BeginTx(tx)]);
      assert [BeginTx(tx)] + [RollbackTx(tx)] == [BeginTx(tx), RollbackTx(tx)];
    }

    // The event is staged and the transaction commits.
    method Finish(pauses: Pauses<Event>, tx: TxId, id: RowId, payload: Payload, ghost s0: State)
      requires store.Progress(s0, pauses, [BeginTx(tx)])
      requires tx in store.state.txs && store.state.txs[tx] == map[] && id !in store.state.seenIds
      requires NotMine(pauses, Writer(tx, id))
      modifies store
      ensures store.Progress(s0, pauses, Mailing(tx, id, payload)) && Mailed(store.state, tx, id, payload)
    {
      ghost var row := Stage(pauses, tx, id, payload, s0);
      ghost var own := [BeginTx(tx), StageAdd(tx, id, "send_email_task", payload)];
      var staged := Take(pauses, CommitTx(tx), tx, id, 2, s0, own);
      CommitPublishes(staged, tx, id, row);
      assert own + [CommitTx(tx)] == Mailing(tx, id, payload);
    }

    method Stage(pauses: Pauses<Event>, tx: TxId, id: RowId, payload: Payload, ghost s0: State)
      returns (ghost row: Row)
      requires store.Progress(s0, pauses, [BeginTx(tx)])
      requires tx in store.state.txs && store.state.txs[tx] == map[] && id !in store.state.seenIds
      requires NotMine(pauses, Writer(tx, id))
      modifies store
      ensures store.Progress(s0, pauses, [BeginTx(tx), StageAdd(tx, id, "send_email_task", payload)])
      ensures tx in store.state.txs && store.state.txs[tx] == map[id := row]
      ensures row.task == "send_email_task" && row.payload == payload && Pending(row)
    {
      ghost var own := [BeginTx(tx)];
      var begun := Take(pauses, StageAdd(tx, id, "send_email_task", payload), tx, id, 1, s0, own);
      StagingLeaves(begun, tx, id, payload);
      row := NewRow("send_email_task", payload, begun.now);
      assert own + [StageAdd(tx, id, "send_email_task", payload)] ==
        [BeginTx(tx), StageAdd(tx, id, "send_email_task", payload)];
    }

    // The end of the transaction: the event and the commit, or nothing.
    method Settle(ok: bool, pauses: Pauses<Event>, tx: TxId, id: RowId, payload: Payload, ghost s0: State)
      requires store.Progress(s0, pauses, [BeginTx(tx)]) && NotMine(pauses, Writer(tx, id))
      requires tx in store.state.txs && store.state.txs[tx] == map[] && id !in store.state.seenIds
      modifies store
      ensures store.Progress(s0, pauses, if ok then Mailing(tx, id, payload) else [BeginTx(tx), RollbackTx(tx)])
      ensures if ok then Mailed(store.state, tx, id, payload) else id !in store.state.seenIds
    {
      if ok {
        Finish(pauses, tx, id, payload, s0);
      } else {
        Abandon(pauses, tx, id, s0);
      }
    }

    // Whether the unique indexes and the outbox let a registration in.
    method Admit(uid: UserId, user: NewUser, staging: bool) returns (refused: Option<RegisterError>)
      ensures refused == Refusal(users, uid, user, staging)
    {
      if Clashes(users, uid, user.email) {
        return Some(if uid in users then DuplicateId else EmailInUse);
      }
      return if staging then None else Some(OutboxFailed);
    }

    // The transaction up to its end.
    method Transact(tx: TxId, uid: UserId, user: NewUser, id: RowId, payload: Payload, staging: bool,
                    pauses: Pauses<Event>, first: seq<(UserId, NewUser)>)
      returns (refused: Option<RegisterError>)
      requires tx !in store.state.seenTxs && id !in store.state.seenIds && NotMine(pauses, Writer(tx, id))
      modifies this, store
      ensures users == Joined(old(users), first) && refused == Refusal(users, uid, user, staging)
      ensures store.Progress(old(store.state), pauses,
                             if refused.None? then Mailing(tx, id, payload) else [BeginTx(tx), RollbackTx(tx)])
      ensures if refused.None? then Mailed(store.state, tx, id, payload) else id !in store.state.seenIds
    {
      ghost var s0 := store.state;
      Begin(pauses, tx, id);
      users := Joined(users, first);
      refused := Admit(uid, user, staging);
      Settle(refused.None?, pauses, tx, id, payload, s0);
    }

    // `register`, with other transactions before each step and other registrations
    // before and after the insert: user and event are committed both or neither.
    method Register(tx: TxId, uid: UserId, user: NewUser, id: RowId, payload: Payload, staging: bool,
                    pauses: Pauses<Event>, crowd: Crowd)
      returns (r: Result<NewUser, RegisterError>)
      requires tx !in store.state.seenTxs && id !in store.state.seenIds && EmailsDiffer(users)
      requires NotMine(pauses, Writer(tx, id))
      modifies this, store
      ensures EmailsDiffer(users)
      ensures var met := Joined(old(users), crowd.first); var refused := Refusal(met, uid, user, staging);
        && r == (if refused.Some? then Err(refused.value) else Ok(user))
        && users == if r.Ok? then Joined(met[uid := user], crowd.second) else met
      ensures r.Ok? ==> uid in users && users[uid] == user && Mailed(store.state, tx, id, payload)
      ensures r.Err? ==> id !in store.state.seenIds
      ensures store.Progress(old(store.state), pauses,
                             if r.Ok? then Mailing(tx, id, payload) else [BeginTx(tx), RollbackTx(tx)])
    {
      var refused := Transact(tx, uid, user, id, payload, staging, pauses, crowd.first);
      if refused.Some? {
        return Err(refused.value);
      }
      JoinOne(users, uid, user);
      users := Joined(users[uid := user], crowd.second);
      return Ok(user);
    }
  }

  // The transaction's one row, committed.
  ghost predicate Mailed(s: State, tx: TxId, id: RowId, payload: Payload) {
    && id in s.born && s.born[id].task == "send_email_task" && s.born[id].payload == payload
    && id in s.rows && Pending(s.rows[id]) && id in s.origin && s.origin[id] == Business(tx) && tx in s.committedTxs
  }
}
