/**
  Primary/replica routing in one request: which engine a statement goes to, the
  pin that makes the session stay on the primary, and the failover of a replica
  read.  The replica lags by as much as it likes, at every read anew.
 */
module Routing {
  import opened Options
  import opened Text

  type Write = nat

  datatype Bind = Primary | Replica

  // What `get_bind` sees of a statement.  `Other` is no clause, or one without text.
  datatype Clause = Dml | Query | Raw(text: string) | Other

  /******* Recognising a raw write *******/

  const KEYWORDS: seq<string> := ["insert", "update", "delete", "create", "drop", "alter"]

  predicate IsSpace(c: char) {
    c == ' ' || '\t' <= c <= '\r' || '\U{1c}' <= c <= '\U{1f}'
  }

  function LStrip(s: string): string {
    if s != "" && IsSpace(s[0]) then LStrip(s[1..]) else s
  }

  predicate Recognised(text: string) {
    exists k <- KEYWORDS :: StartsWith(Lowered(LStrip(text)), k)
  }

  // A statement the router knows to be a write.
  predicate Announced(clause: Clause) {
    clause.Dml? || (clause.Raw? && Recognised(clause.text))
  }

  // `get_bind`: the engine, and the pin afterwards.
  function Route(pin: bool, clause: Clause): (Bind, bool) {
    if pin then (Primary, true)
    else if Announced(clause) then (Primary, true)
    else if clause.Query? then (Replica, false)
    else (Primary, false)
  }

  /******* A session *******/

  // What one read observed: how much of the commit log, and the session's own
  // uncommitted writes.
  datatype View = View(bind: Bind, length: nat, flushed: seq<Write>)

  datatype State = State(
    pin: bool,
    pending: seq<Write>,        // added to the session, not flushed
    flushed: seq<Write>,        // sent to the primary, not committed
    log: seq<Write>,            // the primary's commits, of this session and of others
    // history
    own: set<nat>,              // where in the log this session's writes are
    views: seq<View>,
    discarded: seq<Write>)      // work undone by a failover

  // How an attempt raises: an `OperationalError`, or something else.
  datatype Fault = Operational | OtherError

  datatype Op =
    | Add(w: Write)
    | Flush(ok: bool)
    // `lag` is what the replica has replayed; `first` and `again` say how the attempts raise
    | Execute(clause: Clause, effects: seq<Write>, lag: nat, first: Option<Fault>, again: Option<Fault>)
    | Commit(ok: bool)
    | Rollback
    | Pin
    | ScopedRead(fails: bool)
    | OthersCommit(writes: seq<Write>)

  // A request starts unpinned, over whatever is committed.
  function Begin(log: seq<Write>): State {
    State(false, [], [], log, {}, [], [])
  }

  predicate CanFailOver(s: State) {
    !s.pin && s.pending == []
  }

  function Observed(s: State, bind: Bind, lag: nat): View {
    if bind.Primary? then View(Primary, |s.log|, s.flushed)
    else View(Replica, if lag < |s.log| then lag else |s.log|, [])
  }

  // A statement that reached its engine and came back.
  function Succeed(s: State, clause: Clause, effects: seq<Write>, lag: nat): State {
    var (bind, pin) := Route(s.pin, clause);
    s.(pin := pin,
       flushed := if clause.Query? then s.flushed else s.flushed + effects,
       views := s.views + [Observed(s, bind, lag)])
  }

  function Execution(s: State, clause: Clause, effects: seq<Write>, lag: nat, first: Option<Fault>,
                     again: Option<Fault>): State {
    if first.None? then Succeed(s, clause, effects, lag)
    else
      var routed := s.(pin := Route(s.pin, clause).1);
      if first.value.OtherError? || !CanFailOver(routed) then routed
      else
        var rolledBack := routed.(pin := true, flushed := [], discarded := s.discarded + s.pending + s.flushed);
        if again.Some? then rolledBack else Succeed(rolledBack, clause, effects, lag)
  }

  predicate FailsOver(s: State, clause: Clause, first: Option<Fault>) {
    first == Some(Operational) && CanFailOver(s.(pin := Route(s.pin, clause).1))
  }

  // The engines an execution turns to.
  function Attempts(s: State, clause: Clause, first: Option<Fault>): seq<Bind> {
    if FailsOver(s, clause, first) then [Route(s.pin, clause).0, Route(true, clause).0] else [Route(s.pin, clause).0]
  }

  // A flush that raises has rolled the transaction back.
  function Flushed(s: State, ok: bool): State {
    if s.pending == [] then s
    else if ok then s.(pin := true, pending := [], flushed := s.flushed + s.pending)
    else s.(pin := true, pending := [], flushed := [])
  }

  function Positions(from: nat, count: nat): (ps: set<nat>)
    ensures forall p: nat :: p in ps <==> from <= p < from + count
  {
    if count == 0 then {} else Positions(from, count - 1) + {from + count - 1}
  }

  function Committed(s: State, ok: bool): State {
    var f := Flushed(s, ok);
    if !ok then f.(pending := [], flushed := [])
    else f.(flushed := [], log := f.log + f.flushed, own := f.own + Positions(|f.log|, |f.flushed|))
  }

  function Step(s: State, op: Op): State {
    match op
    case Add(w) => s.(pending := s.pending + [w])
    case Flush(ok) => Flushed(s, ok)
    case Execute(clause, effects, lag, first, again) => Execution(s, clause, effects, lag, first, again)
    case Commit(ok) => Committed(s, ok)
    case Rollback => s.(pending := [], flushed := [])
    case Pin => s.(pin := true)
    case ScopedRead(fails) =>
      // set, read, reset to what it was
      if fails then s else s.(views := s.views + [Observed(s.(pin := true), Primary, 0)])
    case OthersCommit(writes) => s.(log := s.log + writes)
  }

  function Run(s: State, ops: seq<Op>): State {
    if ops == [] then s else Step(Run(s, ops[..|ops| - 1]), ops[|ops| - 1])
  }

  // A statement that writes and does not say so.
  predicate Unannounced(clause: Clause, effects: seq<Write>) {
    effects != [] && !clause.Query? && !Announced(clause)
  }

  predicate Announces(op: Op) {
    op.Execute? ==> !Unannounced(op.clause, op.effects)
  }

  predicate AllAnnounced(ops: seq<Op>) {
    forall op <- ops :: Announces(op)
  }

  /******* Invariant *******/

  ghost predicate Inv(s: State) {
    && (s.flushed != [] ==> s.pin)
    && (s.own != {} ==> s.pin)
    && (forall p <- s.own :: p < |s.log|)
    && (forall v <- s.views :: v.length <= |s.log|)
    && s.discarded == []
  }

  lemma StepInv(s: State, op: Op)
    requires Inv(s) && Announces(op)
    ensures Inv(Step(s, op))
  {
    if op.Commit? {
      var f := Flushed(s, op.ok);
      assert f.flushed == [] ==> Positions(|f.log|, |f.flushed|) == {};
    }
  }

  lemma {:induction false} RunInv(log: seq<Write>, ops: seq<Op>)
    requires AllAnnounced(ops)
    ensures Inv(Run(Begin(log), ops))
  {
    if ops != [] {
      RunInv(log, ops[..|ops| - 1]);
      StepInv(Run(Begin(log), ops[..|ops| - 1]), ops[|ops| - 1]);
    }
  }

  /******* Failover *******/

  // A failover rolls back only a session without work.
  lemma FailoverDestroysNothing(log: seq<Write>, ops: seq<Op>)
    requires AllAnnounced(ops)
    ensures var s := Run(Begin(log), ops);
      && s.discarded == []
      && (s.flushed != [] ==> s.pin)
      && (CanFailOver(s) ==> s.pending == [] && s.flushed == [])
  {
    RunInv(log, ops);
  }

  // An operation runs at most twice, the second time on the primary and only when
  // the first raised in a session without a pin or pending work.
  lemma AtMostTwoAttempts(s: State, clause: Clause, first: Option<Fault>)
    ensures var tries := Attempts(s, clause, first);
      && 1 <= |tries| <= 2
      && (|tries| == 2 <==> first == Some(Operational) && !s.pin && s.pending == [] && !Announced(clause))
      && (|tries| == 2 ==> tries[1] == Primary)
      && (Replica in tries <==> !s.pin && clause.Query?)
  {
  }

  // Some later failover destroys work of the session, though every write from here
  // on is recognised.
  ghost predicate CanLose(s: State) {
    exists future :: AllAnnounced(future) && Run(s, future).discarded != s.discarded
  }

  ghost predicate AtRisk(s: State) {
    !s.pin && s.pending == [] && s.flushed != []
  }

  lemma RiskComesFromUnannounced(s: State, op: Op)
    requires !AtRisk(s) && Announces(op)
    ensures !AtRisk(Step(s, op)) && Step(s, op).discarded == s.discarded
  {
  }

  lemma {:induction false} NothingLost(s: State, future: seq<Op>)
    requires !AtRisk(s) && AllAnnounced(future)
    ensures !AtRisk(Run(s, future)) && Run(s, future).discarded == s.discarded
  {
    if future != [] {
      NothingLost(s, future[..|future| - 1]);
      RiskComesFromUnannounced(Run(s, future[..|future| - 1]), future[|future| - 1]);
    }
  }

  // In any session: work can still be destroyed exactly when some of it is flushed
  // without a pin and nothing is pending.  Pending work protects it: it leaves the
  // session by a flush, which pins, or by a rollback, which clears the rest too.
  lemma LostExactly(s: State)
    ensures CanLose(s) <==> AtRisk(s)
  {
    if AtRisk(s) {
      var read := Execute(Query, [], 0, Some(Operational), None);
      RunOne(s, read);
      assert Run(s, [read]).discarded == s.discarded + [] + s.flushed;
      assert AllAnnounced([read]);
    } else {
      forall future | AllAnnounced(future) ensures Run(s, future).discarded == s.discarded {
        NothingLost(s, future);
      }
    }
  }

  // The one write not recognised of a session: whatever comes later, its work can be
  // destroyed exactly when it came with no pin and nothing pending.
  lemma LostExactlyWhenUnannounced(log: seq<Write>, history: seq<Op>, clause: Clause, effects: seq<Write>, lag: nat)
    requires AllAnnounced(history)
    ensures var s := Run(Begin(log), history);
      CanLose(Step(s, Execute(clause, effects, lag, None, None))) <==>
        Unannounced(clause, effects) && !s.pin && s.pending == []
  {
    RunInv(log, history);
    LostExactly(Step(Run(Begin(log), history), Execute(clause, effects, lag, None, None)));
  }

  lemma RunOne(s: State, op: Op)
    ensures Run(s, [op]) == Step(s, op)
  {
    assert [op][..0] == [];
  }

  // A write that is not recognised is lost when the replica fails, though the commit
  // succeeds; and it is unseen when the replica lags.
  lemma UnannouncedWriteIsLost(text: string, w: Write)
    requires !Recognised(text)
    ensures var write := Execute(Raw(text), [w], 0, None, None);
      && (var s := Run(Begin([]), [write, Execute(Query, [], 0, Some(Operational), None), Commit(true)]);
          s.discarded == [w] && s.log == [])
      && (var s := Run(Begin([]), [write, Commit(true), Execute(Query, [], 0, None, None)]);
          0 in s.own && s.views == [View(Primary, 0, []), View(Replica, 0, [])])
  {
    var write := Execute(Raw(text), [w], 0, None, None);
    var s := Begin([]);
    var written := Step(s, write);
    assert written == State(false, [], [w], [], {}, [View(Primary, 0, [])], []);
    var read := Execute(Query, [], 0, Some(Operational), None);
    RunThree(s, write, read, Commit(true));
    RunThree(s, write, Commit(true), Execute(Query, [], 0, None, None));
    assert Positions(0, 1) == {0};
  }

  // Such as an insert behind a common table expression or a comment.
  lemma UnrecognisedTexts(rest: string)
    ensures !Recognised("with " + rest)
    ensures !Recognised("/* " + rest)
  {
    UnrecognisedStart("with " + rest);
    UnrecognisedStart("/* " + rest);
  }

  lemma UnrecognisedStart(text: string)
    requires text != "" && !IsSpace(text[0]) && Low(text[0]) !in ['i', 'u', 'd', 'c', 'a']
    ensures !Recognised(text)
  {
    assert LStrip(text) == text;
    forall k | k in KEYWORDS ensures !StartsWith(Lowered(text), k) {
      assert |k| > 0 && k[0] in ['i', 'u', 'd', 'c', 'a'];
    }
  }

  lemma RunThree(s: State, a: Op, b: Op, c: Op)
    ensures Run(s, [a, b, c]) == Step(Step(Step(s, a), b), c)
  {
    assert [a, b, c][..2] == [a, b] && [a, b][..1] == [a] && [a][..0] == [];
    assert Run(s, [a]) == Step(s, a);
    assert Run(s, [a, b]) == Step(Step(s, a), b);
  }

  // Margin and letter case do not hide a write.
  lemma {:induction false} RecognisedAnyhow(margin: string, text: string)
    requires forall c <- margin :: IsSpace(c)
    ensures Recognised(margin + text) <==> Recognised(text)
    ensures text != "" && !IsSpace(text[0]) ==>
      (Recognised(text) <==> exists k <- KEYWORDS :: StartsWith(Lowered(text), k))
  {
    if margin == "" {
      assert margin + text == text;
    } else {
      assert (margin + text)[1..] == margin[1..] + text;
      RecognisedAnyhow(margin[1..], text);
    }
  }

  /******* Reading one's writes *******/

  // The operations that pin the session for the rest of the request.
  ghost predicate Pins(s: State, op: Op) {
    match op
    case Flush(_) => s.pending != []
    case Commit(_) => s.pending != []
    case Pin => true
    case Execute(clause, _, _, first, _) => Announced(clause) || FailsOver(s, clause, first)
    case _ => false
  }

  lemma PinsExactly(s: State, op: Op)
    ensures Step(s, op).pin <==> s.pin || Pins(s, op)
  {
  }

  lemma {:induction false} PinStays(log: seq<Write>, ops: seq<Op>, n: nat)
    requires n < |ops| && Pins(Run(Begin(log), ops[..n]), ops[n])
    ensures Run(Begin(log), ops).pin
    decreases |ops|
  {
    var front, last := ops[..|ops| - 1], ops[|ops| - 1];
    PinsExactly(Run(Begin(log), front), last);
    if n < |front| {
      assert front[..n] == ops[..n];
      PinStays(log, front, n);
    }
  }

  // The view an operation adds, if it reads.
  ghost predicate Reads(s: State, op: Op, v: View) {
    Step(s, op).views == s.views + [v]
  }

  lemma ViewOf(s: State, op: Op, v: View)
    requires Inv(s) && Announces(op) && Reads(s, op, v)
    ensures v.length <= |s.log|
    ensures s.pin || op.ScopedRead? || Pins(s, op) ==> v.length == |s.log| && v.flushed == s.flushed
    ensures v.flushed == s.flushed && forall p <- s.own :: p < v.length
  {
    assert Step(s, op).views[|s.views|] == v;
  }

  // Every read sees all that the session committed or flushed; once the session is
  // pinned, no read sees less of the log than an earlier one.
  lemma ReadsItsWrites(log: seq<Write>, ops: seq<Op>, op: Op, v: View)
    requires AllAnnounced(ops) && Announces(op) && Reads(Run(Begin(log), ops), op, v)
    ensures var s := Run(Begin(log), ops);
      && (forall p <- s.own :: p < v.length) && v.flushed == s.flushed
      && (s.pin || op.ScopedRead? ==> v.length == |s.log| && forall u <- s.views :: u.length <= v.length)
  {
    RunInv(log, ops);
    ViewOf(Run(Begin(log), ops), op, v);
  }

  // Some later read misses a write the session has committed, though every write from
  // here on is recognised.
  ghost predicate CanMissCommitted(s: State) {
    exists future, op, v: View, p: nat ::
      AllAnnounced(future) && Announces(op) && Reads(Run(s, future), op, v)
      && p in Run(s, future).own && p >= v.length
  }

  // Some later read misses a write the session has sent and not committed.
  ghost predicate CanMissFlushed(s: State) {
    exists future, op, v: View ::
      AllAnnounced(future) && Announces(op) && Reads(Run(s, future), op, v) && v.flushed != Run(s, future).flushed
  }

  // Committed work, or work a commit would publish as it is, and no pin.
  ghost predicate Exposed(s: State) {
    (!s.pin && s.own != {}) || AtRisk(s)
  }

  ghost predicate Unseen(s: State) {
    !s.pin && s.flushed != []
  }

  lemma ExposureComesFromUnannounced(s: State, op: Op)
    requires Announces(op)
    ensures !Exposed(s) ==> !Exposed(Step(s, op))
    ensures !Unseen(s) ==> !Unseen(Step(s, op))
  {
    if op.Commit? {
      var f := Flushed(s, op.ok);
      assert f.flushed == [] ==> Positions(|f.log|, |f.flushed|) == {};
    }
  }

  lemma {:induction false} ExposureStays(s: State, future: seq<Op>)
    requires AllAnnounced(future)
    ensures !Exposed(s) ==> !Exposed(Run(s, future))
    ensures !Unseen(s) ==> !Unseen(Run(s, future))
  {
    if future != [] {
      ExposureStays(s, future[..|future| - 1]);
      ExposureComesFromUnannounced(Run(s, future[..|future| - 1]), future[|future| - 1]);
    }
  }

  ghost predicate OwnInLog(s: State) {
    forall p <- s.own :: p < |s.log|
  }

  // The session's places are in the log, in every run.
  lemma {:induction false} OwnIsLogged(s: State, ops: seq<Op>)
    requires OwnInLog(s)
    ensures OwnInLog(Run(s, ops))
  {
    if ops != [] {
      OwnIsLogged(s, ops[..|ops| - 1]);
      OwnStaysLogged(Run(s, ops[..|ops| - 1]), ops[|ops| - 1]);
    }
  }

  lemma OwnStaysLogged(s: State, op: Op)
    requires OwnInLog(s)
    ensures OwnInLog(Step(s, op))
  {
  }

  lemma ViewOfPinned(s: State, op: Op, v: View)
    requires Reads(s, op, v)
    ensures s.pin ==> v.length == |s.log|
    ensures s.pin || s.flushed == [] ==> v.flushed == s.flushed
  {
    assert Step(s, op).views[|s.views|] == v;
  }

  // A lagging read of a session without a pin.
  lemma LaggingRead(s: State)
    requires !s.pin
    ensures Reads(s, Execute(Query, [], 0, None, None), View(Replica, 0, []))
  {
  }

  // In any session: a committed write can be missed exactly when there is no pin and
  // something is committed, or flushed with nothing pending.
  lemma CommittedMissedExactly(s: State)
    requires OwnInLog(s)
    ensures CanMissCommitted(s) <==> Exposed(s)
  {
    var read, unseen := Execute(Query, [], 0, None, None), View(Replica, 0, []);
    if !s.pin && s.own != {} {
      var p :| p in s.own;
      LaggingRead(s);
      assert Run(s, []) == s && AllAnnounced([]) && Announces(read);
      assert Reads(Run(s, []), read, unseen) && p in Run(s, []).own && p >= unseen.length;
    } else if AtRisk(s) {
      var t := Step(s, Commit(true));
      RunOne(s, Commit(true));
      LaggingRead(t);
      assert |s.log| in t.own;
      assert AllAnnounced([Commit(true)]) && Announces(read);
      assert Reads(Run(s, [Commit(true)]), read, unseen) && |s.log| in Run(s, [Commit(true)]).own;
    } else {
      forall future, op, v: View, p: nat |
          AllAnnounced(future) && Announces(op) && Reads(Run(s, future), op, v) && p in Run(s, future).own
        ensures p < v.length
      {
        ExposureStays(s, future);
        OwnIsLogged(s, future);
        ViewOfPinned(Run(s, future), op, v);
      }
    }
  }

  // And an uncommitted one exactly when something is flushed and there is no pin.
  lemma FlushedMissedExactly(s: State)
    ensures CanMissFlushed(s) <==> Unseen(s)
  {
    if Unseen(s) {
      var read, unseen := Execute(Query, [], 0, None, None), View(Replica, 0, []);
      LaggingRead(s);
      assert Run(s, []) == s && AllAnnounced([]) && Announces(read);
      assert Reads(Run(s, []), read, unseen) && unseen.flushed != Run(s, []).flushed;
    } else {
      forall future, op, v: View | AllAnnounced(future) && Announces(op) && Reads(Run(s, future), op, v)
        ensures v.flushed == Run(s, future).flushed
      {
        ExposureStays(s, future);
        ViewOfPinned(Run(s, future), op, v);
      }
    }
  }

  // The one write not recognised of a session: a later read can miss it, or another
  // write committed with it, exactly when it came with no pin and nothing pending; and
  // before the commit already exactly when it came with no pin.
  lemma MissedExactlyWhenUnannounced(log: seq<Write>, history: seq<Op>, clause: Clause, effects: seq<Write>, lag: nat)
    requires AllAnnounced(history)
    ensures var s := Run(Begin(log), history);
      var t := Step(s, Execute(clause, effects, lag, None, None));
      && (CanMissCommitted(t) <==> Unannounced(clause, effects) && !s.pin && s.pending == [])
      && (CanMissFlushed(t) <==> Unannounced(clause, effects) && !s.pin)
  {
    RunInv(log, history);
    var t := Step(Run(Begin(log), history), Execute(clause, effects, lag, None, None));
    CommittedMissedExactly(t);
    FlushedMissedExactly(t);
  }

  // From the first pinning operation on, every read sees the whole commit log.
  lemma MonotonicAfterPin(log: seq<Write>, ops: seq<Op>, n: nat, op: Op, v: View)
    requires AllAnnounced(ops) && Announces(op) && Reads(Run(Begin(log), ops), op, v)
    requires n < |ops| && Pins(Run(Begin(log), ops[..n]), ops[n])
    ensures var s := Run(Begin(log), ops);
      v.length == |s.log| && v.flushed == s.flushed && forall u <- s.views :: u.length <= v.length
  {
    PinStays(log, ops, n);
    ReadsItsWrites(log, ops, op, v);
  }

  lemma StepGrows(s: State, op: Op)
    ensures s.log <= Step(s, op).log && s.own <= Step(s, op).own
  {
  }

  // What is committed stays where it is, so a position in the log names a write.
  lemma {:induction false} LogGrows(log: seq<Write>, ops: seq<Op>, n: nat)
    requires n <= |ops|
    ensures var s, t := Run(Begin(log), ops[..n]), Run(Begin(log), ops); s.log <= t.log && s.own <= t.own
    decreases |ops|
  {
    if n < |ops| {
      var front := ops[..|ops| - 1];
      assert front[..n] == ops[..n];
      LogGrows(log, front, n);
      StepGrows(Run(Begin(log), front), ops[|ops| - 1]);
    } else {
      assert ops[..n] == ops;
    }
  }

  lemma CommitPlaces(m: State, i: nat)
    requires i < |Flushed(m, true).flushed|
    ensures var t := Step(m, Commit(true));
      && |m.log| + i in t.own && |m.log| + i < |t.log| && t.log[|m.log| + i] == Flushed(m, true).flushed[i]
  {
  }

  // A committed write keeps its place in the log and the session's claim to it.
  lemma CommittedWritesStay(log: seq<Write>, ops: seq<Op>, n: nat, i: nat)
    requires n < |ops| && ops[n] == Commit(true) && i < |Flushed(Run(Begin(log), ops[..n]), true).flushed|
    ensures var m, s := Run(Begin(log), ops[..n]), Run(Begin(log), ops);
      && |m.log| + i in s.own && |m.log| + i < |s.log| && s.log[|m.log| + i] == Flushed(m, true).flushed[i]
  {
    assert ops[..n + 1][..n] == ops[..n];
    CommitPlaces(Run(Begin(log), ops[..n]), i);
    LogGrows(log, ops, n + 1);
  }

  // What a commit wrote is in the part of the log that every later read sees, at the
  // places where it was written.
  lemma CommittedWritesAreRead(log: seq<Write>, ops: seq<Op>, n: nat, i: nat, op: Op, v: View)
    requires AllAnnounced(ops) && Announces(op) && Reads(Run(Begin(log), ops), op, v)
    requires n < |ops| && ops[n] == Commit(true) && i < |Flushed(Run(Begin(log), ops[..n]), true).flushed|
    ensures var m, s := Run(Begin(log), ops[..n]), Run(Begin(log), ops);
      && |m.log| + i < v.length && |m.log| + i < |s.log|
      && s.log[|m.log| + i] == Flushed(m, true).flushed[i]
  {
    CommittedWritesStay(log, ops, n, i);
    ReadsItsWrites(log, ops, op, v);
  }

  /******* Scoped reads *******/

  function WithoutScoped(ops: seq<Op>): seq<Op> {
    if ops == [] then []
    else
      var front := WithoutScoped(ops[..|ops| - 1]);
      if ops[|ops| - 1].ScopedRead? then front else front + [ops[|ops| - 1]]
  }

  // What an operation does depends on no earlier view.
  lemma ViewsDoNotMatter(s: State, views: seq<View>, op: Op)
    ensures var t := Step(s, op);
      && s.views <= t.views
      && Step(s.(views := views), op) == t.(views := views + t.views[|s.views|..])
  {
    match op
    case Execute(clause, effects, lag, first, again) => ExecutionsViews(s, views, clause, effects, lag, first, again);
    case _ =>
  }

  lemma ExecutionsViews(s: State, views: seq<View>, clause: Clause, effects: seq<Write>, lag: nat,
                        first: Option<Fault>, again: Option<Fault>)
    ensures var t := Execution(s, clause, effects, lag, first, again);
      && s.views <= t.views
      && Execution(s.(views := views), clause, effects, lag, first, again)
        == t.(views := views + t.views[|s.views|..])
  {
  }

  // Scoped reads, failing ones too, leave the session as it would be without them:
  // its pin, its work, where its statements go and what the other reads observe.
  lemma {:induction false} ScopedReadsLeaveNoTrace(log: seq<Write>, ops: seq<Op>)
    ensures var s, t := Run(Begin(log), ops), Run(Begin(log), WithoutScoped(ops));
      s == t.(views := s.views) && multiset(t.views) <= multiset(s.views)
  {
    if ops != [] {
      var front, op := ops[..|ops| - 1], ops[|ops| - 1];
      var kept := WithoutScoped(front);
      ScopedReadsLeaveNoTrace(log, front);
      var s, t := Run(Begin(log), front), Run(Begin(log), kept);
      if op.ScopedRead? {
        MoreViews(s, op);
      } else {
        ViewsDoNotMatter(t, s.views, op);
        assert (kept + [op])[..|kept|] == kept;
        assert Step(t, op).views == t.views + Step(t, op).views[|t.views|..];
      }
    }
  }

  lemma MoreViews(s: State, op: Op)
    requires op.ScopedRead?
    ensures multiset(s.views) <= multiset(Step(s, op).views) && Step(s, op) == s.(views := Step(s, op).views)
  {
  }
}
