/**
  The session as the objects that keep it: the context's pin, the session's work
  and the cluster it talks to.  Each method is one operation of the routing model.
 */
module ResilientSession {
  import opened Options
  import opened Text
  import opened Routing

  class Context {
    var forcePrimary: bool

    constructor ()
      ensures !forcePrimary
    {
      forcePrimary := false;
    }
  }

  class Cluster {
    var log: seq<Write>

    constructor ()
      ensures log == []
    {
      log := [];
    }
  }

  class RoutingSession {
    const context: Context
    const cluster: Cluster
    var pending: seq<Write>
    var flushed: seq<Write>
    ghost var own: set<nat>
    ghost var views: seq<View>
    ghost var discarded: seq<Write>

    constructor (context: Context, cluster: Cluster)
      ensures this.context == context && this.cluster == cluster
      ensures Current() == Begin(cluster.log).(pin := context.forcePrimary)
    {
      this.context, this.cluster := context, cluster;
      pending, flushed := [], [];
      own, views, discarded := {}, [], [];
    }

    ghost function Current(): State
      reads this, context, cluster
    {
      State(context.forcePrimary, pending, flushed, cluster.log, own, views, discarded)
    }

    method GetBind(clause: Clause) returns (bind: Bind)
      modifies context
      ensures (bind, context.forcePrimary) == Route(old(context.forcePrimary), clause)
    {
      if context.forcePrimary {
        return Primary;
      }
      match clause {
        case Dml =>
          context.forcePrimary := true;
          return Primary;
        case Query =>
          return Replica;
        case Raw(text) =>
          var queryText := Lowered(LStrip(text));
          if exists k <- KEYWORDS :: StartsWith(queryText, k) {
            context.forcePrimary := true;
            return Primary;
          }
        case Other =>
      }
      return Primary;
    }

    method MayFailOver() returns (may: bool)
      ensures may == CanFailOver(Current())
    {
      if context.forcePrimary {
        return false;
      }
      return pending == [];
    }

    // One attempt: the statement is routed, and raises or does its work.
    method Attempt(clause: Clause, effects: seq<Write>, lag: nat, fault: Option<Fault>) returns (r: Result<Bind, Fault>)
      modifies this, context
      ensures fault.None? ==> Current() == Succeed(old(Current()), clause, effects, lag)
      ensures fault.Some? ==> Current() == old(Current()).(pin := Route(old(context.forcePrimary), clause).1)
      ensures r == if fault.None? then Ok(Route(old(context.forcePrimary), clause).0) else Err(fault.value)
    {
      ghost var before := Current();
      var bind := GetBind(clause);
      if fault.Some? {
        return Err(fault.value);
      }
      views := views + [Observed(before, bind, lag)];
      if !clause.Query? {
        flushed := flushed + effects;
      }
      return Ok(bind);
    }

    // `_with_failover` around `execute`, `scalar` and `get`.
    method Execute(clause: Clause, effects: seq<Write>, lag: nat, first: Option<Fault>, again: Option<Fault>)
      returns (r: Result<Bind, Fault>, attempts: seq<Bind>)
      modifies this, context
      ensures Current() == Step(old(Current()), Op.Execute(clause, effects, lag, first, again))
      ensures attempts == Attempts(old(Current()), clause, first)
      ensures r ==
        if first.None? then Ok(attempts[0])
        else if !FailsOver(old(Current()), clause, first) then Err(first.value)
        else if again.None? then Ok(attempts[1])
        else Err(again.value)
    {
      attempts := [Route(context.forcePrimary, clause).0];
      r := Attempt(clause, effects, lag, first);
      if r.Ok? || r.error.OtherError? {
        return;
      }
      var may := MayFailOver();
      if !may {
        return;
      }
      context.forcePrimary := true;
      discarded := discarded + pending + flushed;
      Undo();
      attempts := attempts + [Route(context.forcePrimary, clause).0];
      r := Attempt(clause, effects, lag, again);
    }

    method Undo()
      modifies this`pending, this`flushed
      ensures pending == [] && flushed == []
    {
      pending, flushed := [], [];
    }

    method Rollback()
      modifies this`pending, this`flushed
      ensures Current() == Step(old(Current()), Op.Rollback)
    {
      Undo();
    }

    method Add(w: Write)
      modifies this`pending
      ensures Current() == Step(old(Current()), Op.Add(w))
    {
      pending := pending + [w];
    }

    // A flush with something to write pins the request first.
    method Flush(ok: bool)
      modifies this, context
      ensures Current() == Step(old(Current()), Op.Flush(ok))
    {
      if pending == [] {
        return;
      }
      context.forcePrimary := true;
      if ok {
        flushed := flushed + pending;
        pending := [];
      } else {
        Undo();
      }
    }

    method Commit(ok: bool)
      modifies this, context, cluster
      ensures Current() == Step(old(Current()), Op.Commit(ok))
    {
      Flush(ok);
      if ok {
        own := own + Positions(|cluster.log|, |flushed|);
        cluster.log := cluster.log + flushed;
        flushed := [];
      } else {
        Undo();
      }
    }

    // `token = set(True)`, read, `reset(token)`, as `exists`, `list_active` and `get` do.
    method ReadScoped(fails: bool) returns (r: Result<Bind, Fault>)
      modifies this, context
      ensures Current() == Step(old(Current()), ScopedRead(fails))
      ensures r == if fails then Err(Operational) else Ok(Primary)
    {
      var token := context.forcePrimary;
      context.forcePrimary := true;
      var fault := if fails then Some(Operational) else None;
      var attempts: seq<Bind>;
      r, attempts := Execute(Query, [], 0, fault, None);
      context.forcePrimary := token;
    }

    method Perform(op: Op)
      modifies this, context, cluster
      ensures Current() == Step(old(Current()), op)
    {
      match op {
        case Add(w) => Add(w);
        case Flush(ok) => Flush(ok);
        case Execute(clause, effects, lag, first, again) =>
          var _, _ := Execute(clause, effects, lag, first, again);
        case Commit(ok) => Commit(ok);
        case Rollback => Rollback();
        case Pin => context.forcePrimary := true;
        case ScopedRead(fails) =>
          var _ := ReadScoped(fails);
        case OthersCommit(writes) => cluster.log := cluster.log + writes;
      }
    }
  }

  // `db_session`: a request starts unpinned whatever its caller's pin, which is back afterwards.
  method DbSession(context: Context, cluster: Cluster, ops: seq<Op>)
    returns (session: RoutingSession, ghost final: State)
    modifies context, cluster
    ensures fresh(session) && final == Run(Begin(old(cluster.log)), ops)
    ensures context.forcePrimary == old(context.forcePrimary)
    ensures session.pending == [] && session.flushed == [] && cluster.log == final.log
  {
    var token := context.forcePrimary;
    context.forcePrimary := false;
    session := new RoutingSession(context, cluster);
    for i := 0 to |ops|
      invariant fresh(session) && session.context == context && session.cluster == cluster
      invariant session.Current() == Run(Begin(old(cluster.log)), ops[..i])
    {
      session.Perform(ops[i]);
      assert ops[..i + 1][..i] == ops[..i];
    }
    assert ops[..|ops|] == ops;
    final := session.Current();
    session.Rollback();
    context.forcePrimary := token;
  }
}
