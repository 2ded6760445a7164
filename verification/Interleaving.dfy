/**
  One request among others: its own steps, each after whatever the others do.  Each
  protocol says which events are a request's own and what the others leave alone.
 */
module Interleaving {
  // What the others do before the i-th step of a request.
  type Pauses<E> = nat -> seq<E>

  // Each of a request's own events after its pause.
  function Interleave<E>(pauses: Pauses<E>, own: seq<E>): seq<E> {
    if own == [] then []
    else
      var n := |own| - 1;
      Interleave(pauses, own[..n]) + (pauses(n) + [own[n]])
  }

  lemma InterleaveSnoc<E>(pauses: Pauses<E>, own: seq<E>, e: E)
    ensures Interleave(pauses, own + [e]) == Interleave(pauses, own) + (pauses(|own|) + [e])
  {
    assert (own + [e])[..|own|] == own;
  }

  // The same event n times.
  function Repeated<E>(e: E, n: nat): (events: seq<E>)
    ensures |events| == n
  {
    if n == 0 then [] else Repeated(e, n - 1) + [e]
  }
}
