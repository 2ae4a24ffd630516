/** Chained promises: an operation starts once the one it was chained on has settled, successfully or not
    (`tail.then(...)` with the failure swallowed by `catch`). */
module Promises {
  import opened Sequences

  datatype OpState = Waiting | Running | Settled(ok: bool)

  /** One operation: the socket it works on, the operation it was chained on, and how far it got. */
  datatype Op = Op(key: string, pred: Option<nat>, state: OpState)

  predicate Outstanding(ops: seq<Op>, i: nat) { i < |ops| && !ops[i].state.Settled? }

  predicate IsRunning(ops: seq<Op>, i: nat) { i < |ops| && ops[i].state == Running }

  /** The operation's turn has come: the one before it has settled, whatever its outcome. */
  predicate MayStart(ops: seq<Op>, i: nat) {
    i < |ops| && ops[i].state == Waiting && (ops[i].pred.Some? ==> !Outstanding(ops, ops[i].pred.value))
  }

  /** The operation is running or about to. */
  predicate Moves(ops: seq<Op>, i: nat) { IsRunning(ops, i) || MayStart(ops, i) }

  function WithState(ops: seq<Op>, i: nat, s: OpState): seq<Op>
    requires i < |ops|
  {
    ops[i := ops[i].(state := s)]
  }

  /** No two operations run on the same socket. */
  ghost predicate Exclusive(ops: seq<Op>) {
    forall i: nat, j: nat :: IsRunning(ops, i) && IsRunning(ops, j) && ops[i].key == ops[j].key ==> i == j
  }

  /** Chained on an earlier operation of the same socket; a running one was chained on a settled one. */
  ghost predicate WellChained(ops: seq<Op>) {
    && (forall j: nat :: j < |ops| && ops[j].pred.Some? ==>
         ops[j].pred.value < j && ops[ops[j].pred.value].key == ops[j].key)
    && (forall j: nat :: IsRunning(ops, j) && ops[j].pred.Some? ==> !Outstanding(ops, ops[j].pred.value))
  }

  /** Nothing ever blocks for good: the first outstanding operation of a socket is running or may start. */
  lemma FirstOutstandingMoves(ops: seq<Op>, i: nat)
    requires WellChained(ops) && Outstanding(ops, i)
    requires forall k: nat :: k < i && Outstanding(ops, k) ==> ops[k].key != ops[i].key
    ensures Moves(ops, i)
  {
  }

  /** Some operation of the socket is the first outstanding one. */
  lemma FirstOutstanding(ops: seq<Op>, i: nat) returns (first: nat)
    requires Outstanding(ops, i)
    ensures first <= i && Outstanding(ops, first) && ops[first].key == ops[i].key
    ensures forall k: nat :: k < first && Outstanding(ops, k) ==> ops[k].key != ops[i].key
  {
    first := 0;
    while !Outstanding(ops, first) || ops[first].key != ops[i].key
      invariant first <= i && forall k: nat :: k < first && Outstanding(ops, k) ==> ops[k].key != ops[i].key
      decreases i - first
    {
      first := first + 1;
    }
  }
}
