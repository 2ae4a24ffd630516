/** The input/output queue of one socket (`runSocketOp` in src/infra/transport/modbus/ModbusClient.js). */
module ModbusClients {
  import opened Sequences
  import opened Promises

  /** `ioQueue` is the last promise of the chain; `started` records the order in which operations began. */
  datatype Socket = Socket(ioQueue: Option<nat>, ops: seq<Op>, started: seq<nat>)

  datatype SocketEvent = Request | Begin(op: nat) | End(op: nat, ok: bool)

  function Requested(s: Socket): Socket {
    Socket(Some(|s.ops|), s.ops + [Op("", s.ioQueue, Waiting)], s.started)
  }

  function Began(s: Socket, i: nat): Socket {
    if MayStart(s.ops, i) then s.(ops := WithState(s.ops, i, Running), started := s.started + [i]) else s
  }

  function Ended(s: Socket, i: nat, ok: bool): Socket {
    if IsRunning(s.ops, i) then s.(ops := WithState(s.ops, i, Settled(ok))) else s
  }

  function SocketNext(s: Socket, e: SocketEvent): Socket {
    match e
    case Request => Requested(s)
    case Begin(i) => Began(s, i)
    case End(i, ok) => Ended(s, i, ok)
  }

  function SocketRun(s: Socket, events: seq<SocketEvent>): Socket
    decreases |events|
  {
    if events == [] then s else SocketNext(SocketRun(s, events[..|events| - 1]), events[|events| - 1])
  }

  const FreshSocket := Socket(None, [], [])

  class ModbusClient {
    var ioQueue: Option<nat>
    var ops: seq<Op>
    var started: seq<nat>

    ghost function Model(): Socket
      reads this
    {
      Socket(ioQueue, ops, started)
    }

    constructor ()
      ensures Model() == FreshSocket
    {
      ioQueue, ops, started := None, [], [];
    }

    /** `runSocketOp`: chain the operation on the queue and make it the new tail. */
    method RunSocketOp() returns (next: nat)
      modifies this
      ensures Model() == Requested(old(Model())) && next == |old(ops)|
      ensures ops == old(ops) + [Op("", old(ioQueue), Waiting)] && ioQueue == Some(next) && started == old(started)
    {
      next := |ops|;
      ops := ops + [Op("", ioQueue, Waiting)];
      ioQueue := Some(next);
    }

    method Start(i: nat)
      requires MayStart(ops, i)
      modifies this
      ensures Model() == Began(old(Model()), i) && IsRunning(ops, i)
    {
      ops := WithState(ops, i, Running);
      started := started + [i];
    }

    method Settle(i: nat, ok: bool)
      requires IsRunning(ops, i)
      modifies this
      ensures Model() == Ended(old(Model()), i, ok) && !Outstanding(ops, i)
    {
      ops := WithState(ops, i, Settled(ok));
    }
  }

  /** Each operation is chained on the one requested just before it, and they have started in that order. */
  ghost predicate Lined(s: Socket) {
    && s.ioQueue == (if s.ops == [] then None else Some(|s.ops| - 1))
    && (forall j :: 0 <= j < |s.ops| ==> s.ops[j].key == "" && s.ops[j].pred == if j == 0 then None else Some(j - 1))
    && (forall j :: 0 <= j < |s.ops| ==> (j < |s.started| <==> s.ops[j].state != Waiting))
    && (forall j :: 0 <= j < |s.started| - 1 ==> j < |s.ops| && s.ops[j].state.Settled?)
    && |s.started| <= |s.ops| && (forall j :: 0 <= j < |s.started| ==> s.started[j] == j)
  }

  lemma LinedNext(s: Socket, e: SocketEvent)
    requires Lined(s)
    ensures Lined(SocketNext(s, e))
  {
    match e
    case Request =>
    case Begin(i) => if MayStart(s.ops, i) { StartsNextInLine(s, i); }
    case End(i, ok) =>
  }

  /** The only operation that may start is the first that has not. */
  lemma StartsNextInLine(s: Socket, i: nat)
    requires Lined(s) && MayStart(s.ops, i)
    ensures i == |s.started|
  {
    if i > 0 { assert s.ops[i].pred == Some(i - 1) && s.ops[i - 1].state.Settled?; }
  }

  lemma {:induction false} LinedAlways(events: seq<SocketEvent>)
    ensures Lined(SocketRun(FreshSocket, events))
    decreases |events|
  {
    if events != [] {
      LinedAlways(events[..|events| - 1]);
      LinedNext(SocketRun(FreshSocket, events[..|events| - 1]), events[|events| - 1]);
    }
  }

  /** For every interleaving of requests, starts and settlements: at most one operation runs, operations
      start in the order they were requested, and a failed one never blocks the rest. */
  lemma SocketIsSerial(events: seq<SocketEvent>)
    ensures var s := SocketRun(FreshSocket, events);
            && Exclusive(s.ops)
            && (forall k :: 0 <= k < |s.started| ==> s.started[k] == k)
            && (forall i: nat :: Outstanding(s.ops, i) ==>
                  exists first: nat :: first <= i && Moves(s.ops, first))
  {
    LinedAlways(events);
    var s := SocketRun(FreshSocket, events);
    forall i: nat, j: nat | IsRunning(s.ops, i) && IsRunning(s.ops, j) ensures i == j {
      assert i < |s.started| && j < |s.started|;
    }
    forall i: nat | Outstanding(s.ops, i)
      ensures exists first: nat :: first <= i && Moves(s.ops, first)
    {
      var first := FirstOutstanding(s.ops, i);
      if first > 0 { assert !Outstanding(s.ops, first - 1); }
      assert Moves(s.ops, first);
    }
  }

  // ---------- no request is dropped ----------

  function Requests(events: seq<SocketEvent>): nat {
    if events == [] then 0
    else Requests(events[..|events| - 1]) + if events[|events| - 1] == Request then 1 else 0
  }

  /** An operation gets its turn: it starts running and is written down as the latest to start. */
  predicate StartsNow(s: Socket, s': Socket, i: nat) {
    && i < |s.ops| && s'.ops == s.ops[i := s.ops[i].(state := Running)] && s'.started == s.started + [i]
    && s'.ioQueue == s.ioQueue
  }

  /** Each request adds one operation at the end, waiting for the one requested just before, and changes no other. */
  lemma RequestChains(events: seq<SocketEvent>)
    ensures var s := SocketRun(FreshSocket, events);
            var s' := SocketNext(s, Request);
            && s'.ops == s.ops + [Op("", if |s.ops| == 0 then None else Some(|s.ops| - 1), Waiting)]
            && s'.started == s.started
  {
    LinedAlways(events);
  }

  /** An operation that runs settles with its outcome, which changes nothing else: what was requested after it stays
      chained behind it. */
  lemma OutcomeIsKept(events: seq<SocketEvent>, i: nat, ok: bool)
    ensures var s := SocketRun(FreshSocket, events);
            var s' := SocketNext(s, End(i, ok));
            if i < |s.ops| && s.ops[i].state == Running then
              s'.ops == s.ops[i := Op("", if i == 0 then None else Some(i - 1), Settled(ok))]
              && s'.started == s.started && s'.ioQueue == s.ioQueue
            else s' == s
  {
    LinedAlways(events);
  }

  /** After any run there is an operation for each request; and one that waits starts when its turn comes exactly if all
      requested before it have settled, whatever their outcome. */
  lemma {:induction false} EveryRequestIsServed(events: seq<SocketEvent>, i: nat)
    ensures var s := SocketRun(FreshSocket, events);
            && |s.ops| == Requests(events)
            && (i < |s.ops| && s.ops[i].state == Waiting ==>
                  (StartsNow(s, SocketNext(s, Begin(i)), i) <==> forall j: nat :: j < i ==> s.ops[j].state.Settled?))
    decreases |events|
  {
    LinedAlways(events);
    if events != [] { EveryRequestIsServed(events[..|events| - 1], 0); }
    var s := SocketRun(FreshSocket, events);
    if i < |s.ops| && s.ops[i].state == Waiting {
      WaitsForAll(s, i);
      assert Began(s, i).ops[i].state == Running <==> MayStart(s.ops, i);
    }
  }

  lemma WaitsForAll(s: Socket, i: nat)
    requires Lined(s) && i < |s.ops| && s.ops[i].state == Waiting
    ensures MayStart(s.ops, i) <==> forall j: nat :: j < i ==> s.ops[j].state.Settled?
  {
    if MayStart(s.ops, i) { StartsNextInLine(s, i); }
  }
}
