/** The per-device mutex (src/infra/transport/modbus/DeviceMutex.js) under every interleaving of its calls. */
module DeviceMutexes {
  import opened Sequences
  import opened Promises

  /** `queues` holds the tail promise per key, `inflight` the counter; `ops` are the operations behind them. */
  datatype Mutex = Mutex(queues: map<string, nat>, inflight: map<string, int>, ops: seq<Op>)

  const FreshMutex := Mutex(map[], map[], [])

  function Count(inflight: map<string, int>, key: string): int {
    if key in inflight then inflight[key] else 0
  }

  function RunOp(m: Mutex, key: string): Mutex {
    m.(ops := m.ops + [Op(key, if key in m.queues then Some(m.queues[key]) else None, Waiting)],
       queues := m.queues[key := |m.ops|])
  }

  function Locked(m: Mutex, key: string): bool {
    key in m.queues || Count(m.inflight, key) > 0
  }

  function TryRunOp(m: Mutex, key: string): Mutex {
    if Locked(m, key) then m else RunOp(m, key)
  }

  function StartOp(m: Mutex, i: nat): Mutex {
    if MayStart(m.ops, i)
    then m.(ops := WithState(m.ops, i, Running),
        inflight := m.inflight[m.ops[i].key := Count(m.inflight, m.ops[i].key) + 1])
    else m
  }

  /** The `finally` block: the last one in flight also drops the stored tail, whatever is chained behind it. */
  function SettleOp(m: Mutex, i: nat, ok: bool): Mutex {
    if !IsRunning(m.ops, i) then m
    else
      var key := m.ops[i].key;
      var remaining := (if key in m.inflight then m.inflight[key] else 1) - 1;
      var settled := m.(ops := WithState(m.ops, i, Settled(ok)));
      if remaining <= 0 then settled.(inflight := m.inflight - {key}, queues := m.queues - {key})
      else settled.(inflight := m.inflight[key := remaining])
  }

  function Cleared(m: Mutex): Mutex { m.(queues := map[], inflight := map[]) }

  datatype MutexEvent = Run(key: string) | TryRun(key: string) | Start(op: nat) | Settle(op: nat, ok: bool) | Clear

  function MutexNext(m: Mutex, e: MutexEvent): Mutex {
    match e
    case Run(key) => RunOp(m, key)
    case TryRun(key) => TryRunOp(m, key)
    case Start(i) => StartOp(m, i)
    case Settle(i, ok) => SettleOp(m, i, ok)
    case Clear => Cleared(m)
  }

  function MutexRun(m: Mutex, events: seq<MutexEvent>): Mutex
    decreases |events|
  {
    if events == [] then m else MutexNext(MutexRun(m, events[..|events| - 1]), events[|events| - 1])
  }

  class DeviceMutex {
    var queues: map<string, nat>
    var inflight: map<string, int>
    var ops: seq<Op>

    ghost function Model(): Mutex
      reads this
    {
      Mutex(queues, inflight, ops)
    }

    constructor ()
      ensures Model() == FreshMutex
    {
      queues, inflight, ops := map[], map[], [];
    }

    method Enqueue(key: string) returns (next: nat)
      modifies this
      ensures Model() == RunOp(old(Model()), key) && next == |old(ops)|
    {
      next := |ops|;
      ops := ops + [Op(key, if key in queues then Some(queues[key]) else None, Waiting)];
      queues := queues[key := next];
    }

    method IsLocked(key: string) returns (locked: bool)
      ensures locked == Locked(Model(), key)
    {
      locked := key in queues || (key in inflight && inflight[key] > 0);
    }

    /** `tryRun`: None stands for the null result. */
    method TryEnqueue(key: string) returns (next: Option<nat>)
      modifies this
      ensures Model() == TryRunOp(old(Model()), key)
      ensures next.None? <==> key in old(queues) || (key in old(inflight) && old(inflight)[key] > 0)
      ensures next.None? ==> Model() == old(Model())
      ensures next.Some? ==> next.value == |old(ops)| && ops == old(ops) + [Op(key, None, Waiting)]
    {
      var locked := IsLocked(key);
      if locked { return None; }
      var i := Enqueue(key);
      next := Some(i);
    }

    method Begin(i: nat)
      requires MayStart(ops, i)
      modifies this
      ensures Model() == StartOp(old(Model()), i) && IsRunning(ops, i)
    {
      var key := ops[i].key;
      inflight := inflight[key := (if key in inflight then inflight[key] else 0) + 1];
      ops := WithState(ops, i, Running);
    }

    method Finish(i: nat, ok: bool)
      requires IsRunning(ops, i)
      modifies this
      ensures Model() == SettleOp(old(Model()), i, ok) && !Outstanding(ops, i)
    {
      var key := ops[i].key;
      var remaining := (if key in inflight then inflight[key] else 1) - 1;
      ops := WithState(ops, i, Settled(ok));
      if remaining <= 0 {
        inflight := inflight - {key};
        queues := queues - {key};
      } else {
        inflight := inflight[key := remaining];
      }
    }

    method ClearAll()
      modifies this
      ensures Model() == Cleared(old(Model()))
    {
      queues, inflight := map[], map[];
    }
  }

  // ---------- the in-flight counter ----------

  function Running01(o: Op, key: string): nat { if o.key == key && o.state == Running then 1 else 0 }

  /** The operations of a key between start and settlement. */
  function RunningOn(ops: seq<Op>, key: string): nat
    decreases |ops|
  {
    if ops == [] then 0 else RunningOn(ops[..|ops| - 1], key) + Running01(ops[|ops| - 1], key)
  }

  lemma {:induction false} RunningUpdate(ops: seq<Op>, i: nat, s: OpState, key: string)
    requires i < |ops|
    ensures RunningOn(WithState(ops, i, s), key)
        == RunningOn(ops, key) - Running01(ops[i], key) + Running01(ops[i].(state := s), key)
    decreases |ops|
  {
    var n := |ops| - 1;
    var after := WithState(ops, i, s);
    if i < n {
      RunningUpdate(ops[..n], i, s, key);
      assert after[..n] == WithState(ops[..n], i, s);
    } else {
      assert after[..n] == ops[..n];
    }
  }

  lemma {:induction false} RunningPositive(ops: seq<Op>, i: nat)
    requires IsRunning(ops, i)
    ensures RunningOn(ops, ops[i].key) >= 1
    decreases |ops|
  {
    if i < |ops| - 1 { RunningPositive(ops[..|ops| - 1], i); }
  }

  /** The counter of every key is the number of its operations between start and settlement. */
  ghost predicate Counted(m: Mutex) {
    forall key :: Count(m.inflight, key) == RunningOn(m.ops, key) && (key in m.inflight ==> m.inflight[key] > 0)
  }

  lemma CountedRun(m: Mutex, key: string)
    requires Counted(m)
    ensures Counted(RunOp(m, key))
  {
    assert RunOp(m, key).ops[..|m.ops|] == m.ops;
  }

  lemma CountedStart(m: Mutex, i: nat)
    requires Counted(m) && MayStart(m.ops, i)
    ensures Counted(StartOp(m, i))
  {
    hide WithState, RunningOn;
    forall key
      ensures RunningOn(StartOp(m, i).ops, key) == RunningOn(m.ops, key) + if key == m.ops[i].key then 1 else 0
    {
      RunningUpdate(m.ops, i, Running, key);
    }
  }

  lemma CountedSettle(m: Mutex, i: nat, ok: bool)
    requires Counted(m) && IsRunning(m.ops, i)
    ensures Counted(SettleOp(m, i, ok))
  {
    hide WithState, RunningOn;
    RunningPositive(m.ops, i);
    forall key
      ensures RunningOn(SettleOp(m, i, ok).ops, key) == RunningOn(m.ops, key) - if key == m.ops[i].key then 1 else 0
    {
      RunningUpdate(m.ops, i, Settled(ok), key);
    }
  }

  lemma CountedNext(m: Mutex, e: MutexEvent)
    requires Counted(m) && !e.Clear?
    ensures Counted(MutexNext(m, e))
  {
    match e
    case Run(k) => CountedRun(m, k);
    case TryRun(k) => CountedRun(m, k);
    case Start(i) => if MayStart(m.ops, i) { CountedStart(m, i); }
    case Settle(i, ok) => if IsRunning(m.ops, i) { CountedSettle(m, i, ok); }
  }

  predicate NoClear(events: seq<MutexEvent>) { forall i :: 0 <= i < |events| ==> !events[i].Clear? }

  lemma {:induction false} CountedAlways(events: seq<MutexEvent>)
    requires NoClear(events)
    ensures Counted(MutexRun(FreshMutex, events))
    decreases |events|
  {
    if events != [] {
      CountedAlways(events[..|events| - 1]);
      CountedNext(MutexRun(FreshMutex, events[..|events| - 1]), events[|events| - 1]);
    }
  }

  /** Without `clear`, in every interleaving, the counter is exact and `tryRun` refuses whenever an operation
      of its key runs. */
  lemma CounterIsExact(events: seq<MutexEvent>, key: string)
    requires NoClear(events)
    ensures var m := MutexRun(FreshMutex, events);
            && Count(m.inflight, key) == RunningOn(m.ops, key)
            && (forall i: nat :: IsRunning(m.ops, i) && m.ops[i].key == key ==> TryRunOp(m, key) == m)
  {
    CountedAlways(events);
    var m := MutexRun(FreshMutex, events);
    forall i: nat | IsRunning(m.ops, i) && m.ops[i].key == key
      ensures TryRunOp(m, key) == m
    {
      RunningPositive(m.ops, i);
    }
  }

  // ---------- nothing blocks ----------

  predicate OutstandingOn(ops: seq<Op>, key: string, i: nat) { Outstanding(ops, i) && ops[i].key == key }

  ghost predicate WellFormed(m: Mutex) {
    && WellChained(m.ops)
    && (forall key :: key in m.queues ==> m.queues[key] < |m.ops| && m.ops[m.queues[key]].key == key)
  }

  lemma WellFormedNext(m: Mutex, e: MutexEvent)
    requires WellFormed(m)
    ensures WellFormed(MutexNext(m, e))
  {
  }

  lemma {:induction false} WellFormedAlways(events: seq<MutexEvent>)
    ensures WellFormed(MutexRun(FreshMutex, events))
    decreases |events|
  {
    if events != [] {
      WellFormedAlways(events[..|events| - 1]);
      WellFormedNext(MutexRun(FreshMutex, events[..|events| - 1]), events[|events| - 1]);
    }
  }

  lemma SomeMoves(ops: seq<Op>, i: nat) returns (first: nat)
    requires WellChained(ops) && Outstanding(ops, i)
    ensures first <= i && OutstandingOn(ops, ops[i].key, first) && Moves(ops, first)
  {
    first := FirstOutstanding(ops, i);
    FirstOutstandingMoves(ops, first);
  }

  /** In every interleaving, `clear` included, some operation of each busy key is running or may start. */
  lemma NothingBlocks(events: seq<MutexEvent>, ops: seq<Op>, i: nat)
    requires ops == MutexRun(FreshMutex, events).ops && Outstanding(ops, i)
    ensures exists first: nat :: first <= i && OutstandingOn(ops, ops[i].key, first) && Moves(ops, first)
  {
    WellFormedAlways(events);
    var first := SomeMoves(ops, i);
  }

  // ---------- mutual exclusion ----------

  /** Of two outstanding operations of a key, the later one is chained on an outstanding one not before the earlier. */
  ghost predicate ChainedAfter(ops: seq<Op>, i: nat, j: nat) {
    j < |ops| && ops[j].pred.Some? && i <= ops[j].pred.value && Outstanding(ops, ops[j].pred.value)
  }

  ghost predicate OneChain(ops: seq<Op>) {
    forall i: nat, j: nat :: i < j < |ops| && Outstanding(ops, j) && OutstandingOn(ops, ops[j].key, i) ==>
        ChainedAfter(ops, i, j)
  }

  ghost predicate TailsAreLast(m: Mutex) {
    forall key :: key in m.queues ==>
      Outstanding(m.ops, m.queues[key]) && forall i: nat :: OutstandingOn(m.ops, key, i) ==> i <= m.queues[key]
  }

  /** The outstanding operations of a key form one chain, and a stored tail is its last one. */
  ghost predicate Serial(m: Mutex) {
    WellFormed(m) && Counted(m) && OneChain(m.ops) && TailsAreLast(m)
  }

  /** Nothing runs, or may start, while an earlier operation of its key is outstanding. */
  ghost predicate InCallOrder(ops: seq<Op>) {
    forall i: nat, j: nat :: i < j < |ops| && OutstandingOn(ops, ops[j].key, i) ==>
        !IsRunning(ops, j) && !MayStart(ops, j)
  }

  /** What runs or may start has no earlier outstanding operation on its key: exclusion, and start in call order. */
  lemma SerialMeaning(m: Mutex)
    requires Serial(m)
    ensures Exclusive(m.ops)
    ensures InCallOrder(m.ops)
  {
    forall i: nat, j: nat | i < j < |m.ops| && OutstandingOn(m.ops, m.ops[j].key, i) && Outstanding(m.ops, j)
      ensures !IsRunning(m.ops, j) && !MayStart(m.ops, j)
    {
      assert ChainedAfter(m.ops, i, j);
    }
    assert forall i: nat :: IsRunning(m.ops, i) ==> OutstandingOn(m.ops, m.ops[i].key, i);
  }

  lemma {:induction false} NoneRunning(ops: seq<Op>, key: string)
    requires forall i: nat :: IsRunning(ops, i) ==> ops[i].key != key
    ensures RunningOn(ops, key) == 0
    decreases |ops|
  {
    if ops != [] {
      var n := |ops| - 1;
      forall i: nat | IsRunning(ops[..n], i) ensures ops[..n][i].key != key { assert IsRunning(ops, i); }
      NoneRunning(ops[..n], key);
      assert ops[n].state == Running ==> IsRunning(ops, n);
    }
  }

  lemma {:induction false} AtMostOneRunning(ops: seq<Op>, key: string)
    requires Exclusive(ops)
    ensures RunningOn(ops, key) <= 1
    decreases |ops|
  {
    if ops != [] {
      var n := |ops| - 1;
      forall i: nat | IsRunning(ops[..n], i) ensures IsRunning(ops, i) && ops[..n][i] == ops[i] { }
      if ops[n].key == key && IsRunning(ops, n) {
        NoneRunning(ops[..n], key);
      } else {
        AtMostOneRunning(ops[..n], key);
      }
    }
  }

  /** Nothing is outstanding on the key. */
  ghost predicate Idle(m: Mutex, key: string) { forall i: nat :: !OutstandingOn(m.ops, key, i) }

  /** A call is safe when its key has a stored tail, or no outstanding operation. */
  ghost predicate SafeToRun(m: Mutex, key: string) {
    key in m.queues || Idle(m, key)
  }

  ghost predicate SafeEvent(m: Mutex, e: MutexEvent) {
    match e
    case Run(key) => SafeToRun(m, key)
    case TryRun(key) => Locked(m, key) || SafeToRun(m, key)
    case Start(_) => true
    case Settle(_, _) => true
    case Clear => false
  }

  lemma RunKeepsChain(m: Mutex, key: string)
    requires OneChain(m.ops) && TailsAreLast(m) && WellFormed(m) && SafeToRun(m, key)
    ensures OneChain(RunOp(m, key).ops)
  {
    var ops' := RunOp(m, key).ops;
    hide WellChained;
    forall i: nat, j: nat | i < j < |ops'| && Outstanding(ops', j) && OutstandingOn(ops', ops'[j].key, i)
      ensures ChainedAfter(ops', i, j)
    {
      assert OutstandingOn(m.ops, ops'[j].key, i);
      if j < |m.ops| { assert ChainedAfter(m.ops, i, j); }
    }
  }

  lemma RunKeepsTails(m: Mutex, key: string)
    requires TailsAreLast(m)
    ensures TailsAreLast(RunOp(m, key))
  {
    var m' := RunOp(m, key);
    forall k | k in m'.queues
      ensures Outstanding(m'.ops, m'.queues[k]) && forall i: nat :: OutstandingOn(m'.ops, k, i) ==> i <= m'.queues[k]
    {
      if k != key {
        assert forall i: nat :: OutstandingOn(m'.ops, k, i) ==> OutstandingOn(m.ops, k, i);
      }
    }
  }

  lemma SerialRun(m: Mutex, key: string)
    requires Serial(m) && SafeToRun(m, key)
    ensures Serial(RunOp(m, key))
  {
    CountedNext(m, Run(key));
    WellFormedNext(m, Run(key));
    RunKeepsChain(m, key);
    RunKeepsTails(m, key);
    hide Counted, WellFormed, OneChain, TailsAreLast;
  }

  lemma SameOutstanding(ops: seq<Op>, ops': seq<Op>)
    requires OneChain(ops) && |ops'| == |ops|
    requires forall i: nat :: i < |ops| ==>
        ops'[i].key == ops[i].key && ops'[i].pred == ops[i].pred && (Outstanding(ops', i) <==> Outstanding(ops, i))
    ensures OneChain(ops')
  {
    forall i: nat, j: nat | i < j < |ops'| && Outstanding(ops', j) && OutstandingOn(ops', ops'[j].key, i)
      ensures ChainedAfter(ops', i, j)
    {
      assert OutstandingOn(ops, ops[j].key, i) && ChainedAfter(ops, i, j);
      assert Outstanding(ops, ops[j].pred.value);
    }
  }

  lemma SerialStart(m: Mutex, i: nat)
    requires Serial(m)
    ensures Serial(StartOp(m, i))
  {
    CountedNext(m, Start(i));
    WellFormedNext(m, Start(i));
    if MayStart(m.ops, i) {
      var ops' := StartOp(m, i).ops;
      assert forall k: nat :: Outstanding(ops', k) <==> Outstanding(m.ops, k);
      SameOutstanding(m.ops, ops');
      assert forall k: nat, key :: OutstandingOn(ops', key, k) <==> OutstandingOn(m.ops, key, k);
    }
  }

  /** In a serial mutex the settling operation is the only one in flight, so the tail is always dropped. */
  lemma SettleDropsTail(m: Mutex, i: nat, ok: bool)
    requires Serial(m) && IsRunning(m.ops, i)
    ensures m.ops[i].key !in SettleOp(m, i, ok).queues
  {
    SerialMeaning(m);
    AtMostOneRunning(m.ops, m.ops[i].key);
  }

  lemma SettleKeepsChain(m: Mutex, i: nat, ok: bool)
    requires WellChained(m.ops) && OneChain(m.ops) && InCallOrder(m.ops) && IsRunning(m.ops, i)
    ensures OneChain(SettleOp(m, i, ok).ops)
  {
    var ops := m.ops;
    var ops' := SettleOp(m, i, ok).ops;
    assert forall k: nat :: Outstanding(ops', k) <==> Outstanding(ops, k) && k != i;
    forall a: nat, b: nat | a < b < |ops'| && Outstanding(ops', b) && OutstandingOn(ops', ops'[b].key, a)
      ensures ChainedAfter(ops', a, b)
    {
      assert OutstandingOn(ops, ops[b].key, a) && ChainedAfter(ops, a, b);
      assert OutstandingOn(ops, ops[ops[b].pred.value].key, a);
    }
  }

  lemma SettleKeepsTails(m: Mutex, i: nat, ok: bool)
    requires TailsAreLast(m) && IsRunning(m.ops, i) && m.ops[i].key !in SettleOp(m, i, ok).queues
    requires forall key :: key in m.queues ==> m.queues[key] < |m.ops| && m.ops[m.queues[key]].key == key
    ensures TailsAreLast(SettleOp(m, i, ok))
  {
    var m' := SettleOp(m, i, ok);
    assert forall k: nat :: Outstanding(m'.ops, k) <==> Outstanding(m.ops, k) && k != i;
    forall key | key in m'.queues
      ensures Outstanding(m'.ops, m'.queues[key])
      ensures forall k: nat :: OutstandingOn(m'.ops, key, k) ==> k <= m'.queues[key]
    {
      assert key in m.queues && m'.queues[key] == m.queues[key];
      forall k: nat | OutstandingOn(m'.ops, key, k) ensures k <= m'.queues[key] { assert OutstandingOn(m.ops, key, k); }
    }
  }

  lemma SerialSettle(m: Mutex, i: nat, ok: bool)
    requires Serial(m)
    ensures Serial(SettleOp(m, i, ok))
  {
    hide Counted, OneChain, InCallOrder, TailsAreLast, SettleOp, WellChained;
    if IsRunning(m.ops, i) {
      CountedNext(m, Settle(i, ok));
      WellFormedNext(m, Settle(i, ok));
      SettleDropsTail(m, i, ok);
      SerialMeaning(m);
      SettleKeepsChain(m, i, ok);
      SettleKeepsTails(m, i, ok);
    } else {
      NothingSettles(m, i, ok);
    }
  }

  lemma NothingSettles(m: Mutex, i: nat, ok: bool)
    requires !IsRunning(m.ops, i)
    ensures SettleOp(m, i, ok) == m
  {
  }

  lemma SerialNext(m: Mutex, e: MutexEvent)
    requires Serial(m) && SafeEvent(m, e)
    ensures Serial(MutexNext(m, e))
  {
    match e
    case Run(key) => SerialRun(m, key);
    case TryRun(key) => if !Locked(m, key) { SerialRun(m, key); }
    case Start(i) => SerialStart(m, i);
    case Settle(i, ok) => SerialSettle(m, i, ok);
    case Clear =>
  }

  ghost predicate SafeRun(m: Mutex, events: seq<MutexEvent>)
    decreases |events|
  {
    events == [] ||
    var before := events[..|events| - 1];
    SafeRun(m, before) && SafeEvent(MutexRun(m, before), events[|events| - 1])
  }

  lemma {:induction false} SerialAlways(m: Mutex, events: seq<MutexEvent>)
    requires Serial(m) && SafeRun(m, events)
    ensures Serial(MutexRun(m, events))
    decreases |events|
  {
    if events != [] {
      SerialAlways(m, events[..|events| - 1]);
      SerialNext(MutexRun(m, events[..|events| - 1]), events[|events| - 1]);
    }
  }

  /** On a run of safe calls the mutex does its job: one operation per key at a time, in call order. */
  lemma SafeRunsAreExclusive(events: seq<MutexEvent>)
    requires SafeRun(FreshMutex, events)
    ensures var ops := MutexRun(FreshMutex, events).ops;
            Exclusive(ops) && InCallOrder(ops)
  {
    assert Serial(FreshMutex);
    SerialAlways(FreshMutex, events);
    SerialMeaning(MutexRun(FreshMutex, events));
  }

  // ---------- the guard is exact ----------

  /** Only what is already called goes on. */
  predicate Quiet(events: seq<MutexEvent>) { forall i :: 0 <= i < |events| ==> events[i].Start? || events[i].Settle? }

  lemma {:induction false} QuietIsSafe(m: Mutex, events: seq<MutexEvent>)
    requires Quiet(events)
    ensures SafeRun(m, events)
    decreases |events|
  {
    if events != [] { QuietIsSafe(m, events[..|events| - 1]); }
  }

  /** Two operations of the key then run together, with no further call. */
  lemma UnsafeCallBreaks(m: Mutex, key: string) returns (events: seq<MutexEvent>)
    requires Serial(m) && !SafeToRun(m, key)
    ensures Quiet(events) && !Exclusive(MutexRun(RunOp(m, key), events).ops)
  {
    var i: nat :| OutstandingOn(m.ops, key, i);
    var first := FirstOutstanding(m.ops, i);
    FirstOutstandingMoves(m.ops, first);
    var m1, n := RunOp(m, key), |m.ops|;
    var m2 := StartOp(m1, first);
    var m3 := StartOp(m2, n);
    events := [Start(first), Start(n)];
    assert events[..1] == [Start(first)] && [Start(first)][..0] == [];
    assert MutexRun(m1, []) == m1;
    assert MutexRun(m1, events) == m3;
    assert IsRunning(m3.ops, first) && IsRunning(m3.ops, n);
  }

  /** From a state where the mutex has served its keys one at a time, a call keeps it so whatever starts and
      settles afterwards exactly when a tail is stored for its key or nothing is outstanding on it. */
  lemma CallIsSafeExactly(m: Mutex, key: string)
    requires Serial(m)
    ensures SafeToRun(m, key) <==> forall events :: Quiet(events) ==> Exclusive(MutexRun(RunOp(m, key), events).ops)
  {
    if SafeToRun(m, key) {
      SerialRun(m, key);
      forall events | Quiet(events) ensures Exclusive(MutexRun(RunOp(m, key), events).ops) {
        QuietIsSafe(RunOp(m, key), events);
        SerialAlways(RunOp(m, key), events);
        SerialMeaning(MutexRun(RunOp(m, key), events));
      }
    } else {
      var events := UnsafeCallBreaks(m, key);
    }
  }

  // ---------- the guard in the callers' terms ----------

  /** Some operation of the key has settled since the key last had nothing outstanding. */
  ghost predicate SettledSinceIdle(events: seq<MutexEvent>, key: string)
    decreases |events|
  {
    events != [] && !Idle(MutexRun(FreshMutex, events), key) &&
    var before, e := events[..|events| - 1], events[|events| - 1];
    var m := MutexRun(FreshMutex, before);
    SettledSinceIdle(before, key) || (e.Settle? && IsRunning(m.ops, e.op) && m.ops[e.op].key == key)
  }

  lemma SettleChangesTail(m: Mutex, i: nat, ok: bool, key: string)
    requires Serial(m)
    ensures IsRunning(m.ops, i) && m.ops[i].key == key ==> key !in SettleOp(m, i, ok).queues
    ensures !(IsRunning(m.ops, i) && m.ops[i].key == key) ==> (key in SettleOp(m, i, ok).queues <==> key in m.queues)
    ensures !(IsRunning(m.ops, i) && m.ops[i].key == key) ==> (Idle(SettleOp(m, i, ok), key) <==> Idle(m, key))
  {
    if IsRunning(m.ops, i) && m.ops[i].key == key { SettleDropsTail(m, i, ok); }
    var ops' := SettleOp(m, i, ok).ops;
    assert forall k: nat :: OutstandingOn(ops', key, k) ==> OutstandingOn(m.ops, key, k);
    assert forall k: nat :: OutstandingOn(m.ops, key, k) && k != i ==> OutstandingOn(ops', key, k);
  }

  lemma RunSetsTail(m: Mutex, k: string, key: string)
    ensures key in RunOp(m, k).queues <==> key == k || key in m.queues
    ensures Idle(RunOp(m, k), key) <==> key != k && Idle(m, key)
  {
    var ops' := RunOp(m, k).ops;
    assert OutstandingOn(ops', k, |m.ops|);
    assert forall i: nat :: OutstandingOn(m.ops, key, i) ==> OutstandingOn(ops', key, i);
    assert forall i: nat :: OutstandingOn(ops', key, i) && i < |m.ops| ==> OutstandingOn(m.ops, key, i);
  }

  lemma StartKeepsTail(m: Mutex, i: nat, key: string)
    ensures key in StartOp(m, i).queues <==> key in m.queues
    ensures Idle(StartOp(m, i), key) <==> Idle(m, key)
  {
    var ops' := StartOp(m, i).ops;
    assert forall k: nat :: OutstandingOn(ops', key, k) <==> OutstandingOn(m.ops, key, k);
  }

  lemma {:induction false} TailMeansNoneSettled(events: seq<MutexEvent>, key: string)
    requires SafeRun(FreshMutex, events)
    ensures var m := MutexRun(FreshMutex, events); key in m.queues <==> !Idle(m, key) && !SettledSinceIdle(events, key)
    decreases |events|
  {
    if events != [] {
      var before, e := events[..|events| - 1], events[|events| - 1];
      var m := MutexRun(FreshMutex, before);
      TailMeansNoneSettled(before, key);
      assert Serial(FreshMutex);
      SerialAlways(FreshMutex, before);
      hide Serial, Idle, OutstandingOn, IsRunning, MayStart, RunOp, StartOp, SettleOp;
      match e
      case Run(k) => RunSetsTail(m, k, key);
      case TryRun(k) => RunSetsTail(m, k, key);
      case Start(i) => StartKeepsTail(m, i, key);
      case Settle(i, ok) => SettleChangesTail(m, i, ok, key);
      case Clear =>
    }
  }

  /** A call is safe exactly when its key has nothing outstanding, or no operation of it has settled since it
      last had nothing outstanding. */
  lemma SafeInCallersTerms(events: seq<MutexEvent>, key: string)
    requires SafeRun(FreshMutex, events)
    ensures var m := MutexRun(FreshMutex, events); SafeToRun(m, key) <==> Idle(m, key) || !SettledSinceIdle(events, key)
  {
    TailMeansNoneSettled(events, key);
    hide SettledSinceIdle, MutexRun;
  }

  // ---------- when tryRun runs ----------

  lemma {:induction false} SomeRunning(ops: seq<Op>, key: string) returns (i: nat)
    requires RunningOn(ops, key) > 0
    ensures IsRunning(ops, i) && ops[i].key == key
    decreases |ops|
  {
    var n := |ops| - 1;
    if Running01(ops[n], key) == 1 { i := n; } else { i := SomeRunning(ops[..n], key); }
  }

  /** The key has a stored tail only while something of it is outstanding. */
  ghost predicate TailHasWork(m: Mutex, key: string) {
    key in m.queues ==> exists i: nat :: OutstandingOn(m.ops, key, i)
  }

  lemma SettleLeavesWork(m: Mutex, i: nat, ok: bool, key: string)
    requires TailHasWork(m, key) && Counted(SettleOp(m, i, ok)) && IsRunning(m.ops, i)
    ensures TailHasWork(SettleOp(m, i, ok), key)
  {
    var m' := SettleOp(m, i, ok);
    if key in m'.queues {
      if key == m.ops[i].key {
        var j := SomeRunning(m'.ops, key);
        assert OutstandingOn(m'.ops, key, j);
      } else {
        var j: nat :| OutstandingOn(m.ops, key, j);
        assert OutstandingOn(m'.ops, key, j);
      }
    }
  }

  lemma {:induction false} TailsHaveWork(events: seq<MutexEvent>, key: string)
    requires NoClear(events)
    ensures TailHasWork(MutexRun(FreshMutex, events), key)
    decreases |events|
  {
    if events != [] {
      var before, e := events[..|events| - 1], events[|events| - 1];
      var m := MutexRun(FreshMutex, before);
      TailsHaveWork(before, key);
      CountedAlways(events);
      hide Counted, MutexRun;
      match e
      case Run(k) => RunSetsTail(m, k, key);
      case TryRun(k) => RunSetsTail(m, k, key);
      case Start(i) => StartKeepsTail(m, i, key);
      case Settle(i, ok) => if IsRunning(m.ops, i) { SettleLeavesWork(m, i, ok, key); }
    }
  }

  /** Without `clear`, in every interleaving: `tryRun` changes nothing when a tail is stored for the key or an
      operation of it runs, and otherwise adds one operation that may start at once. On a key with nothing
      outstanding it always does. */
  lemma TryRunExactly(events: seq<MutexEvent>, key: string)
    requires NoClear(events)
    ensures var m := MutexRun(FreshMutex, events);
            var m' := MutexNext(m, TryRun(key));
            var busy := key in m.queues || exists i: nat :: IsRunning(m.ops, i) && m.ops[i].key == key;
            && (busy ==> m' == m)
            && (!busy ==> m'.ops == m.ops + [Op(key, None, Waiting)] && m'.queues == m.queues[key := |m.ops|]
                          && m'.inflight == m.inflight)
            && ((forall i: nat :: i < |m.ops| && m.ops[i].key == key ==> m.ops[i].state.Settled?) ==> !busy)
  {
    CountedAlways(events);
    TailsHaveWork(events, key);
    hide MutexRun;
    var m := MutexRun(FreshMutex, events);
    if i: nat :| IsRunning(m.ops, i) && m.ops[i].key == key {
      RunningPositive(m.ops, i);
    } else if Count(m.inflight, key) > 0 {
      var i := SomeRunning(m.ops, key);
    }
    if key in m.queues {
      var i: nat :| OutstandingOn(m.ops, key, i);
      assert m.ops[i].key == key && !m.ops[i].state.Settled?;
    }
  }

  /** Without `clear`, in every interleaving: an operation that settles has its outcome, and the stored tail of its
      key is dropped exactly when nothing else of the key runs, whatever still waits behind it. */
  lemma SettleExactly(events: seq<MutexEvent>, i: nat, ok: bool)
    requires NoClear(events)
    ensures var m := MutexRun(FreshMutex, events);
            var m' := MutexNext(m, Settle(i, ok));
            if !IsRunning(m.ops, i) then m' == m
            else
              var key := m.ops[i].key;
              && m'.ops == m.ops[i := m.ops[i].(state := Settled(ok))]
              && m'.queues == (if exists j: nat :: j != i && IsRunning(m.ops, j) && m.ops[j].key == key then m.queues
                               else m.queues - {key})
              && m'.inflight - {key} == m.inflight - {key}
  {
    CountedAlways(events);
    hide MutexRun;
    var m := MutexRun(FreshMutex, events);
    if IsRunning(m.ops, i) { OthersKeepTheTail(m, i, ok); }
  }

  /** The counter that a settlement leaves is positive exactly if something else of its key runs. */
  lemma OthersKeepTheTail(m: Mutex, i: nat, ok: bool)
    requires Counted(m) && IsRunning(m.ops, i)
    ensures Count(m.inflight, m.ops[i].key) > 1 <==>
            exists j: nat :: j != i && IsRunning(m.ops, j) && m.ops[j].key == m.ops[i].key
    ensures Count(m.inflight, m.ops[i].key) >= 1
  {
    var key, ops' := m.ops[i].key, WithState(m.ops, i, Settled(ok));
    RunningPositive(m.ops, i);
    RunningUpdate(m.ops, i, Settled(ok), key);
    hide RunningOn;
    if j: nat :| j != i && IsRunning(m.ops, j) && m.ops[j].key == key {
      assert IsRunning(ops', j) && ops'[j].key == key;
      RunningPositive(ops', j);
    }
    if RunningOn(ops', key) > 0 {
      var j := SomeRunning(ops', key);
      assert j != i && IsRunning(m.ops, j) && m.ops[j].key == key;
    }
  }

  /** After a `clear` any `tryRun` is let in, even beside an operation that runs, and starts without waiting. */
  lemma ClearForgets(m: Mutex, key: string)
    ensures var m' := MutexNext(m, Clear);
            && m'.ops == m.ops && MutexNext(m', TryRun(key)).ops == m.ops + [Op(key, None, Waiting)]
            && MayStart(MutexNext(m', TryRun(key)).ops, |m.ops|)
  {
  }

  // ---------- no call is lost ----------

  /** The keys of the calls that were let in, in order: every `run`, and each `tryRun` that found no tail stored and
      nothing of its key running. */
  ghost function CallsOf(events: seq<MutexEvent>): seq<string>
    decreases |events|
  {
    if events == [] then []
    else
      var before := events[..|events| - 1];
      var m := MutexRun(FreshMutex, before);
      match events[|events| - 1]
      case Run(key) => CallsOf(before) + [key]
      case TryRun(key) =>
        if key in m.queues || exists i: nat :: IsRunning(m.ops, i) && m.ops[i].key == key then CallsOf(before)
        else CallsOf(before) + [key]
      case _ => CallsOf(before)
  }

  function KeysOf(ops: seq<Op>): seq<string> { seq(|ops|, i requires 0 <= i < |ops| => ops[i].key) }

  /** Every call that is let in becomes one operation of its key, in the order of the calls, and stays one: nothing
      but its own start and its own settlement changes it. */
  lemma {:induction false} EveryCallIsKept(events: seq<MutexEvent>)
    requires NoClear(events)
    ensures KeysOf(MutexRun(FreshMutex, events).ops) == CallsOf(events)
    decreases |events|
  {
    if events != [] {
      var before := events[..|events| - 1];
      var m := MutexRun(FreshMutex, before);
      EveryCallIsKept(before);
      match events[|events| - 1]
      case TryRun(key) => TryRunExactly(before, key);
      case _ =>
    }
  }

  // ---------- where exclusion is lost ----------

  lemma OneMore(events: seq<MutexEvent>, k: nat)
    requires k < |events|
    ensures MutexRun(FreshMutex, events[..k + 1]) == MutexNext(MutexRun(FreshMutex, events[..k]), events[k])
  {
    assert events[..k + 1][..k] == events[..k];
  }

  /** The first of two operations has settled: nothing is stored for the key, though the second still waits. */
  lemma TwoCallsOneDone(key: string)
    ensures MutexRun(FreshMutex, [Run(key), Run(key), Start(0), Settle(0, true)])
         == Mutex(map[], map[], [Op(key, None, Settled(true)), Op(key, Some(0), Waiting)])
  {
    var events := [Run(key), Run(key), Start(0), Settle(0, true)];
    OneMore(events, 0); OneMore(events, 1); OneMore(events, 2); OneMore(events, 3);
    assert events[..4] == events;
    var m2 := Mutex(map[key := 1], map[], [Op(key, None, Waiting), Op(key, Some(0), Waiting)]);
    assert MutexRun(FreshMutex, events[..2]).ops == m2.ops;
    hide MutexRun;
  }

  /** A call that arrives after the first of two has settled starts beside the second. */
  lemma LateCallRunsBeside(key: string)
    ensures !Exclusive(MutexRun(FreshMutex,
        [Run(key), Run(key), Start(0), Settle(0, true), Run(key), Start(1), Start(2)]).ops)
  {
    var events := [Run(key), Run(key), Start(0), Settle(0, true), Run(key), Start(1), Start(2)];
    TwoCallsOneDone(key);
    OneMore(events, 4); OneMore(events, 5); OneMore(events, 6);
    assert events[..4] == [Run(key), Run(key), Start(0), Settle(0, true)];
    hide MutexRun;
    assert events[..7] == events;
    var ops := MutexRun(FreshMutex, events).ops;
    assert IsRunning(ops, 1) && IsRunning(ops, 2);
  }

  /** So does a call that arrives after a `clear` made while an operation runs. */
  lemma ClearLetsACallBeside(key: string)
    ensures !Exclusive(MutexRun(FreshMutex, [Run(key), Start(0), Clear, Run(key), Start(1)]).ops)
  {
    var events := [Run(key), Start(0), Clear, Run(key), Start(1)];
    OneMore(events, 0); OneMore(events, 1); OneMore(events, 2); OneMore(events, 3); OneMore(events, 4);
    assert events[..5] == events;
    var ops := MutexRun(FreshMutex, events).ops;
    assert IsRunning(ops, 0) && IsRunning(ops, 1);
  }
}
