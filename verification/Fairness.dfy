/** No starvation: an order in line moves up by one at every dequeue of its robot, whatever is put behind it,
    so a PUT behind any number of blocked PICKs gets its turn. */
module Fairness {
  import opened Sequences
  import opened Domain
  import opened Queues
  import opened Orchestrator
  import opened NoLostOrders
  import opened RobotLoop

  // ---------- places in line ----------

  /** How many ids stand before the first x. */
  function Place(s: seq<OrderId>, x: OrderId): nat
    requires x in s
  {
    if s[0] == x then 0 else 1 + Place(s[1..], x)
  }

  lemma {:induction false} PlaceAppend(s: seq<OrderId>, t: seq<OrderId>, x: OrderId)
    requires x in s
    ensures x in s + t && Place(s + t, x) == Place(s, x)
  {
    if s[0] != x {
      PlaceAppend(s[1..], t, x);
      assert (s + t)[1..] == s[1..] + t;
    }
  }

  lemma {:induction false} PlaceWithout(s: seq<OrderId>, y: OrderId, x: OrderId)
    requires x in s && x != y
    ensures x in Without(s, y) && Place(Without(s, y), x) <= Place(s, x)
  {
    if s[0] == x {
    } else {
      PlaceWithout(s[1..], y, x);
      assert Without(s, y) == (if s[0] != y then [s[0]] else []) + Without(s[1..], y);
      if s[0] != y { assert ([s[0]] + Without(s[1..], y))[1..] == Without(s[1..], y); }
    }
  }

  // ---------- one action ----------

  function Line(w: World, r: RobotId): seq<OrderId> { QueueOf(w.queues, r).items }

  /** This action takes the head of r's queue. */
  predicate Dequeues(w: World, r: RobotId, a: Action) {
    a == DoLoop(r) && r !in w.inStep && QueueOf(w.queues, r).active.None? && NextOrder(w, r).Some?
  }

  /** The order gets its turn, or is canceled, by this action. */
  predicate Leaves(w: World, r: RobotId, id: OrderId, a: Action) {
    (Dequeues(w, r, a) && NextOrder(w, r) == Some(id)) || a == DoCancel(id)
  }

  /** How an action changes r's line: at most one dequeue, one removal, one append. */
  lemma LineAfter(w: World, r: RobotId, a: Action)
    requires !a.DoRestart?
    ensures var s := if Dequeues(w, r, a) then Line(w, r)[1..] else Line(w, r);
            || (a.DoCancel? && Line(Next(w, a), r) == Without(s, a.id))
            || s <= Line(Next(w, a), r)
  {
    hide SubmitStore, CancelStore, RetryStore, Snapshot, Release, LoopStep, StepEnd;
    match a
    case DoLoop(q) => LoopLine(w, q, r);
    case DoStepEnd(q, replies) => StepEndLine(w, q, replies, r);
    case _ =>
  }

  lemma LoopLine(w: World, q: RobotId, r: RobotId)
    ensures (if Dequeues(w, r, DoLoop(q)) then Line(w, r)[1..] else Line(w, r)) <= Line(LoopStep(w, q), r)
  {
    if q !in w.inStep && NextOrder(w, q).Some? {
      var id := NextOrder(w, q).value;
      LoopStepIs(w, q, id);
      TakeNextLine(w, q, id, r);
      hide LoopStep, TakeNext, NextOrder, Settle, ProcessStore, Line;
      SettleLine(TakeNext(w, q, id), q, id, ProcessStore(w.store, id), r);
    } else {
      hide ProcessOrder;
    }
  }

  lemma TakeNextLine(w: World, q: RobotId, id: OrderId, r: RobotId)
    requires q !in w.inStep && NextOrder(w, q) == Some(id)
    ensures Line(TakeNext(w, q, id), r) == if Dequeues(w, r, DoLoop(q)) then Line(w, r)[1..] else Line(w, r)
  {
  }

  lemma SettleLine(w: World, q: RobotId, id: OrderId, p: Processed, r: RobotId)
    ensures Line(w, r) <= Line(Settle(w, q, id, p), r)
  {
    hide Snapshot;
  }

  lemma StepEndLine(w: World, q: RobotId, replies: seq<StepReply>, r: RobotId)
    ensures Line(StepEnd(w, q, replies), r) == Line(w, r)
  {
    hide RunStep, TicketCode, StepDoneStore, StepFailedStore, Snapshot;
  }

  lemma LineMoves(w: World, r: RobotId, id: OrderId, a: Action)
    requires id in Line(w, r) && !a.DoRestart? && !Leaves(w, r, id, a)
    ensures id in Line(Next(w, a), r)
    ensures Place(Line(Next(w, a), r), id) + (if Dequeues(w, r, a) then 1 else 0) <= Place(Line(w, r), id)
  {
    LineAfter(w, r, a);
    var s := if Dequeues(w, r, a) then Line(w, r)[1..] else Line(w, r);
    var t := Line(Next(w, a), r);
    assert Dequeues(w, r, a) ==> Line(w, r)[0] != id;
    hide Next, LoopStep;
    if a.DoCancel? && t == Without(s, a.id) {
      PlaceWithout(s, a.id, id);
    } else {
      PlaceAppend(s, t[|s|..], id);
      assert t == s + t[|s|..];
    }
  }

  // ---------- runs ----------

  function DequeueCount(w: World, r: RobotId, run: seq<Action>): nat
    decreases |run|
  {
    if run == [] then 0
    else var before := run[..|run| - 1];
         DequeueCount(w, r, before) + if Dequeues(Exec(w, before), r, run[|run| - 1]) then 1 else 0
  }

  /** At some point of the run the order got its turn or was canceled. */
  predicate Left(w: World, r: RobotId, id: OrderId, run: seq<Action>)
    decreases |run|
  {
    run != [] &&
    var before := run[..|run| - 1];
    Left(w, r, id, before) || Leaves(Exec(w, before), r, id, run[|run| - 1])
  }

  predicate NoRestart(run: seq<Action>) { forall i :: 0 <= i < |run| ==> !run[i].DoRestart? }

  lemma {:induction false} LineMovesUp(w: World, r: RobotId, id: OrderId, run: seq<Action>)
    requires id in Line(w, r) && NoRestart(run)
    ensures Left(w, r, id, run) ||
            (id in Line(Exec(w, run), r)
             && Place(Line(Exec(w, run), r), id) + DequeueCount(w, r, run) <= Place(Line(w, r), id))
    decreases |run|
  {
    if run != [] {
      var before, a := run[..|run| - 1], run[|run| - 1];
      LineMovesUp(w, r, id, before);
      if !Left(w, r, id, run) { LineMoves(Exec(w, before), r, id, a); }
    }
  }

  /** Over any run without a restart, an order standing behind k others has had its turn, or was canceled,
      by the time its robot has dequeued more than k times. */
  lemma NoStarvation(w: World, r: RobotId, id: OrderId, run: seq<Action>)
    requires id in Line(w, r) && NoRestart(run)
    requires DequeueCount(w, r, run) > Place(Line(w, r), id)
    ensures Left(w, r, id, run)
  {
    LineMovesUp(w, r, id, run);
  }

  lemma {:induction false} CountAppend(w: World, r: RobotId, a: seq<Action>, b: seq<Action>)
    ensures DequeueCount(w, r, a + b) == DequeueCount(w, r, a) + DequeueCount(Exec(w, a), r, b)
    decreases |b|
  {
    if b == [] {
      assert a + b == a;
    } else {
      var c := b[..|b| - 1];
      assert (a + b)[..|a + b| - 1] == a + c;
      CountAppend(w, r, a, c);
      ExecAfter(w, a, c);
      hide Dequeues, Exec;
    }
  }

  lemma {:induction false} LeftAppend(w: World, r: RobotId, id: OrderId, a: seq<Action>, b: seq<Action>)
    ensures Left(w, r, id, a + b) <==> Left(w, r, id, a) || Left(Exec(w, a), r, id, b)
    decreases |b|
  {
    if b == [] {
      assert a + b == a;
    } else {
      var c := b[..|b| - 1];
      assert (a + b)[..|a + b| - 1] == a + c;
      LeftAppend(w, r, id, a, c);
      ExecAfter(w, a, c);
      hide Leaves, Exec;
    }
  }

  // ---------- dispatches ----------

  /** A whole loop run of the robot, or an event from outside it. */
  datatype Event = Dispatch(feed: seq<seq<StepReply>>) | Outside(action: Action)

  /** Everything else but a restart may happen between the robot's loop runs. */
  predicate Between(r: RobotId, e: Event) { e.Outside? ==> e.action != DoLoop(r) && !e.action.DoRestart? }

  /** The robot's loop is not waiting, its queue is unpaused and nothing is active. */
  predicate Ready(w: World, r: RobotId) { QueueOf(w.queues, r).active.None? && !QueueOf(w.queues, r).paused }

  lemma {:induction false} DispatchKeeps(w: World, r: RobotId, feed: seq<seq<StepReply>>)
    requires Consistent(w) && r !in w.inStep
    ensures Consistent(RunToEnd(w, r, feed).world) && r !in RunToEnd(w, r, feed).world.inStep
    decreases |QueueOf(w.queues, r).items|, Remaining(w, r)
  {
    TurnKeeps(w, r, feed);
    var t := LoopTurn(w, r, feed);
    if !t.stops {
      TurnShrinks(w, r, feed);
      hide LoopTurn, Consistent;
      DispatchKeeps(t.world, r, t.feed);
    }
  }

  lemma LoopWaits(w: World, q: RobotId, r: RobotId)
    requires q != r && r !in w.inStep
    ensures r !in LoopStep(w, q).inStep
  {
    hide ProcessStore, Snapshot;
  }

  lemma StaysOutside(w: World, r: RobotId, a: Action)
    requires r !in w.inStep && a != DoLoop(r)
    ensures r !in Next(w, a).inStep
  {
    match a
    case DoLoop(q) => LoopWaits(w, q, r);
    case DoStepEnd(q, replies) => StepEndWaits(w, q, replies, r);
    case _ => hide SubmitStore, CancelStore, RetryStore, Snapshot, Rehydrated, Release, LoopStep, StepEnd;
  }

  lemma StepEndWaits(w: World, q: RobotId, replies: seq<StepReply>, r: RobotId)
    requires r !in w.inStep
    ensures r !in StepEnd(w, q, replies).inStep
  {
    hide RunStep, TicketCode, StepDoneStore, StepFailedStore, Snapshot;
  }

  lemma OutsideKeeps(w: World, r: RobotId, a: Action)
    requires Consistent(w) && r !in w.inStep && a != DoLoop(r)
    ensures Consistent(Next(w, a)) && r !in Next(w, a).inStep
  {
    NextConsistent(w, a);
    StaysOutside(w, r, a);
  }

  ghost function EventOutcome(w: World, r: RobotId, e: Event): (o: LoopOutcome)
    requires Consistent(w) && r !in w.inStep && Between(r, e)
    ensures Consistent(o.world) && r !in o.world.inStep
  {
    match e
    case Dispatch(feed) =>
      DispatchKeeps(w, r, feed);
      RunToEnd(w, r, feed)
    case Outside(a) =>
      OutsideKeeps(w, r, a);
      LoopOutcome(Next(w, a), [a])
  }

  /** The actions of the events, one after the other. */
  ghost function Flatten(w: World, r: RobotId, events: seq<Event>): seq<Action>
    requires Consistent(w) && r !in w.inStep && forall e :: e in events ==> Between(r, e)
    decreases |events|
  {
    if events == [] then []
    else var o := EventOutcome(w, r, events[0]); o.actions + Flatten(o.world, r, events[1..])
  }

  /** How many of the loop runs start on a ready robot. */
  ghost function ReadyDispatches(w: World, r: RobotId, events: seq<Event>): nat
    requires Consistent(w) && r !in w.inStep && forall e :: e in events ==> Between(r, e)
    decreases |events|
  {
    if events == [] then 0
    else
      var o := EventOutcome(w, r, events[0]);
      (if events[0].Dispatch? && Ready(w, r) then 1 else 0) + ReadyDispatches(o.world, r, events[1..])
  }

  lemma EventIsARun(w: World, r: RobotId, e: Event)
    requires Consistent(w) && r !in w.inStep && Between(r, e)
    ensures var o := EventOutcome(w, r, e); o.world == Exec(w, o.actions) && NoRestart(o.actions)
  {
    hide RunToEnd, Exec, Consistent, Next;
    match e
    case Dispatch(feed) =>
      LoopIsARun(w, r, feed);
    case Outside(a) =>
      ExecOne(w, a);
  }

  lemma FirstIsTheLoop(w: World, r: RobotId, feed: seq<seq<StepReply>>)
    requires Consistent(w) && r !in w.inStep
    ensures var actions := RunToEnd(w, r, feed).actions; |actions| >= 1 && actions[0] == DoLoop(r)
  {
    hide Consistent, LoopStep, StepEnd, ProcessStore, StopsAfter;
  }

  lemma CountOne(w: World, r: RobotId)
    ensures DequeueCount(w, r, [DoLoop(r)]) == if Dequeues(w, r, DoLoop(r)) then 1 else 0
  {
    assert [DoLoop(r)][..0] == [];
    assert Exec(w, []) == w;
    assert DequeueCount(w, r, []) == 0;
  }

  /** A loop run on a ready robot with a non-empty line dequeues at least once. */
  lemma DispatchDequeues(w: World, r: RobotId, feed: seq<seq<StepReply>>)
    requires Consistent(w) && r !in w.inStep && Ready(w, r) && Line(w, r) != []
    ensures DequeueCount(w, r, RunToEnd(w, r, feed).actions) >= 1
  {
    var actions := RunToEnd(w, r, feed).actions;
    FirstIsTheLoop(w, r, feed);
    assert actions == [DoLoop(r)] + actions[1..];
    CountAppend(w, r, [DoLoop(r)], actions[1..]);
    CountOne(w, r);
  }

  lemma {:induction false} DispatchesMoveTheLine(w: World, r: RobotId, id: OrderId, events: seq<Event>)
    requires Consistent(w) && r !in w.inStep && (forall e :: e in events ==> Between(r, e)) && id in Line(w, r)
    ensures Left(w, r, id, Flatten(w, r, events))
            || ReadyDispatches(w, r, events) <= DequeueCount(w, r, Flatten(w, r, events))
    decreases |events|
  {
    if events != [] {
      var o := EventOutcome(w, r, events[0]);
      var rest := Flatten(o.world, r, events[1..]);
      EventIsARun(w, r, events[0]);
      LeftAppend(w, r, id, o.actions, rest);
      CountAppend(w, r, o.actions, rest);
      LineMovesUp(w, r, id, o.actions);
      if events[0].Dispatch? && Ready(w, r) { DispatchDequeues(w, r, events[0].feed); }
      if !Left(w, r, id, o.actions) { DispatchesMoveTheLine(o.world, r, id, events[1..]); }
      hide Left, DequeueCount, EventOutcome, Exec, Consistent;
    }
  }

  /** An order behind k others is dequeued, or was canceled, after at most k + 1 loop runs that start on a
      ready robot, whatever else happens between them: submissions, retries and pauses included. */
  lemma TurnWithinDispatches(w: World, r: RobotId, id: OrderId, events: seq<Event>)
    requires Consistent(w) && r !in w.inStep && (forall e :: e in events ==> Between(r, e)) && id in Line(w, r)
    requires ReadyDispatches(w, r, events) > Place(Line(w, r), id)
    ensures Left(w, r, id, Flatten(w, r, events))
  {
    DispatchesMoveTheLine(w, r, id, events);
    FlattenNoRestart(w, r, events);
    if !Left(w, r, id, Flatten(w, r, events)) { LineMovesUp(w, r, id, Flatten(w, r, events)); }
  }

  lemma {:induction false} FlattenNoRestart(w: World, r: RobotId, events: seq<Event>)
    requires Consistent(w) && r !in w.inStep && (forall e :: e in events ==> Between(r, e))
    ensures NoRestart(Flatten(w, r, events))
    decreases |events|
  {
    if events != [] {
      EventIsARun(w, r, events[0]);
      FlattenNoRestart(EventOutcome(w, r, events[0]).world, r, events[1..]);
      hide EventOutcome, Exec, Consistent;
    }
  }

  // ---------- what a loop run leaves behind ----------

  /** The active order, if any, has a location in a module 00, for which there is no car command. */
  predicate IdleOrStuck(w: World, r: RobotId) {
    var active := QueueOf(w.queues, r).active;
    active.Some? ==> active.value in w.store.orders && !Commandable(w.store.orders[active.value])
  }

  lemma CrashMeansModuleZero(st: Store, id: OrderId)
    requires Keyed(st) && ProcessStore(st, id).effect == Crashed
    ensures id in ProcessStore(st, id).store.orders && !Commandable(ProcessStore(st, id).store.orders[id])
  {
    hide FindOccupiedBySource, AssignStore, Commandable;
  }

  lemma {:induction false} DispatchEndsIdle(w: World, r: RobotId, feed: seq<seq<StepReply>>)
    requires Consistent(w) && r !in w.inStep
    ensures IdleOrStuck(RunToEnd(w, r, feed).world, r)
    decreases |QueueOf(w.queues, r).items|, Remaining(w, r)
  {
    var t := LoopTurn(w, r, feed);
    if t.stops {
      StopLeavesIdle(w, r, feed);
    } else {
      TurnKeeps(w, r, feed);
      TurnShrinks(w, r, feed);
      hide LoopTurn, Consistent, IdleOrStuck;
      DispatchEndsIdle(t.world, r, t.feed);
    }
  }

  lemma TicketIsRunning(w: World, r: RobotId, id: OrderId)
    requires Consistent(w) && r !in w.inStep && NextOrder(w, r) == Some(id) && r in LoopStep(w, r).inStep
    ensures LoopStep(w, r).inStep[r].status == InProgress
  {
    TakeNextKnown(w, r, id);
    ProcessPass(w.store, id);
    LoopStepIs(w, r, id);
    SettleSuspends(TakeNext(w, r, id), r, id, ProcessStore(w.store, id));
    hide LoopStep, ProcessStore, Consistent, NextOrder, TakeNext, Settle;
  }

  /** A step that stops the loop has failed, which clears the active order. */
  lemma StepStopsIdle(w: World, r: RobotId, id: OrderId, replies: seq<StepReply>)
    requires Consistent(w) && r !in w.inStep && NextOrder(w, r) == Some(id) && r in LoopStep(w, r).inStep
    requires StopsAfter(StepEnd(LoopStep(w, r), r, replies), id)
    ensures QueueOf(StepEnd(LoopStep(w, r), r, replies).queues, r).active.None?
  {
    var v := LoopStep(w, r);
    SuspendedLoop(w, r, id);
    TicketIsRunning(w, r, id);
    StepEndQueues(v, r, replies);
    StepEndStore(v, r, replies);
    hide LoopStep, StepEnd, Consistent, NextOrder, RunStep, TakeNext, StepFailedStore;
  }

  lemma SettleLeavesIdle(w: World, r: RobotId, id: OrderId, p: Processed)
    requires !p.effect.Suspended? && !p.effect.Crashed?
    ensures QueueOf(Settle(w, r, id, p).queues, r).active.None?
  {
    hide Snapshot;
  }

  lemma SettleCrashed(w: World, r: RobotId, id: OrderId, p: Processed)
    requires p.effect.Crashed?
    ensures Settle(w, r, id, p) == w.(store := p.store)
  {
  }

  /** So does a pass that stops it, unless it crashed. */
  lemma PassStopsIdle(w: World, r: RobotId, id: OrderId)
    requires Consistent(w) && r !in w.inStep && NextOrder(w, r) == Some(id) && r !in LoopStep(w, r).inStep
    ensures IdleOrStuck(LoopStep(w, r), r)
  {
    hide LoopStep, ProcessStore, NextOrder, TakeNext, Settle, Commandable;
    var p, v := ProcessStore(w.store, id), TakeNext(w, r, id);
    LoopStepIs(w, r, id);
    TakeNextItems(w, r, id);
    if p.effect == Crashed {
      CrashMeansModuleZero(w.store, id);
      SettleCrashed(v, r, id, p);
    } else if p.effect.Suspended? {
      SettleShape(v, r, id, p);
    } else {
      SettleLeavesIdle(v, r, id, p);
    }
  }

  lemma StopLeavesIdle(w: World, r: RobotId, feed: seq<seq<StepReply>>)
    requires Consistent(w) && r !in w.inStep && LoopTurn(w, r, feed).stops
    ensures IdleOrStuck(LoopTurn(w, r, feed).world, r)
  {
    if NextOrder(w, r).Some? {
      var id := NextOrder(w, r).value;
      if r in LoopStep(w, r).inStep { StepStopsIdle(w, r, id, FirstReplies(feed)); } else { PassStopsIdle(w, r, id); }
      hide LoopStep, StepEnd, ProcessStore, NextOrder, Consistent;
    } else {
      hide StepEnd, ProcessStore, ProcessOrder;
    }
  }
}
