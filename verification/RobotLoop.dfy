/** A robot's whole loop with no outside events: it terminates, and it is a run of the state machine. */
module RobotLoop {
  import opened Sequences
  import opened Domain
  import opened Queues
  import opened Orchestrator
  import opened NoLostOrders
  import opened PlanRecord

  /** What the loop still has to do for the active order; a dequeue lowers the number of queued items instead. */
  function Remaining(w: World, r: RobotId): nat {
    var active := QueueOf(w.queues, r).active;
    if active.None? then 0
    else if active.value !in w.store.orders then 1
    else var o := w.store.orders[active.value];
         1 + if o.stepIndex < |o.steps| then |o.steps| - o.stepIndex else 0
  }

  /** The loop returns on an order left in ERROR or put back as PENDING. */
  predicate StopsAfter(w: World, id: OrderId) {
    id in w.store.orders && (w.store.orders[id].status == Error || w.store.orders[id].status == Pending)
  }

  /** The reply lists of successive steps; past the end every call times out. */
  function FirstReplies(feed: seq<seq<StepReply>>): seq<StepReply> {
    if feed == [] then [] else feed[0]
  }

  function LaterReplies(feed: seq<seq<StepReply>>): seq<seq<StepReply>> {
    if feed == [] then [] else feed[1..]
  }

  ghost predicate Shrinks(w: World, v: World, r: RobotId) {
    var before, after := |QueueOf(w.queues, r).items|, |QueueOf(v.queues, r).items|;
    after < before || (after == before && Remaining(v, r) < Remaining(w, r))
  }

  lemma TakeNextItems(w: World, r: RobotId, id: OrderId)
    requires NextOrder(w, r) == Some(id)
    ensures var q, q' := QueueOf(w.queues, r), QueueOf(TakeNext(w, r, id).queues, r);
            q'.active == Some(id) && if q.active.Some? then q'.items == q.items else q.items == [id] + q'.items
  {
  }

  /** A pass that neither waits, crashes nor stops has finished with its order. */
  lemma PassShrinks(w: World, r: RobotId, id: OrderId)
    requires Consistent(w) && r !in w.inStep && NextOrder(w, r) == Some(id)
    requires var v := LoopStep(w, r);
             r !in v.inStep && ProcessStore(w.store, id).effect != Crashed && !StopsAfter(v, id)
    ensures Shrinks(w, LoopStep(w, r), r)
  {
    TakeNextKnown(w, r, id);
    ProcessPass(w.store, id);
    LoopStepIs(w, r, id);
    TakeNextItems(w, r, id);
    hide LoopStep, ProcessStore, TakeNext, NextOrder, Consistent, WellShaped;
  }

  /** A step that did not stop the loop has advanced its order. */
  lemma StepShrinks(w: World, r: RobotId, id: OrderId, replies: seq<StepReply>)
    requires Consistent(w) && r !in w.inStep && NextOrder(w, r) == Some(id)
    requires r in LoopStep(w, r).inStep && !StopsAfter(StepEnd(LoopStep(w, r), r, replies), id)
    ensures Shrinks(w, StepEnd(LoopStep(w, r), r, replies), r)
  {
    var v := LoopStep(w, r);
    TakeNextKnown(w, r, id);
    SuspendedLoop(w, r, id);
    StepEndStore(v, r, replies);
    StepEndQueues(v, r, replies);
    TakeNextItems(w, r, id);
    hide LoopStep, StepEnd, TakeNext, RunStep, Consistent, NextOrder;
  }

  /** A loop that starts waiting: its order is active, at an open step, and matches the captured record. */
  lemma SuspendedLoop(w: World, r: RobotId, id: OrderId)
    requires Consistent(w) && r !in w.inStep && NextOrder(w, r) == Some(id) && r in LoopStep(w, r).inStep
    ensures var v := LoopStep(w, r);
            && v.queues == TakeNext(w, r, id).queues && id in w.store.orders && id in v.store.orders
            && v.inStep[r] == v.store.orders[id] && v.inStep[r].id == id
            && v.inStep[r].steps == w.store.orders[id].steps
            && v.inStep[r].stepIndex == w.store.orders[id].stepIndex < |v.inStep[r].steps|
  {
    TakeNextKnown(w, r, id);
    SuspendedRecord(w.store, id);
    LoopStepIs(w, r, id);
    hide LoopStep, ProcessStore, TakeNext, NextOrder, Consistent;
    SettleSuspends(TakeNext(w, r, id), r, id, ProcessStore(w.store, id));
  }

  lemma SettleSuspends(w: World, r: RobotId, id: OrderId, p: Processed)
    requires r !in w.inStep && r in Settle(w, r, id, p).inStep
    ensures p.effect == Suspended(Settle(w, r, id, p).inStep[r]) && Settle(w, r, id, p).store == p.store
    ensures Settle(w, r, id, p).queues == w.queues
  {
    hide Snapshot;
  }

  lemma StepEndQueues(w: World, r: RobotId, replies: seq<StepReply>)
    requires r in w.inStep
    ensures StepEnd(w, r, replies).queues == if RunStep(w.maxRetries, replies).ok then w.queues
        else SetActive(w.queues, r, None)
  {
    hide RunStep, TicketCode, StepDoneStore, StepFailedStore, Snapshot;
  }

  lemma SuspendedRecord(st: Store, id: OrderId)
    requires Keyed(st) && id in st.orders && WellShaped(st.orders[id])
    requires st.orders[id].slot.None? ==> st.orders[id].status != Canceled
    ensures var p := ProcessStore(st, id);
            p.effect.Suspended? ==>
              && id in p.store.orders && p.store.orders[id] == p.effect.ticket && p.effect.ticket.id == id
              && p.effect.ticket.stepIndex == st.orders[id].stepIndex < |p.effect.ticket.steps|
              && p.effect.ticket.steps == st.orders[id].steps
  {
    ProcessPass(st, id);
    ProcessKeepsIndex(st, id);
    hide ProcessStore;
  }

  /** One turn of the loop: the state after it, the actions taken, the replies left, and whether the loop returns. */
  datatype Turn = Turn(world: World, actions: seq<Action>, feed: seq<seq<StepReply>>, stops: bool)

  function LoopTurn(w: World, r: RobotId, feed: seq<seq<StepReply>>): Turn {
    var v := LoopStep(w, r);
    match NextOrder(w, r)
    case None => Turn(v, [DoLoop(r)], feed, true)
    case Some(id) =>
      if r in v.inStep then
        var u := StepEnd(v, r, FirstReplies(feed));
        Turn(u, [DoLoop(r), DoStepEnd(r, FirstReplies(feed))], LaterReplies(feed), StopsAfter(u, id))
      else
        Turn(v, [DoLoop(r)], feed, ProcessStore(w.store, id).effect == Crashed || StopsAfter(v, id))
  }

  lemma TurnKeeps(w: World, r: RobotId, feed: seq<seq<StepReply>>)
    requires Consistent(w) && r !in w.inStep
    ensures var t := LoopTurn(w, r, feed); Consistent(t.world) && r !in t.world.inStep
  {
    LoopConsistent(w, r);
    var v := LoopStep(w, r);
    if r in v.inStep {
      LoopSuspendsOnOrder(w, r);
      StepEndConsistent(v, r, FirstReplies(feed));
      StepEndSaves(v, r, FirstReplies(feed));
    }
    hide LoopStep, StepEnd, ProcessStore, Consistent, NextOrder, StopsAfter;
  }

  lemma LoopSuspendsOnOrder(w: World, r: RobotId)
    requires r !in w.inStep && r in LoopStep(w, r).inStep
    ensures NextOrder(w, r).Some?
  {
    hide ProcessOrder;
  }

  /** A turn after which the loop goes on has dequeued, or advanced or finished the active order. */
  lemma TurnShrinks(w: World, r: RobotId, feed: seq<seq<StepReply>>)
    requires Consistent(w) && r !in w.inStep && !LoopTurn(w, r, feed).stops
    ensures Shrinks(w, LoopTurn(w, r, feed).world, r)
  {
    if NextOrder(w, r).Some? {
      var id := NextOrder(w, r).value;
      if r in LoopStep(w, r).inStep { StepShrinks(w, r, id, FirstReplies(feed)); } else { PassShrinks(w, r, id); }
    }
    hide LoopStep, StepEnd, ProcessStore, Consistent, NextOrder, StopsAfter, Shrinks;
  }

  datatype LoopOutcome = LoopOutcome(world: World, actions: seq<Action>)

  /** `runRobotLoop` from its start to its return, each step answered by the next reply list, with the
      actions it takes. */
  ghost function RunToEnd(w: World, r: RobotId, feed: seq<seq<StepReply>>): LoopOutcome
    requires Consistent(w) && r !in w.inStep
    decreases |QueueOf(w.queues, r).items|, Remaining(w, r)
  {
    var t := LoopTurn(w, r, feed);
    if t.stops then LoopOutcome(t.world, t.actions)
    else
      TurnKeeps(w, r, feed);
      TurnShrinks(w, r, feed);
      var rest := RunToEnd(t.world, r, t.feed);
      LoopOutcome(rest.world, t.actions + rest.actions)
  }

  lemma {:induction false} ExecAfter(w: World, a: seq<Action>, b: seq<Action>)
    ensures Exec(w, a + b) == Exec(Exec(w, a), b)
    decreases |b|
  {
    if b == [] {
      assert a + b == a;
    } else {
      var c := b[..|b| - 1];
      assert (a + b)[..|a + b| - 1] == a + c;
      ExecAfter(w, a, c);
      hide Next;
    }
  }

  lemma ExecOne(w: World, a: Action)
    ensures Exec(w, [a]) == Next(w, a)
  {
    assert [a][..0] == [];
    hide Next;
    assert Exec(w, []) == w;
  }

  lemma ExecTwo(w: World, a: Action, b: Action)
    ensures Exec(w, [a, b]) == Next(Next(w, a), b)
  {
    ExecOne(w, a);
    ExecOne(Next(w, a), b);
    ExecAfter(w, [a], [b]);
    assert [a] + [b] == [a, b];
    hide Next;
  }

  lemma TurnIsARun(w: World, r: RobotId, feed: seq<seq<StepReply>>)
    ensures var t := LoopTurn(w, r, feed);
            && t.world == Exec(w, t.actions)
            && forall i :: 0 <= i < |t.actions| ==>
                 t.actions[i] == DoLoop(r) || (t.actions[i].DoStepEnd? && t.actions[i].robot == r)
  {
    var v, replies := LoopStep(w, r), FirstReplies(feed);
    ExecOne(w, DoLoop(r));
    ExecTwo(w, DoLoop(r), DoStepEnd(r, replies));
    hide LoopStep, StepEnd, ProcessStore, NextOrder, StopsAfter, Exec;
    assert Next(w, DoLoop(r)) == v && Next(v, DoStepEnd(r, replies)) == StepEnd(v, r, replies);
  }

  /** The loop is a run of the state machine, so everything proved about runs holds of it; it only ever
      acts on its own robot. */
  lemma {:induction false} LoopIsARun(w: World, r: RobotId, feed: seq<seq<StepReply>>)
    requires Consistent(w) && r !in w.inStep
    ensures var out := RunToEnd(w, r, feed);
            && out.world == Exec(w, out.actions)
            && forall i :: 0 <= i < |out.actions| ==>
                 out.actions[i] == DoLoop(r) || (out.actions[i].DoStepEnd? && out.actions[i].robot == r)
    decreases |QueueOf(w.queues, r).items|, Remaining(w, r)
  {
    hide Exec, LoopTurn, Consistent;
    TurnIsARun(w, r, feed);
    var t := LoopTurn(w, r, feed);
    if !t.stops {
      TurnKeeps(w, r, feed);
      TurnShrinks(w, r, feed);
      LoopIsARun(t.world, r, t.feed);
      ExecAfter(w, t.actions, RunToEnd(t.world, r, t.feed).actions);
    }
  }
}
