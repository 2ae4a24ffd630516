/** When a robot's loop returns: not before it has nothing to take or leaves an order behind. */
module LoopEnds {
  import opened Sequences
  import opened Domain
  import opened Queues
  import opened Orchestrator
  import opened NoLostOrders
  import opened PlanRecord
  import opened RobotLoop
  import opened Fairness

  /** Nothing is active, and the line is empty or the queue paused. */
  predicate NothingToTake(w: World, r: RobotId) {
    r !in w.queues
    || (w.queues[r].active == None && (w.queues[r].items == [] || w.queues[r].paused))
  }

  /** The order the robot turns to: the active one, else the first in an unpaused line. */
  predicate TurnsTo(w: World, r: RobotId, id: OrderId) {
    r in w.queues
    && (if w.queues[r].active.Some? then w.queues[r].active == Some(id)
        else !w.queues[r].paused && w.queues[r].items != [] && w.queues[r].items[0] == id)
  }

  /** The order is still active, with a location in module 00. */
  predicate Stuck(w: World, r: RobotId, id: OrderId) {
    && id in w.store.orders && w.store.orders[id].status == InProgress && r in w.queues
    && w.queues[r].active == Some(id)
    && (w.store.orders[id].location.moduleNumber == 0 || DropLocation(w.store.orders[id]).moduleNumber == 0)
  }

  /** The order was left in ERROR, or put back in line, or is stuck. */
  predicate LeftBehind(w: World, r: RobotId, id: OrderId) {
    (id in w.store.orders && w.store.orders[id].status in {Error, Pending}) || Stuck(w, r, id)
  }

  lemma TurnMeaning(w: World, r: RobotId)
    ensures NextOrder(w, r).None? <==> NothingToTake(w, r)
    ensures forall id: OrderId :: NextOrder(w, r) == Some(id) <==> TurnsTo(w, r, id)
  {
  }

  /** After a step the order is not stuck: its command was sent. */
  lemma StepLeavesUnstuck(w: World, r: RobotId, id: OrderId, replies: seq<StepReply>)
    requires Consistent(w) && r !in w.inStep && NextOrder(w, r) == Some(id) && r in LoopStep(w, r).inStep
    ensures !Stuck(StepEnd(LoopStep(w, r), r, replies), r, id)
  {
    var v := LoopStep(w, r);
    LoopConsistent(w, r);
    assert TicketMatches(v, r, v.inStep[r]);
    SuspendedLoop(w, r, id);
    StepEndTouches(v, r, replies);
    hide LoopStep, StepEnd, NextOrder, RunStep, TakeNext, WellShaped;
  }

  /** A pass that takes no step leaves its order stuck exactly when it threw. */
  lemma PassStuckExactly(w: World, r: RobotId, id: OrderId)
    requires Consistent(w) && r !in w.inStep && NextOrder(w, r) == Some(id) && r !in LoopStep(w, r).inStep
    ensures Stuck(LoopStep(w, r), r, id) <==> ProcessStore(w.store, id).effect == Crashed
  {
    hide LoopStep, ProcessStore, NextOrder, TakeNext, Settle;
    var p, v := ProcessStore(w.store, id), TakeNext(w, r, id);
    TakeNextKnown(w, r, id);
    ProcessPass(w.store, id);
    LoopStepIs(w, r, id);
    TakeNextItems(w, r, id);
    SettleShape(v, r, id, p);
    if p.effect == Crashed {
      CrashMeansModuleZero(w.store, id);
      SettleCrashed(v, r, id, p);
    }
  }

  /** A turn is the last one exactly when there was nothing to take, or it leaves its order behind. */
  lemma TurnStopsExactly(w: World, r: RobotId, feed: seq<seq<StepReply>>)
    requires Consistent(w) && r !in w.inStep
    ensures var t := LoopTurn(w, r, feed);
            t.stops <==> NothingToTake(w, r) || exists id :: TurnsTo(w, r, id) && LeftBehind(t.world, r, id)
  {
    hide LoopStep, StepEnd, ProcessStore, NextOrder, Consistent, Stuck, NothingToTake, TurnsTo;
    TurnMeaning(w, r);
    if NextOrder(w, r).Some? {
      var id := NextOrder(w, r).value;
      if r in LoopStep(w, r).inStep {
        StepLeavesUnstuck(w, r, id, FirstReplies(feed));
      } else {
        PassStuckExactly(w, r, id);
      }
    }
  }

  /** The actions split at the last turn. */
  ghost predicate EndsWithTurn(w: World, r: RobotId, actions: seq<Action>, before: seq<Action>) {
    && before < actions && actions[|before|] == DoLoop(r)
    && forall i :: |before| < i < |actions| ==> actions[i].DoStepEnd?
  }

  lemma TurnActions(w: World, r: RobotId, feed: seq<seq<StepReply>>)
    requires r !in w.inStep
    ensures var t := LoopTurn(w, r, feed);
            && EndsWithTurn(w, r, t.actions, [])
            && (NothingToTake(w, r) ==> t.world.store == w.store && NothingToTake(t.world, r))
  {
    hide StepEnd, ProcessStore, StopsAfter;
    TurnMeaning(w, r);
    if NothingToTake(w, r) { assert LoopStep(w, r) == w.(queues := Ensure(w.queues, r)); }
  }

  /** When the loop returns, its last turn found nothing active and the line empty or paused, or left its order in
      ERROR, in line again, or stuck. */
  lemma {:induction false} LoopReturnsWithReason(w: World, r: RobotId, feed: seq<seq<StepReply>>)
    returns (before: seq<Action>)
    requires Consistent(w) && r !in w.inStep
    ensures var out, u := RunToEnd(w, r, feed), Exec(w, before);
            && EndsWithTurn(w, r, out.actions, before)
            && (if NothingToTake(u, r) then out.world.store == u.store && NothingToTake(out.world, r)
                else exists id :: TurnsTo(u, r, id) && LeftBehind(out.world, r, id))
    decreases |QueueOf(w.queues, r).items|, Remaining(w, r)
  {
    hide LoopTurn, Consistent, Exec, NothingToTake, TurnsTo, LeftBehind;
    var t := LoopTurn(w, r, feed);
    TurnStopsExactly(w, r, feed);
    TurnActions(w, r, feed);
    if t.stops {
      before := [];
      ExecNothing(w);
    } else {
      TurnKeeps(w, r, feed);
      TurnShrinks(w, r, feed);
      TurnIsARun(w, r, feed);
      var rest := LoopReturnsWithReason(t.world, r, t.feed);
      before := t.actions + rest;
      ExecAfter(w, t.actions, rest);
      var more := RunToEnd(t.world, r, t.feed).actions;
      assert (t.actions + more)[..|before|] == t.actions + more[..|rest|] == before;
    }
  }

  lemma ExecNothing(w: World)
    ensures Exec(w, []) == w
  {
    hide Next;
  }

  // ---------- which replies each step gets ----------

  /** The replies of the steps that ended, in order. */
  function RepliesOf(actions: seq<Action>): seq<seq<StepReply>> {
    if actions == [] then []
    else (if actions[0].DoStepEnd? then [actions[0].replies] else []) + RepliesOf(actions[1..])
  }

  lemma {:induction false} RepliesSplit(a: seq<Action>, b: seq<Action>)
    ensures RepliesOf(a + b) == RepliesOf(a) + RepliesOf(b)
  {
    if a == [] {
      assert a + b == b;
    } else {
      assert (a + b)[1..] == a[1..] + b;
      RepliesSplit(a[1..], b);
    }
  }

  /** The steps of a loop run get the replies of the wire in order, one element each; when it has no more, no reply. */
  lemma {:induction false} StepsGetTheirReplies(w: World, r: RobotId, feed: seq<seq<StepReply>>, k: nat)
    requires Consistent(w) && r !in w.inStep
    ensures var got := RepliesOf(RunToEnd(w, r, feed).actions);
            k < |got| ==> got[k] == if k < |feed| then feed[k] else []
    decreases |QueueOf(w.queues, r).items|, Remaining(w, r)
  {
    hide LoopTurn, Consistent, RepliesOf;
    var t := LoopTurn(w, r, feed);
    TurnReplies(w, r, feed);
    if !t.stops {
      TurnKeeps(w, r, feed);
      TurnShrinks(w, r, feed);
      RepliesSplit(t.actions, RunToEnd(t.world, r, t.feed).actions);
      var used := |RepliesOf(t.actions)|;
      if k >= used { StepsGetTheirReplies(t.world, r, t.feed, k - used); }
    }
  }

  /** A turn with a step takes the first replies and leaves the others; any other leaves them all. */
  lemma TurnReplies(w: World, r: RobotId, feed: seq<seq<StepReply>>)
    ensures var t := LoopTurn(w, r, feed);
            if RepliesOf(t.actions) == [] then t.feed == feed
            else RepliesOf(t.actions) == [if feed == [] then [] else feed[0]]
                 && t.feed == if feed == [] then [] else feed[1..]
  {
    hide LoopStep, StepEnd, ProcessStore, NextOrder, StopsAfter;
    var t := LoopTurn(w, r, feed);
    if |t.actions| == 2 {
      RepliesSplit([DoLoop(r)], [DoStepEnd(r, FirstReplies(feed))]);
      assert t.actions == [DoLoop(r)] + [DoStepEnd(r, FirstReplies(feed))];
    }
  }
}
