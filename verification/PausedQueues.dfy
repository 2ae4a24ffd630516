/** What pausing a robot's queue holds up, and for how long. */
module PausedQueues {
  import opened Sequences
  import opened Domain
  import opened Queues
  import opened Orchestrator
  import opened RobotLoop
  import opened Fairness

  /** Nobody resumes the queue, and the process does not restart. */
  predicate NotResumed(r: RobotId, run: seq<Action>) {
    forall i :: 0 <= i < |run| ==> !run[i].DoRestart? && run[i] != DoPause(r, false)
  }

  /** The queue is paused, and no order has become active since. */
  predicate HeldUp(w: World, v: World, r: RobotId) {
    && r in v.queues && v.queues[r].paused
    && QueueOf(v.queues, r).active in {None, QueueOf(w.queues, r).active}
  }

  /** The flag is the one given; line and active order stay, and so does everything else. */
  lemma PauseSetsFlag(w: World, r: RobotId, paused: bool)
    ensures var v := Next(w, DoPause(r, paused));
            && r in v.queues && v.queues[r].paused == paused
            && v.queues[r].items == QueueOf(w.queues, r).items && v.queues[r].active == QueueOf(w.queues, r).active
            && (forall x :: x != r ==> QueueOf(v.queues, x) == QueueOf(w.queues, x))
            && v == w.(queues := v.queues)
  {
  }

  lemma SettleHolds(w: World, q: RobotId, id: OrderId, p: Processed, r: RobotId)
    requires HeldUp(w, w, r)
    ensures HeldUp(w, Settle(w, q, id, p), r)
  {
    hide Snapshot;
  }

  lemma TakeNextHolds(w: World, q: RobotId, id: OrderId, r: RobotId)
    requires HeldUp(w, w, r) && NextOrder(w, q) == Some(id)
    ensures HeldUp(w, TakeNext(w, q, id), r) && (q == r ==> QueueOf(w.queues, r).active.Some?)
  {
  }

  lemma HeldTwice(u: World, v: World, w: World, r: RobotId)
    requires HeldUp(u, v, r) && HeldUp(v, w, r)
    ensures HeldUp(u, w, r)
  {
  }

  lemma LoopHolds(w: World, q: RobotId, r: RobotId)
    requires HeldUp(w, w, r)
    ensures HeldUp(w, LoopStep(w, q), r) && !Dequeues(w, r, DoLoop(q))
  {
    hide Settle, ProcessStore;
    if q !in w.inStep && NextOrder(w, q).Some? {
      var id := NextOrder(w, q).value;
      LoopStepIs(w, q, id);
      TakeNextHolds(w, q, id, r);
      var v := TakeNext(w, q, id);
      hide LoopStep, TakeNext, NextOrder;
      SettleHolds(v, q, id, ProcessStore(w.store, id), r);
      HeldTwice(w, v, LoopStep(w, q), r);
    }
  }

  lemma NextHolds(w: World, r: RobotId, a: Action)
    requires HeldUp(w, w, r) && !a.DoRestart? && a != DoPause(r, false)
    ensures HeldUp(w, Next(w, a), r) && !Dequeues(w, r, a)
  {
    match a
    case DoLoop(q) => LoopHolds(w, q, r);
    case DoStepEnd(q, replies) => StepEndHolds(w, q, replies, r);
    case _ => hide SubmitStore, CancelStore, RetryStore, Snapshot, Release, LoopStep, StepEnd;
  }

  lemma StepEndHolds(w: World, q: RobotId, replies: seq<StepReply>, r: RobotId)
    requires HeldUp(w, w, r)
    ensures HeldUp(w, StepEnd(w, q, replies), r)
  {
    hide RunStep, TicketCode, StepDoneStore, StepFailedStore, Snapshot;
  }

  /** From the moment a queue is paused until it is resumed or the process restarts, whatever else happens: it stays
      paused, no order becomes active on its robot, and nothing is dequeued. */
  lemma {:induction false} PauseHoldsUp(w: World, r: RobotId, run: seq<Action>)
    requires NotResumed(r, run)
    ensures var v := Next(w, DoPause(r, true)); HeldUp(w, Exec(v, run), r) && DequeueCount(v, r, run) == 0
    decreases |run|
  {
    var v := Next(w, DoPause(r, true));
    PauseSetsFlag(w, r, true);
    hide Next;
    if run == [] {
      assert Exec(v, []) == v;
    } else {
      var before := run[..|run| - 1];
      PauseHoldsUp(w, r, before);
      NextHolds(Exec(v, before), r, run[|run| - 1]);
      HeldTwice(w, Exec(v, before), Next(Exec(v, before), run[|run| - 1]), r);
    }
  }

  /** Once it is resumed, a robot that has nothing active and waits in no step takes the first of its line in its next
      turn. */
  lemma ResumeTakesFirst(w: World, r: RobotId)
    requires r !in w.inStep && QueueOf(w.queues, r).active.None? && QueueOf(w.queues, r).items != []
    ensures var v := Next(w, DoPause(r, false));
            && NextOrder(v, r) == Some(QueueOf(w.queues, r).items[0])
            && QueueOf(w.queues, r).items[1..] <= QueueOf(Next(v, DoLoop(r)).queues, r).items
  {
    PauseSetsFlag(w, r, false);
    var v := Next(w, DoPause(r, false));
    LineAfter(v, r, DoLoop(r));
    hide LoopStep;
  }
}
