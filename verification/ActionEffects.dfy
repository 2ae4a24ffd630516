/** What each action leaves of the whole state: tables, lines, waiting loops, stored snapshot and records. */
module ActionEffects {
  import opened Sequences
  import opened Location
  import opened Domain
  import opened Queues
  import opened Orchestrator
  import opened StepRetry
  import opened NoLostOrders
  import opened Submission
  import opened Rehydration
  import opened RobotLoop
  import opened LoopEnds
  import opened Passes

  /** A robot never heard of has an empty, unpaused line and nothing active. */
  function LineOf(w: World, r: RobotId): RobotQueue {
    if r in w.queues then w.queues[r] else RobotQueue(None, [], false)
  }

  /** Robot r's line becomes q; the other lines stay. */
  ghost predicate LineBecomes(w: World, v: World, r: RobotId, q: RobotQueue) {
    LineOf(v, r) == q && forall x :: x != r ==> LineOf(v, x) == LineOf(w, x)
  }

  ghost predicate LinesStay(w: World, v: World) { forall x :: LineOf(v, x) == LineOf(w, x) }

  lemma LineIsQueue(w: World, r: RobotId)
    ensures LineOf(w, r) == QueueOf(w.queues, r)
  {
  }

  // ---------- the loop ----------

  /** Order id has been taken, and its pass has ended as p says. The order stays active while its loop waits in a
      step, and after a throw; put back, it stands last in line. The tables are saved unless the pass threw, waits
      or had nothing to do. */
  ghost predicate TakenAndPassed(w: World, r: RobotId, id: OrderId, p: Processed, v: World) {
    var q := LineOf(w, r);
    var rest := if q.active.Some? || q.items == [] then q.items else q.items[1..];
    && v.store == p.store
    && LineBecomes(w, v, r, match p.effect
                            case Crashed => q.(active := Some(id), items := rest)
                            case Suspended(_) => q.(active := Some(id), items := rest)
                            case Deferred => q.(active := None, items := rest + [id])
                            case _ => q.(active := None, items := rest))
    && v.inStep == (if p.effect.Suspended? then w.inStep[r := p.effect.ticket] else w.inStep)
    && v.saved == (if p.effect in {LogicalDone, Finished, Deferred} then Snapshot(p.store) else w.saved)
    && v.acked == w.acked && v.nextId == w.nextId && v.maxRetries == w.maxRetries
  }

  lemma SettleAs(w: World, r: RobotId, id: OrderId, p: Processed)
    requires NextOrder(w, r) == Some(id)
    requires p.effect == Deferred ==> id in p.store.orders && p.store.orders[id].robot == r
    ensures TakenAndPassed(w, r, id, p, Settle(TakeNext(w, r, id), r, id, p))
  {
    hide Snapshot;
  }

  /** One iteration of the loop: nothing while it waits in a step or finds nothing to take; else the active order,
      or the first in line, has its pass. */
  lemma LoopExactly(w: World, r: RobotId)
    requires Consistent(w)
    ensures var v := Next(w, DoLoop(r));
            if r in w.inStep then v == w
            else if NothingToTake(w, r) then LinesStay(w, v) && v == w.(queues := v.queues)
            else exists id, p :: TurnsTo(w, r, id) && PassIs(w.store, id, p) && TakenAndPassed(w, r, id, p, v)
  {
    TurnMeaning(w, r);
    if r !in w.inStep {
      if NothingToTake(w, r) {
        hide ProcessOrder;
      } else {
        var id := NextOrder(w, r).value;
        var p := ProcessStore(w.store, id);
        TakeNextKnown(w, r, id);
        ProcessPass(w.store, id);
        PassExactly(w.store, id);
        LoopStepIs(w, r, id);
        hide LoopStep, ProcessStore, TakeNext, NextOrder, Settle, PassIs, TakenAndPassed, NothingToTake, TurnsTo,
          Consistent, WellShaped;
        SettleAs(w, r, id, p);
        assert TurnsTo(w, r, id) && PassIs(w.store, id, p) && TakenAndPassed(w, r, id, p, LoopStep(w, r));
      }
    }
  }

  // ---------- the end of a step ----------

  /** An acknowledged step moves its order on by one, from where its loop found it. */
  ghost predicate StepDoneTables(st: Store, t: Order, s: Store) {
    s == if t.id !in st.orders then st
         else st.(orders := st.orders[t.id := st.orders[t.id].(stepIndex := t.stepIndex + 1, steps := t.steps)])
  }

  /** A failed step puts its order in ERROR whatever it was, and its slot in ERROR under that order. */
  ghost predicate StepFailedTables(st: Store, t: Order, s: Store) {
    && s.orders == (if t.id !in st.orders then st.orders
                    else st.orders[t.id := st.orders[t.id].(status := Error)])
    && s.slots == (if t.slot.Some? && t.slot.value in st.slots
                   then st.slots[t.slot.value := st.slots[t.slot.value].(status := Blocked, owner := Some(t.id))]
                   else st.slots)
    && s == st.(orders := s.orders, slots := s.slots)
  }

  lemma StepTables(st: Store, t: Order)
    ensures StepDoneTables(st, t, StepDoneStore(st, t)) && StepFailedTables(st, t, StepFailedStore(st, t))
  {
  }

  /** The end of a step, with the verdict its replies give: acknowledged, the order stays active and its record gains
      the step's code; failed, nothing is active. Both are saved. */
  lemma StepEndExactly(w: World, r: RobotId, replies: seq<StepReply>)
    requires r in w.inStep
    ensures var v, res, t := Next(w, DoStepEnd(r, replies)), RunStep(w.maxRetries, replies), w.inStep[r];
            && (if res.ok
                then StepDoneTables(w.store, t, v.store) && LinesStay(w, v)
                     && v.acked == w.acked[t.id := (if t.id in w.acked then w.acked[t.id] else [])
                                                   + [Ack(TicketCode(t), res.sends)]]
                else StepFailedTables(w.store, t, v.store) && v.acked == w.acked
                     && LineBecomes(w, v, r, LineOf(w, r).(active := None)))
            && v.inStep == w.inStep - {r} && v.saved == Snapshot(v.store) && v.nextId == w.nextId
            && v.maxRetries == w.maxRetries
  {
    hide RunStep, TicketCode, Snapshot, StepDoneTables, StepFailedTables, StepDoneStore, StepFailedStore;
    StepTables(w.store, w.inStep[r]);
  }

  // ---------- requests ----------

  /** A refused or known request changes nothing; a created order is last in its robot's line, and saved. */
  lemma SubmitExactly(w: World, input: SubmitInput, now: nat)
    ensures var v, res := Next(w, DoSubmit(input, now)), SubmitStore(w.store, input, w.nextId, now);
            if !res.Created? then v == w
            else
              var r := res.order.robot;
              && v == w.(store := res.store, queues := v.queues, nextId := w.nextId + 1, saved := Snapshot(res.store))
              && LineBecomes(w, v, r, LineOf(w, r).(items := LineOf(w, r).items + [res.order.id]))
  {
    hide SubmitStore, Snapshot;
  }

  /** Canceling marks the order, gives back a slot it owns (a PICK's becomes LIBRE and empty, a PUT's stands
      OCUPADO) and takes the order out of its robot's line. Nothing is saved. */
  lemma CancelExactly(w: World, id: OrderId)
    ensures var v := Next(w, DoCancel(id));
            if id !in w.store.orders then v == w
            else
              var o := w.store.orders[id];
              var q := LineOf(w, o.robot);
              var owns := o.slot.Some? && o.slot.value in w.store.slots
                          && w.store.slots[o.slot.value].owner == Some(id);
              && v == w.(store := v.store, queues := v.queues)
              && v.store == w.store.(orders := w.store.orders[id := o.(status := Canceled)], slots := v.store.slots)
              && v.store.slots == (if !owns then w.store.slots
                                   else if o.kind == Pick
                                   then w.store.slots[o.slot.value := Slot(Free, None, None, None)]
                                   else w.store.slots[o.slot.value := w.store.slots[o.slot.value].(status := Occupied)])
              && LineBecomes(w, v, o.robot,
                             q.(items := Without(q.items, id),
                                active := if q.active == Some(id) then None else q.active))
  {
  }

  /** A retry goes ahead only if the registers were reset: the order is PENDING at its first step again, keeps its slot,
      stands last in its robot's line, has an empty record, and is saved. */
  lemma RetryExactly(w: World, id: OrderId, resetOk: bool)
    ensures var v := Next(w, DoRetry(id, resetOk));
            if id !in w.store.orders || !resetOk then v == w
            else
              var o := w.store.orders[id];
              && v == w.(store := v.store, queues := v.queues, acked := w.acked[id := []], saved := Snapshot(v.store))
              && id in v.store.orders && AreStepsOf(o.kind, v.store.orders[id].steps)
              && v.store == w.store.(orders := w.store.orders[id :=
                              o.(status := Pending, stepIndex := 0, waiting := false,
                                 steps := v.store.orders[id].steps)])
              && LineBecomes(w, v, o.robot, LineOf(w, o.robot).(items := LineOf(w, o.robot).items + [id]))
  {
    hide Snapshot;
  }

  /** A manual release empties a known slot, whatever its status, and is saved. */
  lemma ReleaseExactly(w: World, c: Location)
    ensures var v := Next(w, DoRelease(c));
            if c !in w.store.slots then v == w
            else
              && v == w.(store := w.store.(slots := w.store.slots[c := Slot(Free, None, None, None)]),
                         saved := Snapshot(v.store))
  {
    hide Snapshot;
  }

  /** A restart rebuilds tables and lines from the snapshot and forgets every loop that waited in a step. */
  lemma RestartExactly(w: World, config: seq<Location>)
    ensures var v := Next(w, DoRestart(config));
            v == w.(store := v.store, queues := v.queues, inStep := map[])
            && (v.store, v.queues) == Rehydrated(config, w.saved)
  {
    hide Rehydrated;
  }
}
