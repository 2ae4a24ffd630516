/** What a crash can undo: the stored snapshot knows every accepted order, every acknowledged step and every
    order that has ended in DONE or ERROR. Of an order's progress only a cancel can be forgotten. */
module Durability {
  import opened Sequences
  import opened Location
  import opened Domain
  import opened Queues
  import opened Orchestrator
  import opened Rehydration
  import opened NoLostOrders
  import opened PlanRecord

  /** The saved record stands for the current one: same order, same step; ended orders ended, open ones open. */
  predicate StandsFor(saved: Order, o: Order) {
    && SameIdentity(o, saved) && saved.stepIndex == o.stepIndex
    && (match o.status
        case Pending => saved.status in {Pending, InProgress}
        case InProgress => saved.status in {Pending, InProgress}
        case Done => saved.status == Done
        case Error => saved.status == Error
        case Canceled => true)
  }

  ghost predicate Durable(w: World) {
    && (forall id :: id in w.saved.orders <==> id in w.store.orders)
    && (forall id :: id in w.store.orders ==> StandsFor(w.saved.orders[id], w.store.orders[id]))
  }

  lemma SaveDurable(w: World)
    ensures Durable(Save(w))
  {
  }

  /** Nothing is saved, and at most one order moves on within the same step. */
  lemma UnsavedDurable(w: World, w': World, id: OrderId)
    requires Durable(w) && w'.saved == w.saved && id in w.store.orders && id in w'.store.orders
    requires w'.store.orders == w.store.orders[id := w'.store.orders[id]]
    requires StandsFor(w.saved.orders[id], w'.store.orders[id])
    ensures Durable(w')
  {
  }

  // ---------- the loop ----------

  /** An open order stays open at the same step until its step ends; an ended one is left as it is. */
  ghost predicate StaysOpen(o: Order, o': Order) {
    && SameIdentity(o, o') && o'.stepIndex == o.stepIndex
    && (o' == o || (o.status in {Pending, InProgress} && o'.status in {Pending, InProgress}))
  }

  lemma UnfinishedStaysOpen(st: Store, id: OrderId)
    requires Keyed(st) && id in st.orders && WellShaped(st.orders[id])
    requires st.orders[id].slot.None? ==> st.orders[id].status != Canceled
    ensures var p := ProcessStore(st, id);
            p.effect.AlreadyTerminal? || p.effect.Suspended? || p.effect.Crashed? ==>
              id in p.store.orders && StaysOpen(st.orders[id], p.store.orders[id])
  {
    hide ProcessStore, ConvertStore, AssignStore, RunStore, Touches;
    ProcessPass(st, id);
    ProcessKeepsIndex(st, id);
    ConvertKeepsIndex(st, id);
    ProcessCases(st, id);
    ConvertSameStatus(st, id);
    var s := ConvertStore(st, id);
    assert Terminal(s.orders[id]) ==> ProcessStore(st, id).effect == AlreadyTerminal;
  }

  lemma ConvertSameStatus(st: Store, id: OrderId)
    requires id in st.orders
    ensures id in ConvertStore(st, id).orders && ConvertStore(st, id).orders[id].status == st.orders[id].status
  {
    hide FindOccupiedBySource;
  }

  /** A pass either saves or leaves its order open. */
  lemma SettleDurable(w: World, r: RobotId, id: OrderId, p: Processed)
    requires Durable(w) && id in w.store.orders && PassOutcome(w.store, id, p)
    requires p.effect.AlreadyTerminal? || p.effect.Suspended? || p.effect.Crashed? ==>
        StaysOpen(w.store.orders[id], p.store.orders[id])
    ensures Durable(Settle(w, r, id, p))
  {
    hide Snapshot, WellShaped, Commandable;
    var w' := Settle(w, r, id, p);
    if p.effect.AlreadyTerminal? || p.effect.Suspended? || p.effect.Crashed? {
      UnsavedDurable(w, w', id);
    } else {
      SavedNow(w, r, id, p);
    }
  }

  lemma SavedNow(w: World, r: RobotId, id: OrderId, p: Processed)
    requires p.effect.LogicalDone? || p.effect.Finished? || p.effect.Deferred?
    ensures Durable(Settle(w, r, id, p))
  {
  }

  lemma LoopDurable(w: World, r: RobotId)
    requires Consistent(w) && Durable(w)
    ensures Durable(LoopStep(w, r))
  {
    if r !in w.inStep && NextOrder(w, r).Some? {
      var id := NextOrder(w, r).value;
      TakeNextKnown(w, r, id);
      LoopStepIs(w, r, id);
      var v := TakeNext(w, r, id);
      PassDurable(w, v, r, id);
    } else {
      hide ProcessOrder, Consistent;
    }
  }

  lemma PassDurable(w: World, v: World, r: RobotId, id: OrderId)
    requires Durable(w) && v == w.(queues := v.queues) && Keyed(w.store) && id in w.store.orders
    requires WellShaped(w.store.orders[id])
    requires w.store.orders[id].slot.None? ==> w.store.orders[id].status != Canceled
    ensures Durable(Settle(v, r, id, ProcessStore(w.store, id)))
  {
    hide ProcessStore, Settle, WellShaped, Keyed;
    ProcessPass(w.store, id);
    UnfinishedStaysOpen(w.store, id);
    SettleDurable(v, r, id, ProcessStore(w.store, id));
  }

  // ---------- the other actions ----------

  lemma StepEndDurable(w: World, r: RobotId, replies: seq<StepReply>)
    requires Durable(w)
    ensures Durable(StepEnd(w, r, replies))
  {
    hide RunStep, TicketCode, StepDoneStore, StepFailedStore;
  }

  lemma RestartDurable(w: World, config: seq<Location>)
    requires Durable(w) && Keyed(w.saved)
    ensures Durable(Restart(w, config))
  {
    hide Rehydrated, Keyed;
    RehydratedStore(config, w.saved);
    var w' := Restart(w, config);
    forall id
      ensures id in w'.saved.orders <==> id in w'.store.orders
    {
      assert id in w'.store.orders.Keys <==> id in w'.saved.orders.Keys;
    }
  }

  lemma CancelDurable(w: World, id: OrderId)
    requires Durable(w)
    ensures Durable(Cancel(w, id))
  {
    if id in w.store.orders { UnsavedDurable(w, Cancel(w, id), id); }
  }

  lemma NextDurable(w: World, a: Action)
    requires Consistent(w) && Durable(w)
    ensures Durable(Next(w, a))
  {
    match a
    case DoLoop(r) => LoopDurable(w, r);
    case DoStepEnd(r, replies) => StepEndDurable(w, r, replies);
    case DoRestart(config) => RestartDurable(w, config);
    case DoCancel(id) => CancelDurable(w, id);
    case DoPause(_, _) =>
    case DoRelease(c) => ReleaseDurable(w, c);
    case DoRetry(id, resetOk) => RetryDurable(w, id, resetOk);
    case DoSubmit(input, now) => SubmitDurable(w, input, now);
  }

  lemma ReleaseDurable(w: World, c: Location)
    requires Durable(w)
    ensures Durable(ReleaseManually(w, c))
  {
    SaveDurable(w.(store := Release(w.store, c)));
  }

  lemma RetryDurable(w: World, id: OrderId, resetOk: bool)
    requires Durable(w)
    ensures Durable(Retry(w, id, resetOk))
  {
    hide RetryStore;
  }

  lemma SubmitDurable(w: World, input: SubmitInput, now: nat)
    requires Durable(w)
    ensures Durable(Submit(w, input, now))
  {
    hide SubmitStore;
  }

  lemma {:induction false} AlwaysDurable(config: seq<Location>, maxRetries: nat, run: seq<Action>)
    ensures Durable(Exec(Initial(config, maxRetries), run))
    decreases |run|
  {
    if run == [] {
      ConfiguredMeaning(config);
    } else {
      var before := run[..|run| - 1];
      AlwaysDurable(config, maxRetries, before);
      ReachableConsistent(config, maxRetries, before);
      hide Durable, Consistent, Next, Initial;
      NextDurable(Exec(Initial(config, maxRetries), before), run[|run| - 1]);
    }
  }

  /** A crash at any reachable moment, followed by a restart with any slot configuration: every accepted order is
      there at the step it had reached; DONE and ERROR orders are so again, open ones are PENDING and queued. */
  lemma CrashLosesNoProgress(config: seq<Location>, maxRetries: nat, run: seq<Action>, newConfig: seq<Location>,
                             id: OrderId)
    requires id in Exec(Initial(config, maxRetries), run).store.orders
    ensures var w := Exec(Initial(config, maxRetries), run);
            var w' := Restart(w, newConfig);
            && id in w'.store.orders
            && SameIdentity(w.store.orders[id], w'.store.orders[id])
            && w'.store.orders[id].stepIndex == w.store.orders[id].stepIndex
            && (w.store.orders[id].status in {Done, Error} ==> w'.store.orders[id].status == w.store.orders[id].status)
            && (w.store.orders[id].status in {Pending, InProgress} ==>
                  w'.store.orders[id].status == Pending && id in QueueOf(w'.queues, w.store.orders[id].robot).items)
  {
    hide Exec, Initial;
    AlwaysDurable(config, maxRetries, run);
    ReachableConsistent(config, maxRetries, run);
    RestartKeepsProgress(Exec(Initial(config, maxRetries), run), newConfig, id);
  }

  lemma RestartKeepsProgress(w: World, config: seq<Location>, id: OrderId)
    requires Durable(w) && Consistent(w) && id in w.store.orders
    ensures var w' := Restart(w, config);
            && id in w'.store.orders
            && SameIdentity(w.store.orders[id], w'.store.orders[id])
            && w'.store.orders[id].stepIndex == w.store.orders[id].stepIndex
            && (w.store.orders[id].status in {Done, Error} ==> w'.store.orders[id].status == w.store.orders[id].status)
            && (w.store.orders[id].status in {Pending, InProgress} ==>
                  w'.store.orders[id].status == Pending && id in QueueOf(w'.queues, w.store.orders[id].robot).items)
  {
    hide Rehydrated, NoneLost, QueuesMatch, TicketsMatch, WellShaped;
    KeyedOf(w.saved, w.nextId);
    RehydratedMeaning(config, w.saved, w.store.orders[id].robot);
    assert StandsFor(w.saved.orders[id], w.store.orders[id]);
    assert id in Restart(w, config).store.orders.Keys;
  }

  predicate WaitsAgain(w: World, id: OrderId) {
    id in w.store.orders && w.store.orders[id].status == Pending
    && id in QueueOf(w.queues, w.store.orders[id].robot).items
  }

  /** A cancel is not saved: if the process stops before the next save, a queued order comes back. */
  lemma CanceledOrderComesBack(w: World, config: seq<Location>, id: OrderId)
    requires Durable(w) && Consistent(w) && id in w.store.orders && w.store.orders[id].status == Pending
    ensures var v := Cancel(w, id);
            id in v.store.orders && v.store.orders[id].status == Canceled && WaitsAgain(Restart(v, config), id)
  {
    RestartKeepsProgress(w, config, id);
    CancelNotSaved(w, config, id);
  }

  lemma CancelNotSaved(w: World, config: seq<Location>, id: OrderId)
    ensures Restart(Cancel(w, id), config).store == Restart(w, config).store
    ensures Restart(Cancel(w, id), config).queues == Restart(w, config).queues
  {
    hide Rehydrated, CancelStore;
  }
}
