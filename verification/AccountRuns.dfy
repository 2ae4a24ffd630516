/** Exactly which actions keep the accounts of the boxes, and the accounts over every such run. */
module AccountRuns {
  import opened Sequences
  import opened Location
  import opened Domain
  import opened Queues
  import opened Orchestrator
  import opened Rehydration
  import opened NoLostOrders
  import opened Ownership
  import opened Submission
  import opened BoxAccounts
  import opened BoxTraces

  /** A PICK waiting in a step has been served from no box. */
  ghost predicate TicketsUnserved(w: World) {
    forall r :: r in w.inStep && w.inStep[r].kind == Pick ==> w.inStep[r].id !in w.store.serving
  }

  /** What guarded runs keep: ownership, accounts and traces, in the tables and in the snapshot. */
  ghost predicate Accounted(w: World) {
    && Owned(w.store) && Owned(w.saved) && TicketSlotsExist(w)
    && Balanced(w.store) && Balanced(w.saved) && Traced(w.store) && Traced(w.saved) && TicketsUnserved(w)
  }

  // ---------- the guards ----------

  /** A step that fails after its order was canceled: a PICK's slot must hold no box, a PUT's slot the box that the
      PUT gives back, owed to nobody else, or none if the PUT gives back none. */
  predicate FailGuard(st: Store, t: Order) {
    t.id in st.orders && st.orders[t.id].status == Canceled && t.slot.Some? && t.slot.value in st.slots ==>
      var s := st.slots[t.slot.value];
      if t.kind == Pick then s.box.None?
      else if s.box.None? then t.id !in st.serving
      else t.id in st.serving && st.serving[t.id] == s.box.value.pickOrder && Depth(s) == 1
  }

  /** A retry of a canceled order: a logical one only once the box it was served from is gone. */
  ghost predicate RetryAccountGuard(st: Store, id: OrderId)
    requires id in st.orders
  {
    st.orders[id].status == Canceled && Logical(st.orders[id]) && id in st.serving ==> BoxGone(st, st.serving[id])
  }

  /** What the accounts need besides the guard of ownership. */
  ghost predicate AccountGuard(w: World, a: Action) {
    match a
    case DoStepEnd(r, replies) => r in w.inStep && !RunStep(w.maxRetries, replies).ok ==>
        FailGuard(w.store, w.inStep[r])
    case DoCancel(id) => id in w.store.orders ==> CancelGuard(w.store, id)
    case DoRetry(id, resetOk) => id in w.store.orders && resetOk ==> RetryAccountGuard(w.store, id)
    case _ => true
  }

  // ---------- one action, exactly ----------

  lemma FailedExactly(st: Store, t: Order)
    requires Balanced(st) && Owned(st) && t.id in st.orders && !Logical(st.orders[t.id])
    requires st.orders[t.id].status != Done
    requires t.slot.Some? && st.orders[t.id].slot == t.slot && t.slot.value in st.slots && StepFailGuard(st, t)
    requires t.kind == st.orders[t.id].kind && (t.kind == Pick ==> t.id !in st.serving)
    ensures Balanced(StepFailedStore(st, t)) <==> FailGuard(st, t)
  {
    hide Balanced, Owned, StepFailedStore, StepFailGuard;
    if st.orders[t.id].status == Canceled { CanceledFailBalanced(st, t); } else { StepFailedBalanced(st, t); }
  }

  lemma StepEndExactly(w: World, r: RobotId, replies: seq<StepReply>)
    requires Consistent(w) && Accounted(w) && OwnershipGuard(w, DoStepEnd(r, replies))
    ensures Balanced(StepEnd(w, r, replies).store) <==> AccountGuard(w, DoStepEnd(r, replies))
  {
    hide StepEnd, RunStep, StepDoneStore, StepFailedStore, StepFailGuard, FailGuard, Owned, Balanced, Traced,
      GoodStore, NoneLost, QueuesMatch;
    StepEndStore(w, r, replies);
    if r in w.inStep {
      var t := w.inStep[r];
      assert TicketMatches(w, r, t);
      if RunStep(w.maxRetries, replies).ok {
        if RunsPick(w.store.orders[t.id]) { PickNotServed(w.store, t.id); }
        StepDoneBalanced(w.store, t);
      } else {
        FailedExactly(w.store, t);
      }
    }
  }

  lemma RetryExactly(st: Store, id: OrderId)
    requires Balanced(st) && Traced(st) && id in st.orders && WellShaped(st.orders[id]) && RetryGuard(st.orders[id])
    ensures Balanced(RetryStore(st, id)) <==> RetryAccountGuard(st, id)
  {
    hide Balanced, Traced, RetryStore, BoxGone;
    if st.orders[id].status != Canceled {
      RetryBalanced(st, id);
    } else {
      if OwnsItsSlot(st, id) { OwnerIsPhysical(st, id, st.orders[id].slot.value); }
      if !Logical(st.orders[id]) { NotServedSlotless(st, id); }
      CanceledRetryBalanced(st, id);
    }
  }

  lemma LoopBalanced(w: World, r: RobotId)
    requires Consistent(w) && Owned(w.store) && Balanced(w.store)
    ensures Balanced(LoopStep(w, r).store)
  {
    hide LoopStep, ProcessStore, Balanced, Owned, NoneLost, QueuesMatch, TicketsMatch, UniqueExternalIds;
    LoopStepStore(w, r);
    if r !in w.inStep && NextOrder(w, r).Some? {
      TakeNextKnown(w, r, NextOrder(w, r).value);
      ProcessBalanced(w.store, NextOrder(w, r).value);
    }
  }

  lemma ShapeOf(w: World, id: OrderId)
    requires Consistent(w) && id in w.store.orders
    ensures WellShaped(w.store.orders[id])
  {
  }

  lemma SubmitBalancedNext(w: World, input: SubmitInput, now: nat)
    requires Consistent(w) && Balanced(w.store) && SubmitGuard(w.store, input)
    ensures Balanced(Submit(w, input, now).store)
  {
    hide SubmitStore, Balanced, SubmitGuard, NoneLost, QueuesMatch, TicketsMatch, UniqueExternalIds, WellShaped,
      Snapshot;
    SubmitBalanced(w.store, input, w.nextId, now);
  }

  /** Given the guard of ownership, an action keeps the accounts if and only if its own guard holds. */
  lemma BalancedExactly(w: World, a: Action)
    requires Consistent(w) && Accounted(w) && OwnershipGuard(w, a)
    ensures Balanced(Next(w, a).store) <==> AccountGuard(w, a)
  {
    hide Balanced, Owned, Traced, Consistent, TicketsUnserved, TicketSlotsExist, WellShaped, SubmitGuard, Submit,
      LoopStep, StepEnd, CancelStore, RetryStore, Release, Rehydrated, Snapshot, CancelGuard, RetryAccountGuard,
      RetryGuard, Remove;
    match a
    case DoSubmit(input, now) => SubmitBalancedNext(w, input, now);
    case DoLoop(r) => LoopBalanced(w, r);
    case DoStepEnd(r, replies) => StepEndExactly(w, r, replies);
    case DoCancel(id) => if id in w.store.orders { ShapeOf(w, id); CancelBalancedExactly(w.store, id); }
    case DoRetry(id, resetOk) => if id in w.store.orders && resetOk { ShapeOf(w, id); RetryExactly(w.store, id); }
    case DoRelease(c) => ReleaseBalanced(w.store, c);
    case DoPause(r, paused) =>
    case DoRestart(config) => SavedKeyed(w); RestartBalanced(config, w.saved);
  }

  lemma SavedKeyed(w: World)
    requires Consistent(w)
    ensures Keyed(w.saved)
  {
  }

  /** For every action from a state with ownership and accounts: both are kept if and only if both guards hold. */
  lemma NextBalancedExactly(w: World, a: Action)
    requires Consistent(w) && Accounted(w)
    ensures Owned(Next(w, a).store) && Balanced(Next(w, a).store) <==> OwnershipGuard(w, a) && AccountGuard(w, a)
  {
    hide Balanced, Owned, Traced, Consistent, TicketsUnserved, TicketSlotsExist, Next, OwnershipGuard, AccountGuard;
    OwnershipKeptExactly(w, a);
    if OwnershipGuard(w, a) { BalancedExactly(w, a); }
  }

  // ---------- the traces ----------

  lemma StepDoneTraced(st: Store, t: Order)
    requires Balanced(st) && Traced(st)
    ensures Traced(StepDoneStore(st, t))
  {
    hide Balanced, Traced;
    if t.id in st.orders { OrderOnlyTraced(st, t.id, StepDoneStore(st, t).orders[t.id]); }
  }

  lemma StepEndTraced(w: World, r: RobotId, replies: seq<StepReply>)
    requires Consistent(w) && Balanced(w.store) && Traced(w.store)
    ensures Traced(StepEnd(w, r, replies).store)
  {
    hide StepEnd, RunStep, StepDoneStore, StepFailedStore, Balanced, Traced, GoodStore, NoneLost, QueuesMatch;
    StepEndStore(w, r, replies);
    if r in w.inStep {
      assert TicketMatches(w, r, w.inStep[r]);
      StepDoneTraced(w.store, w.inStep[r]);
      StepFailedTraced(w.store, w.inStep[r]);
    }
  }

  lemma LoopTraced(w: World, r: RobotId)
    requires Consistent(w) && Owned(w.store) && Balanced(w.store) && Traced(w.store)
    ensures Traced(LoopStep(w, r).store)
  {
    hide LoopStep, ProcessStore, Balanced, Owned, Traced, NoneLost, QueuesMatch, TicketsMatch, UniqueExternalIds;
    LoopStepStore(w, r);
    if r !in w.inStep && NextOrder(w, r).Some? {
      TakeNextKnown(w, r, NextOrder(w, r).value);
      ProcessTraced(w.store, NextOrder(w, r).value);
    }
  }

  lemma SubmitTracedNext(w: World, input: SubmitInput, now: nat)
    requires Consistent(w) && Balanced(w.store) && Traced(w.store)
    ensures Traced(Submit(w, input, now).store)
  {
    hide SubmitStore, Balanced, Traced, NoneLost, QueuesMatch, TicketsMatch, UniqueExternalIds, WellShaped, Snapshot;
    SubmitTraced(w.store, input, w.nextId, now);
  }

  lemma ReleaseTraced(st: Store, c: Location)
    requires Traced(st)
    ensures Traced(Release(st, c))
  {
    hide Traced;
    FewerTraced(st, Release(st, c));
  }

  lemma RetryTraced(st: Store, id: OrderId)
    requires Balanced(st) && Traced(st) && id in st.orders
    ensures Traced(RetryStore(st, id))
  {
    hide Balanced, Traced;
    OrderOnlyTraced(st, id, RetryStore(st, id).orders[id]);
  }

  lemma NextTraced(w: World, a: Action)
    requires Consistent(w) && Accounted(w)
    ensures Traced(Next(w, a).store)
  {
    hide Balanced, Owned, Traced, Consistent, TicketsUnserved, TicketSlotsExist, Submit, LoopStep, StepEnd,
      CancelStore, RetryStore, Release, Rehydrated, Snapshot, Remove;
    match a
    case DoSubmit(input, now) => SubmitTracedNext(w, input, now);
    case DoLoop(r) => LoopTraced(w, r);
    case DoStepEnd(r, replies) => StepEndTraced(w, r, replies);
    case DoCancel(id) => if id in w.store.orders { CancelTraced(w.store, id); }
    case DoRetry(id, resetOk) => if id in w.store.orders && resetOk { RetryTraced(w.store, id); }
    case DoRelease(c) => ReleaseTraced(w.store, c);
    case DoPause(r, paused) =>
    case DoRestart(config) => SavedKeyed(w); RestartTraced(config, w.saved);
  }

  // ---------- waiting PICKs stay unserved ----------

  /** Only order id may become served. */
  ghost predicate ServesOnly(st: Store, st': Store, id: OrderId) {
    forall k :: k != id && k in st'.serving ==> k in st.serving
  }

  lemma RunServesOnly(st: Store, id: OrderId)
    requires id in st.orders
    ensures ServesOnly(st, RunStore(st, id).store, id)
  {
    hide Commandable;
  }

  lemma ConvertAssignServe(st: Store, id: OrderId)
    requires id in st.orders
    ensures ServesOnly(st, ConvertStore(st, id), id)
    ensures AssignStore(st, id).Some? ==> AssignStore(st, id).value.serving == st.serving
  {
    hide FindOccupiedBySource, ListAvailableSlots;
  }

  lemma ProcessServesOnly(st: Store, id: OrderId)
    ensures ServesOnly(st, ProcessStore(st, id).store, id)
  {
    if id in st.orders {
      ProcessKnownServes(st, id);
    }
  }

  lemma ProcessKnownServes(st: Store, id: OrderId)
    requires id in st.orders
    ensures ServesOnly(st, ProcessStore(st, id).store, id)
  {
    hide ProcessStore, ConvertStore, AssignStore, RunStore;
    ProcessCases(st, id);
    ConvertAssignServe(st, id);
    var s := ConvertStore(st, id);
    ConvertAssignServe(s, id);
    RunServesOnly(s, id);
    if AssignStore(s, id).Some? && id in AssignStore(s, id).value.orders {
      RunServesOnly(AssignStore(s, id).value, id);
    }
  }

  /** A loop works on an order nobody else waits for, and its own new record is of an unserved PICK. */
  lemma LoopUnserved(w: World, r: RobotId)
    requires Consistent(w) && Accounted(w)
    ensures TicketsUnserved(LoopStep(w, r))
  {
    if r !in w.inStep && NextOrder(w, r).Some? {
      LoopUnservedOrder(w, r, NextOrder(w, r).value);
    } else {
      hide Consistent, Accounted, ProcessOrder;
    }
  }

  lemma LoopUnservedOrder(w: World, r: RobotId, id: OrderId)
    requires Consistent(w) && Accounted(w) && r !in w.inStep && NextOrder(w, r) == Some(id)
    ensures TicketsUnserved(LoopStep(w, r))
  {
    hide LoopStep, ProcessStore, Settle, TakeNext, NextOrder, Owned, Balanced, Traced, TicketSlotsExist, NoneLost,
      UniqueExternalIds;
    TakeNextKnown(w, r, id);
    LoopStepIs(w, r, id);
    LoopStepStore(w, r);
    SettleShape(TakeNext(w, r, id), r, id, ProcessStore(w.store, id));
    ProcessServesOnly(w.store, id);
    ProcessBalanced(w.store, id);
    ProcessPass(w.store, id);
    var w', p := LoopStep(w, r), ProcessStore(w.store, id);
    forall x | x in w'.inStep && w'.inStep[x].kind == Pick ensures w'.inStep[x].id !in w'.store.serving {
      if x == r {
        assert p.store.orders[id] == w'.inStep[r];
        PickNotServed(p.store, id);
      } else {
        assert TicketMatches(w, x, w.inStep[x]);
      }
    }
  }

  lemma SubmitUnserved(w: World, input: SubmitInput, now: nat)
    requires Consistent(w) && TicketsUnserved(w)
    ensures TicketsUnserved(Submit(w, input, now))
  {
    hide SubmitStore, NoneLost, QueuesMatch, UniqueExternalIds, WellShaped, Snapshot, Keyed;
    SubmitServes(w.store, input, w.nextId, now);
    forall x | x in w.inStep ensures w.inStep[x].id != w.nextId { assert TicketMatches(w, x, w.inStep[x]); }
  }

  lemma SubmitServes(st: Store, input: SubmitInput, id: OrderId, now: nat)
    ensures var res := SubmitStore(st, input, id, now); res.Created? ==> ServesOnly(st, res.store, id)
  {
    hide SubmitStore, Parse, FindByExternalId, FindOccupiedBySource;
    SubmitCases(st, input, id, now);
  }

  lemma StepEndUnserved(w: World, r: RobotId, replies: seq<StepReply>)
    requires TicketsUnserved(w)
    ensures TicketsUnserved(StepEnd(w, r, replies))
  {
    hide StepEnd, RunStep;
    StepEndStore(w, r, replies);
    if r in w.inStep { StepEndShape(w, r, replies); } else { StepEndIdle(w, r, replies); }
  }

  lemma StepEndIdle(w: World, r: RobotId, replies: seq<StepReply>)
    requires r !in w.inStep
    ensures StepEnd(w, r, replies) == w
  {
  }

  lemma NextUnserved(w: World, a: Action)
    requires Consistent(w) && Accounted(w)
    ensures TicketsUnserved(Next(w, a))
  {
    hide Balanced, Owned, Traced, Consistent, TicketSlotsExist, Submit, LoopStep, StepEnd, Rehydrated, Snapshot, Remove;
    match a
    case DoSubmit(input, now) => SubmitUnserved(w, input, now);
    case DoLoop(r) => LoopUnserved(w, r);
    case DoStepEnd(r, replies) => StepEndUnserved(w, r, replies);
    case _ =>
  }

  // ---------- every run ----------

  /** Every action meets both guards at the time it is taken; a restart needs none. */
  ghost predicate AccountsGuarded(w: World, run: seq<Action>)
    decreases |run|
  {
    run == [] ||
    (var before, a := run[..|run| - 1], run[|run| - 1];
     AccountsGuarded(w, before)
     && (a.DoRestart? || (OwnershipGuard(Exec(w, before), a) && AccountGuard(Exec(w, before), a))))
  }

  lemma SnapshotBalanced(st: Store)
    ensures Balanced(Snapshot(st)) <==> Balanced(st)
  {
    forall b ensures Balance(Snapshot(st), b) == Balance(st, b) { CountsUnmoved(st, Snapshot(st), b); }
    hide Balance;
    assert forall s :: SlotBalanced(Snapshot(st), s) == SlotBalanced(st, s);
    assert forall c, s :: SlotOwnerFits(Snapshot(st), c, s) == SlotOwnerFits(st, c, s);
    assert forall b :: Brought(Snapshot(st), b) == Brought(st, b);
  }

  lemma SnapshotTraced(st: Store)
    requires Traced(st)
    ensures Traced(Snapshot(st))
  {
    hide Traced;
    FewerTraced(st, Snapshot(st));
  }

  lemma RestartGuarded(w: World, a: Action)
    requires Accounted(w) && a.DoRestart?
    ensures OwnershipGuard(w, a) && AccountGuard(w, a)
  {
  }

  lemma NextAccounted(w: World, a: Action)
    requires Consistent(w) && Accounted(w) && (a.DoRestart? || (OwnershipGuard(w, a) && AccountGuard(w, a)))
    ensures Accounted(Next(w, a))
  {
    hide Next, Consistent, Owned, Balanced, Traced, TicketsUnserved, TicketSlotsExist, Snapshot, AccountGuard;
    OwnershipNext(w, a);
    if a.DoRestart? { RestartGuarded(w, a); }
    BalancedExactly(w, a);
    NextTraced(w, a);
    NextUnserved(w, a);
    NextSaves(w, a);
    SnapshotBalanced(Next(w, a).store);
    SnapshotTraced(Next(w, a).store);
  }

  lemma {:induction false} ReachableAccounted(config: seq<Location>, maxRetries: nat, run: seq<Action>)
    requires AccountsGuarded(Initial(config, maxRetries), run)
    ensures Accounted(Exec(Initial(config, maxRetries), run))
    decreases |run|
  {
    if run == [] {
      ConfiguredMeaning(config);
    } else {
      var before := run[..|run| - 1];
      ReachableAccounted(config, maxRetries, before);
      ReachableConsistent(config, maxRetries, before);
      hide Accounted, Consistent, Next, Initial;
      NextAccounted(Exec(Initial(config, maxRetries), before), run[|run| - 1]);
    }
  }

  /** In every run of guarded actions: the counter of a standing box is the number of PICKs served from it minus the
      PUTs accepted on it, and at least one; a box already being taken away is owed to nobody. */
  lemma CounterIsServedMinusReturned(config: seq<Location>, maxRetries: nat, run: seq<Action>, c: Location)
    requires AccountsGuarded(Initial(config, maxRetries), run)
    requires var w := Exec(Initial(config, maxRetries), run); c in w.store.slots && w.store.slots[c].box.Some?
    ensures var st := Exec(Initial(config, maxRetries), run).store;
            var b := st.slots[c].box.value.pickOrder;
            var served, returned := |OrdersOf(st, b, Pick)|, |OrdersOf(st, b, Put)|;
            if st.slots[c].status == Occupied then StackDepth(st, c) == served - returned >= 1 else served == returned
  {
    hide Exec, Initial;
    ReachableAccounted(config, maxRetries, run);
    var st := Exec(Initial(config, maxRetries), run).store;
    assert SlotBalanced(st, st.slots[c]);
  }
}
