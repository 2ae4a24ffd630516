/** Which order owns which slot, and exactly which requests keep that relation. */
module Ownership {
  import opened Sequences
  import opened Location
  import opened Domain
  import opened Queues
  import opened Orchestrator
  import opened Rehydration
  import opened NoLostOrders
  import opened SlotRanking
  import opened Submission

  /** A live physical order with a slot. */
  predicate Holds(o: Order, c: Location) {
    Live(o) && !Logical(o) && o.slot == Some(c)
  }

  /** The slot is in use by order id. */
  predicate OwnedBy(slots: map<Location, Slot>, c: Location, id: OrderId) {
    c in slots && Busy(slots[c]) && slots[c].owner == Some(id)
  }

  /** Every live physical order holding a slot is its owner (so no two share one), and every slot that is
      neither LIBRE nor OCUPADO has a live owner. */
  ghost predicate Owned(st: Store) {
    && (forall id :: id in st.orders && st.orders[id].slot.Some? && Holds(st.orders[id], st.orders[id].slot.value) ==>
          OwnedBy(st.slots, st.orders[id].slot.value, id))
    && (forall c :: c in st.slots && Busy(st.slots[c]) ==>
          && st.slots[c].owner.Some? && st.slots[c].owner.value in st.orders
          && Holds(st.orders[st.slots[c].owner.value], c))
  }

  /** No slot is shared. */
  lemma NoSharing(st: Store, a: OrderId, b: OrderId, c: Location)
    requires Owned(st) && a in st.orders && b in st.orders && Holds(st.orders[a], c) && Holds(st.orders[b], c)
    ensures a == b
  {
    assert OwnedBy(st.slots, c, a) && OwnedBy(st.slots, c, b);
  }

  // ---------- order processing ----------

  lemma ConvertOwned(st: Store, id: OrderId)
    requires Keyed(st) && Owned(st) && id in st.orders
    ensures Owned(ConvertStore(st, id)) && id in ConvertStore(st, id).orders
  {
    FindOccupiedMeaning(st, st.orders[id].location);
  }

  lemma AssignOwned(st: Store, id: OrderId)
    requires Owned(st) && id in st.orders && Live(st.orders[id]) && !Logical(st.orders[id]) && st.orders[id].slot.None?
    ensures AssignStore(st, id).Some? ==>
              var s := AssignStore(st, id).value;
              Owned(s) && id in s.orders && Live(s.orders[id]) && !Logical(s.orders[id])
  {
    hide RankSlots, ListAvailableSlots;
  }

  lemma DeferOwned(st: Store, id: OrderId)
    requires Owned(st) && id in st.orders && st.orders[id].slot.None?
    ensures Owned(WithOrder(st, id, st.orders[id].(status := Pending, waiting := true)))
  {
  }

  lemma LogicalDoneOwned(st: Store, id: OrderId)
    requires Owned(st) && id in st.orders && Logical(st.orders[id])
    ensures Owned(WithOrder(st, id, st.orders[id].(status := Done)))
  {
  }

  lemma BeginOwned(st: Store, id: OrderId)
    requires Owned(st) && id in st.orders && Live(st.orders[id]) && !Logical(st.orders[id])
    ensures Owned(BeginStore(st, id))
  {
  }

  /** Finishing touches the order and its own slot, which is left LIBRE or OCUPADO. */
  lemma FinishSlot(st: Store, id: OrderId)
    requires id in st.orders
    ensures var st', o := FinishStore(st, id), st.orders[id];
            && st'.orders == st.orders[id := o.(status := Done)] && st'.slots.Keys == st.slots.Keys
            && (o.slot.None? ==> st'.slots == st.slots)
            && (o.slot.Some? && o.slot.value in st.slots ==>
                  !Busy(st'.slots[o.slot.value]) && st'.slots == st.slots[o.slot.value := st'.slots[o.slot.value]])
            && (o.slot.Some? && o.slot.value !in st.slots ==> st'.slots == st.slots)
  {
  }

  lemma FinishOwned(st: Store, id: OrderId)
    requires Owned(st) && id in st.orders && Live(st.orders[id]) && !Logical(st.orders[id])
    ensures Owned(FinishStore(st, id))
  {
    hide FinishStore;
    FinishSlot(st, id);
    var o := st.orders[id];
    if o.slot.Some? { assert OwnedBy(st.slots, o.slot.value, id); }
  }

  lemma RunOwned(st: Store, id: OrderId)
    requires Owned(st) && id in st.orders && Live(st.orders[id]) && !Logical(st.orders[id])
    ensures Owned(RunStore(st, id).store)
  {
    BeginOwned(st, id);
    FinishOwned(BeginStore(st, id), id);
  }

  /** Processing an order always keeps ownership. */
  lemma ProcessOwned(st: Store, id: OrderId)
    requires Keyed(st) && Owned(st)
    ensures Owned(ProcessStore(st, id).store)
  {
    hide Owned, ConvertStore, AssignStore, RunStore;
    if id in st.orders {
      ConvertOwned(st, id);
      var s := ConvertStore(st, id);
      if Terminal(s.orders[id]) {
      } else if Logical(s.orders[id]) {
        LogicalDoneOwned(s, id);
      } else if s.orders[id].kind == Pick && s.orders[id].slot.None? {
        AssignOwned(s, id);
        if AssignStore(s, id).Some? { RunOwned(AssignStore(s, id).value, id); } else { DeferOwned(s, id); }
      } else {
        RunOwned(s, id);
      }
    }
  }

  // ---------- submission ----------

  /** A created order is logical, or reserved its slot, or has none yet. */
  predicate Reserves(st: Store, res: SubmitResult) {
    res.Created? ==>
      || Logical(res.order)
      || res.order.slot.None?
      || (res.order.kind == Put && res.order.slot.value in st.slots && !Busy(st.slots[res.order.slot.value]))
  }

  /** Adding a logical order, or one without slot, while no slot changes hands. */
  lemma AddIdle(st: Store, s: Store, o: Order)
    requires Owned(st) && o.id !in st.orders && s.orders == st.orders && s.slots.Keys == st.slots.Keys
    requires forall c :: c in st.slots ==>
        s.slots[c].status == st.slots[c].status && s.slots[c].owner == st.slots[c].owner
    requires Logical(o) || o.slot.None?
    ensures Owned(AddOrder(s, o))
  {
  }

  /** A new order that holds a slot it did not reserve breaks ownership. */
  lemma AddIntruder(st: Store, o: Order, c: Location)
    requires Owned(st) && o.id !in st.orders && Holds(o, c)
    ensures !Owned(AddOrder(st, o))
  {
    assert AddOrder(st, o).orders[o.id] == o;
    assert !OwnedBy(st.slots, c, o.id);
  }

  lemma AdmitPickOwned(st: Store, id: OrderId, now: nat, ext: ExternalId, robot: RobotId, l: Location,
                       target: Option<Location>, slotOverride: Option<Location>)
    requires Keyed(st) && Owned(st) && id !in st.orders
    ensures var res := AdmitPick(st, id, now, ext, robot, l, target, slotOverride);
            res.Created? && (Owned(res.store) <==> Reserves(st, res))
  {
    FindOccupiedMeaning(st, l);
    match FindOccupiedBySource(st, l)
    case Some(c) =>
      AddIdle(st, Served(IncrementStack(st, c).value, id, c),
          NewOrder(id, now, Pick, ext, robot, l, target, Some(c), true));
    case None =>
      var o := NewOrder(id, now, Pick, ext, robot, l, target, slotOverride, false);
      if slotOverride.Some? { AddIntruder(st, o, slotOverride.value); } else { AddIdle(st, st, o); }
  }

  lemma AddReserved(st: Store, s: Store, o: Order, c: Location)
    requires Owned(st) && o.id !in st.orders && c in st.slots && !Busy(st.slots[c]) && Holds(o, c)
    requires s.orders == st.orders && s.slots == st.slots[c := st.slots[c].(status := Reserved, owner := Some(o.id))]
    ensures Owned(AddOrder(s, o))
  {
  }

  lemma AdmitPutOwned(st: Store, id: OrderId, now: nat, ext: ExternalId, robot: RobotId, l: Location,
                      target: Option<Location>)
    requires Keyed(st) && Owned(st) && id !in st.orders
    ensures var res := AdmitPut(st, id, now, ext, robot, l, target);
            res.Created? ==> (Owned(res.store) <==> Reserves(st, res))
  {
    if l in st.slots {
      if StackDepth(st, l) > 1 {
        AdmitPutLowers(st, id, now, ext, robot, l, target);
      } else {
        AdmitPutReserves(st, id, now, ext, robot, l, target);
      }
    }
  }

  lemma AdmitPutLowers(st: Store, id: OrderId, now: nat, ext: ExternalId, robot: RobotId, l: Location,
                       target: Option<Location>)
    requires Owned(st) && id !in st.orders && l in st.slots && StackDepth(st, l) > 1
    ensures var res := AdmitPut(st, id, now, ext, robot, l, target);
            res.Created? && Owned(res.store) && Reserves(st, res)
  {
    AddIdle(st, Served(DecrementStack(st, l).value, id, l),
        NewOrder(id, now, Put, ext, robot, l, target, Some(l), true));
  }

  lemma AdmitPutReserves(st: Store, id: OrderId, now: nat, ext: ExternalId, robot: RobotId, l: Location,
                         target: Option<Location>)
    requires Owned(st) && id !in st.orders && l in st.slots && StackDepth(st, l) <= 1
    ensures var res := AdmitPut(st, id, now, ext, robot, l, target);
            res.Created? && (Owned(res.store) <==> Reserves(st, res))
  {
    hide Owned;
    var o := NewOrder(id, now, Put, ext, robot, l, target, Some(l), false);
    if Busy(st.slots[l]) {
      AddIntruder(st, o.(waiting := true), l);
    } else {
      AddReserved(st, Served(ReserveForPut(st, l, id).value, id, l), o, l);
    }
  }

  lemma SubmitReserves(st: Store, input: SubmitInput, id: OrderId, now: nat)
    requires Keyed(st) && Owned(st) && id !in st.orders
    ensures var res := SubmitStore(st, input, id, now);
            res.Created? ==> (Owned(res.store) <==> Reserves(st, res))
  {
    SubmitCases(st, input, id, now);
    var res := SubmitStore(st, input, id, now);
    if res.Created? {
      var l := Parse(input.locationCode).value.location;
      var o := res.order;
      if o.kind == Pick {
        var s := SlotOverride(input);
        AdmitPickOwned(st, id, now, input.id, o.robot, l, o.target, s);
      } else {
        AdmitPutOwned(st, id, now, input.id, o.robot, l, o.target);
      }
    }
  }

  /** A PUT goes to a LIBRE or OCUPADO slot, or to one whose stack is above one; a PICK that names a slot finds its
      box standing already. Requests that create nothing are free. */
  ghost predicate SubmitGuard(st: Store, input: SubmitInput) {
    ValidRequest(st, input) ==>
      var l := Parse(input.locationCode).value.location;
      if AsksPut(input.kind) then StackDepth(st, l) > 1 || !Busy(st.slots[l])
      else SlotOverride(input).None? || exists c :: HoldsBoxFrom(st.slots, c, l)
  }

  lemma ReservesPick(st: Store, id: OrderId, now: nat, ext: ExternalId, robot: RobotId, l: Location,
                     target: Option<Location>, s: Option<Location>)
    requires Keyed(st)
    ensures Reserves(st, AdmitPick(st, id, now, ext, robot, l, target, s)) <==>
        s.None? || exists c :: HoldsBoxFrom(st.slots, c, l)
  {
    hide FindOccupiedBySource;
    FindOccupiedMeaning(st, l);
    if c :| HoldsBoxFrom(st.slots, c, l) { assert c in st.slots; }
  }

  lemma ReservesPut(st: Store, id: OrderId, now: nat, ext: ExternalId, robot: RobotId, l: Location,
      target: Option<Location>)
    requires l in st.slots
    ensures Reserves(st, AdmitPut(st, id, now, ext, robot, l, target)) <==> StackDepth(st, l) > 1 || !Busy(st.slots[l])
  {
  }

  lemma SubmitGuardMeaning(st: Store, input: SubmitInput, id: OrderId, now: nat)
    requires Keyed(st)
    ensures SubmitGuard(st, input) <==> Reserves(st, SubmitStore(st, input, id, now))
  {
    hide SubmitStore, AdmitPick, AdmitPut, Parse, AsksPick, AsksPut, Keyed, FindByExternalId;
    CreatedExactly(st, input, id, now);
    SubmitCases(st, input, id, now);
    var res := SubmitStore(st, input, id, now);
    if res.Created? {
      var l, o := Parse(input.locationCode).value.location, res.order;
      if o.kind == Pick {
        ReservesPick(st, id, now, input.id, o.robot, l, o.target, SlotOverride(input));
      } else {
        ReservesPut(st, id, now, input.id, o.robot, l, o.target);
      }
    }
  }

  /** A submission leaves the tables owned exactly when its guard holds, which is about the request and the
      tables before it. */
  lemma SubmitOwned(st: Store, input: SubmitInput, id: OrderId, now: nat)
    requires Keyed(st) && Owned(st) && id !in st.orders
    ensures var res := SubmitStore(st, input, id, now);
            (res.Created? ==> Owned(res.store)) <==> SubmitGuard(st, input)
  {
    hide SubmitStore, Owned, Keyed, SubmitGuard;
    SubmitReserves(st, input, id, now);
    SubmitGuardMeaning(st, input, id, now);
  }

  // ---------- steps, cancel, retry, release, restart ----------

  lemma StepDoneOwned(st: Store, t: Order)
    requires Owned(st)
    ensures Owned(StepDoneStore(st, t))
  {
  }

  /** A failed step keeps ownership exactly when its slot has not passed to another live order meanwhile. */
  predicate StepFailGuard(st: Store, t: Order) {
    t.slot.Some? && t.slot.value in st.slots && Busy(st.slots[t.slot.value]) ==>
        st.slots[t.slot.value].owner == Some(t.id)
  }

  lemma StepFailedOwned(st: Store, t: Order)
    requires Owned(st) && t.id in st.orders && !Logical(st.orders[t.id])
    requires t.slot.Some? && st.orders[t.id].slot == t.slot && t.slot.value in st.slots
    ensures Owned(StepFailedStore(st, t)) <==> StepFailGuard(st, t)
  {
    var st' := StepFailedStore(st, t);
    var c := t.slot.value;
    if !StepFailGuard(st, t) {
      var k := st.slots[c].owner.value;
      assert Holds(st.orders[k], c) && st'.orders[k] == st.orders[k];
      assert !OwnedBy(st'.slots, c, k);
    }
  }

  lemma CancelOwned(st: Store, id: OrderId)
    requires Owned(st) && id in st.orders
    ensures Owned(CancelStore(st, id))
  {
  }

  /** Retry keeps ownership exactly when the order is not a finished or canceled physical one that still names a
      slot. */
  predicate RetryGuard(o: Order) {
    Live(o) || Logical(o) || o.slot.None?
  }

  lemma RetryOwned(st: Store, id: OrderId)
    requires Owned(st) && id in st.orders
    ensures Owned(RetryStore(st, id)) <==> RetryGuard(st.orders[id])
  {
    var st' := RetryStore(st, id);
    if !RetryGuard(st.orders[id]) {
      var c := st.orders[id].slot.value;
      assert Holds(st'.orders[id], c);
      assert !OwnedBy(st'.slots, c, id);
    }
  }

  /** Manual release keeps ownership exactly when the slot is LIBRE or OCUPADO. */
  lemma ReleaseOwned(st: Store, c: Location)
    requires Owned(st) && c in st.slots
    ensures Owned(Release(st, c)) <==> !Busy(st.slots[c])
  {
    if Busy(st.slots[c]) {
      var k := st.slots[c].owner.value;
      assert Release(st, c).orders[k] == st.orders[k] && Holds(st.orders[k], c);
      assert !OwnedBy(Release(st, c).slots, c, k);
    }
  }

  /** A restart keeps ownership exactly when the stored snapshot had it. */
  lemma RestartOwned(config: seq<Location>, saved: Store)
    requires Keyed(saved)
    ensures Owned(Rehydrated(config, saved).0) <==> Owned(saved)
  {
    RehydratedMeaning(config, saved, "");
    var st := Rehydrated(config, saved).0;
    forall id
      ensures id in saved.orders <==> id in st.orders
    {
      assert id in st.orders.Keys <==> id in saved.orders.Keys;
    }
    SameHolding(saved, st);
  }

  lemma SameHolding(a: Store, b: Store)
    requires forall id :: id in a.orders <==> id in b.orders
    requires forall id :: id in a.orders ==> b.orders[id] == Reopened(a.orders[id])
    requires forall c :: c in a.slots ==> c in b.slots && b.slots[c] == a.slots[c]
    requires forall c :: c in b.slots && c !in a.slots ==> !Busy(b.slots[c])
    ensures Owned(a) <==> Owned(b)
  {
    assert forall id, c :: id in a.orders ==> (Holds(b.orders[id], c) <==> Holds(a.orders[id], c));
    assert forall id, c :: OwnedBy(a.slots, c, id) <==> OwnedBy(b.slots, c, id);
  }

  // ---------- one action ----------

  /** What a caller can look at before each request; the other actions need no guard. */
  ghost predicate OwnershipGuard(w: World, a: Action) {
    match a
    case DoSubmit(input, _) => SubmitGuard(w.store, input)
    case DoStepEnd(r, replies) => r in w.inStep && !RunStep(w.maxRetries, replies).ok ==>
        StepFailGuard(w.store, w.inStep[r])
    case DoRetry(id, resetOk) => id in w.store.orders && resetOk ==> RetryGuard(w.store.orders[id])
    case DoRelease(c) => c in w.store.slots ==> !Busy(w.store.slots[c])
    case DoRestart(_) => Owned(w.saved)
    case _ => true
  }

  /** The slot an order waiting in a step names is configured. */
  ghost predicate TicketSlotsExist(w: World) {
    forall r :: r in w.inStep ==> w.inStep[r].slot.Some? && w.inStep[r].slot.value in w.store.slots
  }

  lemma StepEndOwned(w: World, r: RobotId, replies: seq<StepReply>)
    requires Consistent(w) && TicketSlotsExist(w) && Owned(w.store)
    ensures Owned(StepEnd(w, r, replies).store) <==> OwnershipGuard(w, DoStepEnd(r, replies))
  {
    hide StepEnd, RunStep, StepDoneStore, StepFailedStore, StepFailGuard, Owned, GoodStore, NoneLost, QueuesMatch;
    StepEndStore(w, r, replies);
    if r in w.inStep {
      assert TicketMatches(w, r, w.inStep[r]);
      StepDoneOwned(w.store, w.inStep[r]);
      StepFailedOwned(w.store, w.inStep[r]);
    }
  }

  lemma LoopOwned(w: World, r: RobotId)
    requires Keyed(w.store) && Owned(w.store)
    ensures Owned(LoopStep(w, r).store)
  {
    LoopStepStore(w, r);
    if r !in w.inStep && NextOrder(w, r).Some? { ProcessOwned(w.store, NextOrder(w, r).value); }
  }

  /** For every consistent state and every action: ownership is kept if and only if the guard holds. */
  lemma OwnershipKeptExactly(w: World, a: Action)
    requires Consistent(w) && TicketSlotsExist(w) && Owned(w.store)
    ensures Owned(Next(w, a).store) <==> OwnershipGuard(w, a)
  {
    match a
    case DoSubmit(input, now) => SubmitOwned(w.store, input, w.nextId, now);
    case DoLoop(r) => LoopOwned(w, r);
    case DoStepEnd(r, replies) => StepEndOwned(w, r, replies);
    case DoCancel(id) => if id in w.store.orders { CancelOwned(w.store, id); }
    case DoRetry(id, resetOk) => if id in w.store.orders { RetryOwned(w.store, id); }
    case DoRelease(c) => if c in w.store.slots { ReleaseOwned(w.store, c); }
    case DoPause(r, paused) =>
    case DoRestart(config) => RestartOwned(config, w.saved);
  }

  // ---------- every run ----------

  /** Every action but the restart meets its guard at the time it is taken. */
  ghost predicate Guarded(w: World, run: seq<Action>)
    decreases |run|
  {
    run == [] ||
    (var before, a := run[..|run| - 1], run[|run| - 1];
     Guarded(w, before) && (a.DoRestart? || OwnershipGuard(Exec(w, before), a)))
  }

  lemma NextSaves(w: World, a: Action)
    ensures Next(w, a).saved == w.saved || Next(w, a).saved == Snapshot(Next(w, a).store)
  {
    hide SubmitStore, ProcessStore, RunStep, StepDoneStore, StepFailedStore, CancelStore, RetryStore, Release,
      Rehydrated, Snapshot;
    match a
    case DoLoop(r) =>
      if r !in w.inStep && NextOrder(w, r).Some? {
        var id := NextOrder(w, r).value;
        SettleSaves(TakeNext(w, r, id), r, id, ProcessStore(TakeNext(w, r, id).store, id));
      }
    case _ =>
  }

  lemma SettleSaves(w: World, r: RobotId, id: OrderId, p: Processed)
    ensures Settle(w, r, id, p).saved == w.saved || Settle(w, r, id, p).saved == Snapshot(Settle(w, r, id, p).store)
  {
    hide Snapshot;
  }

  /** A suspended pass leaves its slot owned, hence configured. */
  lemma SuspendedSlot(st: Store, id: OrderId)
    requires Keyed(st) && Owned(st) && id in st.orders && WellShaped(st.orders[id])
    requires st.orders[id].slot.None? ==> st.orders[id].status != Canceled
    ensures var p := ProcessStore(st, id);
            p.effect.Suspended? ==> p.effect.ticket.slot.Some? && p.effect.ticket.slot.value in p.store.slots
  {
    ProcessPass(st, id);
    ProcessOwned(st, id);
    hide ProcessStore;
    var p := ProcessStore(st, id);
    if p.effect.Suspended? {
      assert p.store.orders[id] == p.effect.ticket;
      assert Holds(p.effect.ticket, p.effect.ticket.slot.value);
    }
  }

  lemma SlotsOnlyGrow(w: World, a: Action, c: Location)
    requires Consistent(w) && c in w.store.slots && !a.DoRestart?
    ensures c in Next(w, a).store.slots
  {
    hide Consistent, Submit, LoopStep, StepEnd, Snapshot;
    match a
    case DoSubmit(input, now) => SubmitKeepsSlot(w, input, now, c);
    case DoLoop(r) => LoopKeepsSlot(w, r, c);
    case DoStepEnd(r, replies) => StepEndKeepsSlot(w, r, replies, c);
    case _ =>
  }

  lemma SubmitKeepsSlot(w: World, input: SubmitInput, now: nat, c: Location)
    requires Consistent(w) && c in w.store.slots
    ensures c in Submit(w, input, now).store.slots
  {
    SubmitAdds(w.store, input, w.nextId, now);
    hide SubmitStore, Consistent, Snapshot;
    var res := SubmitStore(w.store, input, w.nextId, now);
    if res.Created? { assert c in res.store.slots.Keys; }
  }

  lemma StepEndKeepsSlot(w: World, r: RobotId, replies: seq<StepReply>, c: Location)
    requires c in w.store.slots
    ensures c in StepEnd(w, r, replies).store.slots
  {
    StepEndStore(w, r, replies);
    hide StepEnd, RunStep;
  }

  lemma LoopKeepsSlot(w: World, r: RobotId, c: Location)
    requires Consistent(w) && c in w.store.slots
    ensures c in LoopStep(w, r).store.slots
  {
    LoopStepStore(w, r);
    if r !in w.inStep && NextOrder(w, r).Some? {
      TakeNextKnown(w, r, NextOrder(w, r).value);
      ProcessPass(w.store, NextOrder(w, r).value);
      assert w.store.slots.Keys == LoopStep(w, r).store.slots.Keys by { hide ProcessStore, Consistent, LoopStep; }
    }
  }

  /** A loop that starts waiting does so on the record its pass of `processOrder` left. */
  lemma LoopSuspends(w: World, r: RobotId)
    requires r !in w.inStep && r in LoopStep(w, r).inStep
    ensures NextOrder(w, r).Some?
    ensures ProcessStore(w.store, NextOrder(w, r).value).effect == Suspended(LoopStep(w, r).inStep[r])
    ensures LoopStep(w, r).store == ProcessStore(w.store, NextOrder(w, r).value).store
  {
    hide ProcessStore;
  }

  lemma NewTicket(w: World, r: RobotId)
    requires Consistent(w) && Owned(w.store) && r !in w.inStep && r in LoopStep(w, r).inStep
    ensures var t := LoopStep(w, r).inStep[r]; t.slot.Some? && t.slot.value in LoopStep(w, r).store.slots
  {
    LoopSuspends(w, r);
    TakeNextKnown(w, r, NextOrder(w, r).value);
    SuspendedSlot(w.store, NextOrder(w, r).value);
    hide ProcessStore, LoopStep, Consistent, Owned;
  }

  lemma TicketSlotsKept(w: World, a: Action)
    requires Consistent(w) && Owned(w.store) && TicketSlotsExist(w)
    ensures TicketSlotsExist(Next(w, a))
  {
    if !a.DoRestart? {
      var w' := Next(w, a);
      forall r | r in w'.inStep ensures w'.inStep[r].slot.Some? && w'.inStep[r].slot.value in w'.store.slots {
        TicketOrigin(w, a, r);
        if r in w.inStep && w'.inStep[r] == w.inStep[r] {
          SlotsOnlyGrow(w, a, w.inStep[r].slot.value);
        } else {
          NewTicket(w, r);
        }
      }
    }
  }

  /** A waiting loop was waiting before with the same record, or this very action suspended it. */
  lemma TicketOrigin(w: World, a: Action, r: RobotId)
    requires r in Next(w, a).inStep
    ensures (r in w.inStep && Next(w, a).inStep[r] == w.inStep[r]) || (a == DoLoop(r) && r !in w.inStep)
  {
    hide SubmitStore, ProcessStore, RunStep, StepDoneStore, StepFailedStore, CancelStore, RetryStore, Release,
      Rehydrated, Snapshot;
  }

  /** Ownership over every guarded run, crashes included. */
  lemma {:induction false} OwnershipOverRuns(config: seq<Location>, maxRetries: nat, run: seq<Action>)
    requires Guarded(Initial(config, maxRetries), run)
    ensures var w := Exec(Initial(config, maxRetries), run);
            Consistent(w) && Owned(w.store) && Owned(w.saved) && TicketSlotsExist(w)
    decreases |run|
  {
    ReachableConsistent(config, maxRetries, run);
    if run == [] {
      ConfiguredMeaning(config);
    } else {
      var before, a := run[..|run| - 1], run[|run| - 1];
      OwnershipOverRuns(config, maxRetries, before);
      ReachableConsistent(config, maxRetries, before);
      OwnershipNext(Exec(Initial(config, maxRetries), before), a);
    }
  }

  lemma OwnershipNext(w: World, a: Action)
    requires Consistent(w) && Owned(w.store) && Owned(w.saved) && TicketSlotsExist(w)
    requires a.DoRestart? || OwnershipGuard(w, a)
    ensures Owned(Next(w, a).store) && Owned(Next(w, a).saved) && TicketSlotsExist(Next(w, a))
  {
    hide Next, Consistent, TicketSlotsExist;
    OwnershipKeptExactly(w, a);
    NextSaves(w, a);
    TicketSlotsKept(w, a);
    assert Owned(Snapshot(Next(w, a).store)) <==> Owned(Next(w, a).store);
  }

  lemma OneSlot(c: Location)
    ensures Configured([c]) == Store(map[], [], map[c := FreshSlot], [c], map[])
    ensures Owned(Configured([c])) && Keyed(Configured([c]))
  {
    assert [c][..0] == [] && WithSlots(NoTables, []) == NoTables;
    assert [c][0] == c;
  }

  /** The guard on PUT is needed: two PUTs on the same LIBRE slot leave two live orders holding it,
      the second one waiting for a slot it will be run on without ever reserving it. */
  lemma SecondPutSharesSlot(c: Location, robot: RobotId)
    ensures var first := AdmitPut(Configured([c]), 0, 0, Absent, robot, c, None);
            && first.Created? && Owned(first.store)
            && var second := AdmitPut(first.store, 1, 0, Absent, robot, c, None);
               && second.Created? && second.order.waiting && !Owned(second.store)
               && Holds(second.store.orders[0], c) && Holds(second.store.orders[1], c)
  {
    hide Owned, Keyed, RobotOf, Configured;
    OneSlot(c);
    var st := Configured([c]);
    var first := AdmitPut(st, 0, 0, Absent, robot, c, None);
    AdmitPutOwned(st, 0, 0, Absent, robot, c, None);
    AdmitPutOwned(first.store, 1, 0, Absent, robot, c, None);
  }
}
