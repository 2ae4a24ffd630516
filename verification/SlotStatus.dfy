/** What a slot's status says, in every reachable state and with no restriction on requests: LIBRE slots are as
    new, every other slot names a known order, BUSCANDO a PICK and DEVOLVIENDO a PUT, and an ERROR order that
    still owns its slot has it blocked. Assignment takes the nearest free slot. */
module SlotStatuses {
  import opened Sequences
  import opened Location
  import opened Domain
  import opened SlotRanking
  import opened Queues
  import opened Orchestrator
  import opened Rehydration
  import opened NoLostOrders
  import opened Ownership

  predicate Labelled(orders: map<OrderId, Order>, s: Slot) {
    if s.status == Free then s == FreshSlot
    else
      && s.owner.Some? && s.owner.value in orders
      && (s.status == Fetching ==> orders[s.owner.value].kind == Pick)
      && (s.status == Returning ==> orders[s.owner.value].kind == Put)
  }

  /** A running order does not wait for a slot; a failed one has its own slot blocked. */
  predicate OrderTidy(st: Store, id: OrderId)
    requires id in st.orders
  {
    var o := st.orders[id];
    && (o.status == InProgress ==> !o.waiting)
    && (o.status == Error && o.slot.Some? && o.slot.value in st.slots && st.slots[o.slot.value].owner == Some(id) ==>
          st.slots[o.slot.value].status == Blocked)
  }

  ghost predicate Tidy(st: Store) {
    && (forall c :: c in st.slots ==> Labelled(st.orders, st.slots[c]))
    && (forall id :: id in st.orders ==> OrderTidy(st, id))
  }

  /** Only order id and slot c differ; the order keeps its kind, and the slot stays with its owner as it was or
      goes to id. */
  ghost predicate Changes(st: Store, st': Store, id: OrderId, c: Location) {
    && id in st'.orders && st'.orders == st.orders[id := st'.orders[id]]
    && (id in st.orders ==> st'.orders[id].kind == st.orders[id].kind)
    && (forall d :: d in st'.slots <==> d in st.slots)
    && (forall d :: d in st.slots && d != c ==> st'.slots[d] == st.slots[d])
    && (c in st.slots ==>
          var s, s' := st.slots[c], st'.slots[c];
          s'.owner in {None, Some(id)} || (s'.owner == s.owner && s'.status == s.status))
  }

  lemma TidyAfter(st: Store, st': Store, id: OrderId, c: Location)
    requires Tidy(st) && Changes(st, st', id, c) && OrderTidy(st', id)
    requires c in st.slots ==> Labelled(st'.orders, st'.slots[c])
    ensures Tidy(st')
  {
    forall d | d in st'.slots ensures Labelled(st'.orders, st'.slots[d]) {
      if d != c { assert Labelled(st.orders, st.slots[d]); }
    }
    forall k | k in st'.orders ensures OrderTidy(st', k) {
      if k != id { assert OrderTidy(st, k); }
    }
  }

  // ---------- processing ----------

  lemma ConvertTidy(st: Store, id: OrderId)
    requires Keyed(st) && Tidy(st) && id in st.orders && WellShaped(st.orders[id])
    ensures Tidy(ConvertStore(st, id)) && id in ConvertStore(st, id).orders
    ensures ConvertStore(st, id).orders[id].kind == Put ==> ConvertStore(st, id).orders[id].slot.Some?
  {
    FindOccupiedMeaning(st, st.orders[id].location);
    hide FindOccupiedBySource, Tidy;
    var c := FindOccupiedBySource(st, st.orders[id].location);
    if c.Some? && ConvertStore(st, id) != st {
      TidyAt(st, id, c.value);
      TidyAfter(st, ConvertStore(st, id), id, c.value);
    }
  }

  lemma TidyAt(st: Store, id: OrderId, c: Location)
    requires Tidy(st)
    ensures c in st.slots ==> Labelled(st.orders, st.slots[c])
    ensures id in st.orders ==> OrderTidy(st, id)
  {
  }

  lemma AssignTidy(st: Store, id: OrderId)
    requires Tidy(st) && id in st.orders && st.orders[id].status != Error
    ensures AssignStore(st, id).Some? ==>
              var st' := AssignStore(st, id).value; Tidy(st') && id in st'.orders && st'.orders[id].slot.Some?
  {
    hide RankSlots, ListAvailableSlots, Tidy;
    if AssignStore(st, id).Some? {
      var st' := AssignStore(st, id).value;
      TidyAfter(st, st', id, st'.orders[id].slot.value);
    }
  }

  lemma BeginTidy(st: Store, id: OrderId)
    requires Tidy(st) && id in st.orders && st.orders[id].slot.Some?
    ensures Tidy(BeginStore(st, id)) && id in BeginStore(st, id).orders
    ensures BeginStore(st, id).orders[id].status == InProgress
  {
    hide Tidy;
    var c := st.orders[id].slot.value;
    TidyAt(st, id, c);
    TidyAfter(st, BeginStore(st, id), id, c);
  }

  lemma FinishTidy(st: Store, id: OrderId)
    requires Tidy(st) && id in st.orders
    ensures Tidy(FinishStore(st, id))
  {
    hide Tidy;
    var c := if st.orders[id].slot.Some? then st.orders[id].slot.value else st.orders[id].location;
    TidyAt(st, id, c);
    TidyAfter(st, FinishStore(st, id), id, c);
  }

  lemma RunTidy(st: Store, id: OrderId)
    requires Tidy(st) && id in st.orders && st.orders[id].slot.Some?
    ensures Tidy(RunStore(st, id).store)
  {
    hide Tidy, BeginStore, FinishStore, Commandable;
    BeginTidy(st, id);
    FinishTidy(BeginStore(st, id), id);
  }

  lemma OrderOnlyTidy(st: Store, id: OrderId, o: Order)
    requires Tidy(st) && id in st.orders && o.kind == st.orders[id].kind && o.status != InProgress && o.status != Error
    ensures Tidy(WithOrder(st, id, o))
  {
    hide Tidy;
    TidyAt(st, id, o.location);
    TidyAfter(st, WithOrder(st, id, o), id, o.location);
  }

  lemma ProcessKnownTidy(st: Store, id: OrderId)
    requires Keyed(st) && Tidy(st) && id in st.orders && WellShaped(st.orders[id])
    ensures Tidy(ProcessStore(st, id).store)
  {
    hide ProcessStore, ConvertStore, AssignStore, RunStore, Tidy, WellShaped;
    ProcessCases(st, id);
    ConvertTidy(st, id);
    var s := ConvertStore(st, id);
    var o := s.orders[id];
    if Terminal(o) {
    } else if Logical(o) {
      OrderOnlyTidy(s, id, o.(status := Done));
    } else if o.kind == Pick && o.slot.None? {
      AssignTidy(s, id);
      if AssignStore(s, id).Some? {
        RunTidy(AssignStore(s, id).value, id);
      } else {
        OrderOnlyTidy(s, id, o.(status := Pending, waiting := true));
      }
    } else {
      RunTidy(s, id);
    }
  }

  lemma LoopTidy(w: World, r: RobotId)
    requires Consistent(w) && Tidy(w.store)
    ensures Tidy(LoopStep(w, r).store)
  {
    hide LoopStep, Tidy, TicketsMatch, NoneLost, QueuesMatch, UniqueExternalIds;
    LoopStepStore(w, r);
    if r !in w.inStep && NextOrder(w, r).Some? {
      var id := NextOrder(w, r).value;
      TakeNextKnown(w, r, id);
      hide ProcessStore, NextOrder;
      ProcessKnownTidy(w.store, id);
    }
  }

  // ---------- requests ----------

  lemma NoSlotTidy(st: Store, o: Order)
    requires Tidy(st) && o.id !in st.orders && o.status == Pending
    ensures Tidy(AddOrder(st, o))
  {
    hide Tidy;
    TidyAt(st, o.id, o.location);
    TidyAfter(st, AddOrder(st, o), o.id, o.location);
  }

  lemma PickJoinsTidy(st: Store, c: Location, o: Order)
    requires Tidy(st) && o.id !in st.orders && c in st.slots && st.slots[c].status == Occupied && o.status == Pending
    ensures Tidy(AddOrder(Served(IncrementStack(st, c).value, o.id, c), o))
  {
    hide Tidy;
    TidyAt(st, o.id, c);
    TidyAfter(st, AddOrder(Served(IncrementStack(st, c).value, o.id, c), o), o.id, c);
  }

  lemma AdmitPickTidy(st: Store, id: OrderId, now: nat, ext: ExternalId, robot: RobotId, l: Location,
                      target: Option<Location>, s: Option<Location>)
    requires Keyed(st) && Tidy(st) && id !in st.orders
    ensures Tidy(AdmitPick(st, id, now, ext, robot, l, target, s).store)
  {
    hide FindOccupiedBySource, Tidy, AddOrder, Served, Keyed;
    FindOccupiedMeaning(st, l);
    match FindOccupiedBySource(st, l)
    case Some(c) => PickJoinsTidy(st, c, NewOrder(id, now, Pick, ext, robot, l, target, Some(c), true));
    case None => NoSlotTidy(st, NewOrder(id, now, Pick, ext, robot, l, target, s, false));
  }

  lemma PutLowersTidy(st: Store, l: Location, o: Order)
    requires Tidy(st) && o.id !in st.orders && l in st.slots && Depth(st.slots[l]) > 1 && o.status == Pending
    ensures Tidy(AddOrder(Served(DecrementStack(st, l).value, o.id, l), o))
  {
    hide Tidy;
    TidyAt(st, o.id, l);
    TidyAfter(st, AddOrder(Served(DecrementStack(st, l).value, o.id, l), o), o.id, l);
  }

  lemma PutReservesTidy(st: Store, l: Location, o: Order)
    requires Tidy(st) && o.id !in st.orders && ReserveForPut(st, l, o.id).Some? && o.status == Pending
    ensures Tidy(AddOrder(Served(ReserveForPut(st, l, o.id).value, o.id, l), o))
  {
    hide Tidy;
    TidyAfter(st, AddOrder(Served(ReserveForPut(st, l, o.id).value, o.id, l), o), o.id, l);
  }

  lemma AdmitPutTidy(st: Store, id: OrderId, now: nat, ext: ExternalId, robot: RobotId, l: Location,
                     target: Option<Location>)
    requires Tidy(st) && id !in st.orders
    ensures var res := AdmitPut(st, id, now, ext, robot, l, target); res.Created? ==> Tidy(res.store)
  {
    hide Tidy, AddOrder, Served;
    if l in st.slots {
      if StackDepth(st, l) > 1 {
        PutLowersTidy(st, l, NewOrder(id, now, Put, ext, robot, l, target, Some(l), true));
      } else {
        var o := NewOrder(id, now, Put, ext, robot, l, target, Some(l), false);
        if ReserveForPut(st, l, id).Some? { PutReservesTidy(st, l, o); } else { NoSlotTidy(st, o.(waiting := true)); }
      }
    }
  }

  lemma SubmitTidy(st: Store, input: SubmitInput, id: OrderId, now: nat)
    requires Keyed(st) && Tidy(st) && id !in st.orders
    ensures var res := SubmitStore(st, input, id, now); res.Created? ==> Tidy(res.store)
  {
    hide SubmitStore, AdmitPick, AdmitPut, Tidy, Parse, FindByExternalId;
    SubmitCases(st, input, id, now);
    var res := SubmitStore(st, input, id, now);
    if res.Created? {
      var l, o := Parse(input.locationCode).value.location, res.order;
      if o.kind == Pick {
        AdmitPickTidy(st, id, now, input.id, o.robot, l, o.target, SlotOverride(input));
      } else {
        AdmitPutTidy(st, id, now, input.id, o.robot, l, o.target);
      }
    }
  }

  lemma StepDoneTidy(st: Store, t: Order)
    requires Tidy(st)
    ensures Tidy(StepDoneStore(st, t))
  {
    hide Tidy;
    TidyAt(st, t.id, t.location);
    if t.id in st.orders { TidyAfter(st, StepDoneStore(st, t), t.id, t.location); }
  }

  lemma StepFailedTidy(st: Store, t: Order)
    requires Tidy(st) && t.id in st.orders && st.orders[t.id].slot == t.slot && t.slot.Some?
    ensures Tidy(StepFailedStore(st, t))
  {
    hide Tidy;
    TidyAfter(st, StepFailedStore(st, t), t.id, t.slot.value);
  }

  lemma CancelTidy(st: Store, id: OrderId)
    requires Tidy(st) && id in st.orders
    ensures Tidy(CancelStore(st, id))
  {
    hide Tidy;
    var c := if st.orders[id].slot.Some? then st.orders[id].slot.value else st.orders[id].location;
    TidyAt(st, id, c);
    TidyAfter(st, CancelStore(st, id), id, c);
  }

  lemma ReleaseTidy(st: Store, c: Location)
    requires Tidy(st)
    ensures Tidy(Release(st, c))
  {
    forall k | k in st.orders ensures OrderTidy(Release(st, c), k) { assert OrderTidy(st, k); }
  }

  lemma ReopenedTidy(saved: Store, st: Store)
    requires Tidy(saved) && (forall id :: id in st.orders <==> id in saved.orders)
    requires forall id :: id in saved.orders ==> st.orders[id] == Reopened(saved.orders[id])
    requires forall c :: c in saved.slots ==> c in st.slots && st.slots[c] == saved.slots[c]
    requires forall c :: c in st.slots && c !in saved.slots ==> st.slots[c] == FreshSlot
    ensures Tidy(st)
  {
    forall c | c in st.slots ensures Labelled(st.orders, st.slots[c]) {
      if c in saved.slots { assert Labelled(saved.orders, saved.slots[c]); }
    }
    forall k | k in st.orders ensures OrderTidy(st, k) {
      assert OrderTidy(saved, k);
      assert st.orders[k].slot.Some? && st.orders[k].slot.value !in saved.slots
             && st.orders[k].slot.value in st.slots ==>
          st.slots[st.orders[k].slot.value] == FreshSlot;
    }
  }

  lemma RestartTidy(config: seq<Location>, saved: Store)
    requires Keyed(saved) && Tidy(saved)
    ensures Tidy(Rehydrated(config, saved).0)
  {
    hide Rehydrated, Tidy, Keyed, Reopened;
    RehydratedStore(config, saved);
    var st := Rehydrated(config, saved).0;
    forall id
      ensures id in saved.orders <==> id in st.orders
    {
      assert id in st.orders.Keys <==> id in saved.orders.Keys;
    }
    ReopenedTidy(saved, st);
  }

  lemma StepEndTidy(w: World, r: RobotId, replies: seq<StepReply>)
    requires Consistent(w) && Tidy(w.store)
    ensures Tidy(StepEnd(w, r, replies).store)
  {
    hide StepEnd, RunStep, StepDoneStore, StepFailedStore, Tidy, GoodStore, NoneLost, QueuesMatch;
    StepEndStore(w, r, replies);
    if r in w.inStep {
      assert TicketMatches(w, r, w.inStep[r]);
      StepDoneTidy(w.store, w.inStep[r]);
      StepFailedTidy(w.store, w.inStep[r]);
    }
  }

  lemma NextTidy(w: World, a: Action)
    requires Consistent(w) && Tidy(w.store) && Tidy(w.saved)
    ensures Tidy(Next(w, a).store)
  {
    hide Tidy, SubmitStore, LoopStep, StepEnd, CancelStore, Release, Rehydrated, Snapshot;
    match a
    case DoSubmit(input, now) => SubmitTidy(w.store, input, w.nextId, now);
    case DoLoop(r) => LoopTidy(w, r);
    case DoStepEnd(r, replies) => StepEndTidy(w, r, replies);
    case DoCancel(id) => if id in w.store.orders { CancelTidy(w.store, id); }
    case DoRetry(id, resetOk) =>
      if id in w.store.orders && resetOk { OrderOnlyTidy(w.store, id, RetryStore(w.store, id).orders[id]); }
    case DoRelease(c) => ReleaseTidy(w.store, c);
    case DoPause(_, _) =>
    case DoRestart(config) => RestartTidy(config, w.saved);
  }

  lemma {:induction false} SlotsAlwaysTidy(config: seq<Location>, maxRetries: nat, run: seq<Action>)
    ensures var w := Exec(Initial(config, maxRetries), run); Tidy(w.store) && Tidy(w.saved)
    decreases |run|
  {
    if run == [] {
      ConfiguredMeaning(config);
    } else {
      var before := run[..|run| - 1];
      SlotsAlwaysTidy(config, maxRetries, before);
      ReachableConsistent(config, maxRetries, before);
      hide Tidy, Consistent, Next, Initial;
      var w, a := Exec(Initial(config, maxRetries), before), run[|run| - 1];
      NextTidy(w, a);
      NextSaves(w, a);
      SnapshotTidy(Next(w, a).store);
    }
  }

  lemma SnapshotTidy(st: Store)
    requires Tidy(st)
    ensures Tidy(Snapshot(st))
  {
    forall k | k in st.orders ensures OrderTidy(Snapshot(st), k) { assert OrderTidy(st, k); }
  }

  /** In every reachable state, with no restriction at all: a slot is LIBRE exactly when it has no owner, and is
      then as new; every other slot names a known order, BUSCANDO a PICK, DEVOLVIENDO a PUT; a running
      owner is not waiting for a slot; the slot that an ERROR order still owns is blocked. */
  lemma StatusTellsTheMovement(config: seq<Location>, maxRetries: nat, run: seq<Action>, c: Location)
    requires c in Exec(Initial(config, maxRetries), run).store.slots
    ensures var st := Exec(Initial(config, maxRetries), run).store;
            var s := st.slots[c];
            && (s.status == Free <==> s.owner.None?) && (s.status == Free ==> s == FreshSlot)
            && (s.owner.Some? ==> s.owner.value in st.orders)
            && (s.status == Fetching ==> st.orders[s.owner.value].kind == Pick)
            && (s.status == Returning ==> st.orders[s.owner.value].kind == Put)
            && (s.owner.Some? && st.orders[s.owner.value].status == InProgress ==> !st.orders[s.owner.value].waiting)
            && (s.owner.Some? && st.orders[s.owner.value].status == Error
                && st.orders[s.owner.value].slot == Some(c)
                ==> s.status == Blocked)
  {
    hide Exec, Initial;
    SlotsAlwaysTidy(config, maxRetries, run);
    var st := Exec(Initial(config, maxRetries), run).store;
    assert Labelled(st.orders, st.slots[c]);
    if st.slots[c].owner.Some? { assert OrderTidy(st, st.slots[c].owner.value); }
  }

  /** Between its first step and its end an order changes no slot. */
  lemma LaterStepsTouchNoSlot(st: Store, id: OrderId)
    requires id in st.orders && !Terminal(st.orders[id]) && !Logical(st.orders[id]) && st.orders[id].slot.Some?
    requires 0 < st.orders[id].stepIndex < |st.orders[id].steps|
    ensures ProcessStore(st, id).store.slots == st.slots
    ensures !ProcessStore(st, id).effect.Finished?
  {
    hide Commandable, FinishStore;
  }

  // ---------- assignment ----------

  predicate FreeOnSide(st: Store, source: Location, c: Location) {
    c in st.slots && st.slots[c].status == Free && SameSide(c, source)
  }

  /** A PICK gets a slot exactly when some slot on its location's side is LIBRE. It gets the one of them that is
      closest, which becomes RESERVADO for it; no other slot changes. */
  lemma AssignedSlotIsNearest(st: Store, id: OrderId)
    requires Keyed(st) && id in st.orders
    ensures AssignStore(st, id).Some? <==> exists c :: FreeOnSide(st, st.orders[id].location, c)
    ensures AssignStore(st, id).Some? ==>
              var st', source := AssignStore(st, id).value, st.orders[id].location;
              && id in st'.orders && st'.orders[id].slot.Some?
              && (var c := st'.orders[id].slot.value;
                  && FreeOnSide(st, source, c)
                  && (forall d :: FreeOnSide(st, source, d) && d != c ==> Closer(source, c, d))
                  && st'.slots == st.slots[c := st.slots[c].(status := Reserved, owner := Some(id))])
  {
    var source, free := st.orders[id].location, ListAvailableSlots(st);
    AvailableAreFree(st);
    NearestIsMinimum(source, free);
    hide RankSlots, ListAvailableSlots, Closer;
    if c :| FreeOnSide(st, source, c) { assert c in free; }
    var ranked := RankSlots(source, free);
    if ranked != [] { assert FreeOnSide(st, source, ranked[0]); }
  }

  lemma AvailableAreFree(st: Store)
    requires Keyed(st)
    ensures NoDup(ListAvailableSlots(st))
    ensures forall c :: c in ListAvailableSlots(st) <==> c in st.slots && st.slots[c].status == Free
  {
    SortPermutes(st.slotKeys, ByCode());
    SortKeepsNoDup(st.slotKeys, ByCode());
    FilterKeepsNoDup(ListSlots(st), IsFree(st.slots));
    forall c ensures c in ListAvailableSlots(st) <==> c in st.slots && st.slots[c].status == Free {
      FilterMember(ListSlots(st), IsFree(st.slots), c);
    }
  }
}
