/** What every reachable state keeps, with no restriction on requests: no order is lost, queues and
    captured records agree with the order table, external ids stay unique. */
module NoLostOrders {
  import opened Sequences
  import opened Location
  import opened Domain
  import opened Queues
  import opened Orchestrator
  import opened Rehydration

  // ---------- the order table ----------

  /** What one order record looks like, whatever happened to it. */
  predicate WellShaped(o: Order) {
    && (o.kind == Put ==> o.slot == Some(o.location) && !o.logicalPick)
    && (o.kind == Pick ==> !o.logicalReturn)
    && (Logical(o) ==> o.slot.Some? && o.status in {Pending, Done, Canceled})
    && (!Logical(o) ==> o.steps == BuildSteps(o.kind) && o.stepIndex <= 5)
    && (o.slot.None? ==> o.stepIndex == 0 && o.status in {Pending, Canceled})
  }

  ghost predicate UniqueExternalIds(orders: map<OrderId, Order>) {
    forall a, b ::
      a in orders && b in orders && orders[a].externalId.Some? && orders[a].externalId == orders[b].externalId ==>
        a == b
  }

  ghost predicate GoodStore(st: Store, nextId: OrderId) {
    && Keyed(st)
    && (forall id :: id in st.orders ==> WellShaped(st.orders[id]) && id < nextId)
    && UniqueExternalIds(st.orders)
  }

  /** Fields no action changes. */
  predicate SameIdentity(o: Order, o': Order) {
    && o'.id == o.id && o'.externalId == o.externalId && o'.kind == o.kind && o'.robot == o.robot
    && o'.location == o.location && o'.target == o.target && o'.createdAt == o.createdAt
  }

  /** Only order `id` changed, no key appeared, and its identity is kept. */
  ghost predicate Touches(st: Store, st': Store, id: OrderId) {
    && id in st.orders && id in st'.orders
    && st'.orders == st.orders[id := st'.orders[id]] && st'.orderKeys == st.orderKeys
    && st'.slotKeys == st.slotKeys && st'.slots.Keys == st.slots.Keys
    && SameIdentity(st.orders[id], st'.orders[id])
  }

  lemma TouchKeepsGood(st: Store, st': Store, id: OrderId, n: OrderId)
    requires GoodStore(st, n) && Touches(st, st', id) && WellShaped(st'.orders[id])
    ensures GoodStore(st', n)
  {
    hide WellShaped;
    forall a, b | a in st'.orders && b in st'.orders && st'.orders[a].externalId.Some?
                  && st'.orders[a].externalId == st'.orders[b].externalId
      ensures a == b
    {
      assert st.orders[a].externalId == st'.orders[a].externalId && st.orders[b].externalId == st'.orders[b].externalId;
    }
  }

  lemma ConvertTouches(st: Store, id: OrderId)
    requires Keyed(st) && id in st.orders && WellShaped(st.orders[id])
    ensures Touches(st, ConvertStore(st, id), id)
    ensures var o, o' := st.orders[id], ConvertStore(st, id).orders[id];
            && o'.status == o.status && o'.stepIndex == o.stepIndex
            && (o' == o || (o.kind == Pick && o.slot.None? && !Logical(o) && Logical(o') && o'.slot.Some?))
            && (o.status in {Pending, Done, Canceled} ==> WellShaped(o'))
  {
    FindOccupiedMeaning(st, st.orders[id].location);
  }

  lemma AssignTouches(st: Store, id: OrderId)
    requires Keyed(st) && id in st.orders
    ensures AssignStore(st, id).Some? ==>
              var st', o := AssignStore(st, id).value, st.orders[id];
              Touches(st, st', id) && st'.orders[id].slot.Some?
              && st'.orders[id] == o.(slot := st'.orders[id].slot, waiting := false)
  {
  }

  lemma BeginTouches(st: Store, id: OrderId)
    requires Keyed(st) && id in st.orders
    ensures var st', o := BeginStore(st, id), st.orders[id];
            Touches(st, st', id) && st'.orders[id] == o.(status := InProgress, waiting := st'.orders[id].waiting)
  {
  }

  lemma FinishTouches(st: Store, id: OrderId)
    requires Keyed(st) && id in st.orders
    ensures Touches(st, FinishStore(st, id), id) && FinishStore(st, id).orders[id] == st.orders[id].(status := Done)
  {
    FinishOnlySlots(st, id);
    hide FinishStore, Keyed;
  }

  /** A finishing order changes itself and no slot key. */
  lemma FinishOnlySlots(st: Store, id: OrderId)
    requires id in st.orders
    ensures var st' := FinishStore(st, id);
            && st'.orders == st.orders[id := st.orders[id].(status := Done)]
            && st'.orderKeys == st.orderKeys && st'.slotKeys == st.slotKeys && st'.slots.Keys == st.slots.Keys
  {
  }

  /** How one pass of `processOrder` leaves its order, and only that order. */
  ghost predicate PassOutcome(st: Store, id: OrderId, p: Processed) {
    && id in st.orders && Touches(st, p.store, id) && WellShaped(p.store.orders[id])
    && (match p.effect
        case Gone => false
        case AlreadyTerminal => p.store.orders[id] == st.orders[id] && Terminal(st.orders[id])
        case LogicalDone => p.store.orders[id].status == Done
        case Finished => p.store.orders[id].status == Done
        case Deferred => p.store.orders[id].status == Pending
        case Crashed => p.store.orders[id].status == InProgress && !Logical(p.store.orders[id])
        case Suspended(t) =>
          && p.store.orders[id] == t && t.status == InProgress && !Logical(t)
          && t.stepIndex < |t.steps| && Commandable(t))
  }

  lemma RunPass(st: Store, id: OrderId)
    requires Keyed(st) && id in st.orders && WellShaped(st.orders[id]) && !Logical(st.orders[id])
    requires st.orders[id].slot.Some?
    ensures PassOutcome(st, id, RunStore(st, id))
  {
    hide BeginStore, FinishStore, Commandable, Keyed;
    BeginTouches(st, id);
    var s := BeginStore(st, id);
    TouchesKeyed(st, s, id);
    FinishTouches(s, id);
    RunEnds(st, id);
    if st.orders[id].stepIndex >= |st.orders[id].steps| { TouchTwice(st, s, FinishStore(s, id), id); }
  }

  lemma TouchesKeyed(st: Store, s: Store, id: OrderId)
    requires Keyed(st) && Touches(st, s, id)
    ensures Keyed(s)
  {
    forall c ensures c in s.slotKeys <==> c in s.slots { assert c in s.slots.Keys <==> c in st.slots.Keys; }
  }

  lemma RunEnds(st: Store, id: OrderId)
    requires id in st.orders && id in BeginStore(st, id).orders
    ensures var s, p := BeginStore(st, id), RunStore(st, id);
            var o := s.orders[id];
            if o.stepIndex >= |o.steps| then p == Processed(FinishStore(s, id), Finished)
            else p == Processed(s, if Commandable(o) then Suspended(o) else Crashed)
  {
    hide BeginStore, FinishStore, Commandable;
  }

  lemma TouchTwice(st: Store, s: Store, st': Store, id: OrderId)
    requires Touches(st, s, id) && Touches(s, st', id)
    ensures Touches(st, st', id)
  {
  }

  lemma ProcessWithSlot(st: Store, id: OrderId)
    requires Keyed(st) && id in st.orders && WellShaped(st.orders[id]) && st.orders[id].slot.Some?
    ensures PassOutcome(st, id, ProcessStore(st, id))
  {
    assert ConvertStore(st, id) == st;
    if !Terminal(st.orders[id]) && !Logical(st.orders[id]) { RunPass(st, id); }
  }

  lemma ProcessWithoutSlot(st: Store, id: OrderId)
    requires Keyed(st) && id in st.orders && WellShaped(st.orders[id])
    requires st.orders[id].slot.None? && st.orders[id].status != Canceled
    ensures PassOutcome(st, id, ProcessStore(st, id))
  {
    hide ProcessStore, ConvertStore, AssignStore, RunStore;
    ConvertTouches(st, id);
    ProcessCases(st, id);
    var s := ConvertStore(st, id);
    if s.orders[id].slot.None? {
      NotConverted(st, id);
      AssignTouches(st, id);
      var a := AssignStore(st, id);
      if a.Some? {
        RunPass(a.value, id);
        RunAfterTouch(st, a.value, id);
      }
    } else {
      assert ProcessStore(st, id).effect == LogicalDone;
    }
  }

  lemma NotConverted(st: Store, id: OrderId)
    requires id in st.orders && ConvertStore(st, id).orders[id].slot.None?
    ensures ConvertStore(st, id) == st
  {
    hide FindOccupiedBySource;
  }

  lemma RunAfterTouch(st: Store, s: Store, id: OrderId)
    requires Touches(st, s, id) && PassOutcome(s, id, RunStore(s, id))
    requires !Terminal(s.orders[id])
    ensures PassOutcome(st, id, RunStore(s, id))
  {
    TouchTwice(st, s, RunStore(s, id).store, id);
    hide RunStore, Touches;
  }

  lemma ProcessPass(st: Store, id: OrderId)
    requires Keyed(st) && id in st.orders && WellShaped(st.orders[id])
    requires st.orders[id].slot.None? ==> st.orders[id].status != Canceled
    ensures PassOutcome(st, id, ProcessStore(st, id))
  {
    if st.orders[id].slot.Some? { ProcessWithSlot(st, id); } else { ProcessWithoutSlot(st, id); }
  }

  // ---------- queues ----------

  predicate Enqueued(qs: QueueTable, o: Order) { o.id in QueueOf(qs, o.robot).items }

  predicate Active(qs: QueueTable, o: Order) { QueueOf(qs, o.robot).active == Some(o.id) }

  /** Each PENDING order is queued or active on its robot, each IN_PROGRESS order is its robot's active one. */
  ghost predicate NoneLost(orders: map<OrderId, Order>, qs: QueueTable) {
    forall id :: id in orders ==>
      && (orders[id].status == Pending ==> Enqueued(qs, orders[id]) || Active(qs, orders[id]))
      && (orders[id].status == InProgress ==> Active(qs, orders[id]))
  }

  /** Ids in a robot's queue are known orders of that robot; an order canceled before it got a slot is in none. */
  ghost predicate QueuesMatch(orders: map<OrderId, Order>, qs: QueueTable) {
    forall r, id :: id in QueueOf(qs, r).items || QueueOf(qs, r).active == Some(id) ==>
      id in orders && orders[id].robot == r && (orders[id].slot.None? ==> orders[id].status != Canceled)
  }

  /** The record a waiting loop captured still names its order's slot, locations and kind, and the order is not done. */
  predicate TicketMatches(w: World, r: RobotId, t: Order) {
    && t.id in w.store.orders && t.robot == r
    && SameIdentity(w.store.orders[t.id], t) && w.store.orders[t.id].slot == t.slot && t.slot.Some?
    && !Logical(t) && !Logical(w.store.orders[t.id]) && w.store.orders[t.id].status != Done
    && t.steps == BuildSteps(t.kind) && t.stepIndex < 5 && Commandable(t)
    && (QueueOf(w.queues, r).active.None? || QueueOf(w.queues, r).active == Some(t.id))
  }

  ghost predicate TicketsMatch(w: World) {
    forall r :: r in w.inStep ==> TicketMatches(w, r, w.inStep[r])
  }

  ghost predicate Consistent(w: World) {
    && GoodStore(w.store, w.nextId) && GoodStore(w.saved, w.nextId)
    && NoneLost(w.store.orders, w.queues) && QueuesMatch(w.store.orders, w.queues)
    && TicketsMatch(w)
    && (forall id :: id in w.acked ==> id < w.nextId)
  }

  lemma SnapshotGood(st: Store, n: OrderId)
    requires GoodStore(st, n)
    ensures GoodStore(Snapshot(st), n)
  {
    SnapshotKeyed(st);
  }

  lemma InitialConsistent(config: seq<Location>, maxRetries: nat)
    ensures Consistent(Initial(config, maxRetries))
  {
    ConfiguredMeaning(config);
  }

  // ---------- submission ----------

  /** What a creating submission adds: one PENDING order under the given id, and nothing else in the order table. */
  ghost predicate Adds(st: Store, res: SubmitResult, id: OrderId, ext: ExternalId) {
    res.Created? ==>
      && res.order.id == id && res.order.status == Pending && WellShaped(res.order)
      && (res.order.slot.None? ==> res.order.kind == Pick)
      && res.order.externalId == (if ext.Given? then Some(ext.value) else None)
      && res.store.orders == st.orders[id := res.order] && res.store.orderKeys == st.orderKeys + [id]
      && res.store.slotKeys == st.slotKeys && res.store.slots.Keys == st.slots.Keys
  }

  lemma AdmitPickAdds(st: Store, id: OrderId, now: nat, ext: ExternalId, robot: RobotId, l: Location,
                      target: Option<Location>, slotOverride: Option<Location>)
    requires Keyed(st) && id !in st.orders
    ensures Adds(st, AdmitPick(st, id, now, ext, robot, l, target, slotOverride), id, ext)
  {
    FindOccupiedMeaning(st, l);
  }

  lemma AdmitPutAdds(st: Store, id: OrderId, now: nat, ext: ExternalId, robot: RobotId, l: Location,
                     target: Option<Location>)
    requires Keyed(st) && id !in st.orders
    ensures Adds(st, AdmitPut(st, id, now, ext, robot, l, target), id, ext)
  {
    hide Adds, Keyed, AddOrder;
    if l in st.slots {
      if StackDepth(st, l) > 1 {
        AddsAfterSlotChange(st, Served(DecrementStack(st, l).value, id, l),
                            NewOrder(id, now, Put, ext, robot, l, target, Some(l), true), id, ext);
      } else {
        var o := NewOrder(id, now, Put, ext, robot, l, target, Some(l), false);
        var reserved := ReserveForPut(st, l, id);
        if reserved.Some? {
          AddsAfterSlotChange(st, Served(reserved.value, id, l), o, id, ext);
        } else {
          AddsAfterSlotChange(st, st, o.(waiting := true), id, ext);
        }
      }
    } else {
      AddsNothing(st, AdmitPut(st, id, now, ext, robot, l, target), id, ext);
    }
  }

  lemma AddsAfterSlotChange(st: Store, s: Store, o: Order, id: OrderId, ext: ExternalId)
    requires Keyed(st) && id !in st.orders && o.id == id
    requires s.orders == st.orders && s.orderKeys == st.orderKeys && s.slotKeys == st.slotKeys
    requires s.slots.Keys == st.slots.Keys
    requires o.status == Pending && WellShaped(o) && (o.slot.None? ==> o.kind == Pick)
    requires o.externalId == if ext.Given? then Some(ext.value) else None
    ensures Adds(st, Created(AddOrder(s, o), o), id, ext)
  {
  }

  lemma SubmitAdds(st: Store, input: SubmitInput, id: OrderId, now: nat)
    requires Keyed(st) && id !in st.orders
    ensures Adds(st, SubmitStore(st, input, id, now), id, input.id)
  {
    var res := SubmitStore(st, input, id, now);
    SubmitCases(st, input, id, now);
    hide *;
    if res.Created? {
      var l, o := Parse(input.locationCode).value.location, res.order;
      if o.kind == Pick {
        AdmitPickAdds(st, id, now, input.id, o.robot, l, o.target, SlotOverride(input));
      } else {
        AdmitPutAdds(st, id, now, input.id, o.robot, l, o.target);
      }
    } else {
      AddsNothing(st, res, id, input.id);
    }
  }

  lemma AddsNothing(st: Store, res: SubmitResult, id: OrderId, ext: ExternalId)
    requires !res.Created?
    ensures Adds(st, res, id, ext)
  {
  }

  /** Submission is idempotent in the external id and keeps the order table good. */
  lemma SubmitKeepsGood(st: Store, input: SubmitInput, id: OrderId, now: nat)
    requires GoodStore(st, id)
    ensures var res := SubmitStore(st, input, id, now);
            && (res.Created? ==> GoodStore(res.store, id + 1))
            && (res.Existing? ==>
                 input.id.Given? && res.id in st.orders && st.orders[res.id].externalId == Some(input.id.value))
            && (res.Created? && input.id.Given? ==> forall k :: k in st.orders ==>
                 st.orders[k].externalId != Some(input.id.value))
  {
    SubmitAdds(st, input, id, now);
    var res := SubmitStore(st, input, id, now);
    if input.id.Given? { FindByExternalMeaning(st, input.id.value); }
    if res.Created? {
      assert input.id.Given? ==> FindByExternalId(st, input.id.value).None?;
      AddKeepsGood(st, res.store, res.order, id);
    }
  }

  lemma AddKeepsGood(st: Store, st': Store, o: Order, id: OrderId)
    requires GoodStore(st, id)
    requires Adds(st, Created(st', o), id, if o.externalId.Some? then Given(o.externalId.value) else Absent)
    requires o.externalId.Some? ==> forall k :: k in st.orders ==> st.orders[k].externalId != o.externalId
    ensures GoodStore(st', id + 1)
  {
    assert id !in st.orders && id !in st.orderKeys;
    forall c ensures c in st'.slotKeys <==> c in st'.slots { assert c in st'.slots.Keys <==> c in st.slots.Keys; }
    assert Keyed(st');
  }

  // ---------- one action ----------

  /** Changing order `id` and the queues of its robot only: enough for the other orders to stay where they are. */
  lemma OthersStay(orders: map<OrderId, Order>, qs: QueueTable, orders': map<OrderId, Order>, qs': QueueTable,
      id: OrderId)
    requires id in orders && id in orders' && orders' == orders[id := orders'[id]]
    requires forall k :: k in orders ==> orders[k].id == k
    requires SameIdentity(orders[id], orders'[id])
    requires forall r :: r != orders[id].robot ==> QueueOf(qs', r) == QueueOf(qs, r)
    requires forall k :: k != id ==>
               && (k in QueueOf(qs', orders[id].robot).items <==> k in QueueOf(qs, orders[id].robot).items)
               && (QueueOf(qs', orders[id].robot).active == Some(k) <==>
                    QueueOf(qs, orders[id].robot).active == Some(k))
    requires NoneLost(orders, qs) && QueuesMatch(orders, qs)
    requires orders'[id].status == Pending ==> Enqueued(qs', orders'[id]) || Active(qs', orders'[id])
    requires orders'[id].status == InProgress ==> Active(qs', orders'[id])
    requires orders'[id].slot.None? && orders'[id].status == Canceled ==>
        !Enqueued(qs', orders'[id]) && !Active(qs', orders'[id])
    ensures NoneLost(orders', qs') && QueuesMatch(orders', qs')
  {
  }

  /** Appending an order to a queue moves nobody. */
  lemma EnqueueKeeps(qs: QueueTable, r: RobotId, id: OrderId)
    ensures forall x :: x != r ==> QueueOf(Enqueue(qs, r, id), x) == QueueOf(qs, x)
    ensures forall k :: k in QueueOf(Enqueue(qs, r, id), r).items <==> k in QueueOf(qs, r).items || k == id
    ensures QueueOf(Enqueue(qs, r, id), r).active == QueueOf(qs, r).active
    ensures id in QueueOf(Enqueue(qs, r, id), r).items
  {
    var q, q' := QueueOf(qs, r), QueueOf(Enqueue(qs, r, id), r);
    assert q'.items == q.items + [id];
    assert q'.items[|q.items|] == id;
  }

  predicate SameRecord(o: Order, o': Order) {
    SameIdentity(o, o') && o'.slot == o.slot && Logical(o') == Logical(o)
  }

  /** A waiting loop's record keeps matching while its order keeps slot, kind and identity and nobody else gets
      active. */
  lemma TicketsKept(w: World, w': World)
    requires TicketsMatch(w)
    requires forall r :: r in w'.inStep ==> r in w.inStep && w'.inStep[r] == w.inStep[r]
    requires forall r :: r in w'.inStep ==>
               QueueOf(w'.queues, r).active.None? || QueueOf(w'.queues, r).active == QueueOf(w.queues, r).active
    requires forall r :: r in w'.inStep && w.inStep[r].id in w.store.orders ==>
               && w.inStep[r].id in w'.store.orders
               && SameRecord(w.store.orders[w.inStep[r].id], w'.store.orders[w.inStep[r].id])
               && (w'.store.orders[w.inStep[r].id].status == Done ==> w.store.orders[w.inStep[r].id].status == Done)
    ensures TicketsMatch(w')
  {
    forall r | r in w'.inStep ensures TicketMatches(w', r, w'.inStep[r]) {
      assert TicketMatches(w, r, w.inStep[r]);
    }
  }

  /** A new PENDING order placed at the end of its robot's queue. */
  lemma NewOrderPlaced(orders: map<OrderId, Order>, qs: QueueTable, o: Order)
    requires NoneLost(orders, qs) && QueuesMatch(orders, qs) && o.id !in orders && o.status == Pending
    requires forall k :: k in orders ==> orders[k].id == k
    ensures NoneLost(orders[o.id := o], Enqueue(qs, o.robot, o.id))
    ensures QueuesMatch(orders[o.id := o], Enqueue(qs, o.robot, o.id))
  {
    EnqueueKeeps(qs, o.robot, o.id);
  }

  /** The head of the queue made active. */
  lemma HeadActivated(orders: map<OrderId, Order>, qs: QueueTable, r: RobotId, id: OrderId)
    requires NoneLost(orders, qs) && QueuesMatch(orders, qs)
    requires forall k :: k in orders ==> orders[k].id == k
    requires QueueOf(qs, r).active.None? && !QueueOf(qs, r).paused && QueueOf(qs, r).items != []
    requires QueueOf(qs, r).items[0] == id
    ensures NoneLost(orders, SetActive(DropFirst(qs, r), r, Some(id)))
    ensures QueuesMatch(orders, SetActive(DropFirst(qs, r), r, Some(id)))
  {
    DropFirstKeeps(qs, r, id);
  }

  lemma SubmitConsistent(w: World, input: SubmitInput, now: nat)
    requires Consistent(w)
    ensures Consistent(Submit(w, input, now))
  {
    var res := SubmitStore(w.store, input, w.nextId, now);
    if res.Created? {
      SubmitAdds(w.store, input, w.nextId, now);
      SubmitKeepsGood(w.store, input, w.nextId, now);
      hide SubmitStore, GoodStore, NoneLost, QueuesMatch, TicketsMatch;
      SubmitPlaces(w, res.store, res.order, Submit(w, input, now));
    }
  }

  lemma SubmitPlaces(w: World, st: Store, o: Order, w': World)
    requires Consistent(w) && o.id == w.nextId && o.status == Pending && st.orders == w.store.orders[o.id := o]
    requires GoodStore(st, w.nextId + 1)
    requires w' == Save(w.(store := st, queues := Enqueue(w.queues, o.robot, o.id), nextId := w.nextId + 1))
    ensures Consistent(w')
  {
    SnapshotGood(st, w.nextId + 1);
    NewOrderPlaced(w.store.orders, w.queues, o);
    TicketsAfterAdding(w, w', o);
  }

  lemma TicketsAfterAdding(w: World, w': World, o: Order)
    requires TicketsMatch(w) && o.id !in w.store.orders && w'.store.orders == w.store.orders[o.id := o]
    requires w'.inStep == w.inStep && w'.queues == Enqueue(w.queues, o.robot, o.id)
    ensures TicketsMatch(w')
  {
    EnqueueKeeps(w.queues, o.robot, o.id);
    TicketsKept(w, w');
  }

  lemma DropFirstKeeps(qs: QueueTable, r: RobotId, id: OrderId)
    requires QueueOf(qs, r).active.None? && !QueueOf(qs, r).paused && QueueOf(qs, r).items != []
    requires QueueOf(qs, r).items[0] == id
    ensures var qs' := SetActive(DropFirst(qs, r), r, Some(id));
            && (forall x :: x != r ==> QueueOf(qs', x) == QueueOf(qs, x))
            && QueueOf(qs', r).active == Some(id)
            && (forall k :: k in QueueOf(qs, r).items <==> k == id || k in QueueOf(qs', r).items)
  {
    var q, q' := QueueOf(qs, r), QueueOf(SetActive(DropFirst(qs, r), r, Some(id)), r);
    assert q.items == [id] + q'.items;
  }

  lemma TakeNextKnown(w: World, r: RobotId, id: OrderId)
    requires QueuesMatch(w.store.orders, w.queues) && NextOrder(w, r) == Some(id)
    ensures id in w.store.orders && w.store.orders[id].robot == r
    ensures w.store.orders[id].slot.None? ==> w.store.orders[id].status != Canceled
  {
    if QueueOf(w.queues, r).active.None? { assert id in QueueOf(w.queues, r).items; }
  }

  lemma TakeNextConsistent(w: World, r: RobotId, id: OrderId)
    requires Consistent(w) && r !in w.inStep && NextOrder(w, r) == Some(id)
    ensures Consistent(TakeNext(w, r, id)) && QueueOf(TakeNext(w, r, id).queues, r).active == Some(id)
  {
    var v := TakeNext(w, r, id);
    if QueueOf(w.queues, r).active.None? {
      HeadActivated(w.store.orders, w.queues, r, id);
      DropFirstKeeps(w.queues, r, id);
      TicketsKept(w, v);
    } else {
      QueuesOnly(w, v);
    }
  }

  /** The queues of every pass outcome. */
  lemma SettleQueues(w: World, r: RobotId, id: OrderId, p: Processed)
    requires QueueOf(w.queues, r).active == Some(id) && PassOutcome(w.store, id, p) && w.store.orders[id].robot == r
    ensures var qs := Settle(w, r, id, p).queues;
            && (forall x :: x != r ==> QueueOf(qs, x) == QueueOf(w.queues, x))
            && (forall k :: k != id ==> (k in QueueOf(qs, r).items <==> k in QueueOf(w.queues, r).items))
            && (forall k :: k != id ==> QueueOf(qs, r).active != Some(k))
            && (p.store.orders[id].status == Pending ==> id in QueueOf(qs, r).items)
            && (p.store.orders[id].status == InProgress ==> QueueOf(qs, r).active == Some(id))
  {
    if p.effect == Deferred { EnqueueKeeps(SetActive(w.queues, r, None), r, id); }
  }

  lemma SettlePlaces(w: World, r: RobotId, id: OrderId, p: Processed)
    requires NoneLost(w.store.orders, w.queues) && QueuesMatch(w.store.orders, w.queues)
    requires forall k :: k in w.store.orders ==> w.store.orders[k].id == k
    requires QueueOf(w.queues, r).active == Some(id) && PassOutcome(w.store, id, p) && w.store.orders[id].robot == r
    requires p.store.orders[id].slot.None? ==> p.store.orders[id].status != Canceled
    ensures var w' := Settle(w, r, id, p);
            NoneLost(w'.store.orders, w'.queues) && QueuesMatch(w'.store.orders, w'.queues)
  {
    var w' := Settle(w, r, id, p);
    SettleQueues(w, r, id, p);
    OthersStay(w.store.orders, w.queues, w'.store.orders, w'.queues, id);
  }

  lemma SettleShape(w: World, r: RobotId, id: OrderId, p: Processed)
    ensures Settle(w, r, id, p).store == p.store
    ensures Settle(w, r, id, p).inStep == if p.effect.Suspended? then w.inStep[r := p.effect.ticket] else w.inStep
  {
    hide Snapshot;
  }

  lemma SettleTickets(w: World, r: RobotId, id: OrderId, p: Processed)
    requires TicketsMatch(w) && r !in w.inStep && QueueOf(w.queues, r).active == Some(id)
    requires PassOutcome(w.store, id, p) && w.store.orders[id].robot == r && p.store.orders[id].id == id
    ensures TicketsMatch(Settle(w, r, id, p))
  {
    var w' := Settle(w, r, id, p);
    SettleQueues(w, r, id, p);
    SettleShape(w, r, id, p);
    hide Settle, WellShaped, Commandable, SameIdentity;
    forall x | x in w'.inStep ensures TicketMatches(w', x, w'.inStep[x]) {
      if x != r { assert TicketMatches(w, x, w.inStep[x]); }
    }
  }

  lemma SettleConsistent(w: World, r: RobotId, id: OrderId, p: Processed)
    requires Consistent(w) && r !in w.inStep && QueueOf(w.queues, r).active == Some(id)
    requires PassOutcome(w.store, id, p) && w.store.orders[id].robot == r
    requires p.store.orders[id].slot.None? ==> p.store.orders[id].status != Canceled
    ensures Consistent(Settle(w, r, id, p))
  {
    TouchKeepsGood(w.store, p.store, id, w.nextId);
    SnapshotGood(p.store, w.nextId);
    SettlePlaces(w, r, id, p);
    SettleTickets(w, r, id, p);
  }

  lemma PassKeepsUncanceled(st: Store, id: OrderId, p: Processed)
    requires PassOutcome(st, id, p) && (st.orders[id].slot.None? ==> st.orders[id].status != Canceled)
    ensures p.store.orders[id].slot.None? ==> p.store.orders[id].status != Canceled
  {
  }

  lemma LoopConsistent(w: World, r: RobotId)
    requires Consistent(w)
    ensures Consistent(LoopStep(w, r))
  {
    if r !in w.inStep {
      if NextOrder(w, r).Some? {
        LoopWithOrder(w, r, NextOrder(w, r).value);
      } else {
        QueuesOnly(w, LoopStep(w, r));
      }
    }
  }

  lemma LoopWithOrder(w: World, r: RobotId, id: OrderId)
    requires Consistent(w) && r !in w.inStep && NextOrder(w, r) == Some(id)
    ensures Consistent(ProcessOrder(TakeNext(w, r, id), r, id))
  {
    hide ProcessStore, Settle, Touches, UniqueExternalIds, SameIdentity, NoneLost;
    TakeNextKnown(w, r, id);
    TakeNextConsistent(w, r, id);
    var v := TakeNext(w, r, id);
    assert v.store == w.store && v.inStep == w.inStep;
    ProcessPass(v.store, id);
    PassKeepsUncanceled(v.store, id, ProcessStore(v.store, id));
    SettleConsistent(v, r, id, ProcessStore(v.store, id));
  }

  /** Creating an empty queue or pausing one changes no membership. */
  lemma QueuesOnly(w: World, w': World)
    requires Consistent(w) && w' == w.(queues := w'.queues)
    requires forall x :: QueueOf(w'.queues, x).items == QueueOf(w.queues, x).items
                         && QueueOf(w'.queues, x).active == QueueOf(w.queues, x).active
    ensures Consistent(w')
  {
    SameMembership(w.store.orders, w.queues, w'.queues);
    TicketsKept(w, w');
  }

  lemma SameMembership(orders: map<OrderId, Order>, qs: QueueTable, qs': QueueTable)
    requires NoneLost(orders, qs) && QueuesMatch(orders, qs)
    requires forall x ::
        QueueOf(qs', x).items == QueueOf(qs, x).items && QueueOf(qs', x).active == QueueOf(qs, x).active
    ensures NoneLost(orders, qs') && QueuesMatch(orders, qs')
  {
  }

  lemma StepDoneTouches(st: Store, t: Order)
    requires Keyed(st) && t.id in st.orders && WellShaped(st.orders[t.id]) && !Logical(st.orders[t.id])
    requires st.orders[t.id].slot.Some?
    requires t.steps == BuildSteps(st.orders[t.id].kind) && t.stepIndex < 5
    ensures var st' := StepDoneStore(st, t);
            && Touches(st, st', t.id) && WellShaped(st'.orders[t.id]) && SameRecord(st.orders[t.id], st'.orders[t.id])
            && st'.orders[t.id].status == st.orders[t.id].status
  {
  }

  lemma StepFailedTouches(st: Store, t: Order)
    requires Keyed(st) && t.id in st.orders && WellShaped(st.orders[t.id]) && !Logical(st.orders[t.id])
    requires st.orders[t.id].slot.Some?
    ensures var st' := StepFailedStore(st, t);
            && Touches(st, st', t.id) && WellShaped(st'.orders[t.id]) && SameRecord(st.orders[t.id], st'.orders[t.id])
            && st'.orders[t.id].status == Error
  {
  }

  lemma StepEndTouches(w: World, r: RobotId, replies: seq<StepReply>)
    requires Keyed(w.store) && r in w.inStep && TicketMatches(w, r, w.inStep[r])
    requires WellShaped(w.store.orders[w.inStep[r].id])
    ensures var t, st := w.inStep[r], StepEnd(w, r, replies).store;
            && Touches(w.store, st, t.id) && WellShaped(st.orders[t.id])
            && SameRecord(w.store.orders[t.id], st.orders[t.id])
            && st.orders[t.id].status
               == (if RunStep(w.maxRetries, replies).ok then w.store.orders[t.id].status else Error)
  {
    StepDoneTouches(w.store, w.inStep[r]);
    StepFailedTouches(w.store, w.inStep[r]);
  }

  lemma StepEndPlaces(w: World, r: RobotId, replies: seq<StepReply>)
    requires NoneLost(w.store.orders, w.queues) && QueuesMatch(w.store.orders, w.queues) && Keyed(w.store)
    requires r in w.inStep && TicketMatches(w, r, w.inStep[r]) && WellShaped(w.store.orders[w.inStep[r].id])
    ensures var w' := StepEnd(w, r, replies);
            NoneLost(w'.store.orders, w'.queues) && QueuesMatch(w'.store.orders, w'.queues)
  {
    StepEndTouches(w, r, replies);
    var w' := StepEnd(w, r, replies);
    OthersStay(w.store.orders, w.queues, w'.store.orders, w'.queues, w.inStep[r].id);
  }

  lemma StepEndShape(w: World, r: RobotId, replies: seq<StepReply>)
    requires r in w.inStep
    ensures StepEnd(w, r, replies).inStep == w.inStep - {r}
    ensures forall x :: QueueOf(StepEnd(w, r, replies).queues, x).active in {None, QueueOf(w.queues, x).active}
  {
    hide RunStep, TicketCode, StepDoneStore, StepFailedStore, Snapshot;
  }

  lemma StepEndTickets(w: World, r: RobotId, replies: seq<StepReply>)
    requires TicketsMatch(w) && Keyed(w.store) && r in w.inStep && w.inStep[r].id in w.store.orders
    requires WellShaped(w.store.orders[w.inStep[r].id])
    ensures TicketsMatch(StepEnd(w, r, replies))
  {
    hide StepEnd, WellShaped, Commandable, TicketMatches;
    assert TicketMatches(w, r, w.inStep[r]);
    StepEndTouches(w, r, replies);
    StepEndShape(w, r, replies);
    TicketsKept(w, StepEnd(w, r, replies));
  }

  lemma StepEndGood(w: World, r: RobotId, replies: seq<StepReply>)
    requires GoodStore(w.store, w.nextId) && r in w.inStep && TicketMatches(w, r, w.inStep[r])
    ensures var w' := StepEnd(w, r, replies); GoodStore(w'.store, w.nextId) && GoodStore(w'.saved, w.nextId)
  {
    StepEndTouches(w, r, replies);
    TouchKeepsGood(w.store, StepEnd(w, r, replies).store, w.inStep[r].id, w.nextId);
    SnapshotGood(StepEnd(w, r, replies).store, w.nextId);
  }

  lemma StepEndConsistent(w: World, r: RobotId, replies: seq<StepReply>)
    requires Consistent(w)
    ensures Consistent(StepEnd(w, r, replies))
  {
    if r in w.inStep {
      assert TicketMatches(w, r, w.inStep[r]);
      StepEndGood(w, r, replies);
      StepEndPlaces(w, r, replies);
      StepEndTickets(w, r, replies);
      StepEndAcks(w, r, replies);
    }
  }

  lemma StepEndAcks(w: World, r: RobotId, replies: seq<StepReply>)
    requires r in w.inStep && w.inStep[r].id < w.nextId && forall id :: id in w.acked ==> id < w.nextId
    ensures var w' := StepEnd(w, r, replies); w'.nextId == w.nextId && forall id :: id in w'.acked ==> id < w.nextId
  {
  }

  lemma CancelTouches(st: Store, id: OrderId)
    requires Keyed(st) && id in st.orders && WellShaped(st.orders[id])
    ensures Touches(st, CancelStore(st, id), id) && CancelStore(st, id).orders[id] == st.orders[id].(status := Canceled)
    ensures WellShaped(CancelStore(st, id).orders[id])
  {
  }

  lemma CancelPlaces(w: World, id: OrderId)
    requires NoneLost(w.store.orders, w.queues) && QueuesMatch(w.store.orders, w.queues)
    requires Keyed(w.store) && id in w.store.orders && WellShaped(w.store.orders[id])
    ensures var w' := Cancel(w, id); NoneLost(w'.store.orders, w'.queues) && QueuesMatch(w'.store.orders, w'.queues)
  {
    var w' := Cancel(w, id);
    CancelTouches(w.store, id);
    WithoutMembers(QueueOf(w.queues, w.store.orders[id].robot).items, id);
    OthersStay(w.store.orders, w.queues, w'.store.orders, w'.queues, id);
  }

  lemma CancelTickets(w: World, id: OrderId)
    requires TicketsMatch(w) && id in w.store.orders
    ensures TicketsMatch(Cancel(w, id))
  {
    TicketsKept(w, Cancel(w, id));
  }

  lemma CancelConsistent(w: World, id: OrderId)
    requires Consistent(w)
    ensures Consistent(Cancel(w, id))
  {
    if id in w.store.orders {
      CancelTouches(w.store, id);
      TouchKeepsGood(w.store, CancelStore(w.store, id), id, w.nextId);
      CancelPlaces(w, id);
      CancelTickets(w, id);
    }
  }

  lemma RetryTouches(st: Store, id: OrderId)
    requires Keyed(st) && id in st.orders && WellShaped(st.orders[id])
    ensures Touches(st, RetryStore(st, id), id) && WellShaped(RetryStore(st, id).orders[id])
    ensures SameRecord(st.orders[id], RetryStore(st, id).orders[id])
  {
  }

  lemma RetryPlaces(w: World, id: OrderId)
    requires NoneLost(w.store.orders, w.queues) && QueuesMatch(w.store.orders, w.queues)
    requires Keyed(w.store) && id in w.store.orders && WellShaped(w.store.orders[id])
    ensures var w' := Retry(w, id, true);
            NoneLost(w'.store.orders, w'.queues) && QueuesMatch(w'.store.orders, w'.queues)
  {
    var w' := Retry(w, id, true);
    RetryTouches(w.store, id);
    EnqueueKeeps(w.queues, w.store.orders[id].robot, id);
    OthersStay(w.store.orders, w.queues, w'.store.orders, w'.queues, id);
  }

  lemma RetryTickets(w: World, id: OrderId)
    requires TicketsMatch(w) && id in w.store.orders
    ensures TicketsMatch(Retry(w, id, true))
  {
    TicketsKept(w, Retry(w, id, true));
  }

  lemma RetryConsistent(w: World, id: OrderId, resetOk: bool)
    requires Consistent(w)
    ensures Consistent(Retry(w, id, resetOk))
  {
    if id in w.store.orders && resetOk {
      RetryTouches(w.store, id);
      TouchKeepsGood(w.store, RetryStore(w.store, id), id, w.nextId);
      SnapshotGood(RetryStore(w.store, id), w.nextId);
      RetryPlaces(w, id);
      RetryTickets(w, id);
    }
  }

  lemma ReleaseGood(st: Store, c: Location, n: OrderId)
    requires GoodStore(st, n) && c in st.slots
    ensures GoodStore(Release(st, c), n)
  {
    assert Release(st, c).slots.Keys == st.slots.Keys;
  }

  lemma ReleaseConsistent(w: World, c: Location)
    requires Consistent(w)
    ensures Consistent(ReleaseManually(w, c))
  {
    if c in w.store.slots {
      ReleaseGood(w.store, c, w.nextId);
      SnapshotGood(Release(w.store, c), w.nextId);
      TicketsKept(w, ReleaseManually(w, c));
    }
  }

  lemma RestartGood(w: World, config: seq<Location>)
    requires GoodStore(w.saved, w.nextId)
    ensures GoodStore(Restart(w, config).store, w.nextId)
  {
    RehydratedMeaning(config, w.saved, "");
    ReopenedGood(w.saved, Restart(w, config).store, w.nextId);
  }

  lemma ReopenedShape(o: Order)
    requires WellShaped(o)
    ensures WellShaped(Reopened(o))
  {
  }

  lemma ReopenedGood(saved: Store, st: Store, n: OrderId)
    requires GoodStore(saved, n) && Keyed(st) && st.orders.Keys == saved.orders.Keys
    requires forall id :: id in saved.orders ==> st.orders[id] == Reopened(saved.orders[id])
    ensures GoodStore(st, n)
  {
    hide WellShaped;
    forall id | id in st.orders ensures id in saved.orders && WellShaped(st.orders[id]) && id < n {
      assert id in saved.orders.Keys;
      ReopenedShape(saved.orders[id]);
    }
    forall a, b | a in st.orders && b in st.orders && st.orders[a].externalId.Some?
                  && st.orders[a].externalId == st.orders[b].externalId
      ensures a == b
    {
      assert saved.orders[a].externalId == saved.orders[b].externalId;
    }
  }

  lemma RestartNoneLost(w: World, config: seq<Location>)
    requires GoodStore(w.saved, w.nextId)
    ensures var w' := Restart(w, config); NoneLost(w'.store.orders, w'.queues)
  {
    var w' := Restart(w, config);
    forall id | id in w'.store.orders
      ensures (w'.store.orders[id].status == Pending ==> Enqueued(w'.queues, w'.store.orders[id]))
      ensures w'.store.orders[id].status != InProgress
    {
      RehydratedMeaning(config, w.saved, w'.store.orders[id].robot);
    }
  }

  lemma KeyedOf(st: Store, n: OrderId)
    requires GoodStore(st, n)
    ensures Keyed(st)
  {
  }

  lemma RestartQueuesMatch(w: World, config: seq<Location>)
    requires GoodStore(w.saved, w.nextId)
    ensures var w' := Restart(w, config); QueuesMatch(w'.store.orders, w'.queues)
  {
    hide Rehydrated, Keyed, WellShaped, UniqueExternalIds;
    KeyedOf(w.saved, w.nextId);
    var w' := Restart(w, config);
    forall r, id | id in QueueOf(w'.queues, r).items || QueueOf(w'.queues, r).active == Some(id)
      ensures id in w'.store.orders && w'.store.orders[id].robot == r
      ensures (w'.store.orders[id].slot.None? ==> w'.store.orders[id].status != Canceled)
    {
      RehydratedMeaning(config, w.saved, r);
    }
  }

  lemma RestartConsistent(w: World, config: seq<Location>)
    requires Consistent(w)
    ensures Consistent(Restart(w, config))
  {
    RestartGood(w, config);
    RestartNoneLost(w, config);
    RestartQueuesMatch(w, config);
  }

  lemma PauseConsistent(w: World, r: RobotId, paused: bool)
    requires Consistent(w)
    ensures Consistent(w.(queues := SetPaused(w.queues, r, paused)))
  {
    QueuesOnly(w, w.(queues := SetPaused(w.queues, r, paused)));
  }

  lemma NextConsistent(w: World, a: Action)
    requires Consistent(w)
    ensures Consistent(Next(w, a))
  {
    match a
    case DoSubmit(input, now) => SubmitConsistent(w, input, now);
    case DoLoop(r) => LoopConsistent(w, r);
    case DoStepEnd(r, replies) => StepEndConsistent(w, r, replies);
    case DoCancel(id) => CancelConsistent(w, id);
    case DoRetry(id, resetOk) => RetryConsistent(w, id, resetOk);
    case DoRelease(c) => ReleaseConsistent(w, c);
    case DoPause(r, paused) => PauseConsistent(w, r, paused);
    case DoRestart(config) => RestartConsistent(w, config);
  }

  // ---------- every run ----------

  lemma {:induction false} ReachableConsistent(config: seq<Location>, maxRetries: nat, run: seq<Action>)
    ensures Consistent(Exec(Initial(config, maxRetries), run))
    decreases |run|
  {
    if run == [] {
      InitialConsistent(config, maxRetries);
    } else {
      ReachableConsistent(config, maxRetries, run[..|run| - 1]);
      NextConsistent(Exec(Initial(config, maxRetries), run[..|run| - 1]), run[|run| - 1]);
    }
  }

  predicate Running(st: Store, id: OrderId) { id in st.orders && st.orders[id].status == InProgress }

  /** No order is lost, whatever requests arrive and in whatever order, including cancel and retry in the
      middle of a step and crashes: PENDING orders are queued or active, IN_PROGRESS ones are active,
      so a robot has at most one, and no two orders share an external id. */
  lemma NoOrderIsEverLost(config: seq<Location>, maxRetries: nat, run: seq<Action>)
    ensures var w := Exec(Initial(config, maxRetries), run);
            && (forall id :: id in w.store.orders && w.store.orders[id].status == Pending ==>
                  var q := QueueOf(w.queues, w.store.orders[id].robot); id in q.items || q.active == Some(id))
            && (forall id :: id in w.store.orders && w.store.orders[id].status == InProgress ==>
                  QueueOf(w.queues, w.store.orders[id].robot).active == Some(id))
            && (forall a, b ::
                  Running(w.store, a) && Running(w.store, b) && w.store.orders[a].robot == w.store.orders[b].robot ==>
                    a == b)
            && UniqueExternalIds(w.store.orders)
  {
    ReachableConsistent(config, maxRetries, run);
    var w := Exec(Initial(config, maxRetries), run);
    forall id | id in w.store.orders ensures w.store.orders[id].id == id { }
  }
}
