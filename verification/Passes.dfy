/** Every outcome of a pass over an order, field by field: which one it is, and what it leaves. */
module Passes {
  import opened Sequences
  import opened Location
  import opened Domain
  import opened SlotRanking
  import opened Queues
  import opened Orchestrator
  import opened NoLostOrders
  import opened SlotStatuses
  import opened Submission

  /** The slot where the last two steps leave the box. */
  function LeavesAt(o: Order): Location
    requires o.slot.Some?
  {
    if o.kind == Pick then o.slot.value else if o.target.Some? then o.target.value else o.location
  }

  /** The slot table once order o, with its slot, is under way: its slot shows the movement from the first step on. */
  function Moving(slots: map<Location, Slot>, o: Order): map<Location, Slot>
    requires o.slot.Some?
  {
    var x := o.slot.value;
    if o.stepIndex == 0 && x in slots
    then slots[x := slots[x].(status := if o.kind == Pick then Fetching else Returning, owner := Some(o.id))]
    else slots
  }

  /** The slot table once it has ended: a PICK leaves its box there, counted once, a PUT frees the slot. */
  function Left(slots: map<Location, Slot>, o: Order): map<Location, Slot>
    requires o.slot.Some?
  {
    var x := o.slot.value;
    if x !in slots then slots
    else if o.kind == Pick then slots[x := Slot(Occupied, Some(o.id), Some(Box(o.location, o.id)), Some(1))]
    else slots[x := Slot(Free, None, None, None)]
  }

  /** Order o, its slot given, runs in the tables of st with these slots: it finishes when no step is left, throws
      when a location is in module 00, and else waits for its next step. */
  ghost predicate RunsOn(st: Store, slots: map<Location, Slot>, o: Order, p: Processed)
    requires o.slot.Some?
  {
    var started := o.(waiting := false, status := InProgress);
    if o.stepIndex >= |o.steps| then
      && p.effect == Finished
      && p.store == st.(orders := st.orders[o.id := started.(status := Done)], slots := Left(Moving(slots, o), o),
                        serving := if o.kind == Pick && o.slot.value in slots then st.serving[o.id := o.id]
                                   else st.serving)
    else
      && p.store == st.(orders := st.orders[o.id := started], slots := Moving(slots, o))
      && p.effect == (if o.location.moduleNumber == 0 || LeavesAt(o).moduleNumber == 0 then Crashed
                      else Suspended(started))
  }

  /** The order joins the box that stands in slot c and is done; one that was canceled joins it and stays canceled. */
  ghost predicate Joins(st: Store, id: OrderId, c: Location, p: Processed)
    requires id in st.orders
  {
    var o := st.orders[id];
    var joined := o.(slot := Some(c), steps := [], logicalPick := true);
    && StandsIn(st, o.location, c)
    && Recounted(st, p.store, id, c, CountIn(st.slots[c]) + 1)
    && p.store.orders == st.orders[id := joined.(status := if o.status == Canceled then Canceled else Done)]
    && p.effect == (if o.status == Canceled then AlreadyTerminal else LogicalDone)
  }

  /** The order gets slot c, the nearest LIBRE one on its side, and runs there. */
  ghost predicate Placed(st: Store, id: OrderId, c: Location, p: Processed)
    requires id in st.orders
  {
    var o := st.orders[id];
    && FreeOnSide(st, o.location, c)
    && (forall d :: FreeOnSide(st, o.location, d) && d != c ==> Closer(o.location, c, d))
    && RunsOn(st, st.slots[c := st.slots[c].(status := Reserved, owner := Some(id))], o.(slot := Some(c)), p)
  }

  /** The outcome of a pass over order id. */
  ghost predicate PassIs(st: Store, id: OrderId, p: Processed) {
    if id !in st.orders then p == Processed(st, Gone)
    else
      var o := st.orders[id];
      if o.slot.None? && exists c :: HoldsBoxFrom(st.slots, c, o.location) then exists c :: Joins(st, id, c, p)
      else if o.status in {Done, Error, Canceled} then p == Processed(st, AlreadyTerminal)
      else if o.logicalPick || o.logicalReturn then
        p == Processed(st.(orders := st.orders[id := o.(status := Done)]), LogicalDone)
      else if o.slot.Some? then RunsOn(st, st.slots, o, p)
      else if exists c :: FreeOnSide(st, o.location, c) then exists c :: Placed(st, id, c, p)
      else p == Processed(st.(orders := st.orders[id := o.(status := Pending, waiting := true)]), Deferred)
  }

  lemma BegunAs(st: Store, id: OrderId)
    requires id in st.orders && st.orders[id].slot.Some? && st.orders[id].id == id
    ensures var o := st.orders[id];
            BeginStore(st, id)
            == st.(orders := st.orders[id := o.(waiting := false, status := InProgress)], slots := Moving(st.slots, o))
  {
  }

  lemma FinishedAs(st: Store, id: OrderId)
    requires id in st.orders && st.orders[id].slot.Some? && st.orders[id].id == id
    ensures var o := st.orders[id];
            FinishStore(st, id)
            == st.(orders := st.orders[id := o.(status := Done)], slots := Left(st.slots, o),
                   serving := if o.kind == Pick && o.slot.value in st.slots then st.serving[id := id] else st.serving)
  {
  }

  lemma RunAs(st: Store, id: OrderId)
    requires id in st.orders && st.orders[id].slot.Some? && st.orders[id].id == id
    ensures RunsOn(st, st.slots, st.orders[id], RunStore(st, id))
  {
    hide BeginStore, FinishStore, Moving, Left;
    BegunAs(st, id);
    FinishedAs(BeginStore(st, id), id);
    MovingKeys(st.slots, st.orders[id]);
    SameEnd(Moving(st.slots, st.orders[id]), st.orders[id], BeginStore(st, id).orders[id]);
    var o := st.orders[id];
    assert BeginStore(st, id).orders[id] == o.(waiting := false, status := InProgress);
    assert st.orders[id := o.(waiting := false, status := InProgress)][id := o.(waiting := false, status := Done)]
        == st.orders[id := o.(waiting := false, status := Done)];
  }

  lemma MovingKeys(slots: map<Location, Slot>, o: Order)
    requires o.slot.Some?
    ensures Moving(slots, o).Keys == slots.Keys
    ensures o.slot.value in Moving(slots, o) <==> o.slot.value in slots
  {
  }

  lemma SameEnd(slots: map<Location, Slot>, o: Order, o': Order)
    requires o.slot.Some? && o'.slot == o.slot && o'.kind == o.kind && o'.id == o.id && o'.location == o.location
    ensures Left(slots, o) == Left(slots, o')
  {
  }

  /** The pass that first makes the order join the box standing in c. */
  lemma ConvertedAs(st: Store, id: OrderId, c: Location)
    requires id in st.orders && FindOccupiedBySource(st, st.orders[id].location) == Some(c) && c in st.slots
    requires st.orders[id].kind == Pick && !st.orders[id].logicalPick && st.orders[id].slot.None?
    ensures var s := ConvertStore(st, id);
            && s.orders == st.orders[id := st.orders[id].(slot := Some(c), steps := [], logicalPick := true)]
            && Recounted(st, s, id, c, CountIn(st.slots[c]) + 1)
            && s.orderKeys == st.orderKeys && s.slotKeys == st.slotKeys
  {
    hide FindOccupiedBySource;
  }

  lemma JoinsAs(st: Store, id: OrderId, c: Location)
    requires Keyed(st) && id in st.orders && FindOccupiedBySource(st, st.orders[id].location) == Some(c)
    requires st.orders[id].kind == Pick && !Logical(st.orders[id]) && st.orders[id].slot.None?
    requires st.orders[id].status in {Pending, Canceled}
    ensures Joins(st, id, c, ProcessStore(st, id))
  {
    hide ProcessStore, ConvertStore, FindOccupiedBySource, StandsIn, Keyed, CountIn;
    FoundStands(st, st.orders[id].location, c);
    assert c in st.slots by { FindOccupiedMeaning(st, st.orders[id].location); }
    ConvertedAs(st, id, c);
    ProcessCases(st, id);
    var joined := st.orders[id].(slot := Some(c), steps := [], logicalPick := true);
    assert st.orders[id := joined][id := joined.(status := Done)] == st.orders[id := joined.(status := Done)];
  }

  lemma PlacedAs(st: Store, id: OrderId)
    requires Keyed(st) && id in st.orders && AssignStore(st, id).Some?
    ensures exists c :: Placed(st, id, c, RunStore(AssignStore(st, id).value, id))
  {
    hide RunStore, AssignStore, Closer, FreeOnSide, RunsOn;
    AssignedSlotIsNearest(st, id);
    AssignedAs(st, id);
    var s := AssignStore(st, id).value;
    var c := s.orders[id].slot.value;
    RunAs(s, id);
    SameRun(st, s, s.slots, s.orders[id], st.orders[id].(slot := Some(c)), RunStore(s, id));
    assert Placed(st, id, c, RunStore(s, id));
  }

  lemma AssignedAs(st: Store, id: OrderId)
    requires id in st.orders && st.orders[id].id == id && AssignStore(st, id).Some?
    ensures var s := AssignStore(st, id).value;
            && id in s.orders && s.orders[id].slot.Some?
            && s == st.(orders := st.orders[id := st.orders[id].(slot := s.orders[id].slot, waiting := false)],
                        slots := s.slots)
  {
    hide RankSlots, ListAvailableSlots;
  }

  /** Which of two records of the order the run starts from makes no difference. */
  lemma SameRun(st: Store, s: Store, slots: map<Location, Slot>, o: Order, o': Order, p: Processed)
    requires o.slot.Some? && o == o'.(waiting := false) && s == st.(orders := st.orders[o.id := o], slots := slots)
    requires RunsOn(s, slots, o, p)
    ensures RunsOn(st, slots, o', p)
  {
    var started := o.(waiting := false, status := InProgress);
    assert s.orders[o.id := started] == st.orders[o.id := started];
    assert s.orders[o.id := started.(status := Done)] == st.orders[o.id := started.(status := Done)];
  }

  lemma PassWithSlot(st: Store, id: OrderId)
    requires Keyed(st) && id in st.orders && st.orders[id].slot.Some?
    ensures PassIs(st, id, ProcessStore(st, id))
  {
    hide ProcessStore, ConvertStore, AssignStore, RunStore, RunsOn, Joins, Placed, Keyed, FindOccupiedBySource,
      HoldsBoxFrom, FreeOnSide;
    ProcessCases(st, id);
    NotStanding(st, id);
    RunWith(st, id);
  }

  lemma PassWithoutSlot(st: Store, id: OrderId)
    requires Keyed(st) && id in st.orders && st.orders[id].kind == Pick && !Logical(st.orders[id])
    requires st.orders[id].slot.None? && st.orders[id].status in {Pending, Canceled}
    ensures PassIs(st, id, ProcessStore(st, id))
  {
    hide ProcessStore, ConvertStore, AssignStore, RunStore, RunsOn, Joins, Placed, Keyed, FindOccupiedBySource,
      HoldsBoxFrom, FreeOnSide;
    var source := st.orders[id].location;
    FindOccupiedMeaning(st, source);
    NotStanding(st, id);
    if FindOccupiedBySource(st, source).Some? {
      JoinsAs(st, id, FindOccupiedBySource(st, source).value);
    } else {
      ProcessCases(st, id);
      AssignedSlotIsNearest(st, id);
      if AssignStore(st, id).Some? { PlacedAs(st, id); }
    }
  }

  /** Each outcome of a pass comes exactly when, and leaves exactly what, `PassIs` says. */
  lemma PassExactly(st: Store, id: OrderId)
    requires Keyed(st) && (id in st.orders ==> WellShaped(st.orders[id]))
    ensures PassIs(st, id, ProcessStore(st, id))
  {
    hide PassIs, ProcessStore, Keyed;
    if id !in st.orders {
      PassOverNone(st, id);
    } else if st.orders[id].slot.Some? {
      PassWithSlot(st, id);
    } else {
      PassWithoutSlot(st, id);
    }
  }

  lemma PassOverNone(st: Store, id: OrderId)
    requires id !in st.orders
    ensures PassIs(st, id, ProcessStore(st, id))
  {
  }

  lemma RunWith(st: Store, id: OrderId)
    requires Keyed(st) && id in st.orders
    ensures st.orders[id].slot.Some? ==> RunsOn(st, st.slots, st.orders[id], RunStore(st, id))
  {
    hide RunStore, RunsOn;
    if st.orders[id].slot.Some? { RunAs(st, id); }
  }

  lemma NotStanding(st: Store, id: OrderId)
    requires Keyed(st) && id in st.orders
    ensures FindOccupiedBySource(st, st.orders[id].location).None? ==>
              ConvertStore(st, id) == st && !exists c :: HoldsBoxFrom(st.slots, c, st.orders[id].location)
    ensures st.orders[id].kind != Pick || st.orders[id].logicalPick || st.orders[id].slot.Some?
            ==> ConvertStore(st, id) == st
  {
    hide FindOccupiedBySource;
    FindOccupiedMeaning(st, st.orders[id].location);
    assert forall c :: HoldsBoxFrom(st.slots, c, st.orders[id].location) ==> c in st.slots;
  }
}
