/** The logical pick counter of a slot is the number of PICKs served from its box minus the PUTs accepted
    on it, and only the PUT that brings this difference to zero takes the box away. */
module BoxAccounts {
  import opened Sequences
  import opened Location
  import opened Domain
  import opened Queues
  import opened Orchestrator
  import opened Rehydration
  import opened NoLostOrders
  import opened Ownership

  predicate Counts(st: Store, id: OrderId, b: OrderId, kind: OrderKind) {
    && id in st.orders && id in st.serving && st.serving[id] == b
    && st.orders[id].kind == kind && st.orders[id].status != Canceled
  }

  /** The PICKs served from box b (or the PUTs accepted for it) that were not canceled. */
  function OrdersOf(st: Store, b: OrderId, kind: OrderKind): set<OrderId> {
    set id | id in st.orders && Counts(st, id, b, kind)
  }

  function Balance(st: Store, b: OrderId): int {
    |OrdersOf(st, b, Pick)| - |OrdersOf(st, b, Put)|
  }

  /** A standing box is owed to as many PICKs as its counter says; a box being taken away to none. */
  predicate SlotBalanced(st: Store, s: Slot) {
    if s.box.None? then Depth(s) == 1
    else if s.status == Occupied then Balance(st, s.box.value.pickOrder) == Depth(s)
    else Balance(st, s.box.value.pickOrder) == 0 && Depth(s) == 1
  }

  /** What the owner of a busy slot is to the box in it. */
  predicate OwnerFits(st: Store, s: Slot, k: OrderId)
    requires k in st.orders
  {
    if st.orders[k].kind == Pick then s.box.None?
    else if s.box.Some? then k in st.serving && st.serving[k] == s.box.value.pickOrder
    else k !in st.serving
  }

  ghost predicate SlotsBalanced(st: Store) {
    forall c :: c in st.slots ==> SlotBalanced(st, st.slots[c])
  }

  /** LIBRE slots hold no box and have no owner; owners name this slot and fit it; an OCUPADO slot is still
      owned by the PICK counted for its box or by a canceled PUT. */
  predicate SlotOwnerFits(st: Store, c: Location, s: Slot) {
    && (s.status == Free ==> s.box.None? && s.owner.None?)
    && (s.owner.Some? ==>
          && s.owner.value in st.orders && st.orders[s.owner.value].slot == Some(c)
          && (Busy(s) ==> OwnerFits(st, s, s.owner.value))
          && (s.status == Occupied ==> OccupantFits(st, s, s.owner.value)))
  }

  predicate OccupantFits(st: Store, s: Slot, k: OrderId)
    requires k in st.orders
  {
    if st.orders[k].kind == Put then st.orders[k].status == Canceled
    else s.box.Some? && k in st.serving && st.serving[k] == s.box.value.pickOrder
  }

  ghost predicate OwnersFit(st: Store) {
    forall c :: c in st.slots ==> SlotOwnerFits(st, c, st.slots[c])
  }

  predicate SameBox(s: Slot, t: Slot) {
    s.box.Some? && t.box.Some? && s.box.value.pickOrder == t.box.value.pickOrder
  }

  ghost predicate BoxesDistinct(st: Store) {
    forall c, d :: c in st.slots && d in st.slots && SameBox(st.slots[c], st.slots[d]) ==> c == d
  }

  /** The PICK that brought a box counts as its first one. */
  predicate Brought(st: Store, b: OrderId) { b in st.orders && b in st.serving && st.serving[b] == b }

  /** Boxes and served orders are known; a PICK still to run is served from none. */
  ghost predicate ServingKnown(st: Store) {
    && (forall c :: c in st.slots && st.slots[c].box.Some? ==> Brought(st, st.slots[c].box.value.pickOrder))
    && (forall k :: k in st.serving ==> k in st.orders && Brought(st, st.serving[k]))
    && (forall k :: k in st.orders && RunsPick(st.orders[k]) ==> k !in st.serving)
  }

  predicate RunsPick(o: Order) { Live(o) && !Logical(o) && o.kind == Pick }

  ghost predicate Balanced(st: Store) {
    SlotsBalanced(st) && OwnersFit(st) && BoxesDistinct(st) && ServingKnown(st)
  }

  // ---------- how the counts move ----------

  lemma CountsUnmoved(st: Store, st': Store, b: OrderId)
    requires forall id, kind :: Counts(st', id, b, kind) <==> Counts(st, id, b, kind)
    ensures Balance(st', b) == Balance(st, b)
  {
    assert OrdersOf(st', b, Pick) == OrdersOf(st, b, Pick);
    assert OrdersOf(st', b, Put) == OrdersOf(st, b, Put);
  }

  /** One more order counts for box b. */
  lemma CountsGain(st: Store, st': Store, b: OrderId, id: OrderId, k: OrderKind)
    requires forall x, kind :: Counts(st', x, b, kind) <==> Counts(st, x, b, kind) || (x == id && kind == k)
    requires !Counts(st, id, b, k)
    ensures Balance(st', b) == Balance(st, b) + if k == Pick then 1 else -1
  {
    var other := if k == Pick then Put else Pick;
    forall x
      ensures x in OrdersOf(st', b, k) <==> x in OrdersOf(st, b, k) + {id}
    {
      assert Counts(st', x, b, k) <==> Counts(st, x, b, k) || x == id;
    }
    forall x
      ensures x in OrdersOf(st', b, other) <==> x in OrdersOf(st, b, other)
    {
      assert Counts(st', x, b, other) <==> Counts(st, x, b, other);
    }
    assert id !in OrdersOf(st, b, k);
    hide Counts, OrdersOf;
    assert OrdersOf(st', b, k) == OrdersOf(st, b, k) + {id};
    assert OrdersOf(st', b, other) == OrdersOf(st, b, other);
  }

  /** Only order id (not its kind, nor a slot it already has), slot c and what id is served from may differ. */
  ghost predicate Local(st: Store, st': Store, id: OrderId, c: Location) {
    && id in st'.orders && st'.orders == st.orders[id := st'.orders[id]]
    && (id in st.orders ==> st'.orders[id].kind == st.orders[id].kind)
    && (id in st.orders && st.orders[id].slot.Some? ==> st'.orders[id].slot == st.orders[id].slot)
    && (id in st.orders && st.orders[id].slot.Some? && st.orders[id].slot != Some(c) ==> st'.slots == st.slots)
    && (forall d :: d in st'.slots <==> d in st.slots)
    && (forall d :: d in st.slots && d != c ==> st'.slots[d] == st.slots[d])
    && (st'.serving == st.serving
        || (id in st'.serving && id !in st.serving && st'.serving == st.serving[id := st'.serving[id]]))
  }

  /** A box that the changed order has nothing to do with. */
  lemma OtherBalance(st: Store, st': Store, id: OrderId, c: Location, b: OrderId)
    requires Local(st, st', id, c) && (id in st'.serving ==> st'.serving[id] != b)
    ensures Balance(st', b) == Balance(st, b)
  {
    CountsUnmoved(st, st', b);
  }

  lemma SlotsBalancedAfter(st: Store, st': Store, id: OrderId, c: Location)
    requires SlotsBalanced(st) && Local(st, st', id, c) && (c in st.slots ==> SlotBalanced(st', st'.slots[c]))
    requires forall d :: d in st.slots && d != c && st.slots[d].box.Some? ==>
               Balance(st', st.slots[d].box.value.pickOrder) == Balance(st, st.slots[d].box.value.pickOrder)
    ensures SlotsBalanced(st')
  {
    hide Balance;
  }

  lemma OwnersFitAfter(st: Store, st': Store, id: OrderId, c: Location)
    requires OwnersFit(st) && Local(st, st', id, c) && (c in st.slots ==> SlotOwnerFits(st', c, st'.slots[c]))
    requires id in st.orders && st.orders[id].slot.Some? ==> st.orders[id].slot == Some(c)
    ensures OwnersFit(st')
  {
    forall d | d in st'.slots ensures SlotOwnerFits(st', d, st'.slots[d]) {
      if d != c { assert SlotOwnerFits(st, d, st.slots[d]); }
    }
  }

  lemma BoxesDistinctAfter(st: Store, st': Store, id: OrderId, c: Location)
    requires BoxesDistinct(st) && Local(st, st', id, c)
    requires c in st.slots ==> st'.slots[c].box == st.slots[c].box || forall d :: d in st.slots && d != c ==>
        !SameBox(st.slots[d], st'.slots[c])
    ensures BoxesDistinct(st')
  {
    forall x, y | x in st'.slots && y in st'.slots && SameBox(st'.slots[x], st'.slots[y]) ensures x == y {
      if x != c && y != c { assert SameBox(st.slots[x], st.slots[y]); }
      else if st'.slots[c].box == st.slots[c].box { assert SameBox(st.slots[x], st.slots[y]); }
    }
  }

  lemma ServingKnownAfter(st: Store, st': Store, id: OrderId, c: Location)
    requires ServingKnown(st) && Local(st, st', id, c)
    requires c in st.slots && st'.slots[c].box.Some? ==> Brought(st', st'.slots[c].box.value.pickOrder)
    requires id in st'.serving ==> Brought(st', st'.serving[id])
    requires RunsPick(st'.orders[id]) ==> id !in st'.serving
    ensures ServingKnown(st')
  {
    assert forall b :: Brought(st, b) ==> Brought(st', b);
  }

  // ---------- changes of one order and its slot that move no count ----------

  /** No order starts or stops counting. */
  ghost predicate CountsSame(st: Store, st': Store, id: OrderId) {
    && st'.serving == st.serving && id in st.orders && id in st'.orders
    && (id in st.serving ==> (st'.orders[id].status == Canceled <==> st.orders[id].status == Canceled))
  }

  lemma BalancesSame(st: Store, st': Store, id: OrderId, c: Location)
    requires Local(st, st', id, c) && CountsSame(st, st', id)
    ensures forall b :: Balance(st', b) == Balance(st, b)
  {
    forall b ensures Balance(st', b) == Balance(st, b) { CountsUnmoved(st, st', b); }
  }

  /** Emptied, or with the same box, counter and (if a box is there) standing. */
  predicate SlotSettled(s: Slot, s': Slot) {
    || s' == FreshSlot
    || (s'.box == s.box && s'.depth == s.depth && (s.box.Some? ==> (s'.status == Occupied <==> s.status == Occupied)))
  }

  /** Slot c keeps its box and counter, or is emptied. */
  lemma UncountedChange(st: Store, st': Store, id: OrderId, c: Location)
    requires Balanced(st) && Local(st, st', id, c) && CountsSame(st, st', id)
    requires st.orders[id].slot.Some? ==> st.orders[id].slot == Some(c)
    requires c in st.slots ==> SlotSettled(st.slots[c], st'.slots[c])
    requires c in st.slots ==> SlotOwnerFits(st', c, st'.slots[c])
    requires RunsPick(st'.orders[id]) ==> id !in st.serving
    ensures Balanced(st')
  {
    BalancesSame(st, st', id, c);
    UncountedSlots(st, st', id, c);
    OwnersFitAfter(st, st', id, c);
    BoxesDistinctAfter(st, st', id, c);
    UncountedServing(st, st', id, c);
    hide SlotsBalanced, OwnersFit, BoxesDistinct, ServingKnown, Local, Balance;
  }

  lemma UncountedSlots(st: Store, st': Store, id: OrderId, c: Location)
    requires SlotsBalanced(st) && Local(st, st', id, c) && forall b :: Balance(st', b) == Balance(st, b)
    requires c in st.slots ==> SlotSettled(st.slots[c], st'.slots[c])
    ensures SlotsBalanced(st')
  {
    hide Balance;
    if c in st.slots { assert SlotBalanced(st, st.slots[c]); }
    SlotsBalancedAfter(st, st', id, c);
  }

  lemma UncountedServing(st: Store, st': Store, id: OrderId, c: Location)
    requires ServingKnown(st) && Local(st, st', id, c) && st'.serving == st.serving && id in st.orders
    requires c in st.slots ==> st'.slots[c] == FreshSlot || st'.slots[c].box == st.slots[c].box
    requires RunsPick(st'.orders[id]) ==> id !in st.serving
    ensures ServingKnown(st')
  {
    ServingKnownAfter(st, st', id, c);
  }

  // ---------- processing ----------

  /** What is known about the slot of a live physical order. */
  lemma LiveSlot(st: Store, id: OrderId, c: Location)
    requires Balanced(st) && Owned(st) && id in st.orders && Holds(st.orders[id], c)
    ensures OwnedBy(st.slots, c, id) && SlotOwnerFits(st, c, st.slots[c])
    ensures st.orders[id].kind == Pick ==> id !in st.serving
  {
    assert OwnedBy(st.slots, c, id);
  }

  lemma BeginBalanced(st: Store, id: OrderId)
    requires Balanced(st) && Owned(st) && id in st.orders && Live(st.orders[id]) && !Logical(st.orders[id])
    requires st.orders[id].slot.Some?
    ensures Balanced(BeginStore(st, id))
  {
    hide Balanced, Owned;
    var c := st.orders[id].slot.value;
    LiveSlot(st, id, c);
    UncountedChange(st, BeginStore(st, id), id, c);
  }

  lemma FinishPutBalanced(st: Store, id: OrderId)
    requires Balanced(st) && Owned(st) && id in st.orders && Live(st.orders[id]) && !Logical(st.orders[id])
    requires st.orders[id].slot.Some?
    requires st.orders[id].kind == Put
    ensures Balanced(FinishStore(st, id))
  {
    hide Balanced, Owned;
    UncountedChange(st, FinishStore(st, id), id, st.orders[id].slot.value);
  }

  /** The box a finished PICK brings is counted once, by itself. */
  lemma FinishPickBalanced(st: Store, id: OrderId)
    requires Balanced(st) && Owned(st) && id in st.orders && Live(st.orders[id]) && !Logical(st.orders[id])
    requires st.orders[id].slot.Some?
    requires st.orders[id].kind == Pick
    ensures Balanced(FinishStore(st, id))
  {
    hide Balance, Counts, OrdersOf, Owned;
    var c := st.orders[id].slot.value;
    var st' := FinishStore(st, id);
    LiveSlot(st, id, c);
    assert st'.serving == st.serving[id := id]
           && st'.slots[c] == Slot(Occupied, Some(id), Some(Box(st.orders[id].location, id)), Some(1));
    NewBoxCounts(st, st', id, c);
    OwnersFitAfter(st, st', id, c);
    BoxesDistinctAfter(st, st', id, c);
    ServingKnownAfter(st, st', id, c);
  }

  lemma NewBoxCounts(st: Store, st': Store, id: OrderId, c: Location)
    requires SlotsBalanced(st) && ServingKnown(st) && Local(st, st', id, c) && id in st.orders && id !in st.serving
    requires st'.serving == st.serving[id := id] && st'.orders[id].kind == Pick && st'.orders[id].status == Done
    requires c in st.slots && st'.slots[c].box.Some? && st'.slots[c].box.value.pickOrder == id
    requires st'.slots[c].status == Occupied && Depth(st'.slots[c]) == 1
    ensures SlotsBalanced(st')
  {
    assert OrdersOf(st, id, Pick) == {} && OrdersOf(st, id, Put) == {};
    CountsGain(st, st', id, id, Pick);
    forall d | d in st.slots && d != c && st.slots[d].box.Some?
      ensures Balance(st', st.slots[d].box.value.pickOrder) == Balance(st, st.slots[d].box.value.pickOrder)
    {
      assert Brought(st, st.slots[d].box.value.pickOrder);
      CountsUnmoved(st, st', st.slots[d].box.value.pickOrder);
    }
    SlotsBalancedAfter(st, st', id, c);
  }

  lemma RunBalanced(st: Store, id: OrderId)
    requires Balanced(st) && Owned(st) && id in st.orders && Live(st.orders[id]) && !Logical(st.orders[id])
    requires st.orders[id].slot.Some?
    ensures Balanced(RunStore(st, id).store)
  {
    hide Balanced, Owned, FinishStore;
    BeginBalanced(st, id);
    BeginOwned(st, id);
    var s := BeginStore(st, id);
    if st.orders[id].kind == Pick { FinishPickBalanced(s, id); } else { FinishPutBalanced(s, id); }
  }

  /** One more PICK is served from the box standing in slot c, or one PUT gives it back logically:
      counter and difference move together. */
  lemma CounterMoves(st: Store, st': Store, id: OrderId, c: Location)
    requires Balanced(st) && Local(st, st', id, c) && c in st.slots && st.slots[c].status == Occupied
    requires st.slots[c].box.Some?
    requires id !in st.serving && st'.serving == st.serving[id := st.slots[c].box.value.pickOrder]
    requires st'.slots[c] == st.slots[c].(depth := st'.slots[c].depth)
    requires Depth(st'.slots[c]) == Depth(st.slots[c]) + if st'.orders[id].kind == Pick then 1 else -1
    requires st'.orders[id].status != Canceled && Logical(st'.orders[id])
    requires id !in st.orders || st.orders[id].slot.None?
    ensures Balanced(st')
  {
    var b := st.slots[c].box.value.pickOrder;
    assert SlotBalanced(st, st.slots[c]) && SlotOwnerFits(st, c, st.slots[c]);
    assert st.slots[c].owner != Some(id);
    BalanceMoves(st, st', id, c);
    SlotsBalancedAfter(st, st', id, c);
    OwnersFitAfter(st, st', id, c);
    BoxesDistinctAfter(st, st', id, c);
    assert Brought(st, b);
    hide SlotsBalanced, OwnersFit, BoxesDistinct, Balance, SlotOwnerFits, SlotBalanced;
    ServingKnownAfter(st, st', id, c);
  }

  /** Serving order id from the box in slot c moves that box's difference by one and no other. */
  lemma BalanceMoves(st: Store, st': Store, id: OrderId, c: Location)
    requires BoxesDistinct(st) && Local(st, st', id, c) && c in st.slots && st.slots[c].box.Some?
    requires id !in st.serving && st'.serving == st.serving[id := st.slots[c].box.value.pickOrder]
    requires st'.orders[id].status != Canceled
    ensures var b := st.slots[c].box.value.pickOrder;
            Balance(st', b) == Balance(st, b) + if st'.orders[id].kind == Pick then 1 else -1
    ensures forall d :: d in st.slots && d != c && st.slots[d].box.Some? ==>
              Balance(st', st.slots[d].box.value.pickOrder) == Balance(st, st.slots[d].box.value.pickOrder)
  {
    CountsGain(st, st', st.slots[c].box.value.pickOrder, id, st'.orders[id].kind);
    forall d | d in st.slots && d != c && st.slots[d].box.Some?
      ensures Balance(st', st.slots[d].box.value.pickOrder) == Balance(st, st.slots[d].box.value.pickOrder)
    {
      assert !SameBox(st.slots[c], st.slots[d]);
      CountsUnmoved(st, st', st.slots[d].box.value.pickOrder);
    }
  }

  lemma ConvertBalanced(st: Store, id: OrderId)
    requires Keyed(st) && Balanced(st) && id in st.orders && WellShaped(st.orders[id])
    requires st.orders[id].slot.None? ==> st.orders[id].status != Canceled
    ensures Balanced(ConvertStore(st, id))
  {
    var o := st.orders[id];
    FindOccupiedMeaning(st, o.location);
    if o.kind == Pick && !o.logicalPick && o.slot.None? && FindOccupiedBySource(st, o.location).Some? {
      PickNotServed(st, id);
      ConvertMoves(st, id, FindOccupiedBySource(st, o.location).value);
    }
  }

  lemma ConvertMoves(st: Store, id: OrderId, c: Location)
    requires Balanced(st) && id in st.orders && WellShaped(st.orders[id]) && id !in st.serving
    requires st.orders[id].kind == Pick && st.orders[id].slot.None? && !Logical(st.orders[id])
    requires st.orders[id].status != Canceled
    requires FindOccupiedBySource(st, st.orders[id].location) == Some(c)
    requires HoldsBoxFrom(st.slots, c, st.orders[id].location)
    ensures Balanced(ConvertStore(st, id))
  {
    hide Balanced, FindOccupiedBySource, WellShaped;
    CounterMoves(st, ConvertStore(st, id), id, c);
  }

  lemma OrderOnlyBalanced(st: Store, st': Store, id: OrderId)
    requires Balanced(st) && id in st.orders && id in st'.orders && st' == WithOrder(st, id, st'.orders[id])
    requires st'.orders[id].kind == st.orders[id].kind && st'.orders[id].slot == st.orders[id].slot
    requires st'.orders[id].status == Canceled <==> st.orders[id].status == Canceled
    requires RunsPick(st'.orders[id]) ==> id !in st.serving
    ensures Balanced(st')
  {
    var c := if st.orders[id].slot.Some? then st.orders[id].slot.value else st.orders[id].location;
    if c in st.slots { assert SlotOwnerFits(st, c, st.slots[c]); }
    UncountedChange(st, st', id, c);
  }

  lemma AssignBalanced(st: Store, id: OrderId)
    requires Keyed(st) && Balanced(st) && id in st.orders && RunsPick(st.orders[id]) && st.orders[id].slot.None?
    ensures AssignStore(st, id).Some? ==> Balanced(AssignStore(st, id).value)
  {
    hide ListAvailableSlots, Balance, SlotBalanced;
    if AssignStore(st, id).Some? {
      var st' := AssignStore(st, id).value;
      var c := st'.orders[id].slot.value;
      assert st.slots[c].status == Free && SlotOwnerFits(st, c, st.slots[c]);
      UncountedChange(st, st', id, c);
    }
  }

  lemma ProcessBalanced(st: Store, id: OrderId)
    requires Keyed(st) && Balanced(st) && Owned(st) && id in st.orders && WellShaped(st.orders[id])
    requires st.orders[id].slot.None? ==> st.orders[id].status != Canceled
    ensures Balanced(ProcessStore(st, id).store)
  {
    ConvertBalanced(st, id);
    ConvertOwned(st, id);
    ConvertKeyed(st, id);
    hide *;
    AfterConvertBalanced(st, ConvertStore(st, id), id);
  }

  lemma ConvertKeyed(st: Store, id: OrderId)
    requires Keyed(st) && id in st.orders && WellShaped(st.orders[id])
    ensures var s := ConvertStore(st, id);
            id in s.orders && Keyed(s)
            && (s.orders[id].slot.None? ==> s.orders[id].kind == Pick && !Logical(s.orders[id]))
  {
    hide ConvertStore;
    ConvertTouches(st, id);
    var s := ConvertStore(st, id);
    forall c ensures c in s.slotKeys <==> c in s.slots { assert c in s.slots.Keys <==> c in st.slots.Keys; }
  }

  lemma AfterConvertBalanced(st: Store, s: Store, id: OrderId)
    requires id in st.orders && s == ConvertStore(st, id) && id in s.orders && Keyed(s) && Balanced(s) && Owned(s)
    requires s.orders[id].slot.None? ==> s.orders[id].kind == Pick && !Logical(s.orders[id])
    ensures Balanced(ProcessStore(st, id).store)
  {
    hide ConvertStore, Balanced, Owned, AssignStore, RunStore;
    var o := s.orders[id];
    if !Terminal(o) {
      if Logical(o) {
        OrderOnlyBalanced(s, WithOrder(s, id, o.(status := Done)), id);
      } else if o.kind == Pick && o.slot.None? {
        AssignOwned(s, id);
        AssignBalanced(s, id);
        PickNotServed(s, id);
        if AssignStore(s, id).Some? {
          assert AssignStore(s, id).value.orders[id].slot.Some? by { hide *; AssignTouches(s, id); }
          RunBalanced(AssignStore(s, id).value, id);
        } else {
          OrderOnlyBalanced(s, WithOrder(s, id, o.(status := Pending, waiting := true)), id);
        }
      } else {
        RunBalanced(s, id);
      }
    }
  }

  lemma PickNotServed(st: Store, id: OrderId)
    requires Balanced(st) && id in st.orders && RunsPick(st.orders[id])
    ensures id !in st.serving
  {
  }

  // ---------- submission ----------

  /** A new order that is served from nothing and changes at most the reservation of a boxless slot. */
  lemma AddUncounted(st: Store, st': Store, o: Order, c: Location)
    requires Balanced(st) && o.id !in st.orders && Local(st, st', o.id, c) && st'.orders[o.id] == o
    requires st'.serving == st.serving
    requires c in st.slots ==>
               || st'.slots[c] == st.slots[c]
               || (&& st.slots[c].box.None? && st'.slots[c] == st.slots[c].(status := Reserved, owner := Some(o.id))
                   && o.slot == Some(c))
    ensures Balanced(st')
  {
    assert o.id !in st.serving;
    forall b ensures Balance(st', b) == Balance(st, b) { CountsUnmoved(st, st', b); }
    if c in st.slots { assert SlotBalanced(st, st.slots[c]) && SlotOwnerFits(st, c, st.slots[c]); }
    SlotsBalancedAfter(st, st', o.id, c);
    OwnersFitAfter(st, st', o.id, c);
    BoxesDistinctAfter(st, st', o.id, c);
    ServingKnownAfter(st, st', o.id, c);
  }

  /** The PUT accepted on a standing box whose counter is one: the difference drops to zero and the box is taken
      away. */
  lemma AddReturn(st: Store, st': Store, o: Order, c: Location)
    requires Balanced(st) && o.id !in st.orders && Local(st, st', o.id, c) && st'.orders[o.id] == o && o.kind == Put
    requires o.slot == Some(c)
    requires c in st.slots && st.slots[c].status == Occupied && st.slots[c].box.Some? && Depth(st.slots[c]) == 1
    requires o.status != Canceled
    requires st'.slots[c] == st.slots[c].(status := Reserved, owner := Some(o.id))
    requires st'.serving == st.serving[o.id := st.slots[c].box.value.pickOrder]
    ensures Balanced(st')
    ensures Balance(st, st.slots[c].box.value.pickOrder) == 1 && Balance(st', st.slots[c].box.value.pickOrder) == 0
  {
    var id, b := o.id, st.slots[c].box.value.pickOrder;
    assert id !in st.serving;
    assert SlotBalanced(st, st.slots[c]);
    BalanceMoves(st, st', id, c);
    SlotsBalancedAfter(st, st', id, c);
    OwnersFitAfter(st, st', id, c);
    BoxesDistinctAfter(st, st', id, c);
    assert Brought(st, b);
    ServingKnownAfter(st, st', id, c);
  }

  lemma NewNotServed(st: Store, id: OrderId)
    requires Balanced(st) && id !in st.orders
    ensures id !in st.serving
  {
  }

  lemma AdmitPickBalanced(st: Store, id: OrderId, now: nat, ext: ExternalId, robot: RobotId, l: Location,
                          target: Option<Location>, slotOverride: Option<Location>)
    requires Keyed(st) && Balanced(st) && id !in st.orders
    ensures Balanced(AdmitPick(st, id, now, ext, robot, l, target, slotOverride).store)
  {
    FindOccupiedMeaning(st, l);
    NewNotServed(st, id);
    match FindOccupiedBySource(st, l)
    case Some(c) =>
      var o := NewOrder(id, now, Pick, ext, robot, l, target, Some(c), true);
      AdmitPickJoins(st, o, c, l);
    case None =>
      var o := NewOrder(id, now, Pick, ext, robot, l, target, slotOverride, false);
      hide Balanced, FindOccupiedBySource, Keyed;
      AddUncounted(st, AddOrder(st, o), o, l);
  }

  lemma AdmitPickJoins(st: Store, o: Order, c: Location, l: Location)
    requires Balanced(st) && o.id !in st.orders && o.id !in st.serving && HoldsBoxFrom(st.slots, c, l)
    requires o.kind == Pick && Logical(o) && o.status == Pending
    ensures Balanced(AddOrder(Served(IncrementStack(st, c).value, o.id, c), o))
  {
    hide Balanced;
    CounterMoves(st, AddOrder(Served(IncrementStack(st, c).value, o.id, c), o), o.id, c);
  }

  /** A PUT accepted on a standing box lowers the difference by one; it takes the box away exactly when
      the difference becomes zero. */
  lemma PutReturnsAtZero(st: Store, id: OrderId, now: nat, ext: ExternalId, robot: RobotId, l: Location,
                         target: Option<Location>)
    requires Balanced(st) && id !in st.orders && l in st.slots && st.slots[l].status == Occupied
    requires st.slots[l].box.Some?
    ensures var res := AdmitPut(st, id, now, ext, robot, l, target);
            var b := st.slots[l].box.value.pickOrder;
            && res.Created? && Balanced(res.store)
            && Balance(res.store, b) == Balance(st, b) - 1 >= 0
            && (Logical(res.order) <==> Balance(res.store, b) > 0)
            && (res.store.slots[l].status == (if Balance(res.store, b) == 0 then Reserved else Occupied))
  {
    assert SlotBalanced(st, st.slots[l]);
    if StackDepth(st, l) > 1 {
      PutLowersCounter(st, id, now, ext, robot, l, target);
    } else {
      PutTakesBox(st, id, now, ext, robot, l, target);
    }
  }

  lemma BalancedAt(st: Store, c: Location)
    requires Balanced(st) && c in st.slots
    ensures SlotBalanced(st, st.slots[c])
  {
  }

  lemma PutLowersCounter(st: Store, id: OrderId, now: nat, ext: ExternalId, robot: RobotId, l: Location,
                         target: Option<Location>)
    requires Balanced(st) && id !in st.orders && l in st.slots && st.slots[l].status == Occupied
    requires st.slots[l].box.Some? && Depth(st.slots[l]) > 1
    ensures var res := AdmitPut(st, id, now, ext, robot, l, target);
            var b := st.slots[l].box.value.pickOrder;
            && res.Created? && Balanced(res.store) && Logical(res.order)
            && res.store.slots[l] == st.slots[l].(depth := Some(Depth(st.slots[l]) - 1))
            && Balance(res.store, b) == Balance(st, b) - 1 > 0
  {
    hide Balanced, Balance, Counts, OrdersOf;
    var res := AdmitPut(st, id, now, ext, robot, l, target);
    NewNotServed(st, id);
    CounterMoves(st, res.store, id, l);
    BalancedAt(st, l);
    BalancedAt(res.store, l);
  }

  lemma PutTakesBox(st: Store, id: OrderId, now: nat, ext: ExternalId, robot: RobotId, l: Location,
                    target: Option<Location>)
    requires Balanced(st) && id !in st.orders && l in st.slots && st.slots[l].status == Occupied
    requires st.slots[l].box.Some? && Depth(st.slots[l]) == 1
    ensures var res := AdmitPut(st, id, now, ext, robot, l, target);
            var b := st.slots[l].box.value.pickOrder;
            && res.Created? && Balanced(res.store) && !Logical(res.order) && res.store.slots[l].status == Reserved
            && Balance(st, b) == 1 && Balance(res.store, b) == 0
  {
    hide Balanced, Balance, Counts, OrdersOf;
    var res := AdmitPut(st, id, now, ext, robot, l, target);
    NewNotServed(st, id);
    AddReturn(st, res.store, res.order, l);
  }

  lemma AdmitPutBalanced(st: Store, id: OrderId, now: nat, ext: ExternalId, robot: RobotId, l: Location,
                         target: Option<Location>)
    requires Balanced(st) && id !in st.orders && l in st.slots && !Busy(st.slots[l])
    ensures Balanced(AdmitPut(st, id, now, ext, robot, l, target).store)
  {
    if st.slots[l].box.Some? {
      assert SlotOwnerFits(st, l, st.slots[l]);
      PutReturnsAtZero(st, id, now, ext, robot, l, target);
    } else {
      assert SlotBalanced(st, st.slots[l]);
      var res := AdmitPut(st, id, now, ext, robot, l, target);
      AddUncounted(st, res.store, res.order, l);
    }
  }

  lemma SubmitBalanced(st: Store, input: SubmitInput, id: OrderId, now: nat)
    requires Keyed(st) && Balanced(st) && id !in st.orders && SubmitGuard(st, input)
    ensures var res := SubmitStore(st, input, id, now); res.Created? ==> Balanced(res.store)
  {
    hide SubmitStore, Parse, Balanced, FindByExternalId, SubmitGuard;
    SubmitCases(st, input, id, now);
    SubmitGuardMeaning(st, input, id, now);
    var res := SubmitStore(st, input, id, now);
    if res.Created? {
      var l, o := Parse(input.locationCode).value.location, res.order;
      if o.kind == Pick {
        AdmitPickBalanced(st, id, now, input.id, o.robot, l, o.target, SlotOverride(input));
      } else {
        if Busy(st.slots[l]) { StackedBusy(st, l); }
        AdmitPutBalanced(st, id, now, input.id, o.robot, l, o.target);
      }
    }
  }

  lemma StackedBusy(st: Store, c: Location)
    requires Balanced(st) && c in st.slots && Busy(st.slots[c])
    ensures StackDepth(st, c) == 1
  {
    assert SlotBalanced(st, st.slots[c]);
  }

  // ---------- steps, cancel, retry, release, restart ----------

  lemma StepDoneBalanced(st: Store, t: Order)
    requires Balanced(st) && (t.id in st.orders && RunsPick(st.orders[t.id]) ==> t.id !in st.serving)
    ensures Balanced(StepDoneStore(st, t))
  {
    if t.id in st.orders { OrderOnlyBalanced(st, StepDoneStore(st, t), t.id); }
  }

  /** A failed step of an order that was not canceled meanwhile. */
  lemma StepFailedBalanced(st: Store, t: Order)
    requires Balanced(st) && Owned(st) && t.id in st.orders && !Logical(st.orders[t.id])
    requires t.slot.Some? && st.orders[t.id].slot == t.slot && Live(st.orders[t.id])
    ensures Balanced(StepFailedStore(st, t))
  {
    hide Balanced, Owned;
    var c := t.slot.value;
    LiveSlot(st, t.id, c);
    UncountedChange(st, StepFailedStore(st, t), t.id, c);
  }

  /** No slot holds the box any more. */
  ghost predicate BoxGone(st: Store, b: OrderId) {
    forall c :: c in st.slots ==> !(st.slots[c].box.Some? && st.slots[c].box.value.pickOrder == b)
  }

  /** A failed step of an order canceled meanwhile puts it back to ERROR with its slot blocked: the slot must be
      without box, or hold the very box a PUT gives back, with nobody else owed to it. */
  predicate CanceledFailKeeps(st: Store, t: Order)
    requires t.id in st.orders && t.slot.Some? && t.slot.value in st.slots
  {
    var s := st.slots[t.slot.value];
    if st.orders[t.id].kind == Pick then t.id !in st.serving && s.box.None?
    else if s.box.None? then t.id !in st.serving
    else t.id in st.serving && st.serving[t.id] == s.box.value.pickOrder && Depth(s) == 1
  }

  lemma CanceledFailBalanced(st: Store, t: Order)
    requires Balanced(st) && Owned(st) && t.id in st.orders && !Logical(st.orders[t.id])
    requires st.orders[t.id].status == Canceled
    requires t.slot.Some? && st.orders[t.id].slot == t.slot && t.slot.value in st.slots && StepFailGuard(st, t)
    ensures Balanced(StepFailedStore(st, t)) <==> CanceledFailKeeps(st, t)
  {
    hide Balance;
    var c, st' := t.slot.value, StepFailedStore(st, t);
    assert st'.orders == st.orders[t.id := st.orders[t.id].(status := Error)];
    assert st'.slots[c] == st.slots[c].(status := Blocked, owner := Some(t.id));
    if CanceledFailKeeps(st, t) {
      if t.id in st.serving { PutBackInTransit(st, st', t.id, c); } else { UncountedChange(st, st', t.id, c); }
    } else {
      assert !(SlotOwnerFits(st', c, st'.slots[c]) && SlotBalanced(st', st'.slots[c])
               && (RunsPick(st'.orders[t.id]) ==> t.id !in st'.serving));
    }
  }

  /** A canceled order counts again. */
  lemma CountsBack(st: Store, st': Store, id: OrderId)
    requires id in st.orders && id in st.serving && st.orders[id].status == Canceled
    requires id in st'.orders && st'.orders == st.orders[id := st'.orders[id]] && st'.serving == st.serving
    requires st'.orders[id].status != Canceled && st'.orders[id].kind == st.orders[id].kind
    ensures Balance(st', st.serving[id]) == Balance(st, st.serving[id]) + if st.orders[id].kind == Pick then 1 else -1
  {
    CountsGain(st, st', st.serving[id], id, st.orders[id].kind);
  }

  /** The canceled PUT counts again for the box that stood in its slot, owed to nobody else. */
  lemma PutBackInTransit(st: Store, st': Store, id: OrderId, c: Location)
    requires Balanced(st) && Owned(st) && id in st.orders && st.orders[id].status == Canceled
    requires st.orders[id].kind == Put
    requires st.orders[id].slot == Some(c) && c in st.slots && st.slots[c].box.Some? && Depth(st.slots[c]) == 1
    requires id in st.serving && st.serving[id] == st.slots[c].box.value.pickOrder
    requires st' == st.(orders := st.orders[id := st.orders[id].(status := Error)],
                        slots := st.slots[c := st.slots[c].(status := Blocked, owner := Some(id))])
    requires Busy(st.slots[c]) ==> st.slots[c].owner == Some(id)
    ensures Balanced(st')
  {
    hide Balance, Counts, OrdersOf;
    assert SlotOwnerFits(st, c, st.slots[c]) && SlotBalanced(st, st.slots[c]);
    CountsBack(st, st', id);
    forall d | d in st.slots && d != c && st.slots[d].box.Some?
      ensures Balance(st', st.slots[d].box.value.pickOrder) == Balance(st, st.slots[d].box.value.pickOrder)
    {
      assert !SameBox(st.slots[c], st.slots[d]);
      OtherBalance(st, st', id, c, st.slots[d].box.value.pickOrder);
    }
    SlotsBalancedAfter(st, st', id, c);
    OwnersFitAfter(st, st', id, c);
    BoxesDistinctAfter(st, st', id, c);
    ServingKnownAfter(st, st', id, c);
  }

  /** The order owns the slot it names. */
  predicate OwnsItsSlot(st: Store, id: OrderId)
    requires id in st.orders
  {
    st.orders[id].slot.Some? && st.orders[id].slot.value in st.slots
    && st.slots[st.orders[id].slot.value].owner == Some(id)
  }

  /** The order stops counting for no box that is still in a slot, unless it owns its slot. */
  ghost predicate SparesBoxes(st: Store, id: OrderId)
    requires id in st.orders
  {
    id !in st.serving || st.orders[id].status == Canceled || BoxGone(st, st.serving[id]) || OwnsItsSlot(st, id)
  }

  lemma CancelBalanced(st: Store, id: OrderId)
    requires Balanced(st) && Owned(st) && id in st.orders && WellShaped(st.orders[id]) && SparesBoxes(st, id)
    ensures Balanced(CancelStore(st, id))
  {
    var o, st' := st.orders[id], CancelStore(st, id);
    var c := if o.slot.Some? then o.slot.value else o.location;
    if c in st.slots { assert SlotOwnerFits(st, c, st.slots[c]) && SlotBalanced(st, st.slots[c]); }
    if id !in st.serving || o.status == Canceled {
      CancelUncounted(st, id, c);
    } else if OwnsItsSlot(st, id) {
      CancelOwner(st, id, c);
    } else {
      CancelDeparted(st, id, c);
    }
  }

  /** Exactly: a cancel keeps the accounts if and only if the order counts for no box, owns its slot, or its box
      has left the slots. */
  lemma CancelSparesExactly(st: Store, id: OrderId)
    requires Balanced(st) && Owned(st) && id in st.orders && WellShaped(st.orders[id])
    ensures Balanced(CancelStore(st, id)) <==> SparesBoxes(st, id)
  {
    if SparesBoxes(st, id) {
      CancelBalanced(st, id);
    } else {
      var st', b := CancelStore(st, id), st.serving[id];
      var c :| c in st.slots && st.slots[c].box.Some? && st.slots[c].box.value.pickOrder == b;
      assert st'.slots == st.slots;
      CountsLoss(st, st', b, id);
      assert SlotBalanced(st, st.slots[c]);
      hide Balance;
      assert !SlotBalanced(st', st'.slots[c]);
    }
  }

  /** The order counts for no box. */
  lemma CancelUncounted(st: Store, id: OrderId, c: Location)
    requires Balanced(st) && Owned(st) && id in st.orders && (id !in st.serving || st.orders[id].status == Canceled)
    requires c == if st.orders[id].slot.Some? then st.orders[id].slot.value else st.orders[id].location
    ensures Balanced(CancelStore(st, id))
  {
    if c in st.slots { CanceledSlotFits(st, id, c); }
    CancelLocal(st, id, c);
    var st' := CancelStore(st, id);
    assert !RunsPick(st'.orders[id]) && (c in st.slots ==> c in st'.slots);
    hide *;
    UncountedChange(st, st', id, c);
  }

  lemma CancelLocal(st: Store, id: OrderId, c: Location)
    requires id in st.orders && c == if st.orders[id].slot.Some? then st.orders[id].slot.value
        else st.orders[id].location
    ensures Local(st, CancelStore(st, id), id, c)
    ensures id !in st.serving || st.orders[id].status == Canceled ==> CountsSame(st, CancelStore(st, id), id)
  {
  }

  lemma CanceledSlotFits(st: Store, id: OrderId, c: Location)
    requires OwnersFit(st) && Owned(st) && id in st.orders && c in st.slots
    requires (id !in st.serving || st.orders[id].status == Canceled)
    requires st.orders[id].slot.Some? ==> st.orders[id].slot == Some(c)
    ensures var st' := CancelStore(st, id);
            c in st'.slots && SlotOwnerFits(st', c, st'.slots[c]) && SlotSettled(st.slots[c], st'.slots[c])
  {
    assert SlotOwnerFits(st, c, st.slots[c]);
    var st' := CancelStore(st, id);
    if st.slots[c].owner == Some(id) {
      if st.orders[id].kind == Put {
        if Busy(st.slots[c]) { assert Holds(st.orders[id], c); }
        assert st.slots[c].status == Occupied || st.slots[c].box.None?;
        assert st'.slots[c] == st.slots[c].(status := Occupied);
      } else {
        assert st'.slots[c] == FreshSlot;
      }
    } else {
      assert st'.slots[c] == st.slots[c];
    }
  }

  lemma CancelShape(st: Store, id: OrderId)
    requires id in st.orders
    ensures var st', o := CancelStore(st, id), st.orders[id];
            && st'.orders == st.orders[id := o.(status := Canceled)] && st'.serving == st.serving
            && (if OwnsItsSlot(st, id) then
                  var c := o.slot.value;
                  st'.slots == st.slots[c := if o.kind == Pick then FreshSlot else st.slots[c].(status := Occupied)]
                else st'.slots == st.slots)
  {
  }

  /** The order owns its slot: a PICK's slot is emptied, a PUT's box stands again and is owed to one PICK. */
  lemma CancelOwner(st: Store, id: OrderId, c: Location)
    requires Balanced(st) && Owned(st) && id in st.orders && id in st.serving && st.orders[id].status != Canceled
    requires st.orders[id].slot == Some(c) && c in st.slots && st.slots[c].owner == Some(id)
    ensures Balanced(CancelStore(st, id))
  {
    hide Balance, Counts, OrdersOf, CancelStore;
    CancelShape(st, id);
    var st' := CancelStore(st, id);
    var b := st.serving[id];
    OwnerCounts(st, id, c);
    CountsLoss(st, st', b, id);
    forall d | d in st.slots && d != c && st.slots[d].box.Some?
      ensures Balance(st', st.slots[d].box.value.pickOrder) == Balance(st, st.slots[d].box.value.pickOrder)
    {
      assert !SameBox(st.slots[c], st.slots[d]);
      OtherBalance(st, st', id, c, st.slots[d].box.value.pickOrder);
    }
    SlotsBalancedAfter(st, st', id, c);
    OwnersFitAfter(st, st', id, c);
    BoxesDistinctAfter(st, st', id, c);
    ServingKnownAfter(st, st', id, c);
  }

  /** A counted order that owns its slot is counted for the box in it. */
  lemma OwnerCounts(st: Store, id: OrderId, c: Location)
    requires Balanced(st) && Owned(st) && id in st.orders && id in st.serving && st.orders[id].status != Canceled
    requires st.orders[id].slot == Some(c) && c in st.slots && st.slots[c].owner == Some(id)
    ensures st.slots[c].box.Some? && st.slots[c].box.value.pickOrder == st.serving[id]
    ensures st.orders[id].kind == Put ==>
        Busy(st.slots[c]) && Balance(st, st.serving[id]) == 0 && Depth(st.slots[c]) == 1
  {
    assert SlotOwnerFits(st, c, st.slots[c]) && SlotBalanced(st, st.slots[c]);
    if Busy(st.slots[c]) {
      assert Holds(st.orders[id], c);
      assert !RunsPick(st.orders[id]);
    }
  }

  /** One order stops counting for box b. */
  lemma CountsLoss(st: Store, st': Store, b: OrderId, id: OrderId)
    requires id in st.orders && id in st.serving && st.serving[id] == b && st.orders[id].status != Canceled
    requires st'.serving == st.serving && st'.orders == st.orders[id := st.orders[id].(status := Canceled)]
    ensures Balance(st', b) == Balance(st, b) - if st.orders[id].kind == Pick then 1 else -1
  {
    CountsGain(st', st, b, id, st.orders[id].kind);
  }

  /** The box the order counts for is in no slot any more. */
  lemma CancelDeparted(st: Store, id: OrderId, c: Location)
    requires Balanced(st) && id in st.orders && id in st.serving
    requires c == if st.orders[id].slot.Some? then st.orders[id].slot.value else st.orders[id].location
    requires !(st.orders[id].slot.Some? && c in st.slots && st.slots[c].owner == Some(id))
    requires forall d :: d in st.slots ==> !(st.slots[d].box.Some? && st.slots[d].box.value.pickOrder == st.serving[id])
    ensures Balanced(CancelStore(st, id))
  {
    hide Balance, Counts, OrdersOf, CancelStore;
    CancelShape(st, id);
    var st' := CancelStore(st, id);
    forall d | d in st.slots && st.slots[d].box.Some?
      ensures Balance(st', st.slots[d].box.value.pickOrder) == Balance(st, st.slots[d].box.value.pickOrder)
    {
      OtherBalance(st, st', id, c, st.slots[d].box.value.pickOrder);
    }
    if c in st.slots { assert SlotOwnerFits(st, c, st.slots[c]) && SlotBalanced(st, st.slots[c]); }
    SlotsBalancedAfter(st, st', id, c);
    OwnersFitAfter(st, st', id, c);
    BoxesDistinctAfter(st, st', id, c);
    ServingKnownAfter(st, st', id, c);
  }

  lemma RetryBalanced(st: Store, id: OrderId)
    requires Balanced(st) && id in st.orders && RetryGuard(st.orders[id]) && st.orders[id].status != Canceled
    requires st.orders[id].slot.None? ==> st.orders[id].status == Pending
    ensures Balanced(RetryStore(st, id))
  {
    OrderOnlyBalanced(st, RetryStore(st, id), id);
  }

  /** A retried canceled order counts again: its box must have left the slots, or it never was served from one. */
  ghost predicate CanceledRetryKeeps(st: Store, id: OrderId)
    requires id in st.orders
  {
    id in st.serving ==> Logical(st.orders[id]) && BoxGone(st, st.serving[id])
  }

  lemma CanceledRetryBalanced(st: Store, id: OrderId)
    requires Balanced(st) && id in st.orders && st.orders[id].status == Canceled && RetryGuard(st.orders[id])
    requires WellShaped(st.orders[id])
    requires Logical(st.orders[id]) ==> !OwnsItsSlot(st, id)
    ensures Balanced(RetryStore(st, id)) <==> CanceledRetryKeeps(st, id)
  {
    hide Balance, Counts, OrdersOf;
    var st', o := RetryStore(st, id), st.orders[id];
    var c := if o.slot.Some? then o.slot.value else o.location;
    if c in st.slots { assert SlotOwnerFits(st, c, st.slots[c]); }
    if id !in st.serving {
      UncountedChange(st, st', id, c);
    } else if Logical(o) {
      CountsBack(st, st', id);
      if BoxGone(st, st.serving[id]) {
        CountsElsewhere(st, st', id, c);
      } else {
        var d :| d in st.slots && st.slots[d].box.Some? && st.slots[d].box.value.pickOrder == st.serving[id];
        assert SlotBalanced(st, st.slots[d]) && !SlotBalanced(st', st'.slots[d]);
      }
    } else {
      assert RunsPick(st'.orders[id]);
    }
  }

  /** An order that counts for a box in no slot changes, the slots do not. */
  lemma CountsElsewhere(st: Store, st': Store, id: OrderId, c: Location)
    requires Balanced(st) && Local(st, st', id, c) && st'.slots == st.slots && st'.serving == st.serving
    requires id in st.orders && id in st.serving && BoxGone(st, st.serving[id]) && !RunsPick(st'.orders[id])
    requires st.orders[id].slot.Some? ==> st.orders[id].slot == Some(c)
    requires c in st.slots ==> st.slots[c].owner != Some(id) && SlotOwnerFits(st, c, st.slots[c])
    ensures Balanced(st')
  {
    hide Balance, Counts, OrdersOf;
    forall d | d in st.slots && st.slots[d].box.Some?
      ensures Balance(st', st.slots[d].box.value.pickOrder) == Balance(st, st.slots[d].box.value.pickOrder)
    {
      OtherBalance(st, st', id, c, st.slots[d].box.value.pickOrder);
    }
    if c in st.slots { assert SlotBalanced(st, st.slots[c]); }
    SlotsBalancedAfter(st, st', id, c);
    OwnersFitAfter(st, st', id, c);
    BoxesDistinctAfter(st, st', id, c);
    ServingKnownAfter(st, st', id, c);
  }

  lemma ReleaseBalanced(st: Store, c: Location)
    requires Balanced(st)
    ensures Balanced(Release(st, c))
  {
    hide Balance;
    var st' := Release(st, c);
    forall b ensures Balance(st', b) == Balance(st, b) { CountsUnmoved(st, st', b); }
    FewerBoxes(st, st');
  }

  /** Same orders and served orders; each slot unchanged or fresh. */
  lemma FewerBoxes(a: Store, b: Store)
    requires Balanced(a) && b.serving == a.serving && (forall x :: Balance(b, x) == Balance(a, x))
    requires forall id :: id in b.orders <==> id in a.orders
    requires forall id :: id in a.orders ==> b.orders[id] == a.orders[id] || b.orders[id] == Reopened(a.orders[id])
    requires forall c :: c in b.slots ==> b.slots[c] == FreshSlot || (c in a.slots && b.slots[c] == a.slots[c])
    ensures Balanced(b)
  {
    FewerSlotsBalanced(a, b);
    FewerOwnersFit(a, b);
    FewerBoxesDistinct(a, b);
    FewerServingKnown(a, b);
  }

  lemma FewerSlotsBalanced(a: Store, b: Store)
    requires SlotsBalanced(a) && forall x :: Balance(b, x) == Balance(a, x)
    requires forall c :: c in b.slots ==> b.slots[c] == FreshSlot || (c in a.slots && b.slots[c] == a.slots[c])
    ensures SlotsBalanced(b)
  {
    hide Balance;
    forall c | c in b.slots
      ensures SlotBalanced(b, b.slots[c])
    {
      if c in a.slots { assert SlotBalanced(a, a.slots[c]); }
    }
  }

  lemma FewerOwnersFit(a: Store, b: Store)
    requires OwnersFit(a) && b.serving == a.serving && forall id :: id in b.orders <==> id in a.orders
    requires forall id :: id in a.orders ==> b.orders[id] == a.orders[id] || b.orders[id] == Reopened(a.orders[id])
    requires forall c :: c in b.slots ==> b.slots[c] == FreshSlot || (c in a.slots && b.slots[c] == a.slots[c])
    ensures OwnersFit(b)
  {
    forall c | c in b.slots
      ensures SlotOwnerFits(b, c, b.slots[c])
    {
      if c in a.slots { assert SlotOwnerFits(a, c, a.slots[c]); }
    }
  }

  lemma FewerBoxesDistinct(a: Store, b: Store)
    requires BoxesDistinct(a)
    requires forall c :: c in b.slots ==> b.slots[c] == FreshSlot || (c in a.slots && b.slots[c] == a.slots[c])
    ensures BoxesDistinct(b)
  {
    forall x, y | x in b.slots && y in b.slots && SameBox(b.slots[x], b.slots[y]) ensures x == y {
      assert SameBox(a.slots[x], a.slots[y]);
    }
  }

  lemma FewerServingKnown(a: Store, b: Store)
    requires ServingKnown(a) && b.serving == a.serving && forall id :: id in b.orders <==> id in a.orders
    requires forall id :: id in a.orders ==> b.orders[id] == a.orders[id] || b.orders[id] == Reopened(a.orders[id])
    requires forall c :: c in b.slots ==> b.slots[c] == FreshSlot || (c in a.slots && b.slots[c] == a.slots[c])
    ensures ServingKnown(b)
  {
    assert forall x :: Brought(a, x) ==> Brought(b, x);
    assert forall k :: k in b.orders && RunsPick(b.orders[k]) ==> RunsPick(a.orders[k]);
  }

  lemma ReopenedBalance(saved: Store, st: Store)
    requires st.serving == saved.serving && (forall id :: id in st.orders <==> id in saved.orders)
    requires forall id :: id in saved.orders ==> st.orders[id] == Reopened(saved.orders[id])
    ensures forall b :: Balance(st, b) == Balance(saved, b)
  {
    forall b ensures Balance(st, b) == Balance(saved, b) {
      CountsUnmoved(saved, st, b);
    }
  }

  lemma RestartBalanced(config: seq<Location>, saved: Store)
    requires Keyed(saved) && Balanced(saved)
    ensures Balanced(Rehydrated(config, saved).0)
  {
    RehydratedMeaning(config, saved, "");
    var st := Rehydrated(config, saved).0;
    hide Rehydrated;
    forall id
      ensures id in st.orders <==> id in saved.orders
    {
      assert id in st.orders.Keys <==> id in saved.orders.Keys;
    }
    ReopenedBalance(saved, st);
    hide Balance, Balanced;
    FewerBoxes(saved, st);
  }
}
