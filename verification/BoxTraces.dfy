/** What guarded runs keep about the record of served boxes beyond the accounts: enough to say, in terms of the
    program's own fields, which requests the accounts can bear. */
module BoxTraces {
  import opened Sequences
  import opened Location
  import opened Domain
  import opened Queues
  import opened Orchestrator
  import opened Rehydration
  import opened NoLostOrders
  import opened Ownership
  import opened BoxAccounts

  /** A physical PICK that is served brought the box itself. */
  predicate PickTraced(st: Store, k: OrderId)
    requires k in st.orders
  {
    st.orders[k].kind == Pick && !Logical(st.orders[k]) && k in st.serving ==>
        st.serving[k] == k && st.orders[k].slot.Some?
  }

  /** The box a finished physical PUT gave back is gone. */
  ghost predicate PutTraced(st: Store, k: OrderId)
    requires k in st.orders
  {
    st.orders[k].kind == Put && !Logical(st.orders[k]) && st.orders[k].status == Done && k in st.serving ==>
        BoxGone(st, st.serving[k])
  }

  /** Logical orders own no slot. */
  predicate OwnerPhysical(st: Store, c: Location)
    requires c in st.slots
  {
    st.slots[c].owner.Some? ==> st.slots[c].owner.value in st.orders && !Logical(st.orders[st.slots[c].owner.value])
  }

  ghost predicate Traced(st: Store) {
    && (forall k :: k in st.orders ==> PickTraced(st, k) && PutTraced(st, k))
    && (forall c :: c in st.slots ==> OwnerPhysical(st, c))
  }

  /** The box in slot c stays, leaves, or is the one order id has just brought. */
  predicate BoxKept(st: Store, st': Store, id: OrderId, c: Location) {
    c in st.slots && c in st'.slots ==>
      || st'.slots[c].box == st.slots[c].box || st'.slots[c].box.None?
      || (st'.slots[c].box.value.pickOrder == id && id !in st.serving)
  }

  /** An order may turn logical only if it names no slot yet. */
  predicate TurnsLogical(st: Store, st': Store, id: OrderId) {
    id in st.orders && id in st'.orders && Logical(st'.orders[id]) ==>
        Logical(st.orders[id]) || st.orders[id].slot.None?
  }

  lemma TracedAfter(st: Store, st': Store, id: OrderId, c: Location)
    requires Traced(st) && Balanced(st) && Local(st, st', id, c) && BoxKept(st, st', id, c) && TurnsLogical(st, st', id)
    requires PickTraced(st', id) && PutTraced(st', id)
    requires c in st.slots ==> st'.slots[c].owner == st.slots[c].owner || st'.slots[c].owner == None
                               || (st'.slots[c].owner == Some(id) && !Logical(st'.orders[id]))
    ensures Traced(st')
  {
    hide SlotsBalanced, BoxesDistinct, SlotOwnerFits, Balance;
    forall k | k in st'.orders ensures PickTraced(st', k) && PutTraced(st', k) {
      if k != id {
        assert PickTraced(st, k) && PutTraced(st, k);
        if k in st.serving && BoxGone(st, st.serving[k]) { GoneStays(st, st', id, c, st.serving[k]); }
      }
    }
    forall d | d in st'.slots ensures OwnerPhysical(st', d) {
      assert OwnerPhysical(st, d);
      if st.slots[d].owner == Some(id) { OwnerNamesSlot(st, d); }
    }
  }

  lemma OwnerNamesSlot(st: Store, d: Location)
    requires Balanced(st) && d in st.slots && st.slots[d].owner.Some?
    ensures st.slots[d].owner.value in st.orders && st.orders[st.slots[d].owner.value].slot == Some(d)
  {
    assert SlotOwnerFits(st, d, st.slots[d]);
  }

  /** A box that has left does not come back. */
  lemma GoneStays(st: Store, st': Store, id: OrderId, c: Location, b: OrderId)
    requires ServingKnown(st) && Local(st, st', id, c) && BoxKept(st, st', id, c) && Brought(st, b) && BoxGone(st, b)
    ensures BoxGone(st', b)
  {
  }

  // ---------- processing ----------

  lemma ConvertTraced(st: Store, id: OrderId)
    requires Keyed(st) && Balanced(st) && Traced(st) && id in st.orders && WellShaped(st.orders[id])
    ensures Traced(ConvertStore(st, id))
  {
    hide FindOccupiedBySource, Balanced, Traced, Keyed;
    FindOccupiedMeaning(st, st.orders[id].location);
    var found, st' := FindOccupiedBySource(st, st.orders[id].location), ConvertStore(st, id);
    if st' != st {
      NotServedSlotless(st, id);
      TracedAfter(st, st', id, found.value);
    }
  }

  lemma NotServedSlotless(st: Store, id: OrderId)
    requires Traced(st) && id in st.orders && st.orders[id].kind == Pick && !Logical(st.orders[id])
    requires st.orders[id].slot.None?
    ensures id !in st.serving
  {
    assert PickTraced(st, id);
  }

  lemma AssignTraced(st: Store, id: OrderId)
    requires Balanced(st) && Traced(st) && id in st.orders && RunsPick(st.orders[id]) && st.orders[id].slot.None?
    ensures AssignStore(st, id).Some? ==> Traced(AssignStore(st, id).value)
  {
    hide ListAvailableSlots, Balanced, Traced;
    if AssignStore(st, id).Some? {
      var st' := AssignStore(st, id).value;
      PickNotServed(st, id);
      TracedAfter(st, st', id, st'.orders[id].slot.value);
    }
  }

  lemma BeginTraced(st: Store, id: OrderId)
    requires Balanced(st) && Traced(st) && id in st.orders && !Logical(st.orders[id]) && st.orders[id].slot.Some?
    ensures Traced(BeginStore(st, id))
  {
    assert PickTraced(st, id);
    hide Balanced, Traced;
    TracedAfter(st, BeginStore(st, id), id, st.orders[id].slot.value);
  }

  lemma FinishTraced(st: Store, id: OrderId)
    requires Balanced(st) && Owned(st) && Traced(st) && id in st.orders && Live(st.orders[id])
    requires !Logical(st.orders[id])
    requires st.orders[id].slot.Some?
    ensures Traced(FinishStore(st, id))
  {
    hide Balanced, Traced, Owned;
    var c, st' := st.orders[id].slot.value, FinishStore(st, id);
    LiveSlot(st, id, c);
    if st.orders[id].kind == Put && id in st.serving {
      assert BoxesDistinct(st) by { DistinctOf(st); }
      ReturnedIsGone(st, st', id, c);
    }
    TracedAfter(st, st', id, c);
  }

  lemma DistinctOf(st: Store)
    requires Balanced(st)
    ensures BoxesDistinct(st)
  {
  }

  lemma ReturnedIsGone(st: Store, st': Store, id: OrderId, c: Location)
    requires BoxesDistinct(st) && c in st.slots && st'.slots == st.slots[c := FreshSlot] && id in st.serving
    requires id in st.orders && st.orders[id].kind == Put && OwnerFits(st, st.slots[c], id)
    ensures BoxGone(st', st.serving[id])
  {
    forall d | d in st'.slots && st'.slots[d].box.Some? ensures st'.slots[d].box.value.pickOrder != st.serving[id] {
      assert !SameBox(st.slots[c], st.slots[d]);
    }
  }

  lemma RunTraced(st: Store, id: OrderId)
    requires Balanced(st) && Owned(st) && Traced(st) && id in st.orders && Live(st.orders[id])
    requires !Logical(st.orders[id])
    requires st.orders[id].slot.Some?
    ensures Traced(RunStore(st, id).store)
  {
    hide Balanced, Owned, Traced, FinishStore;
    BeginTraced(st, id);
    BeginBalanced(st, id);
    BeginOwned(st, id);
    FinishTraced(BeginStore(st, id), id);
  }

  lemma OrderOnlyTraced(st: Store, id: OrderId, o: Order)
    requires Balanced(st) && Traced(st) && id in st.orders && o.kind == st.orders[id].kind
    requires o.slot == st.orders[id].slot
    requires Logical(o) == Logical(st.orders[id])
    requires o.status == Done ==> Logical(o) || o.kind == Pick || st.orders[id].status == Done
    ensures Traced(WithOrder(st, id, o))
  {
    var c := if o.slot.Some? then o.slot.value else o.location;
    assert PickTraced(st, id) && PutTraced(st, id);
    var st' := WithOrder(st, id, o);
    assert forall b :: BoxGone(st', b) == BoxGone(st, b);
    hide Balanced, Traced;
    TracedAfter(st, st', id, c);
  }

  lemma ProcessTraced(st: Store, id: OrderId)
    requires Keyed(st) && Balanced(st) && Owned(st) && Traced(st) && id in st.orders && WellShaped(st.orders[id])
    requires st.orders[id].slot.None? ==> st.orders[id].status != Canceled
    ensures Traced(ProcessStore(st, id).store)
  {
    hide ProcessStore, ConvertStore, AssignStore, RunStore, Balanced, Owned, Traced, Keyed, WellShaped;
    ProcessCases(st, id);
    ConvertBalanced(st, id);
    ConvertOwned(st, id);
    ConvertTraced(st, id);
    ConvertKeyed(st, id);
    var s := ConvertStore(st, id);
    var o := s.orders[id];
    if Terminal(o) {
    } else if Logical(o) {
      OrderOnlyTraced(s, id, o.(status := Done));
    } else if o.kind == Pick && o.slot.None? {
      AssignTraced(s, id);
      AssignBalanced(s, id);
      AssignOwned(s, id);
      AssignTouches(s, id);
      if AssignStore(s, id).Some? {
        RunTraced(AssignStore(s, id).value, id);
      } else {
        OrderOnlyTraced(s, id, o.(status := Pending, waiting := true));
      }
    } else {
      RunTraced(s, id);
    }
  }

  // ---------- the other actions ----------

  /** A new order: what it is served from is new too, and a slot changes hands only to a physical one. */
  lemma AddTraced(st: Store, st': Store, o: Order, c: Location)
    requires Balanced(st) && Traced(st) && o.id !in st.orders && Local(st, st', o.id, c) && st'.orders[o.id] == o
    requires o.status == Pending
    requires c in st.slots ==> st'.slots[c].box == st.slots[c].box
    requires c in st.slots ==>
        st'.slots[c].owner == st.slots[c].owner || (st'.slots[c].owner == Some(o.id) && !Logical(o))
    requires o.kind == Pick && !Logical(o) ==> st'.serving == st.serving
    ensures Traced(st')
  {
    NewNotServed(st, o.id);
    hide Balanced, Traced;
    TracedAfter(st, st', o.id, c);
  }

  lemma AdmitPickTraced(st: Store, id: OrderId, now: nat, ext: ExternalId, robot: RobotId, l: Location,
                        target: Option<Location>, s: Option<Location>)
    requires Keyed(st) && Balanced(st) && Traced(st) && id !in st.orders
    ensures Traced(AdmitPick(st, id, now, ext, robot, l, target, s).store)
  {
    hide FindOccupiedBySource, Balanced, Traced, Keyed;
    FindOccupiedMeaning(st, l);
    NewNotServed(st, id);
    var found, res := FindOccupiedBySource(st, l), AdmitPick(st, id, now, ext, robot, l, target, s);
    AddTraced(st, res.store, res.order, if found.Some? then found.value else l);
  }

  lemma PutLowersTraced(st: Store, l: Location, o: Order)
    requires Balanced(st) && Traced(st) && o.id !in st.orders && l in st.slots && Depth(st.slots[l]) > 1
    requires o.status == Pending && o.kind == Put && Logical(o)
    ensures Traced(AddOrder(Served(DecrementStack(st, l).value, o.id, l), o))
  {
    hide Balanced, Traced;
    NewNotServed(st, o.id);
    AddTraced(st, AddOrder(Served(DecrementStack(st, l).value, o.id, l), o), o, l);
  }

  lemma PutReservesTraced(st: Store, l: Location, o: Order)
    requires Balanced(st) && Traced(st) && o.id !in st.orders && ReserveForPut(st, l, o.id).Some?
    requires o.status == Pending && o.kind == Put && !Logical(o)
    ensures Traced(AddOrder(Served(ReserveForPut(st, l, o.id).value, o.id, l), o))
  {
    hide Balanced, Traced;
    NewNotServed(st, o.id);
    AddTraced(st, AddOrder(Served(ReserveForPut(st, l, o.id).value, o.id, l), o), o, l);
  }

  lemma AdmitPutTraced(st: Store, id: OrderId, now: nat, ext: ExternalId, robot: RobotId, l: Location,
      target: Option<Location>)
    requires Balanced(st) && Traced(st) && id !in st.orders
    ensures var res := AdmitPut(st, id, now, ext, robot, l, target); res.Created? ==> Traced(res.store)
  {
    hide Balanced, Traced, Served;
    NewNotServed(st, id);
    if l in st.slots {
      var o := NewOrder(id, now, Put, ext, robot, l, target, Some(l), StackDepth(st, l) > 1);
      if StackDepth(st, l) > 1 {
        PutLowersTraced(st, l, o);
      } else if ReserveForPut(st, l, id).Some? {
        PutReservesTraced(st, l, o);
      } else {
        AddTraced(st, AddOrder(st, o.(waiting := true)), o.(waiting := true), l);
      }
    }
  }

  lemma SubmitTraced(st: Store, input: SubmitInput, id: OrderId, now: nat)
    requires Keyed(st) && Balanced(st) && Traced(st) && id !in st.orders
    ensures var res := SubmitStore(st, input, id, now); res.Created? ==> Traced(res.store)
  {
    hide SubmitStore, AdmitPick, AdmitPut, Balanced, Traced, Parse, FindByExternalId;
    SubmitCases(st, input, id, now);
    var res := SubmitStore(st, input, id, now);
    if res.Created? {
      var l, o := Parse(input.locationCode).value.location, res.order;
      if o.kind == Pick {
        AdmitPickTraced(st, id, now, input.id, o.robot, l, o.target, SlotOverride(input));
      } else {
        AdmitPutTraced(st, id, now, input.id, o.robot, l, o.target);
      }
    }
  }

  lemma StepFailedTraced(st: Store, t: Order)
    requires Balanced(st) && Traced(st) && t.id in st.orders && !Logical(st.orders[t.id]) && t.slot.Some?
    requires st.orders[t.id].slot == t.slot
    ensures Traced(StepFailedStore(st, t))
  {
    assert PickTraced(st, t.id);
    hide Balanced, Traced;
    TracedAfter(st, StepFailedStore(st, t), t.id, t.slot.value);
  }

  lemma CancelTraced(st: Store, id: OrderId)
    requires Balanced(st) && Traced(st) && id in st.orders
    ensures Traced(CancelStore(st, id))
  {
    assert PickTraced(st, id);
    hide Balanced, Traced;
    var c := if st.orders[id].slot.Some? then st.orders[id].slot.value else st.orders[id].location;
    if OwnsItsSlot(st, id) { OwnerIsPhysical(st, id, c); }
    TracedAfter(st, CancelStore(st, id), id, c);
  }

  lemma OwnerIsPhysical(st: Store, id: OrderId, c: Location)
    requires Traced(st) && c in st.slots && st.slots[c].owner == Some(id)
    ensures id in st.orders && !Logical(st.orders[id])
  {
    assert OwnerPhysical(st, c);
  }

  /** Same orders, reopened at most; slots as they were, or fresh. */
  lemma FewerTraced(a: Store, b: Store)
    requires Traced(a) && b.serving == a.serving && (forall id :: id in b.orders <==> id in a.orders)
    requires forall id :: id in a.orders ==> b.orders[id] == a.orders[id] || b.orders[id] == Reopened(a.orders[id])
    requires forall c :: c in b.slots ==> b.slots[c] == FreshSlot || (c in a.slots && b.slots[c] == a.slots[c])
    ensures Traced(b)
  {
    forall k | k in b.orders ensures PickTraced(b, k) && PutTraced(b, k) {
      assert PickTraced(a, k) && PutTraced(a, k);
      assert k in a.serving && BoxGone(a, a.serving[k]) ==> BoxGone(b, a.serving[k]);
    }
    forall c | c in b.slots ensures OwnerPhysical(b, c) {
      if b.slots[c] != FreshSlot { assert OwnerPhysical(a, c); }
    }
  }

  lemma RestartTraced(config: seq<Location>, saved: Store)
    requires Keyed(saved) && Traced(saved)
    ensures Traced(Rehydrated(config, saved).0)
  {
    hide Rehydrated, Traced, Keyed;
    RehydratedStore(config, saved);
    var st := Rehydrated(config, saved).0;
    forall id
      ensures id in saved.orders <==> id in st.orders
    {
      assert id in st.orders.Keys <==> id in saved.orders.Keys;
    }
    FewerTraced(saved, st);
  }

  // ---------- the guards of the accounts in the program's own fields ----------

  /** Canceling a PUT is always fine; a PICK that brought a box must own its slot or its box must be gone; a logical
      order must have been served from a box that is gone. */
  ghost predicate CancelGuard(st: Store, id: OrderId)
    requires id in st.orders
  {
    var o := st.orders[id];
    || o.status == Canceled
    || (Logical(o) && (id in st.serving ==> BoxGone(st, st.serving[id])))
    || (!Logical(o) && (o.kind == Put || OwnsItsSlot(st, id) || BoxGone(st, id)))
  }

  lemma CancelGuardMeaning(st: Store, id: OrderId)
    requires Balanced(st) && Owned(st) && Traced(st) && id in st.orders && WellShaped(st.orders[id])
    ensures CancelGuard(st, id) <==> SparesBoxes(st, id)
  {
    var o := st.orders[id];
    assert PickTraced(st, id) && PutTraced(st, id);
    if OwnsItsSlot(st, id) { OwnerIsPhysical(st, id, o.slot.value); }
    if !Logical(o) && o.kind == Pick && id !in st.serving { UnservedBroughtNone(st, id); }
    if !Logical(o) && o.kind == Put && Live(o) { assert OwnedBy(st.slots, o.slot.value, id); }
    hide Balanced, Traced, Owned, BoxGone;
  }

  lemma UnservedBroughtNone(st: Store, id: OrderId)
    requires Balanced(st) && id !in st.serving
    ensures BoxGone(st, id)
  {
    forall c | c in st.slots && st.slots[c].box.Some? ensures st.slots[c].box.value.pickOrder != id {
      assert Brought(st, st.slots[c].box.value.pickOrder);
    }
  }

  /** A cancel keeps the accounts if and only if its guard holds. */
  lemma CancelBalancedExactly(st: Store, id: OrderId)
    requires Balanced(st) && Owned(st) && Traced(st) && id in st.orders && WellShaped(st.orders[id])
    ensures Balanced(CancelStore(st, id)) <==> CancelGuard(st, id)
  {
    hide Balanced, Owned, Traced, CancelStore, WellShaped, SparesBoxes, CancelGuard;
    CancelSparesExactly(st, id);
    CancelGuardMeaning(st, id);
  }
}
