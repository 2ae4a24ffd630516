/** The mutable order and slot tables of src/core/state/StateManager.js, each method proved against its
    function on `Store`. */
module StateManagers {
  import opened Sequences
  import opened Location
  import opened Domain
  import opened Orchestrator

  class StateManager {
    var orders: map<OrderId, Order>
    var orderKeys: seq<OrderId>
    var slots: map<Location, Slot>
    var slotKeys: seq<Location>
    /** The history record of `Store`; the source keeps no such table. */
    var serving: map<OrderId, OrderId>

    ghost function Contents(): Store
      reads this
    {
      Store(orders, orderKeys, slots, slotKeys, serving)
    }

    constructor (codes: seq<Location>)
      ensures Contents() == Configured(codes)
    {
      orders, orderKeys, slots, slotKeys, serving := map[], [], map[], [], map[];
      new;
      ConfigurePickSlots(codes);
    }

    /** `configurePickSlots`: codes already present are skipped. */
    method ConfigurePickSlots(codes: seq<Location>)
      modifies this
      ensures Contents() == WithSlots(old(Contents()), codes)
    {
      var i := 0;
      while i < |codes|
        invariant 0 <= i <= |codes| && Contents() == WithSlots(old(Contents()), codes[..i])
      {
        assert codes[..i + 1][..i] == codes[..i];
        if codes[i] !in slots {
          slots := slots[codes[i] := FreshSlot];
          slotKeys := slotKeys + [codes[i]];
        }
        i := i + 1;
      }
      assert codes[..|codes|] == codes;
    }

    /** `hydrateFromSnapshot`: reset, then orders and slots of the snapshot over the configured ones. */
    method HydrateFromSnapshot(config: seq<Location>, saved: Store)
      modifies this
      ensures Contents() == Hydrated(config, saved)
    {
      orders, orderKeys, slots, slotKeys, serving := map[], [], map[], [], map[];
      ConfigurePickSlots(config);
      ghost var base := Contents();
      var i := 0;
      while i < |saved.slotKeys|
        invariant 0 <= i <= |saved.slotKeys|
        invariant OverlaySlots(Contents(), saved, saved.slotKeys[i..]) == OverlaySlots(base, saved, saved.slotKeys)
      {
        var c := saved.slotKeys[i];
        assert saved.slotKeys[i..][1..] == saved.slotKeys[i + 1..];
        if c in saved.slots {
          slotKeys := if c in slots then slotKeys else slotKeys + [c];
          slots := slots[c := saved.slots[c]];
        }
        i := i + 1;
      }
      orders, orderKeys, serving := saved.orders, saved.orderKeys, saved.serving;
    }

    /** `createOrder`'s insertion */
    method InsertOrder(o: Order)
      modifies this
      ensures Contents() == AddOrder(old(Contents()), o)
    {
      if o.id !in orders { orderKeys := orderKeys + [o.id]; }
      orders := orders[o.id := o];
    }

    /** `updateOrder` with the patched record */
    method UpdateOrder(id: OrderId, o: Order)
      modifies this
      ensures Contents() == WithOrder(old(Contents()), id, o)
    {
      orders := orders[id := o];
    }

    /** History record only. */
    method RecordServing(id: OrderId, c: Location)
      modifies this
      ensures Contents() == Served(old(Contents()), id, c)
    {
      if c in slots && slots[c].box.Some? { serving := serving[id := slots[c].box.value.pickOrder]; }
    }

    /** `findOrderByExternalId` */
    method FindOrderByExternalId(ext: int) returns (found: Option<OrderId>)
      ensures found == FindByExternalId(Contents(), ext)
    {
      var i := 0;
      while i < |orderKeys|
        invariant 0 <= i <= |orderKeys|
        invariant FindByExternalId(Contents(), ext) == FirstExternal(orderKeys[i..], orders, ext)
      {
        assert orderKeys[i..][1..] == orderKeys[i + 1..];
        if orderKeys[i] in orders && orders[orderKeys[i]].externalId == Some(ext) { return Some(orderKeys[i]); }
        i := i + 1;
      }
      found := None;
    }

    /** `findOccupiedPickSlotBySource` */
    method FindOccupiedPickSlot(source: Location) returns (found: Option<Location>)
      ensures found == FindOccupiedBySource(Contents(), source)
    {
      var codes := Sort(slotKeys, ByCode());
      var i := 0;
      while i < |codes|
        invariant 0 <= i <= |codes|
        invariant FindOccupiedBySource(Contents(), source) == FirstHolding(codes[i..], slots, source)
      {
        assert codes[i..][1..] == codes[i + 1..];
        if HoldsBoxFrom(slots, codes[i], source) { return Some(codes[i]); }
        i := i + 1;
      }
      found := None;
    }

    method ReserveSlot(c: Location, id: OrderId) returns (ok: bool)
      modifies this
      ensures ok <==> Reserve(old(Contents()), c, id).Some?
      ensures Contents() == if ok then Reserve(old(Contents()), c, id).value else old(Contents())
    {
      ok := c in slots && slots[c].status == Free;
      if ok { slots := slots[c := slots[c].(status := Reserved, owner := Some(id))]; }
    }

    method ReserveSlotForPut(c: Location, id: OrderId) returns (ok: bool)
      modifies this
      ensures ok <==> ReserveForPut(old(Contents()), c, id).Some?
      ensures Contents() == if ok then ReserveForPut(old(Contents()), c, id).value else old(Contents())
    {
      ok := c in slots && (slots[c].status == Free || slots[c].status == Occupied);
      if ok { slots := slots[c := slots[c].(status := Reserved, owner := Some(id))]; }
    }

    method UpdateSlotStatus(c: Location, status: SlotStatus, owner: Option<OrderId>)
      modifies this
      ensures Contents() == UpdateStatus(old(Contents()), c, status, owner)
    {
      if c !in slots { return; }
      slots := slots[c := slots[c].(status := status, owner := if owner.Some? then owner else slots[c].owner)];
    }

    method MarkSlotOccupied(c: Location, id: OrderId, source: Location)
      modifies this
      ensures Contents() == MarkOccupied(old(Contents()), c, id, source)
    {
      if c !in slots { return; }
      slots := slots[c := Slot(Occupied, Some(id), Some(Box(source, id)), Some(1))];
    }

    method IncrementLogicalPickStack(c: Location) returns (ok: bool)
      modifies this
      ensures ok <==> IncrementStack(old(Contents()), c).Some?
      ensures Contents() == if ok then IncrementStack(old(Contents()), c).value else old(Contents())
    {
      ok := c in slots;
      if ok { slots := slots[c := slots[c].(depth := Some(Depth(slots[c]) + 1))]; }
    }

    method DecrementLogicalPickStack(c: Location) returns (ok: bool)
      modifies this
      ensures ok <==> DecrementStack(old(Contents()), c).Some?
      ensures Contents() == if ok then DecrementStack(old(Contents()), c).value else old(Contents())
    {
      ok := c in slots && Depth(slots[c]) > 1;
      if ok { slots := slots[c := slots[c].(depth := Some(Depth(slots[c]) - 1))]; }
    }

    method ReleaseSlot(c: Location) returns (ok: bool)
      modifies this
      ensures ok <==> c in old(slots)
      ensures Contents() == Release(old(Contents()), c)
    {
      ok := c in slots;
      if ok { slots := slots[c := FreshSlot]; }
    }

    method BlockSlot(c: Location, id: OrderId)
      modifies this
      ensures Contents() == Block(old(Contents()), c, id)
    {
      UpdateSlotStatus(c, Blocked, Some(id));
    }

    /** `getSnapshot` */
    method GetSnapshot() returns (snapshot: Store)
      ensures snapshot == Snapshot(Contents())
    {
      snapshot := Store(orders, Sort(orderKeys, NewestFirst(orders)), slots, Sort(slotKeys, ByCode()), serving);
    }
  }
}
