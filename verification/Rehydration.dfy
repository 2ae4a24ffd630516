/** Restart from a snapshot: what `hydrateFromSnapshot` and `rehydrateFromSnapshot` rebuild. */
module Rehydration {
  import opened Sequences
  import opened Location
  import opened Domain
  import opened Queues
  import opened Orchestrator

  // ---------- sorting by creation time ----------

  lemma CreationOrders(orders: map<OrderId, Order>)
    ensures TotalPreorder(NewestFirst(orders)) && TotalPreorder(OldestFirst(orders))
    ensures forall t, a, b :: CreatedThen(orders, t)(a) && CreatedThen(orders, t)(b) ==>
              NewestFirst(orders)(a, b) && OldestFirst(orders)(a, b)
  {
  }

  function CreatedThen(orders: map<OrderId, Order>, t: nat): OrderId -> bool {
    (id: OrderId) => CreatedAt(orders, id) == t
  }

  /** Both orders are known and a was created no later than b. */
  predicate CreatedNoLater(orders: map<OrderId, Order>, a: OrderId, b: OrderId) {
    a in orders && b in orders && orders[a].createdAt <= orders[b].createdAt
  }

  /** The visit goes through every order once, oldest first, and orders created at the same time
      come in stored order. */
  lemma VisitOrderMeaning(st: Store, t: nat)
    requires Keyed(st)
    ensures NoDup(VisitOrder(st)) && forall id :: id in VisitOrder(st) <==> id in st.orders
    ensures Sorted(VisitOrder(st), OldestFirst(st.orders))
    ensures forall i, j :: 0 <= i < j < |VisitOrder(st)| ==>
              CreatedNoLater(st.orders, VisitOrder(st)[i], VisitOrder(st)[j])
    ensures Filter(VisitOrder(st), CreatedThen(st.orders, t)) == Filter(st.orderKeys, CreatedThen(st.orders, t))
  {
    hide Sort, NewestFirst, OldestFirst, CreatedThen, TotalPreorder, Sorted, Filter, CreatedNoLater;
    var newest := Sort(st.orderKeys, NewestFirst(st.orders));
    CreationOrders(st.orders);
    SortPermutes(st.orderKeys, NewestFirst(st.orders));
    SortKeepsNoDup(st.orderKeys, NewestFirst(st.orders));
    SortPermutes(newest, OldestFirst(st.orders));
    SortKeepsNoDup(newest, OldestFirst(st.orders));
    SortSorts(newest, OldestFirst(st.orders));
    SortIsStable(st.orderKeys, NewestFirst(st.orders), CreatedThen(st.orders, t));
    SortIsStable(newest, OldestFirst(st.orders), CreatedThen(st.orders, t));
    VisitedInOrder(st.orders, VisitOrder(st));
  }

  lemma VisitedInOrder(orders: map<OrderId, Order>, ids: seq<OrderId>)
    requires Sorted(ids, OldestFirst(orders)) && forall id :: id in ids ==> id in orders
    ensures forall i, j :: 0 <= i < j < |ids| ==> CreatedNoLater(orders, ids[i], ids[j])
  {
    forall i, j | 0 <= i < j < |ids| ensures CreatedNoLater(orders, ids[i], ids[j]) {
      assert OldestFirst(orders)(ids[i], ids[j]);
    }
  }

  /** A snapshot has the same records, and each key once. */
  lemma SnapshotKeyed(st: Store)
    requires Keyed(st)
    ensures var saved := Snapshot(st);
            && Keyed(saved) && saved.orders == st.orders && saved.slots == st.slots && saved.serving == st.serving
            && multiset(saved.orderKeys) == multiset(st.orderKeys) && multiset(saved.slotKeys) == multiset(st.slotKeys)
  {
    hide Sort, NewestFirst, ByCode;
    SortPermutes(st.orderKeys, NewestFirst(st.orders));
    SortKeepsNoDup(st.orderKeys, NewestFirst(st.orders));
    SortPermutes(st.slotKeys, ByCode());
    SortKeepsNoDup(st.slotKeys, ByCode());
  }

  /** It lists orders newest first and slots by code. */
  lemma SnapshotSorted(st: Store)
    requires Keyed(st)
    ensures var keys := Snapshot(st).orderKeys;
            forall i, j :: 0 <= i < j < |keys| ==> CreatedNoLater(st.orders, keys[j], keys[i])
    ensures var codes := Snapshot(st).slotKeys;
            forall i, j :: 0 <= i < j < |codes| ==> Precedes(Print(codes[i]), Print(codes[j]))
  {
    SnapshotKeyed(st);
    CreationOrders(st.orders);
    CodesOrdered();
    hide Sort, TotalPreorder;
    SortSorts(st.orderKeys, NewestFirst(st.orders));
    SortSorts(st.slotKeys, ByCode());
    var keys, codes := Snapshot(st).orderKeys, Snapshot(st).slotKeys;
    forall i, j | 0 <= i < j < |keys| ensures CreatedNoLater(st.orders, keys[j], keys[i]) {
      assert NewestFirst(st.orders)(keys[i], keys[j]) && keys[i] in st.orders && keys[j] in st.orders;
    }
    forall i, j | 0 <= i < j < |codes| ensures Precedes(Print(codes[i]), Print(codes[j])) {
      assert ByCode()(codes[i], codes[j]) && codes[i] != codes[j];
      CompareMeaning(Print(codes[i]), Print(codes[j]));
      CompareZero(Print(codes[i]), Print(codes[j]));
      if Print(codes[i]) == Print(codes[j]) { PrintInjective(codes[i], codes[j]); }
    }
  }


  // ---------- the slot table ----------

  /** Slots already there stay as they are, the other codes get fresh ones, and the rest of the tables is kept. */
  ghost predicate SlotsAdded(st: Store, st': Store, codes: seq<Location>) {
    && st'.(slots := st.slots, slotKeys := st.slotKeys) == st && st.slotKeys <= st'.slotKeys
    && (forall c :: c in st'.slots <==> c in st.slots || c in codes)
    && (forall c :: c in st'.slots ==> st'.slots[c] == if c in st.slots then st.slots[c] else FreshSlot)
  }

  lemma {:induction false} WithSlotsMeaning(st: Store, codes: seq<Location>)
    requires Keyed(st)
    ensures Keyed(WithSlots(st, codes)) && SlotsAdded(st, WithSlots(st, codes), codes)
    decreases |codes|
  {
    if codes != [] {
      var before := WithSlots(st, codes[..|codes| - 1]);
      WithSlotsMeaning(st, codes[..|codes| - 1]);
      assert codes == codes[..|codes| - 1] + [codes[|codes| - 1]];
      if codes[|codes| - 1] !in before.slots { FreshSlotAdded(before, codes[|codes| - 1]); }
    }
  }

  lemma FreshSlotAdded(st: Store, c: Location)
    requires Keyed(st) && c !in st.slots
    ensures Keyed(st.(slots := st.slots[c := FreshSlot], slotKeys := st.slotKeys + [c]))
  {
  }

  lemma ConfiguredMeaning(codes: seq<Location>)
    ensures Keyed(Configured(codes))
    ensures Configured(codes).orders == map[] && Configured(codes).serving == map[]
    ensures forall c :: c in Configured(codes).slots <==> c in codes
    ensures forall c :: c in Configured(codes).slots ==> Configured(codes).slots[c] == FreshSlot
  {
    WithSlotsMeaning(NoTables, codes);
  }

  lemma {:induction false} OverlayMeaning(base: Store, saved: Store, codes: seq<Location>)
    requires NoDup(base.slotKeys) && forall c :: c in base.slotKeys <==> c in base.slots
    ensures var s := OverlaySlots(base, saved, codes);
            && NoDup(s.slotKeys) && (forall c :: c in s.slotKeys <==> c in s.slots)
            && (forall c :: c in s.slots <==> c in base.slots || (c in codes && c in saved.slots))
            && (forall c :: c in s.slots ==>
                 s.slots[c] == if c in codes && c in saved.slots then saved.slots[c] else base.slots[c])
    decreases |codes|
  {
    if codes != [] {
      var c := codes[0];
      var next := if c !in saved.slots then base
                  else base.(slots := base.slots[c := saved.slots[c]],
                             slotKeys := if c in base.slots then base.slotKeys else base.slotKeys + [c]);
      OverlayMeaning(next, saved, codes[1..]);
      assert codes == [c] + codes[1..];
    }
  }

  /** Orders and saved slots come back unchanged; configured slots the snapshot does not know start LIBRE. */
  lemma HydratedMeaning(config: seq<Location>, saved: Store)
    requires Keyed(saved)
    ensures var st := Hydrated(config, saved);
            && Keyed(st)
            && st.orders == saved.orders && st.orderKeys == saved.orderKeys && st.serving == saved.serving
            && (forall c :: c in st.slots <==> c in config || c in saved.slots)
            && (forall c :: c in st.slots ==> st.slots[c] == if c in saved.slots then saved.slots[c] else FreshSlot)
  {
    ConfiguredMeaning(config);
    OverlayMeaning(Configured(config), saved, saved.slotKeys);
  }

  // ---------- the queues ----------

  /** The orders robot r has to take up again. */
  function Resumes(orders: map<OrderId, Order>, r: RobotId): OrderId -> bool {
    (id: OrderId) => id in orders && orders[id].robot == r && orders[id].status in {Pending, InProgress}
  }

  lemma {:induction false} RequeueStore(st: Store, qs: QueueTable, ids: seq<OrderId>)
    requires NoDup(ids)
    ensures var s := Requeue(st, qs, ids).0;
            && s == st.(orders := s.orders) && s.orders.Keys == st.orders.Keys
            && (forall id :: id in st.orders ==>
                 s.orders[id] == if id in ids then Reopened(st.orders[id]) else st.orders[id])
    decreases |ids|
  {
    if ids != [] {
      var id, rest := ids[0], ids[1..];
      assert ids == [id] + rest;
      if id !in st.orders {
        RequeueStore(st, qs, rest);
      } else {
        var o := Reopened(st.orders[id]);
        RequeueStore(WithOrder(st, id, o), if o.status == Pending then Enqueue(qs, o.robot, id) else qs, rest);
      }
    }
  }

  lemma VisitQueues(qs: QueueTable, o: Order, id: OrderId, r: RobotId)
    ensures var qs' := if o.status == Pending then Enqueue(qs, o.robot, id) else qs;
            QueueOf(qs', r) == QueueOf(qs, r).(
              items := QueueOf(qs, r).items + if o.status == Pending && o.robot == r then [id] else [])
  {
    assert QueueOf(qs, r).items + [] == QueueOf(qs, r).items;
  }

  /** Reopening one order changes nobody's claim to the queue. */
  lemma ReopeningResumes(st: Store, id: OrderId, rest: seq<OrderId>, r: RobotId)
    requires id in st.orders && id !in rest
    ensures Filter(rest, Resumes(WithOrder(st, id, Reopened(st.orders[id])).orders, r))
        == Filter(rest, Resumes(st.orders, r))
  {
    FilterAgrees(rest, Resumes(WithOrder(st, id, Reopened(st.orders[id])).orders, r), Resumes(st.orders, r));
  }

  lemma {:induction false} RequeueQueue(st: Store, qs: QueueTable, ids: seq<OrderId>, r: RobotId)
    requires NoDup(ids)
    ensures var q := Requeue(st, qs, ids).1;
            QueueOf(q, r) == QueueOf(qs, r).(items := QueueOf(qs, r).items + Filter(ids, Resumes(st.orders, r)))
    decreases |ids|
  {
    if ids == [] {
      assert QueueOf(qs, r).items + [] == QueueOf(qs, r).items;
    } else {
      var id, rest := ids[0], ids[1..];
      assert id !in rest;
      FilterHead(ids, Resumes(st.orders, r));
      if id !in st.orders {
        RequeueQueue(st, qs, rest, r);
      } else {
        var o := Reopened(st.orders[id]);
        var st' := WithOrder(st, id, o);
        RequeueQueue(st', if o.status == Pending then Enqueue(qs, o.robot, id) else qs, rest, r);
        hide Filter, Enqueue;
        ReopeningResumes(st, id, rest, r);
        VisitQueues(qs, o, id, r);
        Associate(QueueOf(qs, r).items, if o.status == Pending && o.robot == r then [id] else [],
                  Filter(rest, Resumes(st.orders, r)));
      }
    }
  }

  lemma FilterHead<T>(s: seq<T>, p: T -> bool)
    requires s != []
    ensures Filter(s, p) == (if p(s[0]) then [s[0]] else []) + Filter(s[1..], p)
  {
  }

  lemma Associate<T>(a: seq<T>, b: seq<T>, c: seq<T>)
    ensures (a + b) + c == a + (b + c)
  {
  }

  lemma {:induction false} FilterAgrees<T>(s: seq<T>, p: T -> bool, q: T -> bool)
    requires forall x :: x in s ==> p(x) == q(x)
    ensures Filter(s, p) == Filter(s, q)
  {
    if s != [] {
      assert s[0] in s;
      assert forall x :: x in s[1..] ==> x in s;
      FilterAgrees(s[1..], p, q);
    }
  }

  lemma VisitSame(config: seq<Location>, saved: Store)
    requires Keyed(saved)
    ensures VisitOrder(Hydrated(config, saved)) == VisitOrder(saved)
  {
    HydratedMeaning(config, saved);
    hide Hydrated, Sort;
  }

  lemma RehydratedStore(config: seq<Location>, saved: Store)
    requires Keyed(saved)
    ensures var st := Rehydrated(config, saved).0;
            && Keyed(st)
            && st.orders.Keys == saved.orders.Keys && st.orderKeys == saved.orderKeys && st.serving == saved.serving
            && (forall id :: id in saved.orders ==> st.orders[id] == Reopened(saved.orders[id]))
            && (forall c :: c in st.slots <==> c in config || c in saved.slots)
            && (forall c :: c in st.slots ==> st.slots[c] == if c in saved.slots then saved.slots[c] else FreshSlot)
  {
    HydratedMeaning(config, saved);
    VisitSame(config, saved);
    VisitOrderMeaning(saved, 0);
    var h := Hydrated(config, saved);
    RequeueStore(h, map[], VisitOrder(saved));
    hide Hydrated, VisitOrder, Requeue, Keyed;
    ReopenedKeyed(h, Rehydrated(config, saved).0);
  }

  lemma ReopenedKeyed(h: Store, st: Store)
    requires Keyed(h) && st == h.(orders := st.orders) && st.orders.Keys == h.orders.Keys
    requires forall id :: id in h.orders ==> st.orders[id] == h.orders[id] || st.orders[id] == Reopened(h.orders[id])
    ensures Keyed(st)
  {
    forall id ensures id in st.orders <==> id in h.orders { assert id in st.orders.Keys <==> id in h.orders.Keys; }
  }

  lemma RehydratedQueue(config: seq<Location>, saved: Store, r: RobotId)
    requires Keyed(saved)
    ensures QueueOf(Rehydrated(config, saved).1, r)
        == RobotQueue(None, Filter(VisitOrder(saved), Resumes(saved.orders, r)), false)
  {
    hide Hydrated, VisitOrder, Requeue, Filter;
    HydratedMeaning(config, saved);
    VisitSame(config, saved);
    VisitOrderMeaning(saved, 0);
    var items := Filter(VisitOrder(saved), Resumes(saved.orders, r));
    RequeueQueue(Hydrated(config, saved), map[], VisitOrder(saved), r);
    assert [] + items == items;
  }

  /** From any saved state: each queue becomes exactly the robot's PENDING and formerly running orders,
      oldest first, with nothing active; slots keep status, owner, box and depth. */
  lemma RehydratedMeaning(config: seq<Location>, saved: Store, r: RobotId)
    requires Keyed(saved)
    ensures var (st, qs) := Rehydrated(config, saved);
            && Keyed(st)
            && st.orders.Keys == saved.orders.Keys && st.orderKeys == saved.orderKeys && st.serving == saved.serving
            && (forall id :: id in saved.orders ==> st.orders[id] == Reopened(saved.orders[id]))
            && (forall c :: c in st.slots <==> c in config || c in saved.slots)
            && (forall c :: c in st.slots ==> st.slots[c] == if c in saved.slots then saved.slots[c] else FreshSlot)
            && QueueOf(qs, r).active == None && !QueueOf(qs, r).paused
            && QueueOf(qs, r).items == Filter(VisitOrder(saved), Resumes(saved.orders, r))
            && NoDup(QueueOf(qs, r).items)
            && (forall id :: id in QueueOf(qs, r).items
                             <==> id in saved.orders && saved.orders[id].robot == r
                                  && saved.orders[id].status in {Pending, InProgress})
  {
    RehydratedStore(config, saved);
    RehydratedQueue(config, saved, r);
    var items := Filter(VisitOrder(saved), Resumes(saved.orders, r));
    VisitOrderMeaning(saved, 0);
    FilterMembers(VisitOrder(saved), Resumes(saved.orders, r));
    FilterKeepsNoDup(VisitOrder(saved), Resumes(saved.orders, r));
    hide Rehydrated, VisitOrder, Filter, Keyed;
  }

  /** The rebuilt queue is in creation order. */
  lemma {:induction false} FilterKeepsSorted<T>(s: seq<T>, p: T -> bool, le: (T, T) -> bool)
    requires Sorted(s, le)
    ensures Sorted(Filter(s, p), le)
  {
    if s != [] {
      FilterKeepsSorted(s[1..], p, le);
      var rest := s[1..];
      var t := Filter(rest, p);
      forall j | 0 <= j < |t| ensures le(s[0], t[j]) {
        FilterMember(rest, p, t[j]);
        var k :| 0 <= k < |rest| && rest[k] == t[j];
        assert le(s[0], s[k + 1]);
      }
    }
  }

  lemma RebuiltQueueOldestFirst(config: seq<Location>, saved: Store, r: RobotId, t: nat)
    requires Keyed(saved)
    ensures var (st, qs) := Rehydrated(config, saved);
            && (var ids := QueueOf(qs, r).items;
                forall i, j :: 0 <= i < j < |ids| ==> CreatedNoLater(saved.orders, ids[i], ids[j]))
            && Filter(QueueOf(qs, r).items, CreatedThen(saved.orders, t))
               == Filter(Filter(saved.orderKeys, CreatedThen(saved.orders, t)), Resumes(saved.orders, r))
  {
    RehydratedMeaning(config, saved, r);
    VisitOrderMeaning(saved, t);
    FilterKeepsSorted(VisitOrder(saved), Resumes(saved.orders, r), OldestFirst(saved.orders));
    FiltersCommute(VisitOrder(saved), Resumes(saved.orders, r), CreatedThen(saved.orders, t));
  }

  lemma {:induction false} FiltersCommute<T>(s: seq<T>, p: T -> bool, q: T -> bool)
    ensures Filter(Filter(s, p), q) == Filter(Filter(s, q), p)
  {
    if s != [] {
      FiltersCommute(s[1..], p, q);
      var x := s[0];
      if p(x) { assert ([x] + Filter(s[1..], p))[1..] == Filter(s[1..], p); }
      if q(x) { assert ([x] + Filter(s[1..], q))[1..] == Filter(s[1..], q); }
    }
  }
}
