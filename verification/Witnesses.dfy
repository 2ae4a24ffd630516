/** Short runs from a fresh system that reach the situations the guards speak of, and what goes wrong there. */
module Witnesses {
  import opened Sequences
  import opened Location
  import opened Domain
  import opened Queues
  import opened Orchestrator
  import opened NoLostOrders
  import opened RobotLoop
  import opened SlotRanking
  import opened Ownership
  import opened BoxAccounts
  import opened OneBoxPerSource
  import opened PlanRecord
  import opened Scenes

  // ---------- reading a run ----------

  lemma ExecFirst(w: World, a: Action, rest: seq<Action>)
    ensures Exec(w, [a] + rest) == Exec(Next(w, a), rest)
  {
    ExecAfter(w, [a], rest);
    ExecOne(w, a);
  }

  lemma ExecThree(w: World, a: Action, b: Action, c: Action)
    ensures Exec(w, [a, b, c]) == Next(Next(Next(w, a), b), c)
  {
    hide Next;
    assert [a, b, c] == [a] + [b, c];
    ExecFirst(w, a, [b, c]);
    ExecTwo(Next(w, a), b, c);
  }

  lemma StartScene(config: seq<Location>)
    ensures var w := Initial(config, 1);
            && SceneOf(w) == Scene(map[], w.store.slots, map[], map[], 0, 1) && w.acked == map[]
            && (forall c :: c in w.store.slots <==> c in config)
            && (forall c :: c in w.store.slots ==> w.store.slots[c] == FreshSlot)
            && (forall r :: QueueOf(w.queues, r) == EmptyQueue)
    ensures Consistent(Initial(config, 1)) && Keyed(Initial(config, 1).store)
  {
    Rehydration.ConfiguredMeaning(config);
    InitialConsistent(config, 1);
  }

  lemma RetryScene(w: World, id: OrderId)
    requires id in w.store.orders
    ensures var v, o, q := Next(w, DoRetry(id, true)), w.store.orders[id], QueueOf(w.queues, w.store.orders[id].robot);
            && SceneOf(v) == SceneOf(w).(
                 orders := w.store.orders[id := o.(status := Pending, stepIndex := 0, steps := BuildSteps(o.kind),
                                                   waiting := false)])
            && OnlyLine(w, v, o.robot, q.(items := q.items + [id])) && v.acked == w.acked[id := []]
  {
    hide Snapshot;
  }

  /** Canceling a PUT that owns its slot: the slot stands OCUPADO, the order leaves its robot's line. */
  lemma CancelPutScene(w: World, id: OrderId, c: Location)
    requires id in w.store.orders && w.store.orders[id].kind == Put && w.store.orders[id].slot == Some(c)
    requires c in w.store.slots && w.store.slots[c].owner == Some(id)
    ensures var v, o, q := Next(w, DoCancel(id)), w.store.orders[id], QueueOf(w.queues, w.store.orders[id].robot);
            && SceneOf(v) == SceneOf(w).(orders := w.store.orders[id := o.(status := Canceled)],
                                         slots := w.store.slots[c := w.store.slots[c].(status := Occupied)])
            && OnlyLine(w, v, o.robot,
                        q.(items := Without(q.items, id), active := if q.active == Some(id) then None else q.active))
  {
  }

  // ---------- ownership ----------

  /** A PUT is canceled in the middle of its step, another PUT takes the slot, and then the first one's step fails: the
      slot goes back to the first, while the second still holds it. */
  lemma LateFailureTakesSlot(c: Location)
    requires c.moduleNumber >= 1
    ensures var r := RobotOf(c);
            var w := Exec(Initial([c], 1), [DoSubmit(PutRequest(c), 0), DoLoop(r), DoCancel(0)]
                + [DoSubmit(PutRequest(c), 1)]);
            var v := Next(w, DoStepEnd(r, []));
            && 1 in v.store.orders && Holds(v.store.orders[1], c) && c in v.store.slots
            && v.store.slots[c].owner == Some(0)
            && !Owned(v.store)
  {
    hide Next, Exec, Initial, RobotOf, Print, Owned, BuildSteps, Consistent, Keyed, Ensure, SetActive, Enqueue,
      Snapshot;
    var r, w0 := RobotOf(c), Initial([c], 1);
    StartScene([c]);
    var w1 := Next(w0, DoSubmit(PutRequest(c), 0));
    PutArrives(w0, c, 0);
    var w2 := Next(w1, DoLoop(r));
    Runs(w1, r, 0);
    var w3 := Next(w2, DoCancel(0));
    CancelPutScene(w2, 0, c);
    var w4 := Next(w3, DoSubmit(PutRequest(c), 1));
    PutArrives(w3, c, 1);
    ExecThree(w0, DoSubmit(PutRequest(c), 0), DoLoop(r), DoCancel(0));
    ExecAfter(w0, [DoSubmit(PutRequest(c), 0), DoLoop(r), DoCancel(0)], [DoSubmit(PutRequest(c), 1)]);
    ExecOne(w3, DoSubmit(PutRequest(c), 1));
    StepFails(w4, r);
    var v := Next(w4, DoStepEnd(r, []));
    assert Holds(v.store.orders[1], c) && v.store.slots[c].owner == Some(0);
    TwoClaims(v.store, 1, c);
  }

  lemma TwoClaims(st: Store, id: OrderId, c: Location)
    requires id in st.orders && Holds(st.orders[id], c) && c in st.slots && st.slots[c].owner != Some(id)
    ensures !Owned(st)
  {
    assert !OwnedBy(st.slots, c, id);
  }

  /** A retry of a finished PUT: it holds again a slot that is free for anyone. */
  lemma RetryOfDoneHoldsFreeSlot(c: Location)
    requires c.moduleNumber >= 1
    ensures var r := RobotOf(c);
            var w := Exec(Initial([c], 1), [DoSubmit(PutRequest(c), 0), DoLoop(r)] + Rest(r, 0));
            var v := Next(w, DoRetry(0, true));
            && 0 in w.store.orders && w.store.orders[0].status == Done && 0 in v.store.orders && c in v.store.slots
            && Holds(v.store.orders[0], c) && v.store.slots[c] == FreshSlot && !Owned(v.store)
  {
    hide Next, Exec, Initial, RobotOf, Print, Owned, Rest;
    var r, w0 := RobotOf(c), Initial([c], 1);
    StartScene([c]);
    var w1 := Next(w0, DoSubmit(PutRequest(c), 0));
    PutArrives(w0, c, 0);
    var w2 := Next(w1, DoLoop(r));
    Runs(w1, r, 0);
    var w3 := Exec(w2, Rest(r, 0));
    ReachesEnd(w2, r, 0, 0);
    ExecTwo(w0, DoSubmit(PutRequest(c), 0), DoLoop(r));
    ExecAfter(w0, [DoSubmit(PutRequest(c), 0), DoLoop(r)], Rest(r, 0));
    RetryScene(w3, 0);
    var v := Next(w3, DoRetry(0, true));
    assert Holds(v.store.orders[0], c) && v.store.slots[c] == FreshSlot;
    TwoClaims(v.store, 0, c);
  }

  /** A manual release of the slot of a PUT in line: the slot is free for anyone, the PUT still holds it. */
  lemma ReleaseTakesSlotAway(c: Location)
    ensures var w := Exec(Initial([c], 1), [DoSubmit(PutRequest(c), 0), DoRelease(c)]);
            && 0 in w.store.orders && c in w.store.slots
            && Holds(w.store.orders[0], c) && w.store.slots[c] == FreshSlot && !Owned(w.store)
  {
    hide Next, Exec, Initial, RobotOf, Print, Owned;
    var w0 := Initial([c], 1);
    StartScene([c]);
    var w1 := Next(w0, DoSubmit(PutRequest(c), 0));
    PutArrives(w0, c, 0);
    ReleaseScene(w1, c);
    ExecTwo(w0, DoSubmit(PutRequest(c), 0), DoRelease(c));
    TwoClaims(Next(w1, DoRelease(c)).store, 0, c);
  }

  lemma ReleaseScene(w: World, c: Location)
    requires c in w.store.slots
    ensures SceneOf(Next(w, DoRelease(c))) == SceneOf(w).(slots := w.store.slots[c := FreshSlot])
  {
    hide Snapshot;
  }

  // ---------- plan ----------

  /** A retry inside the second step, whose acknowledgement then comes: the order is past two steps on one
      acknowledgement since its restart. */
  lemma RetryInsideStepSkipsOne(c: Location)
    requires c.moduleNumber >= 1
    ensures var r := RobotOf(c);
            var w := Exec(Initial([c], 1), [DoSubmit(PutRequest(c), 0), DoLoop(r), DoStepEnd(r, Ok)]
                + [DoLoop(r), DoRetry(0, true), DoStepEnd(r, Ok)]);
            0 in w.store.orders && w.store.orders[0].stepIndex == 2 && |RecordOf(w.acked, 0)| == 1
  {
    hide Next, Exec, Initial, RobotOf, Print, TicketCode;
    var r, w0 := RobotOf(c), Initial([c], 1);
    StartScene([c]);
    var w1 := Next(w0, DoSubmit(PutRequest(c), 0));
    PutArrives(w0, c, 0);
    var w2 := Next(w1, DoLoop(r));
    Runs(w1, r, 0);
    var w3 := Next(w2, DoStepEnd(r, Ok));
    AfterOk(w2, r, 0, 0);
    var w4 := Next(w3, DoLoop(r));
    Runs(w3, r, 0);
    var w5 := Next(w4, DoRetry(0, true));
    RetryScene(w4, 0);
    StepGoesWell(w5, r);
    ExecThree(w0, DoSubmit(PutRequest(c), 0), DoLoop(r), DoStepEnd(r, Ok));
    ExecAfter(w0, [DoSubmit(PutRequest(c), 0), DoLoop(r), DoStepEnd(r, Ok)],
        [DoLoop(r), DoRetry(0, true), DoStepEnd(r, Ok)]);
    ExecThree(w3, DoLoop(r), DoRetry(0, true), DoStepEnd(r, Ok));
  }

  // ---------- boxes ----------

  /** Slots a and b serve the place l, a before b. */
  ghost predicate Serve(l: Location, a: Location, b: Location) {
    && l.moduleNumber >= 1 && a.moduleNumber >= 1 && b.moduleNumber >= 1
    && SameSide(a, l) && SameSide(b, l) && a != b && Closer(l, a, b)
  }

  /** There are such places, with a slot's robot other than the shelf's. */
  lemma PlacesServe()
    ensures exists l: Location, a: Location, b: Location :: Serve(l, a, b) && RobotOf(a) != RobotOf(l)
  {
    var l: Location, a: Location, b: Location := RawLocation("3X", 1, 1, 1), RawLocation("P", 1, 1, 1),
        RawLocation("P", 3, 1, 1);
    LexLessFour(Key(l, a), Key(l, b));
    assert RobotOf(a) == "P" && RobotOf(l) == "1" && "P"[0] != "1"[0];
    assert Serve(l, a, b);
  }

  /** The steps by which PICK id takes its box from l to its slot, once it is at the head of the line. */
  function Fetch(r: RobotId): seq<Action> { [DoLoop(r)] + Rest(r, 0) }

  /** A slotless PICK at the head fetches its box into slot c. */
  lemma FetchScene(w: World, r: RobotId, id: OrderId, c: Location)
    requires Keyed(w.store) && r !in w.inStep && w.maxRetries >= 1
    requires id in w.store.orders && Slotless(w.store.orders[id], id)
    requires QueueOf(w.queues, r) == RobotQueue(None, [id], false)
    requires NearestFree(w.store, w.store.orders[id].location, c) && c.moduleNumber >= 1
    requires w.store.orders[id].location.moduleNumber >= 1
    requires forall d :: d in w.store.slots ==> !HoldsBoxFrom(w.store.slots, d, w.store.orders[id].location)
    ensures var v, o := Exec(w, Fetch(r)), w.store.orders[id];
            && SceneOf(v) == SceneOf(w).(
                 orders := w.store.orders[id := o.(slot := Some(c), status := Done, waiting := false, stepIndex := 5)],
                 slots := w.store.slots[c := Slot(Occupied, Some(id), Some(Box(o.location, id)), Some(1))],
                 serving := w.store.serving[id := id])
            && OnlyLine(w, v, r, RobotQueue(None, [], false))
  {
    hide Next, Exec, Rest, NearestFree, Keyed;
    var v1 := Next(w, DoLoop(r));
    Begins(w, r, id, c);
    assert QueueOf(w.queues, r).items[1..] == [];
    NearestKnown(w.store, w.store.orders[id].location, c);
    ReachesEnd(v1, r, id, 0);
    ExecFirst(w, DoLoop(r), Rest(r, 0));
  }

  lemma KeyedNext(w: World, a: Action)
    requires Consistent(w)
    ensures Consistent(Next(w, a)) && Keyed(Next(w, a).store)
  {
    hide Next;
    NextConsistent(w, a);
  }

  lemma {:induction false} ConsistentExec(w: World, run: seq<Action>)
    requires Consistent(w)
    ensures Consistent(Exec(w, run)) && Keyed(Exec(w, run).store)
    decreases |run|
  {
    if run != [] {
      ConsistentExec(w, run[..|run| - 1]);
      hide Next;
      NextConsistent(Exec(w, run[..|run| - 1]), run[|run| - 1]);
    }
  }

  /** The system in which the box from l stands in a, brought by PICK 0, and nothing else has happened. */
  ghost predicate BoxStands(w: World, config: seq<Location>, l: Location, a: Location) {
    && Consistent(w) && Keyed(w.store) && w.inStep == map[] && w.nextId == 1 && w.maxRetries == 1
    && w.store.orders == map[0 := PickOrder(0, 0, l).(slot := Some(a), status := Done, stepIndex := 5)]
    && (forall c :: c in w.store.slots <==> c in config)
    && (forall c :: c in w.store.slots ==>
          w.store.slots[c] == if c == a then Slot(Occupied, Some(0), Some(Box(l, 0)), Some(1)) else FreshSlot)
    && (forall x :: QueueOf(w.queues, x) == EmptyQueue)
  }

  /** One PICK has brought its box from l into slot a of a fresh system. */
  lemma FirstBox(config: seq<Location>, l: Location, a: Location)
    requires l.moduleNumber >= 1 && a.moduleNumber >= 1 && a in config && SameSide(a, l)
    requires forall d :: d in config && d != a && SameSide(d, l) ==> Closer(l, a, d)
    ensures var w := Exec(Initial(config, 1), [DoSubmit(PickRequest(l), 0)] + Fetch(RobotOf(l)));
            BoxStands(w, config, l, a) && w.store.serving == map[0 := 0]
  {
    hide Next, Exec, Initial, RobotOf, Print, Fetch, Closer, Consistent, Keyed;
    var r, w0 := RobotOf(l), Initial(config, 1);
    StartScene(config);
    var w1 := Next(w0, DoSubmit(PickRequest(l), 0));
    KeyedNext(w0, DoSubmit(PickRequest(l), 0));
    PickArrives(w0, l, 0);
    assert QueueOf(w1.queues, r) == RobotQueue(None, [0], false);
    FetchScene(w1, r, 0, a);
    ExecFirst(w0, DoSubmit(PickRequest(l), 0), Fetch(r));
    ConsistentExec(w1, Fetch(r));
  }

  /** A PICK joins a standing box and is canceled: the counter stays at two, owed to one PICK only. */
  lemma CanceledLogicalPickLeavesCounter(l: Location, a: Location)
    requires l.moduleNumber >= 1 && a.moduleNumber >= 1 && SameSide(a, l)
    ensures var r := RobotOf(l);
            var w := Exec(Initial([a], 1), [DoSubmit(PickRequest(l), 0)] + Fetch(r));
            var v := Next(Next(w, DoSubmit(PickRequest(l), 1)), DoCancel(1));
            && a in v.store.slots && v.store.slots[a].status == Occupied && StackDepth(v.store, a) == 2
            && OrdersOf(v.store, 0, Pick) == {0} && OrdersOf(v.store, 0, Put) == {} && !Balanced(v.store)
  {
    hide Next, Exec, Initial, RobotOf, Print, Fetch, Balanced, Consistent;
    var w := Exec(Initial([a], 1), [DoSubmit(PickRequest(l), 0)] + Fetch(RobotOf(l)));
    FirstBox([a], l, a);
    var w1 := Next(w, DoSubmit(PickRequest(l), 1));
    PickJoins(w, l, a, 1);
    var v := Next(w1, DoCancel(1));
    CancelForeignScene(w1, 1, a);
    assert OrdersOf(v.store, 0, Pick) == {0} && OrdersOf(v.store, 0, Put) == {};
    Unbalanced(v.store, a);
  }

  lemma CancelForeignScene(w: World, id: OrderId, c: Location)
    requires id in w.store.orders && w.store.orders[id].slot == Some(c) && c in w.store.slots
    requires w.store.slots[c].owner != Some(id)
    ensures SceneOf(Next(w, DoCancel(id)))
        == SceneOf(w).(orders := w.store.orders[id := w.store.orders[id].(status := Canceled)])
  {
  }

  lemma Unbalanced(st: Store, c: Location)
    requires c in st.slots && st.slots[c].status == Occupied && st.slots[c].box.Some?
    requires Balance(st, st.slots[c].box.value.pickOrder) != Depth(st.slots[c])
    ensures !Balanced(st)
  {
    hide Balance;
    assert !SlotBalanced(st, st.slots[c]);
  }

  lemma PutAndPickArrive(w: World, l: Location, a: Location, b: Location)
    requires Serve(l, a, b) && RobotOf(a) != RobotOf(l) && BoxStands(w, [a, b], l, a)
    ensures var r := RobotOf(l);
            var v := Next(Next(w, DoSubmit(PutRequest(a), 1)), DoSubmit(PickRequest(l), 2));
            && Keyed(v.store) && v.inStep == map[] && v.maxRetries == 1
            && v.store.orders == map[0 := PickOrder(0, 0, l).(slot := Some(a), status := Done, stepIndex := 5),
                                     1 := PutOrder(1, 1, a), 2 := PickOrder(2, 2, l)]
            && v.store.slots == map[a := Slot(Reserved, Some(1), Some(Box(l, 0)), Some(1)), b := FreshSlot]
            && QueueOf(v.queues, r) == RobotQueue(None, [2], false)
  {
    hide Next, RobotOf, Print, Closer, Keyed, Consistent, Depth;
    OneDeep();
    var w1 := Next(w, DoSubmit(PutRequest(a), 1));
    PutArrives(w, a, 1);
    KeyedNext(w, DoSubmit(PutRequest(a), 1));
    PickArrives(w1, l, 2);
    KeyedNext(w1, DoSubmit(PickRequest(l), 2));
  }

  lemma SecondFetchStarts(w: World, l: Location, a: Location, b: Location)
    requires Serve(l, a, b) && RobotOf(a) != RobotOf(l) && BoxStands(w, [a, b], l, a)
    ensures var r := RobotOf(l);
            var v := Exec(w, [DoSubmit(PutRequest(a), 1), DoSubmit(PickRequest(l), 2), DoLoop(r)]);
            && InStep(v, r, 2, 0) && v.maxRetries == 1 && v.store.orders[2].slot == Some(b)
            && v.store.orders[2].location == l
            && v.store.orders[2].kind == Pick && 1 in v.store.orders && v.store.orders[1] == PutOrder(1, 1, a)
            && a in v.store.slots && v.store.slots[a] == Slot(Reserved, Some(1), Some(Box(l, 0)), Some(1))
  {
    hide Next, Exec, RobotOf, Print, Closer, Keyed, Consistent, BoxStands;
    var r := RobotOf(l);
    PutAndPickArrive(w, l, a, b);
    var w2 := Next(Next(w, DoSubmit(PutRequest(a), 1)), DoSubmit(PickRequest(l), 2));
    assert NearestFree(w2.store, l, b);
    Begins(w2, r, 2, b);
    ExecThree(w, DoSubmit(PutRequest(a), 1), DoSubmit(PickRequest(l), 2), DoLoop(r));
  }

  lemma OneDeep()
    ensures forall s: Slot :: s.depth == Some(1) ==> Depth(s) == 1
  {
  }

  /** A box stands in a; a PUT reserves it and another PICK from the same place sets out for b; the PUT is canceled and
      the PICK arrives: two boxes from one place. The PUT's robot is another one. */
  lemma CanceledPutMakesTwoBoxes(l: Location, a: Location, b: Location)
    requires Serve(l, a, b) && RobotOf(a) != RobotOf(l)
    ensures var r := RobotOf(l);
            var w := Exec(Initial([a, b], 1), [DoSubmit(PickRequest(l), 0)] + Fetch(r));
            var u := Exec(w, [DoSubmit(PutRequest(a), 1), DoSubmit(PickRequest(l), 2), DoLoop(r)]);
            var v := Exec(Next(u, DoCancel(1)), Rest(r, 0));
            HoldsBoxFrom(v.store.slots, a, l) && HoldsBoxFrom(v.store.slots, b, l) && !SingleBox(v.store)
  {
    hide Next, Exec, Initial, RobotOf, Print, Fetch, Closer, Rest, Keyed, Consistent;
    var r := RobotOf(l);
    var w := Exec(Initial([a, b], 1), [DoSubmit(PickRequest(l), 0)] + Fetch(r));
    FirstBox([a, b], l, a);
    SecondFetchStarts(w, l, a, b);
    var u := Exec(w, [DoSubmit(PutRequest(a), 1), DoSubmit(PickRequest(l), 2), DoLoop(r)]);
    CancelPutScene(u, 1, a);
    ReachesEnd(Next(u, DoCancel(1)), r, 2, 0);
  }

  // ---------- the retried PICK ----------

  /** The first PICK has failed on its first step: its slot a is blocked. */
  lemma FirstFails(l: Location, a: Location, b: Location)
    requires Serve(l, a, b)
    ensures var r := RobotOf(l);
            var w := Exec(Initial([a, b], 1), [DoSubmit(PickRequest(l), 0), DoLoop(r), DoStepEnd(r, [])]);
            && Consistent(w) && Keyed(w.store) && w.inStep == map[] && w.nextId == 1 && w.maxRetries == 1
            && w.store.orders == map[0 := PickOrder(0, 0, l).(slot := Some(a), status := Error)]
            && w.store.slots == map[a := Slot(Blocked, Some(0), None, None), b := FreshSlot]
            && (forall x :: QueueOf(w.queues, x) == EmptyQueue)
  {
    hide Next, Exec, Initial, RobotOf, Print, Closer, Keyed, Consistent;
    var r, w0 := RobotOf(l), Initial([a, b], 1);
    StartScene([a, b]);
    var w1 := Next(w0, DoSubmit(PickRequest(l), 0));
    KeyedNext(w0, DoSubmit(PickRequest(l), 0));
    PickArrives(w0, l, 0);
    assert QueueOf(w1.queues, r) == RobotQueue(None, [0], false);
    assert NearestFree(w1.store, l, a);
    var w2 := Next(w1, DoLoop(r));
    KeyedNext(w1, DoLoop(r));
    Begins(w1, r, 0, a);
    KeyedNext(w2, DoStepEnd(r, []));
    StepFails(w2, r);
    ExecThree(w0, DoSubmit(PickRequest(l), 0), DoLoop(r), DoStepEnd(r, []));
  }

  /** A PICK fails, another PICK brings the box into the next slot, and the retry of the first brings a second box. */
  lemma RetriedPickMakesTwoBoxes(l: Location, a: Location, b: Location)
    requires Serve(l, a, b)
    ensures var r := RobotOf(l);
            var w := Exec(Initial([a, b], 1), [DoSubmit(PickRequest(l), 0), DoLoop(r), DoStepEnd(r, [])]);
            var u := Exec(w, [DoSubmit(PickRequest(l), 1)] + Fetch(r));
            var v := Exec(Next(u, DoRetry(0, true)), Fetch(r));
            HoldsBoxFrom(v.store.slots, a, l) && HoldsBoxFrom(v.store.slots, b, l) && !SingleBox(v.store)
  {
    hide Next, Exec, Initial, RobotOf, Print, Fetch, Closer, Rest, Keyed, Consistent;
    var r := RobotOf(l);
    var w := Exec(Initial([a, b], 1), [DoSubmit(PickRequest(l), 0), DoLoop(r), DoStepEnd(r, [])]);
    FirstFails(l, a, b);
    var w1 := Next(w, DoSubmit(PickRequest(l), 1));
    PickArrives(w, l, 1);
    KeyedNext(w, DoSubmit(PickRequest(l), 1));
    assert QueueOf(w1.queues, r) == RobotQueue(None, [1], false);
    assert NearestFree(w1.store, l, b);
    FetchScene(w1, r, 1, b);
    ExecFirst(w, DoSubmit(PickRequest(l), 1), Fetch(r));
    var u := Exec(w1, Fetch(r));
    RetryScene(u, 0);
    RetriedFetch(Next(u, DoRetry(0, true)), r, 0, a);
  }

  /** A retried PICK at the head of the line fetches its box into the slot it still names. */
  lemma RetriedFetch(w: World, r: RobotId, id: OrderId, c: Location)
    requires r !in w.inStep && w.maxRetries >= 1 && QueueOf(w.queues, r) == RobotQueue(None, [id], false)
    requires id in w.store.orders && Physical(w.store.orders[id], id) && w.store.orders[id].kind == Pick
    requires w.store.orders[id].status == Pending && w.store.orders[id].stepIndex == 0
    requires w.store.orders[id].slot == Some(c) && c in w.store.slots
    ensures var v := Exec(w, Fetch(r));
            v.store.slots
                == w.store.slots[c := Slot(Occupied, Some(id), Some(Box(w.store.orders[id].location, id)), Some(1))]
  {
    hide Next, Exec, Rest;
    Runs(w, r, id);
    ReachesEnd(Next(w, DoLoop(r)), r, id, 0);
    ExecFirst(w, DoLoop(r), Rest(r, 0));
  }
}
