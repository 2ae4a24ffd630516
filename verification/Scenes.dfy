/** Single actions in the situations that short concrete runs go through, each with its whole effect on orders,
    slots, served boxes, waiting loops and the queue of one robot. */
module Scenes {
  import opened Sequences
  import opened Location
  import opened Domain
  import opened Queues
  import opened Orchestrator
  import opened NoLostOrders
  import opened RobotLoop
  import opened Submission
  import opened PlanRecord
  import opened SlotRanking
  import opened SlotStatuses

  datatype Scene = Scene(
    orders: map<OrderId, Order>, slots: map<Location, Slot>, serving: map<OrderId, OrderId>,
    inStep: map<RobotId, Order>, nextId: OrderId, maxRetries: nat)

  function SceneOf(w: World): Scene {
    Scene(w.store.orders, w.store.slots, w.store.serving, w.inStep, w.nextId, w.maxRetries)
  }

  /** Robot r's line after the action; the other lines are as they were. */
  ghost predicate OnlyLine(w: World, v: World, r: RobotId, q: RobotQueue) {
    QueueOf(v.queues, r) == q && forall x :: x != r ==> QueueOf(v.queues, x) == QueueOf(w.queues, x)
  }

  // ---------- requests ----------

  function PutRequest(c: Location): SubmitInput { SubmitInput("PUT", Absent, Print(c), "", "", "") }

  function PickRequest(l: Location): SubmitInput { SubmitInput("PICK", Absent, Print(l), "", "", "") }

  lemma KindTexts()
    ensures ParseKind("PICK") == Some(Pick) && ParseKind("PUT") == Some(Put)
  {
    forall i | 0 <= i < 4 ensures Upper("PICK")[i] == "PICK"[i] { }
    forall i | 0 <= i < 3 ensures Upper("PUT")[i] == "PUT"[i] { }
    assert Upper("PICK") == "PICK" && Upper("PUT") == "PUT";
    hide Upper;
  }

  lemma RequestsReach(st: Store, l: Location, id: OrderId, now: nat)
    ensures SubmitStore(st, PutRequest(l), id, now) == AdmitPut(st, id, now, Absent, RobotOf(l), l, None)
    ensures SubmitStore(st, PickRequest(l), id, now) == AdmitPick(st, id, now, Absent, RobotOf(l), l, None, None)
  {
    hide AdmitPick, AdmitPut, Parse, HasActionSuffix, ParseKind, RobotOf, Print;
    KindTexts();
    ParseInvertsPrint(l, None, false);
    assert Print(l) + ActionText(None, false) == Print(l);
  }

  function PutOrder(id: OrderId, now: nat, c: Location): Order {
    NewOrder(id, now, Put, Absent, RobotOf(c), c, None, Some(c), false)
  }

  function PickOrder(id: OrderId, now: nat, l: Location): Order {
    NewOrder(id, now, Pick, Absent, RobotOf(l), l, None, None, false)
  }

  lemma Created(w: World, input: SubmitInput, now: nat, st: Store, o: Order)
    requires SubmitStore(w.store, input, w.nextId, now) == SubmitResult.Created(st, o) && o.id == w.nextId
    ensures var v := Next(w, DoSubmit(input, now));
            && SceneOf(v) == SceneOf(w).(orders := st.orders, slots := st.slots, serving := st.serving,
                 nextId := w.nextId + 1)
            && OnlyLine(w, v, o.robot, QueueOf(w.queues, o.robot).(items := QueueOf(w.queues, o.robot).items + [o.id]))
            && v.acked == w.acked
  {
    hide SubmitStore, Snapshot;
  }

  /** A PUT on a LIBRE or OCUPADO slot with a counter of one reserves it. */
  lemma PutArrives(w: World, c: Location, now: nat)
    requires c in w.store.slots && !Busy(w.store.slots[c]) && Depth(w.store.slots[c]) == 1
    ensures var v, id, s, r := Next(w, DoSubmit(PutRequest(c), now)), w.nextId, w.store.slots[c], RobotOf(c);
            && SceneOf(v) == SceneOf(w).(
                 orders := w.store.orders[id := PutOrder(id, now, c)],
                 slots := w.store.slots[c := s.(status := Reserved, owner := Some(id))],
                 serving := if s.box.Some? then w.store.serving[id := s.box.value.pickOrder] else w.store.serving,
                 nextId := id + 1)
            && OnlyLine(w, v, r, QueueOf(w.queues, r).(items := QueueOf(w.queues, r).items + [id]))
            && v.acked == w.acked
  {
    hide Next, RobotOf, Print, SubmitStore;
    RequestsReach(w.store, c, w.nextId, now);
    var res := AdmitPut(w.store, w.nextId, now, Absent, RobotOf(c), c, None);
    Created(w, PutRequest(c), now, res.store, res.order);
  }

  /** A PICK from a place whose box stands nowhere waits for its turn without a slot. */
  lemma PickArrives(w: World, l: Location, now: nat)
    requires Keyed(w.store) && forall c :: c in w.store.slots ==> !HoldsBoxFrom(w.store.slots, c, l)
    ensures var v, id, r := Next(w, DoSubmit(PickRequest(l), now)), w.nextId, RobotOf(l);
            && SceneOf(v) == SceneOf(w).(orders := w.store.orders[id := PickOrder(id, now, l)], nextId := id + 1)
            && OnlyLine(w, v, r, QueueOf(w.queues, r).(items := QueueOf(w.queues, r).items + [id]))
            && v.acked == w.acked
  {
    hide Next, RobotOf, Print, SubmitStore, FindOccupiedBySource, Keyed;
    RequestsReach(w.store, l, w.nextId, now);
    FindOccupiedMeaning(w.store, l);
    var res := AdmitPick(w.store, w.nextId, now, Absent, RobotOf(l), l, None, None);
    Created(w, PickRequest(l), now, res.store, res.order);
  }

  /** A PICK whose box stands in slot c, and only there, joins it. */
  lemma PickJoins(w: World, l: Location, c: Location, now: nat)
    requires Keyed(w.store) && HoldsBoxFrom(w.store.slots, c, l)
    requires forall d :: d in w.store.slots && d != c ==> !HoldsBoxFrom(w.store.slots, d, l)
    ensures var v, id, s := Next(w, DoSubmit(PickRequest(l), now)), w.nextId, w.store.slots[c];
            SceneOf(v) == SceneOf(w).(
              orders := w.store.orders[id := NewOrder(id, now, Pick, Absent, RobotOf(l), l, None, Some(c), true)],
              slots := w.store.slots[c := s.(depth := Some(Depth(s) + 1))],
              serving := w.store.serving[id := s.box.value.pickOrder],
              nextId := id + 1)
  {
    hide Next, RobotOf, Print, SubmitStore, FindOccupiedBySource, Keyed;
    RequestsReach(w.store, l, w.nextId, now);
    FindOccupiedMeaning(w.store, l);
    var res := AdmitPick(w.store, w.nextId, now, Absent, RobotOf(l), l, None, None);
    Created(w, PickRequest(l), now, res.store, res.order);
  }

  // ---------- a physical order on its way ----------

  predicate Physical(o: Order, id: OrderId) {
    o.id == id && !Logical(o) && o.steps == BuildSteps(o.kind) && Commandable(o) && o.slot.Some?
  }

  function Underway(o: Order): Order { o.(status := InProgress, waiting := false) }

  /** The slot of an order on its way. */
  function MovingSlot(s: Slot, o: Order): Slot {
    s.(status := if o.kind == Pick then Fetching else Returning, owner := Some(o.id))
  }

  /** The pass that begins or continues an order with its slot given. */
  lemma PassRuns(st: Store, id: OrderId)
    requires id in st.orders && Physical(st.orders[id], id) && st.orders[id].status in {Pending, InProgress}
    requires st.orders[id].slot.value in st.slots && st.orders[id].stepIndex < 5
    ensures var o, p := st.orders[id], ProcessStore(st, id);
            && p.effect == Suspended(Underway(o))
            && p.store == st.(orders := st.orders[id := Underway(o)],
                              slots := if o.stepIndex == 0
                              then st.slots[o.slot.value := MovingSlot(st.slots[o.slot.value], o)] else st.slots)
  {
    hide FinishStore;
  }

  lemma SuspendsWith(w: World, r: RobotId, id: OrderId, p: Processed, t: Order)
    requires r !in w.inStep && NextOrder(w, r) == Some(id) && ProcessStore(w.store, id) == p && p.effect == Suspended(t)
    ensures var v, q := Next(w, DoLoop(r)), QueueOf(w.queues, r);
            && SceneOf(v) == SceneOf(w).(orders := p.store.orders, slots := p.store.slots, serving := p.store.serving,
                 inStep := w.inStep[r := t])
            && OnlyLine(w, v, r, RobotQueue(Some(id), if q.active.Some? then q.items else q.items[1..], q.paused))
            && v.acked == w.acked
  {
    hide ProcessStore, Snapshot;
  }

  /** The loop takes the head, or goes on with the active order, and waits for its next step. */
  lemma Runs(w: World, r: RobotId, id: OrderId)
    requires r !in w.inStep && NextOrder(w, r) == Some(id)
    requires id in w.store.orders && Physical(w.store.orders[id], id)
    requires w.store.orders[id].status in {Pending, InProgress}
    requires w.store.orders[id].slot.value in w.store.slots && w.store.orders[id].stepIndex < 5
    ensures var v, q, o := Next(w, DoLoop(r)), QueueOf(w.queues, r), w.store.orders[id];
            && SceneOf(v) == SceneOf(w).(
                 orders := w.store.orders[id := Underway(o)],
                 slots := if o.stepIndex == 0
                 then w.store.slots[o.slot.value := MovingSlot(w.store.slots[o.slot.value], o)] else w.store.slots,
                 inStep := w.inStep[r := Underway(o)])
            && OnlyLine(w, v, r, RobotQueue(Some(id), if q.active.Some? then q.items else q.items[1..], q.paused))
            && v.acked == w.acked
  {
    hide Next, ProcessStore, NextOrder, Commandable;
    PassRuns(w.store, id);
    SuspendsWith(w, r, id, ProcessStore(w.store, id), Underway(w.store.orders[id]));
  }

  /** A physical PICK that has no slot yet. */
  predicate Slotless(o: Order, id: OrderId) {
    o.id == id && o.kind == Pick && !Logical(o) && o.slot.None? && o.status == Pending && o.stepIndex == 0
    && o.steps == BuildSteps(Pick)
  }

  /** Slot c is the free slot nearest to the source. */
  ghost predicate NearestFree(st: Store, source: Location, c: Location) {
    FreeOnSide(st, source, c) && forall d :: FreeOnSide(st, source, d) && d != c ==> Closer(source, c, d)
  }

  lemma AssignsNearest(st: Store, id: OrderId, c: Location)
    requires Keyed(st) && id in st.orders && Slotless(st.orders[id], id) && NearestFree(st, st.orders[id].location, c)
    ensures AssignStore(st, id)
        == Some(WithOrder(WithSlot(st, c, st.slots[c].(status := Reserved, owner := Some(id))), id,
                                                  st.orders[id].(slot := Some(c), waiting := false)))
  {
    hide RankSlots, ListAvailableSlots, Closer, Keyed;
    var source := st.orders[id].location;
    AssignedSlotIsNearest(st, id);
    var got := AssignStore(st, id).value.orders[id].slot.value;
    ComparatorIsLexicographic(source, c, got);
    ComparatorIsLexicographic(source, got, c);
    assert got == c;
  }

  lemma PassPlaces(st: Store, id: OrderId, c: Location)
    requires Keyed(st) && id in st.orders && Slotless(st.orders[id], id) && NearestFree(st, st.orders[id].location, c)
    requires st.orders[id].location.moduleNumber >= 1 && c.moduleNumber >= 1
    requires forall d :: d in st.slots ==> !HoldsBoxFrom(st.slots, d, st.orders[id].location)
    ensures var o, p := Underway(st.orders[id].(slot := Some(c))), ProcessStore(st, id);
            && p.effect == Suspended(o)
            && p.store == st.(orders := st.orders[id := o], slots := st.slots[c := MovingSlot(st.slots[c], o)])
  {
    hide ProcessStore, AssignStore, Keyed, NearestFree, FindOccupiedBySource, FinishStore;
    FindOccupiedMeaning(st, st.orders[id].location);
    AssignsNearest(st, id, c);
    ProcessCases(st, id);
    assert c in st.slots by { NearestKnown(st, st.orders[id].location, c); }
  }

  lemma NearestKnown(st: Store, source: Location, c: Location)
    requires NearestFree(st, source, c)
    ensures c in st.slots && st.slots[c].status == Free
  {
  }

  /** The loop takes a PICK without slot, places it in the nearest free one and waits for its first step. */
  lemma Begins(w: World, r: RobotId, id: OrderId, c: Location)
    requires Keyed(w.store) && r !in w.inStep && NextOrder(w, r) == Some(id) && id in w.store.orders
    requires Slotless(w.store.orders[id], id)
    requires NearestFree(w.store, w.store.orders[id].location, c) && c.moduleNumber >= 1
    requires w.store.orders[id].location.moduleNumber >= 1
    requires forall d :: d in w.store.slots ==> !HoldsBoxFrom(w.store.slots, d, w.store.orders[id].location)
    ensures var v, q, o := Next(w, DoLoop(r)), QueueOf(w.queues, r), Underway(w.store.orders[id].(slot := Some(c)));
            && SceneOf(v) == SceneOf(w).(orders := w.store.orders[id := o],
                                         slots := w.store.slots[c := Slot(Fetching, Some(id), w.store.slots[c].box,
                                         w.store.slots[c].depth)],
                                         inStep := w.inStep[r := o])
            && OnlyLine(w, v, r, RobotQueue(Some(id), if q.active.Some? then q.items else q.items[1..], q.paused))
            && InStep(v, r, id, 0)
  {
    hide Next, ProcessStore, NextOrder, NearestFree, Keyed;
    NearestKnown(w.store, w.store.orders[id].location, c);
    PassPlaces(w.store, id, c);
    SuspendsWith(w, r, id, ProcessStore(w.store, id), Underway(w.store.orders[id].(slot := Some(c))));
  }

  /** The first try of the step is acknowledged. */
  const Ok: seq<StepReply> := [Acked]

  lemma StepGoesWell(w: World, r: RobotId)
    requires r in w.inStep && w.inStep[r].id in w.store.orders && w.maxRetries >= 1
    ensures var v, t, o := Next(w, DoStepEnd(r, Ok)), w.inStep[r], w.store.orders[w.inStep[r].id];
            && SceneOf(v) == SceneOf(w).(
                 orders := w.store.orders[t.id := o.(stepIndex := t.stepIndex + 1, steps := t.steps)],
                 inStep := w.inStep - {r})
            && v.queues == w.queues && v.acked == w.acked[t.id := RecordOf(w.acked, t.id) + [Ack(TicketCode(t), 1)]]
  {
    hide TicketCode, Snapshot;
    assert ReplyAt(Ok, 0) == Acked;
  }

  /** No try of the step is answered. */
  lemma StepFails(w: World, r: RobotId)
    requires r in w.inStep && w.inStep[r].id in w.store.orders && w.inStep[r].slot.Some?
    requires w.inStep[r].slot.value in w.store.slots
    ensures var v, t, c := Next(w, DoStepEnd(r, [])), w.inStep[r], w.inStep[r].slot.value;
            && SceneOf(v) == SceneOf(w).(
                 orders := w.store.orders[t.id := w.store.orders[t.id].(status := Error)],
                 slots := w.store.slots[c := w.store.slots[c].(status := Blocked, owner := Some(t.id))],
                 inStep := w.inStep - {r})
            && OnlyLine(w, v, r, QueueOf(w.queues, r).(active := None)) && v.acked == w.acked
  {
    hide TicketCode, Snapshot, AttemptFrom;
    NeverAcked(w.maxRetries, 1);
  }

  lemma {:induction false} NeverAcked(maxRetries: nat, attempt: nat)
    requires attempt >= 1
    ensures !AttemptFrom(maxRetries, [], attempt).ok
    decreases maxRetries + 1 - attempt
  {
    if attempt < maxRetries { NeverAcked(maxRetries, attempt + 1); }
  }

  /** What a finished order leaves in its slot. */
  function LeftSlot(o: Order): Slot {
    if o.kind == Pick then Slot(Occupied, Some(o.id), Some(Box(o.location, o.id)), Some(1)) else FreshSlot
  }

  lemma PassFinishes(st: Store, id: OrderId)
    requires id in st.orders && Physical(st.orders[id], id) && st.orders[id].status == InProgress
    requires !st.orders[id].waiting
    requires st.orders[id].slot.value in st.slots && st.orders[id].stepIndex == 5
    ensures var o, p := st.orders[id], ProcessStore(st, id);
            && p.effect == Finished
            && p.store == st.(orders := st.orders[id := o.(status := Done)],
                 slots := st.slots[o.slot.value := LeftSlot(o)],
                              serving := if o.kind == Pick then st.serving[id := id] else st.serving)
  {
    hide Commandable;
    assert st.orders[id].(status := InProgress) == st.orders[id];
  }

  lemma FinishesWith(w: World, r: RobotId, id: OrderId, p: Processed)
    requires r !in w.inStep && NextOrder(w, r) == Some(id) && ProcessStore(w.store, id) == p && p.effect == Finished
    ensures var v, q := Next(w, DoLoop(r)), QueueOf(w.queues, r);
            && SceneOf(v) == SceneOf(w).(orders := p.store.orders, slots := p.store.slots, serving := p.store.serving)
            && OnlyLine(w, v, r, RobotQueue(None, if q.active.Some? then q.items else q.items[1..], q.paused))
            && v.acked == w.acked
  {
    hide ProcessStore, Snapshot;
  }

  /** After its fifth step the loop finishes the active order. */
  lemma Finishes(w: World, r: RobotId, id: OrderId)
    requires r !in w.inStep && QueueOf(w.queues, r).active == Some(id)
    requires id in w.store.orders && Physical(w.store.orders[id], id) && w.store.orders[id].status == InProgress
    requires !w.store.orders[id].waiting && w.store.orders[id].slot.value in w.store.slots
    requires w.store.orders[id].stepIndex == 5
    ensures var v, q, o := Next(w, DoLoop(r)), QueueOf(w.queues, r), w.store.orders[id];
            && SceneOf(v) == SceneOf(w).(
                 orders := w.store.orders[id := o.(status := Done)],
                 slots := w.store.slots[o.slot.value := LeftSlot(o)],
                 serving := if o.kind == Pick then w.store.serving[id := id] else w.store.serving)
            && OnlyLine(w, v, r, RobotQueue(None, q.items, q.paused)) && v.acked == w.acked
  {
    hide Next, ProcessStore, Commandable;
    PassFinishes(w.store, id);
    FinishesWith(w, r, id, ProcessStore(w.store, id));
  }

  // ---------- from a waiting step to the end ----------

  /** From inside step k (counted from 0) to the end: each step goes well. */
  function Rest(r: RobotId, k: nat): seq<Action>
    requires k < 5
    decreases 5 - k
  {
    [DoStepEnd(r, Ok), DoLoop(r)] + if k == 4 then [] else Rest(r, k + 1)
  }

  /** Robot r waits in step k of its active order. */
  predicate InStep(w: World, r: RobotId, id: OrderId, k: nat) {
    && r in w.inStep && QueueOf(w.queues, r).active == Some(id)
    && id in w.store.orders && Physical(w.store.orders[id], id) && w.store.orders[id].slot.value in w.store.slots
    && w.store.orders[id].status == InProgress && !w.store.orders[id].waiting && w.store.orders[id].stepIndex == k
    && w.inStep[r] == w.store.orders[id]
  }

  /** The scene once the order of robot r has gone to its end. */
  function EndScene(s: Scene, r: RobotId, id: OrderId): Scene
    requires id in s.orders && s.orders[id].slot.Some?
  {
    var o := s.orders[id];
    s.(orders := s.orders[id := o.(status := Done, stepIndex := 5)], slots := s.slots[o.slot.value := LeftSlot(o)],
       serving := if o.kind == Pick then s.serving[id := id] else s.serving, inStep := s.inStep - {r})
  }

  lemma AfterOk(w: World, r: RobotId, id: OrderId, k: nat)
    requires k < 5 && InStep(w, r, id, k) && w.maxRetries >= 1
    ensures var v, o := Next(w, DoStepEnd(r, Ok)), w.store.orders[id];
            && SceneOf(v) == SceneOf(w).(orders := w.store.orders[id := o.(stepIndex := k + 1)],
                 inStep := w.inStep - {r})
            && v.queues == w.queues && Physical(o.(stepIndex := k + 1), id)
  {
    hide Next;
    StepGoesWell(w, r);
  }

  lemma StepOn(w: World, r: RobotId, id: OrderId, k: nat)
    requires k < 4 && InStep(w, r, id, k) && w.maxRetries >= 1
    ensures var v, o := Next(Next(w, DoStepEnd(r, Ok)), DoLoop(r)), w.store.orders[id].(stepIndex := k + 1);
            && InStep(v, r, id, k + 1) && OnlyLine(w, v, r, QueueOf(w.queues, r))
            && SceneOf(v) == SceneOf(w).(orders := w.store.orders[id := o], inStep := w.inStep[r := o])
  {
    hide Next, Commandable, Logical, BuildSteps;
    AfterOk(w, r, id, k);
    Runs(Next(w, DoStepEnd(r, Ok)), r, id);
    assert Underway(w.store.orders[id].(stepIndex := k + 1)) == w.store.orders[id].(stepIndex := k + 1);
  }

  lemma LastStep(w: World, r: RobotId, id: OrderId)
    requires InStep(w, r, id, 4) && w.maxRetries >= 1
    ensures var v := Next(Next(w, DoStepEnd(r, Ok)), DoLoop(r));
            SceneOf(v) == EndScene(SceneOf(w), r, id) && OnlyLine(w, v, r, QueueOf(w.queues, r).(active := None))
  {
    hide Next, Commandable, Logical, BuildSteps;
    AfterOk(w, r, id, 4);
    Finishes(Next(w, DoStepEnd(r, Ok)), r, id);
  }

  /** From inside step k every order gets to its end, if its steps go well. */
  lemma {:induction false} ReachesEnd(w: World, r: RobotId, id: OrderId, k: nat)
    requires k < 5 && InStep(w, r, id, k) && w.maxRetries >= 1
    ensures var v := Exec(w, Rest(r, k));
            SceneOf(v) == EndScene(SceneOf(w), r, id) && OnlyLine(w, v, r, QueueOf(w.queues, r).(active := None))
    decreases 5 - k
  {
    hide Next, Physical, Exec, Rest;
    RestIs(w, r, k);
    if k == 4 {
      LastStep(w, r, id);
    } else {
      StepOn(w, r, id, k);
      ReachesEnd(Next(Next(w, DoStepEnd(r, Ok)), DoLoop(r)), r, id, k + 1);
    }
  }

  lemma RestIs(w: World, r: RobotId, k: nat)
    requires k < 5
    ensures var v := Next(Next(w, DoStepEnd(r, Ok)), DoLoop(r));
            Exec(w, Rest(r, k)) == if k == 4 then v else Exec(v, Rest(r, k + 1))
  {
    hide Next;
    ExecTwo(w, DoStepEnd(r, Ok), DoLoop(r));
    if k < 4 {
      ExecAfter(w, [DoStepEnd(r, Ok), DoLoop(r)], Rest(r, k + 1));
    } else {
      assert Rest(r, 4) == [DoStepEnd(r, Ok), DoLoop(r)];
    }
  }
}
