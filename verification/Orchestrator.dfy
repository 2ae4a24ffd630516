/** The order/slot/queue state machine of src/core/orchestrator/OrchestratorService.js.

    Code between two yield points (the PLC call with its backoff, and the register reset in retry)
    runs as one action. `inStep` holds, for each robot whose loop waits inside a step, the order
    record that loop captured before waiting. */
module Orchestrator {
  import opened Sequences
  import opened Location
  import opened Domain
  import opened Queues
  import opened SlotRanking

  // ---------- steps and their commands ----------

  const HomingCode: nat := 41000

  /** Where the last two steps go: the slot for PICK, the target for PUT, the source if absent. */
  function DropLocation(o: Order): Location {
    match o.kind
    case Pick => if o.slot.Some? then o.slot.value else o.location
    case Put => if o.target.Some? then o.target.value else o.location
  }

  /** `resolveStepCommand`: both car commands are computed whatever the step, so module 00 in
      either location throws (None). */
  function StepCommand(step: Step, o: Order): Option<nat> {
    var bring := CarCommand(o.location, Take);
    var leave := CarCommand(DropLocation(o), Drop);
    if bring.None? || leave.None? then None
    else match step.kind
         case Homing => Some(HomingCode)
         case LiftMoves => Some(LiftCommand(if step.id == 4 then DropLocation(o) else o.location))
         case CarTakes => bring
         case CarLeaves => leave
         case CarReturns => leave
  }

  /** Neither location is in a module 00. */
  predicate Commandable(o: Order) {
    o.location.moduleNumber >= 1 && DropLocation(o).moduleNumber >= 1
  }

  lemma CommandableMeaning(step: Step, o: Order)
    ensures StepCommand(step, o).Some? <==> Commandable(o)
  {
    CarCommandValue(o.location, Take);
    CarCommandValue(DropLocation(o), Drop);
  }

  // ---------- one step with retries ----------

  /** What one `executeStepCommand` call reports: acknowledged, decoded PLC error, unexpected state, or a throw. */
  datatype StepReply = Acked | PlcError(code: nat) | Mismatch | Threw(fatal: bool)

  datatype StepResult = StepResult(ok: bool, sends: nat)

  /** `isRetryable` after `executeStepWithRetry` has set `fatal` (PLC error 99 is fatal). */
  predicate Retryable(reply: StepReply) {
    match reply
    case Acked => true
    case PlcError(code) => code != 99
    case Mismatch => true
    case Threw(fatal) => !fatal
  }

  /** Calls past the end of the given replies time out. */
  function ReplyAt(replies: seq<StepReply>, k: nat): StepReply {
    if k < |replies| then replies[k] else Threw(false)
  }

  function AttemptFrom(maxRetries: nat, replies: seq<StepReply>, attempt: nat): StepResult
    requires attempt >= 1
    decreases maxRetries + 1 - attempt
  {
    if attempt > maxRetries then StepResult(false, attempt - 1)
    else
      var reply := ReplyAt(replies, attempt - 1);
      if reply == Acked then StepResult(true, attempt)
      else if !Retryable(reply) || attempt == maxRetries then StepResult(false, attempt)
      else AttemptFrom(maxRetries, replies, attempt + 1)
  }

  /** `executeStepWithRetry` */
  function RunStep(maxRetries: nat, replies: seq<StepReply>): StepResult {
    AttemptFrom(maxRetries, replies, 1)
  }

  // ---------- submission ----------

  datatype ExternalId = Absent | NotInteger | Given(value: int)

  /** The request body; an empty string is an absent field. */
  datatype SubmitInput = SubmitInput(
    kind: string, id: ExternalId, locationCode: string, targetLocation: string, slotLocationCode: string,
    robotId: string)

  datatype SubmitError = BadKind | BadId | ActionSuffix | BadLocation | BadTarget | BadSlotCode | NotAPickingSlot

  datatype SubmitResult = Refused(error: SubmitError) | Existing(id: OrderId) | Created(store: Store, order: Order)

  function ParseKind(text: string): Option<OrderKind> {
    var t := Upper(if text == "" then "PICK" else text);
    if t == "PICK" then Some(Pick) else if t == "PUT" then Some(Put) else None
  }

  /** The order as first written, before any slot is reserved for it. */
  function NewOrder(id: OrderId, now: nat, kind: OrderKind, ext: ExternalId, robot: RobotId, location: Location,
                    target: Option<Location>, slot: Option<Location>, logical: bool): Order
  {
    Order(id, if ext.Given? then Some(ext.value) else None, kind, robot, location, target, slot, false, Pending, 0,
          if logical then [] else BuildSteps(kind), logical && kind == Pick, logical && kind == Put, now)
  }

  /** A PICK whose box already stands in a slot joins that box's stack; otherwise it is physical. */
  function AdmitPick(st: Store, id: OrderId, now: nat, ext: ExternalId, robot: RobotId, location: Location,
                     target: Option<Location>, slotOverride: Option<Location>): SubmitResult
  {
    match FindOccupiedBySource(st, location)
    case Some(c) =>
      var o := NewOrder(id, now, Pick, ext, robot, location, target, Some(c), true);
      var raised := IncrementStack(st, c);
      Created(AddOrder(Served(if raised.Some? then raised.value else st, id, c), o), o)
    case None =>
      var o := NewOrder(id, now, Pick, ext, robot, location, target, slotOverride, false);
      Created(AddOrder(st, o), o)
  }

  /** A PUT lowers the stack while it is above one; the last one reserves the slot, or waits for it. */
  function AdmitPut(st: Store, id: OrderId, now: nat, ext: ExternalId, robot: RobotId, location: Location,
                    target: Option<Location>): SubmitResult
  {
    if location !in st.slots then Refused(NotAPickingSlot)
    else if StackDepth(st, location) > 1 then
      var o := NewOrder(id, now, Put, ext, robot, location, target, Some(location), true);
      var lowered := DecrementStack(st, location);
      Created(AddOrder(Served(if lowered.Some? then lowered.value else st, id, location), o), o)
    else
      var o := NewOrder(id, now, Put, ext, robot, location, target, Some(location), false);
      match ReserveForPut(st, location, id)
      case Some(reserved) => Created(AddOrder(Served(reserved, id, location), o), o)
      case None => Created(AddOrder(st, o.(waiting := true)), o.(waiting := true))
  }

  /** The part of `submitOrder` that works on the order and slot tables. */
  function SubmitStore(st: Store, input: SubmitInput, id: OrderId, now: nat): SubmitResult {
    var kind := ParseKind(input.kind);
    var known := if input.id.Given? then FindByExternalId(st, input.id.value) else None;
    var location := Parse(input.locationCode);
    var target := if input.targetLocation == "" then None else Parse(input.targetLocation);
    var slot := if input.slotLocationCode == "" then None else Parse(input.slotLocationCode);
    if kind.None? then Refused(BadKind)
    else if input.id.NotInteger? then Refused(BadId)
    else if known.Some? then Existing(known.value)
    else if HasActionSuffix(input.locationCode) then Refused(ActionSuffix)
    else if location.None? then Refused(BadLocation)
    else if input.targetLocation != "" && target.None? then Refused(BadTarget)
    else if input.slotLocationCode != "" && slot.None? then Refused(BadSlotCode)
    else
      var l := location.value.location;
      var robot := if input.robotId != "" then input.robotId else RobotOf(l);
      var t := if target.Some? then Some(target.value.location) else None;
      var s := if slot.Some? then Some(slot.value.location) else None;
      if kind == Some(Pick) then AdmitPick(st, id, now, input.id, robot, l, t, s)
      else AdmitPut(st, id, now, input.id, robot, l, t)
  }

  function SlotOverride(input: SubmitInput): Option<Location> {
    if input.slotLocationCode == "" || Parse(input.slotLocationCode).None? then None
    else Some(Parse(input.slotLocationCode).value.location)
  }

  /** A submission that creates an order is an admission at its parsed location. */
  lemma SubmitCases(st: Store, input: SubmitInput, id: OrderId, now: nat)
    ensures var res := SubmitStore(st, input, id, now);
            res.Created? ==>
              && Parse(input.locationCode).Some?
              && (input.id.Given? ==> FindByExternalId(st, input.id.value).None?)
              && (var l, o := Parse(input.locationCode).value.location, res.order;
                  && o.location == l
                  && (o.kind == Pick ==>
                       res == AdmitPick(st, id, now, input.id, o.robot, l, o.target, SlotOverride(input)))
                  && (o.kind == Put ==> res == AdmitPut(st, id, now, input.id, o.robot, l, o.target)))
  {
    hide Parse, HasActionSuffix, FindByExternalId, FindOccupiedBySource, ParseKind;
  }

  // ---------- processing one order ----------

  /** The check at the head of `processOrder`: a PICK without slot whose box already stands in a slot becomes
      logical. */
  function ConvertStore(st: Store, id: OrderId): Store
    requires id in st.orders
  {
    var o := st.orders[id];
    if o.kind == Pick && !o.logicalPick && o.slot.None? then
      match FindOccupiedBySource(st, o.location) {
        case Some(c) =>
          var raised := IncrementStack(st, c);
          WithOrder(Served(if raised.Some? then raised.value else st, id, c), id,
                    o.(slot := Some(c), steps := [], logicalPick := true))
        case None => st
      }
    else st
  }

  /** `assignSlotForPickOrder` and the order update after it; None when no slot can be reserved. */
  function AssignStore(st: Store, id: OrderId): Option<Store>
    requires id in st.orders
  {
    var o := st.orders[id];
    var ranked := RankSlots(o.location, ListAvailableSlots(st));
    if ranked == [] then None
    else match Reserve(st, ranked[0], id)
         case Some(reserved) => Some(WithOrder(reserved, id, o.(slot := Some(ranked[0]), waiting := false)))
         case None => None
  }

  /** The order starts running; on its first step the slot is marked BUSCANDO or DEVOLVIENDO. */
  function BeginStore(st: Store, id: OrderId): Store
    requires id in st.orders
  {
    var o := st.orders[id];
    var o' := o.(waiting := if o.slot.Some? then false else o.waiting, status := InProgress);
    var s := WithOrder(st, id, o');
    if o.slot.Some? && o.stepIndex == 0
    then UpdateStatus(s, o.slot.value, if o.kind == Pick then Fetching else Returning, Some(id))
    else s
  }

  /** No step left: the PICK leaves its box in the slot, the PUT frees it. */
  function FinishStore(st: Store, id: OrderId): Store
    requires id in st.orders
  {
    var o := st.orders[id];
    var s := if o.slot.None? then st
             else if o.kind == Pick then Served(MarkOccupied(st, o.slot.value, id, o.location), id, o.slot.value)
             else Release(st, o.slot.value);
    WithOrder(s, id, o.(status := Done))
  }

  /** How a pass of `processOrder` ends. Crashed is the throw of a location without car command. */
  datatype Effect = Gone | AlreadyTerminal | LogicalDone | Deferred | Finished | Crashed | Suspended(ticket: Order)

  datatype Processed = Processed(store: Store, effect: Effect)

  function RunStore(st: Store, id: OrderId): Processed
    requires id in st.orders
  {
    var s := BeginStore(st, id);
    var o := s.orders[id];
    if o.stepIndex >= |o.steps| then Processed(FinishStore(s, id), Finished)
    else if !Commandable(o) then Processed(s, Crashed)
    else Processed(s, Suspended(o))
  }

  /** `processOrder` up to the PLC call. */
  function ProcessStore(st: Store, id: OrderId): Processed {
    if id !in st.orders then Processed(st, Gone)
    else
      var s := ConvertStore(st, id);
      var o := s.orders[id];
      if Terminal(o) then Processed(s, AlreadyTerminal)
      else if Logical(o) then Processed(WithOrder(s, id, o.(status := Done)), LogicalDone)
      else if o.kind == Pick && o.slot.None? then
        match AssignStore(s, id) {
          case Some(placed) => RunStore(placed, id)
          case None => Processed(WithOrder(s, id, o.(status := Pending, waiting := true)), Deferred)
        }
      else RunStore(s, id)
  }

  lemma AssignKeepsOrder(st: Store, id: OrderId)
    requires id in st.orders
    ensures id in ConvertStore(st, id).orders
    ensures AssignStore(st, id).Some? ==> id in AssignStore(st, id).value.orders
  {
    hide FindOccupiedBySource, RankSlots, ListAvailableSlots;
  }

  /** The branches of `processOrder` over the order as the first check left it. */
  lemma ProcessCases(st: Store, id: OrderId)
    requires id in st.orders
    ensures id in ConvertStore(st, id).orders
    ensures var s, p := ConvertStore(st, id), ProcessStore(st, id);
            var o := s.orders[id];
            if Terminal(o) then p == Processed(s, AlreadyTerminal)
            else if Logical(o) then p == Processed(WithOrder(s, id, o.(status := Done)), LogicalDone)
            else if o.kind == Pick && o.slot.None? then
              && (AssignStore(s, id).Some? ==>
                   id in AssignStore(s, id).value.orders && p == RunStore(AssignStore(s, id).value, id))
              && (AssignStore(s, id).None? ==>
                   p == Processed(WithOrder(s, id, o.(status := Pending, waiting := true)), Deferred))
            else p == RunStore(s, id)
  {
    AssignKeepsOrder(st, id);
    AssignKeepsOrder(ConvertStore(st, id), id);
    hide ConvertStore, AssignStore, RunStore, Terminal, Logical;
  }

  // ---------- what follows a step, and the other requests ----------

  /** A confirmed step: the index and steps come from the captured record, the rest from the current one. */
  function StepDoneStore(st: Store, ticket: Order): Store {
    if ticket.id in st.orders
    then WithOrder(st, ticket.id, st.orders[ticket.id].(stepIndex := ticket.stepIndex + 1, steps := ticket.steps))
    else st
  }

  /** A failed step: the captured slot is blocked and the order goes to ERROR whatever happened meanwhile. */
  function StepFailedStore(st: Store, ticket: Order): Store {
    var s := if ticket.slot.Some? then Block(st, ticket.slot.value, ticket.id) else st;
    if ticket.id in s.orders then WithOrder(s, ticket.id, s.orders[ticket.id].(status := Error)) else s
  }

  /** `cancelOrder` on the tables: no status is checked. */
  function CancelStore(st: Store, id: OrderId): Store
    requires id in st.orders
  {
    var o := st.orders[id];
    var s := if o.slot.Some? && o.slot.value in st.slots && st.slots[o.slot.value].owner == Some(id)
             then if o.kind == Pick then Release(st, o.slot.value) else UpdateStatus(st, o.slot.value, Occupied, None)
             else st;
    WithOrder(s, id, o.(status := Canceled))
  }

  /** `retryOrder` on the tables: no status is checked and the slot is kept. */
  function RetryStore(st: Store, id: OrderId): Store
    requires id in st.orders
  {
    var o := st.orders[id];
    WithOrder(st, id, o.(status := Pending, stepIndex := 0, steps := BuildSteps(o.kind), waiting := false))
  }

  // ---------- snapshots ----------

  function CreatedAt(orders: map<OrderId, Order>, id: OrderId): nat {
    if id in orders then orders[id].createdAt else 0
  }

  function NewestFirst(orders: map<OrderId, Order>): (OrderId, OrderId) -> bool {
    (a: OrderId, b: OrderId) => CreatedAt(orders, a) >= CreatedAt(orders, b)
  }

  function OldestFirst(orders: map<OrderId, Order>): (OrderId, OrderId) -> bool {
    (a: OrderId, b: OrderId) => CreatedAt(orders, a) <= CreatedAt(orders, b)
  }

  /** `getSnapshot`: orders newest first, slots by code. */
  function Snapshot(st: Store): Store {
    st.(orderKeys := Sort(st.orderKeys, NewestFirst(st.orders)), slotKeys := ListSlots(st))
  }

  /** `configurePickSlots`: codes that are new get a fresh slot, the others are skipped. */
  function WithSlots(st: Store, codes: seq<Location>): Store
    decreases |codes|
  {
    if codes == [] then st
    else
      var before := WithSlots(st, codes[..|codes| - 1]);
      var c := codes[|codes| - 1];
      if c in before.slots then before
          else before.(slots := before.slots[c := FreshSlot], slotKeys := before.slotKeys + [c])
  }

  const NoTables := Store(map[], [], map[], [], map[])

  /** The tables after `reset`. */
  function Configured(codes: seq<Location>): Store { WithSlots(NoTables, codes) }

  /** Snapshot slots written over the configured ones, in order. */
  function OverlaySlots(base: Store, saved: Store, codes: seq<Location>): Store
    decreases |codes|
  {
    if codes == [] then base
    else
      var c := codes[0];
      var next := if c !in saved.slots then base
                  else base.(slots := base.slots[c := saved.slots[c]],
                             slotKeys := if c in base.slots then base.slotKeys else base.slotKeys + [c]);
      OverlaySlots(next, saved, codes[1..])
  }

  /** `hydrateFromSnapshot` */
  function Hydrated(config: seq<Location>, saved: Store): Store {
    OverlaySlots(Configured(config), saved, saved.slotKeys)
      .(orders := saved.orders, orderKeys := saved.orderKeys, serving := saved.serving)
  }

  /** The order in which `rehydrateFromSnapshot` visits the orders. */
  function VisitOrder(st: Store): seq<OrderId> {
    Sort(Sort(st.orderKeys, NewestFirst(st.orders)), OldestFirst(st.orders))
  }

  function Reopened(o: Order): Order {
    if o.status == InProgress then o.(status := Pending) else o
  }

  /** Visiting the orders: running ones become PENDING and pending ones are queued. */
  function Requeue(st: Store, qs: QueueTable, ids: seq<OrderId>): (Store, QueueTable)
    decreases |ids|
  {
    if ids == [] then (st, qs)
    else if ids[0] !in st.orders then Requeue(st, qs, ids[1..])
    else
      var o := Reopened(st.orders[ids[0]]);
      Requeue(WithOrder(st, ids[0], o),
              if o.status == Pending then Enqueue(qs, o.robot, ids[0]) else qs,
              ids[1..])
  }

  function Rehydrated(config: seq<Location>, saved: Store): (Store, QueueTable) {
    var st := Hydrated(config, saved);
    Requeue(st, map[], VisitOrder(st))
  }

  // ---------- the whole system ----------

  /** A command the PLC acknowledged, and how many times it had been sent. */
  datatype Ack = Ack(code: nat, sends: nat)

  /** `saved` is the last stored snapshot. `acked` is the physical record, per order, of the commands
      acknowledged since its last (re)start; a crash does not undo it. */
  datatype World = World(
    store: Store,
    queues: QueueTable,
    inStep: map<RobotId, Order>,
    saved: Store,
    nextId: OrderId,
    acked: map<OrderId, seq<Ack>>,
    maxRetries: nat)

  function Initial(config: seq<Location>, maxRetries: nat): World {
    World(Configured(config), map[], map[], Configured(config), 0, map[], maxRetries)
  }

  function Save(w: World): World { w.(saved := Snapshot(w.store)) }

  function RecordOf(acked: map<OrderId, seq<Ack>>, id: OrderId): seq<Ack> {
    if id in acked then acked[id] else []
  }

  function Submit(w: World, input: SubmitInput, now: nat): World {
    match SubmitStore(w.store, input, w.nextId, now)
    case Refused(_) => w
    case Existing(_) => w
    case Created(st, o) => Save(w.(store := st, queues := Enqueue(w.queues, o.robot, o.id), nextId := w.nextId + 1))
  }

  /** What `runRobotLoop` does with the outcome of `processOrder`. */
  function Settle(w: World, r: RobotId, id: OrderId, p: Processed): World {
    var v := w.(store := p.store);
    match p.effect
    case Gone => v.(queues := SetActive(v.queues, r, None))
    case AlreadyTerminal => v.(queues := SetActive(v.queues, r, None))
    case LogicalDone => Save(v.(queues := SetActive(v.queues, r, None)))
    case Finished => Save(v.(queues := SetActive(v.queues, r, None)))
    case Deferred => Save(v.(queues := if id in v.store.orders
                                       then Enqueue(SetActive(v.queues, r, None), v.store.orders[id].robot, id)
                                       else SetActive(v.queues, r, None)))
    case Crashed => v
    case Suspended(ticket) => v.(inStep := v.inStep[r := ticket])
  }

  function ProcessOrder(w: World, r: RobotId, id: OrderId): World {
    Settle(w, r, id, ProcessStore(w.store, id))
  }

  /** The order the loop works on next: the active one, else the head of an unpaused queue. */
  function NextOrder(w: World, r: RobotId): Option<OrderId> {
    var q := QueueOf(w.queues, r);
    if q.active.Some? then q.active
    else if q.paused || q.items == [] then None
    else Some(q.items[0])
  }

  function TakeNext(w: World, r: RobotId, id: OrderId): World {
    if QueueOf(w.queues, r).active.Some? then w.(queues := Ensure(w.queues, r))
    else w.(queues := SetActive(DropFirst(w.queues, r), r, Some(id)))
  }

  /** One iteration of `runRobotLoop`, up to the PLC call; a loop already waiting in a step does nothing. */
  function LoopStep(w: World, r: RobotId): World {
    if r in w.inStep then w
    else match NextOrder(w, r)
         case None => w.(queues := Ensure(w.queues, r))
         case Some(id) => ProcessOrder(TakeNext(w, r, id), r, id)
  }

  lemma LoopStepIs(w: World, r: RobotId, id: OrderId)
    requires r !in w.inStep && NextOrder(w, r) == Some(id)
    ensures LoopStep(w, r) == Settle(TakeNext(w, r, id), r, id, ProcessStore(w.store, id))
    ensures TakeNext(w, r, id) == w.(queues := TakeNext(w, r, id).queues)
  {
    hide ProcessStore, Settle;
  }

  /** What one loop iteration does to the tables. */
  lemma LoopStepStore(w: World, r: RobotId)
    ensures LoopStep(w, r).store ==
            if r in w.inStep || NextOrder(w, r).None? then w.store
                else ProcessStore(w.store, NextOrder(w, r).value).store
  {
    if r !in w.inStep && NextOrder(w, r).Some? {
      var id := NextOrder(w, r).value;
      LoopStepIs(w, r, id);
      hide LoopStep, ProcessStore, TakeNext, NextOrder;
      SettleStore(TakeNext(w, r, id), r, id, ProcessStore(w.store, id));
    } else {
      hide ProcessStore, ProcessOrder;
    }
  }

  lemma SettleStore(w: World, r: RobotId, id: OrderId, p: Processed)
    ensures Settle(w, r, id, p).store == p.store
  {
    hide Snapshot;
  }

  /** The command a waiting loop is sending. */
  function TicketCode(ticket: Order): nat {
    var code := if ticket.stepIndex < |ticket.steps| then StepCommand(ticket.steps[ticket.stepIndex], ticket) else None;
    if code.Some? then code.value else 0
  }

  /** The rest of `processOrder` once the PLC call and its retries are over. */
  function StepEnd(w: World, r: RobotId, replies: seq<StepReply>): World {
    if r !in w.inStep then w
    else
      var ticket := w.inStep[r];
      var result := RunStep(w.maxRetries, replies);
      var v := w.(inStep := w.inStep - {r});
      if result.ok then
        Save(v.(store := StepDoneStore(v.store, ticket),
                acked := v.acked[ticket.id := RecordOf(v.acked, ticket.id) + [Ack(TicketCode(ticket), result.sends)]]))
      else
        Save(v.(store := StepFailedStore(v.store, ticket), queues := SetActive(v.queues, r, None)))
  }

  /** What the end of a step does to the tables. */
  lemma StepEndStore(w: World, r: RobotId, replies: seq<StepReply>)
    ensures StepEnd(w, r, replies).store ==
            if r !in w.inStep then w.store
            else if RunStep(w.maxRetries, replies).ok then StepDoneStore(w.store, w.inStep[r])
            else StepFailedStore(w.store, w.inStep[r])
  {
    hide TicketCode, RunStep, StepDoneStore, StepFailedStore;
  }

  function Cancel(w: World, id: OrderId): World {
    if id !in w.store.orders then w
    else w.(queues := Remove(w.queues, w.store.orders[id].robot, id), store := CancelStore(w.store, id))
  }

  /** `resetOk` is the outcome of resetting the robot's messageIn registers, which comes first. */
  function Retry(w: World, id: OrderId, resetOk: bool): World {
    if id !in w.store.orders || !resetOk then w
    else Save(w.(store := RetryStore(w.store, id),
                 queues := Enqueue(w.queues, w.store.orders[id].robot, id),
                 acked := w.acked[id := []]))
  }

  /** Manual release of a slot, whatever its status. */
  function ReleaseManually(w: World, c: Location): World {
    if c in w.store.slots then Save(w.(store := Release(w.store, c))) else w
  }

  /** A crash and restart from the last stored snapshot. */
  function Restart(w: World, config: seq<Location>): World {
    var (st, qs) := Rehydrated(config, w.saved);
    w.(store := st, queues := qs, inStep := map[])
  }

  datatype Action =
    | DoSubmit(input: SubmitInput, now: nat)
    | DoLoop(robot: RobotId)
    | DoStepEnd(robot: RobotId, replies: seq<StepReply>)
    | DoCancel(id: OrderId)
    | DoRetry(id: OrderId, resetOk: bool)
    | DoRelease(slot: Location)
    | DoPause(robot: RobotId, paused: bool)
    | DoRestart(config: seq<Location>)

  function Next(w: World, a: Action): World {
    match a
    case DoSubmit(input, now) => Submit(w, input, now)
    case DoLoop(r) => LoopStep(w, r)
    case DoStepEnd(r, replies) => StepEnd(w, r, replies)
    case DoCancel(id) => Cancel(w, id)
    case DoRetry(id, resetOk) => Retry(w, id, resetOk)
    case DoRelease(c) => ReleaseManually(w, c)
    case DoPause(r, paused) => w.(queues := SetPaused(w.queues, r, paused))
    case DoRestart(config) => Restart(w, config)
  }

  function Exec(w: World, run: seq<Action>): World
    decreases |run|
  {
    if run == [] then w else Next(Exec(w, run[..|run| - 1]), run[|run| - 1])
  }
}
