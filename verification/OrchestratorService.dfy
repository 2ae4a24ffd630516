/** The service object of src/core/orchestrator/OrchestratorService.js over its state and queue managers.
    Each method is proved equal to the matching action of the state machine, so every theorem about runs
    holds of it. */
module OrchestratorServices {
  import opened Sequences
  import opened Location
  import opened Domain
  import opened SlotRanking
  import opened Queues
  import opened Orchestrator
  import opened StateManagers
  import opened NoLostOrders
  import opened RobotLoop
  import opened StepRetry

  datatype SubmitReply = Rejected(error: SubmitError) | Accepted(id: OrderId)

  function ReplyOf(res: SubmitResult): SubmitReply {
    match res
    case Refused(e) => Rejected(e)
    case Existing(id) => Accepted(id)
    case Created(_, o) => Accepted(o.id)
  }

  /** What a submission leaves: only a created order changes anything. */
  function Accept(w: World, res: SubmitResult): World {
    match res
    case Refused(_) => w
    case Existing(_) => w
    case Created(st, o) => Save(w.(store := st, queues := Enqueue(w.queues, o.robot, o.id), nextId := w.nextId + 1))
  }

  lemma SubmitIsAccept(w: World, input: SubmitInput, now: nat)
    ensures Submit(w, input, now) == Accept(w, SubmitStore(w.store, input, w.nextId, now))
    ensures forall res: SubmitResult :: !res.Created? ==> Accept(w, res) == w
  {
    hide SubmitStore, Snapshot;
  }

  class OrchestratorService {
    const stateManager: StateManager
    const queueManager: QueueManager
    const maxRetries: nat
    const baseBackoff: nat
    /** The loops waiting inside a step, with the order record each captured. */
    var inStep: map<RobotId, Order>
    /** The last snapshot given to the snapshot store. */
    var stored: Store
    var nextId: OrderId
    /** History record only. */
    ghost var acked: map<OrderId, seq<Ack>>

    ghost function Model(): World
      reads this, stateManager, queueManager
    {
      World(stateManager.Contents(), queueManager.byRobot, inStep, stored, nextId, acked, maxRetries)
    }

    constructor (config: seq<Location>, maxRetries: nat, baseBackoff: nat)
      ensures Model() == Initial(config, maxRetries)
      ensures fresh(stateManager) && fresh(queueManager)
    {
      stateManager := new StateManager(config);
      queueManager := new QueueManager();
      this.maxRetries, this.baseBackoff := maxRetries, baseBackoff;
      inStep, nextId, acked := map[], 0, map[];
      stored := Store(map[], [], map[], [], map[]);
      new;
      stored := Store(stateManager.orders, stateManager.orderKeys, stateManager.slots, stateManager.slotKeys,
          stateManager.serving);
    }

    /** `snapshotStore.save(stateManager.getSnapshot())` */
    method SaveSnapshot()
      modifies this
      ensures Model() == Save(old(Model()))
    {
      stored := stateManager.GetSnapshot();
    }

    // ---------- submission ----------

    method AdmitPick(now: nat, ext: ExternalId, robot: RobotId, location: Location, target: Option<Location>,
                     slotOverride: Option<Location>)
      returns (reply: SubmitReply)
      modifies stateManager
      ensures var res := Orchestrator.AdmitPick(old(stateManager.Contents()), nextId, now, ext, robot, location, target,
          slotOverride);
              res.Created? && reply == Accepted(res.order.id) && res.order.id == nextId && res.order.robot == robot
              && stateManager.Contents() == res.store
    {
      var dup := stateManager.FindOccupiedPickSlot(location);
      var o;
      if dup.Some? {
        var _ := stateManager.IncrementLogicalPickStack(dup.value);
        o := NewOrder(nextId, now, Pick, ext, robot, location, target, dup, true);
        stateManager.RecordServing(nextId, dup.value);
      } else {
        o := NewOrder(nextId, now, Pick, ext, robot, location, target, slotOverride, false);
      }
      stateManager.InsertOrder(o);
      reply := Accepted(nextId);
    }

    /** A physical PUT: the order is stored first, then the slot is reserved for it if it can be. */
    method AdmitPhysicalPut(o: Order, location: Location)
      modifies stateManager
      ensures var reserved, st := ReserveForPut(old(stateManager.Contents()), location, o.id),
          old(stateManager.Contents());
              stateManager.Contents() == if reserved.Some? then AddOrder(Served(reserved.value, o.id, location), o)
                                         else AddOrder(st, o.(waiting := true))
    {
      stateManager.InsertOrder(o);
      var reserved := stateManager.ReserveSlotForPut(location, o.id);
      if reserved {
        stateManager.RecordServing(o.id, location);
      } else {
        stateManager.UpdateOrder(o.id, o.(waiting := true));
      }
    }

    method AdmitPut(now: nat, ext: ExternalId, robot: RobotId, location: Location,
                    target: Option<Location>) returns (reply: SubmitReply)
      modifies stateManager
      ensures var st, res := old(stateManager.Contents()),
          Orchestrator.AdmitPut(old(stateManager.Contents()), nextId, now, ext, robot, location, target);
              && reply == ReplyOf(res) && stateManager.Contents() == (if res.Created? then res.store else st)
              && (res.Created? ==> res.order.robot == robot && res.order.id == nextId) && !res.Existing?
    {
      if location !in stateManager.slots { return Rejected(NotAPickingSlot); }
      if Depth(stateManager.slots[location]) > 1 {
        var _ := stateManager.DecrementLogicalPickStack(location);
        stateManager.RecordServing(nextId, location);
        stateManager.InsertOrder(NewOrder(nextId, now, Put, ext, robot, location, target, Some(location), true));
      } else {
        AdmitPhysicalPut(NewOrder(nextId, now, Put, ext, robot, location, target, Some(location), false), location);
      }
      reply := Accepted(nextId);
    }

    method SubmitOrder(input: SubmitInput, now: nat) returns (reply: SubmitReply)
      modifies this, stateManager, queueManager
      ensures Model() == Submit(old(Model()), input, now)
      ensures reply == ReplyOf(SubmitStore(old(stateManager.Contents()), input, old(nextId), now))
    {
      SubmitIsAccept(Model(), input, now);
      hide Submit, Accept, Parse, HasActionSuffix, FindByExternalId, ParseKind, Orchestrator.AdmitPick,
        Orchestrator.AdmitPut, RobotOf;
      var kind := ParseKind(input.kind);
      if kind.None? { return Rejected(BadKind); }
      if input.id.NotInteger? { return Rejected(BadId); }
      if input.id.Given? {
        var known := stateManager.FindOrderByExternalId(input.id.value);
        if known.Some? { return Accepted(known.value); }
      }
      if HasActionSuffix(input.locationCode) { return Rejected(ActionSuffix); }
      var parsed := Parse(input.locationCode);
      if parsed.None? { return Rejected(BadLocation); }
      var target: Option<Location> := None;
      if input.targetLocation != "" {
        var p := Parse(input.targetLocation);
        if p.None? { return Rejected(BadTarget); }
        target := Some(p.value.location);
      }
      var slot: Option<Location> := None;
      if input.slotLocationCode != "" {
        var p := Parse(input.slotLocationCode);
        if p.None? { return Rejected(BadSlotCode); }
        slot := Some(p.value.location);
      }
      var location := parsed.value.location;
      var robot := if input.robotId != "" then input.robotId else RobotOf(location);
      reply := Admit(kind.value, now, input.id, robot, location, target, slot);
    }

    /** The order is admitted and, if it was created, queued and saved. */
    method Admit(kind: OrderKind, now: nat, ext: ExternalId, robot: RobotId, location: Location,
                 target: Option<Location>, slot: Option<Location>)
      returns (reply: SubmitReply)
      modifies this, stateManager, queueManager
      ensures var st := old(stateManager.Contents());
              var res := if kind == Pick
                  then Orchestrator.AdmitPick(st, old(nextId), now, ext, robot, location, target, slot)
                         else Orchestrator.AdmitPut(st, old(nextId), now, ext, robot, location, target);
              Model() == Accept(old(Model()), res) && reply == ReplyOf(res)
    {
      hide Orchestrator.AdmitPick, Orchestrator.AdmitPut, Snapshot;
      if kind == Pick {
        reply := AdmitPick(now, ext, robot, location, target, slot);
      } else {
        reply := AdmitPut(now, ext, robot, location, target);
      }
      if reply.Accepted? {
        queueManager.Push(robot, reply.id);
        nextId := nextId + 1;
        SaveSnapshot();
      }
    }

    // ---------- processing ----------

    /** A PICK still without slot whose box already stands in one becomes logical. */
    method ConvertToLogical(id: OrderId)
      requires id in stateManager.orders
      modifies stateManager
      ensures stateManager.Contents() == ConvertStore(old(stateManager.Contents()), id)
    {
      var o := stateManager.orders[id];
      if o.kind == Pick && !o.logicalPick && o.slot.None? {
        var dup := stateManager.FindOccupiedPickSlot(o.location);
        if dup.Some? {
          var _ := stateManager.IncrementLogicalPickStack(dup.value);
          stateManager.RecordServing(id, dup.value);
          stateManager.UpdateOrder(id, o.(slot := dup, steps := [], logicalPick := true));
        }
      }
    }

    /** `assignSlotForPickOrder`: the first ranked slot that can be reserved is the nearest free one. */
    method AssignSlotForPickOrder(id: OrderId) returns (slot: Option<Location>)
      requires id in stateManager.orders
      modifies stateManager
      ensures var st := old(stateManager.Contents());
              var ranked := RankSlots(st.orders[id].location, ListAvailableSlots(st));
              if ranked == [] then slot == None && stateManager.Contents() == st
              else slot == Some(ranked[0]) && Reserve(st, ranked[0], id) == Some(stateManager.Contents())
    {
      ghost var st := stateManager.Contents();
      var available := Filter(Sort(stateManager.slotKeys, ByCode()), IsFree(stateManager.slots));
      var ranked := RankSlots(stateManager.orders[id].location, available);
      assert available == ListAvailableSlots(st);
      hide RankSlots, ListAvailableSlots, Filter, Sort;
      var i := 0;
      while i < |ranked|
        invariant 0 <= i <= |ranked| && stateManager.Contents() == st
        invariant forall k :: 0 <= k < i ==> Reserve(st, ranked[k], id).None?
      {
        var reserved := stateManager.ReserveSlot(ranked[i], id);
        if reserved {
          assert i == 0 by { NearestIsFree(st, st.orders[id].location, id); }
          return Some(ranked[i]);
        }
        i := i + 1;
      }
      assert ranked == [] by { NearestIsFree(st, st.orders[id].location, id); }
      slot := None;
    }

    /** The order takes the assigned slot, if there is one. */
    method PlaceOrder(id: OrderId) returns (placed: bool)
      requires id in stateManager.orders
      modifies stateManager
      ensures placed <==> AssignStore(old(stateManager.Contents()), id).Some?
      ensures stateManager.Contents() == if placed then AssignStore(old(stateManager.Contents()), id).value
          else old(stateManager.Contents())
      ensures id in stateManager.orders
    {
      hide RankSlots, ListAvailableSlots;
      var o := stateManager.orders[id];
      var assignedSlot := AssignSlotForPickOrder(id);
      placed := assignedSlot.Some?;
      if placed { stateManager.UpdateOrder(id, o.(slot := assignedSlot, waiting := false)); }
    }

    /** The order starts running; before its first step its slot shows the movement. */
    method StartOrder(id: OrderId)
      requires id in stateManager.orders
      modifies stateManager
      ensures stateManager.Contents() == BeginStore(old(stateManager.Contents()), id)
    {
      var o := stateManager.orders[id];
      if o.waiting && o.slot.Some? { o := o.(waiting := false); }
      o := o.(status := InProgress);
      stateManager.UpdateOrder(id, o);
      if o.slot.Some? && o.stepIndex == 0 {
        stateManager.UpdateSlotStatus(o.slot.value, if o.kind == Pick then Fetching else Returning, Some(id));
      }
    }

    /** No step left. */
    method FinishOrder(id: OrderId)
      requires id in stateManager.orders
      modifies stateManager
      ensures stateManager.Contents() == FinishStore(old(stateManager.Contents()), id)
    {
      var o := stateManager.orders[id];
      if o.slot.Some? && o.kind == Pick {
        stateManager.MarkSlotOccupied(o.slot.value, id, o.location);
        stateManager.RecordServing(id, o.slot.value);
      }
      if o.slot.Some? && o.kind == Put {
        var _ := stateManager.ReleaseSlot(o.slot.value);
      }
      stateManager.UpdateOrder(id, o.(status := Done));
    }

    /** The part of `processOrder` for an order with work to do, up to the PLC call. */
    method RunOrder(r: RobotId, id: OrderId) returns (effect: Effect)
      requires id in stateManager.orders
      modifies this, stateManager, queueManager
      ensures var p := RunStore(old(stateManager.Contents()), id);
              Model() == Settle(old(Model()), r, id, p) && effect == p.effect
    {
      hide Snapshot, FinishStore, CarCommand, LiftCommand;
      StartOrder(id);
      var o := stateManager.orders[id];
      if o.stepIndex >= |o.steps| {
        FinishOrder(id);
        queueManager.ClearActive(r);
        SaveSnapshot();
        return Finished;
      }
      if !Commandable(o) { return Crashed; }
      inStep := inStep[r := o];
      effect := Suspended(o);
    }

    /** `deferOrderWaitingForSlot`: back to the end of its robot's queue. */
    method DeferOrderWaitingForSlot(r: RobotId, id: OrderId)
      requires id in stateManager.orders
      modifies this, stateManager, queueManager
      ensures var o := old(stateManager.orders)[id];
              Model() == Settle(old(Model()), r, id,
                                Processed(WithOrder(old(stateManager.Contents()), id,
                                    o.(status := Pending, waiting := true)), Deferred))
    {
      hide Snapshot;
      var o := stateManager.orders[id].(status := Pending, waiting := true);
      stateManager.UpdateOrder(id, o);
      queueManager.ClearActive(r);
      queueManager.Push(o.robot, id);
      SaveSnapshot();
    }

    /** `processOrder` up to the PLC call. */
    method ProcessOrder(r: RobotId, id: OrderId) returns (effect: Effect)
      modifies this, stateManager, queueManager
      ensures Model() == Orchestrator.ProcessOrder(old(Model()), r, id)
      ensures effect == ProcessStore(old(stateManager.Contents()), id).effect
    {
      hide Snapshot, ConvertStore, AssignStore, RunStore, ProcessStore;
      if id in stateManager.orders {
        ProcessCases(stateManager.Contents(), id);
      } else {
        ProcessGone(stateManager.Contents(), id);
      }
      if id !in stateManager.orders {
        queueManager.ClearActive(r);
        return Gone;
      }
      ConvertToLogical(id);
      var o := stateManager.orders[id];
      if Terminal(o) {
        queueManager.ClearActive(r);
        return AlreadyTerminal;
      }
      if Logical(o) {
        stateManager.UpdateOrder(id, o.(status := Done));
        queueManager.ClearActive(r);
        SaveSnapshot();
        return LogicalDone;
      }
      if o.kind == Pick && o.slot.None? {
        var placed := PlaceOrder(id);
        if !placed {
          DeferOrderWaitingForSlot(r, id);
          return Deferred;
        }
      }
      effect := RunOrder(r, id);
    }

    /** The rest of `processOrder`, once the PLC call and its retries are over. */
    method CompleteStep(r: RobotId, replies: seq<StepReply>)
      requires r in inStep
      modifies this, stateManager, queueManager
      ensures Model() == StepEnd(old(Model()), r, replies)
    {
      hide Snapshot, RunStep, StepCommand, Commandable;
      var ticket := inStep[r];
      var ok, sends, _, _ := ExecuteStepWithRetry(maxRetries, baseBackoff, replies);
      inStep := inStep - {r};
      if ok {
        if ticket.id in stateManager.orders {
          var o := stateManager.orders[ticket.id];
          stateManager.UpdateOrder(ticket.id, o.(stepIndex := ticket.stepIndex + 1, steps := ticket.steps));
        }
        acked := acked[ticket.id := RecordOf(acked, ticket.id) + [Ack(TicketCode(ticket), sends)]];
      } else {
        if ticket.slot.Some? { stateManager.BlockSlot(ticket.slot.value, ticket.id); }
        if ticket.id in stateManager.orders {
          stateManager.UpdateOrder(ticket.id, stateManager.orders[ticket.id].(status := Error));
        }
        queueManager.ClearActive(r);
      }
      SaveSnapshot();
    }

    /** The order the loop works on: the active one, else the dequeued head, made active. */
    method TakeNextOrder(r: RobotId) returns (next: Option<OrderId>)
      modifies queueManager
      ensures next == NextOrder(old(Model()), r)
      ensures queueManager.byRobot == if next.None? then Ensure(old(queueManager.byRobot), r)
                                      else TakeNext(old(Model()), r, next.value).queues
    {
      var queueState := queueManager.EnsureRobot(r);
      next := queueState.active;
      if next.None? {
        next := queueManager.DequeueNext(r);
        if next.Some? { queueManager.Activate(r, next.value); }
      }
    }

    /** One pass of the loop: everything between two looks at the queue. */
    method LoopPass(r: RobotId, replies: seq<StepReply>) returns (used: bool, stops: bool)
      requires Consistent(Model()) && r !in inStep
      modifies this, stateManager, queueManager
      ensures var t := LoopTurn(old(Model()), r, if used then [replies] else []);
              Model() == t.world && stops == t.stops
      ensures used <==> r in LoopStep(old(Model()), r).inStep
    {
      hide LoopStep, TakeNext, NextOrder, Settle, ProcessStore, StepEnd, Consistent;
      ghost var w := Model();
      var next := TakeNextOrder(r);
      if next.None? {
        LoopStepNone(w, r);
        return false, true;
      }
      LoopStepIs(w, r, next.value);
      var effect := ProcessOrder(r, next.value);
      used := r in inStep;
      if used {
        SettleSuspends(TakeNext(w, r, next.value), r, next.value, ProcessStore(w.store, next.value));
        CompleteStep(r, replies);
      }
      stops := effect == Crashed
        || (next.value in stateManager.orders
            && (stateManager.orders[next.value].status == Error || stateManager.orders[next.value].status == Pending));
    }

    /** `runRobotLoop` with no outside events, each step answered by the next list of replies: it returns,
        in the state the specification gives. */
    method RunRobotLoop(r: RobotId, feed: seq<seq<StepReply>>)
      requires Consistent(Model()) && r !in inStep
      modifies this, stateManager, queueManager
      ensures Model() == RunToEnd(old(Model()), r, feed).world
      ensures Consistent(Model()) && r !in inStep
    {
      var rest, stops := feed, false;
      while !stops
        invariant Consistent(Model()) && r !in inStep
        invariant if stops then Model() == RunToEnd(old(Model()), r, feed).world
                  else RunToEnd(Model(), r, rest).world == RunToEnd(old(Model()), r, feed).world
        decreases !stops, |QueueOf(Model().queues, r).items|, Remaining(Model(), r)
      {
        hide Consistent, LoopTurn, LoopStep, Remaining, QueueOf;
        ghost var w := Model();
        var used;
        used, stops := LoopPass(r, FirstReplies(rest));
        TurnUsesFirst(w, r, rest, used);
        TurnKeeps(w, r, rest);
        if !stops { TurnShrinks(w, r, rest); }
        if used { rest := LaterReplies(rest); }
      }
    }

    // ---------- the other requests ----------

    method CancelOrder(id: OrderId)
      modifies this, stateManager, queueManager
      ensures Model() == Cancel(old(Model()), id)
    {
      if id !in stateManager.orders { return; }
      var o := stateManager.orders[id];
      queueManager.RemoveOrder(o.robot, id);
      if o.slot.Some? && o.slot.value in stateManager.slots && stateManager.slots[o.slot.value].owner == Some(id) {
        if o.kind == Pick {
          var _ := stateManager.ReleaseSlot(o.slot.value);
        } else {
          stateManager.UpdateSlotStatus(o.slot.value, Occupied, None);
        }
      }
      stateManager.UpdateOrder(id, o.(status := Canceled));
    }

    /** `retryOrder`; resetOk is the outcome of resetting the robot's messageIn registers. */
    method RetryOrder(id: OrderId, resetOk: bool)
      modifies this, stateManager, queueManager
      ensures Model() == Retry(old(Model()), id, resetOk)
    {
      hide Snapshot;
      if id !in stateManager.orders || !resetOk { return; }
      var o := stateManager.orders[id];
      stateManager.UpdateOrder(id,
          o.(status := Pending, stepIndex := 0, steps := BuildSteps(o.kind), waiting := false));
      queueManager.Push(o.robot, id);
      acked := acked[id := []];
      SaveSnapshot();
    }

    /** The release route: any slot, whatever its status. */
    method ReleaseSlotManually(c: Location)
      modifies this, stateManager
      ensures Model() == ReleaseManually(old(Model()), c)
    {
      var known := stateManager.ReleaseSlot(c);
      if known { SaveSnapshot(); }
    }

    method SetPaused(r: RobotId, paused: bool)
      modifies queueManager
      ensures Model() == old(Model()).(queues := Queues.SetPaused(old(queueManager.byRobot), r, paused))
    {
      queueManager.SetQueuePaused(r, paused);
    }

    /** `rehydrateFromSnapshot` in a new process: running orders become PENDING, pending ones are queued oldest
        first. */
    method RehydrateFromSnapshot(config: seq<Location>)
      modifies this, stateManager, queueManager
      ensures Model() == Restart(old(Model()), config)
    {
      inStep := map[];
      stateManager.HydrateFromSnapshot(config, stored);
      queueManager.Clear();
      var orders := stateManager.orders;
      var ids := Sort(Sort(stateManager.orderKeys, NewestFirst(orders)), OldestFirst(orders));
      ghost var st := stateManager.Contents();
      assert ids == VisitOrder(st);
      hide Hydrated, VisitOrder, Sort;
      var i := 0;
      while i < |ids|
        invariant 0 <= i <= |ids|
        invariant Requeue(stateManager.Contents(), queueManager.byRobot, ids[i..]) == Requeue(st, map[], ids)
        invariant Model() == old(Model()).(store := stateManager.Contents(), queues := queueManager.byRobot,
            inStep := map[])
      {
        assert ids[i..][1..] == ids[i + 1..];
        if ids[i] in stateManager.orders {
          var o := stateManager.orders[ids[i]];
          if o.status == InProgress { o := o.(status := Pending); }
          stateManager.UpdateOrder(ids[i], o);
          if o.status == Pending { queueManager.Push(o.robot, ids[i]); }
        }
        i := i + 1;
      }
    }
  }

  /** A turn looks at the first reply list only, and only if it runs a step. */
  lemma TurnUsesFirst(w: World, r: RobotId, feed: seq<seq<StepReply>>, used: bool)
    requires used <==> r in LoopStep(w, r).inStep
    requires r !in w.inStep
    ensures var t, u := LoopTurn(w, r, feed), LoopTurn(w, r, if used then [FirstReplies(feed)] else []);
            && t.world == u.world && t.stops == u.stops && t.feed == (if used then LaterReplies(feed) else feed)
  {
    if used { LoopSuspendsOnOrder(w, r); }
    hide LoopStep, StepEnd, ProcessStore, StopsAfter;
  }

  lemma LoopStepNone(w: World, r: RobotId)
    requires r !in w.inStep && NextOrder(w, r).None?
    ensures LoopStep(w, r) == w.(queues := Ensure(w.queues, r))
  {
  }

  lemma ProcessGone(st: Store, id: OrderId)
    requires id !in st.orders
    ensures ProcessStore(st, id) == Processed(st, Gone)
  {
  }

  /** The nearest ranked slot can be reserved. */
  lemma NearestIsFree(st: Store, source: Location, id: OrderId)
    ensures var ranked := RankSlots(source, ListAvailableSlots(st)); ranked != [] ==> Reserve(st, ranked[0], id).Some?
  {
    var free := ListAvailableSlots(st);
    var ranked := RankSlots(source, free);
    if ranked != [] {
      SortPermutes(Filter(free, OnSide(source)), NoFarther(source));
      FilterMember(free, OnSide(source), ranked[0]);
      FilterMember(ListSlots(st), IsFree(st.slots), ranked[0]);
    }
  }
}
