/** A physical order that reaches DONE had exactly its five planned commands acknowledged, in order. */
module PlanRecord {
  import opened Sequences
  import opened Location
  import opened Domain
  import opened Queues
  import opened Orchestrator
  import opened Rehydration
  import opened NoLostOrders
  import opened StepRetry

  /** The decimal fields of a car command: position, pair of modules, 1 for an odd module, 1 for taking. */
  function CarCode(l: Location, a: CarAction): nat {
    10000 * l.position + 100 * ((l.moduleNumber + 1) / 2) + 10 * (if l.moduleNumber % 2 == 0 then 0 else 1)
    + (if a == Take then 1 else 0)
  }

  /** Homing, lift to the source level, take there, lift to the destination level, leave there. */
  function Plan(o: Order): seq<nat> {
    [41000, 100 + o.location.level, CarCode(o.location, Take),
     100 + DropLocation(o).level, CarCode(DropLocation(o), Drop)]
  }

  lemma TicketCodePlanned(t: Order)
    requires t.steps == BuildSteps(t.kind) && t.stepIndex < 5 && Commandable(t)
    ensures TicketCode(t) == Plan(t)[t.stepIndex]
  {
    CarCommandValue(t.location, Take);
    CarCommandValue(DropLocation(t), Drop);
    hide CarCommand;
  }

  /** Since its last (re)start the order had its first stepIndex commands acknowledged, each sent
      between one and maxRetries times. */
  predicate FollowsPlan(o: Order, acks: seq<Ack>, maxRetries: nat) {
    && |acks| == o.stepIndex <= 5
    && (forall k :: 0 <= k < |acks| ==> acks[k].code == Plan(o)[k] && 1 <= acks[k].sends <= maxRetries)
    && (o.status == Done ==> o.stepIndex == 5)
  }

  ghost predicate Recorded(st: Store, acked: map<OrderId, seq<Ack>>, maxRetries: nat) {
    forall id :: id in st.orders && !Logical(st.orders[id]) ==>
        FollowsPlan(st.orders[id], RecordOf(acked, id), maxRetries)
  }

  predicate AtTicket(orders: map<OrderId, Order>, t: Order) {
    t.id in orders ==> orders[t.id].stepIndex == t.stepIndex
  }

  /** A waiting loop's order is still at the captured step. */
  ghost predicate TicketsCurrent(w: World) {
    forall r :: r in w.inStep ==> AtTicket(w.store.orders, w.inStep[r])
  }

  ghost predicate PlansFollowed(w: World) {
    && Recorded(w.store, w.acked, w.maxRetries) && Recorded(w.saved, w.acked, w.maxRetries) && TicketsCurrent(w)
  }

  /** The order is not inside its second or a later step. */
  ghost predicate NotPastFirstStep(w: World, id: OrderId) {
    forall r :: r in w.inStep && w.inStep[r].id == id ==> w.inStep[r].stepIndex == 0
  }

  // ---------- processing keeps the step index ----------

  ghost predicate IndexKept(o: Order, o': Order) {
    && o'.stepIndex == o.stepIndex && SameIdentity(o, o')
    && (o'.slot == o.slot || (o.slot.None? && o.stepIndex == 0))
    && (Logical(o) ==> Logical(o'))
    && (o'.status == Done && !Logical(o') && o.status != Done ==> o.stepIndex >= |o.steps|)
  }

  lemma RunKeepsIndex(st: Store, id: OrderId)
    requires Keyed(st) && id in st.orders && !Logical(st.orders[id])
    ensures id in RunStore(st, id).store.orders && IndexKept(st.orders[id], RunStore(st, id).store.orders[id])
  {
    BeginTouches(st, id);
    var s := BeginStore(st, id);
    FinishTouches(s, id);
    hide BeginStore, FinishStore;
  }

  lemma ConvertKeepsIndex(st: Store, id: OrderId)
    requires Keyed(st) && id in st.orders && WellShaped(st.orders[id])
    ensures var s := ConvertStore(st, id);
            && Keyed(s) && id in s.orders && IndexKept(st.orders[id], s.orders[id])
            && (s.orders[id] == st.orders[id] || Logical(s.orders[id]))
  {
    hide ConvertStore;
    ConvertTouches(st, id);
    TouchesKeyed(st, ConvertStore(st, id), id);
  }

  lemma AssignKeepsIndex(st: Store, id: OrderId)
    requires Keyed(st) && id in st.orders && !Logical(st.orders[id]) && st.orders[id].slot.None?
    requires st.orders[id].stepIndex == 0
    requires AssignStore(st, id).Some?
    ensures var s := AssignStore(st, id).value;
            && Keyed(s) && id in s.orders && IndexKept(st.orders[id], s.orders[id]) && !Logical(s.orders[id])
            && s.orders[id].steps == st.orders[id].steps
  {
    hide AssignStore;
    AssignTouches(st, id);
    TouchesKeyed(st, AssignStore(st, id).value, id);
  }

  lemma ProcessKeepsIndex(st: Store, id: OrderId)
    requires Keyed(st) && id in st.orders && WellShaped(st.orders[id])
    requires st.orders[id].slot.None? ==> st.orders[id].status != Canceled
    ensures var p := ProcessStore(st, id); id in p.store.orders && IndexKept(st.orders[id], p.store.orders[id])
  {
    hide ProcessStore, ConvertStore, AssignStore, RunStore, Keyed;
    ConvertKeepsIndex(st, id);
    ProcessCases(st, id);
    var s := ConvertStore(st, id);
    if !Terminal(s.orders[id]) && !Logical(s.orders[id]) {
      if s.orders[id].kind == Pick && s.orders[id].slot.None? {
        if AssignStore(s, id).Some? {
          AssignKeepsIndex(s, id);
          RunKeepsIndex(AssignStore(s, id).value, id);
        }
      } else {
        RunKeepsIndex(s, id);
      }
    }
  }

  lemma IndexKeptFollows(o: Order, o': Order, acks: seq<Ack>, maxRetries: nat)
    requires IndexKept(o, o') && !Logical(o') && WellShaped(o) && FollowsPlan(o, acks, maxRetries)
    ensures FollowsPlan(o', acks, maxRetries)
  {
  }

  // ---------- one action ----------

  /** Order id changed in a way its record follows, the others not at all. */
  lemma RecordedAfter(st: Store, st': Store, acked: map<OrderId, seq<Ack>>, acked': map<OrderId, seq<Ack>>,
                      id: OrderId, maxRetries: nat)
    requires Recorded(st, acked, maxRetries) && id in st'.orders && st'.orders == st.orders[id := st'.orders[id]]
    requires forall k :: k != id ==> RecordOf(acked', k) == RecordOf(acked, k)
    requires !Logical(st'.orders[id]) ==> FollowsPlan(st'.orders[id], RecordOf(acked', id), maxRetries)
    ensures Recorded(st', acked', maxRetries)
  {
  }

  lemma LoopFollows(w: World, r: RobotId)
    requires Consistent(w) && PlansFollowed(w)
    ensures PlansFollowed(LoopStep(w, r))
  {
    if r !in w.inStep && NextOrder(w, r).Some? {
      var id := NextOrder(w, r).value;
      TakeNextKnown(w, r, id);
      TakeNextConsistent(w, r, id);
      LoopStepIs(w, r, id);
      ProcessFollows(TakeNext(w, r, id), r, id);
      hide LoopStep, TakeNext, NextOrder, ProcessStore, Settle, PassOutcome, IndexKept, Consistent;
    }
  }

  lemma ProcessFollows(w: World, r: RobotId, id: OrderId)
    requires Consistent(w) && PlansFollowed(w) && r !in w.inStep && id in w.store.orders
    requires w.store.orders[id].robot == r
    requires w.store.orders[id].slot.None? ==> w.store.orders[id].status != Canceled
    ensures PlansFollowed(Settle(w, r, id, ProcessStore(w.store, id)))
  {
    ProcessPass(w.store, id);
    ProcessKeepsIndex(w.store, id);
    SettleFollows(w, r, id, ProcessStore(w.store, id));
    hide ProcessStore, Settle, PassOutcome, IndexKept;
  }

  lemma SnapshotRecorded(st: Store, acked: map<OrderId, seq<Ack>>, maxRetries: nat)
    requires Recorded(st, acked, maxRetries)
    ensures Recorded(Snapshot(st), acked, maxRetries)
  {
  }

  lemma SettleCurrent(w: World, r: RobotId, id: OrderId, p: Processed)
    requires TicketsCurrent(w) && TicketsMatch(w) && r !in w.inStep && PassOutcome(w.store, id, p)
    requires w.store.orders[id].robot == r
    requires w.store.orders[id].id == id
    ensures TicketsCurrent(Settle(w, r, id, p))
  {
    var w' := Settle(w, r, id, p);
    SettleShape(w, r, id, p);
    hide Settle, WellShaped, Commandable;
    forall x | x in w'.inStep ensures AtTicket(w'.store.orders, w'.inStep[x]) {
      if x != r {
        assert TicketMatches(w, x, w.inStep[x]) && AtTicket(w.store.orders, w.inStep[x]);
        assert w.inStep[x].id != id;
      }
    }
  }

  lemma SettleRecords(w: World, r: RobotId, id: OrderId, p: Processed)
    ensures var w' := Settle(w, r, id, p);
            && w'.store == p.store && w'.acked == w.acked && w'.maxRetries == w.maxRetries
            && (w'.saved == w.saved || w'.saved == Snapshot(p.store))
  {
    hide Snapshot;
  }

  lemma SettleFollows(w: World, r: RobotId, id: OrderId, p: Processed)
    requires PlansFollowed(w) && TicketsMatch(w) && r !in w.inStep && id in w.store.orders
    requires WellShaped(w.store.orders[id])
    requires PassOutcome(w.store, id, p) && IndexKept(w.store.orders[id], p.store.orders[id])
    requires w.store.orders[id].robot == r && w.store.orders[id].id == id
    ensures PlansFollowed(Settle(w, r, id, p))
  {
    var o, o' := w.store.orders[id], p.store.orders[id];
    if !Logical(o') { IndexKeptFollows(o, o', RecordOf(w.acked, id), w.maxRetries); }
    RecordedAfter(w.store, p.store, w.acked, w.acked, id, w.maxRetries);
    SnapshotRecorded(p.store, w.acked, w.maxRetries);
    SettleCurrent(w, r, id, p);
    SettleRecords(w, r, id, p);
    hide Recorded, TicketsCurrent, Settle;
  }

  lemma StepDoneFollows(st: Store, t: Order, acks: seq<Ack>, sends: nat, maxRetries: nat)
    requires t.id in st.orders && !Logical(st.orders[t.id]) && SameRecord(st.orders[t.id], t)
    requires st.orders[t.id].stepIndex == t.stepIndex
    requires t.steps == BuildSteps(t.kind) && t.stepIndex < 5 && Commandable(t)
    requires FollowsPlan(st.orders[t.id], acks, maxRetries) && 1 <= sends <= maxRetries
    requires st.orders[t.id].status != Done
    ensures FollowsPlan(StepDoneStore(st, t).orders[t.id], acks + [Ack(TicketCode(t), sends)], maxRetries)
  {
    TicketCodePlanned(t);
    hide TicketCode, Commandable, CarCode;
    assert Plan(StepDoneStore(st, t).orders[t.id]) == Plan(t);
  }

  lemma StepDoneRecorded(w: World, r: RobotId, replies: seq<StepReply>)
    requires Consistent(w) && PlansFollowed(w) && r in w.inStep && RunStep(w.maxRetries, replies).ok
    ensures var w' := StepEnd(w, r, replies); Recorded(w'.store, w'.acked, w'.maxRetries)
  {
    var t := w.inStep[r];
    var w' := StepEnd(w, r, replies);
    TicketAtStep(w, r);
    StepEndRecords(w, r, replies);
    StepEndStore(w, r, replies);
    RunStepMeaning(w.maxRetries, replies);
    hide *;
    DoneStepRecorded(w, w', t, RunStep(w.maxRetries, replies).sends);
  }

  lemma DoneStepRecorded(w: World, w': World, t: Order, sends: nat)
    requires Recorded(w.store, w.acked, w.maxRetries) && w'.maxRetries == w.maxRetries
    requires w'.store == StepDoneStore(w.store, t)
    requires w'.acked == w.acked[t.id := RecordOf(w.acked, t.id) + [Ack(TicketCode(t), sends)]]
    requires t.id in w.store.orders && !Logical(w.store.orders[t.id]) && SameRecord(w.store.orders[t.id], t)
    requires w.store.orders[t.id].stepIndex == t.stepIndex < 5 && w.store.orders[t.id].status != Done
    requires t.steps == BuildSteps(t.kind) && Commandable(t) && 1 <= sends <= w.maxRetries
    requires FollowsPlan(w.store.orders[t.id], RecordOf(w.acked, t.id), w.maxRetries)
    ensures Recorded(w'.store, w'.acked, w'.maxRetries)
  {
    hide TicketCode;
    StepDoneFollows(w.store, t, RecordOf(w.acked, t.id), sends, w.maxRetries);
    RecordedAfter(w.store, w'.store, w.acked, w'.acked, t.id, w.maxRetries);
  }

  lemma TicketAtStep(w: World, r: RobotId)
    requires Consistent(w) && PlansFollowed(w) && r in w.inStep
    ensures var t := w.inStep[r];
            && t.id in w.store.orders && !Logical(w.store.orders[t.id]) && SameRecord(w.store.orders[t.id], t)
            && w.store.orders[t.id].stepIndex == t.stepIndex < 5 && w.store.orders[t.id].status != Done
            && t.steps == BuildSteps(t.kind) && Commandable(t) && w.store.orders[t.id].robot == r
            && FollowsPlan(w.store.orders[t.id], RecordOf(w.acked, t.id), w.maxRetries)
  {
    assert TicketMatches(w, r, w.inStep[r]);
    assert AtTicket(w.store.orders, w.inStep[r]);
  }

  lemma StepEndRecords(w: World, r: RobotId, replies: seq<StepReply>)
    requires r in w.inStep
    ensures var w', t, res := StepEnd(w, r, replies), w.inStep[r], RunStep(w.maxRetries, replies);
            && w'.maxRetries == w.maxRetries
            && w'.acked == (if res.ok
                 then w.acked[t.id := RecordOf(w.acked, t.id) + [Ack(TicketCode(t), res.sends)]] else w.acked)
    ensures RunStep(w.maxRetries, replies).ok ==> w.maxRetries >= 1
  {
    hide TicketCode, StepDoneStore, StepFailedStore, Snapshot;
  }

  lemma StepFailedRecorded(w: World, r: RobotId, replies: seq<StepReply>)
    requires Consistent(w) && PlansFollowed(w) && r in w.inStep && !RunStep(w.maxRetries, replies).ok
    ensures var w' := StepEnd(w, r, replies); Recorded(w'.store, w'.acked, w'.maxRetries)
  {
    hide StepEnd, TicketCode, RunStep, Consistent;
    var t := w.inStep[r];
    var w' := StepEnd(w, r, replies);
    TicketAtStep(w, r);
    StepEndRecords(w, r, replies);
    StepEndStore(w, r, replies);
    RecordedAfter(w.store, w'.store, w.acked, w'.acked, t.id, w.maxRetries);
  }

  lemma StepEndFollows(w: World, r: RobotId, replies: seq<StepReply>)
    requires Consistent(w) && PlansFollowed(w)
    ensures PlansFollowed(StepEnd(w, r, replies))
  {
    if r in w.inStep {
      if RunStep(w.maxRetries, replies).ok {
        StepDoneRecorded(w, r, replies);
      } else {
        StepFailedRecorded(w, r, replies);
      }
      StepEndCurrent(w, r, replies);
      var w' := StepEnd(w, r, replies);
      SnapshotRecorded(w'.store, w'.acked, w'.maxRetries);
      StepEndSaves(w, r, replies);
      hide StepEnd, Recorded, TicketsCurrent, Consistent;
    }
  }

  lemma StepEndSaves(w: World, r: RobotId, replies: seq<StepReply>)
    requires r in w.inStep
    ensures StepEnd(w, r, replies).saved == Snapshot(StepEnd(w, r, replies).store)
    ensures StepEnd(w, r, replies).inStep == w.inStep - {r}
  {
    hide RunStep, TicketCode, StepDoneStore, StepFailedStore, Snapshot;
  }

  lemma StepEndCurrent(w: World, r: RobotId, replies: seq<StepReply>)
    requires TicketsMatch(w) && TicketsCurrent(w) && r in w.inStep
    ensures TicketsCurrent(StepEnd(w, r, replies))
  {
    hide StepEnd, RunStep;
    StepEndSaves(w, r, replies);
    StepEndStore(w, r, replies);
    var w' := StepEnd(w, r, replies);
    assert TicketMatches(w, r, w.inStep[r]);
    forall x | x in w'.inStep ensures AtTicket(w'.store.orders, w'.inStep[x]) {
      assert TicketMatches(w, x, w.inStep[x]) && AtTicket(w.store.orders, w.inStep[x]);
      assert w.inStep[x].id != w.inStep[r].id;
    }
  }

  lemma RetryCurrent(w: World, id: OrderId)
    requires TicketsCurrent(w) && id in w.store.orders && NotPastFirstStep(w, id)
    ensures TicketsCurrent(Retry(w, id, true))
  {
    var w' := Retry(w, id, true);
    forall x | x in w'.inStep ensures AtTicket(w'.store.orders, w'.inStep[x]) {
      assert AtTicket(w.store.orders, w.inStep[x]);
    }
  }

  lemma RetryFollows(w: World, id: OrderId)
    requires Consistent(w) && PlansFollowed(w) && id in w.store.orders && NotPastFirstStep(w, id)
    ensures PlansFollowed(Retry(w, id, true))
  {
    var w' := Retry(w, id, true);
    RecordedAfter(w.store, w'.store, w.acked, w'.acked, id, w.maxRetries);
    SnapshotRecorded(w'.store, w'.acked, w.maxRetries);
    RetryCurrent(w, id);
    hide Recorded, TicketsCurrent, Consistent, Snapshot;
  }

  /** A retry keeps the record of every order and waiting loop if and only if it reaches its order outside the
      later steps. */
  lemma RetryFollowsExactly(w: World, id: OrderId)
    requires Consistent(w) && PlansFollowed(w) && id in w.store.orders
    ensures PlansFollowed(Retry(w, id, true)) <==> NotPastFirstStep(w, id)
  {
    hide Recorded, Consistent, Snapshot;
    if NotPastFirstStep(w, id) {
      RetryFollows(w, id);
    } else {
      var r :| r in w.inStep && w.inStep[r].id == id && w.inStep[r].stepIndex != 0;
      assert !AtTicket(Retry(w, id, true).store.orders, w.inStep[r]);
    }
  }

  /** What goes wrong: a retry while the order is inside a later step, followed by that step's
      acknowledgement, leaves a step index the acknowledged commands do not account for. */
  lemma LateRetryBreaksPlan(w: World, r: RobotId, replies: seq<StepReply>)
    requires Consistent(w) && PlansFollowed(w) && r in w.inStep && w.inStep[r].stepIndex > 0
    requires RunStep(w.maxRetries, replies).ok
    ensures var id := w.inStep[r].id;
            var v := StepEnd(Retry(w, id, true), r, replies);
            && id in v.store.orders && !Logical(v.store.orders[id]) && |RecordOf(v.acked, id)| == 1
            && v.store.orders[id].stepIndex == w.inStep[r].stepIndex + 1 >= 2
            && !Recorded(v.store, v.acked, v.maxRetries)
  {
    TicketAtStep(w, r);
    var t := w.inStep[r];
    var w1 := Retry(w, t.id, true);
    assert w1.inStep == w.inStep && w1.maxRetries == w.maxRetries && RecordOf(w1.acked, t.id) == [];
    StepEndRecords(w1, r, replies);
    StepEndStore(w1, r, replies);
    var v := StepEnd(w1, r, replies);
    hide StepEnd, RunStep, Consistent, PlansFollowed, TicketCode;
    assert !FollowsPlan(v.store.orders[t.id], RecordOf(v.acked, t.id), v.maxRetries);
  }

  lemma CancelFollows(w: World, id: OrderId)
    requires PlansFollowed(w) && id in w.store.orders
    ensures PlansFollowed(Cancel(w, id))
  {
    var w' := Cancel(w, id);
    RecordedAfter(w.store, w'.store, w.acked, w'.acked, id, w.maxRetries);
    assert TicketsCurrent(w') by { hide Recorded; }
  }

  lemma SubmitFollows(w: World, input: SubmitInput, now: nat)
    requires Consistent(w) && PlansFollowed(w)
    ensures PlansFollowed(Submit(w, input, now))
  {
    SubmitAdds(w.store, input, w.nextId, now);
    SubmitPhysicalFresh(w.store, input, w.nextId, now);
    hide SubmitStore;
    var res := SubmitStore(w.store, input, w.nextId, now);
    if res.Created? {
      assert RecordOf(w.acked, w.nextId) == [];
      RecordedAfter(w.store, res.store, w.acked, w.acked, w.nextId, w.maxRetries);
      SnapshotRecorded(res.store, w.acked, w.maxRetries);
      hide Recorded, Consistent, Snapshot;
    }
  }

  lemma SubmitPhysicalFresh(st: Store, input: SubmitInput, id: OrderId, now: nat)
    ensures var res := SubmitStore(st, input, id, now);
            res.Created? ==> res.order.stepIndex == 0 && res.order.status == Pending
  {
    SubmitCases(st, input, id, now);
    hide SubmitStore, Parse, FindOccupiedBySource, FindByExternalId;
  }

  lemma RestartFollows(w: World, config: seq<Location>)
    requires Consistent(w) && PlansFollowed(w)
    ensures PlansFollowed(Restart(w, config))
  {
    RehydratedMeaning(config, w.saved, "");
    ReopenedRecorded(w.saved, Restart(w, config).store, w.acked, w.maxRetries);
    hide Rehydrated, Consistent, Recorded;
  }

  lemma ReopenedPlan(o: Order, acks: seq<Ack>, maxRetries: nat)
    requires FollowsPlan(o, acks, maxRetries)
    ensures FollowsPlan(Reopened(o), acks, maxRetries)
  {
    hide LiftCommand, CarCode;
    assert Plan(Reopened(o)) == Plan(o);
  }

  lemma ReopenedRecorded(saved: Store, st: Store, acked: map<OrderId, seq<Ack>>, maxRetries: nat)
    requires Recorded(saved, acked, maxRetries) && st.orders.Keys == saved.orders.Keys
    requires forall id :: id in saved.orders ==> st.orders[id] == Reopened(saved.orders[id])
    ensures Recorded(st, acked, maxRetries)
  {
    hide FollowsPlan;
    forall id | id in st.orders && !Logical(st.orders[id])
      ensures FollowsPlan(st.orders[id], RecordOf(acked, id), maxRetries)
    {
      assert id in saved.orders.Keys;
      ReopenedPlan(saved.orders[id], RecordOf(acked, id), maxRetries);
    }
  }

  lemma ReleaseFollows(w: World, c: Location)
    requires PlansFollowed(w)
    ensures PlansFollowed(ReleaseManually(w, c))
  {
    if c in w.store.slots {
      assert Recorded(Release(w.store, c), w.acked, w.maxRetries);
      SnapshotRecorded(Release(w.store, c), w.acked, w.maxRetries);
    }
  }

  // ---------- every run ----------

  /** Retries are only asked for orders not inside a later step (the documented use is on ERROR orders). */
  ghost predicate RetriesInTime(w: World, run: seq<Action>)
    decreases |run|
  {
    run == [] ||
    (var before, a := run[..|run| - 1], run[|run| - 1];
     RetriesInTime(w, before) && (a.DoRetry? ==> NotPastFirstStep(Exec(w, before), a.id)))
  }

  lemma NextFollows(w: World, a: Action)
    requires Consistent(w) && PlansFollowed(w) && (a.DoRetry? ==> NotPastFirstStep(w, a.id))
    ensures PlansFollowed(Next(w, a))
  {
    match a
    case DoSubmit(input, now) => SubmitFollows(w, input, now);
    case DoLoop(r) => LoopFollows(w, r);
    case DoStepEnd(r, replies) => StepEndFollows(w, r, replies);
    case DoCancel(id) => if id in w.store.orders { CancelFollows(w, id); }
    case DoRetry(id, resetOk) => if id in w.store.orders && resetOk { RetryFollows(w, id); }
    case DoRelease(c) => ReleaseFollows(w, c);
    case DoPause(r, paused) =>
    case DoRestart(config) => RestartFollows(w, config);
  }

  lemma {:induction false} ReachablePlansFollowed(config: seq<Location>, maxRetries: nat, run: seq<Action>)
    requires RetriesInTime(Initial(config, maxRetries), run)
    ensures PlansFollowed(Exec(Initial(config, maxRetries), run))
    decreases |run|
  {
    if run == [] {
      ConfiguredMeaning(config);
    } else {
      ReachablePlansFollowed(config, maxRetries, run[..|run| - 1]);
      ReachableConsistent(config, maxRetries, run[..|run| - 1]);
      NextFollows(Exec(Initial(config, maxRetries), run[..|run| - 1]), run[|run| - 1]);
      hide PlansFollowed, Consistent, Next;
    }
  }

  /** In every such run each physical DONE order has had exactly its five planned commands acknowledged since
      its last start, in order, each sent between one and maxRetries times; and at any time the step index is
      the number of acknowledged commands. */
  lemma DoneOrdersFollowedTheirPlan(config: seq<Location>, maxRetries: nat, run: seq<Action>, id: OrderId)
    requires RetriesInTime(Initial(config, maxRetries), run)
    requires var w := Exec(Initial(config, maxRetries), run); id in w.store.orders && !Logical(w.store.orders[id])
    ensures var w := Exec(Initial(config, maxRetries), run);
            var o, acks := w.store.orders[id], RecordOf(w.acked, id);
            && |acks| == o.stepIndex <= 5
            && (forall k :: 0 <= k < |acks| ==> acks[k].code == Plan(o)[k] && 1 <= acks[k].sends <= w.maxRetries)
            && (o.status == Done ==> |acks| == 5)
  {
    ReachablePlansFollowed(config, maxRetries, run);
    hide Exec, Initial;
    var w := Exec(Initial(config, maxRetries), run);
    assert FollowsPlan(w.store.orders[id], RecordOf(w.acked, id), w.maxRetries);
  }

  // ---------- what the acknowledged commands say ----------

  predicate SamePlace(a: Location, b: Location) {
    a.moduleNumber == b.moduleNumber && a.level == b.level && a.position == b.position
  }

  lemma CarCodeInjective(l: Location, a: CarAction, m: Location, b: CarAction)
    requires CarCode(l, a) == CarCode(m, b)
    ensures l.moduleNumber == m.moduleNumber && l.position == m.position && a == b
  {
    FieldsUnique(l.position, (l.moduleNumber + 1) / 2,
                 if l.moduleNumber % 2 == 0 then 0 else 1, if a == Take then 1 else 0,
                 m.position, (m.moduleNumber + 1) / 2,
                 if m.moduleNumber % 2 == 0 then 0 else 1, if b == Take then 1 else 0);
  }

  /** The record reads: home, lift to a's level, take at a, lift to b's level, leave at b. */
  predicate SaysMoved(acks: seq<Ack>, a: Location, b: Location) {
    && |acks| == 5 && acks[0].code == 41000
    && acks[1].code == 100 + a.level && a.moduleNumber >= 1 && acks[2].code == CarCode(a, Take)
    && acks[3].code == 100 + b.level && b.moduleNumber >= 1 && acks[4].code == CarCode(b, Drop)
  }

  /** Where a finished order's box is: in the slot of a PICK, at the target of a PUT or back at its own location. */
  predicate EndsAt(o: Order, b: Location) {
    match o.kind
    case Pick => o.slot.Some? && SamePlace(b, o.slot.value)
    case Put => SamePlace(b, if o.target.Some? then o.target.value else o.location)
  }

  /** The acknowledged commands of a physical DONE order can be read as a move from a to b exactly when a is the
      order's location and b is where its box belongs. */
  lemma DoneOrdersMovedTheirBox(config: seq<Location>, maxRetries: nat, run: seq<Action>, id: OrderId, a: Location,
                                b: Location)
    requires RetriesInTime(Initial(config, maxRetries), run)
    requires var w := Exec(Initial(config, maxRetries), run);
             id in w.store.orders && !Logical(w.store.orders[id]) && w.store.orders[id].status == Done
    ensures var w := Exec(Initial(config, maxRetries), run);
            SaysMoved(RecordOf(w.acked, id), a, b) <==>
              SamePlace(a, w.store.orders[id].location) && EndsAt(w.store.orders[id], b) && a.moduleNumber >= 1
              && b.moduleNumber >= 1
  {
    hide Exec, Initial, RetriesInTime, CarCommand;
    DoneOrdersFollowedTheirPlan(config, maxRetries, run, id);
    ReachableConsistent(config, maxRetries, run);
    var w := Exec(Initial(config, maxRetries), run);
    DoneHasSlot(w, id);
    RecordReadsAsMove(w.store.orders[id], RecordOf(w.acked, id), a, b);
  }

  lemma RecordReadsAsMove(o: Order, acks: seq<Ack>, a: Location, b: Location)
    requires |acks| == 5 && (forall k :: 0 <= k < 5 ==> acks[k].code == Plan(o)[k]) && o.slot.Some?
    ensures SaysMoved(acks, a, b) <==>
        SamePlace(a, o.location) && EndsAt(o, b) && a.moduleNumber >= 1 && b.moduleNumber >= 1
  {
    var d := DropLocation(o);
    assert acks[0].code == 41000 && acks[1].code == 100 + o.location.level
           && acks[2].code == CarCode(o.location, Take)
      && acks[3].code == 100 + d.level && acks[4].code == CarCode(d, Drop);
    if SaysMoved(acks, a, b) {
      CarCodeInjective(a, Take, o.location, Take);
      CarCodeInjective(b, Drop, d, Drop);
    }
  }

  lemma DoneHasSlot(w: World, id: OrderId)
    requires Consistent(w) && id in w.store.orders && w.store.orders[id].status == Done
    ensures w.store.orders[id].slot.Some?
  {
    assert WellShaped(w.store.orders[id]);
  }
}
