/** PICKs that are asked for plainly, on the robot of their shelf and with no slot of their own, never need the guard on
    setting out that `OneBoxPerSource` speaks of. */
module PlainPicks {
  import opened Sequences
  import opened Location
  import opened Domain
  import opened Queues
  import opened Orchestrator
  import opened NoLostOrders
  import Rehydration
  import opened Submission
  import opened Ownership
  import opened OneBoxPerSource

  /** A physical PICK not under way has no slot; PICKs run on the robot of their location. */
  predicate PlainOrder(o: Order) {
    o.kind == Pick ==>
      && (!Logical(o) && o.status == Pending ==> o.slot.None?)
      && o.robot == RobotOf(o.location)
  }

  ghost predicate Plain(st: Store) { forall id :: id in st.orders ==> PlainOrder(st.orders[id]) }

  lemma PlainAfter(st: Store, st': Store, id: OrderId)
    requires Plain(st) && id in st'.orders && st'.orders == st.orders[id := st'.orders[id]]
    ensures Plain(st') <==> PlainOrder(st'.orders[id])
  {
  }

  /** Running orders are active, and the robot of a location runs all its PICKs: so the order at the head fetches
      alone. */
  lemma PlainStarts(w: World, r: RobotId)
    requires Consistent(w) && Plain(w.store)
    ensures OneBoxGuard(w, DoLoop(r))
  {
    if r !in w.inStep && NextOrder(w, r).Some? {
      var id := NextOrder(w, r).value;
      TakeNextKnown(w, r, id);
      var o := w.store.orders[id];
      assert PlainOrder(o);
      if o.kind == Pick {
        forall k | k in w.store.orders && Fetches(w.store.orders[k]) && w.store.orders[k].location == o.location
          ensures k == id
        {
          assert PlainOrder(w.store.orders[k]) && w.store.orders[k].robot == r && Active(w.queues, w.store.orders[k]);
        }
      }
    }
  }

  // ---------- what keeps PICKs plain ----------

  /** A PICK goes to the robot of its location, and names a slot only if its box stands already. */
  ghost predicate PickGuard(st: Store, input: SubmitInput) {
    ValidRequest(st, input) && !AsksPut(input.kind) ==>
      var l := Parse(input.locationCode).value.location;
      && (input.robotId == "" || input.robotId == RobotOf(l))
      && (SlotOverride(input).None? || exists c :: HoldsBoxFrom(st.slots, c, l))
  }

  lemma AdmittedPlain(st: Store, id: OrderId, now: nat, ext: ExternalId, robot: RobotId, l: Location,
                      target: Option<Location>, s: Option<Location>)
    requires Keyed(st)
    ensures PlainOrder(AdmitPick(st, id, now, ext, robot, l, target, s).order) <==>
            robot == RobotOf(l) && (s.None? || exists c :: HoldsBoxFrom(st.slots, c, l))
  {
    hide FindOccupiedBySource;
    FindOccupiedMeaning(st, l);
    if c :| HoldsBoxFrom(st.slots, c, l) { assert c in st.slots; }
  }

  lemma PickGuardMeaning(st: Store, input: SubmitInput, id: OrderId, now: nat)
    requires Keyed(st)
    ensures var res := SubmitStore(st, input, id, now);
            PickGuard(st, input) <==> (res.Created? ==> PlainOrder(res.order))
  {
    hide SubmitStore, AdmitPick, AdmitPut, Parse, AsksPick, AsksPut, Keyed, FindByExternalId;
    CreatedExactly(st, input, id, now);
    SubmitCases(st, input, id, now);
    var res := SubmitStore(st, input, id, now);
    if res.Created? && res.order.kind == Pick {
      var l, o := Parse(input.locationCode).value.location, res.order;
      AdmittedPlain(st, id, now, input.id, o.robot, l, o.target, SlotOverride(input));
    }
  }

  lemma SubmitPlainExactly(w: World, input: SubmitInput, now: nat)
    requires Consistent(w) && Plain(w.store)
    ensures Plain(Submit(w, input, now).store) <==> PickGuard(w.store, input)
  {
    hide Plain, SubmitStore, PickGuard, NoneLost, QueuesMatch, TicketsMatch, UniqueExternalIds, WellShaped, Snapshot;
    PickGuardMeaning(w.store, input, w.nextId, now);
    SubmitAdds(w.store, input, w.nextId, now);
    var res := SubmitStore(w.store, input, w.nextId, now);
    if res.Created? { PlainAfter(w.store, res.store, w.nextId); }
  }

  /** A retry leaves PICKs plain unless it puts back in line a physical PICK that keeps its slot. */
  predicate RetryPlainGuard(o: Order) { o.kind == Put || Logical(o) || o.slot.None? }

  lemma RetryPlainExactly(st: Store, id: OrderId)
    requires Plain(st) && id in st.orders
    ensures Plain(RetryStore(st, id)) <==> RetryPlainGuard(st.orders[id])
  {
    PlainAfter(st, RetryStore(st, id), id);
  }

  /** No physical PICK was on its way. */
  ghost predicate NothingFetched(st: Store) { forall id :: id in st.orders ==> !Fetches(st.orders[id]) }

  /** A restart leaves PICKs plain exactly when its snapshot shows none on its way. */
  lemma RestartPlainExactly(config: seq<Location>, saved: Store, n: OrderId)
    requires GoodStore(saved, n) && Plain(saved)
    ensures Plain(Rehydrated(config, saved).0) <==> NothingFetched(saved)
  {
    hide Rehydrated, UniqueExternalIds;
    Rehydration.RehydratedStore(config, saved);
    var st := Rehydrated(config, saved).0;
    forall id
      ensures id in saved.orders <==> id in st.orders
    {
      assert id in st.orders.Keys <==> id in saved.orders.Keys;
    }
    forall id | id in saved.orders ensures PlainOrder(st.orders[id]) <==> !Fetches(saved.orders[id]) {
      assert PlainOrder(saved.orders[id]) && WellShaped(saved.orders[id]);
    }
    hide PlainOrder, Fetches, WellShaped;
  }

  lemma PlainAt(st: Store, id: OrderId)
    requires Plain(st) && id in st.orders
    ensures PlainOrder(st.orders[id])
  {
  }

  lemma RunStarts(st: Store, id: OrderId)
    requires id in st.orders
    ensures var e := RunStore(st, id).effect; e.Finished? || e.Crashed? || e.Suspended?
  {
    hide BeginStore, FinishStore, Commandable;
  }

  lemma ProcessPlain(st: Store, id: OrderId)
    requires Keyed(st) && Plain(st) && id in st.orders && WellShaped(st.orders[id])
    requires st.orders[id].slot.None? ==> st.orders[id].status != Canceled
    ensures Plain(ProcessStore(st, id).store)
  {
    hide ProcessStore, ConvertStore, AssignStore, RunStore, Keyed, Plain, Commandable;
    ProcessPass(st, id);
    ProcessCases(st, id);
    PlainAt(st, id);
    var s, p := ConvertStore(st, id), ProcessStore(st, id);
    RunStarts(s, id);
    if AssignStore(s, id).Some? && id in AssignStore(s, id).value.orders { RunStarts(AssignStore(s, id).value, id); }
    PlainAfter(st, p.store, id);
  }

  lemma LoopPlain(w: World, r: RobotId)
    requires Consistent(w) && Plain(w.store)
    ensures Plain(LoopStep(w, r).store)
  {
    hide LoopStep, ProcessStore, Plain;
    LoopStepStore(w, r);
    if r !in w.inStep && NextOrder(w, r).Some? {
      TakeNextKnown(w, r, NextOrder(w, r).value);
      ProcessPlain(w.store, NextOrder(w, r).value);
    }
  }

  lemma StepEndPlain(w: World, r: RobotId, replies: seq<StepReply>)
    requires Consistent(w) && Plain(w.store)
    ensures Plain(StepEnd(w, r, replies).store)
  {
    hide StepEnd, RunStep, WellShaped, Plain;
    StepEndStore(w, r, replies);
    if r in w.inStep {
      var t := w.inStep[r];
      assert TicketMatches(w, r, t);
      StepEndTouches(w, r, replies);
      PlainAt(w.store, t.id);
      PlainAfter(w.store, StepEnd(w, r, replies).store, t.id);
    }
  }

  lemma CancelPlain(st: Store, id: OrderId)
    requires Plain(st) && id in st.orders
    ensures Plain(CancelStore(st, id))
  {
    assert PlainOrder(st.orders[id]);
    PlainAfter(st, CancelStore(st, id), id);
  }

  /** What the requests must keep to. */
  ghost predicate PlainGuard(w: World, a: Action) {
    match a
    case DoSubmit(input, _) => PickGuard(w.store, input)
    case DoRetry(id, resetOk) => id in w.store.orders && resetOk ==> RetryPlainGuard(w.store.orders[id])
    case DoRestart(_) => NothingFetched(w.saved)
    case _ => true
  }

  /** For every action from a state whose PICKs are plain in tables and snapshot: they stay so if and only if the guard
      holds. */
  lemma NextPlainExactly(w: World, a: Action)
    requires Consistent(w) && Plain(w.store) && Plain(w.saved)
    ensures Plain(Next(w, a).store) <==> PlainGuard(w, a)
  {
    hide Plain, Submit, LoopStep, StepEnd, CancelStore, RetryStore, Release, Rehydrated, Snapshot, Remove, PickGuard,
      RetryPlainGuard, NothingFetched, NoneLost, QueuesMatch, TicketsMatch, GoodStore;
    match a
    case DoSubmit(input, now) => SubmitPlainExactly(w, input, now);
    case DoLoop(r) => LoopPlain(w, r);
    case DoStepEnd(r, replies) => StepEndPlain(w, r, replies);
    case DoCancel(id) => if id in w.store.orders { CancelPlain(w.store, id); }
    case DoRetry(id, resetOk) => if id in w.store.orders { RetryPlainExactly(w.store, id); }
    case DoRelease(c) => ReleasePlain(w.store, c);
    case DoPause(r, paused) =>
    case DoRestart(config) => RestartPlainExactly(config, w.saved, w.nextId);
  }

  lemma ReleasePlain(st: Store, c: Location)
    ensures Plain(Release(st, c)) <==> Plain(st)
  {
  }

  // ---------- runs ----------

  ghost predicate PlainRun(w: World, run: seq<Action>)
    decreases |run|
  {
    run == [] ||
    (var before, a := run[..|run| - 1], run[|run| - 1];
     PlainRun(w, before) && PlainGuard(Exec(w, before), a) && (a.DoCancel? ==> OneBoxGuard(Exec(w, before), a)))
  }

  /** When requests keep PICKs plain, a run needs no guard but the one on canceling PUTs for one box per source. */
  lemma {:induction false} PlainRequestsSuffice(config: seq<Location>, maxRetries: nat, run: seq<Action>)
    requires PlainRun(Initial(config, maxRetries), run)
    ensures OneBoxRun(Initial(config, maxRetries), run)
    ensures var w := Exec(Initial(config, maxRetries), run); Plain(w.store) && Plain(w.saved)
    decreases |run|
  {
    if run == [] {
      Rehydration.ConfiguredMeaning(config);
    } else {
      var before, a := run[..|run| - 1], run[|run| - 1];
      PlainRequestsSuffice(config, maxRetries, before);
      ReachableConsistent(config, maxRetries, before);
      hide Plain, Consistent, Next, Initial, PlainGuard, Snapshot;
      var w := Exec(Initial(config, maxRetries), before);
      if a.DoLoop? { PlainStarts(w, a.robot); }
      NextPlainExactly(w, a);
      NextSaves(w, a);
      SnapshotPlain(Next(w, a).store);
    }
  }

  lemma SnapshotPlain(st: Store)
    requires Plain(st)
    ensures Plain(Snapshot(st))
  {
  }
}
