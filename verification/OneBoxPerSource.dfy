/** At most one OCUPADO slot holds a box from a given source location. */
module OneBoxPerSource {
  import opened Sequences
  import opened Location
  import opened Domain
  import opened Queues
  import opened Orchestrator
  import opened NoLostOrders
  import Rehydration
  import opened Submission
  import opened Ownership
  import opened SlotStatuses

  ghost predicate SingleBox(st: Store) {
    forall c, d, source :: HoldsBoxFrom(st.slots, c, source) && HoldsBoxFrom(st.slots, d, source) ==> c == d
  }

  /** A physical PICK on its way. */
  predicate Fetches(o: Order) { o.kind == Pick && !Logical(o) && o.status == InProgress }

  /** No slot holds a box from this source. */
  ghost predicate NoBoxFrom(st: Store, source: Location) {
    forall c :: !HoldsBoxFrom(st.slots, c, source)
  }

  /** No other order fetches from this source. */
  ghost predicate NoOtherFetch(st: Store, id: OrderId, source: Location) {
    forall k :: k in st.orders && Fetches(st.orders[k]) && st.orders[k].location == source ==> k == id
  }

  /** While a PICK fetches a box, no slot holds one from there and no other PICK fetches one. */
  ghost predicate FetchesAlone(st: Store) {
    forall id :: id in st.orders && Fetches(st.orders[id]) ==>
      NoBoxFrom(st, st.orders[id].location) && NoOtherFetch(st, id, st.orders[id].location)
  }

  ghost predicate OneBox(st: Store) { SingleBox(st) && FetchesAlone(st) }

  /** No slot gains a box, and order id does not start fetching where a box stands or another order fetches. */
  lemma NoBoxGained(st: Store, st': Store, id: OrderId)
    requires OneBox(st) && id in st'.orders && st'.orders == st.orders[id := st'.orders[id]]
    requires forall c, source :: HoldsBoxFrom(st'.slots, c, source) ==> HoldsBoxFrom(st.slots, c, source)
    requires Fetches(st'.orders[id]) ==>
        (id in st.orders && Fetches(st.orders[id]) && st'.orders[id].location == st.orders[id].location)
        || (NoBoxFrom(st', st'.orders[id].location) && NoOtherFetch(st, id, st'.orders[id].location))
    ensures OneBox(st')
  {
    hide HoldsBoxFrom, Fetches;
    forall k | k in st'.orders && Fetches(st'.orders[k])
      ensures NoBoxFrom(st', st'.orders[k].location) && NoOtherFetch(st', k, st'.orders[k].location)
    {
      if k != id { assert Fetches(st.orders[k]); }
    }
  }

  // ---------- what one pass does to the boxes ----------

  /** The slot of a PICK on its first step is marked and so shows no box; no other slot changes. */
  lemma BeginBoxes(st: Store, id: OrderId)
    requires id in st.orders && !Logical(st.orders[id])
    ensures var s, o := BeginStore(st, id), st.orders[id];
            && id in s.orders && s.orders == st.orders[id := s.orders[id]] && SameRecord(o, s.orders[id])
            && s.orders[id].status == InProgress && s.orders[id].stepIndex == o.stepIndex
            && s.orders[id].steps == o.steps
            && s.slots.Keys == st.slots.Keys
            && (forall c, source :: HoldsBoxFrom(s.slots, c, source) <==>
                  HoldsBoxFrom(st.slots, c, source) && !(o.stepIndex == 0 && o.slot == Some(c)))
  {
  }

  /** A finishing PICK leaves its own box in its own slot, a finishing PUT none; the other slots keep theirs. */
  lemma FinishBoxes(st: Store, id: OrderId)
    requires id in st.orders
    ensures var s, o := FinishStore(st, id), st.orders[id];
            && id in s.orders && s.orders == st.orders[id := s.orders[id]] && s.orders[id] == o.(status := Done)
            && (forall c, source :: HoldsBoxFrom(s.slots, c, source) <==>
                  if o.slot == Some(c) && c in st.slots then o.kind == Pick && source == o.location
                  else HoldsBoxFrom(st.slots, c, source))
  {
  }

  /** A slot given to a PICK held no box. */
  lemma AssignBoxes(st: Store, id: OrderId)
    requires Keyed(st) && id in st.orders && AssignStore(st, id).Some?
    ensures var s, o := AssignStore(st, id).value, st.orders[id];
            && id in s.orders && s.orders == st.orders[id := s.orders[id]]
            && s.orders[id] == o.(slot := s.orders[id].slot, waiting := false)
            && s.orders[id].slot.Some? && s.orders[id].slot.value in st.slots && s.slots.Keys == st.slots.Keys
            && (forall source :: !HoldsBoxFrom(st.slots, s.orders[id].slot.value, source))
            && (forall c, source :: HoldsBoxFrom(s.slots, c, source) <==> HoldsBoxFrom(st.slots, c, source))
  {
    AssignedSlotIsNearest(st, id);
    hide ListAvailableSlots;
  }

  // ---------- when a PICK may set out ----------

  /** The pass starts the order, or finishes it at once in a slot there is. */
  predicate SetsOutWithSlot(st: Store, o: Order) {
    && o.kind == Pick && !Logical(o) && o.status == Pending && o.slot.Some?
    && (o.stepIndex < |o.steps| || o.slot.value in st.slots)
  }

  /** No box from its source stands, but for one in its own slot that its first step or its end replaces, and no other
      PICK is fetching from there. */
  ghost predicate WayIsFree(st: Store, id: OrderId)
    requires id in st.orders
  {
    var o := st.orders[id];
    && (forall c :: HoldsBoxFrom(st.slots, c, o.location) ==>
          o.slot == Some(c) && (o.stepIndex == 0 || o.stepIndex >= |o.steps|))
    && NoOtherFetch(st, id, o.location)
  }

  /** What a pass needs: a PICK that names its slot sets out only when its way is free, one without a slot only when no
      other PICK fetches from there (if its box stands, it joins it). */
  ghost predicate StartGuard(st: Store, id: OrderId)
    requires id in st.orders
  {
    var o := st.orders[id];
    && (SetsOutWithSlot(st, o) ==> WayIsFree(st, id))
    && (o.kind == Pick && !Logical(o) && o.slot.None? && NoBoxFrom(st, o.location)
        && (exists c :: FreeOnSide(st, o.location, c))
        ==> NoOtherFetch(st, id, o.location))
  }

  /** A started order, not at its end. */
  lemma BeginExactly(st: Store, id: OrderId)
    requires OneBox(st) && id in st.orders && !Logical(st.orders[id])
    requires st.orders[id].status == Pending && st.orders[id].stepIndex < |st.orders[id].steps|
    ensures OneBox(BeginStore(st, id)) <==> (st.orders[id].kind == Pick ==> WayIsFree(st, id))
  {
    hide BeginStore, HoldsBoxFrom, Logical;
    BeginBoxes(st, id);
    var o, s := st.orders[id], BeginStore(st, id);
    if o.kind == Pick ==> WayIsFree(st, id) {
      NoBoxGained(st, s, id);
    } else if k :| k in st.orders && Fetches(st.orders[k]) && st.orders[k].location == o.location && k != id {
      assert Fetches(s.orders[k]) && Fetches(s.orders[id]);
    } else {
      var c :| HoldsBoxFrom(st.slots, c, o.location) && !(o.slot == Some(c) && o.stepIndex == 0);
      assert HoldsBoxFrom(s.slots, c, o.location) && Fetches(s.orders[id]);
    }
  }

  /** An order finished by the pass that would have started it. */
  lemma FinishExactly(st: Store, id: OrderId)
    requires OneBox(st) && id in st.orders && !Logical(st.orders[id]) && st.orders[id].slot.Some?
    requires st.orders[id].status == Pending && 0 < st.orders[id].stepIndex
    requires |st.orders[id].steps| <= st.orders[id].stepIndex
    ensures OneBox(FinishStore(BeginStore(st, id), id)) <==> (SetsOutWithSlot(st, st.orders[id]) ==> WayIsFree(st, id))
  {
    hide BeginStore, FinishStore, HoldsBoxFrom, Logical;
    BeginBoxes(st, id);
    var o, s := st.orders[id], BeginStore(st, id);
    FinishBoxes(s, id);
    var v, x := FinishStore(s, id), o.slot.value;
    assert v.orders == st.orders[id := v.orders[id]] && v.orders[id].status == Done;
    assert forall c, source :: HoldsBoxFrom(v.slots, c, source) <==>
             if c == x && c in st.slots then o.kind == Pick && source == o.location
             else HoldsBoxFrom(st.slots, c, source);
    if SetsOutWithSlot(st, o) && !WayIsFree(st, id) {
      assert HoldsBoxFrom(v.slots, x, o.location);
      if k :| k in st.orders && Fetches(st.orders[k]) && st.orders[k].location == o.location && k != id {
        assert Fetches(v.orders[k]);
      } else {
        var c :| HoldsBoxFrom(st.slots, c, o.location) && o.slot != Some(c);
        assert HoldsBoxFrom(v.slots, c, o.location);
      }
    } else {
      LeftAlone(st, v, id, x);
    }
  }

  /** Order id is done; its slot x now shows its own box, if it is a PICK and the slot is there, and nothing else from
      that source stands or is fetched. */
  lemma LeftAlone(st: Store, v: Store, id: OrderId, x: Location)
    requires OneBox(st) && id in st.orders && id in v.orders && v.orders == st.orders[id := v.orders[id]]
    requires !Fetches(v.orders[id])
    requires var o := st.orders[id];
             forall c, source :: HoldsBoxFrom(v.slots, c, source) <==>
               if c == x && c in st.slots then o.kind == Pick && source == o.location
               else HoldsBoxFrom(st.slots, c, source)
    requires var o := st.orders[id];
             o.kind == Pick && x in st.slots ==>
               && (forall c :: HoldsBoxFrom(st.slots, c, o.location) ==> c == x)
               && NoOtherFetch(st, id, o.location)
    ensures OneBox(v)
  {
    hide HoldsBoxFrom, Fetches;
    forall k | k in v.orders && Fetches(v.orders[k])
      ensures NoBoxFrom(v, v.orders[k].location) && NoOtherFetch(v, k, v.orders[k].location)
    {
      assert k != id && v.orders[k] == st.orders[k];
      assert NoBoxFrom(st, st.orders[k].location) && NoOtherFetch(st, k, st.orders[k].location);
    }
  }

  /** An order already running. */
  lemma RunningOneBox(st: Store, id: OrderId)
    requires OneBox(st) && id in st.orders && !Logical(st.orders[id]) && st.orders[id].slot.Some?
    requires st.orders[id].status == InProgress
    ensures OneBox(RunStore(st, id).store)
  {
    hide BeginStore, FinishStore, HoldsBoxFrom, Logical, LiftCommand;
    BeginBoxes(st, id);
    var s := BeginStore(st, id);
    NoBoxGained(st, s, id);
    FinishBoxes(s, id);
    if s.orders[id].kind == Pick { assert Fetches(s.orders[id]); }
    if s.orders[id].stepIndex >= |s.orders[id].steps| { LeftAlone(s, FinishStore(s, id), id, s.orders[id].slot.value); }
  }

  lemma RunExactly(st: Store, id: OrderId)
    requires OneBox(st) && id in st.orders && !Logical(st.orders[id]) && st.orders[id].slot.Some?
    requires st.orders[id].status in {Pending, InProgress} && st.orders[id].steps == BuildSteps(st.orders[id].kind)
    ensures OneBox(RunStore(st, id).store) <==> (SetsOutWithSlot(st, st.orders[id]) ==> WayIsFree(st, id))
  {
    hide BeginStore, FinishStore, Logical, OneBox, WayIsFree;
    if st.orders[id].status == InProgress {
      RunningOneBox(st, id);
    } else {
      BeginBoxes(st, id);
      if st.orders[id].stepIndex < |st.orders[id].steps| { BeginExactly(st, id); } else { FinishExactly(st, id); }
    }
  }

  /** A PICK given its slot by this very pass, its box standing nowhere. */
  lemma AssignedExactly(st: Store, id: OrderId)
    requires Keyed(st) && OneBox(st) && id in st.orders && WellShaped(st.orders[id])
    requires var o := st.orders[id];
             o.kind == Pick && !Logical(o) && o.slot.None? && o.status == Pending && NoBoxFrom(st, o.location)
    requires AssignStore(st, id).Some?
    ensures OneBox(RunStore(AssignStore(st, id).value, id).store) <==> NoOtherFetch(st, id, st.orders[id].location)
  {
    hide AssignStore, RunStore, HoldsBoxFrom;
    AssignBoxes(st, id);
    var s := AssignStore(st, id).value;
    NoBoxGained(st, s, id);
    RunExactly(s, id);
    assert SetsOutWithSlot(s, s.orders[id]);
    SameFetchers(st, s, id, st.orders[id].location);
  }

  lemma SameFetchers(st: Store, s: Store, id: OrderId, source: Location)
    requires id in st.orders && id in s.orders && s.orders == st.orders[id := s.orders[id]]
    ensures NoOtherFetch(s, id, source) <==> NoOtherFetch(st, id, source)
  {
    hide Fetches;
    assert forall k :: k in st.orders && k != id ==> s.orders[k] == st.orders[k];
  }

  lemma ConvertOneBox(st: Store, id: OrderId)
    requires Keyed(st) && OneBox(st) && id in st.orders && WellShaped(st.orders[id])
    ensures var s, o := ConvertStore(st, id), st.orders[id];
            && OneBox(s) && id in s.orders
            && (if o.kind == Pick && !Logical(o) && o.slot.None? && !NoBoxFrom(st, o.location)
                then Logical(s.orders[id])
                else s == st)
  {
    hide FindOccupiedBySource;
    FindOccupiedMeaning(st, st.orders[id].location);
    NoBoxGained(st, ConvertStore(st, id), id);
  }

  /** A pass keeps the property exactly when its guard holds. */
  lemma ProcessExactly(st: Store, id: OrderId)
    requires Keyed(st) && OneBox(st) && id in st.orders && WellShaped(st.orders[id])
    requires st.orders[id].slot.None? ==> st.orders[id].status != Canceled
    ensures OneBox(ProcessStore(st, id).store) <==> StartGuard(st, id)
  {
    hide ProcessStore, ConvertStore, AssignStore, RunStore, OneBox, Keyed, HoldsBoxFrom, FreeOnSide, WayIsFree,
      NoOtherFetch;
    ConvertOneBox(st, id);
    ProcessCases(st, id);
    AssignedSlotIsNearest(st, id);
    var s, o := ConvertStore(st, id), ConvertStore(st, id).orders[id];
    if !Terminal(o) {
      if Logical(o) {
        NoBoxGained(s, WithOrder(s, id, o.(status := Done)), id);
      } else if o.kind == Pick && o.slot.None? {
        if AssignStore(st, id).Some? {
          AssignedExactly(st, id);
        } else {
          NoBoxGained(st, WithOrder(st, id, o.(status := Pending, waiting := true)), id);
        }
      } else {
        RunExactly(st, id);
      }
    }
  }

  // ---------- the other actions ----------

  /** No slot holds a box it did not hold before. */
  ghost predicate NoneGained(st: Store, st': Store) {
    forall c, source :: HoldsBoxFrom(st'.slots, c, source) ==> HoldsBoxFrom(st.slots, c, source)
  }

  lemma AdmitPickGainsNoBox(st: Store, id: OrderId, now: nat, ext: ExternalId, robot: RobotId, l: Location,
                            target: Option<Location>, s: Option<Location>)
    ensures var res := AdmitPick(st, id, now, ext, robot, l, target, s); res.Created? ==> NoneGained(st, res.store)
  {
    hide FindOccupiedBySource, NewOrder;
  }

  lemma AdmitPutGainsNoBox(st: Store, id: OrderId, now: nat, ext: ExternalId, robot: RobotId, l: Location,
                           target: Option<Location>)
    ensures var res := AdmitPut(st, id, now, ext, robot, l, target); res.Created? ==> NoneGained(st, res.store)
  {
    hide NewOrder;
  }

  lemma SubmitGainsNoBox(st: Store, input: SubmitInput, id: OrderId, now: nat)
    ensures var res := SubmitStore(st, input, id, now); res.Created? ==> NoneGained(st, res.store)
  {
    hide SubmitStore, Parse, AdmitPick, AdmitPut, NoneGained;
    SubmitCases(st, input, id, now);
    var res := SubmitStore(st, input, id, now);
    if res.Created? {
      var l, o := Parse(input.locationCode).value.location, res.order;
      if o.kind == Pick {
        AdmitPickGainsNoBox(st, id, now, input.id, o.robot, l, o.target, SlotOverride(input));
      } else {
        AdmitPutGainsNoBox(st, id, now, input.id, o.robot, l, o.target);
      }
    }
  }

  lemma SubmitOneBox(w: World, input: SubmitInput, now: nat)
    requires Consistent(w) && OneBox(w.store)
    ensures OneBox(Submit(w, input, now).store)
  {
    hide OneBox, SubmitStore, NoneLost, QueuesMatch, TicketsMatch, UniqueExternalIds, WellShaped, Snapshot,
      HoldsBoxFrom;
    SubmitAdds(w.store, input, w.nextId, now);
    SubmitGainsNoBox(w.store, input, w.nextId, now);
    var res := SubmitStore(w.store, input, w.nextId, now);
    if res.Created? { NoBoxGained(w.store, res.store, w.nextId); }
  }

  /** The box a canceled PUT puts back: nothing else may stand or be fetched from the same source. */
  predicate PutCancelGuard(st: Store, id: OrderId)
    requires id in st.orders
  {
    var o := st.orders[id];
    o.kind == Put && o.slot.Some? && o.slot.value in st.slots && st.slots[o.slot.value].owner == Some(id)
    && st.slots[o.slot.value].box.Some? ==>
      var source := st.slots[o.slot.value].box.value.source;
      && (forall c :: c in st.slots && c != o.slot.value ==> !HoldsBoxFrom(st.slots, c, source))
      && (forall k :: k in st.orders && Fetches(st.orders[k]) ==> st.orders[k].location != source)
  }

  lemma CancelOneBox(st: Store, id: OrderId)
    requires OneBox(st) && id in st.orders && PutCancelGuard(st, id)
    ensures OneBox(CancelStore(st, id))
  {
    var o, st' := st.orders[id], CancelStore(st, id);
    if o.kind == Put && o.slot.Some? && o.slot.value in st.slots && st.slots[o.slot.value].owner == Some(id) {
      CancelPutOneBox(st, id, o.slot.value);
    } else {
      NoBoxGained(st, st', id);
    }
  }

  /** What canceling a PUT that owns its slot does: its slot stands again, its order no longer counts. */
  lemma CancelPutShape(st: Store, id: OrderId, x: Location)
    requires id in st.orders && st.orders[id].kind == Put && st.orders[id].slot == Some(x) && x in st.slots
    requires st.slots[x].owner == Some(id)
    ensures var st' := CancelStore(st, id);
            st'.orders == st.orders[id := st.orders[id].(status := Canceled)]
            && st'.slots == st.slots[x := st.slots[x].(status := Occupied)]
  {
  }

  lemma CancelPutSingle(st: Store, st': Store, x: Location)
    requires SingleBox(st) && x in st.slots && st'.slots == st.slots[x := st.slots[x].(status := Occupied)]
    requires st.slots[x].box.Some? ==> forall c :: c in st.slots && c != x ==>
        !HoldsBoxFrom(st.slots, c, st.slots[x].box.value.source)
    ensures SingleBox(st')
    ensures forall source ::
              NoBoxFrom(st, source) && (st.slots[x].box.Some? ==> st.slots[x].box.value.source != source) ==>
                NoBoxFrom(st', source)
  {
    assert forall c, source :: HoldsBoxFrom(st'.slots, c, source) && c != x ==> HoldsBoxFrom(st.slots, c, source);
    assert forall source :: HoldsBoxFrom(st'.slots, x, source) ==>
        st.slots[x].box.Some? && source == st.slots[x].box.value.source;
  }

  lemma CancelPutOneBox(st: Store, id: OrderId, x: Location)
    requires OneBox(st) && id in st.orders && PutCancelGuard(st, id)
    requires st.orders[id].kind == Put && st.orders[id].slot == Some(x) && x in st.slots
    requires st.slots[x].owner == Some(id)
    ensures OneBox(CancelStore(st, id))
  {
    hide CancelStore, Logical, HoldsBoxFrom, SingleBox, NoBoxFrom;
    CancelPutShape(st, id, x);
    CancelPutSingle(st, CancelStore(st, id), x);
  }

  /** Exactly: a PUT that owns its slot and is canceled keeps the property if and only if the guard holds. */
  lemma CancelPutExactly(st: Store, id: OrderId)
    requires OneBox(st) && id in st.orders
    ensures OneBox(CancelStore(st, id)) <==> PutCancelGuard(st, id)
  {
    if PutCancelGuard(st, id) {
      CancelOneBox(st, id);
    } else {
      var x := st.orders[id].slot.value;
      var source := st.slots[x].box.value.source;
      var st' := CancelStore(st, id);
      assert HoldsBoxFrom(st'.slots, x, source);
      if c :| c in st.slots && c != x && HoldsBoxFrom(st.slots, c, source) {
        assert HoldsBoxFrom(st'.slots, c, source);
      } else {
        var k :| k in st.orders && Fetches(st.orders[k]) && st.orders[k].location == source;
        assert st'.orders[k] == st.orders[k];
      }
    }
  }

  lemma ReleaseOneBox(st: Store, c: Location)
    requires OneBox(st)
    ensures OneBox(Release(st, c))
  {
    assert forall d, source :: HoldsBoxFrom(Release(st, c).slots, d, source) ==> HoldsBoxFrom(st.slots, d, source);
  }

  lemma StepDoneOneBox(st: Store, t: Order)
    requires OneBox(st)
    ensures OneBox(StepDoneStore(st, t))
  {
    if t.id in st.orders { NoBoxGained(st, StepDoneStore(st, t), t.id); }
  }

  lemma StepFailedOneBox(st: Store, t: Order)
    requires OneBox(st) && t.id in st.orders
    ensures OneBox(StepFailedStore(st, t))
  {
    NoBoxGained(st, StepFailedStore(st, t), t.id);
  }

  /** Asked for again, an order waits for its turn. */
  lemma RetryOneBox(st: Store, id: OrderId)
    requires OneBox(st) && id in st.orders
    ensures OneBox(RetryStore(st, id))
  {
    NoBoxGained(st, RetryStore(st, id), id);
  }

  lemma FewerBoxesSingle(a: Store, b: Store)
    requires SingleBox(a)
    requires forall c :: c in b.slots ==> b.slots[c] == FreshSlot || (c in a.slots && b.slots[c] == a.slots[c])
    ensures SingleBox(b)
  {
    assert forall c, source :: HoldsBoxFrom(b.slots, c, source) ==> HoldsBoxFrom(a.slots, c, source);
  }

  /** After a restart no order is under way. */
  lemma RestartOneBox(config: seq<Location>, saved: Store, n: OrderId)
    requires GoodStore(saved, n) && OneBox(saved)
    ensures OneBox(Rehydrated(config, saved).0)
  {
    hide Rehydrated, WellShaped, UniqueExternalIds, HoldsBoxFrom;
    Rehydration.RehydratedStore(config, saved);
    var st := Rehydrated(config, saved).0;
    FewerBoxesSingle(saved, st);
    forall id | id in st.orders ensures !Fetches(st.orders[id]) { assert id in saved.orders.Keys; }
  }

  // ---------- one action, exactly ----------

  lemma LoopOneBoxExactly(w: World, r: RobotId)
    requires Consistent(w) && OneBox(w.store)
    ensures OneBox(LoopStep(w, r).store) <==> OneBoxGuard(w, DoLoop(r))
  {
    hide LoopStep, ProcessStore, OneBox, StartGuard;
    LoopStepStore(w, r);
    if r !in w.inStep && NextOrder(w, r).Some? {
      var id := NextOrder(w, r).value;
      TakeNextKnown(w, r, id);
      ProcessExactly(w.store, id);
    }
  }

  lemma StepEndOneBox(w: World, r: RobotId, replies: seq<StepReply>)
    requires Consistent(w) && OneBox(w.store)
    ensures OneBox(StepEnd(w, r, replies).store)
  {
    StepEndStore(w, r, replies);
    if r in w.inStep {
      assert TicketMatches(w, r, w.inStep[r]);
      hide StepEnd, RunStep, OneBox, Consistent;
      StepDoneOneBox(w.store, w.inStep[r]);
      StepFailedOneBox(w.store, w.inStep[r]);
    }
  }

  /** Two actions need a guard: the loop when a PICK sets out, and the cancel of a PUT. */
  ghost predicate OneBoxGuard(w: World, a: Action) {
    match a
    case DoLoop(r) =>
      r !in w.inStep && NextOrder(w, r).Some? && NextOrder(w, r).value in w.store.orders ==>
        StartGuard(w.store, NextOrder(w, r).value)
    case DoCancel(id) => id in w.store.orders ==> PutCancelGuard(w.store, id)
    case _ => true
  }

  /** For every action from a state with the property in tables and snapshot: it is kept if and only if the guard
      holds. */
  lemma NextOneBoxExactly(w: World, a: Action)
    requires Consistent(w) && OneBox(w.store) && OneBox(w.saved)
    ensures OneBox(Next(w, a).store) <==> OneBoxGuard(w, a)
  {
    hide OneBox, Submit, LoopStep, StepEnd, CancelStore, RetryStore, Release, Rehydrated, Snapshot, Remove,
      PutCancelGuard, NoneLost, QueuesMatch, TicketsMatch, GoodStore, StartGuard;
    match a
    case DoSubmit(input, now) => SubmitOneBox(w, input, now);
    case DoLoop(r) => LoopOneBoxExactly(w, r);
    case DoStepEnd(r, replies) => StepEndOneBox(w, r, replies);
    case DoCancel(id) => if id in w.store.orders { CancelPutExactly(w.store, id); }
    case DoRetry(id, resetOk) => if id in w.store.orders { RetryOneBox(w.store, id); }
    case DoRelease(c) => ReleaseOneBox(w.store, c);
    case DoPause(r, paused) =>
    case DoRestart(config) => RestartOneBox(config, w.saved, w.nextId);
  }

  ghost predicate OneBoxRun(w: World, run: seq<Action>)
    decreases |run|
  {
    run == [] || (OneBoxRun(w, run[..|run| - 1]) && OneBoxGuard(Exec(w, run[..|run| - 1]), run[|run| - 1]))
  }

  /** In every run of guarded actions no two OCUPADO slots hold boxes from the same source, and none does while a PICK
      is fetching from it. */
  lemma {:induction false} OneOccupiedSlotPerSource(config: seq<Location>, maxRetries: nat, run: seq<Action>)
    requires OneBoxRun(Initial(config, maxRetries), run)
    ensures var w := Exec(Initial(config, maxRetries), run); OneBox(w.store) && OneBox(w.saved)
    decreases |run|
  {
    if run == [] {
      Rehydration.ConfiguredMeaning(config);
    } else {
      var before, a := run[..|run| - 1], run[|run| - 1];
      OneOccupiedSlotPerSource(config, maxRetries, before);
      ReachableConsistent(config, maxRetries, before);
      hide OneBox, Consistent, Next, Initial, OneBoxGuard, Snapshot;
      var w := Exec(Initial(config, maxRetries), before);
      NextOneBoxExactly(w, a);
      NextSaves(w, a);
      SnapshotOneBox(Next(w, a).store);
    }
  }

  lemma SnapshotOneBox(st: Store)
    requires OneBox(st)
    ensures OneBox(Snapshot(st))
  {
    assert forall c, source :: HoldsBoxFrom(Snapshot(st).slots, c, source) ==> HoldsBoxFrom(st.slots, c, source);
  }

  /** At the end of a PICK itself: one box per source is kept exactly when no other slot holds one from its source.
      A retry of a PICK that keeps its slot, after another PICK has brought the box elsewhere, misses it
      (`RetriedPickMakesTwoBoxes` in `Witnesses` is such a run). */
  lemma FinishPickExactly(st: Store, id: OrderId)
    requires SingleBox(st) && id in st.orders && st.orders[id].kind == Pick
    requires st.orders[id].slot.Some? && st.orders[id].slot.value in st.slots
    ensures SingleBox(FinishStore(st, id)) <==>
            forall c :: c in st.slots && c != st.orders[id].slot.value ==>
                !HoldsBoxFrom(st.slots, c, st.orders[id].location)
  {
    var x, source, st' := st.orders[id].slot.value, st.orders[id].location, FinishStore(st, id);
    assert HoldsBoxFrom(st'.slots, x, source);
    if c :| c in st.slots && c != x && HoldsBoxFrom(st.slots, c, source) {
      assert HoldsBoxFrom(st'.slots, c, source);
    } else {
      forall c, d, s | HoldsBoxFrom(st'.slots, c, s) && HoldsBoxFrom(st'.slots, d, s) ensures c == d {
        assert c != x ==> HoldsBoxFrom(st.slots, c, s);
        assert d != x ==> HoldsBoxFrom(st.slots, d, s);
      }
    }
  }
}
