/** A submission is all or nothing: it is refused and nothing changes, it returns the order already known
    under its external id, or it adds one order and one queue entry. */
module Submission {
  import opened Sequences
  import opened Location
  import opened LocationText
  import opened Domain
  import opened Queues
  import opened Orchestrator
  import opened Rehydration
  import opened NoLostOrders

  /** Only the slot the order is given may differ. */
  ghost predicate OnlySlotOf(st: Store, st': Store, o: Order) {
    && st'.slots.Keys == st.slots.Keys
    && forall c :: c in st.slots && o.slot != Some(c) ==> st'.slots[c] == st.slots[c]
  }

  lemma AdmitPickSlots(st: Store, id: OrderId, now: nat, ext: ExternalId, robot: RobotId, l: Location,
                       target: Option<Location>, s: Option<Location>)
    requires Keyed(st)
    ensures var res := AdmitPick(st, id, now, ext, robot, l, target, s); OnlySlotOf(st, res.store, res.order)
  {
    FindOccupiedMeaning(st, l);
    hide FindOccupiedBySource;
  }

  lemma AdmitPutSlots(st: Store, id: OrderId, now: nat, ext: ExternalId, robot: RobotId, l: Location,
                      target: Option<Location>)
    ensures var res := AdmitPut(st, id, now, ext, robot, l, target);
            res.Created? ==> OnlySlotOf(st, res.store, res.order)
  {
  }

  lemma SubmitSlots(st: Store, input: SubmitInput, id: OrderId, now: nat)
    requires Keyed(st)
    ensures var res := SubmitStore(st, input, id, now); res.Created? ==> OnlySlotOf(st, res.store, res.order)
  {
    hide SubmitStore, AdmitPick, AdmitPut, Keyed, OnlySlotOf, Parse, FindByExternalId;
    SubmitCases(st, input, id, now);
    var res := SubmitStore(st, input, id, now);
    if res.Created? {
      var l, o := Parse(input.locationCode).value.location, res.order;
      if o.kind == Pick {
        AdmitPickSlots(st, id, now, input.id, o.robot, l, o.target, SlotOverride(input));
      } else {
        AdmitPutSlots(st, id, now, input.id, o.robot, l, o.target);
      }
    }
  }

  ghost predicate KnownId(st: Store, ext: int) { exists k :: k in st.orders && st.orders[k].externalId == Some(ext) }

  /** A known id answers for a request whose type and id are valid, and only for such a one. */
  lemma ExistingExactly(st: Store, input: SubmitInput, id: OrderId, now: nat)
    requires Keyed(st)
    ensures SubmitStore(st, input, id, now).Existing? <==>
            ParseKind(input.kind).Some? && input.id.Given? && KnownId(st, input.id.value)
  {
    hide AdmitPick, AdmitPut, Parse, HasActionSuffix, ParseKind, FindByExternalId;
    if input.id.Given? { FindByExternalMeaning(st, input.id.value); }
    AdmitNeverExisting();
  }

  lemma AdmitNeverExisting()
    ensures forall st, id, now, ext, robot, l, target, s :: AdmitPick(st, id, now, ext, robot, l, target, s).Created?
    ensures forall st, id, now, ext, robot, l, target :: !AdmitPut(st, id, now, ext, robot, l, target).Existing?
  {
    hide FindOccupiedBySource;
  }

  /** One more id at the end of the robot's queue; every other queue as it was. */
  ghost predicate OneMoreQueued(qs: QueueTable, qs': QueueTable, o: Order) {
    forall r :: QueueOf(qs', r) == if r == o.robot then QueueOf(qs, r).(items := QueueOf(qs, r).items + [o.id])
        else QueueOf(qs, r)
  }

  ghost predicate AllOrNothing(w: World, input: SubmitInput, res: SubmitResult, w': World) {
    match res
    case Refused(_) => w' == w
    case Existing(id) => w' == w && input.id.Given? && id in w.store.orders
                         && w.store.orders[id].externalId == Some(input.id.value)
    case Created(_, o) =>
      && o.id !in w.store.orders && w'.store.orders == w.store.orders[o.id := o] && OnlySlotOf(w.store, w'.store, o)
      && (input.id.Given? ==> !KnownId(w.store, input.id.value) && o.externalId == Some(input.id.value))
      && OneMoreQueued(w.queues, w'.queues, o)
  }

  lemma SubmitAllOrNothing(w: World, input: SubmitInput, now: nat)
    requires GoodStore(w.store, w.nextId)
    ensures AllOrNothing(w, input, SubmitStore(w.store, input, w.nextId, now), Submit(w, input, now))
  {
    hide SubmitStore, OnlySlotOf, Snapshot, UniqueExternalIds, WellShaped;
    SubmitSlots(w.store, input, w.nextId, now);
    SubmitAdds(w.store, input, w.nextId, now);
    SubmitKeepsGood(w.store, input, w.nextId, now);
  }

  /** Submission is atomic and idempotent in every reachable state, and the external id stays unique after it. */
  lemma SubmissionIsAtomic(config: seq<Location>, maxRetries: nat, run: seq<Action>, input: SubmitInput, now: nat)
    ensures var w := Exec(Initial(config, maxRetries), run);
            && AllOrNothing(w, input, SubmitStore(w.store, input, w.nextId, now), Submit(w, input, now))
            && UniqueExternalIds(Submit(w, input, now).store.orders)
  {
    hide Exec, SubmitStore, AllOrNothing, Submit;
    ReachableConsistent(config, maxRetries, run);
    var w := Exec(Initial(config, maxRetries), run);
    NextConsistent(w, DoSubmit(input, now));
    SubmitAllOrNothing(w, input, now);
  }

  // ---------- which requests create an order, and which order ----------

  /** The location, the target and the slot code all read as locations, the first with no action letter. */
  predicate ReadableCodes(input: SubmitInput) {
    && Parse(input.locationCode).Some? && Parse(input.locationCode).value.action.None?
    && (input.targetLocation == "" || Parse(input.targetLocation).Some?)
    && (input.slotLocationCode == "" || Parse(input.slotLocationCode).Some?)
  }

  /** No type means PICK; the case of its letters does not matter. */
  predicate AsksPick(kind: string) { kind == "" || Recased(kind, "PICK") }

  predicate AsksPut(kind: string) { Recased(kind, "PUT") }

  ghost predicate ValidRequest(st: Store, input: SubmitInput) {
    && (AsksPick(input.kind) || AsksPut(input.kind))
    && !input.id.NotInteger? && (input.id.Given? ==> !KnownId(st, input.id.value))
    && ReadableCodes(input)
    && (AsksPut(input.kind) ==> Parse(input.locationCode).value.location in st.slots)
  }

  /** What the created order is, as asked for. */
  predicate AsRequested(o: Order, input: SubmitInput, id: OrderId, now: nat)
    requires ReadableCodes(input)
  {
    var l := Parse(input.locationCode).value.location;
    && o.id == id && o.status == Pending && o.stepIndex == 0 && o.createdAt == now
    && (o.kind == Put <==> AsksPut(input.kind))
    && o.externalId == (if input.id.Given? then Some(input.id.value) else None)
    && o.location == l
    && o.target == (if input.targetLocation == "" then None else Some(Parse(input.targetLocation).value.location))
    && o.robot == (if input.robotId != "" then input.robotId else if l.shelf == "3X" then "1" else l.shelf)
  }

  /** How the type is read. */
  lemma KindExactly(kind: string)
    ensures ParseKind(kind).Some? <==> AsksPick(kind) || AsksPut(kind)
    ensures ParseKind(kind) == Some(Pick) <==> AsksPick(kind)
    ensures ParseKind(kind) == Some(Put) <==> AsksPut(kind)
  {
    RecasedMeaning(kind, "PICK");
    RecasedMeaning(kind, "PUT");
    RecasedMeaning("PICK", "PICK");
    hide Upper, SameLetter;
  }

  lemma AdmittedAsAsked(st: Store, id: OrderId, now: nat, ext: ExternalId, robot: RobotId, l: Location,
                        target: Option<Location>, s: Option<Location>)
    ensures var res := AdmitPick(st, id, now, ext, robot, l, target, s);
            && res.Created? && res.order.kind == Pick && Built(res.order, id, now, ext, robot, l, target)
    ensures var res := AdmitPut(st, id, now, ext, robot, l, target);
            && (res.Created? <==> l in st.slots)
            && (res.Created? ==> res.order.kind == Put && Built(res.order, id, now, ext, robot, l, target))
  {
    hide FindOccupiedBySource;
  }

  predicate Built(o: Order, id: OrderId, now: nat, ext: ExternalId, robot: RobotId, l: Location,
      target: Option<Location>) {
    && o.id == id && o.createdAt == now && o.status == Pending && o.stepIndex == 0 && o.robot == robot
    && o.location == l && o.target == target
    && o.externalId == if ext.Given? then Some(ext.value) else None
  }

  /** An order is created exactly for a valid request, and is the one asked for. */
  lemma CreatedExactly(st: Store, input: SubmitInput, id: OrderId, now: nat)
    requires Keyed(st)
    ensures var res := SubmitStore(st, input, id, now);
            && (res.Created? <==> ValidRequest(st, input))
            && (res.Created? ==> AsRequested(res.order, input, id, now))
  {
    hide AdmitPick, AdmitPut, Parse, HasActionSuffix, ParseKind, FindByExternalId, AsksPick, AsksPut, Keyed;
    KindExactly(input.kind);
    if input.id.Given? { FindByExternalMeaning(st, input.id.value); }
    if Parse(input.locationCode).Some? {
      PrintInvertsParse(input.locationCode);
      var l := Parse(input.locationCode).value.location;
      var target := if input.targetLocation == "" then None else Parse(input.targetLocation);
      var t := if target.Some? then Some(target.value.location) else None;
      var robot := if input.robotId != "" then input.robotId else RobotOf(l);
      AdmittedAsAsked(st, id, now, input.id, robot, l, t, SlotOverride(input));
    }
  }

  // ---------- which request is refused, and why ----------

  /** Type and id are valid and the id is not known yet. */
  ghost predicate Admissible(st: Store, input: SubmitInput) {
    && (AsksPick(input.kind) || AsksPut(input.kind))
    && !input.id.NotInteger? && (input.id.Given? ==> !KnownId(st, input.id.value))
  }

  /** A refused request changes nothing and names the first thing wrong with it: type, id, an action letter on the
      location, the location itself, the target, the slot code, and last a PUT on a place that is no slot. */
  lemma RefusedExactly(st: Store, input: SubmitInput, id: OrderId, now: nat)
    requires Keyed(st)
    ensures var res, code := SubmitStore(st, input, id, now), input.locationCode;
            var asked := Admissible(st, input);
            var located := asked && !EndsInAction(code) && Parse(code).Some?;
            var aimed := located && (input.targetLocation == "" || Parse(input.targetLocation).Some?);
            && (res == Refused(BadKind) <==> !AsksPick(input.kind) && !AsksPut(input.kind))
            && (res == Refused(BadId) <==> (AsksPick(input.kind) || AsksPut(input.kind)) && input.id.NotInteger?)
            && (res == Refused(ActionSuffix) <==> asked && EndsInAction(code))
            && (res == Refused(BadLocation) <==> asked && !EndsInAction(code) && Parse(code).None?)
            && (res == Refused(BadTarget) <==> located && !aimed)
            && (res == Refused(BadSlotCode)
                <==> aimed && input.slotLocationCode != "" && Parse(input.slotLocationCode).None?)
            && (res == Refused(NotAPickingSlot) <==>
                  aimed && (input.slotLocationCode == "" || Parse(input.slotLocationCode).Some?) && AsksPut(input.kind)
                  && Parse(code).value.location !in st.slots)
  {
    hide AdmitPick, AdmitPut, Parse, HasActionSuffix, ParseKind, FindByExternalId, AsksPick, AsksPut, Keyed,
      EndsInAction, RobotOf, KnownId;
    KindExactly(input.kind);
    SuffixExactly(input.locationCode);
    if input.id.Given? { KnownExactly(st, input.id.value); }
    AdmitRefusals();
  }

  lemma KnownExactly(st: Store, ext: int)
    requires Keyed(st)
    ensures FindByExternalId(st, ext).Some? <==> KnownId(st, ext)
  {
    FindByExternalMeaning(st, ext);
  }

  lemma AdmitRefusals()
    ensures forall st, id, now, ext, robot, l, target, s :: AdmitPick(st, id, now, ext, robot, l, target, s).Created?
    ensures forall st, id, now, ext, robot, l, target ::
              var res := AdmitPut(st, id, now, ext, robot, l, target);
              if l in st.slots then res.Created? else res == Refused(NotAPickingSlot)
  {
    hide FindOccupiedBySource;
  }

  // ---------- what a created order does to the slots ----------

  /** The box from l stands in slot c, the first by code if there were several. */
  ghost predicate StandsIn(st: Store, l: Location, c: Location) {
    && c in st.slots && st.slots[c].status == Occupied && st.slots[c].box.Some? && st.slots[c].box.value.source == l
    && forall d :: HoldsBoxFrom(st.slots, d, l) && d != c ==> Precedes(Print(c), Print(d))
  }

  /** The counter as it is read: missing or not positive, it counts as one. */
  function CountIn(s: Slot): nat { if s.depth.Some? && s.depth.value >= 1 then s.depth.value else 1 }

  /** The counter of slot c becomes n, its box is recorded for order id, and no other slot changes. */
  ghost predicate Recounted(st: Store, st': Store, id: OrderId, c: Location, n: int) {
    && c in st.slots && st'.slots == st.slots[c := st.slots[c].(depth := Some(n))]
    && st'.serving == (if st.slots[c].box.Some? then st.serving[id := st.slots[c].box.value.pickOrder] else st.serving)
  }

  /** The five steps of a physical order: the car goes home, the lift goes up, the car takes, the lift goes to the other
      place, and the car leaves the box (PICK) or returns it (PUT). */
  predicate AreStepsOf(kind: OrderKind, steps: seq<Step>) {
    && |steps| == 5 && (forall i :: 0 <= i < 5 ==> steps[i].id == i + 1)
    && (forall i :: 0 <= i < 5 ==> steps[i].device == if i == 1 || i == 3 then Elevador else Carro)
    && steps[0].kind == Homing && steps[1].kind == LiftMoves == steps[3].kind && steps[2].kind == CarTakes
    && steps[4].kind == (match kind case Pick => CarLeaves case Put => CarReturns)
  }

  /** A PICK whose box stands joins it: it is logical, has no steps and names that slot, whose counter rises by one.
      Otherwise it is physical, names the slot asked for, if any, and no slot changes. */
  ghost predicate PickEffect(st: Store, st': Store, o: Order, l: Location, asked: Option<Location>) {
    && !o.waiting && !o.logicalReturn
    && (if exists c :: HoldsBoxFrom(st.slots, c, l) then
          exists c :: StandsIn(st, l, c) && o.slot == Some(c) && o.logicalPick && o.steps == []
                      && Recounted(st, st', o.id, c, CountIn(st.slots[c]) + 1)
        else
          o.slot == asked && !o.logicalPick && AreStepsOf(Pick, o.steps) && st'.slots == st.slots
          && st'.serving == st.serving)
  }

  /** A PUT names its own place. While the counter there is above one it is logical and lowers it. Else it is physical:
      a LIBRE or OCUPADO slot becomes RESERVADO for it and keeps its box, any other leaves it waiting and changes
      nothing. */
  ghost predicate PutEffect(st: Store, st': Store, o: Order, l: Location) {
    && l in st.slots && o.slot == Some(l) && !o.logicalPick
    && (if CountIn(st.slots[l]) > 1 then
          && o.logicalReturn && o.steps == [] && !o.waiting
          && Recounted(st, st', o.id, l, CountIn(st.slots[l]) - 1)
        else
          && !o.logicalReturn && AreStepsOf(Put, o.steps)
          && (o.waiting <==> st.slots[l].status !in {Free, Occupied})
          && st'.slots == (if o.waiting then st.slots
                           else st.slots[l := st.slots[l].(status := Reserved, owner := Some(o.id))])
          && st'.serving == (if o.waiting || st.slots[l].box.None? then st.serving
                             else st.serving[o.id := st.slots[l].box.value.pickOrder]))
  }

  lemma CountedOnce(s: Slot)
    ensures CountIn(s) == Depth(s)
  {
  }

  lemma StepsAre(kind: OrderKind)
    ensures AreStepsOf(kind, BuildSteps(kind))
  {
  }

  lemma JoinedSlots(st: Store, id: OrderId, now: nat, ext: ExternalId, robot: RobotId, l: Location,
                    target: Option<Location>, s: Option<Location>, c: Location)
    requires FindOccupiedBySource(st, l) == Some(c) && c in st.slots
    ensures var res := AdmitPick(st, id, now, ext, robot, l, target, s);
            && res.order == NewOrder(id, now, Pick, ext, robot, l, target, Some(c), true)
            && Recounted(st, res.store, id, c, CountIn(st.slots[c]) + 1)
  {
    hide FindOccupiedBySource, NewOrder;
  }

  lemma FoundStands(st: Store, l: Location, c: Location)
    requires Keyed(st) && FindOccupiedBySource(st, l) == Some(c)
    ensures StandsIn(st, l, c)
  {
    hide FindOccupiedBySource, Precedes, Keyed;
    FindOccupiedMeaning(st, l);
    forall d | HoldsBoxFrom(st.slots, d, l) && d != c ensures Precedes(Print(c), Print(d)) { FoundIsFirst(st, l, d); }
  }

  lemma AdmitPickExactly(st: Store, id: OrderId, now: nat, ext: ExternalId, robot: RobotId, l: Location,
                         target: Option<Location>, s: Option<Location>)
    requires Keyed(st)
    ensures var res := AdmitPick(st, id, now, ext, robot, l, target, s); PickEffect(st, res.store, res.order, l, s)
  {
    hide FindOccupiedBySource, Recounted, StandsIn, Keyed;
    FindOccupiedMeaning(st, l);
    var found := FindOccupiedBySource(st, l);
    if found.Some? {
      JoinedSlots(st, id, now, ext, robot, l, target, s, found.value);
      FoundStands(st, l, found.value);
      hide AdmitPick;
    } else {
      assert forall c :: HoldsBoxFrom(st.slots, c, l) ==> c in st.slots;
    }
  }

  lemma LoweredSlots(st: Store, id: OrderId, now: nat, ext: ExternalId, robot: RobotId, l: Location,
                     target: Option<Location>)
    requires l in st.slots && CountIn(st.slots[l]) > 1
    ensures var res := AdmitPut(st, id, now, ext, robot, l, target);
            && res.Created? && res.order == NewOrder(id, now, Put, ext, robot, l, target, Some(l), true)
            && Recounted(st, res.store, id, l, CountIn(st.slots[l]) - 1)
  {
    hide NewOrder;
  }

  lemma AdmitPutExactly(st: Store, id: OrderId, now: nat, ext: ExternalId, robot: RobotId, l: Location,
                        target: Option<Location>)
    ensures var res := AdmitPut(st, id, now, ext, robot, l, target);
            res.Created? ==> PutEffect(st, res.store, res.order, l)
  {
    hide Depth, CountIn, Recounted, BuildSteps, AreStepsOf;
    StepsAre(Put);
    if l in st.slots {
      CountedOnce(st.slots[l]);
      if CountIn(st.slots[l]) > 1 {
        LoweredSlots(st, id, now, ext, robot, l, target);
        hide AdmitPut;
      }
    }
  }

  /** What an accepted request leaves: one more order at the end of the list, and on the slots the effect of its
      kind. */
  lemma CreatedEffect(st: Store, input: SubmitInput, id: OrderId, now: nat)
    requires Keyed(st) && id !in st.orders && SubmitStore(st, input, id, now).Created?
    ensures var res := SubmitStore(st, input, id, now);
            var l := Parse(input.locationCode).value.location;
            && Parse(input.locationCode).Some? && ReadableCodes(input)
            && res.store.orders == st.orders[id := res.order] && res.store.orderKeys == st.orderKeys + [id]
            && (if AsksPut(input.kind) then PutEffect(st, res.store, res.order, l)
                else PickEffect(st, res.store, res.order, l,
                                if input.slotLocationCode == "" then None
                                else Some(Parse(input.slotLocationCode).value.location)))
  {
    hide SubmitStore, AdmitPick, AdmitPut, Parse, FindByExternalId, AsksPut, AsksPick, Keyed, PickEffect, PutEffect;
    SubmitAdds(st, input, id, now);
    SubmitCases(st, input, id, now);
    CreatedExactly(st, input, id, now);
    var l, o := Parse(input.locationCode).value.location, SubmitStore(st, input, id, now).order;
    if o.kind == Pick {
      AdmitPickExactly(st, id, now, input.id, o.robot, l, o.target, SlotOverride(input));
    } else {
      AdmitPutExactly(st, id, now, input.id, o.robot, l, o.target);
    }
  }
}
