/** Orders, picking slots and their tables, as kept by src/core/state/StateManager.js. */
module Domain {
  import opened Sequences
  import opened Location

  type OrderId = nat
  type RobotId = string

  datatype OrderKind = Pick | Put

  datatype OrderStatus = Pending | InProgress | Done | Error | Canceled

  datatype Device = Carro | Elevador

  datatype StepKind = Homing | LiftMoves | CarTakes | CarLeaves | CarReturns

  datatype Step = Step(id: nat, kind: StepKind, device: Device)

  /** `buildSteps` */
  function BuildSteps(kind: OrderKind): seq<Step> {
    [ Step(1, Homing, Carro),
      Step(2, LiftMoves, Elevador),
      Step(3, CarTakes, Carro),
      Step(4, LiftMoves, Elevador),
      Step(5, if kind == Put then CarReturns else CarLeaves, Carro) ]
  }

  datatype Order = Order(
    id: OrderId,
    externalId: Option<int>,
    kind: OrderKind,
    robot: RobotId,
    location: Location,
    target: Option<Location>,
    slot: Option<Location>,
    waiting: bool,
    status: OrderStatus,
    stepIndex: nat,
    steps: seq<Step>,
    logicalPick: bool,
    logicalReturn: bool,
    createdAt: nat)

  /** LIBRE, RESERVADO, BUSCANDO, OCUPADO, DEVOLVIENDO, ERROR */
  datatype SlotStatus = Free | Reserved | Fetching | Occupied | Returning | Blocked

  datatype Box = Box(source: Location, pickOrder: OrderId)

  datatype Slot = Slot(status: SlotStatus, owner: Option<OrderId>, box: Option<Box>, depth: Option<int>)

  const FreshSlot := Slot(Free, None, None, None)

  /** The two tables with their key insertion order. `serving` is a history record that the
      program does not keep: which box (named by the PICK that brought it) an order was served
      from or returned to. */
  datatype Store = Store(
    orders: map<OrderId, Order>,
    orderKeys: seq<OrderId>,
    slots: map<Location, Slot>,
    slotKeys: seq<Location>,
    serving: map<OrderId, OrderId>)

  predicate Live(o: Order) { o.status == Pending || o.status == InProgress || o.status == Error }

  predicate Terminal(o: Order) { o.status == Done || o.status == Error || o.status == Canceled }

  predicate Logical(o: Order) { o.logicalPick || o.logicalReturn }

  /** Every status but LIBRE and OCUPADO. */
  predicate Busy(s: Slot) { s.status != Free && s.status != Occupied }

  function Depth(s: Slot): nat {
    if s.depth.Some? && s.depth.value > 0 then s.depth.value else 1
  }

  function WithOrder(st: Store, id: OrderId, o: Order): Store {
    st.(orders := st.orders[id := o])
  }

  function WithSlot(st: Store, c: Location, s: Slot): Store {
    st.(slots := st.slots[c := s])
  }

  /** The key sequences list the map keys once each. */
  ghost predicate Keyed(st: Store) {
    && NoDup(st.orderKeys) && (forall k :: k in st.orderKeys <==> k in st.orders)
    && NoDup(st.slotKeys) && (forall c :: c in st.slotKeys <==> c in st.slots)
    && (forall k :: k in st.orders ==> st.orders[k].id == k)
  }

  // ---------- listing ----------

  function ByCode(): (Location, Location) -> bool {
    (a: Location, b: Location) => Compare(Print(a), Print(b)) <= 0
  }

  /** `listSlots` */
  function ListSlots(st: Store): seq<Location> {
    Sort(st.slotKeys, ByCode())
  }

  function IsFree(slots: map<Location, Slot>): Location -> bool {
    (c: Location) => c in slots && slots[c].status == Free
  }

  /** `listAvailableSlots` */
  function ListAvailableSlots(st: Store): seq<Location> {
    Filter(ListSlots(st), IsFree(st.slots))
  }

  predicate HoldsBoxFrom(slots: map<Location, Slot>, c: Location, source: Location) {
    c in slots && slots[c].status == Occupied && slots[c].box.Some? && slots[c].box.value.source == source
  }

  function FirstHolding(codes: seq<Location>, slots: map<Location, Slot>, source: Location): Option<Location> {
    if codes == [] then None
    else if HoldsBoxFrom(slots, codes[0], source) then Some(codes[0])
    else FirstHolding(codes[1..], slots, source)
  }

  /** `findOccupiedPickSlotBySource` */
  function FindOccupiedBySource(st: Store, source: Location): Option<Location> {
    FirstHolding(ListSlots(st), st.slots, source)
  }

  function FirstExternal(keys: seq<OrderId>, orders: map<OrderId, Order>, ext: int): Option<OrderId> {
    if keys == [] then None
    else if keys[0] in orders && orders[keys[0]].externalId == Some(ext) then Some(keys[0])
    else FirstExternal(keys[1..], orders, ext)
  }

  /** `findOrderByExternalId` */
  function FindByExternalId(st: Store, ext: int): Option<OrderId> {
    FirstExternal(st.orderKeys, st.orders, ext)
  }

  lemma {:induction false} FirstHoldingMeaning(codes: seq<Location>, slots: map<Location, Slot>, source: Location)
    ensures FirstHolding(codes, slots, source).Some? ==>
              && FirstHolding(codes, slots, source).value in codes
              && HoldsBoxFrom(slots, FirstHolding(codes, slots, source).value, source)
    ensures FirstHolding(codes, slots, source).None? ==> forall c :: c in codes ==> !HoldsBoxFrom(slots, c, source)
  {
    if codes != [] { FirstHoldingMeaning(codes[1..], slots, source); }
  }

  lemma {:induction false} FirstExternalMeaning(keys: seq<OrderId>, orders: map<OrderId, Order>, ext: int)
    ensures FirstExternal(keys, orders, ext).Some? ==>
              var k := FirstExternal(keys, orders, ext).value;
              k in keys && k in orders && orders[k].externalId == Some(ext)
    ensures FirstExternal(keys, orders, ext).None? ==>
              forall k :: k in keys && k in orders ==> orders[k].externalId != Some(ext)
  {
    if keys != [] { FirstExternalMeaning(keys[1..], orders, ext); }
  }

  /** The search by source finds a slot exactly when some slot is OCUPADO with a box from that source. */
  lemma FindOccupiedMeaning(st: Store, source: Location)
    requires Keyed(st)
    ensures FindOccupiedBySource(st, source).Some? ==>
              var c := FindOccupiedBySource(st, source).value; c in st.slots && HoldsBoxFrom(st.slots, c, source)
    ensures FindOccupiedBySource(st, source).None? ==> forall c :: c in st.slots ==> !HoldsBoxFrom(st.slots, c, source)
  {
    FirstHoldingMeaning(ListSlots(st), st.slots, source);
    SortPermutes(st.slotKeys, ByCode());
  }

  lemma CodesOrdered()
    ensures TotalPreorder(ByCode())
  {
    forall a: Location, b: Location
      ensures ByCode()(a, b) || ByCode()(b, a)
    {
      CompareAntisymmetric(Print(a), Print(b));
    }
    forall a: Location, b: Location, c: Location | ByCode()(a, b) && ByCode()(b, c) ensures ByCode()(a, c) {
      CompareTransitive(Print(a), Print(b), Print(c));
    }
  }

  lemma {:induction false} FirstHoldingFirst(codes: seq<Location>, slots: map<Location, Slot>, source: Location,
                                             d: Location)
    requires Sorted(codes, ByCode()) && d in codes && HoldsBoxFrom(slots, d, source)
    ensures FirstHolding(codes, slots, source).Some?
    ensures var c := FirstHolding(codes, slots, source).value; c == d || ByCode()(c, d)
  {
    if !HoldsBoxFrom(slots, codes[0], source) { FirstHoldingFirst(codes[1..], slots, source, d); }
  }

  /** If several slots hold boxes from the source, the one whose code comes first is found. */
  lemma FoundIsFirst(st: Store, source: Location, d: Location)
    requires Keyed(st) && HoldsBoxFrom(st.slots, d, source)
    ensures FindOccupiedBySource(st, source).Some?
    ensures var c := FindOccupiedBySource(st, source).value; c == d || Precedes(Print(c), Print(d))
  {
    CodesOrdered();
    SortSorts(st.slotKeys, ByCode());
    SortPermutes(st.slotKeys, ByCode());
    FirstHoldingFirst(ListSlots(st), st.slots, source, d);
    var c := FindOccupiedBySource(st, source).value;
    CompareMeaning(Print(c), Print(d));
    CompareZero(Print(c), Print(d));
    if Print(c) == Print(d) { PrintInjective(c, d); }
  }

  lemma {:induction false} FirstExternalFirst(keys: seq<OrderId>, orders: map<OrderId, Order>, ext: int, i: nat)
    requires i < |keys| && FirstExternal(keys, orders, ext) == Some(keys[i]) && NoDup(keys)
    ensures forall j :: 0 <= j < i && keys[j] in orders ==> orders[keys[j]].externalId != Some(ext)
  {
    if i > 0 {
      assert keys[0] != keys[i];
      FirstExternalFirst(keys[1..], orders, ext, i - 1);
      forall j | 0 < j < i && keys[j] in orders ensures orders[keys[j]].externalId != Some(ext) {
        assert keys[j] == keys[1..][j - 1];
      }
    }
  }

  lemma FindByExternalMeaning(st: Store, ext: int)
    requires Keyed(st)
    ensures FindByExternalId(st, ext).Some? ==>
              var k := FindByExternalId(st, ext).value; k in st.orders && st.orders[k].externalId == Some(ext)
    ensures FindByExternalId(st, ext).None? ==> forall k :: k in st.orders ==> st.orders[k].externalId != Some(ext)
  {
    FirstExternalMeaning(st.orderKeys, st.orders, ext);
  }

  // ---------- slot transitions ----------

  /** `reserveSlot` */
  function Reserve(st: Store, c: Location, id: OrderId): Option<Store> {
    if c in st.slots && st.slots[c].status == Free
    then Some(WithSlot(st, c, st.slots[c].(status := Reserved, owner := Some(id))))
    else None
  }

  /** `updateSlotStatus`; `orderId || slot.reservedByOrderId || null` keeps the owner when none is given. */
  function UpdateStatus(st: Store, c: Location, status: SlotStatus, owner: Option<OrderId>): Store {
    if c in st.slots
    then WithSlot(st, c, st.slots[c].(status := status, owner := if owner.Some? then owner else st.slots[c].owner))
    else st
  }

  /** `markSlotOccupied` */
  function MarkOccupied(st: Store, c: Location, id: OrderId, source: Location): Store {
    if c in st.slots then WithSlot(st, c, Slot(Occupied, Some(id), Some(Box(source, id)), Some(1))) else st
  }

  /** `getLogicalPickStackDepth` */
  function StackDepth(st: Store, c: Location): nat {
    if c in st.slots then Depth(st.slots[c]) else 0
  }

  /** `incrementLogicalPickStack`: None is the thrown "Slot no encontrado". */
  function IncrementStack(st: Store, c: Location): Option<Store> {
    if c in st.slots then Some(WithSlot(st, c, st.slots[c].(depth := Some(Depth(st.slots[c]) + 1)))) else None
  }

  /** `decrementLogicalPickStack`: None is either thrown error. */
  function DecrementStack(st: Store, c: Location): Option<Store> {
    if c in st.slots && Depth(st.slots[c]) > 1
    then Some(WithSlot(st, c, st.slots[c].(depth := Some(Depth(st.slots[c]) - 1))))
    else None
  }

  /** The counter of a known slot is at least one: raising and lowering move it by one, undo each other, and
      lowering fails exactly at one. */
  lemma StackCounts(st: Store, c: Location)
    requires c in st.slots
    ensures StackDepth(st, c) >= 1
    ensures IncrementStack(st, c).Some? && StackDepth(IncrementStack(st, c).value, c) == StackDepth(st, c) + 1
    ensures DecrementStack(st, c).Some? <==> StackDepth(st, c) > 1
    ensures DecrementStack(st, c).Some? ==>
              StackDepth(DecrementStack(st, c).value, c) == StackDepth(st, c) - 1 >= 1
              && StackDepth(IncrementStack(DecrementStack(st, c).value, c).value, c) == StackDepth(st, c)
    ensures DecrementStack(IncrementStack(st, c).value, c).Some?
    ensures StackDepth(DecrementStack(IncrementStack(st, c).value, c).value, c) == StackDepth(st, c)
  {
  }

  /** `reserveSlotForPut` */
  function ReserveForPut(st: Store, c: Location, id: OrderId): Option<Store> {
    if c in st.slots && !Busy(st.slots[c])
    then Some(WithSlot(st, c, st.slots[c].(status := Reserved, owner := Some(id))))
    else None
  }

  /** `releaseSlot` */
  function Release(st: Store, c: Location): Store {
    if c in st.slots then WithSlot(st, c, FreshSlot) else st
  }

  /** `blockSlot` with an order id */
  function Block(st: Store, c: Location, id: OrderId): Store {
    UpdateStatus(st, c, Blocked, Some(id))
  }

  /** `createOrder`'s insertion into the order map. */
  function AddOrder(st: Store, o: Order): Store {
    st.(orders := st.orders[o.id := o], orderKeys := if o.id in st.orders then st.orderKeys else st.orderKeys + [o.id])
  }

  /** The history record: order `id` is served from (or gives back) the box now in slot c. */
  function Served(st: Store, id: OrderId, c: Location): Store {
    if c in st.slots && st.slots[c].box.Some?
        then st.(serving := st.serving[id := st.slots[c].box.value.pickOrder]) else st
  }
}
