/** The orders and the wire in one run: the replies that end a step are those its own commands got, and a retry
    goes ahead if its reset of messageIn did. A physical order is DONE only after five full handshakes. */
module WireRuns {
  import opened Sequences
  import opened Location
  import opened Domain
  import opened Queues
  import opened Orchestrator
  import opened PlcProtocol
  import opened ModbusOps
  import opened Handshake
  import Acknowledgements
  import opened StepBudget
  import opened Rehydration
  import opened NoLostOrders
  import opened PlanRecord
  import opened Durability

  // ---------- runs ----------

  datatype Line = Line(robot: RobotId, device: Device)

  /** An operation completed on one of a robot's devices. */
  datatype Mark = Mark(device: Device, event: Event)

  /** The registered devices and what happens on each of them. */
  datatype Setup = Setup(cfg: Config, devices: set<Line>, feed: Line -> Feed)

  /** `tapes` lists the operations completed on each robot's devices, `trace` the actions so far. */
  datatype Wired = Wired(world: World, links: map<Line, Link>, tapes: map<RobotId, seq<Mark>>, trace: seq<Action>)

  /** An action of the orchestrator, its replies left to the wire; or whatever else reaches a device meanwhile,
      such as the operations of a step that a crash cut off. */
  datatype Happening = Does(action: Action) | Elsewhere(line: Line, link: Link, events: seq<Event>)

  function LinkOf(links: map<Line, Link>, line: Line): Link {
    if line in links then links[line] else Link(0, 0, Plc(0, 0, 0, 0, 0), [])
  }

  function TapeOf(tapes: map<RobotId, seq<Mark>>, r: RobotId): seq<Mark> {
    if r in tapes then tapes[r] else []
  }

  function Marks(device: Device, events: seq<Event>): seq<Mark> {
    seq(|events|, i requires 0 <= i < |events| => Mark(device, events[i]))
  }

  function Taped(tapes: map<RobotId, seq<Mark>>, line: Line, events: seq<Event>): map<RobotId, seq<Mark>> {
    tapes[line.robot := TapeOf(tapes, line.robot) + Marks(line.device, events)]
  }

  /** What a link has logged since an earlier moment. */
  function Since(l: Link, l': Link): seq<Event> {
    if |l.log| <= |l'.log| then l'.log[|l.log|..] else []
  }

  /** `step.deviceType` of the step a waiting loop is in. */
  function TicketLine(r: RobotId, t: Order): Line {
    Line(r, if t.stepIndex < |t.steps| then t.steps[t.stepIndex].device else Carro)
  }

  /** `getDevice` */
  function DeviceOn(s: Setup, line: Line): Option<Device> {
    if line in s.devices then Some(line.device) else None
  }

  /** `executeStepWithRetry` on the wire for the robot's waiting loop, each command numbered after the last one. */
  function SentFor(s: Setup, v: Wired, r: RobotId): Sent
    requires r in v.world.inStep
  {
    var t := v.world.inStep[r];
    var line := TicketLine(r, t);
    var l := LinkOf(v.links, line);
    SendStep(s.cfg, l, s.feed(line), DeviceOn(s, line), TicketCode(t), l.plc.command + 1, v.world.maxRetries)
  }

  /** `resetRobotMessageIn` on one device: whether it went through, and the link after it. */
  function ResetLine(s: Setup, links: map<Line, Link>, line: Line): (bool, Link) {
    var e := RunOp(s.cfg, LinkOf(links, line), s.feed(line), Write(ZeroWrites(line.device), None));
    if line in s.devices then (e.result.Answered?, e.link) else (true, LinkOf(links, line))
  }

  function Acts(v: Wired, a: Action): Wired { v.(world := Next(v.world, a), trace := v.trace + [a]) }

  function Happens(s: Setup, v: Wired, h: Happening): Wired {
    match h
    case Elsewhere(line, link, events) => v.(links := v.links[line := link], tapes := Taped(v.tapes, line, events))
    case Does(DoStepEnd(r, _)) =>
      if r !in v.world.inStep then v
      else
        var line := TicketLine(r, v.world.inStep[r]);
        var sent := SentFor(s, v, r);
        Acts(v.(links := v.links[line := sent.link],
            tapes := Taped(v.tapes, line, Since(LinkOf(v.links, line), sent.link))),
             DoStepEnd(r, sent.replies))
    case Does(DoRetry(id, _)) =>
      if id !in v.world.store.orders then v
      else
        var r := v.world.store.orders[id].robot;
        var car, lift := ResetLine(s, v.links, Line(r, Carro)), ResetLine(s, v.links, Line(r, Elevador));
        Acts(v.(links := v.links[Line(r, Carro) := car.1][Line(r, Elevador) := lift.1],
                tapes := Taped(Taped(v.tapes, Line(r, Carro), Since(LinkOf(v.links, Line(r, Carro)), car.1)),
                               Line(r, Elevador), Since(LinkOf(v.links, Line(r, Elevador)), lift.1))),
             DoRetry(id, car.0 && lift.0))
    case Does(a) => Acts(v, a)
  }

  function WireExec(s: Setup, config: seq<Location>, maxRetries: nat, run: seq<Happening>): Wired
    decreases |run|
  {
    if run == [] then Wired(Initial(config, maxRetries), map[], map[], [])
    else Happens(s, WireExec(s, config, maxRetries, run[..|run| - 1]), run[|run| - 1])
  }

  /** The world of such a run is the one its actions alone lead to. */
  lemma {:induction false} WireExecIsARun(s: Setup, config: seq<Location>, maxRetries: nat, run: seq<Happening>)
    ensures var v := WireExec(s, config, maxRetries, run); v.world == Exec(Initial(config, maxRetries), v.trace)
    decreases |run|
  {
    hide Initial, Next, Happens;
    if run != [] {
      var v := WireExec(s, config, maxRetries, run[..|run| - 1]);
      WireExecIsARun(s, config, maxRetries, run[..|run| - 1]);
      HappensActs(s, v, run[|run| - 1]);
      var v' := WireExec(s, config, maxRetries, run);
      if v'.trace != v.trace {
        assert v'.trace[..|v'.trace| - 1] == v.trace;
      }
    }
  }

  /** Nothing happens to the orders but at most one action. */
  lemma HappensActs(s: Setup, v: Wired, h: Happening)
    ensures var v' := Happens(s, v, h);
            (v'.world == v.world && v'.trace == v.trace) || exists a ::
                v'.world == Next(v.world, a) && v'.trace == v.trace + [a]
  {
    hide Next, SentFor, ResetLine, Taped, Since, TicketLine, TapeOf, LinkOf;
  }

  lemma ResetWritten(s: Setup, links: map<Line, Link>, line: Line)
    requires line in s.devices && ResetLine(s, links, line).0
    ensures var l := ResetLine(s, links, line).1;
            && Since(LinkOf(links, line), l) == [Wrote(ZeroWrites(line.device))]
            && l.plc.inHigh == 0 && (line.device == Carro ==> l.plc.inLow == 0)
  {
    hide RunOp, ZeroWrites, WriteAll;
    var q := Write(ZeroWrites(line.device), None);
    OpLogged(s.cfg, LinkOf(links, line), s.feed(line), q);
    var m: Plc :| ResetLine(s, links, line).1.plc == WriteAll(m, ZeroWrites(line.device), None);
    Acknowledgements.ZeroWritten(m, line.device);
  }

  /** A retry that goes ahead has zeroed messageIn on each registered device of the order's robot. */
  lemma RetryMeansReset(s: Setup, v: Wired, id: OrderId, resetOk: bool, device: Device)
    requires id in v.world.store.orders && Line(v.world.store.orders[id].robot, device) in s.devices
    requires Happens(s, v, Does(DoRetry(id, resetOk))).trace == v.trace + [DoRetry(id, true)]
    ensures var v', line := Happens(s, v, Does(DoRetry(id, resetOk))), Line(v.world.store.orders[id].robot, device);
            var plc := LinkOf(v'.links, line).plc;
            && Since(LinkOf(v.links, line), LinkOf(v'.links, line)) == [Wrote(ZeroWrites(device))]
            && plc.inHigh == 0 && (device == Carro ==> plc.inLow == 0)
  {
    hide ResetLine, Since, Taped, Next;
    var line := Line(v.world.store.orders[id].robot, device);
    var v' := Happens(s, v, Does(DoRetry(id, resetOk)));
    assert v'.trace[|v.trace|] == DoRetry(id, true);
    ResetWritten(s, v.links, line);
  }

  /** The zeroes for messageIn go out on the line, if a device is registered there, and are answered. */
  ghost predicate ZeroesArrive(s: Setup, v: Wired, line: Line) {
    line in s.devices ==>
      RunOp(s.cfg, LinkOf(v.links, line), s.feed(line), Write(ZeroWrites(line.device), None)).result.Answered?
  }

  /** A retry of a known order goes ahead exactly when the zeroes arrive on both devices of its robot, as far as they
      are registered; both are tried, and no other line is touched. */
  lemma RetryGoesAheadExactly(s: Setup, v: Wired, id: OrderId, resetOk: bool)
    requires id in v.world.store.orders
    ensures var v', r := Happens(s, v, Does(DoRetry(id, resetOk))), v.world.store.orders[id].robot;
            var zeroed := ZeroesArrive(s, v, Line(r, Carro)) && ZeroesArrive(s, v, Line(r, Elevador));
            && v'.world == Next(v.world, DoRetry(id, zeroed)) && v'.trace == v.trace + [DoRetry(id, zeroed)]
            && forall x :: LinkOf(v'.links, x) ==
                 if x.robot == r && x in s.devices
                 then RunOp(s.cfg, LinkOf(v.links, x), s.feed(x), Write(ZeroWrites(x.device), None)).link
                 else LinkOf(v.links, x)
  {
    hide Next, RunOp, ZeroWrites, Taped, Since;
    var v', r := Happens(s, v, Does(DoRetry(id, resetOk))), v.world.store.orders[id].robot;
    forall x
      ensures LinkOf(v'.links, x) ==
              if x.robot == r && x in s.devices
              then RunOp(s.cfg, LinkOf(v.links, x), s.feed(x), Write(ZeroWrites(x.device), None)).link
              else LinkOf(v.links, x)
    {
      if x.robot == r { assert x == Line(r, if x.device == Carro then Carro else Elevador); }
    }
  }

  /** The end of a step uses the line of that step's device on its robot, and no other. With no device registered
      there, nothing goes over the wire and the order is in ERROR. */
  lemma StepUsesItsLine(s: Setup, v: Wired, r: RobotId, replies: seq<StepReply>)
    requires r in v.world.inStep && v.world.inStep[r].stepIndex < |v.world.inStep[r].steps|
    ensures var v', t := Happens(s, v, Does(DoStepEnd(r, replies))), v.world.inStep[r];
            var line := Line(r, t.steps[t.stepIndex].device);
            && (forall x :: x != line ==> LinkOf(v'.links, x) == LinkOf(v.links, x))
            && (forall x :: x != r ==> TapeOf(v'.tapes, x) == TapeOf(v.tapes, x))
            && (line !in s.devices ==>
                  && LinkOf(v'.links, line) == LinkOf(v.links, line) && TapeOf(v'.tapes, r) == TapeOf(v.tapes, r)
                  && (t.id in v'.world.store.orders ==> v'.world.store.orders[t.id].status == Error))
  {
    hide Happens, Next, RunStep, SentFor, TicketCode;
    var line := TicketLine(r, v.world.inStep[r]);
    StepEndIs(s, v, r, replies);
    FailedStepEndsInError(v.world, r, SentFor(s, v, r).replies);
    if line !in s.devices { UnregisteredSends(s, v, r); }
  }

  lemma StepEndIs(s: Setup, v: Wired, r: RobotId, replies: seq<StepReply>)
    requires r in v.world.inStep
    ensures var v', line := Happens(s, v, Does(DoStepEnd(r, replies))), TicketLine(r, v.world.inStep[r]);
            var sent := SentFor(s, v, r);
            && v'.world == Next(v.world, DoStepEnd(r, sent.replies)) && v'.links == v.links[line := sent.link]
            && v'.tapes == Taped(v.tapes, line, Since(LinkOf(v.links, line), sent.link))
  {
    hide Next, SentFor, TicketLine, Taped, Since;
  }

  lemma UnregisteredSends(s: Setup, v: Wired, r: RobotId)
    requires r in v.world.inStep && TicketLine(r, v.world.inStep[r]) !in s.devices
    ensures var sent := SentFor(s, v, r);
            sent.link == LinkOf(v.links, TicketLine(r, v.world.inStep[r]))
            && !RunStep(v.world.maxRetries, sent.replies).ok
  {
    hide SendStep, RunStep, TicketCode;
    var line := TicketLine(r, v.world.inStep[r]);
    var l := LinkOf(v.links, line);
    NoDeviceNoStep(s.cfg, l, s.feed(line), TicketCode(v.world.inStep[r]), l.plc.command + 1, v.world.maxRetries);
  }

  lemma FailedStepEndsInError(w: World, r: RobotId, replies: seq<StepReply>)
    requires r in w.inStep
    ensures var w', id := Next(w, DoStepEnd(r, replies)), w.inStep[r].id;
            !RunStep(w.maxRetries, replies).ok && id in w'.store.orders ==> w'.store.orders[id].status == Error
  {
    hide RunStep, TicketCode, Snapshot;
  }

  lemma NoDeviceNoStep(cfg: Config, l: Link, feed: Feed, value: nat, n: nat, maxRetries: nat)
    ensures var s := SendStep(cfg, l, feed, None, value, n, maxRetries);
            s.link == l && !RunStep(maxRetries, s.replies).ok
  {
    WholeStepIsBounded(cfg, l, feed, None, value, n, maxRetries);
  }

  // ---------- handshakes on a tape ----------

  datatype Span = Span(from: nat, to: nat)

  /** That stretch of the tape is one device's full handshake for the command. */
  ghost predicate HandshakeOn(tape: seq<Mark>, span: Span, cfg: Config, device: Device, code: nat) {
    && span.from <= span.to <= |tape|
    && exists events ::
         tape[span.from..span.to] == Marks(device, events) && Handshaken(events, cfg, device, code, StepExpects)
  }

  /** The lift moves in the second and fourth steps, the car in the others. */
  function DeviceOfStep(k: nat): Device { if k == 1 || k == 3 then Elevador else Carro }

  /** One handshake for each acknowledged command, in order and apart. */
  ghost predicate Shaken(tape: seq<Mark>, cfg: Config, acks: seq<Ack>, spans: seq<Span>) {
    && |spans| == |acks|
    && (forall k :: 0 <= k < |acks| ==> HandshakeOn(tape, spans[k], cfg, DeviceOfStep(k), acks[k].code))
    && (forall j, k :: 0 <= j < k < |spans| ==> spans[j].to <= spans[k].from)
  }

  ghost predicate HandsShaken(v: Wired, cfg: Config) {
    forall id :: id in v.world.store.orders ==>
      exists spans :: Shaken(TapeOf(v.tapes, v.world.store.orders[id].robot), cfg, RecordOf(v.world.acked, id), spans)
  }

  lemma LongerTape(tape: seq<Mark>, tape': seq<Mark>, cfg: Config, acks: seq<Ack>, spans: seq<Span>)
    requires tape <= tape' && Shaken(tape, cfg, acks, spans)
    ensures Shaken(tape', cfg, acks, spans)
  {
    hide Handshaken;
    forall k | 0 <= k < |acks| ensures HandshakeOn(tape', spans[k], cfg, DeviceOfStep(k), acks[k].code) {
      assert HandshakeOn(tape, spans[k], cfg, DeviceOfStep(k), acks[k].code);
      assert tape'[spans[k].from..spans[k].to] == tape[spans[k].from..spans[k].to];
    }
  }

  lemma OneMoreShaken(tape: seq<Mark>, cfg: Config, acks: seq<Ack>, spans: seq<Span>, more: seq<Mark>, a: Ack,
      span: Span)
    requires Shaken(tape, cfg, acks, spans) && |tape| <= span.from
    requires HandshakeOn(tape + more, span, cfg, DeviceOfStep(|acks|), a.code)
    ensures Shaken(tape + more, cfg, acks + [a], spans + [span])
  {
    hide HandshakeOn;
    LongerTape(tape, tape + more, cfg, acks, spans);
    var acks', spans' := acks + [a], spans + [span];
    forall k | 0 <= k < |acks'| ensures HandshakeOn(tape + more, spans'[k], cfg, DeviceOfStep(k), acks'[k].code) {
      if k < |acks| { assert acks'[k] == acks[k] && spans'[k] == spans[k]; }
    }
    forall j, k | 0 <= j < k < |spans'| ensures spans'[j].to <= spans'[k].from {
      if k < |spans| {
        assert spans'[j] == spans[j] && spans'[k] == spans[k];
      } else {
        SpanInside(tape, spans[j], cfg, DeviceOfStep(j), acks[j].code);
      }
    }
  }

  lemma SpanInside(tape: seq<Mark>, span: Span, cfg: Config, device: Device, code: nat)
    requires HandshakeOn(tape, span, cfg, device, code)
    ensures span.from <= span.to <= |tape|
  {
  }

  /** A log that ends in a full handshake puts one at the end of the tape. */
  lemma HandshakeTaped(cfg: Config, l: Link, l': Link, tape: seq<Mark>, device: Device, code: nat) returns (span: Span)
    requires EndsInHandshake(l, l', cfg, device, code)
    ensures |tape| <= span.from && HandshakeOn(tape + Marks(device, Since(l, l')), span, cfg, device, code)
  {
    hide Handshaken;
    var before :| l.log <= before && FullHandshake(before, l'.log, cfg, device, code, StepExpects);
    var events := l'.log[|before|..];
    var start := |before| - |l.log|;
    assert Since(l, l')[start..] == events;
    var all := tape + Marks(device, Since(l, l'));
    span := Span(|tape| + start, |all|);
    assert all[span.from..span.to] == Marks(device, events);
  }

  // ---------- what an action does to identities and records ----------

  /** Orders keep their robot; a new order has an id of its own. */
  ghost predicate RobotsKept(w: World, w': World) {
    forall id :: id in w'.store.orders ==>
      if id in w.store.orders then w'.store.orders[id].robot == w.store.orders[id].robot else id >= w.nextId
  }

  lemma TouchedKeepsRobots(w: World, w': World, id: OrderId)
    requires Touches(w.store, w'.store, id)
    ensures RobotsKept(w, w')
  {
  }

  lemma NextKeepsRobots(w: World, a: Action)
    requires Consistent(w) && Durable(w)
    ensures RobotsKept(w, Next(w, a))
  {
    hide Consistent, Durable, RobotsKept, Submit, LoopStep, StepEnd, Cancel, Retry, ReleaseManually, Restart;
    match a
    case DoSubmit(input, now) => SubmitKeepsRobots(w, input, now);
    case DoLoop(r) => LoopKeepsRobots(w, r);
    case DoStepEnd(r, replies) => StepEndKeepsRobots(w, r, replies);
    case DoCancel(id) => CancelKeepsRobots(w, id);
    case DoRetry(id, resetOk) => RetryKeepsRobots(w, id, resetOk);
    case DoRelease(c) => SameOrdersKeepRobots(w, ReleaseManually(w, c)) by { ReleaseKeepsOrders(w, c); }
    case DoPause(_, _) => SameOrdersKeepRobots(w, Next(w, a));
    case DoRestart(config) => RestartKeepsRobots(w, config);
  }

  lemma SameOrdersKeepRobots(w: World, w': World)
    requires w'.store.orders == w.store.orders
    ensures RobotsKept(w, w')
  {
  }

  lemma ReleaseKeepsOrders(w: World, c: Location)
    ensures ReleaseManually(w, c).store.orders == w.store.orders
  {
    hide Snapshot;
  }

  lemma StepEndKeepsRobots(w: World, r: RobotId, replies: seq<StepReply>)
    requires Consistent(w)
    ensures RobotsKept(w, StepEnd(w, r, replies))
  {
    hide StepEnd, WellShaped, Commandable, Touches, RobotsKept;
    if r in w.inStep {
      assert TicketMatches(w, r, w.inStep[r]);
      StepEndTouches(w, r, replies);
      TouchedKeepsRobots(w, StepEnd(w, r, replies), w.inStep[r].id);
    } else {
      StepEndStore(w, r, replies);
      SameOrdersKeepRobots(w, StepEnd(w, r, replies));
    }
  }

  lemma CancelKeepsRobots(w: World, id: OrderId)
    requires Consistent(w)
    ensures RobotsKept(w, Cancel(w, id))
  {
    hide WellShaped, Touches, RobotsKept, CancelStore;
    if id in w.store.orders {
      CancelTouches(w.store, id);
      TouchedKeepsRobots(w, Cancel(w, id), id);
    } else {
      SameOrdersKeepRobots(w, w);
    }
  }

  lemma RetryKeepsRobots(w: World, id: OrderId, resetOk: bool)
    ensures RobotsKept(w, Retry(w, id, resetOk))
  {
    hide Snapshot;
  }

  lemma SubmitKeepsRobots(w: World, input: SubmitInput, now: nat)
    requires Consistent(w)
    ensures RobotsKept(w, Submit(w, input, now))
  {
    hide SubmitStore, Snapshot, WellShaped;
    SubmitAdds(w.store, input, w.nextId, now);
  }

  lemma LoopKeepsRobots(w: World, r: RobotId)
    requires Consistent(w)
    ensures RobotsKept(w, LoopStep(w, r))
  {
    LoopStepStore(w, r);
    hide LoopStep, ProcessStore, Touches, WellShaped;
    if r !in w.inStep && NextOrder(w, r).Some? {
      var id := NextOrder(w, r).value;
      TakeNextKnown(w, r, id);
      ProcessPass(w.store, id);
      TouchedKeepsRobots(w, LoopStep(w, r), id);
    }
  }

  lemma RestartKeepsRobots(w: World, config: seq<Location>)
    requires Consistent(w) && Durable(w)
    ensures RobotsKept(w, Restart(w, config))
  {
    hide Rehydrated;
    KeyedOf(w.saved, w.nextId);
    RestartDurable(w, config);
    forall id | id in Restart(w, config).store.orders
      ensures id in w.store.orders && Restart(w, config).store.orders[id].robot == w.store.orders[id].robot
    {
      RestartKeepsProgress(w, config, id);
    }
  }

  /** Every other action leaves the records of acknowledged commands as they are. */
  lemma NextAcked(w: World, a: Action)
    requires !a.DoStepEnd? && !a.DoRetry?
    ensures Next(w, a).acked == w.acked
  {
    hide Snapshot, SubmitStore, ProcessStore, CancelStore, Rehydrated, Release, LoopStep;
    match a
    case DoLoop(r) => LoopAcked(w, r);
    case _ =>
  }

  lemma LoopAcked(w: World, r: RobotId)
    ensures LoopStep(w, r).acked == w.acked
  {
    hide ProcessStore, Settle, TakeNext;
    if r !in w.inStep && NextOrder(w, r).Some? {
      var id := NextOrder(w, r).value;
      LoopStepIs(w, r, id);
      SettleRecords(TakeNext(w, r, id), r, id, ProcessStore(w.store, id));
    }
  }

  // ---------- the invariant ----------

  /** Tapes only grow, and records stay or are emptied. */
  lemma ShakenAfter(v: Wired, v': Wired, cfg: Config)
    requires HandsShaken(v, cfg) && RobotsKept(v.world, v'.world)
    requires forall id :: id in v.world.acked ==> id < v.world.nextId
    requires forall r :: TapeOf(v.tapes, r) <= TapeOf(v'.tapes, r)
    requires forall id ::
        RecordOf(v'.world.acked, id) == RecordOf(v.world.acked, id) || RecordOf(v'.world.acked, id) == []
    ensures HandsShaken(v', cfg)
  {
    hide Shaken;
    forall id | id in v'.world.store.orders
      ensures exists spans ::
          Shaken(TapeOf(v'.tapes, v'.world.store.orders[id].robot), cfg, RecordOf(v'.world.acked, id), spans)
    {
      var r := v'.world.store.orders[id].robot;
      if RecordOf(v'.world.acked, id) == [] {
        NothingShaken(TapeOf(v'.tapes, r), cfg);
      } else {
        assert id in v.world.store.orders;
        var spans :| Shaken(TapeOf(v.tapes, r), cfg, RecordOf(v.world.acked, id), spans);
        LongerTape(TapeOf(v.tapes, r), TapeOf(v'.tapes, r), cfg, RecordOf(v.world.acked, id), spans);
      }
    }
  }

  lemma NothingShaken(tape: seq<Mark>, cfg: Config)
    ensures Shaken(tape, cfg, [], [])
  {
  }

  lemma MarksGrow(tapes: map<RobotId, seq<Mark>>, line: Line, events: seq<Event>, r: RobotId)
    ensures TapeOf(tapes, r) <= TapeOf(Taped(tapes, line, events), r)
    ensures TapeOf(Taped(tapes, line, events), line.robot) == TapeOf(tapes, line.robot) + Marks(line.device, events)
  {
  }

  /** Tapes of other robots and records of other orders stay; one order's record gains a command whose handshake
      ends its robot's tape. */
  lemma ShakenOnceMore(v: Wired, v': Wired, cfg: Config, id: OrderId, events: seq<Event>, a: Ack, span: Span)
    requires HandsShaken(v, cfg) && RobotsKept(v.world, v'.world) && id in v.world.store.orders
    requires forall k :: k in v.world.acked ==> k < v.world.nextId
    requires var r, acks := v.world.store.orders[id].robot, RecordOf(v.world.acked, id);
             && v'.tapes == Taped(v.tapes, Line(r, DeviceOfStep(|acks|)), events)
             && v'.world.acked == v.world.acked[id := acks + [a]]
             && |TapeOf(v.tapes, r)| <= span.from
             && HandshakeOn(TapeOf(v'.tapes, r), span, cfg, DeviceOfStep(|acks|), a.code)
    ensures HandsShaken(v', cfg)
  {
    hide Shaken, HandshakeOn;
    var r, acks := v.world.store.orders[id].robot, RecordOf(v.world.acked, id);
    var spans :| Shaken(TapeOf(v.tapes, r), cfg, acks, spans);
    OneMoreShaken(TapeOf(v.tapes, r), cfg, acks, spans, Marks(DeviceOfStep(|acks|), events), a, span);
    var same := v'.(world := v'.world.(acked := v.world.acked));
    forall x
      ensures TapeOf(v.tapes, x) <= TapeOf(same.tapes, x)
    {
      MarksGrow(v.tapes, Line(r, DeviceOfStep(|acks|)), events, x);
    }
    ShakenAfter(v, same, cfg);
    forall k | k in v'.world.store.orders
      ensures exists spans ::
          Shaken(TapeOf(v'.tapes, v'.world.store.orders[k].robot), cfg, RecordOf(v'.world.acked, k), spans)
    {
      if k == id {
        assert v'.world.store.orders[k].robot == r;
        assert Shaken(TapeOf(v'.tapes, r), cfg, RecordOf(v'.world.acked, id), spans + [span]);
      } else {
        assert RecordOf(v'.world.acked, k) == RecordOf(same.world.acked, k);
      }
    }
  }

  /** A step whose replies the state machine accepts has put its handshake at the end of the tape. */
  lemma SentShakes(s: Setup, v: Wired, r: RobotId) returns (span: Span)
    requires r in v.world.inStep && RunStep(v.world.maxRetries, SentFor(s, v, r).replies).ok
    ensures var t := v.world.inStep[r];
            var line := TicketLine(r, t);
            && |TapeOf(v.tapes, r)| <= span.from
            && HandshakeOn(TapeOf(Taped(v.tapes, line, Since(LinkOf(v.links, line), SentFor(s, v, r).link)), r),
                           span, s.cfg, line.device, TicketCode(t))
  {
    hide SendStep, RunStep, TicketCode, EndsInHandshake, HandshakeOn, Since;
    var t, line, sent := v.world.inStep[r], TicketLine(r, v.world.inStep[r]), SentFor(s, v, r);
    var l := LinkOf(v.links, line);
    DoneStepWasConfirmed(s.cfg, l, s.feed(line), DeviceOn(s, line), TicketCode(t), l.plc.command + 1,
                         v.world.maxRetries);
    span := HandshakeTaped(s.cfg, l, sent.link, TapeOf(v.tapes, r), line.device, TicketCode(t));
  }

  /** What the end of a step adds: the handshake of the ticket's command, if it was acknowledged. */
  lemma EndShaken(s: Setup, v: Wired, r: RobotId)
    requires Consistent(v.world) && PlansFollowed(v.world) && Durable(v.world) && HandsShaken(v, s.cfg)
    requires r in v.world.inStep
    ensures HandsShaken(Happens(s, v, Does(DoStepEnd(r, []))), s.cfg)
  {
    hide PlansFollowed, Durable, StepEnd, SentFor, TicketCode, RunStep, HandshakeOn, Taped, WellShaped, Commandable,
      HandsShaken, RobotsKept, Since, GoodStore, NoneLost, QueuesMatch, TicketsMatch, Recorded, TapeOf, LinkOf;
    var t, line, sent := v.world.inStep[r], TicketLine(r, v.world.inStep[r]), SentFor(s, v, r);
    var events := Since(LinkOf(v.links, line), sent.link);
    var v' := Happens(s, v, Does(DoStepEnd(r, [])));
    TicketAtStep(v.world, r);
    StepEndRecords(v.world, r, sent.replies);
    NextKeepsRobots(v.world, DoStepEnd(r, sent.replies));
    if RunStep(v.world.maxRetries, sent.replies).ok {
      var span := SentShakes(s, v, r);
      ShakenOnceMore(v, v', s.cfg, t.id, events, Ack(TicketCode(t), RunStep(v.world.maxRetries, sent.replies).sends),
          span);
    } else {
      forall x ensures TapeOf(v.tapes, x) <= TapeOf(v'.tapes, x) { MarksGrow(v.tapes, line, events, x); }
      ShakenAfter(v, v', s.cfg);
    }
  }

  lemma RetryShaken(s: Setup, v: Wired, id: OrderId)
    requires Consistent(v.world) && Durable(v.world) && HandsShaken(v, s.cfg) && id in v.world.store.orders
    ensures HandsShaken(Happens(s, v, Does(DoRetry(id, true))), s.cfg)
  {
    hide Durable, HandsShaken, RobotsKept, Taped, ResetLine, RetryStore, Snapshot, Since, GoodStore, TicketsMatch,
      NoneLost, QueuesMatch;
    var r := v.world.store.orders[id].robot;
    var car, lift := ResetLine(s, v.links, Line(r, Carro)), ResetLine(s, v.links, Line(r, Elevador));
    var carEvents, liftEvents := Since(LinkOf(v.links, Line(r, Carro)), car.1),
        Since(LinkOf(v.links, Line(r, Elevador)), lift.1);
    var v' := Happens(s, v, Does(DoRetry(id, true)));
    NextKeepsRobots(v.world, DoRetry(id, car.0 && lift.0));
    var tapes := Taped(v.tapes, Line(r, Carro), carEvents);
    forall x ensures TapeOf(v.tapes, x) <= TapeOf(v'.tapes, x) {
      MarksGrow(v.tapes, Line(r, Carro), carEvents, x);
      MarksGrow(tapes, Line(r, Elevador), liftEvents, x);
    }
    ShakenAfter(v, v', s.cfg);
  }

  lemma HappensShaken(s: Setup, v: Wired, h: Happening)
    requires Consistent(v.world) && PlansFollowed(v.world) && Durable(v.world) && HandsShaken(v, s.cfg)
    ensures HandsShaken(Happens(s, v, h), s.cfg)
  {
    hide PlansFollowed, Durable, HandsShaken, RobotsKept, Taped, Next;
    match h
    case Elsewhere(line, link, events) => ElsewhereShaken(s, v, line, link, events);
    case Does(DoStepEnd(r, _)) => if r in v.world.inStep { EndShaken(s, v, r); }
    case Does(DoRetry(id, _)) => if id in v.world.store.orders { RetryShaken(s, v, id); }
    case Does(a) =>
      NextKeepsRobots(v.world, a);
      NextAcked(v.world, a);
      ShakenAfter(v, Acts(v, a), s.cfg);
  }

  lemma ElsewhereShaken(s: Setup, v: Wired, line: Line, link: Link, events: seq<Event>)
    requires HandsShaken(v, s.cfg) && Consistent(v.world)
    ensures HandsShaken(Happens(s, v, Elsewhere(line, link, events)), s.cfg)
  {
    hide HandsShaken, Taped, GoodStore, TicketsMatch, NoneLost, QueuesMatch;
    var v' := Happens(s, v, Elsewhere(line, link, events));
    forall x ensures TapeOf(v.tapes, x) <= TapeOf(v'.tapes, x) { MarksGrow(v.tapes, line, events, x); }
    ShakenAfter(v, v', s.cfg);
  }

  /** The trace grows by at most one action. */
  lemma TraceGrows(s: Setup, v: Wired, h: Happening, w: World)
    requires RetriesInTime(w, Happens(s, v, h).trace)
    ensures RetriesInTime(w, v.trace)
  {
    hide Next, Happens;
    HappensActs(s, v, h);
    var trace := Happens(s, v, h).trace;
    if trace != v.trace { assert trace[..|trace| - 1] == v.trace; }
  }

  lemma {:induction false} ReachableShaken(s: Setup, config: seq<Location>, maxRetries: nat, run: seq<Happening>)
    requires RetriesInTime(Initial(config, maxRetries), WireExec(s, config, maxRetries, run).trace)
    ensures HandsShaken(WireExec(s, config, maxRetries, run), s.cfg)
    decreases |run|
  {
    if run == [] {
      ConfiguredMeaning(config);
    } else {
      hide Consistent, PlansFollowed, Durable, HandsShaken, Happens, RetriesInTime, Initial;
      var before := run[..|run| - 1];
      var v := WireExec(s, config, maxRetries, before);
      TraceGrows(s, v, run[|run| - 1], Initial(config, maxRetries));
      ReachableShaken(s, config, maxRetries, before);
      WireExecIsARun(s, config, maxRetries, before);
      ReachableConsistent(config, maxRetries, v.trace);
      ReachablePlansFollowed(config, maxRetries, v.trace);
      AlwaysDurable(config, maxRetries, v.trace);
      HappensShaken(s, v, run[|run| - 1]);
    }
  }

  /** In every run of orders and wire together whose retries come in time: of a physical order, the wire of its robot
      carries one full handshake for each step it has behind it, five when it is DONE: the planned command on the
      device of that step, each begun after the one before had ended. */
  lemma DoneOrdersShookHands(s: Setup, config: seq<Location>, maxRetries: nat, run: seq<Happening>, id: OrderId)
    returns (spans: seq<Span>)
    requires RetriesInTime(Initial(config, maxRetries), WireExec(s, config, maxRetries, run).trace)
    requires var w := WireExec(s, config, maxRetries, run).world; id in w.store.orders && !Logical(w.store.orders[id])
    ensures var v := WireExec(s, config, maxRetries, run);
            var o := v.world.store.orders[id];
            && |spans| == o.stepIndex <= 5 && (o.status == Done ==> |spans| == 5)
            && (forall k :: 0 <= k < |spans| ==>
                  HandshakeOn(TapeOf(v.tapes, o.robot), spans[k], s.cfg,
                              if k == 1 || k == 3 then Elevador else Carro, Plan(o)[k]))
            && (forall j, k :: 0 <= j < k < |spans| ==> spans[j].to <= spans[k].from)
  {
    hide WireExec, Exec, Initial, RetriesInTime, HandshakeOn, LiftCommand, CarCode, Plan;
    var v := WireExec(s, config, maxRetries, run);
    ReachableShaken(s, config, maxRetries, run);
    WireExecIsARun(s, config, maxRetries, run);
    DoneOrdersFollowedTheirPlan(config, maxRetries, v.trace, id);
    var o := v.world.store.orders[id];
    spans :| Shaken(TapeOf(v.tapes, o.robot), s.cfg, RecordOf(v.world.acked, id), spans);
  }
}
