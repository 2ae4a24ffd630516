/** Which command an accepted response answers, for a PLC that answers only a non-zero messageIn and clears
    messageOut only once messageIn is zero. */
module Acknowledgements {
  import opened Sequences
  import opened Domain
  import opened Orchestrator
  import opened PlcProtocol
  import opened ModbusOps
  import opened Handshake

  // ---------- invariants of the registers ----------

  /** messageOut, if it says anything that matters, answers a command after number d, and so will a pending one. */
  predicate After(p: Plc, d: nat, code: Option<int>) {
    && (p.out != 0 && (code.Some? ==> p.out == code.value) ==> p.tag > d)
    && (Commanded(p) ==> p.command > d)
  }

  /** Answers and pending commands are numbered up to n. */
  predicate UpTo(p: Plc, n: nat) { p.tag <= n && p.command <= n }

  /** The request writes zeroes, or a command with a number in the range. */
  ghost predicate InRange(q: Request, d: nat, n: nat) {
    q.Write? ==>
      if q.command.Some? then d < q.command.value <= n
      else forall i :: 0 <= i < |q.writes| ==> q.writes[i].value == 0
  }

  /** Registers the invariants speak of. */
  predicate Sound(p: Plc, d: nat, n: nat, code: Option<int>) { After(p, d, code) && UpTo(p, n) }

  lemma {:induction false} WritesSound(p: Plc, writes: seq<RegWrite>, command: Option<nat>, d: nat, n: nat,
                                       code: Option<int>)
    requires Sound(p, d, n, code) && InRange(Write(writes, command), d, n)
    ensures Sound(WriteAll(p, writes, command), d, n, code)
    decreases |writes|
  {
    if writes != [] {
      forall i | 0 <= i < |writes[1..]| && command.None? ensures writes[1..][i].value == 0 { }
      WritesSound(WriteOne(p, writes[0], command), writes[1..], command, d, n, code);
    }
  }

  lemma {:induction false} MovesSound(p: Plc, moves: seq<Move>, d: nat, n: nat, code: Option<int>)
    requires Sound(p, d, n, code)
    ensures Sound(Moved(p, moves), d, n, code)
    decreases |moves|
  {
    if moves != [] { MovesSound(MoveOne(p, moves[0]), moves[1..], d, n, code); }
  }

  lemma AttemptSound(p: Plc, a: Attempt, q: Request, d: nat, n: nat, code: Option<int>)
    requires Sound(p, d, n, code) && InRange(q, d, n)
    ensures Sound(PlcAfter(p, a, q), d, n, code)
  {
    var m := Moved(p, a.moves);
    MovesSound(p, a.moves, d, n, code);
    hide Moved, Sound;
    if q.Write? {
      WritesSound(m, q.writes, q.command, d, n, code);
      if a.wire.Dropped? { WritesSound(m, Prefix(q.writes, a.wire.written), q.command, d, n, code); }
      if a.wire.Broken? { WritesSound(m, Prefix(q.writes, a.wire.written), q.command, d, n, code); }
    }
  }

  function SoundFor(d: nat, n: nat, code: Option<int>): Plc -> bool { (p: Plc) => Sound(p, d, n, code) }

  lemma SoundKept(q: Request, d: nat, n: nat, code: Option<int>)
    requires InRange(q, d, n)
    ensures Preserves(SoundFor(d, n, code), q)
  {
    forall p: Plc, a: Attempt | SoundFor(d, n, code)(p)
      ensures SoundFor(d, n, code)(PlcAfter(p, a, q))
    {
      AttemptSound(p, a, q, d, n, code);
    }
  }

  lemma ZeroInRange(device: Device, d: nat, n: nat)
    ensures InRange(Write(ZeroWrites(device), None), d, n)
  {
  }

  /** A step numbered after d keeps the registers sound, and what it accepts answers a command after d. */
  lemma StepSound(cfg: Config, l: Link, feed: Feed, device: Device, value: nat, n: nat, d: nat, code: Option<int>)
    requires Sound(l.plc, d, n, code) && d < n && (code == None || code == Some(100))
    ensures var o := ExecuteStep(cfg, l, feed, Some(device), value, StepExpects, n);
            Sound(o.link.plc, d, n, code) && (o.accepted.Some? ==> d < o.accepted.value <= n)
  {
    var inv := SoundFor(d, n, code);
    var q, q0 := Write(CommandWrites(device, value), Some(n)), Write(ZeroWrites(device), None);
    SoundKept(q, d, n, code);
    SoundKept(q0, d, n, code) by { ZeroInRange(device, d, n); }
    SoundKept(ReadOut, d, n, code);
    OpKeeps(cfg, l, feed, q, inv);
    var sent := RunOp(cfg, l, feed, q);
    hide Preserves, RunOp, WaitFrom, CommandWrites, ZeroWrites, InRange, DecodeResponse, MatchesExpected;
    WaitKeeps(cfg, sent.link, feed, Confirms(StepExpects), cfg.ackAttempts, 1, None, inv);
    var w := WaitForExpected(cfg, sent.link, feed, StepExpects);
    if sent.result.Answered? && w.Matched? {
      MatchIsHundred(w.value);
      OpKeeps(cfg, w.link, feed, q0, inv);
      var zero := RunOp(cfg, w.link, feed, q0);
      WaitKeeps(cfg, zero.link, feed, IsZero(), cfg.resetAttempts, 1, None, inv);
    }
  }

  lemma MatchIsHundred(v: Option<int>)
    ensures Confirms(StepExpects)(v) ==> v == Some(100)
  {
    OnlyHundredConfirms(v);
  }

  // ---------- when a step can only be confirmed by its own answer ----------

  /** Everything arrives; a pending command is answered just before the first attempt. */
  function StaleFeed(l: Link): Feed {
    (k: nat) => Attempt(if k == l.pos && Commanded(l.plc) then [Answer(100)] else [], Delivered, false)
  }

  lemma {:induction false} WritesKeepOut(p: Plc, writes: seq<RegWrite>, command: Option<nat>)
    ensures var p' := WriteAll(p, writes, command); p'.out == p.out && p'.tag == p.tag
    decreases |writes|
  {
    if writes != [] { WritesKeepOut(WriteOne(p, writes[0], command), writes[1..], command); }
  }

  lemma DeliveredOp(cfg: Config, l: Link, feed: Feed, q: Request)
    requires cfg.innerAttempts >= 1 && feed(l.pos).wire.Delivered?
    ensures var e, p := RunOp(cfg, l, feed, q), PlcAfter(l.plc, feed(l.pos), q);
            && e.link.plc == p && e.link.pos == l.pos + 1
            && e.result == Answered(if q.ReadOut? then Some(p.out) else None)
  {
    hide PlcAfter;
  }

  lemma StaleAnswerAccepted(cfg: Config, l: Link, device: Device, value: nat, n: nat)
    requires cfg.innerAttempts >= 1 && cfg.ackAttempts >= 1 && l.plc.tag < n && l.plc.command < n
    requires l.plc.out == 100 || Commanded(l.plc)
    ensures var o := ExecuteStep(cfg, l, StaleFeed(l), Some(device), value, StepExpects, n);
            o.accepted.Some? && o.accepted.value < n
  {
    var feed := StaleFeed(l);
    var q := Write(CommandWrites(device, value), Some(n));
    DeliveredOp(cfg, l, feed, q);
    assert [Answer(100)][1..] == []
           && Moved(l.plc, [Answer(100)]) == Moved(MoveOne(l.plc, Answer(100)), [Answer(100)][1..]);
    WritesKeepOut(Moved(l.plc, feed(l.pos).moves), q.writes, q.command);
    var sent := RunOp(cfg, l, feed, q);
    assert sent.link.plc.out == 100 && sent.link.plc.tag < n;
    DeliveredOp(cfg, sent.link, feed, ReadOut);
    OnlyHundredConfirms(Some(100));
    hide RunOp, CommandWrites, ZeroWrites, MatchesExpected, DecodeResponse, ResetStep;
    assert WaitForExpected(cfg, sent.link, feed, StepExpects).Matched?;
  }

  /** Whatever the wire and the PLC do, a step is confirmed only by an answer to its own command, exactly when
      it starts with messageIn zero and messageOut not 100. */
  lemma OwnAnswerExactly(cfg: Config, l: Link, device: Device, value: nat, n: nat)
    requires cfg.innerAttempts >= 1 && cfg.ackAttempts >= 1 && l.plc.tag < n && l.plc.command < n
    ensures !Commanded(l.plc) && l.plc.out != 100 <==>
            forall feed: Feed ::
              var o := ExecuteStep(cfg, l, feed, Some(device), value, StepExpects, n);
              o.accepted.Some? ==> o.accepted.value == n
  {
    if !Commanded(l.plc) && l.plc.out != 100 {
      forall feed: Feed
        ensures var o := ExecuteStep(cfg, l, feed, Some(device), value, StepExpects, n);
                o.accepted.Some? ==> o.accepted.value == n
      {
        StepSound(cfg, l, feed, device, value, n, n - 1, Some(100));
      }
    } else {
      StaleAnswerAccepted(cfg, l, device, value, n);
      var o := ExecuteStep(cfg, l, StaleFeed(l), Some(device), value, StepExpects, n);
      assert o.accepted.Some? && o.accepted.value != n;
    }
    hide ExecuteStep;
  }

  // ---------- every run of one device ----------

  /** A step command, or the reset of messageIn that precedes an order retry. */
  datatype DeviceEvent = Command(value: nat) | ResetIn

  datatype Confirmed = Confirmed(step: nat, answered: nat)

  /** `steps` commands so far; `done` lists the confirmed ones with the command their response answered. */
  datatype DeviceRun = DeviceRun(link: Link, steps: nat, done: seq<Confirmed>)

  const FreshPlc := Plc(0, 0, 0, 0, 0)

  const FreshDevice := DeviceRun(Link(0, 0, FreshPlc, []), 0, [])

  function DeviceNext(cfg: Config, feed: Feed, device: Device, r: DeviceRun, e: DeviceEvent): DeviceRun {
    match e
    case Command(value) =>
      var o := ExecuteStep(cfg, r.link, feed, Some(device), value, StepExpects, r.steps + 1);
      DeviceRun(o.link, r.steps + 1,
                if o.reply == Acked && o.accepted.Some? then r.done + [Confirmed(r.steps + 1, o.accepted.value)]
                else r.done)
    case ResetIn => r.(link := RunOp(cfg, r.link, feed, Write(ZeroWrites(device), None)).link)
  }

  function DeviceExec(cfg: Config, feed: Feed, device: Device, events: seq<DeviceEvent>): DeviceRun
    decreases |events|
  {
    if events == [] then FreshDevice
    else DeviceNext(cfg, feed, device, DeviceExec(cfg, feed, device, events[..|events| - 1]), events[|events| - 1])
  }

  function LastDone(done: seq<Confirmed>): nat { if done == [] then 0 else done[|done| - 1].step }

  /** Each confirmation answers a command sent after the previously confirmed step. */
  ghost predicate FreshConfirmations(done: seq<Confirmed>) {
    forall i :: 0 <= i < |done| ==> LastDone(done[..i]) < done[i].answered <= done[i].step
  }

  ghost predicate DeviceSound(r: DeviceRun, device: Device) {
    && FreshConfirmations(r.done) && LastDone(r.done) <= r.steps
    && Sound(r.link.plc, LastDone(r.done), r.steps, None)
    && (device == Elevador ==> r.link.plc.inLow == 0)
  }

  // ---------- a confirmed step leaves the registers at rest ----------

  /** The lift's second register is never written. */
  function LowFor(device: Device): Plc -> bool { (p: Plc) => device == Elevador ==> p.inLow == 0 }

  lemma {:induction false} FirstOnly(p: Plc, writes: seq<RegWrite>, command: Option<nat>)
    requires forall i :: 0 <= i < |writes| ==> !writes[i].second
    ensures WriteAll(p, writes, command).inLow == p.inLow
    decreases |writes|
  {
    if writes != [] { FirstOnly(WriteOne(p, writes[0], command), writes[1..], command); }
  }

  lemma {:induction false} MovesKeepLow(p: Plc, moves: seq<Move>)
    requires p.inLow == 0
    ensures Moved(p, moves).inLow == 0
    decreases |moves|
  {
    if moves != [] { MovesKeepLow(MoveOne(p, moves[0]), moves[1..]); }
  }

  lemma LowKept(device: Device, q: Request)
    requires q.Write? && device == Elevador ==> forall i :: 0 <= i < |q.writes| ==> !q.writes[i].second
    ensures Preserves(LowFor(device), q)
  {
    forall p: Plc, a: Attempt | LowFor(device)(p) ensures LowFor(device)(PlcAfter(p, a, q)) {
      var m := Moved(p, a.moves);
      if device == Elevador { MovesKeepLow(p, a.moves); }
      if q.Write? && device == Elevador {
        FirstOnly(m, q.writes, q.command);
        if a.wire.Dropped? { FirstOnly(m, Prefix(q.writes, a.wire.written), q.command); }
        if a.wire.Broken? { FirstOnly(m, Prefix(q.writes, a.wire.written), q.command); }
      }
    }
  }

  function AtRest(): Plc -> bool { (p: Plc) => !Commanded(p) }

  lemma {:induction false} MovesKeepRest(p: Plc, moves: seq<Move>)
    requires !Commanded(p)
    ensures !Commanded(Moved(p, moves))
    decreases |moves|
  {
    if moves != [] { MovesKeepRest(MoveOne(p, moves[0]), moves[1..]); }
  }

  lemma RestKept()
    ensures Preserves(AtRest(), ReadOut)
  {
    forall p: Plc, a: Attempt | AtRest()(p) ensures AtRest()(PlcAfter(p, a, ReadOut)) { MovesKeepRest(p, a.moves); }
  }

  lemma ZeroWritten(m: Plc, device: Device)
    ensures var p := WriteAll(m, ZeroWrites(device), None); p.inHigh == 0 && (device == Carro ==> p.inLow == 0)
  {
    var writes := ZeroWrites(device);
    var one := WriteOne(m, writes[0], None);
    if device == Carro {
      assert WriteAll(one, writes[1..], None) == WriteAll(WriteOne(one, writes[1], None), writes[1..][1..], None);
    }
  }

  /** The last attempt brought data. */
  predicate LastReadBrings(feed: Feed, l: Link) { l.pos > 0 ==> !feed(l.pos - 1).wire.Empty? }

  lemma ResetLeavesRest(cfg: Config, l: Link, feed: Feed, device: Device)
    requires LowFor(device)(l.plc)
    requires var reset := ResetStep(cfg, l, feed, device); reset.1 == Acked && LastReadBrings(feed, reset.0)
    ensures var p := ResetStep(cfg, l, feed, device).0.plc; !Commanded(p) && p.out == 0
  {
    var q0 := Write(ZeroWrites(device), None);
    LowKept(device, q0);
    OpKeeps(cfg, l, feed, q0, LowFor(device));
    OpLogged(cfg, l, feed, q0);
    var zero := RunOp(cfg, l, feed, q0);
    hide RunOp, Preserves, WaitFrom;
    var m: Plc :| zero.link.plc == WriteAll(m, ZeroWrites(device), None);
    ZeroWritten(m, device);
    RestKept();
    WaitKeeps(cfg, zero.link, feed, IsZero(), cfg.resetAttempts, 1, None, AtRest());
  }

  /** A confirmed step ends with messageIn zero and messageOut zero, provided its last read, the one that ends the
      wait for zero, brought data. */
  lemma DoneLeavesRest(cfg: Config, l: Link, feed: Feed, device: Device, value: nat, n: nat)
    requires LowFor(device)(l.plc)
    requires var o := ExecuteStep(cfg, l, feed, Some(device), value, StepExpects, n);
             o.reply == Acked && LastReadBrings(feed, o.link)
    ensures var p := ExecuteStep(cfg, l, feed, Some(device), value, StepExpects, n).link.plc;
            !Commanded(p) && p.out == 0
  {
    var q := Write(CommandWrites(device, value), Some(n));
    LowKept(device, q);
    LowKept(device, ReadOut);
    OpKeeps(cfg, l, feed, q, LowFor(device));
    var sent := RunOp(cfg, l, feed, q);
    hide RunOp, Preserves, WaitFrom, ResetStep, DecodeResponse;
    WaitKeeps(cfg, sent.link, feed, Confirms(StepExpects), cfg.ackAttempts, 1, None, LowFor(device));
    ResetLeavesRest(cfg, WaitForExpected(cfg, sent.link, feed, StepExpects).link, feed, device);
  }

  lemma StepLow(cfg: Config, l: Link, feed: Feed, device: Device, value: nat, n: nat)
    requires LowFor(device)(l.plc)
    ensures LowFor(device)(ExecuteStep(cfg, l, feed, Some(device), value, StepExpects, n).link.plc)
  {
    var inv := LowFor(device);
    var q, q0 := Write(CommandWrites(device, value), Some(n)), Write(ZeroWrites(device), None);
    LowKept(device, q);
    LowKept(device, q0);
    LowKept(device, ReadOut);
    OpKeeps(cfg, l, feed, q, inv);
    var sent := RunOp(cfg, l, feed, q);
    hide Preserves, RunOp, WaitFrom, CommandWrites, ZeroWrites, DecodeResponse;
    WaitKeeps(cfg, sent.link, feed, Confirms(StepExpects), cfg.ackAttempts, 1, None, inv);
    var w := WaitForExpected(cfg, sent.link, feed, StepExpects);
    if sent.result.Answered? && w.Matched? {
      OpKeeps(cfg, w.link, feed, q0, inv);
      var zero := RunOp(cfg, w.link, feed, q0);
      WaitKeeps(cfg, zero.link, feed, IsZero(), cfg.resetAttempts, 1, None, inv);
    }
  }

  lemma OneMoreConfirmed(done: seq<Confirmed>, c: Confirmed)
    requires FreshConfirmations(done) && LastDone(done) < c.answered <= c.step
    ensures FreshConfirmations(done + [c]) && LastDone(done + [c]) == c.step
  {
    var more := done + [c];
    forall i | 0 <= i < |more| ensures LastDone(more[..i]) < more[i].answered <= more[i].step {
      assert more[..i] == done[..i];
      assert done[..|done|] == done;
    }
  }

  /** The event is no confirmed step whose wait for zero ended on a read with no data. */
  predicate ZeroSeen(cfg: Config, feed: Feed, device: Device, r: DeviceRun, e: DeviceEvent) {
    match e
    case Command(value) =>
      var o := ExecuteStep(cfg, r.link, feed, Some(device), value, StepExpects, r.steps + 1);
      o.reply == Acked ==> LastReadBrings(feed, o.link)
    case ResetIn => true
  }

  /** So for every event of the run. */
  predicate ZerosSeen(cfg: Config, feed: Feed, device: Device, events: seq<DeviceEvent>)
    decreases |events|
  {
    events == [] ||
    (var before := events[..|events| - 1];
     ZerosSeen(cfg, feed, device, before)
     && ZeroSeen(cfg, feed, device, DeviceExec(cfg, feed, device, before), events[|events| - 1]))
  }

  lemma UpToMore(p: Plc, d: nat, n: nat)
    requires Sound(p, d, n, None)
    ensures Sound(p, d, n + 1, None)
  {
  }

  lemma RestSound(p: Plc, d: nat, n: nat)
    requires Sound(p, d, n, None) && !Commanded(p) && p.out == 0
    ensures Sound(p, n, n, None)
  {
  }

  lemma CommandKeepsSound(cfg: Config, feed: Feed, device: Device, r: DeviceRun, value: nat)
    requires DeviceSound(r, device) && ZeroSeen(cfg, feed, device, r, Command(value))
    ensures DeviceSound(DeviceNext(cfg, feed, device, r, Command(value)), device)
  {
    hide ExecuteStep, FreshConfirmations, Sound, Commanded;
    var n, d := r.steps + 1, LastDone(r.done);
    var o := ExecuteStep(cfg, r.link, feed, Some(device), value, StepExpects, n);
    assert Sound(r.link.plc, d, n, None) by { UpToMore(r.link.plc, d, r.steps); }
    StepSound(cfg, r.link, feed, device, value, n, d, None);
    StepLow(cfg, r.link, feed, device, value, n);
    if o.reply == Acked {
      ConfirmedIsFinal(cfg, r.link, feed, Some(device), value, StepExpects, n);
      DoneLeavesRest(cfg, r.link, feed, device, value, n);
      RestSound(o.link.plc, d, n);
      OneMoreConfirmed(r.done, Confirmed(n, o.accepted.value));
    }
  }

  lemma ResetKeepsSound(cfg: Config, feed: Feed, device: Device, r: DeviceRun)
    requires DeviceSound(r, device)
    ensures DeviceSound(DeviceNext(cfg, feed, device, r, ResetIn), device)
  {
    var d := LastDone(r.done);
    var q0 := Write(ZeroWrites(device), None);
    SoundKept(q0, d, r.steps, None) by { ZeroInRange(device, d, r.steps); }
    LowKept(device, q0);
    OpKeeps(cfg, r.link, feed, q0, SoundFor(d, r.steps, None));
    OpKeeps(cfg, r.link, feed, q0, LowFor(device));
    hide RunOp, Preserves;
  }

  lemma {:induction false} DeviceAlwaysSound(cfg: Config, feed: Feed, device: Device, events: seq<DeviceEvent>)
    requires ZerosSeen(cfg, feed, device, events)
    ensures DeviceSound(DeviceExec(cfg, feed, device, events), device)
    decreases |events|
  {
    if events != [] {
      var r := DeviceExec(cfg, feed, device, events[..|events| - 1]);
      DeviceAlwaysSound(cfg, feed, device, events[..|events| - 1]);
      match events[|events| - 1]
      case Command(value) => CommandKeepsSound(cfg, feed, device, r, value);
      case ResetIn => ResetKeepsSound(cfg, feed, device, r);
    }
  }

  /** Over every run of step commands and resets on a device that starts at rest, whatever the wire, the PLC and the
      resets made in the middle of a step do, no confirmation is left over from an earlier confirmed step: it
      answers a command sent after it. All that is assumed is data in the read that ends each step's wait for zero. */
  lemma NoLeftoverConfirmation(cfg: Config, feed: Feed, device: Device, events: seq<DeviceEvent>)
    requires ZerosSeen(cfg, feed, device, events)
    ensures var done := DeviceExec(cfg, feed, device, events).done;
            forall i :: 0 <= i < |done| ==> (if i == 0 then 0 else done[i - 1].step) < done[i].answered <= done[i].step
  {
    DeviceAlwaysSound(cfg, feed, device, events);
    var done := DeviceExec(cfg, feed, device, events).done;
    forall i | 0 <= i < |done| ensures (if i == 0 then 0 else done[i - 1].step) < done[i].answered <= done[i].step {
      assert LastDone(done[..i]) == if i == 0 then 0 else done[i - 1].step;
    }
  }

  // ---------- where a left-over answer confirms ----------

  /** One attempt for everything. */
  const OneShot := Config(10, 1, 1, 1)

  predicate Smooth(feed: Feed, k: nat) { feed(k).wire.Delivered? || feed(k).wire.Empty? }

  lemma SmoothOp(l: Link, feed: Feed, q: Request)
    requires Smooth(feed, l.pos)
    ensures var e, p := RunOp(OneShot, l, feed, q), PlcAfter(l.plc, feed(l.pos), q);
            e.link.plc == p && e.link.pos == l.pos + 1 && e.result == Answered(ReadingOf(p, feed(l.pos), q))
  {
    hide PlcAfter, ReadingOf;
  }

  lemma OnePoll(l: Link, feed: Feed, accept: Option<int> -> bool)
    requires Smooth(feed, l.pos)
    ensures var w, p := WaitFrom(OneShot, l, feed, accept, 1, 1, None), PlcAfter(l.plc, feed(l.pos), ReadOut);
            var v := ReadingOf(p, feed(l.pos), ReadOut);
            && w.link.plc == p && w.link.pos == l.pos + 1
            && (if accept(v) then w.Matched? else w.Exhausted?)
  {
    SmoothOp(l, feed, ReadOut);
    var e := RunOp(OneShot, l, feed, ReadOut);
    assert WaitFrom(OneShot, e.link, feed, accept, 1, 2, e.result.value).Exhausted?;
    hide RunOp, PlcAfter, ReadingOf;
  }

  lemma OneWrite(p: Plc, a: Attempt, value: int, command: Option<nat>)
    requires a.wire.Delivered? || a.wire.Empty?
    ensures PlcAfter(p, a, Write([RegWrite(false, value)], command))
        == WriteOne(Moved(p, a.moves), RegWrite(false, value), command)
  {
    var m, w := Moved(p, a.moves), RegWrite(false, value);
    assert [w][1..] == [];
    assert WriteAll(WriteOne(m, w, command), [], command) == WriteOne(m, w, command);
    assert WriteAll(m, [w], command) == WriteAll(WriteOne(m, w, command), [w][1..], command);
  }

  lemma OneRead(p: Plc, a: Attempt)
    ensures PlcAfter(p, a, ReadOut) == Moved(p, a.moves)
  {
  }

  /** A lift command whose four operations go through at once. */
  lemma SmoothStep(l: Link, feed: Feed, value: nat, n: nat)
    requires Smooth(feed, l.pos) && Smooth(feed, l.pos + 1) && Smooth(feed, l.pos + 2) && Smooth(feed, l.pos + 3)
    ensures var o := ExecuteStep(OneShot, l, feed, Some(Elevador), value, StepExpects, n);
            var p1 := WriteOne(Moved(l.plc, feed(l.pos).moves), RegWrite(false, value), Some(n));
            var p2 := Moved(p1, feed(l.pos + 1).moves);
            var p3 := WriteOne(Moved(p2, feed(l.pos + 2).moves), RegWrite(false, 0), None);
            var p4 := Moved(p3, feed(l.pos + 3).moves);
            if ReadingOf(p2, feed(l.pos + 1), ReadOut) == Some(100) then
              && o.accepted == Some(p2.tag) && o.link.plc == p4 && o.link.pos == l.pos + 4
              && (IsZero()(ReadingOf(p4, feed(l.pos + 3), ReadOut)) ==> o.reply == Acked)
            else o.link.plc == p2 && o.link.pos == l.pos + 2 && o.reply != Acked
  {
    var q, q0 := Write([RegWrite(false, value)], Some(n)), Write([RegWrite(false, 0)], None);
    SmoothOp(l, feed, q);
    OneWrite(l.plc, feed(l.pos), value, Some(n));
    var sent := RunOp(OneShot, l, feed, q);
    OnePoll(sent.link, feed, Confirms(StepExpects));
    OnlyHundredConfirms(Some(100));
    var w := WaitForExpected(OneShot, sent.link, feed, StepExpects);
    MatchIsHundred(ReadingOf(w.link.plc, feed(l.pos + 1), ReadOut));
    SmoothOp(w.link, feed, q0);
    OneWrite(w.link.plc, feed(l.pos + 2), 0, None);
    var zero := RunOp(OneShot, w.link, feed, q0);
    OnePoll(zero.link, feed, IsZero());
    OneRead(sent.link.plc, feed(l.pos + 1));
    OneRead(zero.link.plc, feed(l.pos + 3));
    hide RunOp, PlcAfter, WriteOne, Moved, ReadingOf, WaitFrom, MatchesExpected, DecodeResponse;
  }

  lemma DeviceTwo(feed: Feed, a: DeviceEvent, b: DeviceEvent)
    ensures DeviceExec(OneShot, feed, Elevador, [a, b])
         == DeviceNext(OneShot, feed, Elevador, DeviceNext(OneShot, feed, Elevador, FreshDevice, a), b)
  {
    hide DeviceNext;
    assert [a, b][..1] == [a] && [a][..0] == [];
    assert DeviceExec(OneShot, feed, Elevador, []) == FreshDevice;
    assert DeviceExec(OneShot, feed, Elevador, [a]) == DeviceNext(OneShot, feed, Elevador, FreshDevice, a);
  }

  lemma DeviceThree(feed: Feed, a: DeviceEvent, b: DeviceEvent, c: DeviceEvent)
    ensures DeviceExec(OneShot, feed, Elevador, [a, b, c])
         == DeviceNext(OneShot, feed, Elevador, DeviceExec(OneShot, feed, Elevador, [a, b]), c)
  {
    hide DeviceNext;
    assert [a, b, c][..2] == [a, b];
  }

  /** The first lift command is given up; the PLC answers it before messageIn is reset, and nothing waits for
      messageOut to return to zero. */
  function LateFeed(): Feed {
    (k: nat) => Attempt(if k == 2 then [Answer(100)] else if k == 6 then [ClearOut] else [], Delivered, false)
  }

  /** After a failed step and the reset of a retry, a different command is confirmed by the answer to the
      failed one. */
  lemma RetryConfirmedByOldAnswer(first: nat, second: nat)
    requires first > 0
    ensures DeviceExec(OneShot, LateFeed(), Elevador, [Command(first), ResetIn, Command(second)]).done
        == [Confirmed(2, 1)]
  {
    var feed := LateFeed();
    DeviceTwo(feed, Command(first), ResetIn);
    DeviceThree(feed, Command(first), ResetIn, Command(second));
    hide DeviceExec, ExecuteStep, RunOp;
    SmoothStep(FreshDevice.link, feed, first, 1);
    var r1 := DeviceNext(OneShot, feed, Elevador, FreshDevice, Command(first));
    assert r1.link.plc == Plc(first, 0, 0, 1, 0) && r1.link.pos == 2 && r1.done == [];
    SmoothOp(r1.link, feed, Write(ZeroWrites(Elevador), None));
    OneWrite(r1.link.plc, feed(2), 0, None);
    var r2 := DeviceNext(OneShot, feed, Elevador, r1, ResetIn);
    assert r2.link.plc == Plc(0, 0, 100, 1, 1) && r2.link.pos == 3;
    SmoothStep(r2.link, feed, second, 2);
    var r3 := DeviceNext(OneShot, feed, Elevador, r2, Command(second));
    assert r3.done == [Confirmed(2, 1)];
  }

  /** The read that should see zero brings no data. */
  function EmptyFeed(): Feed {
    (k: nat) => Attempt(if k == 1 then [Answer(100)] else if k == 7 then [ClearOut] else [],
                        if k == 3 then Empty else Delivered, false)
  }

  /** An empty read is taken for zero, and the next command is then confirmed by the answer to the one before. */
  lemma EmptyReadLetsOldAnswerConfirm(first: nat, second: nat)
    requires first > 0
    ensures DeviceExec(OneShot, EmptyFeed(), Elevador, [Command(first), Command(second)]).done
        == [Confirmed(1, 1), Confirmed(2, 1)]
  {
    var feed := EmptyFeed();
    DeviceTwo(feed, Command(first), Command(second));
    hide DeviceExec, ExecuteStep, RunOp;
    SmoothStep(FreshDevice.link, feed, first, 1);
    var r1 := DeviceNext(OneShot, feed, Elevador, FreshDevice, Command(first));
    assert r1.link.plc == Plc(0, 0, 100, 1, 1) && r1.link.pos == 4 && r1.done == [Confirmed(1, 1)];
    SmoothStep(r1.link, feed, second, 2);
    var r2 := DeviceNext(OneShot, feed, Elevador, r1, Command(second));
    assert r2.done == [Confirmed(1, 1), Confirmed(2, 1)];
  }
}
