/** The connection service of src/core/connection/ConnectionService.js for one device: its loops update the
    streak table, the registers and the log in place, and are proved equal to the functions on `Link`. */
module ConnectionServices {
  import opened Sequences
  import opened Domain
  import opened Orchestrator
  import opened PlcProtocol
  import opened ModbusOps
  import opened Handshake

  class ConnectionService {
    const key: string
    const cfg: Config
    /** What the wire, the PLC and the other devices do. */
    const feed: Feed
    var pos: nat
    /** `modbusRecreateStreakByDevice` */
    var streaks: map<string, nat>
    var plc: Plc
    var log: seq<Event>

    ghost function Model(): Link
      reads this
    {
      Link(pos, if key in streaks then streaks[key] else 0, plc, log)
    }

    constructor (key: string, cfg: Config, feed: Feed, plc: Plc)
      ensures Model() == Link(0, 0, plc, []) && this.cfg == cfg && this.feed == feed
    {
      this.key, this.cfg, this.feed, this.plc := key, cfg, feed, plc;
      pos, streaks, log := 0, map[], [];
    }

    /** One try of the operation on the socket. */
    method TryOperation(q: Request) returns (reply: Reply)
      modifies this
      ensures Tried(Model(), reply) == TryOnce(old(Model()), feed(old(pos)), q)
    {
      var a := feed(pos);
      plc := PlcAfter(plc, a, q);
      if a.cleared { streaks := map[]; }
      pos := pos + 1;
      match a.wire
      case Dropped(_) => reply := Lost;
      case Broken(_) => reply := Fault;
      case _ =>
        var value := ReadingOf(plc, a, q);
        log := log + [if q.ReadOut? then Read(value) else Wrote(q.writes)];
        streaks := streaks - {key};
        reply := Value(value);
    }

    /** The inner loop: tries with no recreation in between. */
    method TryInner(q: Request) returns (reply: Reply)
      modifies this
      ensures Tried(Model(), reply) == InnerFrom(cfg.innerAttempts, old(Model()), feed, q, 1)
    {
      var i := 1;
      while i <= cfg.innerAttempts
        invariant 1 <= i <= cfg.innerAttempts + 1
        invariant InnerFrom(cfg.innerAttempts, Model(), feed, q, i)
            == InnerFrom(cfg.innerAttempts, old(Model()), feed, q, 1)
      {
        hide TryOnce;
        reply := TryOperation(q);
        if reply != Lost { return; }
        i := i + 1;
      }
      reply := Lost;
    }

    /** `_runModbusOpInner`: rounds of tries, the client recreated after each lost one, a hard reset of every
        device's streak at the limit. */
    method RunModbusOp(q: Request) returns (result: OpResult)
      modifies this
      ensures OpEnd(Model(), result) == RunOp(cfg, old(Model()), feed, q)
      ensures result == GaveUp(true) ==> streaks == map[]
    {
      var maxRecreateRounds := MaxRounds(cfg.hardLimit);
      var round := 0;
      while round <= maxRecreateRounds
        invariant 0 <= round <= maxRecreateRounds + 1
        invariant RoundsFrom(cfg, Model(), feed, q, round) == RunOp(cfg, old(Model()), feed, q)
      {
        hide InnerFrom, RunOp;
        var reply := TryInner(q);
        if reply.Value? { return Answered(reply.value); }
        if reply.Fault? { return Faulted; }
        var streak := (if key in streaks then streaks[key] else 0) + 1;
        streaks := streaks[key := streak];
        if cfg.hardLimit > 0 && streak >= cfg.hardLimit {
          streaks := map[];
          return GaveUp(true);
        }
        round := round + 1;
      }
      result := GaveUp(false);
    }

    /** `waitForExpectedResponse` */
    method WaitForExpectedResponse(expected: seq<Expected>) returns (w: Waited)
      modifies this
      ensures w == WaitForExpected(cfg, old(Model()), feed, expected) && w.link == Model()
    {
      w := Poll(Confirms(expected), cfg.ackAttempts);
    }

    /** `waitForMessageOutZero` */
    method WaitForMessageOutZero() returns (w: Waited)
      modifies this
      ensures w == WaitForZero(cfg, old(Model()), feed) && w.link == Model()
    {
      w := Poll(IsZero(), cfg.resetAttempts);
    }

    /** The loop both waits share. */
    method Poll(accept: Option<int> -> bool, attempts: nat) returns (w: Waited)
      modifies this
      ensures w == WaitFrom(cfg, old(Model()), feed, accept, attempts, 1, None) && w.link == Model()
    {
      var attempt, last := 1, None;
      while attempt <= attempts
        invariant 1 <= attempt <= attempts + 1
        invariant WaitFrom(cfg, Model(), feed, accept, attempts, attempt, last)
            == WaitFrom(cfg, old(Model()), feed, accept, attempts, 1, None)
      {
        hide RunOp;
        var result := RunModbusOp(ReadOut);
        if !result.Answered? { return Interrupted(Link(pos, if key in streaks then streaks[key] else 0, plc, log)); }
        last := result.value;
        if accept(last) { return Matched(Link(pos, if key in streaks then streaks[key] else 0, plc, log), last); }
        attempt := attempt + 1;
      }
      w := Exhausted(Link(pos, if key in streaks then streaks[key] else 0, plc, log), last);
    }

    /** `resetStepRegisters`; an incomplete reset is fatal. */
    method ResetStepRegisters(device: Device) returns (reply: StepReply)
      modifies this
      ensures (Model(), reply) == ResetStep(cfg, old(Model()), feed, device)
    {
      hide RunOp, WaitFrom;
      var zero := RunModbusOp(Write(ZeroWrites(device), None));
      if !zero.Answered? { return Threw(true); }
      var w := WaitForMessageOutZero();
      reply := if w.Matched? then Acked else Threw(true);
    }

    /** `executeStepCommand` */
    method ExecuteStepCommand(device: Option<Device>, value: nat, expected: seq<Expected>,
                              n: nat) returns (reply: StepReply)
      modifies this
      ensures var o := ExecuteStep(cfg, old(Model()), feed, device, value, expected, n);
              Model() == o.link && reply == o.reply
    {
      hide RunOp, WaitFrom, ResetStep, CommandWrites;
      if device.None? { return Threw(true); }
      var sent := RunModbusOp(Write(CommandWrites(device.value, value), Some(n)));
      if !sent.Answered? { return Threw(false); }
      var w := WaitForExpectedResponse(expected);
      match w
      case Interrupted(_) => reply := Threw(false);
      case Exhausted(_, last) => reply := Rejection(last);
      case Matched(_, _) => reply := ResetStepRegisters(device.value);
    }
  }
}
