/** One step on the wire (`executeStepCommand` and its helpers in src/core/connection/ConnectionService.js):
    command, confirmation, reset of messageIn, return of messageOut to zero. */
module Handshake {
  import opened Sequences
  import opened Location
  import opened Domain
  import opened Orchestrator
  import opened PlcProtocol
  import opened ModbusOps

  /** The car takes its command over two registers, the lift over one. */
  function CommandWrites(device: Device, value: nat): seq<RegWrite> {
    match device
    case Carro => var s := SplitCarCommand(value); [RegWrite(false, s.high), RegWrite(true, s.low)]
    case Elevador => [RegWrite(false, value)]
  }

  function ZeroWrites(device: Device): seq<RegWrite> {
    match device
    case Carro => [RegWrite(false, 0), RegWrite(true, 0)]
    case Elevador => [RegWrite(false, 0)]
  }

  function Confirms(expected: seq<Expected>): Option<int> -> bool { (v: Option<int>) => MatchesExpected(v, expected) }

  /** `Number(lastValue) === 0`: an empty read counts as zero. */
  function IsZero(): Option<int> -> bool { (v: Option<int>) => v == None || v == Some(0) }

  datatype Waited =
    | Matched(link: Link, value: Option<int>)
    | Exhausted(link: Link, value: Option<int>)
    | Interrupted(link: Link)

  /** Both polling loops, from the given attempt on. */
  function WaitFrom(cfg: Config, l: Link, feed: Feed, accept: Option<int> -> bool, attempts: nat, attempt: nat,
                    last: Option<int>): Waited
    decreases attempts + 1 - attempt
  {
    if attempt > attempts then Exhausted(l, last)
    else
      var e := RunOp(cfg, l, feed, ReadOut);
      if !e.result.Answered? then Interrupted(e.link)
      else if accept(e.result.value) then Matched(e.link, e.result.value)
      else WaitFrom(cfg, e.link, feed, accept, attempts, attempt + 1, e.result.value)
  }

  function WaitForExpected(cfg: Config, l: Link, feed: Feed, expected: seq<Expected>): Waited {
    WaitFrom(cfg, l, feed, Confirms(expected), cfg.ackAttempts, 1, None)
  }

  function WaitForZero(cfg: Config, l: Link, feed: Feed): Waited {
    WaitFrom(cfg, l, feed, IsZero(), cfg.resetAttempts, 1, None)
  }

  /** `accepted` numbers the command that the accepted response answered, once there is one. */
  datatype StepOutcome = StepOutcome(link: Link, reply: StepReply, accepted: Option<nat>)

  /** `resetStepRegisters` and the fatal error when it is incomplete. */
  function ResetStep(cfg: Config, l: Link, feed: Feed, device: Device): (Link, StepReply) {
    var zero := RunOp(cfg, l, feed, Write(ZeroWrites(device), None));
    if !zero.result.Answered? then (zero.link, Threw(true))
    else
      var w := WaitForZero(cfg, zero.link, feed);
      (w.link, if w.Matched? then Acked else Threw(true))
  }

  function Rejection(last: Option<int>): StepReply {
    match DecodeResponse(last)
    case ErrorCode(code) => PlcError(code)
    case _ => Mismatch
  }

  /** `executeStepCommand` for step command number n; no device is a fatal error. */
  function ExecuteStep(cfg: Config, l: Link, feed: Feed, device: Option<Device>, value: nat, expected: seq<Expected>,
                       n: nat): StepOutcome {
    if device.None? then StepOutcome(l, Threw(true), None)
    else
      var sent := RunOp(cfg, l, feed, Write(CommandWrites(device.value, value), Some(n)));
      if !sent.result.Answered? then StepOutcome(sent.link, Threw(false), None)
      else
        var w := WaitForExpected(cfg, sent.link, feed, expected);
        match w
        case Interrupted(l1) => StepOutcome(l1, Threw(false), None)
        case Exhausted(l1, last) => StepOutcome(l1, Rejection(last), None)
        case Matched(l1, _) =>
          var reset := ResetStep(cfg, l1, feed, device.value);
          StepOutcome(reset.0, reset.1, Some(l1.plc.tag))
  }

  // ---------- what an operation leaves in the log and in the registers ----------

  function EventOf(q: Request, value: Option<int>): Event {
    if q.ReadOut? then Read(value) else Wrote(q.writes)
  }

  /** All the writes have reached the registers. */
  ghost predicate Written(p: Plc, q: Request) { q.Write? ==> exists m: Plc :: p == WriteAll(m, q.writes, q.command) }

  /** An operation is logged once it completes, and only then; its writes are then in the registers, and a
      read has returned messageOut as it now is unless the last attempt brought no data. */
  ghost predicate Logged(l: Link, feed: Feed, q: Request, e: OpEnd) {
    if e.result.Answered? then
      && e.link.log == l.log + [EventOf(q, e.result.value)] && e.link.pos > 0 && Written(e.link.plc, q)
      && (q.ReadOut? ==> e.result.value == if feed(e.link.pos - 1).wire.Empty? then None else Some(e.link.plc.out))
    else e.link.log == l.log
  }

  lemma {:induction false} InnerLogged(n: nat, l: Link, feed: Feed, q: Request, i: nat)
    ensures var t := InnerFrom(n, l, feed, q, i);
            Logged(l, feed, q, OpEnd(t.link, if t.reply.Value? then Answered(t.reply.value) else Faulted))
    decreases n + 1 - i
  {
    if i <= n {
      var t := TryOnce(l, feed(l.pos), q);
      if t.reply == Lost { InnerLogged(n, t.link, feed, q, i + 1); }
    }
  }

  lemma {:induction false} RoundsLogged(cfg: Config, l: Link, feed: Feed, q: Request, round: nat)
    ensures Logged(l, feed, q, RoundsFrom(cfg, l, feed, q, round))
    decreases MaxRounds(cfg.hardLimit) + 1 - round
  {
    if round <= MaxRounds(cfg.hardLimit) {
      InnerLogged(cfg.innerAttempts, l, feed, q, 1);
      var t := InnerFrom(cfg.innerAttempts, l, feed, q, 1);
      hide InnerFrom;
      if t.reply == Lost { RoundsLogged(cfg, t.link.(streak := t.link.streak + 1), feed, q, round + 1); }
    }
  }

  lemma OpLogged(cfg: Config, l: Link, feed: Feed, q: Request)
    ensures Logged(l, feed, q, RunOp(cfg, l, feed, q))
  {
    RoundsLogged(cfg, l, feed, q, 0);
  }

  // ---------- the order of the handshake ----------

  ghost predicate Refusals(polls: seq<Event>, accept: Option<int> -> bool) {
    forall i :: 0 <= i < |polls| ==> polls[i].Read? && !accept(polls[i].value)
  }

  /** A wait that matches has read refused values only, fewer than its attempts, and then an accepted one. */
  lemma {:induction false} WaitLog(cfg: Config, l: Link, feed: Feed, accept: Option<int> -> bool, attempts: nat,
                                   attempt: nat, last: Option<int>)
    returns (polls: seq<Event>)
    requires 1 <= attempt && WaitFrom(cfg, l, feed, accept, attempts, attempt, last).Matched?
    ensures var w := WaitFrom(cfg, l, feed, accept, attempts, attempt, last);
            && w.link.log == l.log + polls + [Read(w.value)] && accept(w.value)
            && Refusals(polls, accept) && |polls| <= attempts - attempt
    decreases attempts + 1 - attempt
  {
    var e := RunOp(cfg, l, feed, ReadOut);
    OpLogged(cfg, l, feed, ReadOut);
    hide RunOp;
    if accept(e.result.value) {
      polls := [];
    } else {
      var more := WaitLog(cfg, e.link, feed, accept, attempts, attempt + 1, e.result.value);
      polls := [Read(e.result.value)] + more;
    }
  }

  /** A wait that runs out has read exactly as many values as it has attempts, all refused, and reports the last. */
  lemma {:induction false} ExhaustedLog(cfg: Config, l: Link, feed: Feed, accept: Option<int> -> bool, attempts: nat,
                                        attempt: nat, last: Option<int>)
    returns (polls: seq<Event>)
    requires 1 <= attempt <= attempts + 1 && WaitFrom(cfg, l, feed, accept, attempts, attempt, last).Exhausted?
    ensures var w := WaitFrom(cfg, l, feed, accept, attempts, attempt, last);
            && w.link.log == l.log + polls && Refusals(polls, accept) && |polls| == attempts + 1 - attempt
            && w.value == if polls == [] then last else polls[|polls| - 1].value
    decreases attempts + 1 - attempt
  {
    polls := [];
    if attempt <= attempts {
      var e := RunOp(cfg, l, feed, ReadOut);
      OpLogged(cfg, l, feed, ReadOut);
      hide RunOp;
      var more := ExhaustedLog(cfg, e.link, feed, accept, attempts, attempt + 1, e.result.value);
      polls := [Read(e.result.value)] + more;
    }
  }

  /** Command written, expected code read, messageIn zeroed, messageOut read zero, in that order and nothing else. */
  ghost predicate Handshaken(events: seq<Event>, cfg: Config, device: Device, value: nat, expected: seq<Expected>) {
    exists waits, code, clears, zero ::
      && events == [Wrote(CommandWrites(device, value))] + waits + [Read(code)]
                   + [Wrote(ZeroWrites(device))] + clears + [Read(zero)]
      && MatchesExpected(code, expected) && Refusals(waits, Confirms(expected)) && |waits| < cfg.ackAttempts
      && IsZero()(zero) && Refusals(clears, IsZero()) && |clears| < cfg.resetAttempts
  }

  /** The operations completed in between are a full handshake. */
  ghost predicate FullHandshake(before: seq<Event>, after: seq<Event>, cfg: Config, device: Device, value: nat,
                                expected: seq<Expected>) {
    before <= after && Handshaken(after[|before|..], cfg, device, value, expected)
  }

  lemma DoneMeansFullHandshake(cfg: Config, l: Link, feed: Feed, device: Option<Device>, value: nat,
                               expected: seq<Expected>, n: nat)
    requires ExecuteStep(cfg, l, feed, device, value, expected, n).reply == Acked
    ensures device.Some?
    ensures FullHandshake(l.log, ExecuteStep(cfg, l, feed, device, value, expected, n).link.log, cfg, device.value,
        value, expected)
  {
    hide RunOp, WaitFrom, MatchesExpected, CommandWrites, ZeroWrites, DecodeResponse, Written;
    var q := Write(CommandWrites(device.value, value), Some(n));
    var sent := RunOp(cfg, l, feed, q);
    OpLogged(cfg, l, feed, q);
    var w := WaitForExpected(cfg, sent.link, feed, expected);
    var waits := WaitLog(cfg, sent.link, feed, Confirms(expected), cfg.ackAttempts, 1, None);
    var q0 := Write(ZeroWrites(device.value), None);
    var zero := RunOp(cfg, w.link, feed, q0);
    OpLogged(cfg, w.link, feed, q0);
    var z := WaitForZero(cfg, zero.link, feed);
    var clears := WaitLog(cfg, zero.link, feed, IsZero(), cfg.resetAttempts, 1, None);
    var events := [Wrote(CommandWrites(device.value, value))] + waits + [Read(w.value)]
                  + [Wrote(ZeroWrites(device.value))] + clears + [Read(z.value)];
    assert z.link.log == l.log + events;
    assert z.link.log[|l.log|..] == events;
  }

  /** What the registers hold once a command is written: the car reads back the code modulo 100000 as its first
      digit and the rest, each a 16-bit value; the lift reads the code itself. */
  lemma CommandOnRegisters(m: Plc, device: Device, value: nat, n: nat)
    ensures var p := WriteAll(m, CommandWrites(device, value), Some(n));
            && p.command == n && p.out == m.out
            && (device == Carro ==>
                 p.inHigh * 10000 + p.inLow == value % 100000 && 0 <= p.inHigh <= 9 && 0 <= p.inLow < 0x1_0000)
            && (device == Elevador ==> p.inHigh == value && p.inLow == m.inLow)
  {
    hide SplitCarCommand;
    SplitValue(value);
    var writes := CommandWrites(device, value);
    var one := WriteOne(m, writes[0], Some(n));
    assert WriteAll(m, writes, Some(n)) == WriteAll(one, writes[1..], Some(n));
    if device == Carro {
      assert WriteAll(one, writes[1..], Some(n))
          == WriteAll(WriteOne(one, writes[1], Some(n)), writes[1..][1..], Some(n));
    }
  }

  /** Once a command is confirmed it is not sent again in that step: the reply is final. Errors before the
      confirmation are worth another try, unless there is no device or the PLC reports its code 99. */
  lemma ConfirmedIsFinal(cfg: Config, l: Link, feed: Feed, device: Option<Device>, value: nat,
                         expected: seq<Expected>, n: nat)
    ensures var o := ExecuteStep(cfg, l, feed, device, value, expected, n);
            && (o.accepted.Some? ==> o.reply == Acked || !Retryable(o.reply))
            && (!Retryable(o.reply) <==>
                 device.None? || (o.accepted.Some? && o.reply != Acked) || o.reply == PlcError(99))
            && (o.reply == Acked ==> o.accepted.Some?)
  {
    hide RunOp, WaitFrom, CommandWrites, ZeroWrites, MatchesExpected;
  }

  /** A step whose expected code never came reports the last value read: a PLC error exactly for 101..199, which is
      fatal exactly for 199, and a mismatch for anything else. */
  lemma UnconfirmedReply(cfg: Config, l: Link, feed: Feed, device: Device, value: nat, expected: seq<Expected>,
                         n: nat) returns (polls: seq<Event>)
    requires var o := ExecuteStep(cfg, l, feed, Some(device), value, expected, n);
             o.reply.PlcError? || o.reply == Mismatch
    ensures var o := ExecuteStep(cfg, l, feed, Some(device), value, expected, n);
            && o.link.log == l.log + [Wrote(CommandWrites(device, value))] + polls
            && |polls| == cfg.ackAttempts && Refusals(polls, Confirms(expected))
            && (o.reply.PlcError? <==>
                 polls != [] && polls[|polls| - 1].value.Some? && 101 <= polls[|polls| - 1].value.value <= 199)
            && (!Retryable(o.reply) <==> polls != [] && polls[|polls| - 1].value == Some(199))
  {
    var q := Write(CommandWrites(device, value), Some(n));
    OpLogged(cfg, l, feed, q);
    hide RunOp, CommandWrites, MatchesExpected;
    var sent := RunOp(cfg, l, feed, q);
    polls := ExhaustedLog(cfg, sent.link, feed, Confirms(expected), cfg.ackAttempts, 1, None);
  }

  // ---------- invariants of the registers ----------

  /** No attempt at the request, however it goes, breaks the invariant. */
  ghost predicate Preserves(inv: Plc -> bool, q: Request) {
    forall p: Plc, a: Attempt :: inv(p) ==> inv(PlcAfter(p, a, q))
  }

  lemma {:induction false} InnerKeeps(n: nat, l: Link, feed: Feed, q: Request, i: nat, inv: Plc -> bool)
    requires inv(l.plc) && Preserves(inv, q)
    ensures inv(InnerFrom(n, l, feed, q, i).link.plc)
    decreases n + 1 - i
  {
    if i <= n {
      var t := TryOnce(l, feed(l.pos), q);
      assert t.link.plc == PlcAfter(l.plc, feed(l.pos), q);
      hide PlcAfter;
      if t.reply == Lost { InnerKeeps(n, t.link, feed, q, i + 1, inv); }
    }
  }

  lemma {:induction false} RoundsKeep(cfg: Config, l: Link, feed: Feed, q: Request, round: nat, inv: Plc -> bool)
    requires inv(l.plc) && Preserves(inv, q)
    ensures inv(RoundsFrom(cfg, l, feed, q, round).link.plc)
    decreases MaxRounds(cfg.hardLimit) + 1 - round
  {
    if round <= MaxRounds(cfg.hardLimit) {
      InnerKeeps(cfg.innerAttempts, l, feed, q, 1, inv);
      var t := InnerFrom(cfg.innerAttempts, l, feed, q, 1);
      hide InnerFrom, Preserves;
      if t.reply == Lost { RoundsKeep(cfg, t.link.(streak := t.link.streak + 1), feed, q, round + 1, inv); }
    }
  }

  lemma OpKeeps(cfg: Config, l: Link, feed: Feed, q: Request, inv: Plc -> bool)
    requires inv(l.plc) && Preserves(inv, q)
    ensures inv(RunOp(cfg, l, feed, q).link.plc)
  {
    RoundsKeep(cfg, l, feed, q, 0, inv);
  }

  /** Polling keeps the invariant, and a match is about messageOut as it now is, or about a read with no data. */
  lemma {:induction false} WaitKeeps(cfg: Config, l: Link, feed: Feed, accept: Option<int> -> bool, attempts: nat,
                                     attempt: nat, last: Option<int>,
                                     inv: Plc -> bool)
    requires inv(l.plc) && Preserves(inv, ReadOut)
    ensures var w := WaitFrom(cfg, l, feed, accept, attempts, attempt, last);
            && inv(w.link.plc)
            && (w.Matched? ==> accept(w.value) && w.link.pos > 0
                               && w.value == if feed(w.link.pos - 1).wire.Empty? then None else Some(w.link.plc.out))
    decreases attempts + 1 - attempt
  {
    if attempt <= attempts {
      var e := RunOp(cfg, l, feed, ReadOut);
      OpKeeps(cfg, l, feed, ReadOut, inv);
      OpLogged(cfg, l, feed, ReadOut);
      hide RunOp, Preserves;
      if e.result.Answered? && !accept(e.result.value) {
        WaitKeeps(cfg, e.link, feed, accept, attempts, attempt + 1, e.result.value, inv);
      }
    }
  }
}
