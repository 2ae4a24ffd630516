/** One device as seen by src/core/connection/ConnectionService.js: its registers, its socket and the
    bounded recovery around every Modbus operation (`_runModbusOpInner`). */
module ModbusOps {
  import opened Sequences

  // ---------- the device ----------

  /** The registers: messageIn (two for the car) and messageOut. `command` numbers the step whose command
      was written last, `tag` the step whose command messageOut answers. */
  datatype Plc = Plc(inHigh: int, inLow: int, out: int, command: nat, tag: nat)

  predicate Commanded(p: Plc) { p.inHigh != 0 || p.inLow != 0 }

  /** What may happen on the device before an attempt: the PLC answers a non-zero messageIn or clears messageOut, and
      the reset before the retry of another order zeroes a register of messageIn. */
  datatype Move = Answer(code: int) | ClearOut | ZeroIn(second: bool)

  function MoveOne(p: Plc, m: Move): Plc {
    match m
    case Answer(code) => if Commanded(p) then p.(out := code, tag := p.command) else p
    case ClearOut => p.(out := 0)
    case ZeroIn(second) => if second then p.(inLow := 0) else p.(inHigh := 0)
  }

  function Moved(p: Plc, moves: seq<Move>): Plc
    decreases |moves|
  {
    if moves == [] then p else Moved(MoveOne(p, moves[0]), moves[1..])
  }

  datatype RegWrite = RegWrite(second: bool, value: int)

  /** Register writes, one after the other (numbered when they carry a step's command), or a read of messageOut. */
  datatype Request = Write(writes: seq<RegWrite>, command: Option<nat>) | ReadOut

  function WriteOne(p: Plc, w: RegWrite, command: Option<nat>): Plc {
    var q := if w.second then p.(inLow := w.value) else p.(inHigh := w.value);
    if command.Some? then q.(command := command.value) else q
  }

  function WriteAll(p: Plc, writes: seq<RegWrite>, command: Option<nat>): Plc
    decreases |writes|
  {
    if writes == [] then p else WriteAll(WriteOne(p, writes[0], command), writes[1..], command)
  }

  // ---------- one attempt ----------

  /** How one attempt goes on the wire: done, answered with no data, lost to a connectivity error or failed
      otherwise, the last two after some of the writes. */
  datatype Wire = Delivered | Empty | Dropped(written: nat) | Broken(written: nat)

  /** `moves` come before the attempt, in any number; `cleared`: another device's hard reset emptied the streak
      table meanwhile. */
  datatype Attempt = Attempt(moves: seq<Move>, wire: Wire, cleared: bool)

  type Feed = nat -> Attempt

  datatype Event = Wrote(writes: seq<RegWrite>) | Read(value: Option<int>)

  /** `pos` counts attempts, `streak` is this device's entry of `modbusRecreateStreakByDevice`, `log` lists
      the completed operations. */
  datatype Link = Link(pos: nat, streak: nat, plc: Plc, log: seq<Event>)

  datatype Reply = Value(value: Option<int>) | Lost | Fault

  datatype Tried = Tried(link: Link, reply: Reply)

  function Prefix<T>(s: seq<T>, k: nat): seq<T> { if k <= |s| then s[..k] else s }

  /** The registers after the moves and the part of the request that reached them. */
  function PlcAfter(p: Plc, a: Attempt, q: Request): Plc {
    var m := Moved(p, a.moves);
    match q
    case ReadOut => m
    case Write(writes, command) =>
      match a.wire
      case Delivered => WriteAll(m, writes, command)
      case Empty => WriteAll(m, writes, command)
      case Dropped(k) => WriteAll(m, Prefix(writes, k), command)
      case Broken(k) => WriteAll(m, Prefix(writes, k), command)
  }

  function ReadingOf(p: Plc, a: Attempt, q: Request): Option<int> {
    if q.ReadOut? && a.wire.Delivered? then Some(p.out) else None
  }

  /** One pass of the inner loop; success removes the streak. */
  function TryOnce(l: Link, a: Attempt, q: Request): Tried {
    var p := PlcAfter(l.plc, a, q);
    var s := if a.cleared then 0 else l.streak;
    match a.wire
    case Dropped(_) => Tried(Link(l.pos + 1, s, p, l.log), Lost)
    case Broken(_) => Tried(Link(l.pos + 1, s, p, l.log), Fault)
    case _ =>
      var value := ReadingOf(p, a, q);
      Tried(Link(l.pos + 1, 0, p, l.log + [if q.ReadOut? then Read(value) else Wrote(q.writes)]), Value(value))
  }

  // ---------- one operation ----------

  /** hardLimit is `modbusHardResetAfterRecreates`. */
  datatype Config = Config(hardLimit: int, innerAttempts: nat, ackAttempts: nat, resetAttempts: nat)

  /** `Math.max(1, hardLimit || 10)` */
  function MaxRounds(hardLimit: int): nat {
    if hardLimit == 0 then 10 else if hardLimit < 1 then 1 else hardLimit
  }

  datatype OpResult = Answered(value: Option<int>) | Faulted | GaveUp(hard: bool)

  datatype OpEnd = OpEnd(link: Link, result: OpResult)

  /** The inner loop from attempt i on; Lost when every attempt is. */
  function InnerFrom(n: nat, l: Link, feed: Feed, q: Request, i: nat): Tried
    decreases n + 1 - i
  {
    if i > n then Tried(l, Lost)
    else
      var t := TryOnce(l, feed(l.pos), q);
      if t.reply != Lost then t else InnerFrom(n, t.link, feed, q, i + 1)
  }

  /** What follows a lost round: the client is recreated, and at the hard limit all streaks are cleared. */
  function RoundsFrom(cfg: Config, l: Link, feed: Feed, q: Request, round: nat): OpEnd
    decreases MaxRounds(cfg.hardLimit) + 1 - round
  {
    if round > MaxRounds(cfg.hardLimit) then OpEnd(l, GaveUp(false))
    else
      var t := InnerFrom(cfg.innerAttempts, l, feed, q, 1);
      match t.reply
      case Value(v) => OpEnd(t.link, Answered(v))
      case Fault => OpEnd(t.link, Faulted)
      case Lost =>
        var streak := t.link.streak + 1;
        if cfg.hardLimit > 0 && streak >= cfg.hardLimit then OpEnd(t.link.(streak := 0), GaveUp(true))
        else RoundsFrom(cfg, t.link.(streak := streak), feed, q, round + 1)
  }

  /** `_runModbusOpInner` */
  function RunOp(cfg: Config, l: Link, feed: Feed, q: Request): OpEnd {
    RoundsFrom(cfg, l, feed, q, 0)
  }

  // ---------- how many attempts ----------

  ghost predicate AllDropped(feed: Feed, from: nat, to: nat) {
    forall k: nat :: from <= k < to ==> feed(k).wire.Dropped?
  }

  ghost predicate NoneCleared(feed: Feed, from: nat, to: nat) {
    forall k: nat :: from <= k < to ==> !feed(k).cleared
  }

  /** An answer: the attempt before the new position is the first that was not dropped. */
  ghost predicate StoppedAtFirst(feed: Feed, from: nat, to: nat) {
    from < to && AllDropped(feed, from, to - 1) && !feed(to - 1).wire.Dropped?
  }

  lemma {:induction false} InnerMeaning(n: nat, l: Link, feed: Feed, q: Request, i: nat)
    requires 1 <= i <= n + 1
    ensures var t := InnerFrom(n, l, feed, q, i);
            && l.pos <= t.link.pos <= l.pos + (n + 1 - i)
            && (t.reply == Lost ==> t.link.pos == l.pos + (n + 1 - i) && AllDropped(feed, l.pos, t.link.pos)
                                    && t.link.streak <= l.streak && t.link.log == l.log)
            && (t.reply.Value? ==> t.link.streak == 0)
            && (!t.reply.Value? ==>
                  t.link.streak == if NoneCleared(feed, l.pos, t.link.pos) then l.streak else 0)
            && (t.reply != Lost ==> StoppedAtFirst(feed, l.pos, t.link.pos)
                                    && (t.reply == Fault <==> feed(t.link.pos - 1).wire.Broken?)
                                    && t.link.streak <= l.streak)
    decreases n + 1 - i
  {
    if i <= n {
      var t := TryOnce(l, feed(l.pos), q);
      if t.reply == Lost { InnerMeaning(n, t.link, feed, q, i + 1); }
      hide PlcAfter, ReadingOf;
    }
  }

  lemma DroppedThen(feed: Feed, a: nat, b: nat, c: nat)
    requires AllDropped(feed, a, b) && a <= b
    ensures AllDropped(feed, b, c) ==> AllDropped(feed, a, c)
    ensures StoppedAtFirst(feed, b, c) ==> StoppedAtFirst(feed, a, c)
  {
  }

  /** What the outcome says about the attempts made. */
  ghost predicate OutcomeMatches(feed: Feed, from: nat, e: OpEnd) {
    && from <= e.link.pos
    && (e.result.Answered? ==> e.link.streak == 0)
    && (e.result.GaveUp? ==> AllDropped(feed, from, e.link.pos))
    && (!e.result.GaveUp? ==>
         StoppedAtFirst(feed, from, e.link.pos) && (e.result.Faulted? <==> feed(e.link.pos - 1).wire.Broken?))
  }

  lemma OneMoreTimes(k: nat, m: nat)
    ensures m * (k + 1) == m * k + m && m * k >= 0
  {
  }

  lemma {:induction false} RoundsOutcome(cfg: Config, l: Link, feed: Feed, q: Request, round: nat)
    requires round <= MaxRounds(cfg.hardLimit) + 1
    ensures var e := RoundsFrom(cfg, l, feed, q, round);
            && OutcomeMatches(feed, l.pos, e)
            && (0 < cfg.hardLimit && l.streak < cfg.hardLimit ==> e.link.streak < cfg.hardLimit)
    decreases MaxRounds(cfg.hardLimit) + 1 - round
  {
    hide InnerFrom, StoppedAtFirst, NoneCleared;
    if round <= MaxRounds(cfg.hardLimit) {
      InnerMeaning(cfg.innerAttempts, l, feed, q, 1);
      var t := InnerFrom(cfg.innerAttempts, l, feed, q, 1);
      if t.reply == Lost {
        var next := t.link.(streak := t.link.streak + 1);
        RoundsOutcome(cfg, next, feed, q, round + 1);
        DroppedThen(feed, l.pos, t.link.pos, RoundsFrom(cfg, next, feed, q, round + 1).link.pos);
      }
    }
  }

  lemma {:induction false} RoundsBound(cfg: Config, l: Link, feed: Feed, q: Request, round: nat)
    requires round <= MaxRounds(cfg.hardLimit) + 1
    ensures RoundsFrom(cfg, l, feed, q, round).link.pos - l.pos
        <= cfg.innerAttempts * (MaxRounds(cfg.hardLimit) + 1 - round)
    decreases MaxRounds(cfg.hardLimit) + 1 - round
  {
    if round <= MaxRounds(cfg.hardLimit) {
      OneMoreTimes(MaxRounds(cfg.hardLimit) - round, cfg.innerAttempts);
      InnerMeaning(cfg.innerAttempts, l, feed, q, 1);
      var t := InnerFrom(cfg.innerAttempts, l, feed, q, 1);
      hide InnerFrom, AllDropped, StoppedAtFirst, NoneCleared, MaxRounds;
      if t.reply == Lost { RoundsBound(cfg, t.link.(streak := t.link.streak + 1), feed, q, round + 1); }
    }
  }

  /** How many rounds there can be: one more than the limit, eleven for no limit, two for a negative one. */
  function Rounds(hardLimit: int): nat { if hardLimit > 0 then hardLimit + 1 else if hardLimit == 0 then 11 else 2 }

  /** Whatever happens on the wire and on the other devices, an operation makes at most
      innerAttempts * Rounds(hardLimit) attempts, stops at the first that is not lost, and leaves
      a streak below the hard limit, none after a success. */
  lemma OpAlwaysEnds(cfg: Config, l: Link, feed: Feed, q: Request)
    ensures var e := RunOp(cfg, l, feed, q);
            && OutcomeMatches(feed, l.pos, e)
            && e.link.pos - l.pos <= cfg.innerAttempts * Rounds(cfg.hardLimit)
            && (0 < cfg.hardLimit && l.streak < cfg.hardLimit ==> e.link.streak < cfg.hardLimit)
  {
    RoundsOutcome(cfg, l, feed, q, 0);
    RoundsBound(cfg, l, feed, q, 0);
  }

  /** The rounds left before giving up, with no interference: up to the hard limit if there is one. */
  function RoundsLeft(hardLimit: int, streak: nat, round: nat): nat
    requires hardLimit > 0 ==> streak < hardLimit
    requires round <= Rounds(hardLimit)
  {
    if hardLimit > 0 then hardLimit - streak else if hardLimit == 0 then 11 - round else 2 - round
  }

  lemma {:induction false} RoundsExact(cfg: Config, l: Link, feed: Feed, q: Request, round: nat)
    requires cfg.hardLimit > 0 ==> round <= l.streak < cfg.hardLimit
    requires round <= MaxRounds(cfg.hardLimit) + 1
    requires NoneCleared(feed, l.pos, l.pos + cfg.innerAttempts * RoundsLeft(cfg.hardLimit, l.streak, round))
    ensures var budget := cfg.innerAttempts * RoundsLeft(cfg.hardLimit, l.streak, round);
            var e := RoundsFrom(cfg, l, feed, q, round);
            && e.link.pos <= l.pos + budget
            && (e.result.GaveUp? ==> e.link.pos == l.pos + budget && e.result.hard == (cfg.hardLimit > 0)
                                     && e.link.streak == if cfg.hardLimit > 0 then 0
                                                         else l.streak + RoundsLeft(cfg.hardLimit, l.streak, round))
    decreases MaxRounds(cfg.hardLimit) + 1 - round
  {
    hide InnerFrom, AllDropped, StoppedAtFirst;
    var left := RoundsLeft(cfg.hardLimit, l.streak, round);
    if round <= MaxRounds(cfg.hardLimit) {
      OneMoreTimes(left - 1, cfg.innerAttempts);
      InnerMeaning(cfg.innerAttempts, l, feed, q, 1);
      var t := InnerFrom(cfg.innerAttempts, l, feed, q, 1);
      if t.reply == Lost {
        assert t.link.streak == l.streak;
        var next := t.link.(streak := t.link.streak + 1);
        if !(cfg.hardLimit > 0 && next.streak >= cfg.hardLimit) {
          assert RoundsLeft(cfg.hardLimit, next.streak, round + 1) == left - 1;
          RoundsExact(cfg, next, feed, q, round + 1);
        } else {
          assert left == 1;
        }
      }
    }
  }

  /** With no interference, an operation entered at streak s gives up exactly when the next
      innerAttempts * (H - s) attempts are all lost (eleven rounds for H = 0, two for H < 0). It has then made
      exactly that many, hard-reset if H > 0, and all streaks are cleared. */
  lemma OpGivesUpExactly(cfg: Config, l: Link, feed: Feed, q: Request)
    requires cfg.hardLimit > 0 ==> l.streak < cfg.hardLimit
    requires NoneCleared(feed, l.pos, l.pos + cfg.innerAttempts * RoundsLeft(cfg.hardLimit, l.streak, 0))
    ensures var budget := cfg.innerAttempts * RoundsLeft(cfg.hardLimit, l.streak, 0);
            var e := RunOp(cfg, l, feed, q);
            && (e.result.GaveUp? <==> AllDropped(feed, l.pos, l.pos + budget))
            && (e.result.GaveUp? ==> e.link.pos == l.pos + budget && e.result.hard == (cfg.hardLimit > 0)
                                     && e.link.streak == if cfg.hardLimit > 0 then 0
                                                         else l.streak + RoundsLeft(cfg.hardLimit, l.streak, 0))
  {
    RoundsExact(cfg, l, feed, q, 0);
    RoundsOutcome(cfg, l, feed, q, 0);
    hide RoundsFrom, RoundsLeft;
  }

  // ---------- the streak of lost rounds ----------

  lemma {:induction false} FaultedRounds(cfg: Config, l: Link, feed: Feed, q: Request, round: nat) returns (lost: nat)
    requires RoundsFrom(cfg, l, feed, q, round).result.Faulted?
    requires NoneCleared(feed, l.pos, RoundsFrom(cfg, l, feed, q, round).link.pos)
    requires round <= MaxRounds(cfg.hardLimit) + 1
    ensures var e := RoundsFrom(cfg, l, feed, q, round);
            && e.link.streak == l.streak + lost
            && l.pos + cfg.innerAttempts * lost < e.link.pos <= l.pos + cfg.innerAttempts * (lost + 1)
    decreases MaxRounds(cfg.hardLimit) + 1 - round
  {
    hide InnerFrom, AllDropped, MaxRounds;
    RoundsOutcome(cfg, l, feed, q, round);
    InnerMeaning(cfg.innerAttempts, l, feed, q, 1);
    var t := InnerFrom(cfg.innerAttempts, l, feed, q, 1);
    lost := 0;
    if t.reply == Lost {
      var next := t.link.(streak := t.link.streak + 1);
      RoundsOutcome(cfg, next, feed, q, round + 1);
      var more := FaultedRounds(cfg, next, feed, q, round + 1);
      OneMoreTimes(more, cfg.innerAttempts);
      OneMoreTimes(more + 1, cfg.innerAttempts);
      lost := more + 1;
    }
  }

  /** With no interference, an operation that meets an error of another kind leaves the streak it found plus one
      for each round that was lost before: the error itself neither clears nor raises it. */
  lemma FaultKeepsStreak(cfg: Config, l: Link, feed: Feed, q: Request) returns (lost: nat)
    requires RunOp(cfg, l, feed, q).result.Faulted? && NoneCleared(feed, l.pos, RunOp(cfg, l, feed, q).link.pos)
    ensures var e := RunOp(cfg, l, feed, q);
            && e.link.streak == l.streak + lost
            && l.pos + cfg.innerAttempts * lost < e.link.pos <= l.pos + cfg.innerAttempts * (lost + 1)
  {
    lost := FaultedRounds(cfg, l, feed, q, 0);
  }

  /** The streak after k lost rounds from an attempt on, entered at s: a hard reset of another device during a round
      clears it, and the round adds one. */
  ghost function StreakAfter(n: nat, feed: Feed, from: nat, s: nat, k: nat): nat {
    if k == 0 then s
    else 1 + if NoneCleared(feed, from + n * (k - 1), from + n * k) then StreakAfter(n, feed, from, s, k - 1) else 0
  }

  /** The first k rounds do not reach the hard limit. */
  ghost predicate BelowLimit(cfg: Config, feed: Feed, from: nat, s: nat, k: nat) {
    cfg.hardLimit > 0 ==>
      forall j: nat :: 1 <= j <= k ==> StreakAfter(cfg.innerAttempts, feed, from, s, j) < cfg.hardLimit
  }

  /** The operation ended after the given number of lost rounds, none of which but the last reached the hard limit: in
      a fault in the next round, in a hard reset at the limit, or because no more rounds are made. */
  ghost predicate EndedAfter(cfg: Config, feed: Feed, from: nat, s: nat, e: OpEnd, rounds: nat) {
    var n, streak := cfg.innerAttempts, StreakAfter(cfg.innerAttempts, feed, from, s, rounds);
    match e.result
    case Faulted =>
      && from + n * rounds < e.link.pos <= from + n * rounds + n && BelowLimit(cfg, feed, from, s, rounds)
      && e.link.streak == if NoneCleared(feed, from + n * rounds, e.link.pos) then streak else 0
    case GaveUp(hard) =>
      && e.link.pos == from + n * rounds
      && (hard ==> 0 < cfg.hardLimit <= streak && rounds >= 1 && BelowLimit(cfg, feed, from, s, rounds - 1)
                   && e.link.streak == 0)
      && (!hard ==> rounds == Rounds(cfg.hardLimit) && BelowLimit(cfg, feed, from, s, rounds)
                    && e.link.streak == streak)
    case Answered(_) => false
  }

  lemma {:induction false} RoundsCounted(cfg: Config, feed: Feed, from: nat, s: nat, l: Link, q: Request, round: nat)
    returns (rounds: nat)
    requires round <= Rounds(cfg.hardLimit) && BelowLimit(cfg, feed, from, s, round)
    requires l.pos == from + cfg.innerAttempts * round
    requires l.streak == StreakAfter(cfg.innerAttempts, feed, from, s, round)
    requires !RoundsFrom(cfg, l, feed, q, round).result.Answered?
    ensures EndedAfter(cfg, feed, from, s, RoundsFrom(cfg, l, feed, q, round), rounds)
    decreases MaxRounds(cfg.hardLimit) + 1 - round
  {
    hide InnerFrom, AllDropped, NoneCleared;
    InnerMeaning(cfg.innerAttempts, l, feed, q, 1);
    OneMoreTimes(round, cfg.innerAttempts);
    var t := InnerFrom(cfg.innerAttempts, l, feed, q, 1);
    rounds := round;
    if round <= MaxRounds(cfg.hardLimit) && t.reply == Lost {
      var next := t.link.(streak := t.link.streak + 1);
      assert next.streak == StreakAfter(cfg.innerAttempts, feed, from, s, round + 1);
      if cfg.hardLimit > 0 && next.streak >= cfg.hardLimit {
        rounds := round + 1;
      } else {
        rounds := RoundsCounted(cfg, feed, from, s, next, q, round + 1);
      }
    }
  }

  /** How an operation that is not answered ends, with resets of other devices at any attempt: the streak counts the
      rounds lost since the last of them, and the first round that brings it to the hard limit is the last. */
  lemma StreakCountsRounds(cfg: Config, l: Link, feed: Feed, q: Request) returns (rounds: nat)
    requires !RunOp(cfg, l, feed, q).result.Answered?
    ensures EndedAfter(cfg, feed, l.pos, l.streak, RunOp(cfg, l, feed, q), rounds)
  {
    rounds := RoundsCounted(cfg, feed, l.pos, l.streak, l, q, 0);
  }

  // ---------- the registers after an operation ----------

  /** The register writes that reach the device at an attempt: all when it is answered, the first few when the
      connection is lost or an error comes in the middle. */
  function Reaching(wire: Wire, writes: seq<RegWrite>): seq<RegWrite> {
    match wire
    case Delivered => writes
    case Empty => writes
    case Dropped(k) => if k < |writes| then writes[..k] else writes
    case Broken(k) => if k < |writes| then writes[..k] else writes
  }

  /** The registers after the attempts in [from, to), each preceded by what the PLC and the other devices do. */
  function RegistersAt(p: Plc, feed: Feed, from: nat, to: nat, q: Request): Plc
    decreases to - from
  {
    if to <= from then p
    else
      var m := Moved(RegistersAt(p, feed, from, to - 1, q), feed(to - 1).moves);
      if q.ReadOut? then m else WriteAll(m, Reaching(feed(to - 1).wire, q.writes), q.command)
  }

  lemma {:induction false} RegistersThen(p: Plc, feed: Feed, a: nat, b: nat, c: nat, q: Request)
    requires a <= b <= c
    ensures RegistersAt(RegistersAt(p, feed, a, b, q), feed, b, c, q) == RegistersAt(p, feed, a, c, q)
    decreases c
  {
    if b < c { RegistersThen(p, feed, a, b, c - 1, q); }
  }

  lemma OnceOnRegisters(l: Link, feed: Feed, q: Request)
    ensures TryOnce(l, feed(l.pos), q).link.plc == RegistersAt(l.plc, feed, l.pos, l.pos + 1, q)
  {
    assert RegistersAt(l.plc, feed, l.pos, l.pos, q) == l.plc;
    if q.Write? { assert q.writes[..|q.writes|] == q.writes; }
    hide Moved, WriteAll;
  }

  lemma {:induction false} InnerRegisters(n: nat, l: Link, feed: Feed, q: Request, i: nat)
    ensures var t := InnerFrom(n, l, feed, q, i);
            l.pos <= t.link.pos && t.link.plc == RegistersAt(l.plc, feed, l.pos, t.link.pos, q)
    decreases n + 1 - i
  {
    if i <= n {
      var t := TryOnce(l, feed(l.pos), q);
      OnceOnRegisters(l, feed, q);
      hide PlcAfter, ReadingOf;
      if t.reply == Lost {
        InnerRegisters(n, t.link, feed, q, i + 1);
        RegistersThen(l.plc, feed, l.pos, t.link.pos, InnerFrom(n, t.link, feed, q, i + 1).link.pos, q);
      }
    }
  }

  lemma {:induction false} RoundsRegisters(cfg: Config, l: Link, feed: Feed, q: Request, round: nat)
    ensures var e := RoundsFrom(cfg, l, feed, q, round);
            l.pos <= e.link.pos && e.link.plc == RegistersAt(l.plc, feed, l.pos, e.link.pos, q)
    decreases MaxRounds(cfg.hardLimit) + 1 - round
  {
    if round <= MaxRounds(cfg.hardLimit) {
      InnerRegisters(cfg.innerAttempts, l, feed, q, 1);
      var t := InnerFrom(cfg.innerAttempts, l, feed, q, 1);
      hide InnerFrom, RegistersAt;
      if t.reply == Lost {
        var next := t.link.(streak := t.link.streak + 1);
        RoundsRegisters(cfg, next, feed, q, round + 1);
        RegistersThen(l.plc, feed, l.pos, t.link.pos, RoundsFrom(cfg, next, feed, q, round + 1).link.pos, q);
      }
    }
  }

  /** Whatever happens at each attempt, the registers hold what all attempts together have written: a lost one counts
      with the part that went through. A read brings messageOut as it is at the last attempt. */
  lemma RegistersAfterOp(cfg: Config, l: Link, feed: Feed, q: Request)
    ensures var e := RunOp(cfg, l, feed, q);
            && l.pos <= e.link.pos && e.link.plc == RegistersAt(l.plc, feed, l.pos, e.link.pos, q)
            && (e.result.Answered? ==>
                  && l.pos < e.link.pos
                  && e.result.value == if q.ReadOut? && feed(e.link.pos - 1).wire == Delivered then Some(e.link.plc.out)
                                       else None)
  {
    RoundsRegisters(cfg, l, feed, q, 0);
    RoundsValue(cfg, l, feed, q, 0);
  }

  lemma {:induction false} InnerValue(n: nat, l: Link, feed: Feed, q: Request, i: nat)
    ensures var t := InnerFrom(n, l, feed, q, i);
            t.reply.Value? ==>
              && l.pos < t.link.pos
              && t.reply.value == if q.ReadOut? && feed(t.link.pos - 1).wire == Delivered then Some(t.link.plc.out)
                                  else None
    decreases n + 1 - i
  {
    if i <= n {
      var t := TryOnce(l, feed(l.pos), q);
      hide PlcAfter;
      if t.reply == Lost { InnerValue(n, t.link, feed, q, i + 1); }
    }
  }

  lemma {:induction false} RoundsValue(cfg: Config, l: Link, feed: Feed, q: Request, round: nat)
    ensures var e := RoundsFrom(cfg, l, feed, q, round);
            e.result.Answered? ==>
              && l.pos < e.link.pos
              && e.result.value == if q.ReadOut? && feed(e.link.pos - 1).wire == Delivered then Some(e.link.plc.out)
                                   else None
    decreases MaxRounds(cfg.hardLimit) + 1 - round
  {
    if round <= MaxRounds(cfg.hardLimit) {
      InnerValue(cfg.innerAttempts, l, feed, q, 1);
      InnerRegisters(cfg.innerAttempts, l, feed, q, 1);
      var t := InnerFrom(cfg.innerAttempts, l, feed, q, 1);
      hide InnerFrom, RegistersAt;
      if t.reply == Lost { RoundsValue(cfg, t.link.(streak := t.link.streak + 1), feed, q, round + 1); }
    }
  }
}
