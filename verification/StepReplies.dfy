/** When a step command is answered how, in terms of its single operations on the device: the write of the command, the
    reads of messageOut one after the other, the write of zeroes. */
module StepReplies {
  import opened Sequences
  import opened Domain
  import opened Orchestrator
  import opened PlcProtocol
  import opened ModbusOps
  import opened Handshake

  // ---------- a row of reads ----------

  /** The k-th of the reads that follow one another from link l on, counted from zero. */
  function ReadNo(cfg: Config, l: Link, feed: Feed, k: nat): OpEnd {
    RunOp(cfg, if k == 0 then l else ReadNo(cfg, l, feed, k - 1).link, feed, ReadOut)
  }

  /** The k-th read comes through, with a value that is accepted if `yes`. */
  predicate Brings(cfg: Config, l: Link, feed: Feed, accept: Option<int> -> bool, k: nat, yes: bool) {
    var e := ReadNo(cfg, l, feed, k).result;
    e.Answered? && accept(e.value) == yes
  }

  /** The first k reads come through with refused values. */
  ghost predicate AllRefused(cfg: Config, l: Link, feed: Feed, accept: Option<int> -> bool, k: nat) {
    forall i: nat :: i < k ==> Brings(cfg, l, feed, accept, i, false)
  }

  /** The k-th read is the first accepted one, and within the attempts. */
  ghost predicate AcceptedAt(cfg: Config, l: Link, feed: Feed, accept: Option<int> -> bool, attempts: nat, k: nat) {
    k < attempts && AllRefused(cfg, l, feed, accept, k) && Brings(cfg, l, feed, accept, k, true)
  }

  /** The k-th read does not come through, and the reads before it were refused. */
  ghost predicate BrokenAt(cfg: Config, l: Link, feed: Feed, accept: Option<int> -> bool, attempts: nat, k: nat) {
    k < attempts && AllRefused(cfg, l, feed, accept, k) && !ReadNo(cfg, l, feed, k).result.Answered?
  }

  /** The link and last value after k refused reads. */
  function LinkAfter(cfg: Config, l: Link, feed: Feed, k: nat): Link {
    if k == 0 then l else ReadNo(cfg, l, feed, k - 1).link
  }

  function LastOf(cfg: Config, l: Link, feed: Feed, k: nat): Option<int> {
    if k == 0 then None
    else var e := ReadNo(cfg, l, feed, k - 1).result; if e.Answered? then e.value else None
  }

  /** A wait reaches its k-th read as long as the reads before are refused. */
  lemma {:induction false} WaitReaches(cfg: Config, l: Link, feed: Feed, accept: Option<int> -> bool, attempts: nat,
                                       k: nat)
    requires k <= attempts && AllRefused(cfg, l, feed, accept, k)
    ensures WaitFrom(cfg, l, feed, accept, attempts, 1, None)
         == WaitFrom(cfg, LinkAfter(cfg, l, feed, k), feed, accept, attempts, k + 1, LastOf(cfg, l, feed, k))
    decreases k
  {
    if k > 0 {
      WaitReaches(cfg, l, feed, accept, attempts, k - 1);
      assert Brings(cfg, l, feed, accept, k - 1, false);
      hide RunOp;
    }
  }

  lemma WaitMatches(cfg: Config, l: Link, feed: Feed, accept: Option<int> -> bool, attempts: nat, k: nat)
    requires AcceptedAt(cfg, l, feed, accept, attempts, k)
    ensures var w := WaitFrom(cfg, l, feed, accept, attempts, 1, None);
            w == Matched(ReadNo(cfg, l, feed, k).link, ReadNo(cfg, l, feed, k).result.value)
  {
    WaitReaches(cfg, l, feed, accept, attempts, k);
    hide RunOp;
  }

  lemma WaitBreaks(cfg: Config, l: Link, feed: Feed, accept: Option<int> -> bool, attempts: nat, k: nat)
    requires BrokenAt(cfg, l, feed, accept, attempts, k)
    ensures WaitFrom(cfg, l, feed, accept, attempts, 1, None) == Interrupted(ReadNo(cfg, l, feed, k).link)
  {
    WaitReaches(cfg, l, feed, accept, attempts, k);
    hide RunOp;
  }

  lemma WaitRunsOut(cfg: Config, l: Link, feed: Feed, accept: Option<int> -> bool, attempts: nat)
    requires AllRefused(cfg, l, feed, accept, attempts)
    ensures WaitFrom(cfg, l, feed, accept, attempts, 1, None)
         == Exhausted(LinkAfter(cfg, l, feed, attempts), LastOf(cfg, l, feed, attempts))
  {
    WaitReaches(cfg, l, feed, accept, attempts, attempts);
    hide RunOp;
  }

  /** One of the three happens. */
  lemma {:induction false} SomeRead(cfg: Config, l: Link, feed: Feed, accept: Option<int> -> bool, attempts: nat,
                                    k: nat)
    returns (at: nat)
    requires k <= attempts && AllRefused(cfg, l, feed, accept, k)
    ensures || AcceptedAt(cfg, l, feed, accept, attempts, at)
            || BrokenAt(cfg, l, feed, accept, attempts, at)
            || (at == attempts && AllRefused(cfg, l, feed, accept, attempts))
    decreases attempts - k
  {
    hide ReadNo;
    if k < attempts && Brings(cfg, l, feed, accept, k, false) {
      at := SomeRead(cfg, l, feed, accept, attempts, k + 1);
    } else {
      at := k;
    }
  }

  /** A wait is matched, interrupted or exhausted exactly as its reads go. */
  lemma WaitExactly(cfg: Config, l: Link, feed: Feed, accept: Option<int> -> bool, attempts: nat) returns (at: nat)
    ensures var w := WaitFrom(cfg, l, feed, accept, attempts, 1, None);
            && (w.Matched? <==> exists k :: AcceptedAt(cfg, l, feed, accept, attempts, k))
            && (w.Interrupted? <==> exists k :: BrokenAt(cfg, l, feed, accept, attempts, k))
            && (w.Exhausted? <==> AllRefused(cfg, l, feed, accept, attempts))
            && (w.Matched? ==> AcceptedAt(cfg, l, feed, accept, attempts, at)
                               && w.link == ReadNo(cfg, l, feed, at).link)
            && (w.Exhausted? ==> w.value == LastOf(cfg, l, feed, attempts))
  {
    hide ReadNo, WaitFrom, AllRefused, AcceptedAt, BrokenAt;
    assert AllRefused(cfg, l, feed, accept, 0) by { NoneYet(cfg, l, feed, accept); }
    at := SomeRead(cfg, l, feed, accept, attempts, 0);
    forall k | AcceptedAt(cfg, l, feed, accept, attempts, k)
      ensures WaitFrom(cfg, l, feed, accept, attempts, 1, None).Matched?
    {
      WaitMatches(cfg, l, feed, accept, attempts, k);
    }
    forall k | BrokenAt(cfg, l, feed, accept, attempts, k)
      ensures WaitFrom(cfg, l, feed, accept, attempts, 1, None).Interrupted?
    {
      WaitBreaks(cfg, l, feed, accept, attempts, k);
    }
    if AllRefused(cfg, l, feed, accept, attempts) { WaitRunsOut(cfg, l, feed, accept, attempts); }
    if AcceptedAt(cfg, l, feed, accept, attempts, at) { WaitMatches(cfg, l, feed, accept, attempts, at); }
  }

  lemma NoneYet(cfg: Config, l: Link, feed: Feed, accept: Option<int> -> bool)
    ensures AllRefused(cfg, l, feed, accept, 0)
  {
  }

  // ---------- one step command ----------

  /** The code every step expects. */
  function SaysDone(): Option<int> -> bool { (v: Option<int>) => v == Some(100) }

  /** No data is taken for zero. */
  function SaysZero(): Option<int> -> bool { (v: Option<int>) => v == None || v == Some(0) }

  lemma SameAccepted(cfg: Config, l: Link, feed: Feed, a: Option<int> -> bool, b: Option<int> -> bool, attempts: nat,
                     k: nat)
    requires forall v: Option<int> :: a(v) == b(v)
    ensures AllRefused(cfg, l, feed, a, k) <==> AllRefused(cfg, l, feed, b, k)
    ensures AcceptedAt(cfg, l, feed, a, attempts, k) <==> AcceptedAt(cfg, l, feed, b, attempts, k)
    ensures BrokenAt(cfg, l, feed, a, attempts, k) <==> BrokenAt(cfg, l, feed, b, attempts, k)
  {
    hide ReadNo;
    assert forall i: nat, yes: bool :: Brings(cfg, l, feed, a, i, yes) == Brings(cfg, l, feed, b, i, yes);
  }

  function CommandSent(cfg: Config, l: Link, feed: Feed, device: Device, value: nat, n: nat): OpEnd {
    RunOp(cfg, l, feed, Write(CommandWrites(device, value), Some(n)))
  }

  function ZeroesSent(cfg: Config, l: Link, feed: Feed, device: Device): OpEnd {
    RunOp(cfg, l, feed, Write(ZeroWrites(device), None))
  }

  /** The command is written and read number a is the first to say 100. */
  ghost predicate ConfirmedAt(cfg: Config, l: Link, feed: Feed, device: Device, value: nat, n: nat, a: nat) {
    var sent := CommandSent(cfg, l, feed, device, value, n);
    sent.result.Answered? && AcceptedAt(cfg, sent.link, feed, SaysDone(), cfg.ackAttempts, a)
  }

  /** From there, messageIn is zeroed and read number b is the first to say zero. */
  ghost predicate ZeroedAt(cfg: Config, l: Link, feed: Feed, device: Device, b: nat) {
    var zero := ZeroesSent(cfg, l, feed, device);
    zero.result.Answered? && AcceptedAt(cfg, zero.link, feed, SaysZero(), cfg.resetAttempts, b)
  }

  /** Where read number a after the command leaves the link. */
  function LinkAt(cfg: Config, l: Link, feed: Feed, device: Device, value: nat, n: nat, a: nat): Link {
    ReadNo(cfg, CommandSent(cfg, l, feed, device, value, n).link, feed, a).link
  }

  lemma ResetExactly(cfg: Config, l: Link, feed: Feed, device: Device)
    ensures var reply := ResetStep(cfg, l, feed, device).1;
            && (reply == Acked <==> exists b :: ZeroedAt(cfg, l, feed, device, b))
            && reply in {Acked, Threw(true)}
  {
    hide RunOp, WaitFrom, AcceptedAt, ZeroWrites;
    var zero := ZeroesSent(cfg, l, feed, device);
    var at := WaitExactly(cfg, zero.link, feed, IsZero(), cfg.resetAttempts);
    forall k: nat ensures AcceptedAt(cfg, zero.link, feed, IsZero(), cfg.resetAttempts, k)
                     <==> AcceptedAt(cfg, zero.link, feed, SaysZero(), cfg.resetAttempts, k)
    {
      SameAccepted(cfg, zero.link, feed, IsZero(), SaysZero(), cfg.resetAttempts, k);
    }
    hide IsZero, SaysZero;
    assert zero.result.Answered? ==>
             (forall b :: ZeroedAt(cfg, l, feed, device, b)
                          <==> AcceptedAt(cfg, zero.link, feed, IsZero(), cfg.resetAttempts, b));
  }

  lemma ConfirmationExactly(cfg: Config, l: Link, feed: Feed, device: Device, value: nat, n: nat) returns (at: nat)
    requires CommandSent(cfg, l, feed, device, value, n).result.Answered?
    ensures var sent := CommandSent(cfg, l, feed, device, value, n);
            var w := WaitForExpected(cfg, sent.link, feed, StepExpects);
            && (w.Matched? <==> exists a :: ConfirmedAt(cfg, l, feed, device, value, n, a))
            && (w.Interrupted? <==> exists a :: BrokenAt(cfg, sent.link, feed, SaysDone(), cfg.ackAttempts, a))
            && (w.Exhausted? <==> AllRefused(cfg, sent.link, feed, SaysDone(), cfg.ackAttempts))
            && (w.Matched? ==> ConfirmedAt(cfg, l, feed, device, value, n, at)
                               && w.link == LinkAt(cfg, l, feed, device, value, n, at))
            && (w.Exhausted? ==> w.value == LastOf(cfg, sent.link, feed, cfg.ackAttempts))
  {
    hide RunOp, WaitFrom, AcceptedAt, BrokenAt, AllRefused, CommandWrites, MatchesExpected, DecodeResponse;
    var sent, yes := CommandSent(cfg, l, feed, device, value, n), Confirms(StepExpects);
    at := WaitExactly(cfg, sent.link, feed, yes, cfg.ackAttempts);
    forall v: Option<int> ensures yes(v) == SaysDone()(v) { HundredExactly(v); }
    forall k: nat
      ensures AcceptedAt(cfg, sent.link, feed, yes, cfg.ackAttempts, k)
         <==> AcceptedAt(cfg, sent.link, feed, SaysDone(), cfg.ackAttempts, k)
      ensures BrokenAt(cfg, sent.link, feed, yes, cfg.ackAttempts, k)
         <==> BrokenAt(cfg, sent.link, feed, SaysDone(), cfg.ackAttempts, k)
    {
      SameAccepted(cfg, sent.link, feed, yes, SaysDone(), cfg.ackAttempts, k);
    }
    SameAccepted(cfg, sent.link, feed, yes, SaysDone(), cfg.ackAttempts, cfg.ackAttempts);
    hide SaysDone, Confirms;
    assert forall a :: ConfirmedAt(cfg, l, feed, device, value, n, a)
                       <==> AcceptedAt(cfg, sent.link, feed, yes, cfg.ackAttempts, a);
  }

  lemma HundredExactly(v: Option<int>)
    ensures MatchesExpected(v, StepExpects) <==> v == Some(100)
  {
    assert StepExpects[0] == Code(100);
  }

  /** Only one read can be the first to be accepted. */
  lemma ConfirmedOnce(cfg: Config, l: Link, feed: Feed, device: Device, value: nat, n: nat, a: nat, b: nat)
    requires ConfirmedAt(cfg, l, feed, device, value, n, a) && ConfirmedAt(cfg, l, feed, device, value, n, b)
    ensures a == b
  {
    hide ReadNo, RunOp, CommandWrites;
    var sent := CommandSent(cfg, l, feed, device, value, n).link;
    assert Brings(cfg, sent, feed, SaysDone(), a, true) && Brings(cfg, sent, feed, SaysDone(), b, true);
    hide Brings;
    assert !Brings(cfg, sent, feed, SaysDone(), a, false) && !Brings(cfg, sent, feed, SaysDone(), b, false) by {
      YesOrNo(cfg, sent, feed, SaysDone(), a);
      YesOrNo(cfg, sent, feed, SaysDone(), b);
    }
  }

  lemma YesOrNo(cfg: Config, l: Link, feed: Feed, accept: Option<int> -> bool, k: nat)
    requires Brings(cfg, l, feed, accept, k, true)
    ensures !Brings(cfg, l, feed, accept, k, false)
  {
  }

  /** Every reply of a step command, exactly. It is acknowledged when the command is written, one of the reads says
      100, the zeroes are written and one of the reads after that says zero. It fails for good when there is no
      device, or after the confirmation if the registers do not come to rest; it may be tried again when the
      command is not written or a read does not come through before the confirmation. When the reads run out, the
      last value decides. */
  lemma RepliesExactly(cfg: Config, l: Link, feed: Feed, device: Option<Device>, value: nat, n: nat)
    ensures var reply := ExecuteStep(cfg, l, feed, device, value, StepExpects, n).reply;
            if device.None? then reply == Threw(true)
            else
              var d := device.value;
              var sent := CommandSent(cfg, l, feed, d, value, n);
              && (reply == Acked <==>
                    exists a, b :: ConfirmedAt(cfg, l, feed, d, value, n, a)
                                   && ZeroedAt(cfg, LinkAt(cfg, l, feed, d, value, n, a), feed, d, b))
              && (reply == Threw(true) <==>
                    exists a :: ConfirmedAt(cfg, l, feed, d, value, n, a)
                                && forall b :: !ZeroedAt(cfg, LinkAt(cfg, l, feed, d, value, n, a), feed, d, b))
              && (reply == Threw(false) <==>
                    !sent.result.Answered?
                    || exists a :: BrokenAt(cfg, sent.link, feed, SaysDone(), cfg.ackAttempts, a))
              && (reply.PlcError? || reply == Mismatch <==>
                    sent.result.Answered? && AllRefused(cfg, sent.link, feed, SaysDone(), cfg.ackAttempts))
              && (reply.PlcError? || reply == Mismatch ==>
                    var last := LastOf(cfg, sent.link, feed, cfg.ackAttempts);
                    reply == if last.Some? && 101 <= last.value <= 199 then PlcError(last.value - 100) else Mismatch)
  {
    hide RunOp, WaitFrom, ConfirmedAt, ZeroedAt, BrokenAt, AllRefused, CommandWrites, ResetStep, LastOf, LinkAt;
    if device.Some? {
      var d := device.value;
      var sent := CommandSent(cfg, l, feed, d, value, n);
      if sent.result.Answered? {
        var at := ConfirmationExactly(cfg, l, feed, d, value, n);
        var w := WaitForExpected(cfg, sent.link, feed, StepExpects);
        if w.Matched? {
          ResetExactly(cfg, w.link, feed, d);
          forall a | ConfirmedAt(cfg, l, feed, d, value, n, a)
            ensures a == at
          {
            ConfirmedOnce(cfg, l, feed, d, value, n, a, at);
          }
        }
      } else {
        forall a ensures !ConfirmedAt(cfg, l, feed, d, value, n, a) { NotConfirmed(cfg, l, feed, d, value, n, a); }
      }
    }
  }

  lemma NotConfirmed(cfg: Config, l: Link, feed: Feed, device: Device, value: nat, n: nat, a: nat)
    requires !CommandSent(cfg, l, feed, device, value, n).result.Answered?
    ensures !ConfirmedAt(cfg, l, feed, device, value, n, a)
  {
  }

  // ---------- on a wire that delivers everything ----------

  /** Every attempt goes through, and each operation gets at least one. */
  ghost predicate Delivers(cfg: Config, feed: Feed) {
    cfg.innerAttempts >= 1 && forall k: nat :: feed(k).wire.Delivered?
  }

  /** The registers once k reads have been made from attempt `pos` on: only what happens on the device changes them. */
  function Reading(p: Plc, feed: Feed, pos: nat, k: nat): Plc {
    if k == 0 then p else Moved(Reading(p, feed, pos, k - 1), feed(pos + k - 1).moves)
  }

  lemma OneAttempt(cfg: Config, l: Link, feed: Feed, q: Request)
    requires Delivers(cfg, feed)
    ensures var e, p := RunOp(cfg, l, feed, q), PlcAfter(l.plc, feed(l.pos), q);
            && e.link.plc == p && e.link.pos == l.pos + 1
            && e.result == Answered(if q.ReadOut? then Some(p.out) else None)
  {
    assert feed(l.pos).wire.Delivered?;
    hide PlcAfter;
  }

  lemma {:induction false} ReadingNo(cfg: Config, l: Link, feed: Feed, k: nat)
    requires Delivers(cfg, feed)
    ensures var e, p := ReadNo(cfg, l, feed, k), Reading(l.plc, feed, l.pos, k + 1);
            e.link.plc == p && e.link.pos == l.pos + k + 1 && e.result == Answered(Some(p.out))
  {
    if k > 0 { ReadingNo(cfg, l, feed, k - 1); }
    OneAttempt(cfg, if k == 0 then l else ReadNo(cfg, l, feed, k - 1).link, feed, ReadOut);
    assert Reading(l.plc, feed, l.pos, k + 1) == Moved(Reading(l.plc, feed, l.pos, k), feed(l.pos + k).moves);
    hide RunOp, Moved, Delivers;
  }

  /** What read number i shows. */
  function Shown(p: Plc, feed: Feed, pos: nat, i: nat): int { Reading(p, feed, pos, i + 1).out }

  /** Read number a is the first to show 100. */
  ghost predicate DoneFirstAt(p: Plc, feed: Feed, pos: nat, a: nat) {
    Shown(p, feed, pos, a) == 100 && forall i: nat :: i < a ==> Shown(p, feed, pos, i) != 100
  }

  /** One of the first n reads shows zero. */
  ghost predicate ShowsZero(p: Plc, feed: Feed, pos: nat, n: nat) {
    exists b: nat :: b < n && Shown(p, feed, pos, b) == 0
  }

  lemma BringsShown(cfg: Config, l: Link, feed: Feed, accept: Option<int> -> bool, i: nat, yes: bool)
    requires Delivers(cfg, feed)
    ensures Brings(cfg, l, feed, accept, i, yes) <==> accept(Some(Shown(l.plc, feed, l.pos, i))) == yes
  {
    ReadingNo(cfg, l, feed, i);
    hide ReadNo, Reading, Delivers;
  }

  lemma FirstDone(cfg: Config, l: Link, feed: Feed, attempts: nat, a: nat)
    requires Delivers(cfg, feed)
    ensures AcceptedAt(cfg, l, feed, SaysDone(), attempts, a) <==> a < attempts && DoneFirstAt(l.plc, feed, l.pos, a)
  {
    hide Brings, Shown, Delivers;
    forall i: nat
      ensures Brings(cfg, l, feed, SaysDone(), i, true) <==> Shown(l.plc, feed, l.pos, i) == 100
      ensures Brings(cfg, l, feed, SaysDone(), i, false) <==> Shown(l.plc, feed, l.pos, i) != 100
    {
      BringsShown(cfg, l, feed, SaysDone(), i, true);
      BringsShown(cfg, l, feed, SaysDone(), i, false);
    }
  }

  lemma ZeroSeen(cfg: Config, l: Link, feed: Feed, attempts: nat)
    requires Delivers(cfg, feed)
    ensures (exists b :: AcceptedAt(cfg, l, feed, SaysZero(), attempts, b)) <==> ShowsZero(l.plc, feed, l.pos, attempts)
  {
    hide Brings, Shown, Delivers;
    forall i: nat
      ensures Brings(cfg, l, feed, SaysZero(), i, true) <==> Shown(l.plc, feed, l.pos, i) == 0
      ensures Brings(cfg, l, feed, SaysZero(), i, false) <==> Shown(l.plc, feed, l.pos, i) != 0
    {
      BringsShown(cfg, l, feed, SaysZero(), i, true);
      BringsShown(cfg, l, feed, SaysZero(), i, false);
    }
    if b: nat :| b < attempts && Shown(l.plc, feed, l.pos, b) == 0 {
      var first := FirstZero(l.plc, feed, l.pos, b);
      assert AcceptedAt(cfg, l, feed, SaysZero(), attempts, first);
    }
  }

  lemma {:induction false} FirstZero(p: Plc, feed: Feed, pos: nat, b: nat) returns (first: nat)
    requires Shown(p, feed, pos, b) == 0
    ensures first <= b && Shown(p, feed, pos, first) == 0
    ensures forall i: nat :: i < first ==> Shown(p, feed, pos, i) != 0
  {
    hide Shown;
    if i: nat :| i < b && Shown(p, feed, pos, i) == 0 { first := FirstZero(p, feed, pos, i); } else { first := b; }
  }

  /** The registers once the command, and later the zeroes, are written. */
  function Commanding(l: Link, feed: Feed, device: Device, value: nat, n: nat): Plc {
    WriteAll(Moved(l.plc, feed(l.pos).moves), CommandWrites(device, value), Some(n))
  }

  function Zeroing(p: Plc, feed: Feed, pos: nat, device: Device, a: nat): Plc {
    WriteAll(Moved(Reading(p, feed, pos, a + 1), feed(pos + a + 1).moves), ZeroWrites(device), None)
  }

  /** The registers first show 100 at read number a, and zero at one of the reads after the zeroes. */
  ghost predicate AckedAt(cfg: Config, l: Link, feed: Feed, device: Device, value: nat, n: nat, a: nat) {
    var p := Commanding(l, feed, device, value, n);
    && a < cfg.ackAttempts && DoneFirstAt(p, feed, l.pos + 1, a)
    && ShowsZero(Zeroing(p, feed, l.pos + 1, device, a), feed, l.pos + a + 3, cfg.resetAttempts)
  }

  lemma ConfirmedOnRegisters(cfg: Config, l: Link, feed: Feed, device: Device, value: nat, n: nat, a: nat)
    requires Delivers(cfg, feed)
    ensures var p := Commanding(l, feed, device, value, n);
            var sent := CommandSent(cfg, l, feed, device, value, n);
            && sent.link.plc == p && sent.link.pos == l.pos + 1
            && (ConfirmedAt(cfg, l, feed, device, value, n, a)
                <==> a < cfg.ackAttempts && DoneFirstAt(p, feed, l.pos + 1, a))
  {
    var sent := CommandSent(cfg, l, feed, device, value, n);
    OneAttempt(cfg, l, feed, Write(CommandWrites(device, value), Some(n)));
    FirstDone(cfg, sent.link, feed, cfg.ackAttempts, a);
    hide RunOp, ReadNo, Moved, WriteAll, Delivers, CommandWrites, AcceptedAt, DoneFirstAt;
  }

  lemma RestOnRegisters(cfg: Config, l: Link, feed: Feed, device: Device)
    requires Delivers(cfg, feed)
    ensures (exists b :: ZeroedAt(cfg, l, feed, device, b)) <==>
            ShowsZero(WriteAll(Moved(l.plc, feed(l.pos).moves), ZeroWrites(device), None), feed, l.pos + 1,
                      cfg.resetAttempts)
  {
    var zero := ZeroesSent(cfg, l, feed, device);
    OneAttempt(cfg, l, feed, Write(ZeroWrites(device), None));
    ZeroSeen(cfg, zero.link, feed, cfg.resetAttempts);
    hide RunOp, Moved, WriteAll, Delivers, ZeroWrites, AcceptedAt, ShowsZero;
    assert forall b :: ZeroedAt(cfg, l, feed, device, b)
                       <==> AcceptedAt(cfg, zero.link, feed, SaysZero(), cfg.resetAttempts, b);
  }

  lemma AckedAtExactly(cfg: Config, l: Link, feed: Feed, device: Device, value: nat, n: nat, a: nat)
    requires Delivers(cfg, feed)
    ensures AckedAt(cfg, l, feed, device, value, n, a) <==>
            ConfirmedAt(cfg, l, feed, device, value, n, a)
            && exists b :: ZeroedAt(cfg, LinkAt(cfg, l, feed, device, value, n, a), feed, device, b)
  {
    hide RunOp, ReadNo, Reading, Moved, WriteAll, Delivers, CommandWrites, ZeroWrites, AcceptedAt, DoneFirstAt,
      ShowsZero, ConfirmedAt, ZeroedAt, CommandSent, Commanding;
    ConfirmedOnRegisters(cfg, l, feed, device, value, n, a);
    ReadingNo(cfg, CommandSent(cfg, l, feed, device, value, n).link, feed, a);
    RestOnRegisters(cfg, LinkAt(cfg, l, feed, device, value, n, a), feed, device);
  }

  /** On such a wire a step of either device is acknowledged exactly when, after the write of its command,
      messageOut is 100 at one of the ackAttempts reads, and zero at one of the resetAttempts reads that follow the
      write of the zeroes after the first such read. */
  lemma AckedOnRegisters(cfg: Config, l: Link, feed: Feed, device: Device, value: nat, n: nat)
    requires Delivers(cfg, feed)
    ensures ExecuteStep(cfg, l, feed, Some(device), value, StepExpects, n).reply == Acked <==>
            exists a :: AckedAt(cfg, l, feed, device, value, n, a)
  {
    hide ExecuteStep, Delivers, ConfirmedAt, ZeroedAt, AckedAt, LinkAt, CommandSent, AllRefused, BrokenAt, LastOf;
    RepliesExactly(cfg, l, feed, Some(device), value, n);
    forall a: nat
      ensures AckedAt(cfg, l, feed, device, value, n, a) <==>
              ConfirmedAt(cfg, l, feed, device, value, n, a)
              && exists b :: ZeroedAt(cfg, LinkAt(cfg, l, feed, device, value, n, a), feed, device, b)
    {
      AckedAtExactly(cfg, l, feed, device, value, n, a);
    }
  }
}
