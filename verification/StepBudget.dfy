/** A whole order step on the wire: `executeStepWithRetry` over `executeStepCommand`, and how much it can cost. */
module StepBudget {
  import opened Sequences
  import opened Domain
  import opened Orchestrator
  import opened StepRetry
  import opened PlcProtocol
  import opened ModbusOps
  import opened Handshake

  /** Attempts of one operation, and of one step command, at most. */
  function OpMax(cfg: Config): nat { cfg.innerAttempts * Rounds(cfg.hardLimit) }

  function StepMax(cfg: Config): nat { (2 + cfg.ackAttempts + cfg.resetAttempts) * OpMax(cfg) }

  lemma OpEndsInTime(cfg: Config, l: Link, feed: Feed, q: Request)
    ensures l.pos <= RunOp(cfg, l, feed, q).link.pos <= l.pos + OpMax(cfg)
  {
    OpAlwaysEnds(cfg, l, feed, q);
    hide RunOp;
  }

  lemma {:induction false} WaitUses(cfg: Config, l: Link, feed: Feed, accept: Option<int> -> bool, attempts: nat,
                                    attempt: nat, last: Option<int>)
    requires 1 <= attempt <= attempts + 1
    ensures l.pos <= WaitFrom(cfg, l, feed, accept, attempts, attempt, last).link.pos
        <= l.pos + OpMax(cfg) * (attempts + 1 - attempt)
    decreases attempts + 1 - attempt
  {
    if attempt <= attempts {
      var e := RunOp(cfg, l, feed, ReadOut);
      OpEndsInTime(cfg, l, feed, ReadOut);
      OneMoreTimes(attempts - attempt, OpMax(cfg));
      hide RunOp, OpMax;
      if e.result.Answered? && !accept(e.result.value) {
        WaitUses(cfg, e.link, feed, accept, attempts, attempt + 1, e.result.value);
      }
    }
  }

  lemma FourParts(a: nat, b: nat, m: nat)
    ensures (2 + a + b) * m == m + m * a + m + m * b && m * a >= 0 && m * b >= 0
  {
  }

  /** One step command: the write, the polls for the response, the reset and the polls for zero. */
  lemma StepUses(cfg: Config, l: Link, feed: Feed, device: Option<Device>, value: nat, expected: seq<Expected>, n: nat)
    ensures l.pos <= ExecuteStep(cfg, l, feed, device, value, expected, n).link.pos <= l.pos + StepMax(cfg)
  {
    FourParts(cfg.ackAttempts, cfg.resetAttempts, OpMax(cfg));
    assert StepMax(cfg) == (2 + cfg.ackAttempts + cfg.resetAttempts) * OpMax(cfg);
    if device.Some? {
      var q, q0 := Write(CommandWrites(device.value, value), Some(n)), Write(ZeroWrites(device.value), None);
      OpEndsInTime(cfg, l, feed, q);
      var sent := RunOp(cfg, l, feed, q);
      hide RunOp, WaitFrom, StepMax, OpMax, CommandWrites, ZeroWrites, DecodeResponse, OutcomeMatches;
      WaitUses(cfg, sent.link, feed, Confirms(expected), cfg.ackAttempts, 1, None);
      var w := WaitForExpected(cfg, sent.link, feed, expected);
      OpEndsInTime(cfg, w.link, feed, q0);
      var zero := RunOp(cfg, w.link, feed, q0);
      WaitUses(cfg, zero.link, feed, IsZero(), cfg.resetAttempts, 1, None);
    }
  }

  /** What the retries leave: the socket, the verdict, and the reply of each attempt. */
  datatype Sent = Sent(link: Link, result: StepResult, replies: seq<StepReply>)

  /** `executeStepWithRetry` from the given attempt on, each attempt a new step command. */
  function SendFrom(cfg: Config, l: Link, feed: Feed, device: Option<Device>, value: nat, n: nat, maxRetries: nat,
                    attempt: nat): Sent
    requires attempt >= 1
    decreases maxRetries + 1 - attempt
  {
    if attempt > maxRetries then Sent(l, StepResult(false, attempt - 1), [])
    else
      var o := ExecuteStep(cfg, l, feed, device, value, StepExpects, n);
      if o.reply == Acked then Sent(o.link, StepResult(true, attempt), [o.reply])
      else if !Retryable(o.reply) || attempt == maxRetries then Sent(o.link, StepResult(false, attempt), [o.reply])
      else
        var rest := SendFrom(cfg, o.link, feed, device, value, n + 1, maxRetries, attempt + 1);
        rest.(replies := [o.reply] + rest.replies)
  }

  function SendStep(cfg: Config, l: Link, feed: Feed, device: Option<Device>, value: nat, n: nat,
      maxRetries: nat): Sent {
    SendFrom(cfg, l, feed, device, value, n, maxRetries, 1)
  }

  lemma {:induction false} SendFromVerdict(cfg: Config, l: Link, feed: Feed, device: Option<Device>, value: nat, n: nat,
                                          maxRetries: nat, attempt: nat, before: seq<StepReply>)
    requires 1 <= attempt <= maxRetries + 1 && |before| == attempt - 1
    ensures var s := SendFrom(cfg, l, feed, device, value, n, maxRetries, attempt);
            && s.result == AttemptFrom(maxRetries, before + s.replies, attempt)
            && |s.replies| <= maxRetries + 1 - attempt
    decreases maxRetries + 1 - attempt
  {
    hide ExecuteStep;
    if attempt <= maxRetries {
      var o := ExecuteStep(cfg, l, feed, device, value, StepExpects, n);
      var s := SendFrom(cfg, l, feed, device, value, n, maxRetries, attempt);
      if o.reply != Acked && Retryable(o.reply) && attempt != maxRetries {
        var rest := SendFrom(cfg, o.link, feed, device, value, n + 1, maxRetries, attempt + 1);
        SendFromVerdict(cfg, o.link, feed, device, value, n + 1, maxRetries, attempt + 1, before + [o.reply]);
        assert before + [o.reply] + rest.replies == before + s.replies;
      }
      assert (before + s.replies)[attempt - 1] == o.reply;
    }
  }

  lemma {:induction false} SendFromUses(cfg: Config, l: Link, feed: Feed, device: Option<Device>, value: nat, n: nat,
                                        maxRetries: nat, attempt: nat)
    requires 1 <= attempt <= maxRetries + 1
    ensures l.pos <= SendFrom(cfg, l, feed, device, value, n, maxRetries, attempt).link.pos
        <= l.pos + StepMax(cfg) * (maxRetries + 1 - attempt)
    decreases maxRetries + 1 - attempt
  {
    if attempt <= maxRetries {
      var o := ExecuteStep(cfg, l, feed, device, value, StepExpects, n);
      StepUses(cfg, l, feed, device, value, StepExpects, n);
      OneMoreTimes(maxRetries - attempt, StepMax(cfg));
      hide ExecuteStep, StepMax;
      if o.reply != Acked && Retryable(o.reply) && attempt != maxRetries {
        SendFromUses(cfg, o.link, feed, device, value, n + 1, maxRetries, attempt + 1);
      }
    }
  }

  /** A whole order step, whatever the wire does: it ends with the verdict the state machine gives for the
      replies its attempts got, after at most
      maxRetries * (2 + ackAttempts + resetAttempts) * innerAttempts * (max(1, hardLimit or 10) + 1) attempts. */
  lemma WholeStepIsBounded(cfg: Config, l: Link, feed: Feed, device: Option<Device>, value: nat, n: nat,
      maxRetries: nat)
    ensures var s := SendStep(cfg, l, feed, device, value, n, maxRetries);
            && s.result == RunStep(maxRetries, s.replies)
            && |s.replies| <= maxRetries
            && s.link.pos - l.pos
               <= maxRetries * ((2 + cfg.ackAttempts + cfg.resetAttempts)
                                * (cfg.innerAttempts * Rounds(cfg.hardLimit)))
  {
    SendFromVerdict(cfg, l, feed, device, value, n, maxRetries, 1, []);
    SendFromUses(cfg, l, feed, device, value, n, maxRetries, 1);
    assert StepMax(cfg)
        == (2 + cfg.ackAttempts + cfg.resetAttempts) * (cfg.innerAttempts * Rounds(cfg.hardLimit));
    hide SendFrom, AttemptFrom, StepMax;
    assert [] + SendStep(cfg, l, feed, device, value, n, maxRetries).replies
        == SendStep(cfg, l, feed, device, value, n, maxRetries).replies;
  }

  // ---------- every send of a step ----------

  /** The wire before the k-th send of a step, counted from zero. */
  function BeforeSend(cfg: Config, l: Link, feed: Feed, device: Option<Device>, value: nat, n: nat, k: nat): Link {
    if k == 0 then l
    else ExecuteStep(cfg, BeforeSend(cfg, l, feed, device, value, n, k - 1), feed, device, value, StepExpects,
                     n + k - 1).link
  }

  /** What that send is answered. */
  function SendReply(cfg: Config, l: Link, feed: Feed, device: Option<Device>, value: nat, n: nat,
                     k: nat): StepReply {
    ExecuteStep(cfg, BeforeSend(cfg, l, feed, device, value, n, k), feed, device, value, StepExpects, n + k).reply
  }

  /** A reply after which a step is sent again, if any send is left. */
  predicate SendsAgain(reply: StepReply) {
    reply == Mismatch || reply == Threw(false) || (reply.PlcError? && reply.code != 99)
  }

  /** From send k on, the step is sent again as long as the answers allow it and a send is left. */
  ghost predicate SendsUntil(s: Sent, k: nat, maxRetries: nat, answers: nat -> StepReply) {
    && 1 <= |s.replies| && k + |s.replies| == s.result.sends <= maxRetries
    && (forall i: nat :: k <= i < s.result.sends ==> s.replies[i - k] == answers(i))
    && (forall i: nat :: k <= i < s.result.sends - 1 ==> SendsAgain(answers(i)))
    && (s.result.ok <==> answers(s.result.sends - 1) == Acked)
    && (SendsAgain(answers(s.result.sends - 1)) ==> s.result.sends == maxRetries)
  }

  lemma OneSendBefore(rest: Sent, k: nat, maxRetries: nat, answers: nat -> StepReply)
    requires SendsUntil(rest, k + 1, maxRetries, answers) && SendsAgain(answers(k))
    ensures SendsUntil(rest.(replies := [answers(k)] + rest.replies), k, maxRetries, answers)
  {
  }

  lemma {:induction false} SendFromExactly(cfg: Config, l: Link, feed: Feed, device: Option<Device>, value: nat,
                                           n: nat, maxRetries: nat, k: nat, answers: nat -> StepReply)
    requires k < maxRetries && forall j: nat :: answers(j) == SendReply(cfg, l, feed, device, value, n, j)
    ensures var s := SendFrom(cfg, BeforeSend(cfg, l, feed, device, value, n, k), feed, device, value, n + k,
                              maxRetries, k + 1);
            && SendsUntil(s, k, maxRetries, answers)
            && s.link == BeforeSend(cfg, l, feed, device, value, n, s.result.sends)
    decreases maxRetries - k
  {
    hide ExecuteStep, SendsUntil;
    var here := BeforeSend(cfg, l, feed, device, value, n, k);
    var o := ExecuteStep(cfg, here, feed, device, value, StepExpects, n + k);
    assert answers(k) == o.reply && BeforeSend(cfg, l, feed, device, value, n, k + 1) == o.link;
    var s := SendFrom(cfg, here, feed, device, value, n + k, maxRetries, k + 1);
    if SendsAgain(o.reply) && k + 1 < maxRetries {
      SendFromExactly(cfg, l, feed, device, value, n, maxRetries, k + 1, answers);
      OneSendBefore(SendFrom(cfg, o.link, feed, device, value, n + k + 1, maxRetries, k + 2), k, maxRetries, answers);
    } else {
      LastSend(s, k, maxRetries, answers);
    }
  }

  lemma LastSend(s: Sent, k: nat, maxRetries: nat, answers: nat -> StepReply)
    requires s.replies == [answers(k)] && s.result.sends == k + 1 <= maxRetries
    requires s.result.ok <==> answers(k) == Acked
    requires SendsAgain(answers(k)) ==> k + 1 == maxRetries
    ensures SendsUntil(s, k, maxRetries, answers)
  {
  }

  /** A whole order step on the wire: it succeeds exactly when one of at most maxRetries sends is acknowledged, each
      send before it having been answered by an error that allows another; and it stops there, or at the first answer
      that allows none. */
  lemma WholeStepExactly(cfg: Config, l: Link, feed: Feed, device: Option<Device>, value: nat, n: nat,
                         maxRetries: nat)
    ensures var s := SendStep(cfg, l, feed, device, value, n, maxRetries);
            && (s.result.ok <==>
                  exists k: nat ::
                    && k < maxRetries && SendReply(cfg, l, feed, device, value, n, k) == Acked
                    && forall j: nat :: j < k ==> SendsAgain(SendReply(cfg, l, feed, device, value, n, j)))
            && (forall j: nat :: j + 1 < s.result.sends ==> SendsAgain(SendReply(cfg, l, feed, device, value, n, j)))
            && (1 <= s.result.sends < maxRetries ==>
                  !SendsAgain(SendReply(cfg, l, feed, device, value, n, s.result.sends - 1)))
            && (s.result.sends == 0 <==> maxRetries == 0) && s.result.sends <= maxRetries
            && s.link == BeforeSend(cfg, l, feed, device, value, n, s.result.sends)
  {
    hide ExecuteStep, BeforeSend, SendReply, SendFrom;
    NoSendYet(cfg, l, feed, device, value, n);
    if maxRetries > 0 {
      var answers := (k: nat) => SendReply(cfg, l, feed, device, value, n, k);
      SendFromExactly(cfg, l, feed, device, value, n, maxRetries, 0, answers);
      var s := SendStep(cfg, l, feed, device, value, n, maxRetries);
      var last: nat := s.result.sends - 1;
      assert answers(last) == SendReply(cfg, l, feed, device, value, n, last);
      assert forall j: nat :: j < last ==> SendsAgain(answers(j));
      if k: nat :| k < maxRetries && SendReply(cfg, l, feed, device, value, n, k) == Acked
                   && forall j: nat :: j < k ==> SendsAgain(SendReply(cfg, l, feed, device, value, n, j)) {
        StopsNoLater(answers, k, last);
      }
    }
  }

  lemma StopsNoLater(answers: nat -> StepReply, k: nat, last: nat)
    requires !SendsAgain(answers(k)) && forall j: nat :: j < k ==> SendsAgain(answers(j))
    requires forall j: nat :: j < last ==> SendsAgain(answers(j))
    ensures last <= k
  {
  }

  /** Before the first send nothing has happened, and with no sends allowed that is all. */
  lemma NoSendYet(cfg: Config, l: Link, feed: Feed, device: Option<Device>, value: nat, n: nat)
    ensures BeforeSend(cfg, l, feed, device, value, n, 0) == l
    ensures SendStep(cfg, l, feed, device, value, n, 0) == Sent(l, StepResult(false, 0), [])
  {
  }

  // ---------- a successful step was confirmed on the wire ----------

  lemma {:induction false} WaitGrowsLog(cfg: Config, l: Link, feed: Feed, accept: Option<int> -> bool, attempts: nat,
                                        attempt: nat, last: Option<int>)
    ensures l.log <= WaitFrom(cfg, l, feed, accept, attempts, attempt, last).link.log
    decreases attempts + 1 - attempt
  {
    if attempt <= attempts {
      var e := RunOp(cfg, l, feed, ReadOut);
      OpLogged(cfg, l, feed, ReadOut);
      hide RunOp;
      if e.result.Answered? && !accept(e.result.value) {
        WaitGrowsLog(cfg, e.link, feed, accept, attempts, attempt + 1, e.result.value);
      }
    }
  }

  lemma StepGrowsLog(cfg: Config, l: Link, feed: Feed, device: Option<Device>, value: nat, expected: seq<Expected>,
      n: nat)
    ensures l.log <= ExecuteStep(cfg, l, feed, device, value, expected, n).link.log
  {
    hide RunOp, WaitFrom, CommandWrites, ZeroWrites, DecodeResponse, Written;
    if device.Some? {
      var q, q0 := Write(CommandWrites(device.value, value), Some(n)), Write(ZeroWrites(device.value), None);
      OpLogged(cfg, l, feed, q);
      var sent := RunOp(cfg, l, feed, q);
      WaitGrowsLog(cfg, sent.link, feed, Confirms(expected), cfg.ackAttempts, 1, None);
      var w := WaitForExpected(cfg, sent.link, feed, expected);
      OpLogged(cfg, w.link, feed, q0);
      WaitGrowsLog(cfg, RunOp(cfg, w.link, feed, q0).link, feed, IsZero(), cfg.resetAttempts, 1, None);
    }
  }

  /** The log ends in a full handshake for this command, begun after everything logged before the step. */
  ghost predicate EndsInHandshake(l: Link, v: Link, cfg: Config, device: Device, value: nat) {
    exists before :: l.log <= before && FullHandshake(before, v.log, cfg, device, value, StepExpects)
  }

  lemma {:induction false} SendFromConfirmed(cfg: Config, l: Link, feed: Feed, device: Option<Device>, value: nat,
                                             n: nat, maxRetries: nat, attempt: nat)
    requires attempt >= 1 && SendFrom(cfg, l, feed, device, value, n, maxRetries, attempt).result.ok
    ensures device.Some?
    ensures EndsInHandshake(l, SendFrom(cfg, l, feed, device, value, n, maxRetries, attempt).link, cfg, device.value,
        value)
    decreases maxRetries + 1 - attempt
  {
    hide ExecuteStep, FullHandshake;
    var o := ExecuteStep(cfg, l, feed, device, value, StepExpects, n);
    if o.reply == Acked {
      DoneMeansFullHandshake(cfg, l, feed, device, value, StepExpects, n);
    } else {
      StepGrowsLog(cfg, l, feed, device, value, StepExpects, n);
      SendFromConfirmed(cfg, o.link, feed, device, value, n + 1, maxRetries, attempt + 1);
      var v := SendFrom(cfg, o.link, feed, device, value, n + 1, maxRetries, attempt + 1).link;
      var before :| o.link.log <= before && FullHandshake(before, v.log, cfg, device.value, value, StepExpects);
      assert l.log <= before;
    }
  }

  /** When the state machine counts a step as done on the replies of the wire, the wire has carried the full
      handshake of that very command: so the index of an order never advances without one. */
  lemma DoneStepWasConfirmed(cfg: Config, l: Link, feed: Feed, device: Option<Device>, value: nat, n: nat,
      maxRetries: nat)
    requires RunStep(maxRetries, SendStep(cfg, l, feed, device, value, n, maxRetries).replies).ok
    ensures device.Some?
    ensures EndsInHandshake(l, SendStep(cfg, l, feed, device, value, n, maxRetries).link, cfg, device.value, value)
  {
    WholeStepIsBounded(cfg, l, feed, device, value, n, maxRetries);
    hide SendFrom, RunStep, EndsInHandshake;
    SendFromConfirmed(cfg, l, feed, device, value, n, maxRetries, 1);
  }
}
