/** One order step: how often its command is sent, when it stops, and how long it backs off
    (`executeStepWithRetry`, src/core/errors/ErrorHandler.js). */
module StepRetry {
  import opened Orchestrator

  function Pow2(k: nat): nat { if k == 0 then 1 else 2 * Pow2(k - 1) }

  /** `nextBackoffMs` */
  function NextBackoff(attempt: nat, base: nat): nat {
    base * Pow2(if attempt >= 1 then attempt - 1 else 0)
  }

  /** Replies before index k are failures worth another try. */
  ghost predicate AllRetried(replies: seq<StepReply>, k: nat) {
    forall j: nat :: j < k ==> ReplyAt(replies, j) != Acked && Retryable(ReplyAt(replies, j))
  }

  lemma {:induction false} AttemptFromMeaning(maxRetries: nat, replies: seq<StepReply>, attempt: nat)
    requires 1 <= attempt <= maxRetries && AllRetried(replies, attempt - 1)
    ensures var res := AttemptFrom(maxRetries, replies, attempt);
            && attempt <= res.sends <= maxRetries && AllRetried(replies, res.sends - 1)
            && (res.ok <==> ReplyAt(replies, res.sends - 1) == Acked)
            && (!res.ok ==> res.sends == maxRetries || !Retryable(ReplyAt(replies, res.sends - 1)))
    decreases maxRetries - attempt
  {
    var reply := ReplyAt(replies, attempt - 1);
    if reply != Acked && Retryable(reply) && attempt != maxRetries {
      AttemptFromMeaning(maxRetries, replies, attempt + 1);
    }
  }

  /** The step is sent until the first acknowledgement or the first fatal error, at most maxRetries times. */
  lemma RunStepMeaning(maxRetries: nat, replies: seq<StepReply>)
    requires maxRetries >= 1
    ensures var res := RunStep(maxRetries, replies);
            && 1 <= res.sends <= maxRetries && AllRetried(replies, res.sends - 1)
            && (res.ok <==> ReplyAt(replies, res.sends - 1) == Acked)
            && (!res.ok ==> res.sends == maxRetries || !Retryable(ReplyAt(replies, res.sends - 1)))
  {
    AttemptFromMeaning(maxRetries, replies, 1);
  }

  /** The step succeeds exactly when an acknowledgement comes within maxRetries sends with no fatal error before it. */
  lemma StepSucceedsExactly(maxRetries: nat, replies: seq<StepReply>)
    ensures RunStep(maxRetries, replies).ok <==>
            exists k: nat :: k < maxRetries && ReplyAt(replies, k) == Acked && AllRetried(replies, k)
  {
    if maxRetries >= 1 {
      RunStepMeaning(maxRetries, replies);
      var res := RunStep(maxRetries, replies);
      if res.ok { assert ReplyAt(replies, res.sends - 1) == Acked && AllRetried(replies, res.sends - 1); }
      if k: nat :| k < maxRetries && ReplyAt(replies, k) == Acked && AllRetried(replies, k) {
        assert res.sends - 1 <= k;
      }
    }
  }

  /** `executeStepWithRetry` with its sleeps: after every retried failure, base * 2^(attempt - 1). */
  method ExecuteStepWithRetry(maxRetries: nat, base: nat, replies: seq<StepReply>) returns (ok: bool, sends: nat,
                              backoffs: nat, slept: nat)
    ensures StepResult(ok, sends) == RunStep(maxRetries, replies)
    ensures maxRetries >= 1 ==> backoffs == sends - 1 <= maxRetries - 1
    ensures maxRetries == 0 ==> backoffs == 0
    ensures slept == base * (Pow2(backoffs) - 1)
  {
    var attempt := 1;
    backoffs, slept := 0, 0;
    while attempt <= maxRetries
      invariant attempt == backoffs + 1 && (maxRetries >= 1 ==> attempt <= maxRetries)
      invariant slept == base * (Pow2(backoffs) - 1)
      invariant RunStep(maxRetries, replies) == AttemptFrom(maxRetries, replies, attempt)
      decreases maxRetries - attempt
    {
      var reply := ReplyAt(replies, attempt - 1);
      if reply == Acked { return true, attempt, backoffs, slept; }
      if !Retryable(reply) || attempt == maxRetries { return false, attempt, backoffs, slept; }
      BackoffAdds(base, backoffs);
      slept := slept + NextBackoff(attempt, base);
      backoffs := backoffs + 1;
      attempt := attempt + 1;
    }
    return false, attempt - 1, backoffs, slept;
  }

  lemma BackoffAdds(base: nat, k: nat)
    ensures base * (Pow2(k) - 1) + base * Pow2(k) == base * (Pow2(k + 1) - 1)
  {
    assert base * (Pow2(k) - 1) + base * Pow2(k) == base * (2 * Pow2(k) - 1);
  }
}
