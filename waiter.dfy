/** The completion wait of `wait_for_automation_execution`: a waiter with two
    path acceptors on `AutomationExecution.AutomationExecutionStatus`
    ("Success" ends the wait successfully, "Failed" ends it with a failure),
    a fixed delay between polls and a bound on the number of polls.
    The remote engine is a sequence of observed statuses: `poll(k)` is the
    status the (k+1)-th `GetAutomationExecution` call reports. */
module Waiter {
  import opened Records

  const DefaultMaxAttempts: int := 30
  const DefaultDelay: nat := 10
  const SuccessStatus: string := "Success"
  const FailedStatus: string := "Failed"

  /** A status that some acceptor matches; every other status (Pending,
      InProgress, Cancelled, TimedOut, ...) keeps the waiter polling. */
  predicate Terminal(status: string) {
    status == SuccessStatus || status == FailedStatus
  }

  /** How the wait ended. */
  datatype WaitOutcome =
    | Succeeded(attempts: nat)
    | Stopped(reason: WaiterReason)
  {
    function Attempts(): nat {
      match this
      case Succeeded(n) => n
      case Stopped(r) => r.attempts
    }
  }

  /** The number of polls after which the waiter stops: it always polls once,
      since the attempt counter is compared only after a poll. */
  function Bound(maxAttempts: int): (b: nat)
    ensures b >= 1 && b >= maxAttempts
    ensures maxAttempts >= 1 ==> b == maxAttempts
    ensures maxAttempts < 1 ==> b == 1
  {
    if maxAttempts < 1 then 1 else maxAttempts
  }

  /** No acceptor matched any of the first `n` polls. */
  ghost predicate QuietBefore(poll: nat -> string, n: nat) {
    forall j: nat :: j < n ==> !Terminal(poll(j))
  }

  /** The outcome of the wait once `k` polls have been made and none matched. */
  function WaitFrom(poll: nat -> string, maxAttempts: int, k: nat): (o: WaitOutcome)
    ensures k < o.Attempts() <= (if k < maxAttempts then maxAttempts else k + 1)
    ensures forall j: nat :: k <= j < o.Attempts() - 1 ==> !Terminal(poll(j))
    ensures o.Succeeded? <==> poll(o.Attempts() - 1) == SuccessStatus
    ensures o.Stopped? && o.reason.TerminalFailure? <==> poll(o.Attempts() - 1) == FailedStatus
    ensures o.Stopped? && o.reason.MaxAttemptsExceeded? ==>
              o.Attempts() == (if k < maxAttempts then maxAttempts else k + 1)
    decreases if k < maxAttempts then maxAttempts - k else 0
  {
    var status := poll(k);
    if status == SuccessStatus then Succeeded(k + 1)
    else if status == FailedStatus then Stopped(TerminalFailure(k + 1))
    else if k + 1 >= maxAttempts then Stopped(MaxAttemptsExceeded(k + 1))
    else WaitFrom(poll, maxAttempts, k + 1)
  }

  /** The outcome of a whole wait. */
  function Wait(poll: nat -> string, maxAttempts: int): (o: WaitOutcome)
    ensures 1 <= o.Attempts() <= Bound(maxAttempts)
  {
    WaitFrom(poll, maxAttempts, 0)
  }

  /** The first terminal status, if it comes within the bound, decides the outcome. */
  lemma {:induction false} WaitFromDecidedAt(poll: nat -> string, maxAttempts: int, k: nat, t: nat)
    requires k <= t < Bound(maxAttempts)
    requires forall j: nat :: k <= j < t ==> !Terminal(poll(j))
    requires Terminal(poll(t))
    ensures WaitFrom(poll, maxAttempts, k) ==
              if poll(t) == SuccessStatus then Succeeded(t + 1) else Stopped(TerminalFailure(t + 1))
    decreases t - k
  {
    if k < t {
      WaitFromDecidedAt(poll, maxAttempts, k + 1, t);
    }
  }

  /** With no terminal status within the bound, the waiter gives up after exactly
      `Bound(maxAttempts)` polls. */
  lemma {:induction false} WaitFromExhausted(poll: nat -> string, maxAttempts: int, k: nat)
    requires k < Bound(maxAttempts)
    requires forall j: nat :: k <= j < Bound(maxAttempts) ==> !Terminal(poll(j))
    ensures WaitFrom(poll, maxAttempts, k) == Stopped(MaxAttemptsExceeded(Bound(maxAttempts)))
    decreases Bound(maxAttempts) - k
  {
    if k + 1 < Bound(maxAttempts) {
      WaitFromExhausted(poll, maxAttempts, k + 1);
    }
  }

  /** The wait succeeds exactly when "Success" is observed within the bound
      before any "Failed". */
  lemma WaitSucceedsIff(poll: nat -> string, maxAttempts: int)
    ensures Wait(poll, maxAttempts).Succeeded? <==>
              exists t: nat :: t < Bound(maxAttempts) && poll(t) == SuccessStatus && QuietBefore(poll, t)
  {
    var o := Wait(poll, maxAttempts);
    if o.Succeeded? {
      assert QuietBefore(poll, o.Attempts() - 1);
    }
    if t: nat :| t < Bound(maxAttempts) && poll(t) == SuccessStatus && QuietBefore(poll, t) {
      WaitFromDecidedAt(poll, maxAttempts, 0, t);
    }
  }

  /** The wait fails with a terminal failure exactly when "Failed" is observed
      within the bound before any "Success". */
  lemma WaitFailsIff(poll: nat -> string, maxAttempts: int)
    ensures Wait(poll, maxAttempts).Stopped? && Wait(poll, maxAttempts).reason.TerminalFailure? <==>
              exists t: nat :: t < Bound(maxAttempts) && poll(t) == FailedStatus && QuietBefore(poll, t)
  {
    var o := Wait(poll, maxAttempts);
    if o.Stopped? && o.reason.TerminalFailure? {
      assert QuietBefore(poll, o.Attempts() - 1);
    }
    if t: nat :| t < Bound(maxAttempts) && poll(t) == FailedStatus && QuietBefore(poll, t) {
      WaitFromDecidedAt(poll, maxAttempts, 0, t);
    }
  }

  /** The wait times out exactly when none of the first `Bound(maxAttempts)`
      statuses is terminal, and it then has polled exactly that many times. */
  lemma WaitTimesOutIff(poll: nat -> string, maxAttempts: int)
    ensures Wait(poll, maxAttempts) == Stopped(MaxAttemptsExceeded(Bound(maxAttempts))) <==>
              QuietBefore(poll, Bound(maxAttempts))
  {
    var o := Wait(poll, maxAttempts);
    if QuietBefore(poll, Bound(maxAttempts)) {
      WaitFromExhausted(poll, maxAttempts, 0);
    }
    if o == Stopped(MaxAttemptsExceeded(Bound(maxAttempts))) {
      assert !Terminal(poll(o.Attempts() - 1));
    }
  }

  /** The polling loop of the waiter. `slept` is the total delay spent between
      polls: the waiter sleeps after every poll that neither ended nor exhausted
      the wait. */
  method WaitForCompletion(poll: nat -> string, maxAttempts: int, delay: nat)
    returns (outcome: WaitOutcome, slept: nat)
    ensures outcome == Wait(poll, maxAttempts)
    ensures slept == delay * (outcome.Attempts() - 1)
  {
    var attempts: nat := 0;
    slept := 0;
    while true
      invariant attempts < Bound(maxAttempts)
      invariant WaitFrom(poll, maxAttempts, attempts) == Wait(poll, maxAttempts)
      invariant slept == delay * attempts
      decreases Bound(maxAttempts) - attempts
    {
      var status := poll(attempts);
      attempts := attempts + 1;
      if status == SuccessStatus {
        return Succeeded(attempts), slept;
      }
      if status == FailedStatus {
        return Stopped(TerminalFailure(attempts)), slept;
      }
      if attempts >= maxAttempts {
        return Stopped(MaxAttemptsExceeded(attempts)), slept;
      }
      slept := slept + delay;
    }
  }

  /** With the defaults the Lambda uses, the wait polls at most 30 times and
      sleeps at most 290 seconds in all. */
  lemma DefaultWaitBounded(poll: nat -> string, outcome: WaitOutcome, slept: nat)
    requires outcome == Wait(poll, DefaultMaxAttempts)
    requires slept == DefaultDelay * (outcome.Attempts() - 1)
    ensures outcome.Attempts() <= 30 && slept <= 290
  {
  }
}
