/** How long an order can take: retries, the delivery promise, and termination. */
module OrderTiming {
  import opened OrderModel
  import opened OrderSafety

  // ----- retries

  datatype RetryPolicy = RetryPolicy(initial: nat, coefficient: nat, maximum: nat, attempts: nat)

  const DEFAULT_RETRY: RetryPolicy := RetryPolicy(1, 2, 30, 5)
  const ATTEMPT_LIMIT: nat := 10

  // Five tries of ten seconds with 1, 2, 4 and 8 seconds between them.
  const ACTIVITY_BUDGET: nat := 65

  function Power(base: nat, n: nat): nat {
    if n == 0 then 1 else base * Power(base, n - 1)
  }

  function Backoff(p: RetryPolicy, n: nat): nat {
    var interval := p.initial * Power(p.coefficient, n);
    if interval < p.maximum then interval else p.maximum
  }

  /** From scheduling to completion: each try queues and runs, and the policy
      backs off before the next. */
  function Elapsed(p: RetryPolicy, attempts: seq<Attempt>): nat
    decreases |attempts|
  {
    if attempts == [] then 0
    else
      var n := |attempts| - 1;
      Elapsed(p, attempts[..n]) + attempts[n].queued + attempts[n].ran
      + if n == 0 then 0 else Backoff(p, n - 1)
  }

  function Queued(attempts: seq<Attempt>): nat
    decreases |attempts|
  {
    if attempts == [] then 0 else Queued(attempts[..|attempts| - 1]) + attempts[|attempts| - 1].queued
  }

  /** A try that outruns its start-to-close timeout is cut off there. */
  predicate Lawful(p: RetryPolicy, attempts: seq<Attempt>, limit: nat) {
    && 1 <= |attempts| <= p.attempts
    && forall i :: 0 <= i < |attempts| ==> attempts[i].ran <= limit
  }

  function BackoffSum(p: RetryPolicy, n: nat): nat {
    if n == 0 then 0 else BackoffSum(p, n - 1) + Backoff(p, n - 1)
  }

  lemma {:induction false} ElapsedBound(p: RetryPolicy, attempts: seq<Attempt>, limit: nat)
    requires forall i :: 0 <= i < |attempts| ==> attempts[i].ran <= limit
    requires attempts != []
    ensures Elapsed(p, attempts) <= Queued(attempts) + limit * |attempts| + BackoffSum(p, |attempts| - 1)
    decreases |attempts|
  {
    var n := |attempts| - 1;
    if n == 0 {
      assert Elapsed(p, attempts[..0]) == 0 && Queued(attempts[..0]) == 0;
    } else {
      ElapsedBound(p, attempts[..n], limit);
      assert limit * |attempts| == limit * n + limit;
    }
  }

  lemma {:induction false} BackoffSumGrows(p: RetryPolicy, m: nat, n: nat)
    requires m <= n
    ensures BackoffSum(p, m) <= BackoffSum(p, n)
    decreases n
  {
    if m == n {
    } else {
      BackoffSumGrows(p, m, n - 1);
    }
  }

  lemma DefaultBackoffs()
    ensures BackoffSum(DEFAULT_RETRY, 4) == 15
  {
    assert Power(2, 1) == 2 && Power(2, 2) == 4 && Power(2, 3) == 8;
    assert Backoff(DEFAULT_RETRY, 0) == 1 && Backoff(DEFAULT_RETRY, 1) == 2;
    assert Backoff(DEFAULT_RETRY, 2) == 4 && Backoff(DEFAULT_RETRY, 3) == 8;
    assert BackoffSum(DEFAULT_RETRY, 2) == 3;
  }

  /** Under the default policy an activity that returns does so within 65
      seconds, plus the time its tries spent queued. */
  lemma ActivityWithinBudget(attempts: seq<Attempt>)
    requires Lawful(DEFAULT_RETRY, attempts, ATTEMPT_LIMIT)
    ensures Elapsed(DEFAULT_RETRY, attempts) <= ACTIVITY_BUDGET + Queued(attempts)
  {
    ElapsedBound(DEFAULT_RETRY, attempts, ATTEMPT_LIMIT);
    BackoffSumGrows(DEFAULT_RETRY, |attempts| - 1, 4);
    DefaultBackoffs();
  }

  /** The budget is no more than it has to be: five tries of ten seconds each, never
      queued, take all 65. */
  lemma BudgetIsTight(attempts: seq<Attempt>)
    requires |attempts| == 5 && forall i :: 0 <= i < 5 ==> attempts[i] == Attempt(0, 10)
    ensures Lawful(DEFAULT_RETRY, attempts, ATTEMPT_LIMIT) && Elapsed(DEFAULT_RETRY, attempts) == 65
  {
    FullTries(attempts, 5);
    assert attempts[..5] == attempts;
    DefaultBackoffs();
  }

  lemma {:induction false} FullTries(attempts: seq<Attempt>, n: nat)
    requires 1 <= n <= |attempts| && forall i :: 0 <= i < n ==> attempts[i] == Attempt(0, 10)
    ensures Elapsed(DEFAULT_RETRY, attempts[..n]) == 10 * n + BackoffSum(DEFAULT_RETRY, n - 1)
    decreases n
  {
    if n == 1 {
      assert attempts[..1][..0] == [];
    } else {
      FullTries(attempts, n - 1);
      assert attempts[..n][..n - 1] == attempts[..n - 1];
    }
  }

  // ----- the delivery promise

  /** Seconds an await from acceptance on may take with no queueing or latency. */
  function Budget(at: Point): nat {
    if TimerOf(at).Some? then TimerOf(at).value
    else if IsActivity(at) then ACTIVITY_BUDGET
    else 0
  }

  function BudgetAhead(at: Point): nat {
    match at
    case PrepSleep => 290
    case Ready => 220
    case AwaitCourier => 220
    case PickUp => 190
    case Transit => 125
    case DeliverOrder => 65
    case _ => 0
  }

  predicate Leaves(m: Machine, a: Activation) {
    m.status.Running? && Step(m, a).at != m.at
  }

  /** The object as this activation wakes it. */
  function Woken(m: Machine, a: Activation): Core {
    Hear(m.core.(now := if a.now < m.core.now then m.core.now else a.now), a.answers)
  }

  lemma LeavingResumes(m: Machine, a: Activation)
    requires Leaves(m, a)
    ensures Step(m, a) == Resume(Woken(m, a), m.at) && !Expired(Woken(m, a)) && Over(Woken(m, a), m.at, a.wake)
  {
  }

  /** An activity's completion comes as its tries account for it. */
  predicate TimelyStep(m: Machine, a: Activation) {
    Leaves(m, a) && IsActivity(m.at) && a.wake.Done? ==>
      && Lawful(DEFAULT_RETRY, a.wake.attempts, ATTEMPT_LIMIT)
      && Step(m, a).core.now == m.core.since + Elapsed(DEFAULT_RETRY, a.wake.attempts)
  }

  predicate Timely(m: Machine, es: seq<Activation>)
    decreases |es|
  {
    es == [] || (TimelyStep(m, es[0]) && Timely(Step(m, es[0]), es[1..]))
  }

  /** What queueing and latency added to the await this activation ends. */
  function Latency(m: Machine, a: Activation): nat {
    if !Leaves(m, a) then 0
    else if IsActivity(m.at) && a.wake.Done? then Queued(a.wake.attempts)
    else
      var spent := Step(m, a).core.now - m.core.since;
      if spent < Budget(m.at) then 0 else spent - Budget(m.at)
  }

  function Lag(m: Machine, es: seq<Activation>): nat
    decreases |es|
  {
    if es == [] then 0 else Latency(m, es[0]) + Lag(Step(m, es[0]), es[1..])
  }

  lemma ActivityLeavesDone(m: Machine, a: Activation)
    requires Leaves(m, a) && IsActivity(m.at)
    ensures a.wake.Done?
  {
  }

  lemma StepOnBudget(m: Machine, a: Activation)
    requires Position(m.at) >= Position(PrepSleep) && TimelyStep(m, a)
    ensures var n := Step(m, a);
            && Position(n.at) >= Position(PrepSleep)
            && n.core.since + BudgetAhead(n.at) <= m.core.since + BudgetAhead(m.at) + Latency(m, a)
  {
    if Leaves(m, a) {
      LeavingResumes(m, a);
      ResumeMoves(Woken(m, a), m.at);
      if IsActivity(m.at) {
        ActivityLeavesDone(m, a);
        ActivityWithinBudget(a.wake.attempts);
      }
    }
  }

  lemma {:induction false} RunOnBudget(m: Machine, es: seq<Activation>)
    requires Position(m.at) >= Position(PrepSleep) && Timely(m, es)
    ensures var n := Run(m, es);
            n.core.since + BudgetAhead(n.at) <= m.core.since + BudgetAhead(m.at) + Lag(m, es)
    decreases |es|
  {
    if es == [] {
    } else {
      StepOnBudget(m, es[0]);
      RunOnBudget(Step(m, es[0]), es[1..]);
    }
  }

  /** From acceptance, where PromisedDeliveryAt is stamped, an order is delivered
      within 290 seconds plus queueing and latency; the promise is kept whenever
      those stay under 1810 seconds in all. */
  lemma PromiseKept(c: Core, es: seq<Activation>)
    requires c.trackStages
    requires Timely(Resume(c, Poll), es) && Run(Resume(c, Poll), es).at.Settle?
    ensures var accepted := Resume(c, Poll);
            var stamp := accepted.core.out[|accepted.core.out| - 1];
            var deliveredAt := Run(accepted, es).core.since;
            && stamp.UpsertStage? && stamp.stage == Preparing
            && stamp.promised.Some? && stamp.promised.value == accepted.core.now + 2100
            && deliveredAt <= accepted.core.now + 290 + Lag(accepted, es)
            && (Lag(accepted, es) < 1810 ==> deliveredAt < stamp.promised.value)
  {
    RunOnBudget(Resume(c, Poll), es);
  }

  // ----- timer time

  /** How much of the await's timer has run. */
  function TimerRun(c: Core, at: Point): nat {
    match TimerOf(at)
    case None => 0
    case Some(timer) =>
      if c.now < c.since then 0 else if c.now < c.since + timer then c.now - c.since else timer
  }

  /** Seconds of timer behind the await that this activation ends. */
  function TimerSpent(m: Machine, a: Activation): nat {
    if Leaves(m, a) then TimerRun(m.core.(now := Step(m, a).core.now), m.at) else 0
  }

  function TimerTime(m: Machine, es: seq<Activation>): nat
    decreases |es|
  {
    if es == [] then 0 else TimerSpent(m, es[0]) + TimerTime(Step(m, es[0]), es[1..])
  }

  /** The timers still ahead. A forced order never wakes from its first sleep. */
  function TimersAhead(at: Point): nat {
    if Position(at) < 5 then 170
    else if Position(at) < 7 then 160
    else if Position(at) < 9 then 90
    else if Position(at) < 11 then 60
    else 0
  }

  lemma ResumeSpendsEnough(c: Core, at: Point, wake: Wake)
    requires ClockKept(c, at) && !Expired(c) && Over(c, at, wake)
    ensures TimersBehind(Resume(c, at).core, Resume(c, at).at) <= TimersBehind(c, at) + TimerRun(c, at)
  {
    ResumeMoves(c, at);
  }

  lemma ResumeSpendsNoMore(c: Core, at: Point, wake: Wake)
    requires ClockKept(c, at) && !Expired(c) && Over(c, at, wake)
    ensures TimerRun(c, at) + TimersAhead(Resume(c, at).at) <= TimersAhead(at)
  {
    ResumeMoves(c, at);
  }

  lemma WakingSpends(m: Machine, a: Activation)
    requires ClockKept(m.core, m.at) && Leaves(m, a)
    ensures ClockKept(Woken(m, a), m.at)
    ensures TimerRun(Woken(m, a), m.at) == TimerSpent(m, a)
    ensures TimersBehind(Woken(m, a), m.at) == TimersBehind(m.core, m.at)
  {
    LeavingResumes(m, a);
    ResumeParts(Woken(m, a), m.at);
  }

  lemma StayingSpends(m: Machine, a: Activation)
    requires !Leaves(m, a)
    ensures Step(m, a).at == m.at && Step(m, a).core.fellBack == m.core.fellBack
  {
  }

  lemma StepSpends(m: Machine, a: Activation)
    requires ClockKept(m.core, m.at)
    ensures var n := Step(m, a);
            && TimersBehind(n.core, n.at) <= TimersBehind(m.core, m.at) + TimerSpent(m, a)
            && TimerSpent(m, a) + TimersAhead(n.at) <= TimersAhead(m.at)
  {
    if Leaves(m, a) {
      LeavingResumes(m, a);
      WakingSpends(m, a);
      ResumeSpendsEnough(Woken(m, a), m.at, a.wake);
      ResumeSpendsNoMore(Woken(m, a), m.at, a.wake);
    } else {
      StayingSpends(m, a);
    }
  }

  lemma StepClock(m: Machine, a: Activation)
    requires ClockKept(m.core, m.at)
    ensures ClockKept(Step(m, a).core, Step(m, a).at)
    ensures Step(m, a).status.Delivered? ==> m.status.Delivered? || Step(m, a).at.Settle?
  {
    var c := Woken(m, a);
    if m.status.Running? && !Expired(c) && Over(c, m.at, a.wake) {
      ResumeClock(c, m.at, a.wake);
    }
  }

  lemma {:induction false} RunSpends(m: Machine, es: seq<Activation>)
    requires ClockKept(m.core, m.at) && (m.status.Delivered? ==> m.at.Settle?)
    ensures var n := Run(m, es);
            && TimersBehind(n.core, n.at) <= TimersBehind(m.core, m.at) + TimerTime(m, es)
            && TimerTime(m, es) + TimersAhead(n.at) <= TimersAhead(m.at)
            && ClockKept(n.core, n.at) && (n.status.Delivered? ==> n.at.Settle?)
    decreases |es|
  {
    if es == [] {
    } else if m.status.Delivered? {
      assert Step(m, es[0]) == m;
      RunSpends(m, es[1..]);
    } else {
      StepSpends(m, es[0]);
      StepClock(m, es[0]);
      RunSpends(Step(m, es[0]), es[1..]);
    }
  }

  /** On every schedule an order spends at most 170 seconds on timers; delivered,
      it spent at least 140, and all 170 if it fell back, and that long it took. */
  lemma DeliveryTakesItsTimers(inp: Input, es: seq<Activation>)
    ensures TimerTime(Begin(inp), es) <= 170
    ensures var c := Reached(inp, es).core;
            Reached(inp, es).status.Delivered? ==>
              && 140 <= TimerTime(Begin(inp), es)
              && (c.fellBack ==> TimerTime(Begin(inp), es) == 170)
              && c.now >= 140 + if c.fellBack then 30 else 0
  {
    RunSpends(Begin(inp), es);
  }

  // ----- every order drains

  function Completions(es: seq<Activation>): nat
    decreases |es|
  {
    if es == [] then 0 else (if es[0].wake.Nothing? then 0 else 1) + Completions(es[1..])
  }

  /** No activity fails, and no timer fires early. Dispatch may refuse the
      request, answer whatever and whenever it likes, or stay silent. */
  predicate Willing(m: Machine, es: seq<Activation>)
    decreases |es|
  {
    es == [] ||
    (&& (es[0].wake.Broken? ==> m.at.Ready?)
     && (es[0].wake.Done? && TimerOf(m.at).Some? ==>
           es[0].now >= m.core.since + TimerOf(m.at).value)
     && Willing(Step(m, es[0]), es[1..]))
  }

  lemma WillingStep(m: Machine, a: Activation)
    requires m.status.Running? && Faultless(m.core.inp) && Willing(m, [a])
    ensures var n := Step(m, a);
            && n.core.inp == m.core.inp
            && (n.status.Running? || (n.status.Delivered? && m.at.Settle?))
            && (n.status.Running? ==>
                  Position(n.at) >= Position(m.at) + if a.wake.Nothing? then 0 else 1)
  {
    ResumeMoves(Woken(m, a), m.at);
    ResumeParts(Woken(m, a), m.at);
  }

  /** With no injected fault every order is delivered, whatever dispatch does:
      thirteen completions see it through. */
  lemma {:induction false} OrdersDrain(m: Machine, es: seq<Activation>)
    requires m.status.Running? && Faultless(m.core.inp) && Willing(m, es)
    requires Completions(es) >= 13 - Position(m.at)
    ensures Run(m, es).status.Delivered?
    decreases |es|
  {
    assert Position(m.at) <= 12;
    var n := Step(m, es[0]);
    assert Willing(m, [es[0]]);
    WillingStep(m, es[0]);
    if n.status.Delivered? {
      ClosedStays(n, es[1..]);
    } else {
      OrdersDrain(n, es[1..]);
    }
  }

  /** From its start, whatever dispatch does and however late anything is, an order
      with no injected fault is delivered with 140 to 170 seconds of timers. */
  lemma EveryOrderDelivers(inp: Input, es: seq<Activation>)
    requires Faultless(inp) && Willing(Begin(inp), es) && Completions(es) >= 12
    ensures Reached(inp, es).status.Delivered?
    ensures 140 <= TimerTime(Begin(inp), es) <= 170
  {
    OrdersDrain(Begin(inp), es);
    DeliveryTakesItsTimers(inp, es);
  }
}
