/** How an order ends other than by delivery, and what ends its waits. */
module OrderClosing {
  import opened Names
  import opened Wrappers
  import opened OrderModel
  import opened OrderSafety
  import opened OrderTiming

  // ----- the forced timeout

  /** A forced order sleeps until its execution timeout. */
  predicate Sleeping(m: Machine) {
    && m.core.inp.forceTimeout && m.at.ForcedSleep? && m.core.since == 0
    && (m.status.TimedOut? || (m.status.Running? && m.core.now < 10))
  }

  lemma SleepStep(m: Machine, a: Activation)
    requires Sleeping(m)
    ensures Sleeping(Step(m, a))
    ensures Step(m, a).status.TimedOut? <==> m.status.TimedOut? || a.now >= 10
  {
  }

  lemma {:induction false} SleepRun(m: Machine, es: seq<Activation>)
    requires Sleeping(m)
    ensures Sleeping(Run(m, es))
    ensures Run(m, es).status.TimedOut? <==> m.status.TimedOut? || exists i :: 0 <= i < |es| && es[i].now >= 10
    decreases |es|
  {
    if es == [] {
    } else {
      var n := Step(m, es[0]);
      SleepStep(m, es[0]);
      SleepRun(n, es[1..]);
      assert Run(m, es) == Run(n, es[1..]);
      assert forall i :: 1 <= i < |es| ==> es[i] == es[1..][i - 1];
    }
  }

  /** A forced order does nothing but sleep, and times out with the first activation
      at ten seconds or later. */
  lemma ForcedTimesOut(inp: Input, es: seq<Activation>)
    requires inp.forceTimeout
    ensures var m := Reached(inp, es);
            && m.at.ForcedSleep?
            && m.status == if exists i :: 0 <= i < |es| && es[i].now >= 10 then TimedOut else Running
  {
    SleepRun(Begin(inp), es);
  }

  lemma UnforcedStep(m: Machine, a: Activation)
    requires !m.core.inp.forceTimeout && !m.status.TimedOut?
    ensures !Step(m, a).core.inp.forceTimeout && !Step(m, a).status.TimedOut?
  {
    StepKeepsInput(m, a);
    ResumeMoves(Woken(m, a), m.at);
  }

  lemma {:induction false} UnforcedRun(m: Machine, es: seq<Activation>)
    requires !m.core.inp.forceTimeout && !m.status.TimedOut?
    ensures !Run(m, es).status.TimedOut?
    decreases |es|
  {
    if es == [] {
    } else {
      UnforcedStep(m, es[0]);
      UnforcedRun(Step(m, es[0]), es[1..]);
    }
  }

  /** No other order times out. */
  lemma OnlyForcedTimeOut(inp: Input, es: seq<Activation>)
    requires !inp.forceTimeout
    ensures !Reached(inp, es).status.TimedOut?
  {
    UnforcedRun(Begin(inp), es);
  }

  // ----- failure

  /** A fault strikes: an activity or the hand-over to settlement breaks, or an
      injected fault is met. */
  predicate Struck(inp: Input, at: Point, wake: Wake) {
    || (wake.Broken? && at in {Validate, Authorize, Send, Poll, PickUp, DeliverOrder, Settle})
    || (wake.Done? && at.Validate? && inp.slowValidate)
    || (wake.Done? && at.Send? && inp.failAtRestaurant)
  }

  lemma ReachedRunning(inp: Input, es: seq<Activation>)
    requires !inp.forceTimeout && Reached(inp, es).status.Running?
    ensures !Reached(inp, es).core.inp.forceTimeout && Reached(inp, es).core.inp == inp
  {
    ReachedInput(inp, es);
  }

  /** An order that is not forced fails if and only if a fault strikes what it
      awaits; a broken signal or timer is no fault. */
  lemma FailsExactlyWhenStruck(inp: Input, es: seq<Activation>, a: Activation)
    requires !inp.forceTimeout && Reached(inp, es).status.Running?
    ensures Step(Reached(inp, es), a).status.Failed? <==> Struck(inp, Reached(inp, es).at, a.wake)
  {
    var m := Reached(inp, es);
    ReachedRunning(inp, es);
    ResumeMoves(Woken(m, a), m.at);
  }

  /** The stage an injected fault waits for, and the completions it takes to get there. */
  predicate Ahead(m: Machine) {
    && !m.core.inp.forceTimeout && m.status.Running?
    && (if m.core.inp.slowValidate then m.at.Validate?
        else m.core.inp.failAtRestaurant && 1 <= Position(m.at) <= 3)
  }

  function StepsToFault(m: Machine): nat {
    if m.core.inp.slowValidate then 1 else if Position(m.at) <= 3 then 4 - Position(m.at) else 0
  }

  lemma DoomedStep(m: Machine, a: Activation)
    requires Ahead(m)
    ensures var n := Step(m, a);
            && n.core.inp == m.core.inp
            && (if a.wake.Nothing? then Ahead(n) && n.at == m.at
                else n.status.Failed? || (Ahead(n) && StepsToFault(n) == StepsToFault(m) - 1))
            && (n.status.Failed? && a.wake.Done? ==> n.at == if m.core.inp.slowValidate then Validate else Send)
  {
    StepKeepsInput(m, a);
    ResumeMoves(Woken(m, a), m.at);
  }

  predicate NothingBreaks(es: seq<Activation>) {
    forall i :: 0 <= i < |es| ==> !es[i].wake.Broken?
  }

  lemma {:induction false} DoomedRun(m: Machine, es: seq<Activation>)
    requires Ahead(m) && Completions(es) >= StepsToFault(m)
    ensures Run(m, es).status.Failed?
    ensures NothingBreaks(es) ==> Run(m, es).at == if m.core.inp.slowValidate then Validate else Send
    decreases |es|
  {
    if es == [] {
      assert false;
    } else {
      var n := Step(m, es[0]);
      DoomedStep(m, es[0]);
      if n.status.Failed? {
        ClosedStays(n, es[1..]);
      } else {
        DoomedRun(n, es[1..]);
      }
    }
  }

  /** An order the restaurant is to reject fails after three completions, at the
      restaurant unless something broke before. */
  lemma RejectedOrderFails(inp: Input, es: seq<Activation>)
    requires inp.failAtRestaurant && !inp.slowValidate && !inp.forceTimeout && Completions(es) >= 3
    ensures Reached(inp, es).status.Failed?
    ensures NothingBreaks(es) ==> Reached(inp, es).at.Send?
  {
    DoomedRun(Begin(inp), es);
  }

  /** A slow validation fails the order there and then. */
  lemma SlowOrderFails(inp: Input, es: seq<Activation>)
    requires inp.slowValidate && !inp.forceTimeout && Completions(es) >= 1
    ensures Reached(inp, es).status.Failed? && (NothingBreaks(es) ==> Reached(inp, es).at.Validate?)
  {
    DoomedRun(Begin(inp), es);
  }

  // ----- the courier wait

  /** Whoever waits for a courier has none. */
  predicate WaitsAlone(m: Machine) {
    m.status.Running? && m.at.AwaitCourier? ==> m.core.courier.None? && !m.core.fellBack
  }

  lemma StepWaitsAlone(m: Machine, a: Activation)
    requires WaitsAlone(m) && CouriersKept(m.core, m.at)
    ensures WaitsAlone(Step(m, a))
  {
  }

  lemma {:induction false} RunWaitsAlone(m: Machine, es: seq<Activation>)
    requires WaitsAlone(m) && Kept(m)
    ensures WaitsAlone(Run(m, es))
    decreases |es|
  {
    if es == [] {
    } else {
      StepWaitsAlone(m, es[0]);
      StepKept(m, es[0]);
      RunWaitsAlone(Step(m, es[0]), es[1..]);
    }
  }

  lemma NotForcedBy(c: Core, at: Point)
    requires ClockKept(c, at) && at.AwaitCourier?
    ensures !c.inp.forceTimeout && c.since <= c.now
  {
  }

  lemma WaitingReached(inp: Input, es: seq<Activation>)
    requires var m := Reached(inp, es); m.status.Running? && m.at.AwaitCourier?
    ensures var c := Reached(inp, es).core;
            c.courier.None? && !c.fellBack && !c.inp.forceTimeout && c.inp == inp && c.since <= c.now
  {
    RunWaitsAlone(Begin(inp), es);
    ReachedKept(inp, es);
    ReachedInput(inp, es);
    NotForcedBy(Reached(inp, es).core, Reached(inp, es).at);
  }

  /** An answer ends the courier wait at once, timer or no timer. */
  lemma AnswerEndsWait(inp: Input, es: seq<Activation>, a: Activation)
    requires var m := Reached(inp, es); m.status.Running? && m.at.AwaitCourier?
    requires a.answers != []
    ensures var n := Step(Reached(inp, es), a);
            && n.status.Running? && n.at.PickUp? && !n.core.fellBack
            && n.core.courier == Some(a.answers[|a.answers| - 1])
  {
    WaitingReached(inp, es);
  }

  /** Without one, the wait ends in the fallback once its thirty seconds are over and
      not before. */
  lemma SilenceFallsBack(inp: Input, es: seq<Activation>, a: Activation)
    requires var m := Reached(inp, es); m.status.Running? && m.at.AwaitCourier?
    requires a.answers == [] && a.wake.Done?
    ensures var m, n := Reached(inp, es), Step(Reached(inp, es), a);
            if a.now >= m.core.since + 30 || m.core.now >= m.core.since + 30
            then n.at.PickUp? && n.core.fellBack && n.core.courier == Some(FallbackCourier(inp.orderId))
            else n.at.AwaitCourier? && n.status.Running? && n.core.courier.None?
  {
    WaitingReached(inp, es);
  }

  // ----- who is called unknown

  /** A settlement pays "unknown" if and only if the last answer heard before it
      was empty or said so. */
  lemma UnknownPaidExactly(inp: Input, es: seq<Activation>)
    requires Reached(inp, es).at.Settle?
    ensures var c := Reached(inp, es).core;
            && c.heardAtSettlement <= |c.heard|
            && (Books(c.out).payees == ["unknown"] <==>
                  c.heardAtSettlement > 0 && c.heard[c.heardAtSettlement - 1] in {"", "unknown"})
  {
    ReachedKept(inp, es);
    ReachedInput(inp, es);
    var c := Reached(inp, es).core;
    UnknownAt(c, Books(c.out).carriers, Books(c.out).payees);
  }

  lemma UnknownAt(c: Core, carriers: seq<string>, payees: seq<string>)
    requires Named(c, Settle, carriers, payees)
    ensures c.heardAtSettlement <= |c.heard|
    ensures payees == ["unknown"] <==>
              c.heardAtSettlement > 0 && c.heard[c.heardAtSettlement - 1] in {"", "unknown"}
  {
    var payee := OrUnknown(Effective(c.heard, c.heardAtSettlement, Fallback(c)));
    SingletonsDiffer(payee, "unknown");
    assert FallbackCourier(c.inp.orderId)[0] == 's' && "unknown"[0] == 'u';
  }
}
