/** Recovery of a region once its degradation is lifted, and the length of an iteration. */
module DispatchRecovery {
  import opened DispatchModel
  import opened DispatchLedger
  import opened DispatchSafety

  /** Completions left before the current iteration's drain is over. */
  function Work(m: Machine): nat {
    2 * |m.core.pending| +
    match m.at
    case Noop(left) => left + 2
    case Sleep => 1
    case Wait => 0
    case Assign(_, _) => 2
    case Notify(_, _) => 1
  }

  function Completions(es: seq<Activation>): nat
    decreases |es|
  {
    if es == [] then 0 else (if es[0].done then 1 else 0) + Completions(es[1..])
  }

  function Recyclings(out: seq<Command>): nat
    decreases |out|
  {
    if out == [] then 0
    else Recyclings(out[..|out| - 1]) + if out[|out| - 1].ContinueAsNew? then 1 else 0
  }

  /** No degradation is signalled; orders and courier reports may be. */
  predicate NoneSet(es: seq<Activation>) {
    forall i :: 0 <= i < |es| ==> DegradationsIn(es[i].signals) == []
  }

  /** Parked, healthy, shown healthy, and within both thresholds. */
  predicate Green(m: Machine) {
    && m.at.Wait? && m.core.pending == []
    && m.core.degradation.Status() == Healthy && m.core.published == Healthy
    && m.core.processed < 200 && m.core.history <= 1500
  }

  lemma RecyclingsAppend(out: seq<Command>, x: Command)
    ensures Recyclings(out + [x]) == Recyclings(out) + if x.ContinueAsNew? then 1 else 0
  {
    assert (out + [x])[..|out|] == out;
  }

  lemma PublishCounts(c: Core)
    ensures Recyclings(Publish(c).out) == Recyclings(c.out)
  {
    RecyclingsAppend(c.out, UpsertStatus(c.degradation.Status(), |c.pending|));
  }

  /** Draining a healthy region: one order started, or green with at most one recycling. */
  lemma DrainHeals(c: Core)
    requires c.degradation.Status() == Healthy
    ensures var n := Drain(Thresholds, c);
            && n.core.degradation == c.degradation
            && if c.pending != []
               then n.at.Assign? && Work(n) == 2 * |c.pending| && Recyclings(n.core.out) == Recyclings(c.out)
               else Green(n) && Recyclings(n.core.out) <= Recyclings(c.out) + 1
  {
    if c.pending != [] {
      RecyclingsAppend(c.out, AssignCourier(Take(c).at.order, Take(c).at.pick));
    } else {
      RecyclingsAppend(c.out, Recycled(c));
      PublishCounts(NewRun(c));
      PublishCounts(c);
    }
  }

  lemma QuietResume(c: Core, at: Point)
    requires !at.Wait? && c.degradation.Status() == Healthy
    ensures var n := Resume(Thresholds, c, at);
            && n.core.degradation == c.degradation
            && if n.at.Wait? then Green(n) && Recyclings(n.core.out) <= Recyclings(c.out) + 1
               else Work(n) == Work(Machine(c, at)) - 1 && Recyclings(n.core.out) == Recyclings(c.out)
  {
    if at.Noop? {
      RecyclingsAppend(c.out, RunNoop(c.sequence + 1));
    } else if at.Sleep? {
      PublishCounts(c);
      DrainHeals(Publish(c));
    } else if at.Assign? {
      RecyclingsAppend(c.out, SignalOrder(at.order.workflowId, at.pick.Name()));
    } else {
      DrainHeals(c.(processed := c.processed + 1));
    }
  }

  /** One activation of a healthy region at work: on the way to green each
      completion does one unit of work and each order received adds two. */
  lemma HealthyStep(m: Machine, a: Activation)
    requires DegradationsIn(a.signals) == [] && !m.at.Wait? && m.core.degradation.Status() == Healthy
    ensures var n := Step(Thresholds, m, a);
            && n.core.degradation == m.core.degradation
            && if n.at.Wait? then Green(n) && Recyclings(n.core.out) <= Recyclings(m.core.out) + 1
               else Recyclings(n.core.out) == Recyclings(m.core.out)
                    && Work(n) + (if a.done then 1 else 0) == Work(m) + 2 * |OrdersIn(a.signals)|
  {
    DeliverAppends(m.core.(history := a.history), a.signals);
    LastOfDegradations(m.core.degradation, a.signals);
    var c := Deliver(m.core.(history := a.history), a.signals);
    if a.done {
      QuietResume(c, m.at);
    }
  }

  /** Once its degradation is lifted a region becomes green within as many
      completions as it has work, new orders included, on at most one
      continue-as-new, however many orders and couriers report meanwhile. */
  lemma {:induction false} RegionRecovers(m: Machine, es: seq<Activation>) returns (k: nat)
    requires Sound(m) && m.core.degradation.Status() == Healthy
    requires NoneSet(es) && Completions(es) >= Work(m) + 2 * |OrdersOf(es)|
    ensures k <= |es|
    ensures var n := Run(Thresholds, m, es[..k]);
            Green(n) && Recyclings(n.core.out) <= Recyclings(m.core.out) + 1
    decreases |es|
  {
    if m.at.Wait? {
      k := 0;
    } else {
      HealthyStep(m, es[0]);
      var n := Step(Thresholds, m, es[0]);
      if n.at.Wait? {
        k := 1;
        assert es[..1][1..] == [];
      } else {
        k := RegionRecovers(n, es[1..]);
        k := k + 1;
        assert es[..k][1..] == es[1..][..k - 1];
      }
    }
  }

  /** A green region stays exactly so until something is signalled. */
  lemma {:induction false} StaysGreen(m: Machine, es: seq<Activation>)
    requires Green(m)
    requires forall i :: 0 <= i < |es| ==> es[i].signals == [] && es[i].history == m.core.history
    ensures Run(Thresholds, m, es) == m
    decreases |es|
  {
    if es == [] {
    } else {
      assert Step(Thresholds, m, es[0]) == m;
      StaysGreen(m, es[1..]);
    }
  }

  // ----- how long an iteration is, and how far it overshoots

  function SignalsOf(es: seq<Activation>): nat
    decreases |es|
  {
    if es == [] then 0 else |es[0].signals| + SignalsOf(es[1..])
  }

  predicate SameIteration(m: Machine, es: seq<Activation>)
    decreases |es|
  {
    es == [] || (!Ends(m, es[0]) && SameIteration(Step(Thresholds, m, es[0]), es[1..]))
  }

  /** What one activation may add to the history: at most `k` events for each
      completion and each signal it brings. */
  predicate MeteredStep(m: Machine, a: Activation, k: nat) {
    a.history <= m.core.history + k * Charge(m, a)
  }

  /** The completion and the signals an activation brings. */
  function Charge(m: Machine, a: Activation): nat {
    (if a.done && !m.at.Wait? then 1 else 0) + |a.signals|
  }

  predicate Metered(m: Machine, es: seq<Activation>, k: nat)
    decreases |es|
  {
    es == [] || (MeteredStep(m, es[0], k) && Metered(Step(Thresholds, m, es[0]), es[1..], k))
  }

  /** Within an iteration each completion does one unit of work and each order
      received adds two. */
  lemma StepWorks(m: Machine, a: Activation)
    requires !Ends(m, a)
    ensures var n := Step(Thresholds, m, a);
            && Work(n) + (if a.done && !m.at.Wait? then 1 else 0) == Work(m) + 2 * |OrdersIn(a.signals)|
            && n.core.history == a.history
  {
    DeliverAppends(m.core.(history := a.history), a.signals);
  }

  /** An iteration ends when its arrivals do: once the completions have caught up
      with the work at hand and the orders received, the check has been reached. */
  lemma {:induction false} IterationEnds(m: Machine, es: seq<Activation>) returns (k: nat)
    requires !m.at.Wait? && Completions(es) >= Work(m) + 2 * |OrdersOf(es)|
    ensures k < |es| && SameIteration(m, es[..k]) && Ends(Run(Thresholds, m, es[..k]), es[k])
    decreases |es|
  {
    if Ends(m, es[0]) {
      k := 0;
    } else {
      var n := Step(Thresholds, m, es[0]);
      StepWorks(m, es[0]);
      k := IterationEnds(n, es[1..]);
      k := k + 1;
      assert es[..k][1..] == es[1..][..k - 1];
    }
  }

  function Charged(m: Machine, es: seq<Activation>): nat
    decreases |es|
  {
    if es == [] then 0 else Charge(m, es[0]) + Charged(Step(Thresholds, m, es[0]), es[1..])
  }

  lemma ChargesAdd(k: nat, d: nat, rest: nat, from: nat, via: nat, to: nat)
    requires via <= from + k * d && to <= via + k * rest
    ensures to <= from + k * (d + rest)
  {
    assert k * (d + rest) == k * d + k * rest;
  }

  lemma ChargesGrow(k: nat, d: nat, bound: nat, from: nat, to: nat)
    requires to <= from + k * d && d <= bound
    ensures to <= from + k * bound
  {
    assert k * bound == k * d + k * (bound - d);
  }

  lemma StepHistory(m: Machine, a: Activation)
    requires !Ends(m, a)
    ensures Step(Thresholds, m, a).core.history == a.history
  {
    StepWorks(m, a);
  }

  lemma {:induction false} HistoryIsCharged(m: Machine, es: seq<Activation>, a: Activation, k: nat)
    requires SameIteration(m, es) && Metered(m, es + [a], k)
    ensures a.history <= m.core.history + k * Charged(m, es + [a])
    decreases |es|
  {
    if es == [] {
      assert (es + [a])[1..] == [];
      assert Charged(m, es + [a]) == Charge(m, a);
    } else {
      var n := Step(Thresholds, m, es[0]);
      assert (es + [a])[1..] == es[1..] + [a];
      StepHistory(m, es[0]);
      HistoryIsCharged(n, es[1..], a, k);
      ChargesAdd(k, Charge(m, es[0]), Charged(n, es[1..] + [a]), m.core.history, es[0].history, a.history);
    }
  }

  lemma {:induction false} ChargedWithinWork(m: Machine, es: seq<Activation>, a: Activation)
    requires SameIteration(m, es) && Ends(Run(Thresholds, m, es), a)
    ensures Charged(m, es + [a]) <= Work(m) + 2 * |OrdersOf(es + [a])| + SignalsOf(es + [a])
    decreases |es|
  {
    if es == [] {
      assert (es + [a])[1..] == [];
    } else {
      assert (es + [a])[1..] == es[1..] + [a];
      StepWorks(m, es[0]);
      ChargedWithinWork(Step(Thresholds, m, es[0]), es[1..], a);
    }
  }

  /** An iteration overshoots the history threshold by at most its own events:
      its markers and timer, two per order at hand or received, and the signals. */
  lemma OvershootIsOneIteration(m: Machine, es: seq<Activation>, a: Activation, k: nat)
    requires SameIteration(m, es) && Metered(m, es + [a], k)
    requires Ends(Run(Thresholds, m, es), a)
    ensures a.history <= m.core.history + k * (Work(m) + 2 * |OrdersOf(es + [a])| + SignalsOf(es + [a]))
  {
    HistoryIsCharged(m, es, a, k);
    ChargedWithinWork(m, es, a);
    ChargesGrow(k, Charged(m, es + [a]), Work(m) + 2 * |OrdersOf(es + [a])| + SignalsOf(es + [a]),
                m.core.history, a.history);
  }

  /** The markers and the timer of one inflating iteration. */
  function MarkerWork(d: Degradation): nat {
    if d.inflateHistory then d.Rate() + 1 else 0
  }

  /** A region allowed to recycle that passes the check is within both limits at
      its loop top, and when it reaches the check again it is beyond the history
      limit by at most one iteration's events. */
  lemma OvershootFromCheck(c: Core, es: seq<Activation>, a: Activation, k: nat)
    requires c.pending == [] && !c.degradation.suspendCan && !Recycles(Thresholds, c)
    requires var m := Drain(Thresholds, c);
             SameIteration(m, es) && Metered(m, es + [a], k) && Ends(Run(Thresholds, m, es), a)
    ensures var m := Drain(Thresholds, c);
            && m.core.processed < 200 && m.core.history <= 1500
            && a.history <= 1500
               + k * (MarkerWork(c.degradation) + 2 * |OrdersOf(es + [a])| + SignalsOf(es + [a]))
  {
    OvershootIsOneIteration(Drain(Thresholds, c), es, a, k);
  }

  // ----- the processed count

  function InHand(m: Machine): nat {
    |m.core.pending| + |InFlight(m.at)|
  }

  lemma StepCounts(m: Machine, a: Activation)
    requires !Ends(m, a)
    ensures var n := Step(Thresholds, m, a);
            n.core.processed + InHand(n) == m.core.processed + InHand(m) + |OrdersIn(a.signals)|
  {
    DeliverAppends(m.core.(history := a.history), a.signals);
  }

  /** The check sees every order the iteration had or received. */
  lemma {:induction false} CountAtCheck(m: Machine, es: seq<Activation>, a: Activation)
    requires SameIteration(m, es) && Ends(Run(Thresholds, m, es), a)
    ensures AtCheck(Run(Thresholds, m, es), a).processed == m.core.processed + InHand(m) + |OrdersOf(es + [a])|
    decreases |es|
  {
    if es == [] {
      assert es + [a] == [a] && OrdersOf([a]) == OrdersIn(a.signals) + [];
      DeliverAppends(m.core.(history := a.history), a.signals);
    } else {
      assert (es + [a])[1..] == es[1..] + [a];
      StepCounts(m, es[0]);
      CountAtCheck(Step(Thresholds, m, es[0]), es[1..], a);
    }
  }

  /** After a passed check the count stays within the limit up to the next check
      if and only if no more orders arrive in between than the limit has room for. */
  lemma CountStaysWithinExactly(c: Core, es: seq<Activation>, a: Activation)
    requires c.pending == [] && !Recycles(Thresholds, c)
    requires var m := Drain(Thresholds, c); SameIteration(m, es) && Ends(Run(Thresholds, m, es), a)
    ensures AtCheck(Run(Thresholds, Drain(Thresholds, c), es), a).processed <= 200 <==>
            |OrdersOf(es + [a])| <= 200 - c.processed
    ensures !c.degradation.suspendCan ==> c.processed < 200
  {
    CountAtCheck(Drain(Thresholds, c), es, a);
  }

  function Ticks(n: nat): seq<Activation> {
    if n == 0 then [] else [Activation([], true, 10), Activation([], true, 10)] + Ticks(n - 1)
  }

  lemma {:induction false} ServesOn(m: Machine, k: nat)
    requires m.at.Assign? && |m.core.pending| >= k
    ensures var n := Run(Thresholds, m, Ticks(k));
            n.at.Assign? && n.core.processed == m.core.processed + k && n.core.degradation == m.core.degradation
    decreases k
  {
    if k == 0 {
    } else {
      var es := Ticks(k);
      var m1 := Step(Thresholds, m, es[0]);
      assert m1.at.Notify? && m1.core.pending == m.core.pending;
      var m2 := Step(Thresholds, m1, es[1]);
      assert es[1..][1..] == Ticks(k - 1) && es[1..][0] == es[1];
      assert Run(Thresholds, m, es) == Run(Thresholds, m1, es[1..]) == Run(Thresholds, m2, Ticks(k - 1));
      ServesOn(m2, k - 1);
    }
  }

  function Burst(n: nat): seq<Signal> {
    if n == 0 then [] else [OrderReady(Order("o", "order-o"))] + Burst(n - 1)
  }

  lemma {:induction false} BurstOrders(n: nat)
    ensures |OrdersIn(Burst(n))| == n
  {
    if n == 0 {
    } else {
      assert Burst(n)[1..] == Burst(n - 1);
      BurstOrders(n - 1);
    }
  }

  /** The threshold on the processed count is only looked at once the drain is
      empty, so one healthy run can serve any number of orders beyond it. */
  lemma ProcessedHasNoBound(region: string, n: nat)
    ensures exists es :: && Reached(region, es).core.processed >= n
                         && Reached(region, es).core.degradation.Status() == Healthy
  {
    var a := Activation(Burst(n + 1), false, 10);
    var m := Begin(Thresholds, FreshState(region));
    DeliverAppends(m.core.(history := 10), a.signals);
    BurstOrders(n + 1);
    var m1 := Step(Thresholds, m, a);
    BurstIsOrders(n + 1, m.core.degradation);
    assert m1.at.Assign? && |m1.core.pending| == n;
    ServesOn(m1, n);
    var es := [a] + Ticks(n);
    assert es[1..] == Ticks(n);
    assert Reached(region, es) == Run(Thresholds, m1, Ticks(n));
  }

  lemma {:induction false} BurstIsOrders(n: nat, d: Degradation)
    ensures LastDegradation(d, Burst(n)) == d
  {
    if n == 0 {
    } else {
      assert Burst(n)[1..] == Burst(n - 1);
      BurstIsOrders(n - 1, d);
    }
  }
}
